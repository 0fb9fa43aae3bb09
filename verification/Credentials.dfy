/** Credential lookup, the uniqueness the configuration check enforces, and the edits of the token commands. */
module Credentials {
  import opened Prelude
  import opened Config

  // ------------------------------------------------------------------ lookup

  function FindIn(creds: seq<Credential>, id: string): (r: Option<Credential>)
    ensures r.Some? ==> r.value in creds && r.value.id == id && !r.value.disabled
    ensures r.None? ==> forall c | c in creds :: c.id != id || c.disabled
  {
    if creds == [] then None
    else if creds[0].id == id && !creds[0].disabled then Some(creds[0])
    else FindIn(creds[1..], id)
  }

  /** FindCredential: the first enabled token holding an enabled credential with the id. */
  function FindCredential(tokens: seq<TokenPolicy>, id: string): Option<(TokenPolicy, Credential)> {
    if tokens == [] then None
    else if !tokens[0].disabled && FindIn(tokens[0].credentials, id).Some? then
      Some((tokens[0], FindIn(tokens[0].credentials, id).value))
    else FindCredential(tokens[1..], id)
  }

  /** The two nested search loops, returning positions. */
  method FindCredentialLoop(tokens: seq<TokenPolicy>, id: string) returns (found: bool, i: nat, j: nat)
    ensures found <==> FindCredential(tokens, id).Some?
    ensures found ==> i < |tokens| && j < |tokens[i].credentials|
    ensures found ==> FindCredential(tokens, id) == Some((tokens[i], tokens[i].credentials[j]))
  {
    found, i, j := false, 0, 0;
    while i < |tokens|
      invariant i <= |tokens|
      invariant FindCredential(tokens, id) == FindCredential(tokens[i..], id)
    {
      if !tokens[i].disabled {
        var creds := tokens[i].credentials;
        j := 0;
        while j < |creds|
          invariant j <= |creds|
          invariant FindIn(creds, id) == FindIn(creds[j..], id)
        {
          if creds[j].id == id && !creds[j].disabled {
            found := true;
            return;
          }
          assert creds[j..][1..] == creds[j + 1..];
          j := j + 1;
        }
      }
      assert tokens[i..][1..] == tokens[i + 1..];
      i := i + 1;
    }
  }

  // -------------------------------------------------------------- uniqueness

  /** Token ids and credential ids, each given and used once; no digest is missing. */
  predicate ValidIds(tokens: seq<TokenPolicy>) {
    && (forall i | 0 <= i < |tokens| :: tokens[i].id != "")
    && (forall i, k | 0 <= i < k < |tokens| :: tokens[i].id != tokens[k].id)
    && (forall i | 0 <= i < |tokens| :: ValidCredentials(tokens[i].credentials))
    && (forall i, k | 0 <= i < k < |tokens| :: NoSharedId(tokens[i].credentials, tokens[k].credentials))
  }

  predicate ValidCredentials(creds: seq<Credential>) {
    && (forall j | 0 <= j < |creds| :: creds[j].id != "" && creds[j].digest != "")
    && (forall j, l | 0 <= j < l < |creds| :: creds[j].id != creds[l].id)
  }

  predicate NoSharedId(a: seq<Credential>, b: seq<Credential>) {
    forall j, l | 0 <= j < |a| && 0 <= l < |b| :: a[j].id != b[l].id
  }

  /** The id checks of Validate: two loops that fill the sets of ids seen. */
  method CheckIds(tokens: seq<TokenPolicy>) returns (ok: bool)
    ensures ok <==> ValidIds(tokens)
  {
    var tokenIds: set<string>, credIds: set<string> := {}, {};
    for i := 0 to |tokens|
      invariant ValidIds(tokens[..i])
      invariant forall id :: id in tokenIds <==> exists k :: 0 <= k < i && tokens[k].id == id
      invariant forall id :: id in credIds <==> exists k :: 0 <= k < i && HasId(tokens[k].credentials, id)
    {
      if tokens[i].id == "" || tokens[i].id in tokenIds {
        return false;
      }
      tokenIds := tokenIds + {tokens[i].id};
      var fine;
      ghost var before := credIds;
      fine, credIds := CheckCredentials(tokens[i].credentials, credIds);
      if !fine {
        Rejected(tokens, i, before);
        return false;
      }
      Accepted(tokens, i, before);
    }
    assert tokens[..|tokens|] == tokens;
    return true;
  }

  predicate HasId(creds: seq<Credential>, id: string) {
    exists j | 0 <= j < |creds| :: creds[j].id == id
  }

  method CheckCredentials(creds: seq<Credential>, seen: set<string>) returns (ok: bool, now: set<string>)
    ensures ok <==> ValidCredentials(creds) && forall id | id in seen :: !HasId(creds, id)
    ensures ok ==> forall id :: id in now <==> id in seen || HasId(creds, id)
  {
    now := seen;
    for j := 0 to |creds|
      invariant ValidCredentials(creds[..j])
      invariant forall id :: id in now <==> id in seen || HasId(creds[..j], id)
      invariant forall l | 0 <= l < j :: creds[l].id !in seen
    {
      if creds[j].id == "" || creds[j].digest == "" {
        return false, now;
      }
      if creds[j].id in now {
        if HasId(creds[..j], creds[j].id) {
          var l :| 0 <= l < j && creds[..j][l].id == creds[j].id;
          assert creds[l].id == creds[j].id;
        } else {
          assert HasId(creds, creds[j].id);
        }
        return false, now;
      }
      ghost var was := now;
      now := now + {creds[j].id};
      assert creds[..j + 1] == creds[..j] + [creds[j]];
      forall id
        ensures id in now <==> id in seen || HasId(creds[..j + 1], id)
      {
        if HasId(creds[..j], id) {
          var l :| 0 <= l < j && creds[..j][l].id == id;
          assert creds[..j + 1][l].id == id;
        }
        assert creds[..j + 1][j].id == creds[j].id;
      }
    }
    assert creds[..|creds|] == creds;
    return true, now;
  }

  lemma Rejected(tokens: seq<TokenPolicy>, i: nat, seen: set<string>)
    requires i < |tokens|
    requires forall id :: id in seen <==> exists k :: 0 <= k < i && HasId(tokens[k].credentials, id)
    requires !ValidCredentials(tokens[i].credentials) || exists id :: id in seen && HasId(tokens[i].credentials, id)
    ensures !ValidIds(tokens)
  {
    if ValidCredentials(tokens[i].credentials) {
      var id :| id in seen && HasId(tokens[i].credentials, id);
      var k :| 0 <= k < i && HasId(tokens[k].credentials, id);
      assert !NoSharedId(tokens[k].credentials, tokens[i].credentials);
    }
  }

  lemma Accepted(tokens: seq<TokenPolicy>, i: nat, seen: set<string>)
    requires i < |tokens| && ValidIds(tokens[..i])
    requires forall id :: id in seen <==> exists k :: 0 <= k < i && HasId(tokens[k].credentials, id)
    requires ValidCredentials(tokens[i].credentials) && forall id | id in seen :: !HasId(tokens[i].credentials, id)
    requires tokens[i].id != "" && forall k | 0 <= k < i :: tokens[k].id != tokens[i].id
    ensures ValidIds(tokens[..i + 1])
  {
    var now := tokens[..i + 1];
    forall k, m | 0 <= k < m < |now|
      ensures NoSharedId(now[k].credentials, now[m].credentials)
    {
      if m < i {
        assert NoSharedId(tokens[..i][k].credentials, tokens[..i][m].credentials);
      } else {
        forall j, l | 0 <= j < |now[k].credentials| && 0 <= l < |now[m].credentials|
          ensures now[k].credentials[j].id != now[m].credentials[l].id
        {
          assert HasId(tokens[k].credentials, now[k].credentials[j].id);
          assert now[k].credentials[j].id in seen;
        }
      }
    }
    forall k, m | 0 <= k < m < |now|
      ensures now[k].id != now[m].id
    {
      if m < i {
        assert tokens[..i][k].id != tokens[..i][m].id;
      }
    }
    forall k | 0 <= k < |now|
      ensures now[k].id != "" && ValidCredentials(now[k].credentials)
    {
      if k < i {
        assert tokens[..i][k].id != "" && ValidCredentials(tokens[..i][k].credentials);
      }
    }
  }

  /** The credential is enabled, held by an enabled token of the list, and has the id. */
  predicate Resolves(tokens: seq<TokenPolicy>, id: string, i: nat, j: nat) {
    i < |tokens| && j < |tokens[i].credentials| &&
    !tokens[i].disabled && !tokens[i].credentials[j].disabled && tokens[i].credentials[j].id == id
  }

  lemma {:induction false} FoundResolves(tokens: seq<TokenPolicy>, id: string)
    ensures FindCredential(tokens, id).Some? <==> exists i: nat, j: nat :: Resolves(tokens, id, i, j)
    ensures FindCredential(tokens, id).Some? ==>
      exists i: nat, j: nat :: Resolves(tokens, id, i, j) && FindCredential(tokens, id) == Some((tokens[i], tokens[i].credentials[j]))
  {
    if tokens != [] {
      var rest := tokens[1..];
      if !tokens[0].disabled && FindIn(tokens[0].credentials, id).Some? {
        var j :| 0 <= j < |tokens[0].credentials| && tokens[0].credentials[j] == FindIn(tokens[0].credentials, id).value;
        assert Resolves(tokens, id, 0, j);
      } else {
        FoundResolves(rest, id);
        if FindCredential(rest, id).Some? {
          var i: nat, j: nat :| Resolves(rest, id, i, j) && FindCredential(rest, id) == Some((rest[i], rest[i].credentials[j]));
          assert Resolves(tokens, id, i + 1, j) && tokens[i + 1] == rest[i];
        }
        if i: nat, j: nat :| Resolves(tokens, id, i, j) {
          assert i > 0 ==> Resolves(rest, id, i - 1, j);
          assert i == 0 ==> tokens[0].credentials[j] in tokens[0].credentials;
        }
      }
    }
  }

  lemma SamePlace(tokens: seq<TokenPolicy>, id: string, i: nat, j: nat, k: nat, l: nat)
    requires ValidIds(tokens)
    requires i < |tokens| && j < |tokens[i].credentials| && tokens[i].credentials[j].id == id
    requires k < |tokens| && l < |tokens[k].credentials| && tokens[k].credentials[l].id == id
    ensures i == k && j == l
  {
    assert i < k ==> NoSharedId(tokens[i].credentials, tokens[k].credentials);
    assert k < i ==> NoSharedId(tokens[k].credentials, tokens[i].credentials);
  }

  /** With unique ids a lookup finds exactly the credential that carries the id, if it and its token are enabled. */
  lemma LookupIsExact(tokens: seq<TokenPolicy>, id: string, i: nat, j: nat)
    requires ValidIds(tokens) && Resolves(tokens, id, i, j)
    ensures FindCredential(tokens, id) == Some((tokens[i], tokens[i].credentials[j]))
  {
    FoundResolves(tokens, id);
    var k: nat, l: nat :| Resolves(tokens, id, k, l) && FindCredential(tokens, id) == Some((tokens[k], tokens[k].credentials[l]));
    SamePlace(tokens, id, i, j, k, l);
  }

  /** Lookups do not depend on the order of the tokens. */
  lemma OrderIrrelevant(tokens: seq<TokenPolicy>, reordered: seq<TokenPolicy>, id: string)
    requires ValidIds(tokens) && ValidIds(reordered)
    requires forall t :: t in tokens <==> t in reordered
    ensures FindCredential(tokens, id) == FindCredential(reordered, id)
  {
    FoundResolves(tokens, id);
    FoundResolves(reordered, id);
    if i: nat, j: nat :| Resolves(tokens, id, i, j) {
      assert tokens[i] in reordered;
      var k :| 0 <= k < |reordered| && reordered[k] == tokens[i];
      LookupIsExact(tokens, id, i, j);
      LookupIsExact(reordered, id, k, j);
    } else if k: nat, l: nat :| Resolves(reordered, id, k, l) {
      assert reordered[k] in tokens;
      var i :| 0 <= i < |tokens| && tokens[i] == reordered[k];
      assert Resolves(tokens, id, i, l);
    }
  }

  // ------------------------------------------------------------------- edits

  function Enabled(creds: seq<Credential>): seq<Credential> {
    if creds == [] then []
    else
      var front := Enabled(creds[..|creds| - 1]);
      if creds[|creds| - 1].disabled then front else front + [creds[|creds| - 1]]
  }

  function Disabled(creds: seq<Credential>, id: string): (r: seq<Credential>)
    ensures |r| == |creds|
    ensures forall i | 0 <= i < |creds| :: r[i] == if creds[i].id == id then creds[i].(disabled := true) else creds[i]
  {
    seq(|creds|, i requires 0 <= i < |creds| => if creds[i].id == id then creds[i].(disabled := true) else creds[i])
  }

  function WithCredentials(tokens: seq<TokenPolicy>, i: nat, creds: seq<Credential>): seq<TokenPolicy>
    requires i < |tokens|
  {
    tokens[i := tokens[i].(credentials := creds)]
  }

  lemma {:induction false} EnabledLength(creds: seq<Credential>)
    ensures |Enabled(creds)| <= |creds|
  {
    if creds != [] {
      EnabledLength(creds[..|creds| - 1]);
    }
  }

  /** The prune loop: compaction over the list's own storage. */
  method PruneInPlace(a: array<Credential>) returns (kept: nat)
    modifies a
    ensures kept <= a.Length
    ensures a[..kept] == Enabled(old(a[..]))
  {
    kept := 0;
    for i := 0 to a.Length
      invariant kept <= i
      invariant a[..kept] == Enabled(old(a[..])[..i])
      invariant forall k | i <= k < a.Length :: a[k] == old(a[..])[k]
    {
      assert old(a[..])[..i + 1][..i] == old(a[..])[..i];
      if !a[i].disabled {
        a[kept] := a[i];
        kept := kept + 1;
      }
    }
    assert old(a[..])[..a.Length] == old(a[..]);
  }

  /** The disable loop: every credential with the id is marked in place. */
  method DisableInPlace(a: array<Credential>, id: string) returns (found: bool)
    modifies a
    ensures a[..] == Disabled(old(a[..]), id)
    ensures found <==> HasId(old(a[..]), id)
  {
    found := false;
    for i := 0 to a.Length
      invariant forall k | 0 <= k < i :: a[k] == Disabled(old(a[..]), id)[k]
      invariant forall k | i <= k < a.Length :: a[k] == old(a[..])[k]
      invariant found <==> exists k :: 0 <= k < i && old(a[..])[k].id == id
    {
      if a[i].id == id {
        a[i] := a[i].(disabled := true);
        found := true;
      }
    }
  }

  /** Lookup results as a caller sees them: the credential, and the token apart from its list. */
  function Seen(r: Option<(TokenPolicy, Credential)>): Option<(TokenPolicy, Credential)> {
    match r
    case None => None
    case Some((tok, cred)) => Some((tok.(credentials := []), cred))
  }

  lemma {:induction false} FindInEnabled(creds: seq<Credential>, id: string)
    ensures FindIn(Enabled(creds), id) == FindIn(creds, id)
  {
    if creds != [] {
      var front, last := creds[..|creds| - 1], creds[|creds| - 1];
      FindInEnabled(front, id);
      FindInAppend(front, last, id);
      FindInAppend(Enabled(front), last, id);
      assert creds == front + [last];
    }
  }

  lemma {:induction false} FindInAppend(creds: seq<Credential>, last: Credential, id: string)
    ensures FindIn(creds + [last], id) ==
      if FindIn(creds, id).Some? then FindIn(creds, id) else if last.id == id && !last.disabled then Some(last) else None
  {
    if creds == [] {
      assert creds + [last] == [last];
      assert [last][1..] == [];
    } else {
      assert (creds + [last])[1..] == creds[1..] + [last];
      FindInAppend(creds[1..], last, id);
    }
  }

  lemma {:induction false} FindInDisabled(creds: seq<Credential>, gone: string, id: string)
    ensures FindIn(Disabled(creds, gone), id) == if id == gone then None else FindIn(creds, id)
  {
    if creds != [] {
      assert Disabled(creds, gone)[1..] == Disabled(creds[1..], gone);
      FindInDisabled(creds[1..], gone, id);
    }
  }

  /** If one token's list is replaced, only lookups that end in that list can change. */
  lemma {:induction false} EditedLookup(tokens: seq<TokenPolicy>, i: nat, creds: seq<Credential>, id: string)
    requires i < |tokens|
    requires FindIn(creds, id) == FindIn(tokens[i].credentials, id)
    ensures Seen(FindCredential(WithCredentials(tokens, i, creds), id)) == Seen(FindCredential(tokens, id))
  {
    var edited := WithCredentials(tokens, i, creds);
    if i == 0 {
      assert edited[1..] == tokens[1..];
    } else {
      assert edited[1..] == WithCredentials(tokens[1..], i - 1, creds);
      EditedLookup(tokens[1..], i - 1, creds, id);
    }
  }

  /** Pruning changes no lookup. */
  lemma PruneKeepsLookups(tokens: seq<TokenPolicy>, i: nat, id: string)
    requires i < |tokens|
    ensures Seen(FindCredential(WithCredentials(tokens, i, Enabled(tokens[i].credentials)), id)) == Seen(FindCredential(tokens, id))
  {
    FindInEnabled(tokens[i].credentials, id);
    EditedLookup(tokens, i, Enabled(tokens[i].credentials), id);
  }

  lemma NotHeldElsewhere(tokens: seq<TokenPolicy>, id: string)
    requires forall k, l | 0 <= k < |tokens| && 0 <= l < |tokens[k].credentials| ::
      tokens[k].credentials[l].id != id || tokens[k].credentials[l].disabled
    ensures FindCredential(tokens, id).None?
  {
    FoundResolves(tokens, id);
  }

  /** Disabling a credential makes exactly its id unresolvable. */
  lemma DisableRemovesOneId(tokens: seq<TokenPolicy>, i: nat, gone: string, id: string)
    requires ValidIds(tokens) && i < |tokens| && HasId(tokens[i].credentials, gone)
    ensures var edited := WithCredentials(tokens, i, Disabled(tokens[i].credentials, gone));
      Seen(FindCredential(edited, id)) == if id == gone then None else Seen(FindCredential(tokens, id))
  {
    var edited := WithCredentials(tokens, i, Disabled(tokens[i].credentials, gone));
    FindInDisabled(tokens[i].credentials, gone, id);
    if id == gone {
      var j :| 0 <= j < |tokens[i].credentials| && tokens[i].credentials[j].id == gone;
      forall k, l | 0 <= k < |edited| && 0 <= l < |edited[k].credentials|
        ensures edited[k].credentials[l].id != id || edited[k].credentials[l].disabled
      {
        if k != i && edited[k].credentials[l].id == id {
          SamePlace(tokens, id, i, j, k, l);
        }
      }
      NotHeldElsewhere(edited, id);
    } else {
      EditedLookup(tokens, i, Disabled(tokens[i].credentials, gone), id);
    }
  }

  /** Rotating in a fresh credential keeps ids unique, changes no other lookup, and makes the new id
      resolve exactly when the token is enabled. */
  lemma RotateAddsOneId(tokens: seq<TokenPolicy>, i: nat, added: Credential, id: string)
    requires ValidIds(tokens) && i < |tokens| && added.id != "" && added.digest != "" && !added.disabled
    requires forall k | 0 <= k < |tokens| :: !HasId(tokens[k].credentials, added.id)
    ensures var edited := WithCredentials(tokens, i, tokens[i].credentials + [added]);
      ValidIds(edited) &&
      Seen(FindCredential(edited, id)) ==
        if id != added.id then Seen(FindCredential(tokens, id))
        else if tokens[i].disabled then None
        else Some((tokens[i].(credentials := []), added))
  {
    var creds := tokens[i].credentials + [added];
    var edited := WithCredentials(tokens, i, creds);
    RotateKeepsIdsUnique(tokens, i, added);
    FindInAppend(tokens[i].credentials, added, id);
    if id != added.id {
      EditedLookup(tokens, i, creds, id);
    } else if tokens[i].disabled {
      FoundResolves(edited, id);
      assert forall k: nat, l: nat :: !Resolves(edited, id, k, l);
    } else {
      LookupIsExact(edited, id, i, |creds| - 1);
    }
  }

  lemma RotateKeepsIdsUnique(tokens: seq<TokenPolicy>, i: nat, added: Credential)
    requires ValidIds(tokens) && i < |tokens| && added.id != "" && added.digest != ""
    requires forall k | 0 <= k < |tokens| :: !HasId(tokens[k].credentials, added.id)
    ensures ValidIds(WithCredentials(tokens, i, tokens[i].credentials + [added]))
  {
    var edited := WithCredentials(tokens, i, tokens[i].credentials + [added]);
    forall k, m | 0 <= k < m < |edited|
      ensures NoSharedId(edited[k].credentials, edited[m].credentials)
    {
      assert NoSharedId(tokens[k].credentials, tokens[m].credentials);
    }
  }
}
