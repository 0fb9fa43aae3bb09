/** HTTP header maps: canonical names, and the names a hop may not pass on. */
module Headers {
  import opened Text

  type Values = seq<string>

  // --------------------------------------------------------- canonical names

  predicate TokenChar(c: char) {
    'a' <= c <= 'z' || 'A' <= c <= 'Z' || '0' <= c <= '9' ||
    c in {'!', '#', '$', '%', '&', '\'', '*', '+', '-', '.', '^', '_', '`', '|', '~'}
  }

  predicate Token(s: string) {
    forall i | 0 <= i < |s| :: TokenChar(s[i])
  }

  /** Upper case at the start and behind each hyphen, lower case elsewhere. */
  function Cased(s: string, upper: bool): (r: string)
    ensures |r| == |s|
  {
    if s == "" then "" else [if upper then UpperChar(s[0]) else LowerChar(s[0])] + Cased(s[1..], s[0] == '-')
  }

  /** CanonicalHeaderKey: a name with other characters is left alone. */
  function Canonical(s: string): string {
    if Token(s) then Cased(s, true) else s
  }

  lemma {:induction false} CasedAt(s: string, upper: bool, i: nat)
    requires i < |s|
    ensures Cased(s, upper)[i] == if (if i == 0 then upper else s[i - 1] == '-') then UpperChar(s[i]) else LowerChar(s[i])
  {
    if i > 0 {
      CasedAt(s[1..], s[0] == '-', i - 1);
    }
  }

  /** Canonical form changes case only. */
  lemma CanonicalLower(s: string)
    ensures Lower(Canonical(s)) == Lower(s)
  {
    if Token(s) {
      forall i | 0 <= i < |s|
        ensures Lower(Cased(s, true))[i] == Lower(s)[i]
      {
        CasedAt(s, true, i);
      }
      assert Lower(Cased(s, true)) == Lower(s);
    }
  }

  lemma SameLowerToken(a: string, b: string)
    requires Lower(a) == Lower(b) && Token(a)
    ensures Token(b)
  {
    assert |a| == |Lower(a)| == |Lower(b)| == |b|;
    forall i | 0 <= i < |b|
      ensures TokenChar(b[i])
    {
      assert LowerChar(a[i]) == Lower(a)[i] == Lower(b)[i] == LowerChar(b[i]);
      assert TokenChar(a[i]);
    }
  }

  lemma SameLetterCase(x: char, y: char)
    requires LowerChar(x) == LowerChar(y)
    ensures UpperChar(x) == UpperChar(y) && (x == '-' <==> y == '-')
  {
  }

  lemma SameCased(a: string, b: string, i: nat)
    requires Lower(a) == Lower(b) && i < |a| == |b|
    ensures Cased(a, true)[i] == Cased(b, true)[i]
  {
    hide Cased;
    CasedAt(a, true, i);
    CasedAt(b, true, i);
    assert LowerChar(a[i]) == Lower(a)[i] == Lower(b)[i] == LowerChar(b[i]);
    SameLetterCase(a[i], b[i]);
    if i > 0 {
      assert LowerChar(a[i - 1]) == Lower(a)[i - 1] == Lower(b)[i - 1] == LowerChar(b[i - 1]);
      SameLetterCase(a[i - 1], b[i - 1]);
    }
  }

  /** Names that differ in case only have the same canonical form. */
  lemma SameLowerSameCanonical(a: string, b: string)
    requires Lower(a) == Lower(b) && Token(a)
    ensures Canonical(a) == Canonical(b)
  {
    hide Cased, Token;
    SameLowerToken(a, b);
    assert |a| == |Lower(a)| == |Lower(b)| == |b|;
    forall i | 0 <= i < |a|
      ensures Cased(a, true)[i] == Cased(b, true)[i]
    {
      SameCased(a, b, i);
    }
    assert Cased(a, true) == Cased(b, true);
  }

  /** What the server hands over: every name is canonical. */
  predicate CanonicalKeys(m: map<string, Values>) {
    forall k | k in m :: Canonical(k) == k
  }

  // ------------------------------------------------------------- hop by hop

  /** The names that StripHopByHop always deletes, as written there. */
  function HopNames(): seq<string> {
    ["Connection", "Proxy-Connection", "Keep-Alive", "Proxy-Authenticate", "Proxy-Authorization", "TE", "Trailer",
     "Transfer-Encoding", "Upgrade", "Forwarded", "X-Forwarded-For", "X-Forwarded-Host", "X-Forwarded-Proto", "X-Real-IP"]
  }

  predicate HopByHop(name: string) {
    (exists i | 0 <= i < |HopNames()| :: Lower(name) == Lower(HopNames()[i])) || HasPrefix(Lower(name), "x-forwarded-")
  }

  /** The names that the parts of a Connection value stand for; blank parts stand for none. */
  function NamesIn(parts: seq<string>): set<string> {
    if parts == [] then {}
    else
      var before, name := NamesIn(parts[..|parts| - 1]), TrimSpace(parts[|parts| - 1]);
      if name == "" then before else before + {Canonical(name)}
  }

  /** All names that Connection values nominate. */
  function NominatedIn(values: Values): set<string> {
    if values == [] then {} else NominatedIn(values[..|values| - 1]) + NamesIn(Split(values[|values| - 1], ','))
  }

  function Nominated(m: map<string, Values>): set<string> {
    NominatedIn(Get(m, "Connection"))
  }

  /** Some part of some Connection value is this name, up to case and the blanks around it. */
  predicate Nominates(values: Values, k: string) {
    exists i, j | 0 <= i < |values| && 0 <= j < |Split(values[i], ',')| :: PartIs(Split(values[i], ',')[j], k)
  }

  predicate PartIs(part: string, k: string) {
    TrimSpace(part) != "" && Canonical(TrimSpace(part)) == k
  }

  lemma {:induction false} NamesInExact(parts: seq<string>, k: string)
    ensures k in NamesIn(parts) <==> exists j | 0 <= j < |parts| :: PartIs(parts[j], k)
  {
    if parts != [] {
      var front, last := parts[..|parts| - 1], |parts| - 1;
      NamesInExact(front, k);
      if j :| 0 <= j < |parts| && PartIs(parts[j], k) {
        assert j < last ==> PartIs(front[j], k);
      }
      if k in NamesIn(front) {
        var j :| 0 <= j < |front| && PartIs(front[j], k);
        assert PartIs(parts[j], k);
      }
      if k in NamesIn(parts) && k !in NamesIn(front) {
        assert PartIs(parts[last], k);
      }
    }
  }

  lemma {:induction false} NominatedExact(values: Values, k: string)
    ensures k in NominatedIn(values) <==> Nominates(values, k)
  {
    hide NamesIn, PartIs, Split;
    if values != [] {
      var front, last := values[..|values| - 1], |values| - 1;
      NominatedExact(front, k);
      NamesInExact(Split(values[last], ','), k);
      if i, j :| 0 <= i < |values| && 0 <= j < |Split(values[i], ',')| && PartIs(Split(values[i], ',')[j], k) {
        assert i < last ==> 0 <= j < |Split(front[i], ',')| && PartIs(Split(front[i], ',')[j], k);
      }
      if Nominates(front, k) {
        var i, j :| 0 <= i < |front| && 0 <= j < |Split(front[i], ',')| && PartIs(Split(front[i], ',')[j], k);
        assert 0 <= j < |Split(values[i], ',')| && PartIs(Split(values[i], ',')[j], k);
      }
    }
  }

  function CanonicalSet(names: seq<string>): set<string> {
    if names == [] then {} else CanonicalSet(names[..|names| - 1]) + {Canonical(names[|names| - 1])}
  }

  /** What StripHopByHop leaves. */
  function Stripped(m: map<string, Values>): map<string, Values> {
    map k | k in m && k !in Nominated(m) && !HopByHop(k) :: m[k]
  }

  class Header {
    var m: map<string, Values>

    constructor (m: map<string, Values>)
      ensures this.m == m
    {
      this.m := m;
    }

    method Del(name: string)
      modifies this
      ensures m == old(m) - {Canonical(name)}
    {
      m := m - {Canonical(name)};
    }

    method Set(name: string, value: string)
      modifies this
      ensures m == old(m)[Canonical(name) := [value]]
    {
      m := m[Canonical(name) := [value]];
    }

    method Add(name: string, value: string)
      modifies this
      ensures m == old(m)[Canonical(name) := Get(old(m), Canonical(name)) + [value]]
    {
      var key := Canonical(name);
      m := m[key := (if key in m then m[key] else []) + [value]];
    }
  }

  function Get(m: map<string, Values>, key: string): Values {
    if key in m then m[key] else []
  }

  /** Deletes what one Connection value lists. */
  method DelListed(h: Header, value: string)
    modifies h
    ensures h.m == old(h.m) - NamesIn(Split(value, ','))
  {
    hide Canonical, TrimSpace, Split;
    var parts := Split(value, ',');
    for i := 0 to |parts|
      invariant h.m == old(h.m) - NamesIn(parts[..i])
    {
      assert parts[..i + 1][..i] == parts[..i];
      var name := TrimSpace(parts[i]);
      if name != "" {
        h.Del(name);
      }
    }
    assert parts[..|parts|] == parts;
  }

  method DelAll(h: Header, names: seq<string>)
    modifies h
    ensures h.m == old(h.m) - CanonicalSet(names)
  {
    hide Canonical;
    for i := 0 to |names|
      invariant h.m == old(h.m) - CanonicalSet(names[..i])
    {
      assert names[..i + 1][..i] == names[..i];
      h.Del(names[i]);
    }
    assert names[..|names|] == names;
  }

  /** Deletes every name under a prefix, ranging over the map in any order. */
  method DelForwarded(h: Header)
    requires CanonicalKeys(h.m)
    modifies h
    ensures h.m == map k | k in old(h.m) && !HasPrefix(Lower(k), "x-forwarded-") :: old(h.m)[k]
  {
    hide Canonical, Lower;
    var toCome := h.m.Keys;
    ghost var gone: set<string> := {};
    while toCome != {}
      invariant toCome <= old(h.m).Keys && h.m == old(h.m) - gone
      invariant forall k :: k in gone <==> k in old(h.m) && k !in toCome && HasPrefix(Lower(k), "x-forwarded-")
      decreases |toCome|
    {
      var name :| name in toCome;
      if HasPrefix(Lower(name), "x-forwarded-") {
        h.Del(name);
        gone := gone + {name};
      }
      toCome := toCome - {name};
    }
  }

  /** StripHopByHop. The Connection values are read once; deleting "Connection" on the way does not change them. */
  method StripHopByHop(h: Header)
    requires CanonicalKeys(h.m)
    modifies h
    ensures h.m == Stripped(old(h.m)) && CanonicalKeys(h.m)
  {
    hide Canonical, Lower, HopNames, NamesIn, HopByHop;
    var values := Get(h.m, "Connection");
    for i := 0 to |values|
      invariant h.m == old(h.m) - NominatedIn(values[..i])
    {
      assert values[..i + 1][..i] == values[..i];
      DelListed(h, values[i]);
    }
    assert values[..|values|] == values;
    DelAll(h, HopNames());
    DelForwarded(h);
    forall k | k in old(h.m)
      ensures k in CanonicalSet(HopNames()) || HasPrefix(Lower(k), "x-forwarded-") <==> HopByHop(k)
    {
      FixedIsHop(k);
    }
  }

  lemma {:induction false} InCanonicalSet(names: seq<string>, k: string)
    ensures k in CanonicalSet(names) <==> exists i | 0 <= i < |names| :: Canonical(names[i]) == k
  {
    hide Canonical;
    if names != [] {
      InCanonicalSet(names[..|names| - 1], k);
      var last := |names| - 1;
      if Canonical(names[last]) == k {
        assert exists i | 0 <= i < |names| :: Canonical(names[i]) == k;
      }
      if i :| 0 <= i < |names[..last]| && Canonical(names[..last][i]) == k {
        assert Canonical(names[i]) == k;
      }
    }
  }

  /** A canonical name is deleted by the fixed list exactly when it is on it in some case. */
  lemma FixedIsHop(k: string)
    requires Canonical(k) == k
    ensures k in CanonicalSet(HopNames()) || HasPrefix(Lower(k), "x-forwarded-") <==> HopByHop(k)
  {
    hide HopNames, CanonicalSet;
    var names := HopNames();
    InCanonicalSet(names, k);
    if i :| 0 <= i < |names| && Canonical(names[i]) == k {
      CanonicalLower(names[i]);
    }
    if i :| 0 <= i < |names| && Lower(k) == Lower(names[i]) {
      HopTokens();
      SameLowerSameCanonical(names[i], k);
    }
  }

  lemma HopTokens()
    ensures forall i | 0 <= i < |HopNames()| :: Token(HopNames()[i])
  {
    hide Token;
    PlainTokens();
    ProxyTokens();
    ForwardedTokens();
    TransferTokens();
  }

  lemma PlainTokens()
    ensures Token("Connection") && Token("Keep-Alive") && Token("TE") && Token("Trailer") && Token("Upgrade") && Token("X-Real-IP")
  {
  }

  lemma ProxyTokens()
    ensures Token("Proxy-Connection") && Token("Proxy-Authenticate") && Token("Proxy-Authorization")
  {
  }

  lemma ForwardedTokens()
    ensures Token("Forwarded") && Token("X-Forwarded-For") && Token("X-Forwarded-Host")
  {
  }

  lemma TransferTokens()
    ensures Token("X-Forwarded-Proto") && Token("Transfer-Encoding")
  {
  }
}
