/** Panel session tokens: issuing and validating, with the MAC and the JSON form of the claims left abstract. */
module PanelSession {
  import opened Prelude
  import opened Base64
  import Text

  const SECOND: int := 1_000_000_000
  const PREFIX: string := "panel_"

  datatype Panel = Panel(enabled: bool, issuer: string, audience: string, ttl: int, secretEnv: string, secret: string)

  datatype Claims = Claims(issuer: string, audience: string, expiresAt: int, issuedAt: int, actor: string)

  /** The primitives: a keyed MAC with non-empty results, and a JSON form from which the claims are read back. */
  datatype Primitives = Primitives(
    mac: (string, string) -> seq<Byte>,
    marshal: Claims -> seq<Byte>,
    unmarshal: seq<Byte> -> Option<Claims>)

  ghost predicate Proper(p: Primitives) {
    (forall text: string, secret: string :: p.mac(text, secret) != []) &&
    (forall c: Claims :: p.marshal(c) != [] && p.unmarshal(p.marshal(c)) == Some(c))
  }

  /** Unix time of a time in nanoseconds: rounded down, also before 1970. */
  function Unix(t: int): int {
    t / SECOND
  }

  predicate Blank(s: string) {
    Text.TrimSpace(s) == ""
  }

  /** validatePanelSessionConfig. */
  predicate ValidPanel(panel: Panel) {
    panel.enabled && !Blank(panel.issuer) && !Blank(panel.audience) && panel.ttl > 0 && !Blank(panel.secretEnv) && !Blank(panel.secret)
  }

  function Sign(p: Primitives, encoded: string, panel: Panel): string {
    Encode(p.mac(encoded, panel.secret))
  }

  function Issue(p: Primitives, panel: Panel, actor: string, now: int): Option<string> {
    if !ValidPanel(panel) || Blank(actor) then None
    else
      var claims := Claims(panel.issuer, panel.audience, Unix(now + panel.ttl), Unix(now), Text.TrimSpace(actor));
      var encoded := Encode(p.marshal(claims));
      Some(PREFIX + encoded + "." + Sign(p, encoded, panel))
  }

  /** The checks on decoded claims. */
  predicate Acceptable(panel: Panel, c: Claims, now: int) {
    && c.issuer == panel.issuer && c.audience == panel.audience
    && !Blank(c.actor)
    && c.issuedAt <= Unix(now + 60 * SECOND)
    && c.expiresAt > Unix(now)
    && c.expiresAt - c.issuedAt <= panel.ttl / SECOND + 60
  }

  function Validate(p: Primitives, panel: Panel, given: string, now: int): Option<Claims> {
    var token := Text.TrimSpace(given);
    if !ValidPanel(panel) || !Text.HasPrefix(token, PREFIX) then None
    else
      var parts := Text.Split(token[|PREFIX|..], '.');
      if |parts| != 2 || parts[0] == "" || parts[1] == "" then None
      else if Sign(p, parts[0], panel) != parts[1] then None
      else
        match Decode(parts[0])
        case None => None
        case Some(payload) =>
          match p.unmarshal(payload)
          case None => None
          case Some(claims) => if Acceptable(panel, claims, now) then Some(claims) else None
  }

  // ------------------------------------------------------------------ strings

  lemma {:induction false} SplitOnce(a: string, b: string)
    requires '.' !in a && '.' !in b
    ensures Text.Split(a + "." + b, '.') == [a, b]
  {
    if a == "" {
      assert "" + "." + b == "." + b && ("." + b)[1..] == b;
      Text.SplitNothing(b, '.');
    } else {
      assert (a + "." + b)[1..] == a[1..] + "." + b;
      SplitOnce(a[1..], b);
      assert [a[0]] + a[1..] == a;
    }
  }

  lemma {:induction false} SplitJoins(s: string)
    ensures |Text.Split(s, '.')| == 1 ==> Text.Split(s, '.')[0] == s
    ensures |Text.Split(s, '.')| == 2 ==> s == Text.Split(s, '.')[0] + "." + Text.Split(s, '.')[1]
  {
    if s != "" {
      SplitJoins(s[1..]);
      var rest := Text.Split(s[1..], '.');
      assert s == [s[0]] + s[1..];
      if s[0] == '.' {
        assert |rest| == 1 ==> s == "" + "." + rest[0];
      } else {
        assert |rest| == 2 ==> s == ([s[0]] + rest[0]) + "." + rest[1];
      }
    }
  }

  lemma AlphabetIsPlain(s: string)
    requires forall i | 0 <= i < |s| :: InAlphabet(s[i])
    ensures '.' !in s && forall i | 0 <= i < |s| :: !Text.IsSpace(s[i])
  {
  }

  // --------------------------------------------------------------- round trip

  /** An issued token is read back as the claims it was made of. */
  lemma IssuedIsRead(p: Primitives, panel: Panel, actor: string, now: int, later: int)
    requires Proper(p) && ValidPanel(panel) && !Blank(actor)
    ensures var claims := Claims(panel.issuer, panel.audience, Unix(now + panel.ttl), Unix(now), Text.TrimSpace(actor));
      Validate(p, panel, Issue(p, panel, actor, now).value, later) ==
      if Acceptable(panel, claims, later) then Some(claims) else None
  {
    hide Acceptable, ValidPanel, Blank, Encode, Decode, Text.Split, Text.TrimSpace, Unix;
    var claims := Claims(panel.issuer, panel.audience, Unix(now + panel.ttl), Unix(now), Text.TrimSpace(actor));
    var payload := p.marshal(claims);
    var encoded := Encode(payload);
    var signature := Sign(p, encoded, panel);
    var token := PREFIX + encoded + "." + signature;
    AlphabetIsPlain(encoded);
    AlphabetIsPlain(signature);
    assert token[|token| - 1] == signature[|signature| - 1];
    Text.TrimNothing(token);
    assert token[|PREFIX|..] == encoded + "." + signature;
    assert token[..|PREFIX|] == PREFIX;
    SplitOnce(encoded, signature);
    RoundTrip(payload);
    assert p.unmarshal(payload) == Some(claims);
  }

  lemma TrimIdempotent(s: string)
    ensures Text.TrimSpace(Text.TrimSpace(s)) == Text.TrimSpace(s)
  {
    var t := Text.TrimSpace(s);
    if t != "" {
      TrimStart(s);
      Text.TrimNothing(t);
    }
  }

  lemma TrimStart(s: string)
    ensures Text.TrimSpace(s) != "" ==> !Text.IsSpace(Text.TrimSpace(s)[0]) && !Text.IsSpace(Text.TrimSpace(s)[|Text.TrimSpace(s)| - 1])
  {
  }

  /** The lifetime cap never rejects an issued token. */
  lemma CapHolds(ttl: int, now: int)
    requires ttl > 0
    ensures Unix(now + ttl) - Unix(now) <= ttl / SECOND + 60
  {
  }

  /** For every valid configuration and non-blank actor: a token issued at `now` is accepted at `later` exactly
      within its window of whole seconds, with a minute's tolerance before, and names the trimmed actor. */
  lemma SessionRoundTrip(p: Primitives, panel: Panel, actor: string, now: int, later: int)
    requires Proper(p) && ValidPanel(panel) && !Blank(actor)
    ensures Issue(p, panel, actor, now).Some?
    ensures var read := Validate(p, panel, Issue(p, panel, actor, now).value, later);
      && (read.Some? <==> Unix(now) <= Unix(later) + 60 && Unix(later) < Unix(now + panel.ttl))
      && (read.Some? ==> read.value.actor == Text.TrimSpace(actor))
  {
    hide Encode, Decode, Text.Split, Text.TrimSpace, Validate;
    IssuedIsRead(p, panel, actor, now, later);
    CapHolds(panel.ttl, now);
    TrimIdempotent(actor);
  }

  /** A token that carries these claims under the panel's signature. */
  predicate Carries(p: Primitives, panel: Panel, given: string, encoded: string, payload: seq<Byte>, claims: Claims) {
    && Text.TrimSpace(given) == PREFIX + encoded + "." + Encode(p.mac(encoded, panel.secret))
    && encoded != "" && p.mac(encoded, panel.secret) != []
    && Decode(encoded) == Some(payload) && p.unmarshal(payload) == Some(claims)
  }

  lemma CarriedIsRead(p: Primitives, panel: Panel, given: string, now: int, encoded: string, payload: seq<Byte>, claims: Claims)
    requires ValidPanel(panel) && Carries(p, panel, given, encoded, payload, claims) && Acceptable(panel, claims, now)
    ensures Validate(p, panel, given, now) == Some(claims)
  {
    hide Encode, Text.Split, Text.TrimSpace, ValidPanel, Acceptable, Values, SkipBreaks, Bytes;
    var token := Text.TrimSpace(given);
    var signature := Encode(p.mac(encoded, panel.secret));
    if '.' in encoded {
      DecodableLetters(encoded, '.');
    }
    AlphabetIsPlain(signature);
    assert token[|PREFIX|..] == encoded + "." + signature;
    assert token[..|PREFIX|] == PREFIX;
    SplitOnce(encoded, signature);
  }

  /** A token is accepted as these claims exactly when the panel is configured, the token carries the
      claims under the panel's signature, and they are the panel's own, current and within the cap. */
  lemma AcceptedIsSigned(p: Primitives, panel: Panel, given: string, now: int, claims: Claims)
    ensures Validate(p, panel, given, now) == Some(claims) <==>
      && ValidPanel(panel)
      && (exists encoded: string, payload: seq<Byte> :: Carries(p, panel, given, encoded, payload, claims))
      && claims.issuer == panel.issuer && claims.audience == panel.audience && !Blank(claims.actor)
      && Unix(now) < claims.expiresAt <= claims.issuedAt + panel.ttl / SECOND + 60
      && claims.issuedAt <= Unix(now) + 60
  {
    hide Encode, Decode, Text.Split, Text.TrimSpace, ValidPanel, Blank;
    if Validate(p, panel, given, now) == Some(claims) {
      var token := Text.TrimSpace(given);
      var rest := token[|PREFIX|..];
      SplitJoins(rest);
      var encoded := Text.Split(rest, '.')[0];
      assert token == PREFIX + rest;
      assert token == PREFIX + encoded + "." + Encode(p.mac(encoded, panel.secret));
      assert Carries(p, panel, given, encoded, Decode(encoded).value, claims);
    }
    if encoded: string, payload: seq<Byte> :| Carries(p, panel, given, encoded, payload, claims) {
      if ValidPanel(panel) && Acceptable(panel, claims, now) {
        CarriedIsRead(p, panel, given, now, encoded, payload, claims);
      }
    }
  }
}
