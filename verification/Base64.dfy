/** base64url without padding (section 5 of RFC 4648), as the decoder reads it: line breaks are skipped
    and unused trailing bits are not checked. */
module Base64 {
  import opened Prelude

  type Byte = b: int | 0 <= b < 256

  function CharOf(v: int): (c: char)
    requires 0 <= v < 64
    ensures InAlphabet(c) && ValueOf(c) == Some(v)
  {
    if v < 26 then ('A' as int + v) as char
    else if v < 52 then ('a' as int + v - 26) as char
    else if v < 62 then ('0' as int + v - 52) as char
    else if v == 62 then '-'
    else '_'
  }

  predicate InAlphabet(c: char) {
    'A' <= c <= 'Z' || 'a' <= c <= 'z' || '0' <= c <= '9' || c == '-' || c == '_'
  }

  function ValueOf(c: char): (v: Option<int>)
    ensures v.Some? <==> InAlphabet(c)
    ensures v.Some? ==> 0 <= v.value < 64
  {
    if 'A' <= c <= 'Z' then Some(c as int - 'A' as int)
    else if 'a' <= c <= 'z' then Some(c as int - 'a' as int + 26)
    else if '0' <= c <= '9' then Some(c as int - '0' as int + 52)
    else if c == '-' then Some(62)
    else if c == '_' then Some(63)
    else None
  }

  predicate Sextets(v: seq<int>) {
    forall i | 0 <= i < |v| :: 0 <= v[i] < 64
  }

  /** Groups of three bytes become four sextets; one or two bytes at the end become two or three. */
  function SextetsOf(b: seq<Byte>): (v: seq<int>)
    ensures Sextets(v) && (v == [] <==> b == [])
  {
    if b == [] then []
    else if |b| == 1 then [b[0] / 4, b[0] % 4 * 16]
    else if |b| == 2 then [b[0] / 4, b[0] % 4 * 16 + b[1] / 16, b[1] % 16 * 4]
    else [b[0] / 4, b[0] % 4 * 16 + b[1] / 16, b[1] % 16 * 4 + b[2] / 64, b[2] % 64] + SextetsOf(b[3..])
  }

  function Spelled(v: seq<int>): (s: string)
    requires Sextets(v)
    ensures |s| == |v| && forall i | 0 <= i < |s| :: InAlphabet(s[i])
  {
    if v == [] then "" else [CharOf(v[0])] + Spelled(v[1..])
  }

  function Encode(b: seq<Byte>): (s: string)
    ensures forall i | 0 <= i < |s| :: InAlphabet(s[i])
    ensures s == "" <==> b == []
  {
    Spelled(SextetsOf(b))
  }

  function SkipBreaks(s: string): (r: string)
    ensures |r| <= |s|
  {
    if s == "" then "" else if s[0] == '\r' || s[0] == '\n' then SkipBreaks(s[1..]) else [s[0]] + SkipBreaks(s[1..])
  }

  function Values(s: string): Option<seq<int>> {
    if s == "" then Some([])
    else
      match (ValueOf(s[0]), Values(s[1..]))
      case (Some(v), Some(rest)) => Some([v] + rest)
      case _ => None
  }

  /** Four values are three bytes; a single value at the end is an error. */
  function Bytes(v: seq<int>): Option<seq<Byte>>
    requires Sextets(v)
  {
    if v == [] then Some([])
    else if |v| == 1 then None
    else if |v| == 2 then Some([v[0] * 4 + v[1] / 16])
    else if |v| == 3 then Some([v[0] * 4 + v[1] / 16, v[1] % 16 * 16 + v[2] / 4])
    else
      match Bytes(v[4..])
      case None => None
      case Some(rest) => Some([v[0] * 4 + v[1] / 16, v[1] % 16 * 16 + v[2] / 4, v[2] % 4 * 64 + v[3]] + rest)
  }

  lemma {:induction false} ValuesAreSextets(s: string)
    ensures Values(s).Some? ==> Sextets(Values(s).value) && |Values(s).value| == |s|
  {
    if s != "" {
      ValuesAreSextets(s[1..]);
    }
  }

  function Decode(s: string): Option<seq<Byte>> {
    ValuesAreSextets(SkipBreaks(s));
    match Values(SkipBreaks(s))
    case None => None
    case Some(v) => Bytes(v)
  }

  /** What decodes has letters of the alphabet and line breaks only. */
  lemma {:induction false} DecodableLetters(s: string, c: char)
    requires Values(SkipBreaks(s)).Some? && c in s
    ensures InAlphabet(c) || c == '\r' || c == '\n'
  {
    if s[0] != c {
      DecodableLetters(s[1..], c);
    }
  }

  lemma {:induction false} NothingSkipped(s: string)
    requires forall i | 0 <= i < |s| :: InAlphabet(s[i])
    ensures SkipBreaks(s) == s
  {
    if s != "" {
      NothingSkipped(s[1..]);
    }
  }

  lemma {:induction false} ValuesOfSpelled(v: seq<int>)
    requires Sextets(v)
    ensures Values(Spelled(v)) == Some(v)
  {
    if v != [] {
      ValuesOfSpelled(v[1..]);
      assert Spelled(v)[1..] == Spelled(v[1..]);
      assert [v[0]] + v[1..] == v;
    }
  }

  lemma {:induction false} BytesOfSextets(b: seq<Byte>)
    ensures Bytes(SextetsOf(b)) == Some(b)
  {
    var v := SextetsOf(b);
    if b == [] {
    } else if |b| == 1 {
      assert b == [b[0]];
    } else if |b| == 2 {
      assert b == [b[0], b[1]];
    } else {
      BytesOfSextets(b[3..]);
      assert v[4..] == SextetsOf(b[3..]);
      Regroup(b[0], b[1], b[2]);
      assert b == [b[0], b[1], b[2]] + b[3..];
    }
  }

  /** Three bytes cut into sextets and put together again. */
  lemma Regroup(x: Byte, y: Byte, z: Byte)
    ensures var v0, v1, v2, v3 := x / 4, x % 4 * 16 + y / 16, y % 16 * 4 + z / 64, z % 64;
      v0 * 4 + v1 / 16 == x && v1 % 16 * 16 + v2 / 4 == y && v2 % 4 * 64 + v3 == z
  {
  }

  /** Decoding undoes encoding. */
  lemma RoundTrip(b: seq<Byte>)
    ensures Decode(Encode(b)) == Some(b)
  {
    hide SextetsOf, Spelled, Bytes, Values, SkipBreaks;
    NothingSkipped(Encode(b));
    ValuesOfSpelled(SextetsOf(b));
    BytesOfSextets(b);
  }
}
