/** Building the route catalog: overrides are merged in, the routes are ordered, and the first match wins. */
module Catalog {
  import opened Prelude
  import opened Routes
  import Text

  // ------------------------------------------------------------------- merge

  datatype Key = Key(verb: Method, pattern: string)

  function KeyOf(r: Route): Key {
    Key(r.verb, r.pattern)
  }

  ghost predicate DistinctKeys(routes: seq<Route>) {
    forall i, j | 0 <= i < j < |routes| :: KeyOf(routes[i]) != KeyOf(routes[j])
  }

  predicate HasKey(routes: seq<Route>, key: Key) {
    exists i | 0 <= i < |routes| :: KeyOf(routes[i]) == key
  }

  /** The last route with the key, which is what the index by key points at. */
  function IndexOf(routes: seq<Route>, key: Key): (r: Option<nat>)
    ensures r.Some? ==> r.value < |routes| && KeyOf(routes[r.value]) == key
    ensures r.None? <==> !HasKey(routes, key)
  {
    if routes == [] then None
    else if KeyOf(routes[|routes| - 1]) == key then Some(|routes| - 1)
    else
      var r := IndexOf(routes[..|routes| - 1], key);
      assert r.None? ==> !HasKey(routes, key) by {
        if HasKey(routes, key) {
          var i :| 0 <= i < |routes| && KeyOf(routes[i]) == key;
          assert KeyOf(routes[..|routes| - 1][i]) == key;
        }
      }
      r
  }

  /** One override replaces the base route with its key, or is appended. */
  function Put(base: seq<Route>, routes: seq<Route>, override: Route): seq<Route>
    requires |base| <= |routes|
  {
    match IndexOf(base, KeyOf(override))
    case Some(i) => routes[i := override]
    case None => routes + [override]
  }

  function Merged(base: seq<Route>, overrides: seq<Route>): (r: seq<Route>)
    ensures |r| >= |base|
  {
    if overrides == [] then base
    else Put(base, Merged(base, overrides[..|overrides| - 1]), overrides[|overrides| - 1])
  }

  /** The merge of remnawave281Catalog: an index by key, then overwriting by index or appending. */
  method Merge(base: seq<Route>, overrides: seq<Route>) returns (routes: seq<Route>)
    ensures routes == Merged(base, overrides)
  {
    var byKey: map<Key, nat> := map[];
    for i := 0 to |base|
      invariant forall key :: key in byKey <==> IndexOf(base[..i], key).Some?
      invariant forall key | key in byKey :: IndexOf(base[..i], key) == Some(byKey[key])
    {
      assert base[..i + 1][..i] == base[..i];
      byKey := byKey[KeyOf(base[i]) := i];
    }
    assert base[..|base|] == base;
    routes := base;
    for i := 0 to |overrides|
      invariant routes == Merged(base, overrides[..i])
    {
      assert overrides[..i + 1][..i] == overrides[..i];
      var key := KeyOf(overrides[i]);
      if key in byKey {
        routes := routes[byKey[key] := overrides[i]];
      } else {
        routes := routes + [overrides[i]];
      }
    }
    assert overrides[..|overrides|] == overrides;
  }

  /** Position by position: a base position holds its override if there is one; new keys follow. */
  ghost predicate MergeFits(base: seq<Route>, overrides: seq<Route>, routes: seq<Route>) {
    && |base| <= |routes|
    && DistinctKeys(routes)
    && (forall i | 0 <= i < |base| :: KeyOf(routes[i]) == KeyOf(base[i]) && (routes[i] == base[i] || routes[i] in overrides))
    && (forall i | |base| <= i < |routes| :: routes[i] in overrides && !HasKey(base, KeyOf(routes[i])))
    && (forall override | override in overrides :: override in routes)
  }

  lemma {:induction false} MergeAlwaysFits(base: seq<Route>, overrides: seq<Route>)
    requires DistinctKeys(base) && DistinctKeys(overrides)
    ensures MergeFits(base, overrides, Merged(base, overrides))
  {
    if overrides != [] {
      var front, last := overrides[..|overrides| - 1], overrides[|overrides| - 1];
      MergeAlwaysFits(base, front);
      PutFits(base, front, Merged(base, front), last);
      assert front + [last] == overrides;
    }
  }

  lemma PutFits(base: seq<Route>, front: seq<Route>, routes: seq<Route>, last: Route)
    requires MergeFits(base, front, routes) && DistinctKeys(base) && DistinctKeys(front + [last])
    ensures MergeFits(base, front + [last], Put(base, routes, last))
  {
    hide IndexOf;
    var all, after := front + [last], Put(base, routes, last);
    assert all[|front|] == last;
    forall i | 0 <= i < |front|
      ensures KeyOf(front[i]) != KeyOf(last)
    {
      assert KeyOf(all[i]) != KeyOf(all[|front|]);
    }
    match IndexOf(base, KeyOf(last))
    case Some(k) =>
      forall override | override in all
        ensures override in after
      {
        if override != last {
          var i :| 0 <= i < |routes| && routes[i] == override;
          assert KeyOf(override) != KeyOf(last);
          assert after[i] == override;
        } else {
          assert after[k] == last;
        }
      }
    case None =>
      forall i | 0 <= i < |routes|
        ensures KeyOf(routes[i]) != KeyOf(last)
      {
        if i < |base| {
          assert KeyOf(base[i]) != KeyOf(last);
        }
      }
  }

  lemma BaseStays(base: seq<Route>, overrides: seq<Route>, r: Route)
    requires MergeFits(base, overrides, Merged(base, overrides)) && r in base && !HasKey(overrides, KeyOf(r))
    ensures r in Merged(base, overrides)
  {
    hide Merged;
    var routes := Merged(base, overrides);
    var i :| 0 <= i < |base| && base[i] == r;
    assert forall k | 0 <= k < |overrides| :: KeyOf(overrides[k]) != KeyOf(r);
  }

  lemma OthersAreBase(base: seq<Route>, overrides: seq<Route>, r: Route)
    requires MergeFits(base, overrides, Merged(base, overrides)) && r in Merged(base, overrides) && r !in overrides
    ensures r in base && !HasKey(overrides, KeyOf(r))
  {
    hide Merged;
    var routes := Merged(base, overrides);
    var i :| 0 <= i < |routes| && routes[i] == r;
    forall k | 0 <= k < |overrides|
      ensures KeyOf(overrides[k]) != KeyOf(r)
    {
      assert overrides[k] in overrides;
      var j :| 0 <= j < |routes| && routes[j] == overrides[k];
      assert KeyOf(routes[i]) != KeyOf(routes[j]);
    }
  }

  /** The merge keeps one route per key; the override wins, and a base route stays where there is none. */
  lemma OverrideWins(base: seq<Route>, overrides: seq<Route>, r: Route)
    requires DistinctKeys(base) && DistinctKeys(overrides)
    ensures DistinctKeys(Merged(base, overrides))
    ensures r in Merged(base, overrides) <==> r in overrides || (r in base && !HasKey(overrides, KeyOf(r)))
  {
    hide Merged, HasKey;
    MergeAlwaysFits(base, overrides);
    if r in Merged(base, overrides) && r !in overrides {
      OthersAreBase(base, overrides, r);
    }
    if r in base && !HasKey(overrides, KeyOf(r)) {
      BaseStays(base, overrides, r);
    }
  }

  // ------------------------------------------------------------- specificity

  predicate Slash(c: char) {
    c == '/'
  }

  /** The number of segments of a pattern. */
  function Segments(pattern: string): nat {
    |Text.Split(Text.Trim(pattern, Slash), '/')|
  }

  /** specificity: a local score, added to and subtracted from. */
  function Specificity(pattern: string): int {
    Segments(pattern) * 10 + |pattern| - Text.Count(pattern, '{') * 20
  }

  lemma {:induction false} TrimLeftStops(a: string, middle: string)
    requires middle != "" && middle[0] != '/'
    ensures Text.TrimLeft(a + middle, Slash) == Text.TrimLeft(a, Slash) + middle
  {
    if a == "" {
      assert a + middle == middle;
    } else if a[0] == '/' {
      assert (a + middle)[1..] == a[1..] + middle;
      TrimLeftStops(a[1..], middle);
    } else {
      assert (a + middle)[0] == a[0];
    }
  }

  lemma {:induction false} TrimRightStops(middle: string, b: string)
    requires middle != "" && middle[|middle| - 1] != '/'
    ensures Text.TrimRight(middle + b, Slash) == middle + Text.TrimRight(b, Slash)
  {
    if b == "" {
      assert middle + b == middle;
    } else if b[|b| - 1] == '/' {
      assert (middle + b)[..|middle + b| - 1] == middle + b[..|b| - 1];
      TrimRightStops(middle, b[..|b| - 1]);
    } else {
      assert (middle + b)[|middle + b| - 1] == b[|b| - 1];
    }
  }

  lemma TrimAround(a: string, part: string, b: string)
    requires part != "" && '/' !in part
    ensures Text.Trim(a + part + b, Slash) == Text.TrimLeft(a, Slash) + part + Text.TrimRight(b, Slash)
  {
    hide Text.TrimLeft, Text.TrimRight;
    var left := Text.TrimLeft(a, Slash);
    assert part[0] in part && part[|part| - 1] in part;
    assert a + part + b == a + (part + b);
    TrimLeftStops(a, part + b);
    assert left + (part + b) == (left + part) + b;
    TrimRightStops(left + part, b);
  }

  /** The segments around a non-empty part without slashes do not depend on that part. */
  lemma SegmentsAround(a: string, part: string, b: string)
    requires part != "" && '/' !in part
    ensures Segments(a + part + b) == Text.Count(Text.TrimLeft(a, Slash), '/') + Text.Count(Text.TrimRight(b, Slash), '/') + 1
  {
    hide Text.TrimLeft, Text.TrimRight, Text.Trim, Text.Split, Text.Count;
    var left, right := Text.TrimLeft(a, Slash), Text.TrimRight(b, Slash);
    TrimAround(a, part, b);
    Text.CountConcat(left + part, right, '/');
    Text.CountConcat(left, part, '/');
    Text.CountZero(part, '/');
  }

  /** Replacing a placeholder by a literal segment changes the score by 20 and the difference in length: it
      rises exactly when the literal is less than 20 characters shorter, so always for short placeholders. */
  lemma LiteralBeatsPlaceholder(a: string, placeholder: string, literal: string, b: string)
    requires '/' !in placeholder && Text.Count(placeholder, '{') == 1
    requires literal != "" && '/' !in literal && '{' !in literal
    ensures Specificity(a + literal + b) - Specificity(a + placeholder + b) == |literal| + 20 - |placeholder|
    ensures |placeholder| <= 20 ==> Specificity(a + literal + b) > Specificity(a + placeholder + b)
  {
    hide Segments, Text.Count;
    Text.CountZero("", '{');
    SegmentsAround(a, literal, b);
    SegmentsAround(a, placeholder, b);
    CountAround(a, literal, b);
    CountAround(a, placeholder, b);
    Text.CountZero(literal, '{');
  }

  lemma CountAround(a: string, part: string, b: string)
    ensures Text.Count(a + part + b, '{') == Text.Count(a, '{') + Text.Count(part, '{') + Text.Count(b, '{')
  {
    Text.CountConcat(a + part, b, '{');
    Text.CountConcat(a, part, '{');
  }

  // -------------------------------------------------------------------- sort

  /** Method names in string order. */
  function VerbRank(verb: Method): nat {
    match verb
    case DELETE => 0
    case GET => 1
    case HEAD => 2
    case PATCH => 3
    case POST => 4
    case PUT => 5
  }

  /** What the order looks at. */
  datatype Rank = Rank(verb: Method, specificity: int)

  function RankOf(r: Route): Rank {
    Rank(r.verb, Specificity(r.pattern))
  }

  /** The comparison of the sort: by method, then by falling specificity. */
  predicate Less(a: Rank, b: Rank) {
    if a.verb != b.verb then VerbRank(a.verb) < VerbRank(b.verb) else a.specificity > b.specificity
  }

  predicate Ordered(routes: seq<Route>) {
    forall i, j | 0 <= i < j < |routes| :: !Less(RankOf(routes[j]), RankOf(routes[i]))
  }

  function Inserted(routes: seq<Route>, r: Route): seq<Route> {
    if routes == [] || !Less(RankOf(r), RankOf(routes[|routes| - 1])) then routes + [r]
    else Inserted(routes[..|routes| - 1], r) + [routes[|routes| - 1]]
  }

  /** A stable sort. */
  function Sorted(routes: seq<Route>): seq<Route> {
    if routes == [] then [] else Inserted(Sorted(routes[..|routes| - 1]), routes[|routes| - 1])
  }

  /** The routes of one rank, in their order. */
  function OfRank(routes: seq<Route>, rank: Rank): seq<Route> {
    if routes == [] then []
    else
      var before, last := OfRank(routes[..|routes| - 1], rank), routes[|routes| - 1];
      if RankOf(last) == rank then before + [last] else before
  }

  lemma {:induction false} InsertedFits(routes: seq<Route>, r: Route)
    requires Ordered(routes)
    ensures Ordered(Inserted(routes, r))
    ensures forall x :: x in Inserted(routes, r) <==> x in routes || x == r
  {
    hide Specificity;
    if routes != [] && Less(RankOf(r), RankOf(routes[|routes| - 1])) {
      var front, last := routes[..|routes| - 1], routes[|routes| - 1];
      InsertedFits(front, r);
      var inner := Inserted(front, r);
      forall i | 0 <= i < |inner|
        ensures !Less(RankOf(last), RankOf(inner[i]))
      {
        assert inner[i] in inner;
        if inner[i] != r {
          var k :| 0 <= k < |front| && front[k] == inner[i];
          assert !Less(RankOf(routes[|routes| - 1]), RankOf(routes[k]));
        }
      }
    } else {
      forall i | 0 <= i < |routes|
        ensures !Less(RankOf(r), RankOf(routes[i]))
      {
        if i < |routes| - 1 {
          assert !Less(RankOf(routes[|routes| - 1]), RankOf(routes[i]));
        }
      }
    }
  }

  ghost function Counts(routes: seq<Route>): multiset<Route> {
    multiset(routes)
  }

  lemma {:induction false} InsertedCounts(routes: seq<Route>, r: Route)
    ensures Counts(Inserted(routes, r)) == Counts(routes) + multiset{r}
  {
    hide Less, RankOf;
    if routes != [] {
      var front, last := routes[..|routes| - 1], routes[|routes| - 1];
      InsertedCounts(front, r);
      assert front + [last] == routes;
    }
  }

  lemma RankPush(routes: seq<Route>, r: Route, rank: Rank)
    ensures OfRank(routes + [r], rank) == if RankOf(r) == rank then OfRank(routes, rank) + [r] else OfRank(routes, rank)
  {
    hide RankOf;
    assert (routes + [r])[..|routes|] == routes;
  }

  lemma {:induction false} InsertedKeeps(routes: seq<Route>, r: Route, rank: Rank)
    ensures OfRank(Inserted(routes, r), rank) == if RankOf(r) == rank then OfRank(routes, rank) + [r] else OfRank(routes, rank)
  {
    hide Less, RankOf, OfRank;
    if routes != [] && Less(RankOf(r), RankOf(routes[|routes| - 1])) {
      var front, last := routes[..|routes| - 1], routes[|routes| - 1];
      InsertedKeeps(front, r, rank);
      assert front + [last] == routes;
      RankPush(Inserted(front, r), last, rank);
      RankPush(front, last, rank);
      if RankOf(r) == rank {
        SmallerIsAbsent(routes, r, rank);
      }
    } else {
      RankPush(routes, r, rank);
    }
  }

  /** The element passed over has another rank. */
  lemma SmallerIsAbsent(routes: seq<Route>, r: Route, rank: Rank)
    requires routes != [] && Less(RankOf(r), RankOf(routes[|routes| - 1])) && RankOf(r) == rank
    ensures RankOf(routes[|routes| - 1]) != rank
  {
  }

  /** The sort permutes the routes, orders them by method and falling specificity, and keeps the order of equal ones. */
  lemma {:induction false} SortedFits(routes: seq<Route>, rank: Rank)
    ensures Ordered(Sorted(routes)) && Counts(Sorted(routes)) == Counts(routes)
    ensures OfRank(Sorted(routes), rank) == OfRank(routes, rank)
  {
    hide RankOf, Inserted;
    if routes != [] {
      var front, last := routes[..|routes| - 1], routes[|routes| - 1];
      SortedFits(front, rank);
      InsertedFits(Sorted(front), last);
      InsertedCounts(Sorted(front), last);
      InsertedKeeps(Sorted(front), last, rank);
      RankPush(front, last, rank);
      assert front + [last] == routes;
    }
  }

  lemma {:induction false} RankPresent(routes: seq<Route>, i: nat)
    requires i < |routes|
    ensures OfRank(routes, RankOf(routes[i])) != []
  {
    hide Specificity;
    if i < |routes| - 1 {
      RankPresent(routes[..|routes| - 1], i);
    }
  }

  lemma {:induction false} RankAbsent(routes: seq<Route>, rank: Rank)
    requires OfRank(routes, rank) != []
    ensures exists i | 0 <= i < |routes| :: RankOf(routes[i]) == rank
  {
    hide Specificity;
    if RankOf(routes[|routes| - 1]) != rank {
      RankAbsent(routes[..|routes| - 1], rank);
      var i :| 0 <= i < |routes| - 1 && RankOf(routes[..|routes| - 1][i]) == rank;
      assert RankOf(routes[i]) == rank;
    }
  }

  ghost predicate SameRanks(a: seq<Route>, b: seq<Route>) {
    forall rank: Rank :: OfRank(a, rank) == OfRank(b, rank)
  }

  lemma LastRankSame(a: seq<Route>, b: seq<Route>)
    requires Ordered(a) && Ordered(b) && SameRanks(a, b) && a != [] && b != []
    ensures !Less(RankOf(a[|a| - 1]), RankOf(b[|b| - 1]))
  {
    hide Specificity;
    RankPresent(b, |b| - 1);
    var rank := RankOf(b[|b| - 1]);
    assert OfRank(a, rank) == OfRank(b, rank);
    RankAbsent(a, rank);
    var i :| 0 <= i < |a| && RankOf(a[i]) == rank;
  }

  /** There is one stable sort: any ordered arrangement that keeps the order within each rank is the sorted one. */
  lemma {:induction false} StableSortUnique(a: seq<Route>, b: seq<Route>)
    requires Ordered(a) && Ordered(b) && SameRanks(a, b)
    ensures a == b
    decreases |a|
  {
    hide Specificity;
    if a == [] {
      if b != [] {
        assert OfRank(b, RankOf(b[0])) == OfRank(a, RankOf(b[0]));
        RankPresent(b, 0);
      }
    } else if b == [] {
      assert OfRank(a, RankOf(a[0])) == OfRank(b, RankOf(a[0]));
      RankPresent(a, 0);
    } else {
      LastRankSame(a, b);
      LastRankSame(b, a);
      var last := RankOf(a[|a| - 1]);
      SameOrder(last, RankOf(b[|b| - 1]));
      var a', b' := a[..|a| - 1], b[..|b| - 1];
      assert a == a' + [a[|a| - 1]] && b == b' + [b[|b| - 1]];
      forall rank: Rank
        ensures OfRank(a', rank) == OfRank(b', rank) && a[|a| - 1] == b[|b| - 1]
      {
        assert OfRank(a, rank) == OfRank(b, rank) && OfRank(a, last) == OfRank(b, last);
        RankPush(a', a[|a| - 1], rank);
        RankPush(b', b[|b| - 1], rank);
        RankPush(a', a[|a| - 1], last);
        RankPush(b', b[|b| - 1], last);
        SamePush(OfRank(a', last), a[|a| - 1], OfRank(b', last), b[|b| - 1]);
      }
      assert OfRank(a', last) == OfRank(b', last);
      StableSortUnique(a', b');
    }
  }

  lemma SamePush(a: seq<Route>, x: Route, b: seq<Route>, y: Route)
    requires a + [x] == b + [y]
    ensures a == b && x == y
  {
    assert (a + [x])[..|a|] == a && (b + [y])[..|b|] == b;
    assert (a + [x])[|a|] == x && (b + [y])[|b|] == y;
  }

  lemma SameOrder(a: Rank, b: Rank)
    requires !Less(a, b) && !Less(b, a)
    ensures a == b
  {
  }

  // ------------------------------------------------------------------- match

  /** The compiled pattern matches the path. */
  type Matcher = (string, string) -> bool

  function FirstMatch(catalog: seq<Route>, verb: Method, path: string, matches: Matcher): Option<Route> {
    if catalog == [] then None
    else if catalog[0].verb == verb && matches(catalog[0].pattern, path) then Some(catalog[0])
    else FirstMatch(catalog[1..], verb, path, matches)
  }

  /** Match with its retry without trailing slashes. */
  function MatchOf(catalog: seq<Route>, verb: Method, path: string, matches: Matcher): Option<Route>
    decreases |path|
  {
    var found := FirstMatch(catalog, verb, path, matches);
    if found.Some? then found
    else if path != "/api/" && path != "" && path[|path| - 1] == '/' then
      MatchOf(catalog, verb, Trimmed(path), matches)
    else None
  }

  /** strings.TrimRight(path, "/"). */
  function Trimmed(path: string): (r: string)
    ensures path != "" && path[|path| - 1] == '/' ==> |r| < |path|
    ensures r == "" || r[|r| - 1] != '/'
  {
    Text.TrimRight(path, Slash)
  }

  /** Match: a loop over the catalog, then the recursive retry. */
  method Match(catalog: seq<Route>, verb: Method, path: string, matches: Matcher) returns (found: Option<Route>)
    ensures found == MatchOf(catalog, verb, path, matches)
    decreases |path|
  {
    for i := 0 to |catalog|
      invariant FirstMatch(catalog, verb, path, matches) == FirstMatch(catalog[i..], verb, path, matches)
    {
      if catalog[i].verb == verb && matches(catalog[i].pattern, path) {
        return Some(catalog[i]);
      }
      assert catalog[i..][1..] == catalog[i + 1..];
    }
    if path != "/api/" && path != "" && path[|path| - 1] == '/' {
      found := Match(catalog, verb, Trimmed(path), matches);
    } else {
      found := None;
    }
  }

  predicate Fits(r: Route, verb: Method, path: string, matches: Matcher) {
    r.verb == verb && matches(r.pattern, path)
  }

  lemma {:induction false} FirstMatchBest(catalog: seq<Route>, verb: Method, path: string, matches: Matcher)
    requires Ordered(catalog)
    ensures var found := FirstMatch(catalog, verb, path, matches);
      if found.Some? then
        found.value in catalog && Fits(found.value, verb, path, matches) &&
        forall r | r in catalog && r.verb == verb && Fits(r, verb, path, matches) ::
          Specificity(found.value.pattern) >= Specificity(r.pattern)
      else forall r | r in catalog :: !Fits(r, verb, path, matches)
  {
    hide Specificity;
    if catalog != [] {
      var head, tail := catalog[0], catalog[1..];
      FirstMatchBest(tail, verb, path, matches);
      assert catalog == [head] + tail;
      if Fits(head, verb, path, matches) {
        forall r | r in catalog && r.verb == verb
          ensures Specificity(head.pattern) >= Specificity(r.pattern)
        {
          var i :| 0 <= i < |catalog| && catalog[i] == r;
          assert i > 0 ==> !Less(RankOf(catalog[i]), RankOf(catalog[0]));
        }
      }
    }
  }

  /** The path that decides: the given one, or without its trailing slashes if nothing fits it. */
  function Effective(catalog: seq<Route>, verb: Method, path: string, matches: Matcher): string {
    if FirstMatch(catalog, verb, path, matches).Some? || path == "/api/" then path else Trimmed(path)
  }

  /** Match returns a fitting route of maximal specificity, and none only if no route fits the path as given or trimmed. */
  lemma MatchIsBest(catalog: seq<Route>, verb: Method, path: string, matches: Matcher)
    requires Ordered(catalog)
    ensures var found := MatchOf(catalog, verb, path, matches); var p := Effective(catalog, verb, path, matches);
      if found.Some? then
        found.value in catalog && Fits(found.value, verb, p, matches) &&
        forall r | r in catalog && r.verb == verb && Fits(r, verb, p, matches) :: Specificity(found.value.pattern) >= Specificity(r.pattern)
      else forall r | r in catalog :: !Fits(r, verb, path, matches) && !Fits(r, verb, p, matches)
  {
    hide Specificity, Fits, FirstMatch;
    FirstMatchBest(catalog, verb, path, matches);
    FirstMatchBest(catalog, verb, Trimmed(path), matches);
    TrimmedStays(path);
  }

  lemma TrimmedStays(path: string)
    ensures path == "" || path[|path| - 1] != '/' ==> Trimmed(path) == path
    ensures Trimmed(path) != "/api/"
  {
  }

  /** For any base routes and overrides with distinct keys: the catalog holds one route per key with overrides
      winning, and a request is matched to a most specific one. */
  lemma CatalogIsSound(base: seq<Route>, overrides: seq<Route>, r: Route)
    requires DistinctKeys(base) && DistinctKeys(overrides)
    ensures var catalog := Sorted(Merged(base, overrides));
      Ordered(catalog) && (r in catalog <==> r in overrides || (r in base && !HasKey(overrides, KeyOf(r))))
  {
    hide Merged, HasKey, Ordered, Sorted;
    OverrideWins(base, overrides, r);
    SortedFits(Merged(base, overrides), RankOf(r));
    assert r in Sorted(Merged(base, overrides)) <==> r in Counts(Merged(base, overrides)) by {
      assert r in Counts(Sorted(Merged(base, overrides))) <==> r in Counts(Merged(base, overrides));
    }
  }
}
