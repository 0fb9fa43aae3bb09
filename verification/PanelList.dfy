/** The user list of a restricted panel session: scan the upstream list page by page, keep the
    owned users, and cut out the page that was asked for. */
module PanelList {
  import opened KeyTables
  import opened Prelude
  import opened Json
  import opened Config
  import opened Remnawave
  import opened ListFilter
  import opened Upstream
  import Text

  const UPSTREAM_PAGE: nat := 1000
  const MAX_SCAN: nat := 20000

  // ------------------------------------------------------- reading the query

  /** strconv.Atoi: an optional sign, digits, and a value of 64 bits. */
  function Atoi(s: string): Option<int> {
    var digits := DigitsValue(if s != "" && (s[0] == '-' || s[0] == '+') then s[1..] else s);
    if digits.None? then None
    else
      var n := if s[0] == '-' then -digits.value else digits.value;
      if FitsInt64(n) then Some(n) else None
  }

  function QueryInt(values: map<string, string>, key: string): Option<int> {
    if key in values && Text.TrimSpace(values[key]) != "" then Atoi(Text.TrimSpace(values[key])) else None
  }

  /** firstPositiveInt. */
  function FirstPositive(values: map<string, string>, keys: seq<string>): nat {
    if keys == [] then 0
    else
      var n := QueryInt(values, keys[0]);
      if n.Some? && n.value > 0 then n.value else FirstPositive(values, keys[1..])
  }

  /** firstNonNegativeInt. */
  function FirstNonNegative(values: map<string, string>, keys: seq<string>): nat {
    if keys == [] then 0
    else
      var n := QueryInt(values, keys[0]);
      if n.Some? && n.value >= 0 then n.value else FirstNonNegative(values, keys[1..])
  }

  function StartParam(values: map<string, string>): nat {
    FirstNonNegative(values, ["start", "offset"])
  }

  function SizeParam(values: map<string, string>): nat {
    FirstPositive(values, ["size", "limit"])
  }

  function PageParam(values: map<string, string>): nat {
    FirstPositive(values, ["page"])
  }

  /** panelResponsePage, after the parameters are read. */
  function PageOf(start: nat, size: nat, page: nat): Option<Page> {
    if size == 0 then None
    else if start == 0 && page > 1 then Some(Page(WrapInt64((page - 1) * size), size))
    else Some(Page(start, size))
  }

  function ResponsePage(panel: bool, values: map<string, string>): Option<Page> {
    if !panel then None else PageOf(StartParam(values), SizeParam(values), PageParam(values))
  }

  lemma {:induction false} ParametersFit(values: map<string, string>, keys: seq<string>)
    ensures FitsInt64(FirstPositive(values, keys)) && FitsInt64(FirstNonNegative(values, keys))
  {
    if keys != [] {
      ParametersFit(values, keys[1..]);
    }
  }

  /** A parameter that spells an integer is that integer, and no parameter where it does not fit into 64 bits. */
  lemma NumbersAreRead(values: map<string, string>, key: string, n: int)
    requires key in values && values[key] == Written(n)
    ensures QueryInt(values, key) == if FitsInt64(n) then Some(n) else None
  {
    hide DigitsValue, Digits, Text.TrimSpace;
    WrittenIsRead(n);
    DigitsAreRead(if n < 0 then -n else n);
    if n < 0 {
      assert Written(n)[1..] == Digits(-n);
    }
  }

  /** The parameters of a query: the first spelling that gives a number in range counts, and zero stands for none. */
  lemma ParametersMean(values: map<string, string>)
    ensures var start, offset := QueryInt(values, "start"), QueryInt(values, "offset");
      StartParam(values) == if start.Some? && start.value >= 0 then start.value
                            else if offset.Some? && offset.value >= 0 then offset.value else 0
    ensures var size, limit := QueryInt(values, "size"), QueryInt(values, "limit");
      SizeParam(values) == if size.Some? && size.value > 0 then size.value
                           else if limit.Some? && limit.value > 0 then limit.value else 0
    ensures var page := QueryInt(values, "page"); PageParam(values) == if page.Some? && page.value > 0 then page.value else 0
  {
    hide QueryInt;
    assert ["start", "offset"][1..] == ["offset"] && ["size", "limit"][1..] == ["limit"];
    assert ["offset"][1..] == [] && ["limit"][1..] == [] && ["page"][1..] == [];
    assert FirstNonNegative(values, []) == FirstPositive(values, []) == 0;
    assert FirstNonNegative(values, ["offset"]) == FirstNonNegative(values, ["start", "offset"][1..]);
    assert FirstPositive(values, ["limit"]) == FirstPositive(values, ["size", "limit"][1..]);
  }

  /** Asking for page k is asking for start (k-1)*size, wherever that start can be given at all. A start of
      zero still lets a page parameter decide. */
  lemma PageIsStart(size: nat, k: nat, other: nat)
    requires size > 0 && k > 0 && FitsInt64((k - 1) * size)
    requires k == 1 ==> other <= 1
    ensures PageOf(0, size, k) == PageOf((k - 1) * size, size, other) == Some(Page((k - 1) * size, size))
  {
    if k > 1 {
      assert (k - 1) * size >= 1;
    }
  }

  // ---------------------------------------------------------------- scanning

  /** decodeUserListPage: the users of one upstream page and the total it claims. */
  function DecodeListPage(body: Json): Option<(seq<Json>, int)> {
    if !body.Obj? || "response" !in body.fields || !body.fields["response"].Obj? then None
    else
      var response := body.fields["response"].fields;
      if "users" !in response || !response["users"].Arr? then None
      else
        var users := response["users"].items;
        match Lookup(response, "total")
        case Some(Num(Int(n))) => Some((users, if FitsInt64(n) then n else |users|))
        case _ => Some((users, |users|))
  }

  datatype Scan =
    | Unavailable
    | NotListed(answer: Answer)
    | BadPage
    | Collected(users: seq<Json>)

  /** The scan from one start on, for whatever the upstream answers at each start. */
  function ScanFrom(fetch: nat -> Answer, start: nat, combined: seq<Json>): Scan
    decreases MAX_SCAN - start
  {
    if start >= MAX_SCAN then Collected(combined)
    else
      var answer := fetch(start);
      if answer.NoAnswer? then Unavailable
      else if !Success(answer) then NotListed(answer)
      else if answer.body.None? || DecodeListPage(answer.body.value).None? then BadPage
      else
        var (users, total) := DecodeListPage(answer.body.value).value;
        if |users| < UPSTREAM_PAGE || start + UPSTREAM_PAGE >= total then Collected(combined + users)
        else ScanFrom(fetch, start + UPSTREAM_PAGE, combined + users)
  }

  function Min(a: int, b: int): int {
    if a < b then a else b
  }

  /** An upstream whose list does not change during the scan and that reports pages and total truthfully. */
  ghost predicate Honest(fetch: nat -> Answer, all: seq<Json>) {
    forall start: nat | start <= |all| ::
      Success(fetch(start)) && fetch(start).body.Some? &&
      DecodeListPage(fetch(start).body.value) == Some((all[start..Min(start + UPSTREAM_PAGE, |all|)], |all|))
  }

  lemma {:induction false} HonestScanFrom(fetch: nat -> Answer, all: seq<Json>, start: nat)
    requires Honest(fetch, all) && start <= |all| && start <= MAX_SCAN && start % UPSTREAM_PAGE == 0
    ensures ScanFrom(fetch, start, all[..start]) == Collected(all[..Min(MAX_SCAN, |all|)])
    decreases MAX_SCAN - start
  {
    if start < MAX_SCAN {
      var end := Min(start + UPSTREAM_PAGE, |all|);
      assert all[..start] + all[start..end] == all[..end];
      if start + UPSTREAM_PAGE < |all| {
        HonestScanFrom(fetch, all, start + UPSTREAM_PAGE);
      }
    }
  }

  // ------------------------------------------------------- filter, then slice

  function OwnedItem(tok: TokenPolicy): Keep {
    item => if DecodeUser(item).Some? && Owns(tok, DecodeUser(item).value) then Some(item) else None
  }

  function UserListBody(users: seq<Json>, total: nat): Json {
    Obj(map["response" := Obj(map["users" := Arr(users), "total" := Num(Int(total))])])
  }

  /** What the caller of the restricted list receives. */
  datatype ListReply = ListReply(status: int, body: Option<Json>) | ListFailed(reason: Reason) | ListPanic

  /** Cutting the page out of the owned users panics. */
  predicate OwnedFaults(users: seq<Json>, page: Option<Page>, tok: TokenPolicy) {
    SliceFaults(|KeepItems(users, OwnedItem(tok))|, page)
  }

  function ReplyOf(scan: Scan, page: Option<Page>, tok: TokenPolicy): ListReply {
    match scan
    case Unavailable => ListFailed(UpstreamUnavailable)
    case NotListed(answer) => if answer.Answer? then ListReply(answer.status, answer.body) else ListFailed(UpstreamUnavailable)
    case BadPage => ListFailed(UnfilterableListResponse)
    case Collected(users) =>
      if OwnedFaults(users, page, tok) then ListPanic
      else
        match FilterList(UserListBody(users, |users|), page, OwnedItem(tok))
        case None => ListFailed(UnfilterableListResponse)
        case Some(body) => ListReply(200, Some(body))
  }

  lemma FilterUserListBody(users: seq<Json>, total: nat, page: Option<Page>, keep: Keep)
    ensures FilterList(UserListBody(users, total), page, keep) ==
      Some(UserListBody(SlicePage(KeepItems(users, keep), page), |KeepItems(users, keep)|))
  {
    hide RedactCounts, KeepItems;
    var inner := Obj(map["users" := Arr(users), "total" := Num(Int(total))]);
    var kept := SlicePage(KeepItems(users, keep), page);
    var count := |KeepItems(users, keep)|;
    assert Keys(ListKeys)[0] == "response" && Keys(ListKeys)[1] == "users";
    var inner' := Obj(inner.fields["users" := Arr(kept)]);
    FilterInner(users, total, page, keep);
    assert FilterNode(inner, page, keep) == Filtered(inner', count);
    var root := UserListBody(users, total);
    assert FilterUnder(root, page, keep, 0) == Filtered(Obj(root.fields["response" := inner']), count);
    RedactUserList(kept, total, count);
    assert inner'.fields == map["users" := Arr(kept), "total" := Num(Int(total))];
    assert root.fields["response" := inner'] == map["response" := inner'];
  }

  lemma FilterInner(users: seq<Json>, total: nat, page: Option<Page>, keep: Keep)
    ensures var inner := Obj(map["users" := Arr(users), "total" := Num(Int(total))]);
      var kept := KeepItems(users, keep);
      FilterNode(inner, page, keep) == Filtered(Obj(inner.fields["users" := Arr(SlicePage(kept, page))]), |kept|)
  {
    var inner := Obj(map["users" := Arr(users), "total" := Num(Int(total))]);
    assert Keys(ListKeys)[0] == "response" && Keys(ListKeys)[1] == "users";
    assert "response" !in inner.fields;
    assert FilterUnder(inner, page, keep, 0) == FilterUnder(inner, page, keep, 1);
    var kept := KeepItems(users, keep);
    assert inner.fields[Keys(ListKeys)[1]] == Arr(users);
    assert FilterNode(Arr(users), page, keep) == Filtered(Arr(SlicePage(kept, page)), |kept|);
  }

  /** The filter counts all owned users of the list. */
  lemma UserListCount(users: seq<Json>, total: nat, page: Option<Page>, keep: Keep)
    ensures var filtered := FilterNode(UserListBody(users, total), page, keep);
      filtered.Filtered? && filtered.count == |KeepItems(users, keep)|
  {
    hide KeepItems, SlicePage;
    FilterInner(users, total, page, keep);
    assert Keys(ListKeys)[0] == "response";
    var root := UserListBody(users, total);
    assert FilterNode(root, page, keep) == FilterUnder(root, page, keep, 0);
  }

  /** The four key facts that the rewriting of a user list turns on. */
  lemma UserListKeys()
    ensures "total" in Keys(CountKeys) && "users" !in Keys(CountKeys) && "users" !in Keys(ChainKeys)
    ensures "response" !in Keys(CountKeys) && "response" in Keys(ChainKeys)
  {
    assert Keys(CountKeys)[0] == "total" && Keys(ChainKeys)[0] == "response" && Keys(ListKeys)[1] == "users";
    ChainKeysAreNoCounts("response");
    ChainKeysAreNoCounts(Keys(ListKeys)[1]);
  }

  lemma RedactUserList(users: seq<Json>, total: nat, visible: nat)
    ensures RedactCounts(UserListBody(users, total), visible) == UserListBody(users, visible)
  {
    hide Keys;
    UserListKeys();
    var inner := Obj(map["users" := Arr(users), "total" := Num(Int(total))]);
    assert RedactCounts(inner, visible).fields == map["users" := Arr(users), "total" := Num(Int(visible))];
    assert RedactCounts(UserListBody(users, total), visible).fields == UserListBody(users, visible).fields;
  }

  /** Against an honest upstream the panel receives exactly the requested slice of the owned users
      among the first 20000, with their number as the total. */
  lemma PanelListRefines(fetch: nat -> Answer, all: seq<Json>, page: Option<Page>, tok: TokenPolicy)
    requires Honest(fetch, all)
    ensures var owned := KeepItems(all[..Min(MAX_SCAN, |all|)], OwnedItem(tok));
      ReplyOf(ScanFrom(fetch, 0, []), page, tok) ==
      if SliceFaults(|owned|, page) then ListPanic else ListReply(200, Some(UserListBody(SlicePage(owned, page), |owned|)))
  {
    HonestScanFrom(fetch, all, 0);
    assert all[..0] == [];
    var users := all[..Min(MAX_SCAN, |all|)];
    FilterUserListBody(users, |users|, page, OwnedItem(tok));
  }

  // ---------------------------------------------------------- walking pages

  /** A page in unbounded arithmetic: what start and size ask for. */
  function IdealPage(items: seq<Json>, start: nat, size: nat): seq<Json> {
    if size == 0 then items else if start >= |items| then [] else items[start..Min(start + size, |items|)]
  }

  /** The pages at start 0, s, 2s, ..., (n-1)*s, put one after the other. */
  function Walk(items: seq<Json>, size: nat, n: nat): seq<Json> {
    if n == 0 then [] else Walk(items, size, n - 1) + IdealPage(items, (n - 1) * size, size)
  }

  /** Walking the pages yields every item exactly once and in order. */
  lemma {:induction false} WalkIsPrefix(items: seq<Json>, size: nat, n: nat)
    requires size > 0
    ensures Walk(items, size, n) == items[..Min(n * size, |items|)]
    ensures n * size >= |items| ==> Walk(items, size, n) == items
  {
    if n > 0 {
      WalkIsPrefix(items, size, n - 1);
      var start := (n - 1) * size;
      assert n * size == start + size;
      if start < |items| {
        var end := Min(start + size, |items|);
        assert items[..start] + items[start..end] == items[..end];
      }
    }
  }

  // ------------------------------------------------------- 64-bit arithmetic

  lemma WrapFits(x: int)
    ensures FitsInt64(WrapInt64(x)) && (FitsInt64(x) <==> WrapInt64(x) == x)
  {
  }

  lemma WrapOver(x: int)
    requires MAX_INT64 < x <= 2 * MAX_INT64
    ensures WrapInt64(x) < 0
  {
  }

  /** What start, size and page ask for, as an unbounded start. */
  function AskedStart(start: nat, size: nat, page: nat): nat {
    if start == 0 && page > 1 then (page - 1) * size else start
  }

  /** The page parameters stay within 64 bits as far as a list of this length notices. */
  predicate InRange(length: nat, start: nat, size: nat, page: nat) {
    var asked := AskedStart(start, size, page);
    size == 0 || if FitsInt64(asked) then asked >= length || FitsInt64(asked + size) else WrapInt64(asked) >= length
  }

  predicate Parameters(start: nat, size: nat, page: nat) {
    FitsInt64(start) && FitsInt64(size) && FitsInt64(page)
  }

  /** Exactly when cutting out a page panics: the start, after wrapping, is before the end of the list, and is
      negative or so large that adding the size overflows. */
  lemma FaultExact(length: nat, start: nat, size: nat, page: nat)
    requires Parameters(start, size, page)
    ensures var wrapped := WrapInt64(AskedStart(start, size, page));
      SliceFaults(length, PageOf(start, size, page)) <==>
      size > 0 && wrapped < length && (wrapped < 0 || wrapped + size > MAX_INT64)
  {
    hide WrapInt64;
    var wrapped := WrapInt64(AskedStart(start, size, page));
    WrapFits(AskedStart(start, size, page));
    if size > 0 && 0 <= wrapped < length {
      WrapFits(wrapped + size);
      if wrapped + size > MAX_INT64 {
        WrapOver(wrapped + size);
      }
    }
  }

  /** For all parameters a request can spell: the code cuts out the page that is asked for exactly when the
      parameters stay in range. */
  lemma PageExact(items: seq<Json>, start: nat, size: nat, page: nat)
    requires Parameters(start, size, page) && FitsInt64(|items|)
    ensures var asked := PageOf(start, size, page);
      !SliceFaults(|items|, asked) && SlicePage(items, asked) == IdealPage(items, AskedStart(start, size, page), size) <==>
      InRange(|items|, start, size, page)
  {
    hide WrapInt64;
    var asked := AskedStart(start, size, page);
    var wrapped := WrapInt64(asked);
    FaultExact(|items|, start, size, page);
    WrapFits(asked);
    if size > 0 && 0 <= wrapped < |items| {
      WrapFits(wrapped + size);
    }
  }

  // --------------------------------------------------- walking the replies

  /** The users and the total of a reply. */
  function Received(reply: ListReply): Option<(seq<Json>, int)> {
    if reply.ListReply? && reply.body.Some? then DecodeListPage(reply.body.value) else None
  }

  /** The replies to these queries, one after the other. */
  function WalkReplies(fetch: nat -> Answer, tok: TokenPolicy, queries: seq<map<string, string>>): seq<Json> {
    if queries == [] then []
    else
      var last := Received(ReplyOf(ScanFrom(fetch, 0, []), ResponsePage(true, queries[|queries| - 1]), tok));
      WalkReplies(fetch, tok, queries[..|queries| - 1]) + (if last.Some? then last.value.0 else [])
  }

  /** The k-th query asks for start k*size. A first query does not ask for a later page, and no start or end overflows. */
  predicate WalkingQueries(queries: seq<map<string, string>>, size: nat) {
    size > 0 && FitsInt64(|queries| * size) &&
    forall k | 0 <= k < |queries| ::
      StartParam(queries[k]) == k * size && SizeParam(queries[k]) == size && (k == 0 ==> PageParam(queries[k]) <= 1)
  }

  /** The owned users among those that are scanned. */
  function OwnedScanned(all: seq<Json>, tok: TokenPolicy): seq<Json> {
    KeepItems(all[..Min(MAX_SCAN, |all|)], OwnedItem(tok))
  }

  /** One reply of an honest walk: the k-th page of the owned users, with their number. */
  lemma HonestReply(fetch: nat -> Answer, all: seq<Json>, tok: TokenPolicy, query: map<string, string>, k: nat, size: nat)
    requires Honest(fetch, all) && size > 0 && FitsInt64((k + 1) * size)
    requires StartParam(query) == k * size && SizeParam(query) == size && (k == 0 ==> PageParam(query) <= 1)
    ensures var owned := OwnedScanned(all, tok);
      Received(ReplyOf(ScanFrom(fetch, 0, []), ResponsePage(true, query), tok)) == Some((IdealPage(owned, k * size, size), |owned|))
  {
    hide ScanFrom, KeepItems, OwnedItem, ReplyOf, SlicePage, SliceFaults, WrapInt64;
    var owned, page := OwnedScanned(all, tok), PageParam(query);
    assert (k + 1) * size == k * size + size;
    if k > 0 {
      assert k * size >= size;
    }
    ParametersFit(query, ["page"]);
    PageExact(owned, k * size, size, page);
    PanelListRefines(fetch, all, ResponsePage(true, query), tok);
    OwnListDecodes(SlicePage(owned, ResponsePage(true, query)), |owned|);
  }

  lemma OwnListDecodes(users: seq<Json>, total: nat)
    requires FitsInt64(total)
    ensures DecodeListPage(UserListBody(users, total)) == Some((users, total))
  {
  }

  /** Against an honest upstream, asking for start 0, s, 2s, ... delivers the owned users among the first 20000,
      each once and in order, up to the end of the last page asked for. */
  lemma {:induction false} HonestWalk(fetch: nat -> Answer, all: seq<Json>, tok: TokenPolicy, queries: seq<map<string, string>>, size: nat)
    requires Honest(fetch, all) && WalkingQueries(queries, size)
    ensures var owned, n := OwnedScanned(all, tok), |queries|;
      && WalkReplies(fetch, tok, queries) == owned[..Min(n * size, |owned|)]
      && (n * size >= |owned| ==> WalkReplies(fetch, tok, queries) == owned)
  {
    hide ScanFrom, KeepItems, OwnedItem, ReplyOf, Received, ResponsePage, StartParam, SizeParam, PageParam;
    var owned, n := OwnedScanned(all, tok), |queries|;
    WalkIsPrefix(owned, size, n);
    RepliesAreWalk(fetch, all, tok, queries, size);
  }

  lemma {:induction false} RepliesAreWalk(fetch: nat -> Answer, all: seq<Json>, tok: TokenPolicy, queries: seq<map<string, string>>, size: nat)
    requires Honest(fetch, all) && WalkingQueries(queries, size)
    ensures WalkReplies(fetch, tok, queries) == Walk(OwnedScanned(all, tok), size, |queries|)
  {
    hide ScanFrom, OwnedScanned, ReplyOf, Received, ResponsePage, StartParam, SizeParam, PageParam, IdealPage;
    if queries != [] {
      var front, k := queries[..|queries| - 1], |queries| - 1;
      assert |queries| * size == k * size + size;
      RepliesAreWalk(fetch, all, tok, front, size);
      HonestReply(fetch, all, tok, queries[k], k, size);
    }
  }

  /** A panic reachable by two parameters that parse: start 1 and the largest size, with at least two items. */
  lemma HugeSizePanics(values: map<string, string>, length: nat)
    requires length >= 2 && values == map["start" := "1", "size" := "9223372036854775807"]
    ensures SliceFaults(length, ResponsePage(true, values))
  {
    hide Text.TrimSpace, Atoi, DigitsValue;
    OneAndMax();
    assert QueryInt(values, "start") == Some(1) && QueryInt(values, "size") == Some(MAX_INT64);
    assert StartParam(values) == 1;
    assert SizeParam(values) == MAX_INT64;
    WrapOver(1 + MAX_INT64);
  }

  lemma OneAndMax()
    ensures Text.TrimSpace("1") == "1" && Atoi("1") == Some(1)
    ensures Text.TrimSpace("9223372036854775807") == "9223372036854775807" && Atoi("9223372036854775807") == Some(MAX_INT64)
  {
    hide Text.TrimSpace, DigitsValue;
    Text.TrimNothing("1");
    Text.TrimNothing("9223372036854775807");
    OneDigit();
    MaxDigits();
  }

  lemma OneDigit()
    ensures DigitsValue("1") == Some(1) && DigitsValue("9") == Some(9)
  {
  }

  lemma MaxDigits()
    ensures DigitsValue("9223372036854775807") == Some(MAX_INT64)
  {
    hide DigitsValue;
    OneDigit();
    DigitsStep("9", '2', "92", 9);
    DigitsStep("92", '2', "922", 92);
    DigitsStep("922", '3', "9223", 922);
    DigitsStep("9223", '3', "92233", 9223);
    DigitsStep("92233", '7', "922337", 92233);
    DigitsStep("922337", '2', "9223372", 922337);
    DigitsStep("9223372", '0', "92233720", 9223372);
    DigitsStep("92233720", '3', "922337203", 92233720);
    DigitsStep("922337203", '6', "9223372036", 922337203);
    DigitsStep("9223372036", '8', "92233720368", 9223372036);
    DigitsStep("92233720368", '5', "922337203685", 92233720368);
    DigitsStep("922337203685", '4', "9223372036854", 922337203685);
    DigitsStep("9223372036854", '7', "92233720368547", 9223372036854);
    DigitsStep("92233720368547", '7', "922337203685477", 92233720368547);
    DigitsStep("922337203685477", '5', "9223372036854775", 922337203685477);
    DigitsStep("9223372036854775", '8', "92233720368547758", 9223372036854775);
    DigitsStep("92233720368547758", '0', "922337203685477580", 92233720368547758);
    DigitsStep("922337203685477580", '7', "9223372036854775807", 922337203685477580);
  }
}
