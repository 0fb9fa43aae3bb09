/** Which requests stop their handler with a panic instead of a response, and a run of one. */
module Panics {
  import opened Prelude
  import opened Json
  import opened Config
  import opened Credentials
  import opened Routes
  import opened Remnawave
  import opened BodyPolicy
  import opened ListFilter
  import opened PanelList
  import opened ResponsePolicy
  import opened Upstream
  import opened Requests
  import opened Handler
  import opened HandlerFacts
  import opened Pipeline

  /** The page a request asks for cannot be cut out of this many users: its wrapped start lies before the end of
      the list and is negative, or so large that adding the size overflows. */
  predicate PageOutOfRange(j: Job, length: nat) {
    var start, size, page := StartParam(j.req.query), SizeParam(j.req.query), PageParam(j.req.query);
    var wrapped := WrapInt64(AskedStart(start, size, page));
    j.s.panel && size > 0 && wrapped < length && (wrapped < 0 || wrapped + size > MAX_INT64)
  }

  lemma FaultsByParameters(j: Job, length: nat)
    ensures SliceFaults(length, PageWanted(j)) <==> PageOutOfRange(j, length)
  {
    hide WrapInt64, SliceFaults;
    var query := j.req.query;
    ParametersFit(query, ["start", "offset"]);
    ParametersFit(query, ["size", "limit"]);
    ParametersFit(query, ["page"]);
    FaultExact(length, StartParam(query), SizeParam(query), PageParam(query));
    NoPageNoFault(length);
  }

  lemma NoPageNoFault(length: nat)
    ensures !SliceFaults(length, None)
  {
  }

  /** Exactly when the panel's list panics: the page is out of range for the users that the token owns. */
  lemma ListPanicExact(j: Job, users: seq<Json>)
    requires RestrictedPanelList(j.s)
    ensures ListDone(j, users) == Unwinding <==>
      j.s.route.support == PolicyEnforced && PageOutOfRange(j, |KeepItems(users, OwnedItem(j.s.tok))|)
  {
    hide PageWanted, PageOutOfRange, KeepItems, OwnedItem, FilterList, SliceFaults, RedactCounts, SlicePage, FilterNode;
    var page, keep := PageWanted(j), OwnedItem(j.s.tok);
    UserListCount(users, |users|, page, keep);
    FaultsByParameters(j, |KeepItems(users, keep)|);
  }

  // --------------------------------------------------------- whole handlers

  /** The event is the upstream page that ends the scan: the last one, or the one at the bound of the scan. */
  predicate EndsScan(e: Event) {
    e.FetchPage? && Success(e.answer) && e.answer.body.Some? && DecodeListPage(e.answer.body.value).Some? &&
    var (users, total) := DecodeListPage(e.answer.body.value).value;
    |users| < UPSTREAM_PAGE || e.start + UPSTREAM_PAGE >= total || e.start + UPSTREAM_PAGE >= MAX_SCAN
  }

  predicate ScanEnded(log: seq<Event>) {
    exists i | 0 <= i < |log| :: EndsScan(log[i])
  }

  /** The request is a restricted panel list, all pages were fetched, and the page it asks for cannot be cut
      out of the users that its token owns among the fetched ones. */
  predicate CutFails(t: Thread) {
    t.view.Some? && t.session.Some? &&
    var j := JobOf(t);
    && RestrictedPanelList(j.s) && j.s.route.support == PolicyEnforced && ScanEnded(t.log)
    && PageOutOfRange(j, |KeepItems(PagesRead(t.log), OwnedItem(j.s.tok))|)
  }

  predicate Closing(pc: Pc) {
    pc.Replying? || pc.Unwinding? || pc.Done?
  }

  /** A panic is an impossible cut, and a scan that ended is followed by the end of the handler. */
  predicate CutsTracked(t: Thread) {
    (Stopped(t) <==> CutFails(t)) && (ScanEnded(t.log) ==> Closing(t.pc))
  }

  lemma ScanGrows(log: seq<Event>, e: Event)
    ensures ScanEnded(log + [e]) <==> ScanEnded(log) || EndsScan(e)
  {
    hide EndsScan;
    var grown := log + [e];
    if i :| 0 <= i < |log| && EndsScan(log[i]) {
      assert grown[i] == log[i];
    }
    assert grown[|log|] == e;
  }

  /** A forwarded call is no panel list, so nothing is cut out of its answer. */
  lemma CallNeverPanics(j: Job, a: Answer)
    requires !RestrictedPanelList(j.s)
    ensures Answered(j, a) != Unwinding
  {
    hide FilterNode, EnforceResponse, GateResponse, VerifyWrite, SliceFaults, PageWanted, Answered, FilterResponse;
    AnsweredTarget(j, a);
    if a.Answer? && EnforceResponse(j.s.route, j.s.tok, a).Ok? {
      NotCut(j, EnforceResponse(j.s.route, j.s.tok, a).value);
    }
    if a.Answer? && GateResponse(j.s.route, j.s.tok, a, PageWanted(j)).Ok? {
      VerifyWriteTarget(j, GateResponse(j.s.route, j.s.tok, a, PageWanted(j)).value);
    }
  }

  lemma NotCut(j: Job, a: Answer)
    requires !RestrictedPanelList(j.s) && a.Answer?
    ensures !ResponseFaults(j.s.route, j.s.tok, a, PageWanted(j))
  {
    hide FilterNode;
  }

  lemma PagePanics(j: Job, start: nat, combined: seq<Json>, a: Answer)
    requires RestrictedPanelList(j.s)
    ensures var e := FetchPage(start, a);
      Scanned(j, start, combined, a) == Unwinding <==>
      EndsScan(e) && j.s.route.support == PolicyEnforced &&
      PageOutOfRange(j, |KeepItems(combined + PageUsers(e), OwnedItem(j.s.tok))|)
    ensures Scanned(j, start, combined, a).ListScan? ==> !EndsScan(FetchPage(start, a))
    ensures Scanned(j, start, combined, a).ListScan? || Closing(Scanned(j, start, combined, a))
  {
    hide ListDone, DecodeListPage, PageOutOfRange, RestrictedPanelList, OwnedItem, KeepItems;
    var users := combined + PageUsers(FetchPage(start, a));
    ListPanicExact(j, users);
    ListDoneCloses(j, users);
  }

  lemma ListDoneCloses(j: Job, users: seq<Json>)
    ensures Closing(ListDone(j, users))
  {
    hide ListPanics, ListAnswer;
  }

  /** What a step never changes: the request, the settings once loaded, the session once made. */
  lemma StepKeeps(t: Thread, e: Event)
    requires Inv(t) && Advance(t, e).Some?
    ensures var n := Advance(t, e).UnwrapOr(t);
      && n.log == t.log + [e] && n.req == t.req
      && (t.view.Some? ==> n.view == t.view) && (t.session.Some? ==> n.session == t.session && t.view.Some?)
      && (t.session.None? && n.session.Some? ==> !Closing(t.pc)) && (Closing(t.pc) ==> Closing(n.pc))
      && (e.Forward? ==> t.pc.Forwarding?) && (e.FetchPage? ==> t.pc.ListScan? && t.pc.start == e.start)
  {
    hide SessionFor, PointFacts, HistoryOk, LockedNow, AnsweredOnce, PagesInScan, Admitted, Versioned, Decided, BeginPreflight,
      Preflighted, Scanned, Answered, Verified, LockedWrite, SlotsOf;
  }

  lemma CalmKeeps(t: Thread, e: Event)
    requires Inv(t) && Advance(t, e).Some? && CutsTracked(t) && !e.Forward? && !e.FetchPage?
    ensures CutsTracked(Advance(t, e).UnwrapOr(t))
  {
    hide Inv, Advance, Stopped, Closing, PagesRead, PageOutOfRange, RestrictedPanelList, ScanEnded, KeepItems, OwnedItem;
    var n := Advance(t, e).UnwrapOr(t);
    StepKeeps(t, e);
    HistoryOf(t);
    CalmStep(t, e, n);
    ScanGrows(t.log, e);
    LogStep(t.log, e);
    assert PagesRead(n.log) == PagesRead(t.log) + [] == PagesRead(t.log);
    if t.session.None? {
      assert !Stopped(t) by { Sessionless(t); }
    }
  }

  lemma Sessionless(t: Thread)
    requires t.session.None?
    ensures !Stopped(t)
  {
  }

  lemma HistoryOf(t: Thread)
    requires Inv(t)
    ensures HistoryOk(t)
  {
    hide SessionFits, Shape, PointFacts, HistoryOk, LockedNow, AnsweredOnce, PagesInScan;
  }

  /** What is known of a handler that is about to call the upstream for a list or an answer. */
  lemma CallPoint(t: Thread)
    requires Inv(t) && (t.pc.Forwarding? || t.pc.ListScan?)
    ensures t.view.Some? && t.session.Some? && !Stopped(t)
    ensures t.pc.Forwarding? ==> !RestrictedPanelList(t.session.value)
    ensures t.pc.ListScan? ==> RestrictedPanelList(t.session.value) && t.pc.combined == PagesRead(t.log)
  {
    hide SessionFits, HistoryOk, LockedNow, PagesInScan, Responses, Stopped, Cleared, RestrictedPanelList, PagesRead, LockedWrite;
  }

  lemma ForwardKeeps(t: Thread, e: Event)
    requires Inv(t) && Advance(t, e).Some? && CutsTracked(t) && e.Forward?
    ensures CutsTracked(Advance(t, e).UnwrapOr(t))
  {
    hide Inv, PagesRead, PageOutOfRange, RestrictedPanelList, ScanEnded, KeepItems, OwnedItem, Panicked, Answered;
    StepKeeps(t, e);
    CallPoint(t);
    ScanGrows(t.log, e);
    PanicStep(JobOf(t), t.log, e);
    CallNeverPanics(JobOf(t), e.answer);
  }

  lemma FetchKeeps(t: Thread, e: Event)
    requires Inv(t) && Advance(t, e).Some? && CutsTracked(t) && e.FetchPage?
    ensures CutsTracked(Advance(t, e).UnwrapOr(t))
  {
    hide Inv, PagesRead, PageOutOfRange, RestrictedPanelList, ScanEnded, KeepItems, OwnedItem, Panicked, Scanned, EndsScan, PageUsers;
    StepKeeps(t, e);
    CallPoint(t);
    ScanGrows(t.log, e);
    LogStep(t.log, e);
    PanicStep(JobOf(t), t.log, e);
    PagePanics(JobOf(t), e.start, t.pc.combined, e.answer);
  }

  lemma {:induction false} RunTracksCuts(req: Request, log: seq<Event>)
    requires Replay(Fresh(req), log).Some?
    ensures CutsTracked(Replay(Fresh(req), log).UnwrapOr(Fresh(req)))
  {
    hide Advance, Inv, CutsTracked;
    if log == [] {
      FreshTracked(req);
    } else {
      var front, e := log[..|log| - 1], log[|log| - 1];
      RunTracksCuts(req, front);
      RunKeeps(req, front);
      var t := Replay(Fresh(req), front).value;
      if e.Forward? {
        ForwardKeeps(t, e);
      } else if e.FetchPage? {
        FetchKeeps(t, e);
      } else {
        CalmKeeps(t, e);
      }
    }
  }

  lemma FreshTracked(req: Request)
    ensures CutsTracked(Fresh(req))
  {
  }

  /** For every run: never two responses. A handler that has returned holds nothing, and wrote exactly one
      response, except a restricted panel list whose page cannot be cut out of the owned users: that one,
      and no other, wrote none. */
  lemma OneResponse(req: Request, log: seq<Event>)
    requires Replay(Fresh(req), log).Some?
    ensures Responses(log) <= 1
    ensures var t := Replay(Fresh(req), log).value;
      t.pc.Done? ==> Responses(log) == (if CutFails(t) then 0 else 1) && t.slots == [] && t.mutex.None? && !LockedNow(log)
  {
    hide Replay, Stopped, CutFails;
    RespondedOrStopped(req, log);
    RunTracksCuts(req, log);
  }

  /** Start, size and page that stay within 64 bits together. */
  predicate PlainPage(query: map<string, string>) {
    FitsInt64(AskedStart(StartParam(query), SizeParam(query), PageParam(query)) + SizeParam(query))
  }

  lemma PlainPagesAreCut(j: Job, length: nat)
    requires PlainPage(j.req.query)
    ensures !PageOutOfRange(j, length)
  {
    hide WrapInt64;
    WrapFits(AskedStart(StartParam(j.req.query), SizeParam(j.req.query), PageParam(j.req.query)));
  }

  /** With page parameters that stay within 64 bits every handler that returns wrote exactly one response. */
  lemma PlainPagesAreAnswered(req: Request, log: seq<Event>)
    requires Replay(Fresh(req), log).Some? && Replay(Fresh(req), log).value.pc.Done? && PlainPage(req.query)
    ensures Responses(log) == 1
  {
    hide Replay, PlainPage, PageOutOfRange, Inv, PagesRead, ScanEnded;
    RunKeeps(req, log);
    OneResponse(req, log);
    var t := Replay(Fresh(req), log).value;
    if t.view.Some? && t.session.Some? {
      PlainPagesAreCut(JobOf(t), |KeepItems(PagesRead(log), OwnedItem(t.session.value.tok))|);
    }
  }

  // ------------------------------------------------------ a run without a response

  lemma HugeIsOutOfRange(j: Job, length: nat)
    requires j.s.panel && j.req.query == map["start" := "1", "size" := "9223372036854775807"] && length >= 2
    ensures PageOutOfRange(j, length)
  {
    hide SliceFaults, PageOutOfRange;
    HugeSizePanics(j.req.query, length);
    FaultsByParameters(j, length);
  }

  /** Two query parameters that are read as numbers stop every restricted panel list without a response, as soon
      as the token owns two of the users fetched. */
  lemma HugeSizeStopsHandler(req: Request, log: seq<Event>)
    requires Replay(Fresh(req), log).Some? && req.query == map["start" := "1", "size" := "9223372036854775807"]
    requires var t := Replay(Fresh(req), log).value;
      && t.pc.Done? && ScanEnded(log) && t.view.Some? && t.session.Some?
      && RestrictedPanelList(t.session.value) && t.session.value.route.support == PolicyEnforced
      && |KeepItems(PagesRead(log), OwnedItem(t.session.value.tok))| >= 2
    ensures Responses(log) == 0
  {
    hide Replay, PageOutOfRange, Inv, PagesRead, ScanEnded, KeepItems, OwnedItem;
    RunKeeps(req, log);
    OneResponse(req, log);
    var t := Replay(Fresh(req), log).value;
    HugeIsOutOfRange(JobOf(t), |KeepItems(PagesRead(log), OwnedItem(t.session.value.tok))|);
  }

  // =============================================== a run that writes no response

  function Reader(): TokenPolicy {
    TokenPolicy("t", [Credential("c", "d", false)], [UsersRead], false,
      Constraints("", "", "", NoRegex, "", [], [], [], [], [], [], map[], 0, false, 0, map[]))
  }

  function PanelOnly(): Settings {
    Settings([Reader()], "1.0", "1.0", false, 1, 1, 1, 65536, false, false, false, true, map["admin" := "c"], 0, false, false)
  }

  function ListRoute(): Route {
    Route(UserList, GET, "/api/users", PolicyEnforced, [UsersRead], false, 0, AnyField, "")
  }

  function HugeRequest(): Request {
    Request(GET, "/api/users", ["api", "users"], None, Some(ListRoute()), [], None,
      map["start" := "1", "size" := "9223372036854775807"], PanelToken(Some("admin")), NoAuthPath,
      BodyRequest(false, false, 0, NoObject), None, "192.0.2.1")
  }

  function HugeSession(): Session {
    Session(EffectiveRoute(PanelOnly(), ListRoute()), Reader(), true)
  }

  const TWO_USERS: seq<Json> := [Obj(map["username" := Str("a")]), Obj(map["username" := Str("b")])]

  function TwoUsersPage(): Answer {
    Answer(200, Some(UserListBody(TWO_USERS, 2)))
  }

  lemma TwoAreShown()
    ensures DecodeListPage(TwoUsersPage().body.value) == Some((TWO_USERS, 2))
    ensures KeepItems(TWO_USERS, OwnedItem(Reader())) == TWO_USERS
  {
    OneIsOwned("a");
    OneIsOwned("b");
    hide OwnedItem;
    assert TWO_USERS[..1] == [TWO_USERS[0]] && TWO_USERS[..1][..0] == [];
    assert KeepItems(TWO_USERS[..1], OwnedItem(Reader())) == [] + [TWO_USERS[0]];
    assert KeepItems(TWO_USERS, OwnedItem(Reader())) == [TWO_USERS[0]] + [TWO_USERS[1]];
  }

  lemma OneIsOwned(name: string)
    requires name != ""
    ensures var item := Obj(map["username" := Str(name)]); OwnedItem(Reader())(item) == Some(item)
  {
    var item := Obj(map["username" := Str(name)]);
    assert ParseUserObject(item).Some? && ParseUserObject(item).value.username == name;
    assert DecodeUser(item) == ParseUserObject(item);
  }

  lemma Enters()
    ensures var cfg, req := PanelOnly(), HugeRequest();
      Admitted(cfg, req) == WantVersion && Versioned(cfg, req) == WantToken && SessionFor(cfg, req) == Some(HugeSession())
  {
    assert FindCredential(PanelOnly().tokens, "c") == Some((Reader(), Reader().credentials[0]));
    hide FindCredential;
  }

  lemma ComesToScan()
    ensures var j := Job(PanelOnly(), HugeSession(), HugeRequest());
      Decided(j) == ListScan(0, []) && RestrictedPanelList(j.s) && j.s.route.support == PolicyEnforced
  {
    var route := HugeSession().route;
    DecideExact(Reader(), route);
    assert UsersRead in Reader().scopes && route.scopes[0] == UsersRead;
    hide Decide;
  }

  lemma ScanIsLost()
    ensures Scanned(Job(PanelOnly(), HugeSession(), HugeRequest()), 0, [], TwoUsersPage()) == Unwinding
    ensures PageUsers(FetchPage(0, TwoUsersPage())) == TWO_USERS && EndsScan(FetchPage(0, TwoUsersPage()))
  {
    ComesToScan();
    TwoAreShown();
    hide DecodeListPage, PageOutOfRange, RestrictedPanelList, OwnedItem, KeepItems, Scanned, EffectiveRoute, UserListBody;
    var j := Job(PanelOnly(), HugeSession(), HugeRequest());
    PagePanics(j, 0, [], TwoUsersPage());
    assert [] + TWO_USERS == TWO_USERS;
    HugeIsOutOfRange(j, 2);
  }

  lemma ReplayOne(t0: Thread, log: seq<Event>, t: Thread, e: Event)
    requires Replay(t0, log) == Some(t) && Advance(t, e).Some?
    ensures Replay(t0, log + [e]) == Advance(t, e)
  {
    hide Advance;
    assert (log + [e])[..|log|] == log;
  }

  function Entering(): seq<Event> {
    [] + [LoadState(View(1, PanelOnly()))] + [Acquire(GlobalSlot(1), true)] + [ReadVersion(true)]
  }

  /** The events up to the scan, and from there on. */
  function ToScan(): seq<Event> {
    Entering() + [Acquire(TokenSlot(1, "t"), true)] + [RateCheck(true)]
  }

  function LostLog(): seq<Event> {
    ToScan() + [FetchPage(0, TwoUsersPage())] + [Release(TokenSlot(1, "t"))] + [Release(GlobalSlot(1))]
  }

  /** The handler at a point of this run. */
  function Come(pc: Pc, slots: seq<Slot>, log: seq<Event>): Thread {
    Thread(HugeRequest(), Some(View(1, PanelOnly())), Some(HugeSession()), pc, slots, None, log)
  }

  lemma Entered()
    ensures Replay(Fresh(HugeRequest()), Entering()) == Some(Come(WantToken, [GlobalSlot(1)], Entering()))
  {
    Enters();
    hide Replay, Admitted, Versioned, SessionFor, HugeRequest, PanelOnly, HugeSession;
    var t0, view := Fresh(HugeRequest()), View(1, PanelOnly());
    var e1, e2 := LoadState(view), Acquire(GlobalSlot(1), true);
    var t1 := Go(t0, e1, WantGlobal).(view := Some(view));
    var t2 := GoWith(t1, e2, GlobalSlot(1), WantVersion);
    NothingReplayed(t0);
    assert [] + [GlobalSlot(1)] == [GlobalSlot(1)];
    ReplayOne(t0, [], t0, e1);
    ReplayOne(t0, [] + [e1], t1, e2);
    ReplayOne(t0, [] + [e1] + [e2], t2, ReadVersion(true));
  }

  lemma ScanReached()
    ensures Replay(Fresh(HugeRequest()), ToScan()) == Some(Come(ListScan(0, []), [GlobalSlot(1), TokenSlot(1, "t")], ToScan()))
  {
    Entered();
    ComesToScan();
    hide Replay, Decided, EffectiveRoute, HugeRequest, PanelOnly, RestrictedPanelList, Entering;
    var t0, e := Fresh(HugeRequest()), Acquire(TokenSlot(1, "t"), true);
    var t3 := Come(WantToken, [GlobalSlot(1)], Entering());
    ReplayOne(t0, Entering(), t3, e);
    assert [GlobalSlot(1)] + [TokenSlot(1, "t")] == [GlobalSlot(1), TokenSlot(1, "t")];
    ReplayOne(t0, Entering() + [e], GoWith(t3, e, TokenSlot(1, "t"), WantTokenRate), RateCheck(true));
  }

  lemma Returned()
    ensures Replay(Fresh(HugeRequest()), LostLog()) == Some(Come(Done, [], LostLog()))
  {
    ScanReached();
    ScanIsLost();
    hide Replay, Scanned, HugeRequest, PanelOnly, HugeSession, ToScan, TwoUsersPage, EffectiveRoute, Answered, CheckBody, Preflighted,
      Decided, Versioned, Verified, Admitted, BeginPreflight, PublicStep, OAuthStep, EntryStep, TokenStep;
    var t0, a, b := Fresh(HugeRequest()), GlobalSlot(1), TokenSlot(1, "t");
    var fetched := ToScan() + [FetchPage(0, TwoUsersPage())];
    ReplayOne(t0, ToScan(), Come(ListScan(0, []), [a, b], ToScan()), FetchPage(0, TwoUsersPage()));
    assert [a, b][..1] == [a] && [a][..0] == [];
    ReplayOne(t0, fetched, Come(Unwinding, [a, b], fetched), Release(b));
    ReplayOne(t0, fetched + [Release(b)], Come(Unwinding, [a], fetched + [Release(b)]), Release(a));
  }

  lemma NothingReplayed(t: Thread)
    ensures Replay(t, []) == Some(t)
  {
    hide Advance;
  }

  lemma PagesOfLog()
    ensures ScanEnded(LostLog()) && PagesRead(LostLog()) == TWO_USERS
  {
    ScanIsLost();
    ScanReached();
    hide PagesRead, EndsScan, PageUsers, Scanned, ToScan, Replay, Inv, TwoUsersPage;
    var fetched, b := ToScan() + [FetchPage(0, TwoUsersPage())], Release(TokenSlot(1, "t"));
    RunKeeps(HugeRequest(), ToScan());
    CallPoint(Come(ListScan(0, []), [GlobalSlot(1), TokenSlot(1, "t")], ToScan()));
    LogStep(ToScan(), FetchPage(0, TwoUsersPage()));
    LogStep(fetched, b);
    LogStep(fetched + [b], Release(GlobalSlot(1)));
    ReleasesReadNothing(TokenSlot(1, "t"));
    ReleasesReadNothing(GlobalSlot(1));
    assert LostLog()[|ToScan()|] == FetchPage(0, TwoUsersPage());
  }

  lemma ReleasesReadNothing(slot: Slot)
    ensures PageUsers(Release(slot)) == []
  {
  }

  /** This run of the handler returns without having written anything: the query parameters are read as
      numbers, and the token owns the two users of the page. */
  lemma NothingIsWritten()
    ensures var t := Replay(Fresh(HugeRequest()), LostLog());
      t.Some? && t.value.pc.Done? && CutFails(t.value)
    ensures Responses(LostLog()) == 0
  {
    Returned();
    ComesToScan();
    PagesOfLog();
    TwoAreShown();
    hide Replay, LostLog, PageOutOfRange, ScanEnded, PagesRead, KeepItems, OwnedItem, RestrictedPanelList, EffectiveRoute, Responses;
    HugeIsOutOfRange(Job(PanelOnly(), HugeSession(), HugeRequest()), 2);
    OneResponse(HugeRequest(), LostLog());
  }
}
