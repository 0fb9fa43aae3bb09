/** The guarantees of the request pipeline, for every complete or partial run of one handler. */
module Pipeline {
  import opened Prelude
  import opened Json
  import opened Config
  import opened Credentials
  import opened Routes
  import opened BodyPolicy
  import opened ListFilter
  import opened PanelList
  import opened ResponsePolicy
  import opened ResponseFacts
  import opened Upstream
  import opened Requests
  import opened Handler
  import opened HandlerFacts

  lemma AdvanceRecords(t: Thread, e: Event)
    requires Advance(t, e).Some?
    ensures Advance(t, e).UnwrapOr(t).log == t.log + [e] && Advance(t, e).UnwrapOr(t).req == t.req
  {
    hide Admitted, Versioned, SessionFor, Decided, BeginPreflight, Preflighted, Scanned, Answered, Verified;
  }

  /** Every run, for whatever settings, token, body, semaphores, rate windows and upstream answers. */
  lemma {:induction false} RunKeeps(req: Request, log: seq<Event>)
    requires Replay(Fresh(req), log).Some?
    ensures var t := Replay(Fresh(req), log).UnwrapOr(Fresh(req)); Inv(t) && t.log == log && t.req == req
  {
    hide Advance, SessionFor, AtPoint, EventOk;
    if log != [] {
      RunKeeps(req, log[..|log| - 1]);
      var t := Replay(Fresh(req), log[..|log| - 1]).value;
      AdvanceKeeps(t, log[|log| - 1]);
      AdvanceRecords(t, log[|log| - 1]);
      assert log[..|log| - 1] + [log[|log| - 1]] == log;
    }
  }

  /** A run never writes a second response. A handler that has returned holds nothing, and wrote one response
      exactly when no panic stopped it. */
  lemma RespondedOrStopped(req: Request, log: seq<Event>)
    requires Replay(Fresh(req), log).Some?
    ensures Responses(log) <= 1
    ensures var t := Replay(Fresh(req), log).value;
      t.pc.Done? ==> Responses(log) == (if Stopped(t) then 0 else 1) && t.slots == [] && t.mutex.None? && !LockedNow(log)
  {
    hide Replay, SessionFor, AtPoint, EventOk, SlotsOf, Stopped;
    RunKeeps(req, log);
  }

  /** The enabled credential that a request's Authorization header stands for. */
  predicate StandsFor(cfg: Settings, presented: Presented, cred: Credential) {
    !cred.disabled &&
    match presented
    case GatewayToken(id, digest) => cred.id == id && cred.digest == digest
    case PanelToken(Some(actor)) => cfg.panelFacade && actor in cfg.actors && cred.id == cfg.actors[actor]
    case _ => false
  }

  /** A request runs as a token only through an enabled credential of that very token; with unique ids as
      the configuration check demands, whoever presents one does run as its token. */
  lemma RunsAsItsCredential(cfg: Settings, presented: Presented)
    ensures Resolve(cfg, presented).As? ==>
      exists i: nat, j: nat ::
        i < |cfg.tokens| && j < |cfg.tokens[i].credentials| && !cfg.tokens[i].disabled &&
        StandsFor(cfg, presented, cfg.tokens[i].credentials[j]) && Resolve(cfg, presented) == As(cfg.tokens[i])
  {
    var id := PresentedId(cfg, presented);
    FoundResolves(cfg.tokens, id);
    if Resolve(cfg, presented).As? {
      var i: nat, j: nat :| Resolves(cfg.tokens, id, i, j) &&
        FindCredential(cfg.tokens, id) == Some((cfg.tokens[i], cfg.tokens[i].credentials[j]));
      assert StandsFor(cfg, presented, cfg.tokens[i].credentials[j]);
    }
  }

  lemma CredentialRunsAsToken(cfg: Settings, presented: Presented, i: nat, j: nat)
    requires ValidIds(cfg.tokens) && i < |cfg.tokens| && j < |cfg.tokens[i].credentials| && !cfg.tokens[i].disabled
    requires StandsFor(cfg, presented, cfg.tokens[i].credentials[j])
    ensures Resolve(cfg, presented) == As(cfg.tokens[i])
  {
    hide ValidIds;
    LookupIsExact(cfg.tokens, PresentedId(cfg, presented), i, j);
  }

  /** The credential id a header leads to. */
  function PresentedId(cfg: Settings, presented: Presented): string {
    match presented
    case GatewayToken(id, _) => id
    case PanelToken(Some(actor)) => if actor in cfg.actors then cfg.actors[actor] else ""
    case _ => ""
  }

  /** Each authenticated call to the upstream that carries the client's request. */
  predicate CarriesRequest(e: Event) {
    e.Forward? || e.FetchPage?
  }

  /** A request goes upstream only behind a decision that allows it, or in unsafe report mode without a
      panel session; a restricted write only under its lock, after preflight and with an accepted body. */
  lemma ForwardedWasCleared(req: Request, log: seq<Event>, i: nat)
    requires Replay(Fresh(req), log).Some? && i < |log| && CarriesRequest(log[i])
    ensures var t := Replay(Fresh(req), log).value;
      && t.view.Some? && t.session.Some? && t.session == SessionFor(t.view.value.cfg, req)
      && Cleared(JobOf(t), log[..i])
  {
    hide Replay, SessionFor, AtPoint, Cleared, Relayable, Shape, LockedNow, Responses, PagesRead;
    RunKeeps(req, log);
    assert EventOk(Replay(Fresh(req), log).value, i);
  }

  /** What being cleared means to a reader of the configuration. */
  lemma ClearedMeans(j: Job, log: seq<Event>)
    requires Cleared(j, log)
    ensures Decide(j.s.tok, j.s.route).Allow? || (j.cfg.reportEnabled && j.cfg.unsafeReportProxy && !j.s.panel)
    ensures BodyOutcome(j).Pass?
    ensures LockedWrite(j.s.route) ==> WriteSafe(j.cfg) && LockedNow(log)
    ensures j.s.route.support == PolicyEnforced && j.s.route.name == UserUpdate ==>
      exists i | 0 <= i < |log| :: OwnedReadAt(j, BodyString(j.req.body.payload, "uuid"), log, i) && LockedNow(log[..i])
  {
    hide Decide, BodyOutcome, LockedNow, UserCheck, WriteSafe, BodyString, RequireAllowedUuid, SquadNeed;
    if j.s.route.support == PolicyEnforced && j.s.route.name == UserUpdate {
      var uuid := BodyString(j.req.body.payload, "uuid");
      assert PreflightNeed(j) == OwnedUserNeed(j.s.tok, uuid);
      var i :| 0 <= i < |log| && OwnedReadAt(j, uuid, log, i);
      assert LockedWrite(j.s.route);
    }
  }

  /** A success that reaches the caller is this request's own public answer, or passed the applicable checks. */
  lemma RelayedWasChecked(req: Request, log: seq<Event>, i: nat, a: Answer)
    requires Replay(Fresh(req), log).Some? && i < |log| && log[i] == Respond(Relayed(a))
    ensures var t := Replay(Fresh(req), log).value;
      && t.view.Some?
      && if t.session.Some? then Relayable(JobOf(t), log[..i], a)
         else t.view.value.cfg.publicSubs && PublicRoute(t.view.value.cfg, req) && OwnAnswer(log[..i], a)
  {
    hide Replay, SessionFor, AtPoint, Cleared, Relayable, Shape, LockedNow, Responses, PagesRead;
    RunKeeps(req, log);
    assert EventOk(Replay(Fresh(req), log).value, i);
  }

  /** The panel's own list: exactly the requested page of the owned users of all fetched pages, and their number. */
  predicate OwnListShown(j: Job, log: seq<Event>, body: Json) {
    RestrictedPanelList(j.s) &&
    var owned := KeepItems(PagesRead(log), OwnedItem(j.s.tok));
    body == UserListBody(SlicePage(owned, PageWanted(j)), |owned|)
  }

  /** The gated answer to the forwarded call at k. */
  ghost predicate AnswerShown(j: Job, log: seq<Event>, body: Json, k: nat) {
    k < |log| && log[k].Forward? && log[k].answer.Answer? && log[k].answer.body.Some? &&
    Presentable(j.s.route, j.s.tok, log[k].answer.body.value, PageWanted(j), body)
  }

  /** What a restricted token is shown by a user read or a user list: the panel's own list, or the answer to its own
      call, in which the list or user found first is owned. */
  lemma RestrictedTokenSees(req: Request, log: seq<Event>, i: nat, a: Answer)
    requires Replay(Fresh(req), log).Some? && i < |log| && log[i] == Respond(Relayed(a)) && Success(a)
    requires var t := Replay(Fresh(req), log).value;
      t.session.Some? && t.session.value.route.support == PolicyEnforced &&
      (t.session.value.route.name.UserRead? ||
       (t.session.value.route.name.UserList? && !HasPrivilegedScope(t.session.value.tok.scopes)))
    ensures var t := Replay(Fresh(req), log).value;
      t.view.Some? && a.body.Some? &&
      (OwnListShown(JobOf(t), log[..i], a.body.value) || exists k | 0 <= k < i :: AnswerShown(JobOf(t), log, a.body.value, k))
  {
    hide Replay, SessionFor, GateResponse, Presentable, ListAnswer, PagesRead, PageWanted, WriteVerified,
      UserListBody, Inv, KeepItems, SlicePage;
    RelayedWasChecked(req, log, i, a);
    var t := Replay(Fresh(req), log).value;
    var j := JobOf(t);
    if k :| 0 <= k < i && VerifiedAt(j, log[..i], a, k) {
      assert log[..i][k] == log[k];
      GatedIsPresentable(j.s.route, j.s.tok, log[k].answer, PageWanted(j));
      assert AnswerShown(j, log, a.body.value, k);
    } else {
      OwnListBody(j, PagesRead(log[..i]));
    }
  }

  lemma OwnListBody(j: Job, users: seq<Json>)
    requires RestrictedPanelList(j.s) && j.s.route.support == PolicyEnforced
    ensures var owned := KeepItems(users, OwnedItem(j.s.tok));
      ListAnswer(j, users) == Ok(Answer(200, Some(UserListBody(SlicePage(owned, PageWanted(j)), |owned|))))
  {
    hide PageWanted, UserListBody, KeepItems, SlicePage, FilterList;
    FilterUserListBody(users, |users|, PageWanted(j), OwnedItem(j.s.tok));
  }

  /** The panel's own list shows owned users only, in all its lists. */
  lemma OwnListAllOwned(j: Job, log: seq<Event>, body: Json)
    requires OwnListShown(j, log, body)
    ensures AllListsOwned(j.s.tok, body)
  {
    hide AllListsOwned, UserListBody, PageWanted, OwnedList, KeepItems, SlicePage, PagesRead;
    var owned := KeepItems(PagesRead(log), OwnedItem(j.s.tok));
    var shown := SlicePage(owned, PageWanted(j));
    KeptItemsOwned(PagesRead(log), j.s.tok);
    PageOwned(j.s.tok, owned, PageWanted(j));
    OwnListOnly(j.s.tok, shown, |owned|);
  }

  /** A restricted user write that answers success was read back, still owned, after the write and under the same lock. */
  lemma WriteSuccessWasVerified(req: Request, log: seq<Event>, i: nat, a: Answer)
    requires Replay(Fresh(req), log).Some? && i < |log| && log[i] == Respond(Relayed(a)) && Success(a)
    requires var t := Replay(Fresh(req), log).value;
      t.session.Some? && LockedWrite(t.session.value.route)
    ensures var t := Replay(Fresh(req), log).value;
      t.view.Some? && var j := JobOf(t);
      exists k | 0 <= k < i ::
        log[k].Forward? &&
        if j.s.route.name == UserCreate then CreatedCheck(j.s.tok, a).Pass? else NeedMet(j, VerifyNeed(j), log[..i], k + 1)
  {
    hide Replay, SessionFor, GateResponse, CreatedCheck, NeedMet, VerifyNeed, ListAnswer, PagesRead, PageWanted, Inv;
    RelayedWasChecked(req, log, i, a);
    var j := JobOf(Replay(Fresh(req), log).value);
    var k :| 0 <= k < i && VerifiedAt(j, log[..i], a, k);
    assert log[..i][k] == log[k];
  }
}
