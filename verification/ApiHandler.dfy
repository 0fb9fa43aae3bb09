/** apiHandler in its own control flow: early returns, deferred releases, and helpers that write the
    response themselves. Each shared access and upstream call is one step of the handler machine, and
    the whole call is proved to be a complete run of it. */
module ApiHandler {
  import opened Prelude
  import opened Json
  import opened Config
  import opened Routes
  import opened ListFilter
  import opened PanelList
  import opened ResponsePolicy
  import opened Upstream
  import opened Requests
  import opened Handler
  import opened HandlerFacts
  import opened Pipeline
  import opened Panics
  import opened Replies

  /** What the rest of the system answers while the request is handled: any state, semaphores, rate
      windows, mutex, upstream, OAuth table and clock. A user may read differently on each call. */
  datatype World = World(
    view: View,
    free: Slot -> bool,
    versionOpen: bool,
    admitted: bool,
    mutex: nat,
    read: (string, nat) -> Answer,
    page: nat -> Answer,
    forward: Answer,
    drawn: string,
    attemptView: View,
    loadedAt: nat,
    now: int,
    stored: bool,
    taken: Option<Attempt>,
    currentGen: nat,
    exchanged: bool)

  /** The replies written in a history. */
  function Written(log: seq<Event>): seq<Reply> {
    if log == [] then []
    else Written(log[..|log| - 1]) + (if Last(log).Respond? then [Last(log).reply] else [])
  }

  lemma {:induction false} WrittenOnce(log: seq<Event>)
    ensures |Written(log)| == Responses(log)
    ensures forall reply | reply in Written(log) :: Respond(reply) in log
  {
    if log != [] {
      WrittenOnce(log[..|log| - 1]);
    }
  }

  class ApiHandler {
    const world: World
    const req: Request
    /** Where the handler machine is and what it holds. */
    ghost var t: Thread
    /** What the response writer received. */
    var written: seq<Reply>

    constructor (world: World, req: Request)
      ensures Valid() && this.world == world && this.req == req && t == Fresh(req)
    {
      this.world, this.req := world, req;
      t := Fresh(req);
      written := [];
    }

    ghost predicate Valid()
      reads this
    {
      Replay(Fresh(req), t.log) == Some(t) && t.req == req && written == Written(t.log)
    }

    lemma Mine()
      requires Valid()
      ensures t.req == req
    {
      hide Replay, Written;
    }

    /** Nothing but the program counter and the history changed. */
    twostate predicate Moved(pc: Pc)
      reads this
    {
      t.pc == pc && t.view == old(t.view) && t.session == old(t.session) && t.slots == old(t.slots) && t.mutex == old(t.mutex)
    }

    /** The request was answered, or a panic stopped it, and everything acquired on the way was released again. */
    twostate predicate Replied()
      reads this
    {
      t.pc == Rest(t.slots, t.mutex) && t.view == old(t.view) && t.slots == old(t.slots) && t.mutex == old(t.mutex)
    }

    method Emit(e: Event)
      requires Valid() && Advance(t, e).Some?
      modifies this
      ensures Valid() && t == Advance(old(t), e).UnwrapOr(old(t))
      ensures written == old(written) + if e.Respond? then [e.reply] else []
    {
      hide SessionFor, Admitted, Versioned, Decided, BeginPreflight, Preflighted, Scanned, Answered, Verified;
      AdvanceRecords(t, e);
      var before := t.log;
      if e.Respond? {
        written := written + [e.reply];
      }
      t := Advance(t, e).UnwrapOr(t);
      assert t.log[..|t.log| - 1] == before;
    }

    // The step of each group of program counters.

    method Entry(e: Event)
      requires Valid() && (t.pc.Start? || t.pc.WantGlobal? || t.pc.WantVersion?)
      requires EntryStep(t, e).Some?
      modifies this
      ensures Valid() && t == EntryStep(old(t), e).UnwrapOr(old(t))
    {
      hide Valid;
      hide EntryStep, PublicStep, TokenStep, UpstreamStep, OAuthStep, ClosingStep;
      Emit(e);
    }

    method Public(e: Event)
      requires Valid() && (t.pc.WantIp? || t.pc.WantIpRate? || t.pc.PublicForward?)
      requires PublicStep(t, e).Some?
      modifies this
      ensures Valid() && t == PublicStep(old(t), e).UnwrapOr(old(t))
    {
      hide Valid;
      hide EntryStep, PublicStep, TokenStep, UpstreamStep, OAuthStep, ClosingStep;
      Emit(e);
    }

    method Token(e: Event)
      requires Valid() && (t.pc.WantToken? || t.pc.WantTokenRate? || t.pc.WantMutex? || t.pc.WantLock?)
      requires TokenStep(t, e).Some?
      modifies this
      ensures Valid() && t == TokenStep(old(t), e).UnwrapOr(old(t))
    {
      hide Valid;
      hide EntryStep, PublicStep, TokenStep, UpstreamStep, OAuthStep, ClosingStep;
      Emit(e);
    }

    method Upstream(e: Event, ghost pc: Pc)
      requires Valid() && (t.pc.Preflight? || t.pc.ListScan? || t.pc.Forwarding? || t.pc.Verifying?)
      requires t.view.Some? && t.session.Some? && !e.Respond? && UpstreamStep(t, e) == Some(Go(t, e, pc))
      modifies this
      ensures Valid() && Moved(pc) && written == old(written)
    {
      hide Valid;
      hide EntryStep, PublicStep, TokenStep, UpstreamStep, OAuthStep, ClosingStep;
      Emit(e);
    }

    method OAuth(e: Event, ghost pc: Pc)
      requires Valid() &&
        (t.pc.OAuthDraw? || t.pc.OAuthLoad? || t.pc.OAuthPut? || t.pc.OAuthTake? || t.pc.OAuthCheck? || t.pc.OAuthExchange?)
      requires OAuthStep(t, e) == Some(Go(t, e, pc))
      modifies this
      ensures Valid() && Moved(pc)
    {
      hide Valid;
      hide EntryStep, PublicStep, TokenStep, UpstreamStep, OAuthStep, ClosingStep;
      Emit(e);
    }

    method Closing(e: Event)
      requires Valid() && (t.pc.Replying? || t.pc.Unwinding?)
      requires ClosingStep(t, e).Some?
      modifies this
      ensures Valid() && t == ClosingStep(old(t), e).UnwrapOr(old(t))
      ensures written == old(written) + if e.Respond? then [e.reply] else []
    {
      hide Valid;
      hide EntryStep, PublicStep, TokenStep, UpstreamStep, OAuthStep, ClosingStep;
      Emit(e);
    }

    // ------------------------------------------------------- single steps

    method Respond(reply: Reply)
      requires Valid() && t.pc == Replying(reply)
      modifies this
      ensures Valid() && Moved(Rest(t.slots, t.mutex)) && Replied()
      ensures written == old(written) + [reply]
    {
      hide Valid;
      Closing(Event.Respond(reply));
    }

    method Deny(status: int, reason: Reason)
      requires Valid() && t.pc == Refuse(status, reason)
      modifies this
      ensures Valid() && Moved(Rest(t.slots, t.mutex)) && Replied()
      ensures written == old(written) + [Refused(status, reason)]
    {
      hide Valid;
      Respond(Refused(status, reason));
    }

    method Release(slot: Slot)
      requires Valid() && t.pc.Unwinding? && t.mutex.None? && t.slots != [] && t.slots[|t.slots| - 1] == slot
      modifies this
      ensures Valid() && t.view == old(t.view) && t.mutex.None? && t.slots == old(t.slots[..|t.slots| - 1])
      ensures t.pc == Rest(t.slots, None)
    {
      hide Valid;
      Closing(Event.Release(slot));
    }

    method Unlock()
      requires Valid() && t.pc.Unwinding? && t.mutex.Some?
      modifies this
      ensures Valid() && t.view == old(t.view) && t.mutex.None? && t.slots == old(t.slots) && t.pc == Rest(t.slots, None)
    {
      hide Valid;
      Closing(Event.Unlock);
    }

    // -------------------------------------------------- the panel's auth calls

    /** handlePanelAuthFacade, for a path under /api/auth/. */
    method AuthFacade(cfg: Settings)
      requires Valid() && t.view == Some(world.view) && cfg == world.view.cfg && t.pc == Handler.AuthFacade(cfg, req)
      modifies this
      ensures Valid() && Replied()
    {
      hide Valid;
      if req.verb == POST && Oversized(cfg, req) {
        Deny(413, BodyTooLarge);
        return;
      }
      if req.verb == GET && req.auth == AuthStatus {
        Respond(Served(AuthStatusPage));
      } else if req.verb == POST && req.auth.AuthAuthorize? {
        Authorize();
      } else if req.verb == POST && req.auth.AuthCallback? {
        Callback();
      } else {
        Deny(403, PanelAuthUnsupported);
      }
    }

    method DrawState() returns (state: string)
      requires Valid() && t.pc == OAuthDraw
      modifies this
      ensures Valid() && Moved(OAuthLoad(state))
    {
      hide Valid;
      state := world.drawn;
      OAuth(Event.DrawState(state), OAuthLoad(state));
    }

    /** The state is loaded, and the attempt stored under it if the table has room. */
    method PutAttempt(state: string) returns (stored: bool)
      requires Valid() && t.pc == OAuthLoad(state)
      modifies this
      ensures Valid() && Moved(if stored then Replying(Served(AuthorizationUrl)) else Refuse(429, PanelAuthStateLimit))
    {
      hide Valid;
      stored := world.stored;
      OAuth(LoadForAttempt(world.attemptView, world.loadedAt), OAuthPut(state, world.attemptView, world.loadedAt));
      OAuth(Event.PutAttempt(world.now, stored), if stored then Replying(Served(AuthorizationUrl)) else Refuse(429, PanelAuthStateLimit));
    }

    method TakeAttempt(state: string) returns (taken: Option<Attempt>, now: int)
      requires Valid() && t.pc == OAuthTake(state)
      modifies this
      ensures Valid() && Moved(if taken.Some? then OAuthCheck(taken.value, now) else Refuse(403, PanelAuthDenied))
    {
      hide Valid;
      taken, now := world.taken, world.now;
      OAuth(Event.TakeAttempt(now, taken), if taken.Some? then OAuthCheck(taken.value, now) else Refuse(403, PanelAuthDenied));
    }

    method LoadGeneration(ghost attempt: Attempt, ghost now: int) returns (gen: nat)
      requires Valid() && t.pc == OAuthCheck(attempt, now)
      modifies this
      ensures Valid()
      ensures Moved(if now > attempt.expiresAt || attempt.generation != gen then Refuse(403, PanelAuthDenied) else OAuthExchange)
    {
      hide Valid;
      gen := world.currentGen;
      OAuth(LoadForCheck(gen), if now > attempt.expiresAt || attempt.generation != gen then Refuse(403, PanelAuthDenied) else OAuthExchange);
    }

    method Exchange() returns (ok: bool)
      requires Valid() && t.pc == OAuthExchange
      modifies this
      ensures Valid() && Moved(if ok then Replying(Served(AccessToken)) else Refuse(401, PanelAuthDenied))
    {
      hide Valid;
      ok := world.exchanged;
      OAuth(Event.Exchange(ok), if ok then Replying(Served(AccessToken)) else Refuse(401, PanelAuthDenied));
    }

    method Authorize()
      requires Valid() && t.view == Some(world.view) && req.auth.AuthAuthorize?
      requires t.pc == if req.auth.telegram then OAuthDraw else Refuse(403, PanelAuthUnsupported)
      modifies this
      ensures Valid() && Replied()
    {
      hide Valid, Rest, OAuthStep;
      if !req.auth.telegram {
        Deny(403, PanelAuthUnsupported);
        return;
      }
      var state := DrawState();
      var stored := PutAttempt(state);
      if !stored {
        Deny(429, PanelAuthStateLimit);
        return;
      }
      Respond(Served(AuthorizationUrl));
    }

    method Callback()
      requires Valid() && t.view == Some(world.view) && req.auth.AuthCallback?
      requires t.pc ==
        if !req.auth.wellFormed then Refuse(403, PanelAuthUnsupported)
        else if !req.auth.cookieMatches then Refuse(403, PanelAuthDenied)
        else OAuthTake(req.auth.state)
      modifies this
      ensures Valid() && Replied()
    {
      hide Valid, Rest, OAuthStep;
      if !req.auth.wellFormed {
        Deny(403, PanelAuthUnsupported);
        return;
      }
      if !req.auth.cookieMatches {
        Deny(403, PanelAuthDenied);
        return;
      }
      var taken, now := TakeAttempt(req.auth.state);
      if taken.None? {
        Deny(403, PanelAuthDenied);
        return;
      }
      var gen := LoadGeneration(taken.value, now);
      if now > taken.value.expiresAt || taken.value.generation != gen {
        Deny(403, PanelAuthDenied);
        return;
      }
      var ok := Exchange();
      if !ok {
        Deny(401, PanelAuthDenied);
        return;
      }
      Respond(Served(AccessToken));
    }

    // ------------------------------------------------ semaphores and guards

    method AcquireGlobal(slot: Slot) returns (got: bool)
      requires Valid() && t.pc == WantGlobal && t.view == Some(world.view) && slot == GlobalSlot(world.view.gen)
      modifies this
      ensures Valid() && t.view == old(t.view) && t.mutex == old(t.mutex)
      ensures t.slots == if got then old(t.slots) + [slot] else old(t.slots)
      ensures t.pc == if got then Admitted(world.view.cfg, req) else Refuse(429, RateLimited)
    {
      hide Valid, Admitted, Versioned, SessionFor;
      Mine();
      got := world.free(slot);
      Entry(Acquire(slot, got));
    }

    method ReadVersion() returns (open: bool)
      requires Valid() && t.pc == WantVersion && t.view == Some(world.view)
      modifies this
      ensures Valid() && t.view == old(t.view) && t.mutex == old(t.mutex) && t.slots == old(t.slots)
      ensures t.pc == if open then Versioned(world.view.cfg, req) else Refuse(503, VersionGuard)
      ensures open && t.pc == WantToken ==> t.session == SessionFor(world.view.cfg, req)
    {
      hide Valid, Admitted, Versioned, SessionFor;
      Mine();
      open := world.versionOpen;
      Entry(Event.ReadVersion(open));
    }

    method AcquireIp(slot: Slot) returns (got: bool)
      requires Valid() && t.pc == WantIp && t.view == Some(world.view) && slot == IpSlot(world.view.gen, req.ip)
      modifies this
      ensures Valid() && t.view == old(t.view) && t.mutex == old(t.mutex)
      ensures t.slots == if got then old(t.slots) + [slot] else old(t.slots)
      ensures t.pc == if got then WantIpRate else Refuse(429, PublicSubscriptionConcurrency)
    {
      hide Valid;
      Mine();
      got := world.free(slot);
      Public(Acquire(slot, got));
    }

    method AdmitIp() returns (ok: bool)
      requires Valid() && t.pc == WantIpRate
      modifies this
      ensures Valid() && Moved(if ok then PublicForward else Refuse(429, PublicSubscriptionRateLimit))
    {
      hide Valid;
      ok := world.admitted;
      Public(RateCheck(ok));
    }

    method RoundTripPublic() returns (a: Answer)
      requires Valid() && t.pc == PublicForward
      modifies this
      ensures Valid() && Moved(if a.NoAnswer? then Refuse(502, UpstreamError) else Replying(Relayed(a)))
    {
      hide Valid;
      a := world.forward;
      Public(ForwardPublic(a));
    }

    method AcquireToken(slot: Slot) returns (got: bool)
      requires Valid() && t.pc == WantToken && t.view == Some(world.view) && t.session.Some?
      requires slot == TokenSlot(world.view.gen, t.session.value.tok.id)
      modifies this
      ensures Valid() && t.view == old(t.view) && t.mutex == old(t.mutex) && t.session == old(t.session)
      ensures t.slots == if got then old(t.slots) + [slot] else old(t.slots)
      ensures t.pc == if got then WantTokenRate else Refuse(429, TokenConcurrency)
    {
      hide Valid, Decided, BeginPreflight;
      got := world.free(slot);
      Token(Acquire(slot, got));
    }

    method AdmitToken() returns (ok: bool)
      requires Valid() && t.pc == WantTokenRate && t.view.Some? && t.session.Some?
      modifies this
      ensures Valid() && t.view.Some? && t.session.Some?
      ensures Moved(if ok then Decided(Job(t.view.value.cfg, t.session.value, req)) else Refuse(429, TokenRateLimit))
    {
      hide Valid, Decided, BeginPreflight;
      Mine();
      ok := world.admitted;
      Token(RateCheck(ok));
    }

    method LockResource()
      requires Valid() && t.pc == WantMutex && t.view.Some? && t.session.Some?
      modifies this
      ensures Valid() && t.view == old(t.view) && t.slots == old(t.slots) && t.session == old(t.session)
      ensures t.mutex.Some? && t.view.Some? && t.session.Some? && t.pc == BeginPreflight(Job(t.view.value.cfg, t.session.value, req))
    {
      hide Valid, Decided, BeginPreflight;
      Mine();
      Token(GetMutex(world.mutex));
      Token(LockMutex);
    }

    // ---------------------------------------------------------- subscriptions

    /** handlePublicSub. */
    method PublicSub()
      requires Valid() && t.view == Some(world.view) && t.mutex.None?
      requires t.pc == match req.publicFault case Some((status, reason)) => Refuse(status, reason) case None => WantIp
      modifies this
      ensures Valid() && Replied()
    {
      hide Valid, PublicStep;
      if req.publicFault.Some? {
        var (status, reason) := req.publicFault.value;
        Deny(status, reason);
        return;
      }
      var slot := IpSlot(world.view.gen, req.ip);
      var got := AcquireIp(slot);
      if !got {
        Deny(429, PublicSubscriptionConcurrency);
        return;
      }
      var ok := AdmitIp();
      if !ok {
        Deny(429, PublicSubscriptionRateLimit);
      } else {
        var a := RoundTripPublic();
        if a.NoAnswer? {
          Deny(502, UpstreamError);
        } else {
          Respond(Relayed(a));
        }
      }
      Release(slot);
    }

    // ------------------------------------------------- the authenticated part

    /** The view and the session belong to the job. */
    ghost predicate On(j: Job)
      reads this
    {
      t.view == Some(world.view) && t.session == Some(j.s) && j == Job(world.view.cfg, j.s, req)
    }

    method DenyPolicy(j: Job, status: int, reason: Reason)
      requires Valid() && On(j) && t.pc == PolicyDeny(j, status, reason)
      modifies this
      ensures Valid() && Moved(Rest(t.slots, t.mutex)) && Replied()
    {
      hide Valid, DenyStatus;
      Deny(DenyStatus(j, status), reason);
    }

    /** preflightUser's read. */
    method ReadBeforeWrite(j: Job, uuid: string) returns (a: Answer)
      requires Valid() && On(j) && t.pc == Preflight(uuid)
      modifies this
      ensures Valid() && Moved(Preflighted(j, a))
    {
      hide Valid, Preflighted, Scanned, Answered, Verified;
      Mine();
      a := world.read(uuid, 0);
      Upstream(ReadUser(uuid, a), Preflighted(j, a));
    }

    method ReadAfterWrite(j: Job, uuid: string, ghost relayed: Answer) returns (a: Answer)
      requires Valid() && On(j) && t.pc == Verifying(uuid, relayed)
      modifies this
      ensures Valid() && Moved(Verified(j, a, relayed))
    {
      hide Valid, Preflighted, Scanned, Answered, Verified;
      Mine();
      a := world.read(uuid, 1);
      Upstream(ReadUser(uuid, a), Verified(j, a, relayed));
    }

    method RoundTrip(j: Job) returns (a: Answer)
      requires Valid() && On(j) && t.pc == Forwarding
      modifies this
      ensures Valid() && Moved(Answered(j, a))
    {
      hide Valid, Preflighted, Scanned, Answered, Verified;
      Mine();
      a := world.forward;
      Upstream(Forward(a), Answered(j, a));
    }

    method ReadPage(j: Job, start: nat, ghost combined: seq<Json>) returns (a: Answer)
      requires Valid() && On(j) && t.pc == ListScan(start, combined)
      modifies this
      ensures Valid() && Moved(Scanned(j, start, combined, a)) && a == world.page(start)
      ensures written == old(written)
    {
      hide Valid, Preflighted, Scanned, Answered, Verified;
      Mine();
      a := world.page(start);
      Upstream(FetchPage(start, a), Scanned(j, start, combined, a));
    }

    /** preflight: the read of the user that a request is about, where there is one. */
    method CheckBefore(j: Job) returns (fault: Outcome)
      requires Valid() && On(j) && t.pc == BeginPreflight(j)
      modifies this
      ensures Valid() && Moved(match fault case Pass => CheckBody(j) case Fail(reason) => PolicyDeny(j, 403, reason))
    {
      hide Valid, PreflightNeed, CheckBody, UserCheck, DenyStatus;
      match PreflightNeed(j)
      case Nothing => fault := Pass;
      case Never(reason) => fault := Fail(reason);
      case UserOf(uuid) =>
        var a := ReadBeforeWrite(j, uuid);
        fault := UserCheck(j.s.tok, a);
    }

    /** postWriteVerify: a created user is checked in the answer itself, any other written user is read again. */
    method CheckAfter(j: Job, a: Answer) returns (fault: Outcome)
      requires Valid() && On(j) && t.pc == VerifyWrite(j, a)
      modifies this
      ensures !LockedWrite(j.s.route) || !Success(a) ==> fault == Pass
      ensures Valid() && Moved(match fault case Pass => Replying(Relayed(a)) case Fail(reason) => Refuse(403, reason))
    {
      hide Valid, VerifyNeed, CreatedCheck, UserCheck;
      if !LockedWrite(j.s.route) || !Success(a) {
        return Pass;
      }
      if j.s.route.name == UserCreate {
        return CreatedCheck(j.s.tok, a);
      }
      match VerifyNeed(j)
      case Nothing => fault := Pass;
      case Never(reason) => fault := Fail(reason);
      case UserOf(uuid) =>
        var read := ReadAfterWrite(j, uuid, a);
        fault := UserCheck(j.s.tok, read);
    }

    /** The upstream call with its response checks. A panic while the page is cut out leaves through the deferred releases. */
    method Call(j: Job)
      requires Valid() && On(j) && t.pc == Forwarding && t.slots != []
      modifies this
      ensures Valid() && Replied() && t.session == old(t.session)
    {
      hide Valid, EnforceResponse, FilterResponse, ResponseFaults, VerifyWrite, PageWanted, Rest;
      var a := RoundTrip(j);
      if a.NoAnswer? {
        Deny(502, UpstreamUnavailable);
        return;
      }
      var enforced := EnforceResponse(j.s.route, j.s.tok, a);
      if enforced.Err? {
        DenyPolicy(j, 403, enforced.error);
        return;
      }
      EnforcedAnswers(j, a);
      if ResponseFaults(j.s.route, j.s.tok, enforced.value, PageWanted(j)) {
        HoldingUnwinds();
        return;
      }
      var filtered := FilterResponse(j.s.route, j.s.tok, enforced.value, PageWanted(j));
      if filtered.Err? {
        Deny(502, filtered.error);
        return;
      }
      var fault := CheckAfter(j, filtered.value);
      if fault.Fail? {
        Deny(403, fault.reason);
        return;
      }
      Respond(Relayed(filtered.value));
    }

    lemma EnforcedAnswers(j: Job, a: Answer)
      requires a.Answer?
      ensures EnforceResponse(j.s.route, j.s.tok, a).Ok? ==> EnforceResponse(j.s.route, j.s.tok, a).value.Answer?
    {
    }

    /** handlePanelRestrictedUserList: the caller gets what the scan of the upstream list comes to. */
    method PanelUserList(j: Job)
      requires Valid() && On(j) && t.pc == ListScan(0, []) && RestrictedPanelList(j.s) && t.slots != []
      modifies this
      ensures Valid() && Replied() && t.session == old(t.session)
      ensures j.s.route.support == PolicyEnforced ==>
        written == old(written) + ListReplied(ReplyOf(ScanFrom(world.page, 0, []), PageWanted(j), j.s.tok))
    {
      hide Valid, Rest, ListAnswer, ListPanics, DecodeListPage, PageWanted, RestrictedPanelList, ReplyOf;
      var combined: seq<Json> := [];
      var start := 0;
      while start < MAX_SCAN
        invariant Valid() && On(j) && t.slots == old(t.slots) && t.mutex == old(t.mutex)
        invariant t.pc == if start < MAX_SCAN then ListScan(start, combined) else ListDone(j, combined)
        invariant written == old(written)
        invariant ScanFrom(world.page, 0, []) == ScanFrom(world.page, start, combined)
      {
        var a := ReadPage(j, start, combined);
        if a.NoAnswer? {
          ScanReplies(j, Unavailable);
          Deny(502, UpstreamUnavailable);
          return;
        }
        if !Success(a) {
          ScanReplies(j, NotListed(a));
          Respond(Relayed(a));
          return;
        }
        if a.body.None? || DecodeListPage(a.body.value).None? {
          ScanReplies(j, BadPage);
          Deny(502, UnfilterableListResponse);
          return;
        }
        var (users, total) := DecodeListPage(a.body.value).value;
        combined := combined + users;
        if |users| < UPSTREAM_PAGE || start + UPSTREAM_PAGE >= total {
          break;
        }
        start := start + UPSTREAM_PAGE;
      }
      ScanReplies(j, Collected(combined));
      if ListPanics(j, combined) {
        HoldingUnwinds();
        return;
      }
      var answer := ListAnswer(j, combined);
      if answer.Err? {
        Deny(502, answer.error);
      } else {
        Respond(Relayed(answer.value));
      }
    }

    /** What happens under the resource lock, or without one for other routes: preflight, body checks, the call. */
    method Checked(j: Job)
      requires Valid() && On(j) && t.pc == BeginPreflight(j) && t.slots != []
      modifies this
      ensures Valid() && Replied() && t.session == old(t.session)
    {
      hide Valid, BeginPreflight, BodyOutcome, RestrictedPanelList, DenyStatus, Rest, ReplyOf, ScanFrom, PageWanted,
        ListReplied;
      var fault := CheckBefore(j);
      if fault.Fail? {
        DenyPolicy(j, 403, fault.reason);
        return;
      }
      var invalid := BodyOutcome(j);
      if invalid.Fail? {
        DenyPolicy(j, if invalid.reason == BodyTooLarge then 413 else 400, invalid.reason);
        return;
      }
      if RestrictedPanelList(j.s) {
        PanelUserList(j);
      } else {
        Call(j);
      }
    }

    /** From the policy decision on, with a deferred unlock. */
    method Perform(j: Job)
      requires Valid() && On(j) && t.pc == Decided(j) && t.mutex.None? && t.slots != []
      modifies this
      ensures Valid() && Replied()
    {
      hide Valid, DecisionPasses, Decide, PanelReadFacade, LockedWrite, WriteSafe, BeginPreflight, DenyStatus;
      if !DecisionPasses(j) {
        DenyPolicy(j, 403, Denial(j));
        return;
      }
      if PanelReadFacade(j) {
        Respond(Served(PanelSettings));
        return;
      }
      if LockedWrite(j.s.route) {
        if !WriteSafe(j.cfg) {
          Deny(403, WriteSafetyNotEnabled);
          return;
        }
        if Oversized(j.cfg, j.req) {
          Deny(413, BodyTooLarge);
          return;
        }
        LockResource();
        Checked(j);
        Unlock();
      } else {
        Checked(j);
      }
    }

    /** From the resolved credential on, with a deferred release of the token's slot. */
    method WithToken(s: Session)
      requires Valid() && t.view == Some(world.view) && t.session == Some(s) && t.pc == WantToken && t.mutex.None?
      modifies this
      ensures Valid() && Replied()
    {
      hide Valid, Decided;
      var slot := TokenSlot(world.view.gen, s.tok.id);
      var got := AcquireToken(slot);
      if !got {
        Deny(429, TokenConcurrency);
        return;
      }
      var ok := AdmitToken();
      if !ok {
        Deny(429, TokenRateLimit);
      } else {
        Perform(Job(world.view.cfg, s, req));
      }
      Release(slot);
    }

    /** Everything under the global semaphore. */
    method Guarded(cfg: Settings)
      requires Valid() && t.view == Some(world.view) && cfg == world.view.cfg && t.pc == Admitted(cfg, req) && t.mutex.None?
      modifies this
      ensures Valid() && Replied()
    {
      hide Valid, Handler.AuthFacade, Versioned, Rest;
      if req.rawFault.Some? {
        Deny(400, req.rawFault.value);
        return;
      }
      if req.matched.None? {
        Deny(404, UnknownRoute);
        return;
      }
      if cfg.panelFacade && !req.auth.NoAuthPath? {
        AuthFacade(cfg);
        return;
      }
      var open := ReadVersion();
      if !open {
        Deny(503, VersionGuard);
        return;
      }
      BehindVersion(cfg, req.matched.value);
    }

    method BehindVersion(cfg: Settings, route: Route)
      requires Valid() && t.view == Some(world.view) && cfg == world.view.cfg && req.matched == Some(route) && t.mutex.None?
      requires t.pc == Versioned(cfg, req) && (t.pc == WantToken ==> t.session == SessionFor(cfg, req))
      modifies this
      ensures Valid() && Replied()
    {
      hide Valid, Resolve, EffectiveRoute, Rest, SessionRoute;
      if req.queryFault.Some? {
        Deny(400, req.queryFault.value);
        return;
      }
      if Oversized(cfg, req) {
        Deny(413, BodyTooLarge);
        return;
      }
      var support := EffectiveRoute(cfg, route).support;
      if support == PublicSubscription && cfg.publicSubs {
        PublicSub();
        return;
      }
      if support == PublicSubscription && req.presented.NoHeader? {
        Deny(403, PublicSubscriptionsDisabled);
        return;
      }
      match Resolve(cfg, req.presented)
      case Denied(status, reason) => Deny(status, reason);
      case As(tok) => WithToken(Session(SessionRoute(cfg, route), tok, PanelContext(cfg, req)));
    }

    /** apiHandler. For every world the call is a complete run of the handler machine; it returns holding
        nothing and having written one response, or none where the page asked for cannot be cut out. */
    method Serve()
      requires Valid() && t == Fresh(req) && written == []
      modifies this
      ensures Valid() && t.pc == Done && t.slots == [] && t.mutex.None?
      ensures |written| == (if CutFails(t) then 0 else 1) && forall reply | reply in written :: Event.Respond(reply) in t.log
      ensures t.view == Some(world.view) && forall reply | reply in written :: OnlyDue(CaseOf(t), reply)
    {
      hide Valid, Handler.Admitted, Rest, CutFails, OnlyDue, CaseOf;
      Start();
      var slot := GlobalSlot(world.view.gen);
      var got := AcquireGlobal(slot);
      if !got {
        Deny(429, RateLimited);
      } else {
        Guarded(world.view.cfg);
        HoldingIsUnwinding();
        Release(slot);
      }
      AllDone();
    }

    method Start()
      requires Valid() && t.pc == Pc.Start
      modifies this
      ensures Valid() && t == Go(old(t), LoadState(world.view), WantGlobal).(view := Some(world.view))
    {
      hide Valid;
      Entry(LoadState(world.view));
    }

    lemma HoldingUnwinds()
      requires t.slots != []
      ensures Rest(t.slots, t.mutex) == Unwinding
    {
    }

    lemma HoldingIsUnwinding()
      requires t.slots != [] && t.pc == Rest(t.slots, t.mutex)
      ensures t.pc == Unwinding
    {
    }

    lemma AllDone()
      requires Valid() && t.slots == [] && t.pc == Rest(t.slots, t.mutex) && t.mutex.None?
      ensures t.pc == Done && |written| == (if CutFails(t) then 0 else 1) && forall reply | reply in written :: Event.Respond(reply) in t.log
      ensures t.view.Some? ==> forall reply | reply in written :: OnlyDue(CaseOf(t), reply)
    {
      hide Replay, CutFails, OnlyDue, CaseOf;
      OneResponse(req, t.log);
      WrittenOnce(t.log);
      forall reply | reply in written && t.view.Some?
        ensures OnlyDue(CaseOf(t), reply)
      {
        var i :| 0 <= i < |t.log| && t.log[i] == Event.Respond(reply);
        ReplyIsDue(req, t.log, i);
      }
    }
  }

  function Denial(j: Job): Reason
    requires !DecisionPasses(j)
  {
    Decide(j.s.tok, j.s.route).reason
  }

  /** What is written for a result of the list scan. */
  function ListReplied(l: ListReply): seq<Reply> {
    match l
    case ListFailed(reason) => [Refused(502, reason)]
    case ListReply(status, body) => [Relayed(Answer(status, body))]
    case ListPanic => []
  }

  lemma ScanReplies(j: Job, scan: Scan)
    requires RestrictedPanelList(j.s) && (scan.NotListed? ==> scan.answer.Answer?)
    ensures var replied := ListReplied(ReplyOf(scan, PageWanted(j), j.s.tok));
      match scan
      case Unavailable => replied == [Refused(502, UpstreamUnavailable)]
      case BadPage => replied == [Refused(502, UnfilterableListResponse)]
      case NotListed(a) => replied == [Relayed(a)]
      case Collected(users) =>
        j.s.route.support == PolicyEnforced ==>
          replied ==
          if ListPanics(j, users) then []
          else match ListAnswer(j, users) case Err(reason) => [Refused(502, reason)] case Ok(a) => [Relayed(a)]
  {
    hide PageWanted, FilterNode, RedactCounts, UserListBody, SliceFaults;
    if scan.Collected? {
      UserListCount(scan.users, |scan.users|, PageWanted(j), OwnedItem(j.s.tok));
    }
  }
}
