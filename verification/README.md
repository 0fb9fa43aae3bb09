# RemnaGuard in Dafny

RemnaGuard is a policy gateway in front of a Remnawave panel. It authenticates a request, matches it to
a route, checks policy, forwards it, and filters or verifies the answer. This project models the parts
of it that hold state or transform data, and proves what they guarantee.

## How the model is built

**One request.** `Handler` is `apiHandler` as a small-step machine. Each access to state shared with
other requests (the state pointer, a semaphore, the version flag, a rate window, the mutex table, the
OAuth table), each upstream call and the response is one event; everything between two events is
computed from the request and the settings loaded at its start. `HandlerFacts` and `Pipeline` prove what
holds of every run, for arbitrary answers. `ApiHandler` is the same function in its own control flow
(early returns, deferred releases, helpers that write the response), proved to be a complete run of the
machine. `Replies` says, from the answers that a handler got on its way, which reply is due to a request,
that this one is written and no other, and what may be forwarded.

**The gateway.** `Runtime` puts any number of handlers next to reloads, version detections and an
upstream user store, all interleaving. A handler's event is enabled when the shared state answers it
that way. `Coherence`, `SlotCounts`, `Locks`, `Logins` and `Ownership` hold one invariant each, `Progress`
shows that somebody can always step, and `Gateway` states the results for every run from a fresh start.
`LoginTimes` says when a login is completed, `LockKeys` what a lock key stands for, and `UserWrites` when
a forwarded request still hits a user of its token, with a run of one that does not. `RuntimeObject` and
`OAuthStore` are the mutable objects behind the steps.

**The rest.** `Remnawave`, `BodyPolicy` and `CreateOwnership` model users, body checks and ownership;
`OwnerFacts` says what owning a user takes, letter by letter, and `BodyFacts` which bodies pass.
`ListFilter`, `ListFilterInPlace`, `PanelList` and `ResponsePolicy` model the filtering of answers;
`ResponseFacts` says what every gate shows, and `Panics` which requests stop their handler there.
`RateLimit`, `Spacing`, `Alerts` and `AlertManager` model the limiter and the alert aggregator; `Headers`
and `Proxy` header rewriting; `Credentials` the token commands; `Catalog` the route catalog; `Base64` and
`PanelSession` panel session tokens.

Code that changes things in place is modelled by classes, arrays and loops that are proved against a
function of the inputs or of the old state; the theorems are about those functions.

## Assumptions

- The upstream is arbitrary, with one exception in `Runtime`: a read of a user that succeeds and decodes
  shows the user as it is stored at that moment, and ownership fields of existing users change only by
  forwarded `user.update`s (users may be added, and removed for good, at any time). The effect of a
  forwarded call happens no later than the call returns.
- `Gateway.UpdatesHitOwnedUsers` and `Gateway.SuccessMeansStillOwned` assume write safety on in every
  generation of the run. The catalog marks every restricted write as privileged, as the source's route
  list does.
- Random state tokens are new when drawn. HMAC, password digests, regular expressions and the JSON form
  of session claims are parameters; claims are read back as they were written.
- Clock readings are arbitrary integers in nanoseconds. The limiter's clock does not go back, in the order
  in which calls take its lock, and is never the zero time; the clock of Notify and of the alert ticker
  does not show it either.

## Where code and expectation differ

- A squad given as an object is checked before a create under `uuid` only, but read back under other
  spellings as well (`CreateOwnership.ForeignCreateIsAccepted`, `CreateOwnership.ForeignCreateIsNotOwned`);
  `CreateOwnership.AcceptedCreateOwned` says exactly which accepted creates are owned.
- The filter of a user list rewrites the first list only, and a user read checks the user found first only,
  or nobody in an answer that counts as empty: foreign users further on reach a restricted token (`ResponseFacts.SecondListPasses`,
  `ResponseFacts.SecondUserPasses`, `ResponseFacts.EmptyFirstPasses`). `ResponseFacts.GatedListsExact` and
  `ResponseFacts.GatedUsersExact` say exactly when none do.
- `allow_version_mismatch` has no effect: the "unsafe mismatch" test is inequality, so a differing
  version never opens the guard (internal/server/server.go:185-195, `Gateway.GuardMeansVersion`).
- Page arithmetic on 64-bit integers overflows for huge parameters, and then the slice expression panics
  and no response is written (`PanelList.HugeSizePanics`, `Panics.NothingIsWritten`).
  `PanelList.FaultExact` and `PanelList.PageExact` say exactly when for a list, `Panics.OneResponse` for a request.
- `trafficLimitBytes: null` is refused as invalid (`BodyPolicy.NullTrafficFails`): the branch for an absent
  number (internal/server/server.go:1630) is not taken by a JSON null.
- On responses `Connection` is dropped before stripping, so headers it nominates are passed on
  (`Proxy.NominatedPasses`, exactly when: `Proxy.NominatedStayBehind`); section 7.6.1 of RFC 9110 asks for
  their removal.
- Locks are per route (`LockKeys.OtherRoutesLockApart`): a user action or a device write may be forwarded
  after an update gave its user away (`UserWrites.ActionHitsForeignUser`). `UserWrites.ForwardedOwnership` says
  exactly when the user is still owned.
- A denial of the rate limiter counts the current window only; more than the limit may have been
  admitted within the last window length (`RateLimit.WindowsDoNotSlide`). `RateLimit.DenialExact` says by how
  much, and exactly when it was the limit.
- The OAuth callback's second expiry test cannot fail, since taking an attempt prunes with the same clock
  reading (`Gateway.CallbackSeesNoReload`).

## Model

| member | source | states |
|---|---|---|
| Gateway.UpdatesHitOwnedUsers | internal/server/server.go:278-327 | In every run with write safety on in all generations, whenever a `user.update` is forwarded its body names exactly one user (under any reading of repeated keys), and at that moment the forwarding token owns that user, as `OwnerFacts.OwnsMeans` spells out, in the upstream store, unless the user was removed meanwhile |
| Gateway.SuccessMeansStillOwned | internal/server/server.go:335-343 | When an update reports success to its caller, the token still owns the user in the store at the moment of the reply, unless the user was removed meanwhile |
| UserWrites.ForwardedOwnership | internal/server/server.go:297-327 | For every request that needs an owned user (update, user action, device write, device list): its handler read the user and found it owned before the call, and at the moment of the call the token still owns it, if it exists, exactly when no `user.update` naming it was forwarded since that read or the last one left it owned |
| UserWrites.OwnedSinceRead | internal/server/server.go:2135-2149 | The same for every run and every read in it, from the read on: ownership after any further actions is decided by the last update of the user |
| UserWrites.EventIsAction | internal/server/server.go:197-346 | What a handler has recorded that it did is an action of the run, by that handler |
| UserWrites.Overtaken | internal/server/server.go:278-327 | With an assumed version and room for two: for any two locked requests of different tokens under different lock keys, whose reads are truthful and let them through, there is a run that forwards the update, with any effect it may have, between the other one's read and its call |
| UserWrites.ActionHitsForeignUser | internal/server/server.go:2180-2189 | A reachable state, under two concrete tokens, in which a disable action is about to be forwarded for a user that its token does not own |
| Gateway.OneHolderPerKey | internal/server/server.go:2173-2178 | In every reachable state at most one handler per lock key is between lock and unlock |
| Gateway.SameUserSameLock | internal/server/server.go:2180-2213 | Any two forwarded `user.update`s of the same uuid, by any tokens and in any generations, lock the same key |
| Gateway.OneWriterPerTarget | internal/server/server.go:2173-2189 | In every reachable state: two restricted writes on one route that name the same target (the user name of a create, the ids of an update or a device write, the path of anything else) are never between lock and unlock together |
| LockKeys.KeysMean | internal/server/server.go:2180-2189 | For any two restricted writes: they lock one key exactly when they are on one route and have the same target there, letter for letter |
| Gateway.NoDeadlock | internal/server/server.go:278-311 | In every reachable state with an unfinished request some handler can take a step |
| Gateway.StepsAreBounded | internal/server/server.go:197-346 | Without new arrivals, the number of handler steps in any run is bounded by a rank of its start, whatever reloads, detections and upstream changes come in between |
| Gateway.CanFinish | internal/server/server.go:197-346 | From every reachable state the pending requests can be run to completion, after which every semaphore count is zero and no mutex is held |
| Gateway.SemaphoresCount | internal/ratelimit/limit.go:15-48 | In every reachable state each semaphore of each generation counts exactly the handlers holding it and is within its limit |
| Gateway.ReleasesNeverBlock | internal/ratelimit/limit.go:31 | A deferred release always finds its slot taken |
| Gateway.GuardMeansVersion | internal/server/server.go:173-191 | A generation's version flag is true exactly when a version is assumed or the last version detected for it equals the configured one; the mismatch switch never opens it |
| Gateway.OnlyOwnDetection | internal/server/server.go:173-191 | Of all steps only a version detection changes a generation's flag, and only that of its own generation; settings never change |
| Gateway.AttemptsTakenOnce | internal/server/server.go:545-565 | The OAuth table never exceeds 1024 attempts, no state token is taken twice, and a taken one is not in the table |
| Gateway.CallbackSeesNoReload | internal/server/server.go:665-677 | A callback passes its check exactly when no reload was installed between the authorize call's load of the state and the check, and its attempt has not expired; when that is, in the clock readings of the run, is `LoginTimes.TakenExactly` |
| LoginTimes.TakenExactly | internal/server/server.go:545-620 | For every run: a login stored at `now` under a maximal age is completed by a later take of its state token if and only if the take's clock is within that age, and in between no reload emptied the table, nobody took the token, and no put or take read a clock past the age |
| LoginTimes.TakenInTime | internal/server/server.go:556-620 | For every run: whatever a callback takes was stored before by an authorize call, and the maximal age of the settings that call had loaded is not over |
| Gateway.RunIsSound | internal/server/server.go:101-115 | All invariants hold in every state of every interleaving of requests, reloads, detections and outside changes |
| Coherence.CoherentKeeps | internal/server/server.go:101-128 | Every step keeps handlers tied to the settings of their own generation, generation numbers used once, and version flags honest |
| SlotCounts.CountedKeeps | internal/ratelimit/limit.go:22-31 | Every step keeps counts equal to holders and within limits |
| SlotCounts.ReleaseNeverBlocks | internal/ratelimit/limit.go:31 | A handler that is about to release is counted, so the receive does not block |
| SlotCounts.AllDrained | internal/ratelimit/limit.go:31 | When all handlers have returned every semaphore is empty |
| Locks.LockedKeeps | internal/server/server.go:2173-2178 | Every step keeps the mutex table injective and each held mutex registered to its one holder |
| Locks.MutualExclusion | internal/server/server.go:2173-2178 | Two handlers that are both between lock and unlock of one key are the same handler |
| Logins.LoginsKeep | internal/server/server.go:545-620 | Every step, reloads included, keeps state tokens in one place and attempts tied to the generation installed when they were made |
| Logins.CallbackMeansNoReload | internal/server/server.go:665-677 | The generation comparison succeeds if and only if nothing was installed since the authorize call |
| Ownership.SecuredKeeps | internal/server/server.go:306-327 | Every step keeps a cleared update's user owned until it is forwarded, and a verified one's until the reply |
| Ownership.RiskAfterRead | internal/server/server.go:2124-2171 | An update becomes ready to forward, or to report success, only by a read under the lock that shows the user owned |
| Ownership.OthersStay | internal/server/server.go:2173-2189 | No other handler's step changes the ownership of a user whose update is pending |
| LockKeys.UpdateNamesOne | internal/server/server.go:1331-1333 | The body of an accepted update names one uuid for every reader, and its lock key depends on that uuid alone because the field allowlist excludes userUuid |
| LockKeys.SessionIsSafe | internal/server/server.go:1195-1265 | Under write safety the session of a user update is policy-enforced and carries the update field allowlist |
| Progress.CanStep | internal/server/server.go:278-311 | A handler that is neither done nor waiting for a mutex held by another can step whatever a truthful upstream answers |
| Progress.SomebodyCan | internal/server/server.go:2173-2178 | Whoever waits waits for a handler that is not itself waiting |
| Effects.RankDecreases | internal/server/server.go:197-346 | Every step of a handler strictly lowers its rank |
| Effects.AdvanceChanges | internal/server/server.go:200-204 | A step takes or gives back at most one semaphore, in stack order, and at most one mutex is ever held |
| Panics.OneResponse | internal/server/server.go:197-346 | For every configuration, request and answer of the upstream: never two responses; a handler that has returned holds nothing and wrote exactly one response, except that it wrote none if and only if it is a restricted panel list whose scan ended and whose page, by its start, size and page parameters, cannot be cut out of the owned users fetched |
| Panics.CallNeverPanics | internal/server/server.go:1736-1810 | The answer to a forwarded call never makes the handler panic: no page is cut out of it unless it is a restricted panel list, and those are not forwarded |
| Panics.PagePanics | internal/server/server.go:957-1009 | A page of the panel's scan makes the handler panic exactly when it ends the scan and the page asked for cannot be cut out of the owned users among all pages fetched |
| Panics.ListPanicExact | internal/server/server.go:1941-1965 | The completed panel list panics exactly when its route is policy-enforced and the start asked for, wrapped to 64 bits, lies before the end of the owned users and is negative or overflows when the size is added |
| Panics.HugeSizeStopsHandler | internal/server/server.go:2046-2058 | With `start=1` and the largest 64-bit size, every restricted panel list that returned after its scan ended, and whose token owns two of the users fetched, wrote nothing |
| Panics.NothingIsWritten | internal/server/server.go:2046-2058 | A concrete complete run of the handler with that query and two owned users: it returns, and no response is written |
| Panics.PlainPagesAreAnswered | internal/server/server.go:197-346 | With page parameters that stay within 64 bits together, every handler that returns wrote exactly one response |
| Pipeline.ForwardedWasCleared | internal/server/server.go:262-323 | Each call that carries the client's request is made for the session of the settings and only after everything in `Cleared` happened |
| Pipeline.ClearedMeans | internal/server/server.go:262-318 | Cleared means: the gate allowed it, or unsafe report mode without a panel session; the body passed, as `BodyFacts.BodyMeans` spells out; a locked write has write safety on and its lock held; an update's user was read as owned under the lock |
| Replies.ForwardedFits | internal/server/server.go:262-323 | For every run: the body of whatever is forwarded was sent as its route demands and has the members that route and token permit, and what the request names in its path or body is on the token's lists |
| Replies.ForwardedResource | internal/server/server.go:1381-1506 | For every run: a policy-enforced write to a resource that is forwarded hits a resource its token may write: a patch names a listed id, or any non-empty one under the switch; a create has the switch; a bulk update names one or more ids, all permitted; a node action has its node on the list |
| Replies.WritesAreChecked | internal/server/server.go:1195-1265 | A policy-enforced write that carries a body is never exempt from the body checks |
| Replies.ReplyIsDue | internal/server/server.go:197-346 | For every run of every request: the reply that is written is the one that is due, and no other one is due. Each refusal has its own cause with its status and reason: no slot, raw path, no route, guard, query, size, credential, rate, gate, write safety, target, preflight read, body, transport, response gates, verification, login; without one the gated answer, the page of the owned users, or the gateway's own page is due |
| Replies.AllowedIsAnswered | internal/server/server.go:297-346 | For every run: a request that passes everything before the call, and is not the panel's own list, is forwarded, and its reply is the gated answer if and only if the upstream answered, both gates pass, and a locked write that succeeded is verified |
| Replies.ReadIsAnswered | internal/server/server.go:319-346 | An allowed request that is not a locked write gets its gated answer |
| Replies.OnlyReadyForwarded | internal/server/server.go:197-323 | For every run: only a request that passes everything before the call is forwarded |
| Replies.CredentialsMean | internal/server/server.go:356-389 | Exactly which credentials are refused, with which status and reason |
| Replies.NeedMeans | internal/server/server.go:2088-2122 | Exactly when preflight refuses and why, which user it reads, and when it has nothing to do |
| Replies.VerifyMeans | internal/server/server.go:2151-2171 | The user read again after a write is the one the write was about |
| Pipeline.RelayedWasChecked | internal/server/server.go:319-346 | What is relayed with success is the handler's own public answer, or passed the response gates and the verification that apply |
| Pipeline.RestrictedTokenSees | internal/server/server.go:1736-1810 | A success relayed to a restricted token on a user read or user list is either the panel's own list, exactly the asked page of the owned users with their number, or this request's own answer in which the first list was replaced by the page of its owned users, or in which the user found first is owned, or which decodes to no single user and counts as empty because its first list is |
| Pipeline.OwnListAllOwned | internal/server/server.go:957-1009 | The panel's own list has owned users only, in all its lists |
| Pipeline.WriteSuccessWasVerified | internal/server/server.go:2151-2171 | A locked user or device write reports success only after its user was read again as owned, later than the call and under the lock, or the created user was checked in the answer; node and resource writes have nothing to read again |
| HandlerFacts.AdvanceKeeps | internal/server/server.go:197-346 | The handler invariant holds after every step, whatever shared accesses and upstream calls return |
| ApiHandler.ApiHandler.Serve | internal/server/server.go:197-346 | The handler in its own control flow, with deferred releases, is a complete run of the step machine and writes exactly one reply, the one that is due by `Replies`, or none where the page asked for cannot be cut out |
| ApiHandler.ApiHandler.Guarded | internal/server/server.go:205-230 | Everything behind the global slot is a run of the handler machine from that point to one reply or a panic, with nothing held that was not held before |
| ApiHandler.ApiHandler.BehindVersion | internal/server/server.go:231-261 | Everything behind the version guard is a run of the handler machine from that point to one reply or a panic, with nothing held that was not held before |
| ApiHandler.ApiHandler.Perform | internal/server/server.go:266-296 | From the rate check on, the steps are a run of the handler machine to one reply or a panic, and a mutex taken on the way is given back |
| ApiHandler.ApiHandler.Checked | internal/server/server.go:297-323 | From preflight on, the steps are a run of the handler machine to one reply or a panic |
| ApiHandler.ApiHandler.Call | internal/server/server.go:324-346 | From the upstream call on, the steps are a run of the handler machine to one reply or a panic; which reply is said by `Replies.AllowedIsAnswered` |
| ApiHandler.ApiHandler.CheckBefore | internal/server/server.go:2088-2149 | preflight reads the user a request is about and lets it pass only if that read passes the user check |
| ApiHandler.ApiHandler.CheckAfter | internal/server/server.go:2151-2171 | postWriteVerify passes every answer to a request that is no locked write, and every answer that is no success; otherwise exactly those where the created or re-read user passes the user check |
| ApiHandler.ApiHandler.PanelUserList | internal/server/server.go:957-1009 | The loop that grows `combined` page by page; for a policy-enforced route the reply is the one that the scan of all pages stands for |
| ApiHandler.ApiHandler.PublicSub | internal/server/server.go:1348-1377 | A public subscription is a run of the handler machine from its address slot to one reply, with the slot given back |
| ApiHandler.ApiHandler.AuthFacade | internal/server/server.go:492-521 | An auth path of the panel is a run of the handler machine to one reply |
| ApiHandler.ApiHandler.Callback | internal/server/server.go:653-696 | A callback is a run of the handler machine, from taking the attempt to one reply |
| RuntimeObject.GatewayRuntime.Reload | internal/server/server.go:101-115 | A reload on the runtime object is the machine's build, clear and install steps in a row; a failed one uses up a number and changes nothing else |
| RuntimeObject.GatewayRuntime.DetectVersion | internal/server/server.go:173-191 | detectVersion on the object is the machine's detection step |
| RuntimeObject.GatewayRuntime.LockFor | internal/server/server.go:2173-2178 | The same mutex for a key on every lookup, a new one for a new key |
| RuntimeObject.ReloadRun | internal/server/server.go:101-115 | The three steps of a reload in a row install the new generation with an empty OAuth table |
| Routes.DecideExact | internal/policy/policy.go:23-47 | Exactly who passes the gate, both directions; a policy-enforced route without scopes is closed even to privileged tokens |
| Routes.ReadAllReach | internal/server/server.go:1195-1208 | A token whose only scope is read:* passes the gate exactly on the listed safe GET reads that are not unsupported or public |
| LockKeys.OtherRoutesLockApart | internal/server/server.go:2180-2189 | An update never shares its lock key with a restricted write on another route: exclusion is per route |
| RuntimeObject.LimitState.Acquire | internal/ratelimit/limit.go:22-48 | Taking a place at a generation's semaphore objects is answered as the machine's step is, and leaves objects and counts in step |
| RuntimeObject.LimitState.Release | internal/ratelimit/limit.go:31 | Where the machine lets a release go on, the object's receive does not block, and objects and counts stay in step |
| RuntimeObject.LimitState.Find | internal/ratelimit/limit.go:41-48 | The semaphore of a slot, made on first use; every other slot keeps its own |
| Pipeline.RunsAsItsCredential | internal/server/server.go:356-389 | A request runs as a token only through an enabled credential of that very token that its header stands for, with the right digest or through the configured panel actor |
| Pipeline.CredentialRunsAsToken | internal/server/server.go:356-389 | With unique credential ids, whoever presents an enabled credential of an enabled token runs as that token |
| Routes.EffectiveWrite | internal/server/server.go:1195-1265 | A catalogued restricted write is policy-enforced exactly when both write-safety flags are on, and the update then carries its allowlist |
| Routes.WhoMayWrite | internal/server/server.go:1195-1265 | Exactly which tokens pass the gate of a restricted write: under write safety those with a scope for it or a privileged one, without it only privileged ones |
| Routes.WhoMayRead | internal/server/server.go:1195-1274 | Exactly which tokens pass the gate of any other route: those that pass it as catalogued, and on the listed safe GET reads, unless closed or public, holders of read:*, of a scope of the route, or of a privileged scope; nothing else of the route changes |
| Routes.WriteBodies | internal/server/server.go:1195-1265 | Under write safety a restricted write with a body takes one JSON object, of at most 64 KiB for a user, and creates and updates of users carry their field lists |
| OAuthStore.PutBounded | internal/server/server.go:545-554 | Put keeps the table within capacity, what is stored is taken again until it expires, and a login is refused exactly when the table is full of unexpired ones |
| OAuthStore.TakeRemoves | internal/server/server.go:556-565 | Take returns exactly a stored, unexpired attempt, removes it, and leaves the others |
| OAuthStore.PanelOAuthStore.Prune | internal/server/server.go:573-579 | Ranging over the table in any order leaves exactly the unexpired attempts |
| OAuthStore.PanelOAuthStore.Put | internal/server/server.go:545-554 | The in-place put has the new table and result of the specification |
| OAuthStore.PanelOAuthStore.Take | internal/server/server.go:556-565 | The in-place take has the new table and result of the specification |
| ListFilter.FilterReplacesFirstList | internal/server/server.go:2016-2044 | The filter fails exactly when no list can be reached; otherwise it replaces exactly the first list in key-search order by the page of its kept items, and its count is the number kept |
| ListFilter.RedactedCounts | internal/server/server.go:2060-2075 | Every count key on the response, meta and pagination chains shows the visible count, every other value is what it was |
| ListFilter.RedactedShape | internal/server/server.go:2060-2075 | At the end of every chain an object keeps exactly its keys, and what is not an object keeps its value |
| ListFilter.CountsAreVisible | internal/server/server.go:1995-2014 | After filtering, each count on the chains is the number of items kept before paging |
| ListFilter.FilterListIdempotent | internal/server/server.go:1995-2044 | Filtering again, unpaged and with a criterion that does not rewrite, changes nothing |
| ListFilterInPlace.FilterNodeInPlace | internal/server/server.go:2016-2044 | The in-place recursion on mutable objects ends in the filtered tree, and writes nothing when it fails |
| ListFilterInPlace.CollectKept | internal/server/server.go:2016-2030 | The loop over an array appends exactly the kept items in order |
| ListFilterInPlace.RedactInPlace | internal/server/server.go:2060-2075 | The in-place rewriting of counts ends in the redacted tree |
| ListFilterInPlace.FilterListInPlace | internal/server/server.go:1995-2014 | The whole filter in place equals the filter on values |
| PanelList.PanelListRefines | internal/server/server.go:957-1009 | Against an unchanging upstream with honest pages and total, the caller receives the requested slice of the owned users among the first 20000, with their number as total, or the handler panics if that slice cannot be cut out |
| PanelList.HonestScanFrom | internal/server/server.go:957-997 | The scan loop collects exactly the first 20000 users |
| PanelList.HonestWalk | internal/server/server.go:957-1009 | Against an unchanging upstream with honest pages and total, the users of the replies to start = 0, s, 2s, ... put together are a prefix of the owned users among the first 20000, and all of them, each once and in order, when the pages reach their end |
| PanelList.HonestReply | internal/server/server.go:957-1009 | Each of these replies is its page of the owned users, with their number as total |
| PanelList.WalkIsPrefix | internal/server/server.go:2046-2058 | The pages at start = 0, s, 2s, ... of any list, put together, are a prefix of it, and all of it when they reach the end |
| PanelList.PageIsStart | internal/server/server.go:1946-1965 | page=k asks for the same page as start=(k-1)*size, wherever that start fits into 64 bits |
| PanelList.ParametersMean | internal/server/server.go:1946-1993 | For every query: of the spellings of start, size and page the first that gives a number in range counts, and zero stands for none |
| PanelList.NumbersAreRead | internal/server/server.go:1967-1993 | A parameter that spells an integer is read as that integer, and as none where it does not fit into 64 bits |
| PanelList.FaultExact | internal/server/server.go:2046-2058 | For all start, size and page: exactly when the slice expression panics |
| PanelList.PageExact | internal/server/server.go:2046-2058 | For all start, size and page: the slice is cut out and is the one asked for exactly when the numbers stay in range |
| PanelList.HugeSizePanics | internal/server/server.go:1941-1965 | The query `start=1&size=9223372036854775807` is read as numbers and makes the slice expression panic on two or more items |
| ResponseFacts.FilteredListShown | internal/server/server.go:1762-1790 | The first list in key-search order is replaced, in its place, by the page of exactly its owned users |
| ResponseFacts.ShownListsExact | internal/server/server.go:2016-2044 | All lists in the body shown are owned exactly when all lists of the upstream's body but the first are; those others pass as they came |
| ResponseFacts.GatedListsExact | internal/server/server.go:2016-2044 | The same for every answer that passes the gates as a user list |
| ResponseFacts.SecondListPasses | internal/server/server.go:2016-2044 | `{"users":[],"data":[...]}` with a foreign user in the second list reaches a restricted token unchanged |
| ResponseFacts.DecodedIsFirst | internal/remnawave/user.go:82-105 | The user that a read decodes is the one found first down the envelope keys |
| ResponseFacts.GatedUsersExact | internal/server/server.go:1736-1760 | An answer to a user read passes as it came. Where one user decodes, it is the one found first and owned, and it is the only one checked; otherwise the answer counts as empty and none is checked. All users shown are owned exactly when all unchecked ones are; where none are collected there are none |
| ResponseFacts.SecondUserPasses | internal/remnawave/user.go:82-105 | An answer with a foreign user behind an owned one passes a read |
| ResponseFacts.EmptyFirstPasses | internal/remnawave/user.go:54-66 | An answer whose first list is empty passes a read as empty, whatever users follow |
| ResponseFacts.GatedIsPresentable | internal/server/server.go:1736-1810 | A success on a user route passes the gates only with its first list filtered, or with the user found first owned, or, decoding to no single user, as an answer that counts as empty |
| ResponseFacts.UserReadGate | internal/server/server.go:1736-1760 | For every success on a user read: passed as it came exactly when its one user is owned, or when none decodes and it counts as empty; else refused with its reason |
| ResponseFacts.EmptyMeans | internal/remnawave/user.go:54-66 | An answer counts as empty exactly when some way down the envelope keys ends in null, an empty list or an empty object |
| ResponseFacts.UserListGate | internal/server/server.go:1762-1790 | A user list of a restricted token is refused exactly when no list can be reached in it |
| ResponseFacts.SquadListGate | internal/server/server.go:1762-1810 | Squad lists of a restricted token: refused exactly without a list; else the first list shows exactly the allowed squads in order, each without its raw inbounds, and the counts their number |
| ResponseFacts.PageConfigListGate | internal/server/server.go:1762-1810 | Page config lists of a restricted token: refused exactly without a list; else the first list shows exactly the listed page configs |
| ResponseFacts.PageConfigReadGate | internal/server/server.go:1824-1872 | Page config reads of a token with a list: passed exactly when somewhere down the envelope keys and lists an object names a listed id |
| ResponseFacts.SquadReadGate | internal/server/server.go:1874-1924 | Squad reads: refused exactly when no squad is found; else one squad is cut down to its id, name and position, and everything around it stays |
| ResponseFacts.OthersPass | internal/server/server.go:1736-1810 | Everything else passes as it came: other routes, routes without policy, answers that are no success, and lists of privileged tokens |
| ResponseFacts.KeptInOrder | internal/server/server.go:2016-2030 | The kept items are exactly those the criterion keeps, each in its turn |
| RateLimit.BurstBound | internal/ratelimit/limit.go:73-91 | At most (n+1)*limit admissions of one key in any half-open interval of n windows |
| RateLimit.DenialJustified | internal/ratelimit/limit.go:73-91 | A call is denied if and only if the window opened less than its length ago has had exactly the limit of admissions; the last ones are all less than a window old |
| RateLimit.DenialExact | internal/ratelimit/limit.go:73-91 | At every denial the last window length saw the limit plus whatever was admitted in it before the current window was opened; so exactly the limit if and only if no admission of an earlier window is less than a window length old |
| RateLimit.WindowsDoNotSlide | internal/ratelimit/limit.go:73-91 | A concrete trace where more than the limit was admitted within one window length before a denial |
| RateLimit.KeysAreIndependent | internal/ratelimit/limit.go:73-91 | For every interleaved trace the decisions of a key are those of a limiter that saw only its calls |
| RateLimit.BucketAlwaysFits | internal/ratelimit/limit.go:80-90 | The bucket counts the admissions since its window was opened |
| RateLimit.FixedWindow.Allow | internal/ratelimit/limit.go:73-91 | The decision is the one that the key's own earlier calls determine; the table stays the one of the whole history |
| RateLimit.FixedWindow.KeyBurst | internal/ratelimit/limit.go:73-91 | The admission bound for a limiter object after any calls |
| RateLimit.NewFixedWindow | internal/ratelimit/limit.go:62-71 | No limiter exactly for a limit of zero or less |
| RateLimit.Allowed | internal/ratelimit/limit.go:73-76 | An absent limiter admits everything and keeps nothing |
| RateLimit.Semaphore.Acquire | internal/ratelimit/limit.go:22-29 | Succeeds exactly when there is room, and then takes one place |
| RateLimit.Semaphore.Release | internal/ratelimit/limit.go:31 | Gives one place back |
| RateLimit.PerKey.Get | internal/ratelimit/limit.go:41-48 | The same semaphore for a key on every call, different ones for different keys |
| Spacing.SpacedCount | internal/ratelimit/limit.go:73-91 | At most n times that keep a distance fit into n distances; shared by the limiter and the aggregator |
| Alerts.Conserved | internal/alerts/alerts.go:112-163 | Over every run, the events sent followed by those waiting are the events recorded, in order |
| Alerts.BatchesSpaced | internal/alerts/alerts.go:130-160 | Successive sends of a key are at least the cooldown apart, in whatever order timestamps come, if none is the zero time |
| Alerts.NotifiedSpaced | internal/alerts/alerts.go:76-91 | Through Notify they are so for all events, also those without a time |
| Alerts.BatchesBounded | internal/alerts/alerts.go:130-160 | At most floor((b-a)/c)+1 sends of a key fall into [a,b] |
| Alerts.PendingWasSent | internal/alerts/alerts.go:130-136 | Events wait only in a bucket with a non-zero lastSent |
| Alerts.RecordIsPrompt | internal/alerts/alerts.go:112-141 | For every run: an event is held back exactly when its key had a batch less than a cooldown before; otherwise it goes out at once, in one batch behind everything that waited |
| Alerts.FlushIsPrompt | internal/alerts/alerts.go:143-163 | For every run: a tick sends all that waits of a key in one batch, unless the key had a batch less than a cooldown before |
| Alerts.WaitsOnlyLately | internal/alerts/alerts.go:130-160 | For every run that ends in a record of a key or a tick at t: events of the key wait only if a batch of it was sent less than a cooldown before t, so a tick at or past the last batch plus the cooldown leaves nothing waiting |
| Alerts.ZeroTimeBreaksSpacing | internal/alerts/alerts.go:130-136 | Recorded at the zero time, two events are sent at once |
| AlertManager.Manager.Record | internal/alerts/alerts.go:112-141 | The mutable bucket and the alerts sent are those of the history extended by the event: nothing is sent while the last batch of the key is less than a cooldown old, else one alert with all that waited and the event |
| AlertManager.Manager.FlushDue | internal/alerts/alerts.go:143-163 | The flush over all buckets in any order is one flush of every key's history, so by `Alerts.FlushIsPrompt` it sends all that waits of every key without a batch less than a cooldown old |
| AlertManager.Manager.FlushAll | internal/alerts/alerts.go:165-177 | The final flush sends one alert for every key that still has events |
| AlertManager.Manager.Run | internal/alerts/alerts.go:93-110 | After the final flush the counts handed to send equal the events recorded, per key and in total |
| AlertManager.Bucket.Cut | internal/alerts/alerts.go:130-135 | A cut hands out the waiting events in summary and leaves an empty bucket with the new time |
| OwnerFacts.OwnsMeans | internal/remnawave/user.go:137-258 | For every token and user, owning means exactly: the username starts, ends and contains as configured and matches the expression; the email contains the text in any case, and what follows its first @ is a listed domain in any case; the telegram id is given and in some range; at least one squad of each constrained kind is given and every non-empty one is listed; the page config is given and listed |
| OwnerFacts.FirstMisfit | internal/remnawave/user.go:137-185 | The refusal reported is that of the first field that does not fit, in a fixed order, and says whether the field is missing or denied |
| OwnerFacts.UsernameReasons | internal/remnawave/user.go:187-210 | Which of the username refusals is given when |
| OwnerFacts.EmailReasons | internal/remnawave/user.go:212-230 | Which of the email refusals is given when |
| OwnerFacts.UserReadMeans | internal/remnawave/user.go:107-135 | What is read as a user from an object: its name, ids and email under their keys, every squad under every spelling, and the page config under its first spelling |
| OwnerFacts.TelegramReadMeans | internal/remnawave/user.go:302-317 | The telegram id of an object is the integer under the first of its two spellings that is a number or a text, given as a number or in decimal, and zero without them |
| BodyFacts.BodyMeans | internal/server/server.go:1381-1444 | For every request and token: the body passes if and only if its route is exempt, or it is a JSON object within the limits and without repeated keys that has only allowed fields, the required boolean, only the token's own fields, user fields that fit, a resource the token may write, and a user uuid for a device |
| BodyFacts.UserConstraintsMean | internal/server/server.go:1578-1734 | For every object and token: exactly when the user fields of a body fit the token's constraints, field by field |
| BodyFacts.ResourceRefusals | internal/server/server.go:1446-1540 | A patch of a resource that is not permitted is refused for want of an id or by the name of its kind, a create by the name of its kind |
| BodyFacts.SendingRefusals | internal/server/server.go:1381-1404 | What is wrong with how a body was sent is reported first and in a fixed order; a repeated key is named |
| BodyFacts.MemberRefusals | internal/server/server.go:1405-1444 | What is wrong with the members is reported in a fixed order |
| CreateOwnership.AcceptedCreateOwned | internal/server/server.go:1578-1734 | For every create request that passed the body checks: an answer that repeats its fields is read as an owned user, as `OwnerFacts.OwnsMeans` spells out, if and only if they name a user, every constrained ownership field is given, and each squad object without a non-empty uuid names no id or an allowed one under its first other spelling |
| CreateOwnership.ForeignCreateIsAccepted | internal/server/server.go:1678-1714 | A request with a credential in force, a token with the create scope and a body whose squad is an object under another spelling: the credential is found, the decision allows it, and the whole body policy passes |
| CreateOwnership.ForeignCreateIsNotOwned | internal/remnawave/user.go:260-284 | The user read from an answer that repeats this body is refused as foreign: the checks before the write do not imply the one after it |
| BodyPolicy.NullTrafficFails | internal/server/server.go:1627-1649 | A traffic limit of null is refused as invalid by every token |
| BodyPolicy.DecodeSucceeds | internal/jsonpolicy/jsonpolicy.go:12-40 | Strict decoding succeeds exactly on a closed object without repeated keys, and then holds every member |
| BodyPolicy.DecodeObjectNoDuplicateKeys | internal/jsonpolicy/jsonpolicy.go:12-40 | The loop that fills a map returns the specified object or the first error |
| BodyPolicy.ReadersAgree | internal/server/server.go:2191-2213 | Where strict decoding succeeds and nothing trails, the loose reader of single fields sees the decoded object's fields |
| BodyPolicy.DecodedMembers | internal/jsonpolicy/jsonpolicy.go:26-38 | Every member of a strictly decoded body is read back under its key |
| BodyPolicy.ValidateFields | internal/jsonpolicy/jsonpolicy.go:42-53 | Set, then scan: passes exactly when every key is allowed |
| Remnawave.CollectUsersLoop | internal/remnawave/user.go:82-105 | The loops over arrays and envelope keys collect the specified users in order |
| Remnawave.CollectSquadRefs | internal/remnawave/user.go:260-272 | The loop appends exactly the squads that parse |
| Remnawave.ScanSquadsAllowed | internal/remnawave/user.go:247-258 | Set, then scan: passes exactly when there are squads and all are allowed |
| Credentials.FindCredentialLoop | internal/config/config.go:664-676 | The nested search loops find the specified credential |
| Credentials.LookupIsExact | internal/config/config.go:664-676 | With unique ids a lookup finds exactly the credential carrying the id, if it and its token are enabled |
| Credentials.OrderIrrelevant | internal/config/config.go:664-676 | Lookups do not depend on the order of the tokens |
| Credentials.CheckIds | internal/config/config.go:382-431 | The id loops of Validate accept exactly token lists whose ids are present and unique |
| Credentials.PruneInPlace | cmd/remnaguard/main.go:291-297 | Compaction over the list's own storage is the order-preserving filter of enabled credentials |
| Credentials.PruneKeepsLookups | cmd/remnaguard/main.go:291-297 | Pruning changes no lookup |
| Credentials.DisableInPlace | cmd/remnaguard/main.go:265-271 | The loop marks every credential with the id and no other |
| Credentials.DisableRemovesOneId | cmd/remnaguard/main.go:265-271 | Disabling makes exactly that id unresolvable |
| Credentials.RotateAddsOneId | cmd/remnaguard/main.go:243 | Appending a fresh credential keeps ids unique, changes no other lookup, and resolves exactly when the token is enabled |
| Proxy.AuthenticatedHeaders | internal/proxy/proxy.go:97-105 | Under an accepted configuration: exactly one Authorization value, the gateway's; no hop-by-hop or forwarded name; nothing of the client's that Connection nominates; every other client header exactly as it came |
| Proxy.PublicHeaders | internal/proxy/proxy.go:106-116 | No Authorization; only allowlisted, extra or auth names; surviving client headers unchanged; the configured auth header set |
| Proxy.RequestHeaders | internal/proxy/proxy.go:97-116 | The Del and Set sequence on the cloned map sends exactly the specified headers in both modes |
| Proxy.SetAll | internal/proxy/proxy.go:104-106 | Setting configured headers in any order leaves one configured value per name and all others as they were |
| Proxy.FilterHeaders | internal/proxy/proxy.go:184-191 | Deleting in place leaves exactly the allowlisted names |
| Proxy.CopyHeader | internal/proxy/proxy.go:154-169 | Copying into an empty map passes exactly `Copies`: the names with values that are not protected, allowlisted in public mode, and not hop-by-hop, with their values |
| Proxy.NominatedStayBehind | internal/proxy/proxy.go:154-182 | The copy is what stripping first would leave, and has no nominated name, exactly when every name that the upstream's Connection nominates and sends is protected, hop-by-hop, or (public) not allowlisted |
| Proxy.NominatedPasses | internal/proxy/proxy.go:154-182 | `Connection: X-Foo` with `X-Foo: 1`: X-Foo is nominated and copied |
| Headers.NominatedExact | internal/httputil/validate.go:51-59 | The nominated names are exactly the canonical forms of the non-blank comma-separated parts of the Connection values |
| Proxy.CheckHeaders | internal/config/config.go:334-362 | The loops of Validate accept exactly configurations without protected names |
| Proxy.UnprotectedName | internal/config/config.go:742-756 | A name that Validate lets through is neither the gateway's own nor hop-by-hop in canonical form |
| Headers.StripHopByHop | internal/httputil/validate.go:51-68 | In-place deletion leaves exactly the names that are neither nominated by Connection nor hop-by-hop |
| Headers.DelListed | internal/httputil/validate.go:52-59 | One Connection value deletes exactly the names it lists |
| Headers.SameLowerSameCanonical | internal/httputil/validate.go:51-68 | Names that differ in case only have one canonical form |
| Catalog.OverrideWins | internal/routes/catalog.go:95-105 | One route per key; an override replaces the base route with its key, and base routes without one stay |
| Catalog.Merge | internal/routes/catalog.go:95-105 | The index by key and the overwriting loop compute the specified merge |
| Catalog.SortedFits | internal/routes/catalog.go:106-111 | The sort is a permutation ordered by method then falling specificity, stable within equal rank |
| Catalog.StableSortUnique | internal/routes/catalog.go:106-111 | Any ordered arrangement that keeps the order within each rank is this one, so any stable sort gives it |
| Catalog.MatchIsBest | internal/routes/catalog.go:312-322 | Match returns a fitting route of maximal specificity, and none only when no route fits the path as given or trimmed |
| Catalog.Match | internal/routes/catalog.go:312-322 | The loop with its recursive retry computes the specified match |
| Catalog.CatalogIsSound | internal/routes/catalog.go:95-112 | Merge and sort together: ordered, and a route is in the catalog exactly when it is an override or a base route without one |
| Catalog.LiteralBeatsPlaceholder | internal/routes/catalog.go:547-552 | A literal in place of a placeholder changes the score by 20 plus the difference in length, so it wins against every placeholder of at most 20 characters |
| PanelSession.SessionRoundTrip | internal/auth/panel_session.go:28-93 | A token issued at t is accepted at u exactly when floor(t) <= floor(u)+60 and floor(u) < floor(t+TTL), and returns the trimmed actor; for every positive TTL |
| PanelSession.CapHolds | internal/auth/panel_session.go:88-90 | The lifetime cap never rejects an issued token |
| PanelSession.AcceptedIsSigned | internal/auth/panel_session.go:52-93 | A token is accepted as given claims if and only if the panel is configured, the token carries the claims in a payload with the panel's own signature, and they are its own, current, and within the cap |
| Base64.RoundTrip | internal/auth/panel_session.go:48-50 | Decoding the base64url text of any bytes gives the bytes back |

## Left out

- Transport, TLS, SQLite audit, metrics, YAML and file I/O, Telegram delivery, ID-token verification: library plumbing.
- Upstream calls that take effect after the gateway has given up on them (timeouts): the model lets a call act until it returns.
- `ParseRate`, bearer parsing, actor resolution beyond the credential lookup, query validation, OpenAPI checks: results enter as fields of the request or settings.
- The route list, the list of safe reads and fixed panel bodies as data: routes enter by name, pattern and support; unlisted names are `Other`.
- Body reading errors other than size, and the response-writing failures of the network.
- JSON text: trees and member lists are the start. Decoding into Go structs ignores key case for the two OAuth bodies; these enter decoded.
- CreateOwnership.AcceptedCreateOwned: squad objects are decoded into a struct whose `uuid` field also takes `UUID` in any case, the last such key winning; the model reads the key `uuid` as spelled.
- A telegram id given as a string: only a plain decimal number is read, where the source's scanning also takes a numeric prefix and other bases; the model reads 0 there.
- Unicode: case folding is ASCII, strings are characters, not bytes; invalid UTF-8 in session claims is not modelled.
- The limiter's internal lock and the alert manager's lock: each call is one step. The limiter reads the clock before it takes its lock (internal/ratelimit/limit.go:77-78), so concurrent calls can come to the table with times that go back; a clock that does not go back in the order of the lock is assumed.
- Rate windows inside `Runtime`: a rate check may answer either way there; the limiter is proved on its own.
- Upstream bodies and headers in `Runtime`: only statuses, bodies and the user store matter there.
- Changing the alert cooldown by a reload while events are pending: `AlertManager` has one cooldown for its life.
- `time.Duration` saturation and the floating-point seconds of the TTL: durations are exact integers, and the cap uses whole seconds.
- Catalog.SortedFits: the library's stable sort works in place; here it is a function, and `Catalog.StableSortUnique` says that every stable sort gives its result.
- ListFilterInPlace.CollectKept: items of the filtered array are values, so aliasing between items and the tree is not captured; objects on the way to the array are mutable.
- ListFilterInPlace.FilterListInPlace: a page that cannot be cut out would panic in the middle of the rewriting; the in-place version is stated on the slice that `ListFilter.SlicePage` gives, and `Panics` says when there is none.
- ApiHandler.ApiHandler.Serve: a panic unwinds through the deferred releases here; that the server then closes the connection is not modelled.
- Catalog.Match: compiled patterns are an arbitrary predicate of pattern and path; `regexp` construction is not modelled.
- Gateway.NoDeadlock: says that a step is possible, not that the scheduler takes it; with `Gateway.StepsAreBounded` every fair schedule finishes.
- Proxy.CopyHeader: copies into an empty response header map; headers the gateway set before are not part of it.
