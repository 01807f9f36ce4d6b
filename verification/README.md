# Chat backend: verified protocols

A Dafny model of the stateful protocols of a chat backend and its browser call client, with proofs about all their
runs. Each module holds the stores of one component as a value, one pure function per operation, the invariants and
main results about runs, and at the end a class with the same fields whose methods follow the service's own steps and
loops and are proved to compute those functions.

- `CallProtocol`: WebRTC calls over five stores (record, active-call key, user status, active-call sets, signaling key),
  with ring timer and disconnect clean-up.
- `CallAnswers`: what the call operations answer, and to whom.
- `CallDetails`: what those stores say about the two sides of a call and how it ended.
- `CallExpiry`: the same calls when Redis keys expire, and how long stranded users stay so.
- `CallLifecycle`: the REST call path with one timer per phase, its transition table and its time bound.
- `LifecycleTimes`: when exactly a call times out in each phase, and who may accept it.
- `RateLimits`: the sliding-window log, the renewed-TTL counter, and the simulation between them.
- `Lockout`: login, failure counter and timed lock.
- `MessageCache`: the sorted-set cache trimmed to 100.
- `OfflineDelivery`: socket index, offline queue, batches, confirmations and acknowledgements.
- `ChunkSession`: the two scripts of a chunked upload, their cached progress, the upload endpoint in front of them, and
  batches.
- `Text`, `IceLine`: JavaScript text operations, ICE candidate lines (RFC 8839, section 5.1) and the three filters.
- `RemoteIce`, `LocalIce`: the client's candidate queues; in `RemoteIce` every `await` is a step boundary.
- `Typing`: typing indicators and their timers.
- `Batching`: delivery and read-receipt batches.

Conventions: a service operation is one atomic step (except in `RemoteIce`); clocks are integers that never go back, in
milliseconds; new call, socket and timer ids are fresh; division is exact; emitted events are recorded as values. A
timer that is due fires before the clock passes it.

Where the code does less than its comments and documentation suggest, the model follows the code and states exactly
when the expected property holds:

- A callee can accept a call whose caller has disconnected; both users then stay busy,
  with no call, until their status keys expire an hour later (`AcceptExactIff`, `DisconnectThenAcceptStrands`,
  `StrandedUntilExpiry`).
- A caller can accept their own call; the callee then keeps ringing (`AcceptSettlesIff`).
- A connection report is not checked against the phase and leaks a timer (`EstablishGoodIff`), and clearing timers by
  id prefix can disarm another call (`EndGoodIff`, `PrefixDisarmRun`).
- A cache read, which nothing calls yet, returns everything for limit 0 and almost everything for a small negative limit
  (`ReadsNewestFirstIff`, `ZeroLimitReadsAll`).
- Offline batches are emitted newest first, although the queue is described as first in, first out; two different
  missed messages already come in the wrong order (`BatchInSendOrderIff`, `TwoMissedComeReversed`). An acknowledgement
  taken after the user left deletes undelivered messages (`AckKeepsReceivedIff`, `LateAckLosesMessage`).
- A batch update, which nothing calls yet, leaves the cached chunk count stale (`BatchKeepsCountIff`), and a progress
  hash that expired, an hour after creation if no chunk arrived by then, never reports completion again
  (`ExpiredProgressNeverComplete`).
- A candidate whose address the browser hides passes sender and gateway and is thrown away by the receiver when its
  port is reserved (`ShownOrHiddenAddress`).
- A flush drops a candidate on the error text on which the handler queues it again (`DropsIff`), and an incoming call
  that crosses waiting candidates reorders and misdirects them (`StepGoodIff`, `CrossingOvertakes`).
- Typing in a second conversation leaves the first indicator without a timer (`StartKeepsTimedIff`, `StaleForever`).
- Read receipts whose ids contain a colon go to the wrong pair (`TargetIff`).

`dafny verify dfyconfig.toml` checks the whole project.

## Model

| member | source | states |
|---|---|---|
| CallProtocol.RunSafe | src/modules/calls/services/webrtc-signaling.service.ts:46-275 | every run of initiate, accept, decline, hang-up, ring-timeout and disconnect steps keeps the whole safety invariant, from any state that has it |
| CallProtocol.ReachableCalls | src/modules/calls/services/webrtc-signaling.service.ts:415-426 | from empty stores, in every run: no user is in two live calls, everyone in a live call is non-idle and a member of its record, and a call in a user's active-call set is live and contains that user |
| CallProtocol.StepSafe | src/modules/calls/services/webrtc-signaling.service.ts:46-275 | each single operation keeps the safety invariant |
| CallProtocol.InitiateSafe | src/modules/calls/services/webrtc-signaling.service.ts:46-100 | starting a call with a fresh id keeps calls disjoint, whatever the availability check answers |
| CallProtocol.InitiateCallsSafe | src/modules/calls/services/call-state.service.ts:67-94 | a started call adds exactly caller and target to exactly the new call |
| CallProtocol.AcceptSafe | src/modules/calls/services/webrtc-signaling.service.ts:110-165 | accepting keeps the invariant, and the missing-signaling error is never reached from a reachable state |
| CallProtocol.FinishSafe | src/modules/calls/services/webrtc-signaling.service.ts:177-275 | declining or hanging up by a member always removes the live call and keeps the invariant |
| CallProtocol.FinishStores | src/modules/calls/services/webrtc-signaling.service.ts:535-568 | decline and hang-up free exactly what ending the active call frees, end that one record, and leave all other records alone |
| CallProtocol.EndCallSafe | src/modules/calls/services/call-state.service.ts:198-226 | ending a call frees exactly its participants; every other live call keeps its participants |
| CallProtocol.RingTimeoutSafe | src/socket/gateways/chat.gateway.ts:3044-3085 | the ring timer keeps the invariant and ends the call when it is still unanswered |
| CallProtocol.RingTimeoutFrees | src/socket/gateways/chat.gateway.ts:3044-3085 | every unanswered live call has an armed timer; when it fires the call is over, its record ended and both users idle |
| CallProtocol.LeaveCallSafe | src/socket/gateways/chat.gateway.ts:3619-3647 | a two-party call never survives the disconnect of one of its participants |
| CallProtocol.RemoveParticipantSafe | src/modules/calls/services/call-state.service.ts:172-193 | removing a participant takes that user out of that call and nobody out of any other |
| CallProtocol.LeaveCallsSafe | src/socket/gateways/chat.gateway.ts:3614-3651 | the disconnect loop ends exactly the calls it visits |
| CallProtocol.DisconnectEffect | src/socket/gateways/chat.gateway.ts:3614-3651 | a disconnect ends exactly the live calls its user initiated; a callee's disconnect ends none |
| CallProtocol.DisconnectFrees | src/socket/gateways/chat.gateway.ts:3614-3651 | after the caller's disconnect both users of the call are idle |
| CallProtocol.AcceptExactIff | src/modules/calls/services/webrtc-signaling.service.ts:124-158 | a successful accept keeps "busy iff in a live call" exactly when the call's active key still exists |
| CallProtocol.LeaveCallExact | src/socket/gateways/chat.gateway.ts:3619-3647 | leaving a call keeps "busy iff in a live call" |
| CallProtocol.RunExact | src/modules/calls/services/webrtc-signaling.service.ts:46-275 | in every run in which no accept hits a removed call, a user is busy iff in exactly one live call, named by the status key, and busy users number twice the live calls |
| CallProtocol.BusyUsersCounted | src/modules/calls/services/call-state.service.ts:231-256 | the count itself: two busy users per live call |
| CallProtocol.DisconnectFreeRun | src/modules/calls/services/webrtc-signaling.service.ts:80-90 | from empty stores without disconnects: busy users are the participants of live calls, two per call, and an active-call key exists iff its record has not ended, with equal status |
| CallProtocol.StepKeysMatch | src/modules/calls/services/call-state.service.ts:118-137 | every step but a disconnect keeps active key and record in step, and no accept can then hit a removed call |
| CallProtocol.RunOrder | src/modules/calls/services/webrtc-signaling.service.ts:124-263 | a record's status only moves initiating, active, ended, disconnects included |
| CallProtocol.DeadAcceptStrands | src/modules/calls/services/webrtc-signaling.service.ts:124-158 | accepting a call that is no longer live leaves acceptor and initiator busy with no live call |
| CallProtocol.DisconnectThenAcceptStrands | src/modules/calls/services/webrtc-signaling.service.ts:110-165 | for every unanswered live call: caller disconnects, callee accepts, the accept succeeds and strands both |
| CallProtocol.UnansweredCallReachable | src/modules/calls/services/webrtc-signaling.service.ts:46-100 | such an unanswered call is reachable from empty stores, so the stranding is a real run |
| CallProtocol.CallBackend.EndActiveCall | src/modules/calls/services/call-state.service.ts:198-226 | the loop over participants computes the specified end of the call |
| CallProtocol.CallBackend.CleanupCallState | src/modules/calls/services/webrtc-signaling.service.ts:535-568 | the double reset of participants computes the specified clean-up |
| CallProtocol.CallBackend.InitiateCall | src/modules/calls/services/webrtc-signaling.service.ts:46-100 | all stores and the outcome, refusals included, as specified |
| CallProtocol.CallBackend.AcceptCall | src/modules/calls/services/webrtc-signaling.service.ts:110-165 | all stores and the outcome, the late missing-signaling error included |
| CallProtocol.CallBackend.DeclineCall | src/modules/calls/services/webrtc-signaling.service.ts:177-215 | all stores and the outcome as specified |
| CallProtocol.CallBackend.HangupCall | src/modules/calls/services/webrtc-signaling.service.ts:226-275 | all stores and the outcome as specified |
| CallProtocol.CallBackend.OnRingTimeout | src/socket/gateways/chat.gateway.ts:3044-3085 | the timer callback does what the specification says in all stores |
| CallProtocol.CallBackend.RemoveFromCall | src/modules/calls/services/call-state.service.ts:172-193 | filters the participant list in place and idles the user |
| CallProtocol.CallBackend.CleanupUserCallState | src/socket/gateways/chat.gateway.ts:3614-3651 | the loop over the user's calls computes the specified sequence of leaves |
| CallAnswers.MembersMayLeave | src/modules/calls/services/webrtc-signaling.service.ts:428-450 | a decline and a hang-up are let through exactly for a member of the record, whatever its status; a stranger gets the participant error and changes nothing |
| CallAnswers.ParticipantsCanLeave | src/modules/calls/services/webrtc-signaling.service.ts:177-275 | in every run each user in a live call can decline and hang up and is then idle with the call gone, and everybody else is refused |
| CallAnswers.AcceptAnswers | src/modules/calls/services/webrtc-signaling.service.ts:110-122 | in every run an accept is let through exactly for a member of an initiating record; the two refusals tell membership and status apart and change nothing |
| CallAnswers.UnansweredCallAcceptable | src/modules/calls/services/webrtc-signaling.service.ts:110-122 | exactly the users of a live unanswered call can accept it, and nobody one in progress |
| CallAnswers.InitiateAnswers | src/modules/calls/services/webrtc-signaling.service.ts:407-426 | which of the three refusals a new call gets, in terms of who is in a live call, in this order: oneself, caller, target; a refused call changes nothing |
| CallAnswers.InitiateAnswersInRuns | src/modules/calls/services/webrtc-signaling.service.ts:407-426 | without disconnects that is the answer in every run |
| CallAnswers.InitiatedIsLive | src/modules/calls/services/webrtc-signaling.service.ts:46-100 | a call let through is live and unanswered with caller and target in it, the target can accept it and the caller hang up |
| CallDetails.RunSides | src/modules/calls/services/webrtc-signaling.service.ts:110-165 | in every run in which no accept hits a removed call, caller's and callee's phases, member statuses and the signaling key of every live call say whether and by whom it was accepted |
| CallDetails.StepSides | src/modules/calls/services/webrtc-signaling.service.ts:46-275 | each step keeps that agreement |
| CallDetails.AcceptSettlesIff | src/modules/calls/services/webrtc-signaling.service.ts:124-158 | an accept settles the callee's phase and member status exactly when it is not the caller's own, which nothing checks |
| CallDetails.RunEndings | src/modules/calls/services/webrtc-signaling.service.ts:226-275 | in every run, disconnects included, a record has an end reason, and a member who declined or left, exactly when it has ended |
| CallDetails.RecordCauses | src/modules/calls/services/webrtc-signaling.service.ts:110-275 | exactly which steps change a call's record and to what; a disconnect changes none |
| CallDetails.RunTimers | src/socket/gateways/chat.gateway.ts:3044-3085 | in every run the armed ring timers are exactly those of the live unanswered calls |
| CallDetails.TimeoutRecord | src/socket/gateways/chat.gateway.ts:3052-3060 | the ring timer ends the record in the caller's name with reason timeout, or leaves it alone |
| CallExpiry.StrandedUntilExpiry | src/modules/calls/services/call-state.service.ts:231-256 | whatever else happens, expiry of all other call keys included, a stranded user stays stranded until their status key expires, and until then every call by or to them is refused |
| CallExpiry.NextStrandedIff | src/modules/calls/services/call-state.service.ts:231-256 | of all service steps and key expiries exactly the expiry of their own status key frees a stranded user; only an accept naming them rewrites that key |
| CallExpiry.ExpiryFrees | src/modules/calls/services/webrtc-signaling.service.ts:415-426 | after that expiry they can call and be called again |
| CallExpiry.AcceptStrandsUntilExpiry | src/modules/calls/services/webrtc-signaling.service.ts:110-165 | for every unanswered call: caller disconnects, callee accepts, and each of them is then busy with no call until their status key expires |
| CallExpiry.NextListed | src/modules/calls/services/call-state.service.ts:172-226 | every service step and every key expiry keeps the active-call sets sound for live calls |
| CallLifecycle.RunGood | src/modules/calls/services/call-lifecycle.service.ts:58-492 | in every run over prefix-free ids every open call is under exactly the timer of its phase, and no call is open later than its ringing timeout + 15 s + 1 h after its start |
| CallLifecycle.OneTimerPerOpenCall | src/modules/calls/services/call-lifecycle.service.ts:123-227 | a non-terminal call has exactly one armed timer, the one of its phase, and a terminal call none |
| CallLifecycle.StepGood | src/modules/calls/services/call-lifecycle.service.ts:58-492 | each operation keeps timers and calls in step, and every status change out of a non-terminal status is one the transition table allows |
| CallLifecycle.TerminalForever | src/modules/calls/services/call-error-handler.service.ts:231-242 | an ended or failed call stays ended or failed in every continuation, whatever the call ids |
| CallLifecycle.StatusCauses | src/modules/calls/controllers/calls.controller.ts:346-375 | which step can bring a call into each status: connecting only an accept by a participant while it rings, active only a connection report, failed only a timer before active |
| CallLifecycle.PhaseTimes | src/modules/calls/services/call-lifecycle.service.ts:192-227 | in every run a call rings no longer than its timeout, which is never zero, and once active, carries its start time and lasts no longer than an hour from it |
| CallLifecycle.RunKeys | src/modules/calls/services/call-lifecycle.service.ts:478-492 | in every run an open call has its Redis key, and once no clean-up is pending the keys are exactly those of the open calls |
| CallLifecycle.FireCauses | src/modules/calls/services/call-lifecycle.service.ts:353-393 | a fired timer ends an active call and fails a ringing or connecting one, and touches no other call |
| CallLifecycle.DefaultBound | src/modules/calls/services/call-lifecycle.service.ts:38-43 | with the default timeouts every call is terminal, with no timer armed, once 30 + 15 + 3600 s have passed |
| CallLifecycle.FireMakesProgress | src/modules/calls/services/call-lifecycle.service.ts:353-393 | a due timer can always fire and leaves strictly fewer armed, so the clock is never stuck |
| CallLifecycle.EndGoodIff | src/modules/calls/services/call-lifecycle.service.ts:252-306 | ending a call keeps every call under its timer exactly when no other open call owns a timer key starting with the ended id |
| CallLifecycle.PrefixFreeHitsOnlyItself | src/modules/calls/services/call-lifecycle.service.ts:469-473 | over prefix-free ids clearing by prefix never selects a foreign timer |
| CallLifecycle.PrefixDisarmsForeignCall | src/modules/calls/services/call-lifecycle.service.ts:469-473 | ending the call "call" disarms the timer of an open call "call2" |
| CallLifecycle.PrefixDisarmRun | src/modules/calls/controllers/calls.controller.ts:521 | a run that does so from the empty service, ending a call nobody started: "call2" rings on with no timer |
| CallLifecycle.TimerKeyInjective | src/modules/calls/services/call-lifecycle.service.ts:125-142 | call id and phase can be read back from a timer key |
| CallLifecycle.ClearAllRemoves | src/modules/calls/services/call-lifecycle.service.ts:469-473 | exactly the timers and map entries whose key starts with the id go |
| CallLifecycle.EstablishGoodIff | src/modules/calls/services/call-lifecycle.service.ts:192-227 | a connection report keeps timers and status order exactly when the call is CONNECTING, which the controller does not check |
| CallLifecycle.EstablishLeaksTimer | src/modules/calls/controllers/calls.controller.ts:786 | establishing a ringing or active call leaves its previous timer armed |
| CallLifecycle.AcceptGood | src/modules/calls/controllers/calls.controller.ts:363-372 | an accept behind the controller's check keeps the invariant and the table |
| CallLifecycle.InitiateGood | src/modules/calls/services/call-lifecycle.service.ts:58-142 | starting a call with a fresh id keeps the invariant, whatever ringing option is given |
| CallLifecycle.CloseGood | src/modules/calls/services/call-lifecycle.service.ts:252-348 | ending or failing a call reaches exactly that status and keeps the invariant |
| CallLifecycle.FireIsClose | src/modules/calls/services/call-lifecycle.service.ts:353-393 | a timer callback has exactly the effect of ending or failing the call while the timer is still armed |
| CallLifecycle.CleanupClearsNothing | src/modules/calls/services/call-lifecycle.service.ts:478-492 | when the delayed clean-up runs the call has no timer left to clear |
| CallLifecycle.CallLifecycle.ClearAllTimers | src/modules/calls/services/call-lifecycle.service.ts:469-473 | the two loops clear exactly the keys starting with the id |
| CallLifecycle.CallLifecycle.InitiateCall | src/modules/calls/services/call-lifecycle.service.ts:58-142 | the whole new state as specified |
| CallLifecycle.CallLifecycle.AcceptCall | src/modules/calls/services/call-lifecycle.service.ts:147-187 | the whole new state, and whether the controller let the accept through |
| CallLifecycle.CallLifecycle.EstablishConnection | src/modules/calls/services/call-lifecycle.service.ts:192-227 | the whole new state as specified |
| CallLifecycle.CallLifecycle.CloseCall | src/modules/calls/services/call-lifecycle.service.ts:252-348 | the whole new state as specified, for both terminal statuses |
| CallLifecycle.CallLifecycle.OnTimer | src/modules/calls/services/call-lifecycle.service.ts:353-393 | a fired timer runs the handler of its phase |
| CallLifecycle.CallLifecycle.CleanupCall | src/modules/calls/services/call-lifecycle.service.ts:478-492 | the delayed clean-up's whole new state |
| LifecycleTimes.AcceptArms | src/modules/calls/services/call-lifecycle.service.ts:171-187 | an accepted call is under exactly one timer, due exactly 15000 ms after the accept |
| LifecycleTimes.InitiateArms | src/modules/calls/services/call-lifecycle.service.ts:125-142 | a started call is under exactly one timer, due exactly after the positive ringing time given, else after 30000 ms |
| LifecycleTimes.EstablishArms | src/modules/calls/services/call-lifecycle.service.ts:192-227 | a connected call is under exactly one timer, due exactly 3600000 ms later |
| LifecycleTimes.RunKeepsTimer | src/modules/calls/services/call-lifecycle.service.ts:460-473 | in every run a call that is still in the same phase is still under the same timer: nothing renews or replaces it |
| LifecycleTimes.RingsExactly | src/modules/calls/services/call-lifecycle.service.ts:353-362 | in every run a ringing call fails by itself only at exactly its ringing time after its start |
| LifecycleTimes.ConnectsExactly | src/modules/calls/services/call-lifecycle.service.ts:367-376 | in every run a connecting call fails by itself only at exactly 15000 ms after its accept |
| LifecycleTimes.LastsExactly | src/modules/calls/services/call-lifecycle.service.ts:381-393 | in every run an active call ends by itself only at exactly 3600000 ms after it became active |
| LifecycleTimes.AcceptAnswers | src/modules/calls/controllers/calls.controller.ts:346-375 | the endpoint accepts exactly a participant of a ringing call, which then connects; otherwise nothing changes |
| LifecycleTimes.ParticipantsStay | src/modules/calls/services/call-state.service.ts:118-137 | the participants asked for there are those the call was started with |
| RateLimits.SlidingWindowGuarantee | src/redis/services/redis-cache.service.ts:327-365 | for all ascending arrivals, limits and windows, no half-open interval of one window's length holds more than maxRequests grants |
| RateLimits.RunKeepsWindow | src/redis/services/redis-cache.service.ts:327-365 | after any arrivals the log is exactly the grants of the last window and its TTL outlives each of them |
| RateLimits.CheckStep | src/redis/services/redis-cache.service.ts:327-365 | one check keeps that meaning of the log |
| RateLimits.TtlDropsNothing | src/redis/services/redis-cache.service.ts:356-358 | key expiry never drops an entry that would still count |
| RateLimits.GrantedIff | src/redis/services/redis-cache.service.ts:337-343 | a request is granted exactly when fewer than maxRequests earlier grants lie in the last window |
| RateLimits.ResetTimeExact | src/redis/services/redis-cache.service.ts:337-354 | after a denial every request strictly before resetTime is denied, and the next is granted exactly when it comes at or after it |
| RateLimits.FullIffBeforeReset | src/redis/services/redis-cache.service.ts:337-354 | the window stays full exactly until its oldest counted grant leaves it |
| RateLimits.RemainingExact | src/redis/services/redis-cache.service.ts:357-364 | of any further requests at the same instant exactly the reported remaining number is granted |
| RateLimits.GrantCountsUntilReset | src/redis/services/redis-cache.service.ts:357-364 | the reset time of a granted reply is exactly when its own entry stops counting |
| RateLimits.GrantedSorted | src/redis/services/redis-cache.service.ts:327-365 | the grants of a run are in ascending order, as the reset-time result needs |
| RateLimits.CounterMeaning | src/modules/auth/guards/rate-limit.guard.ts:120-135 | the counter is the number of arrivals since the last silence of a full window |
| RateLimits.CounterMeaningFromStart | src/modules/auth/guards/rate-limit.guard.ts:120-135 | the same from a missing key |
| RateLimits.GuardBound | src/modules/auth/guards/rate-limit.guard.ts:42-66 | between two silences of a full window the guard admits at most limit requests |
| RateLimits.GuardRemainingExact | src/modules/auth/guards/rate-limit.guard.ts:46-48 | of any further requests at the same instant exactly the number in the remaining header is admitted |
| RateLimits.RetryAfterExact | src/modules/auth/guards/rate-limit.guard.ts:42-66 | a refused client that waits is admitted exactly after a full silent window |
| RateLimits.GuardSimulatedByLog | src/modules/auth/guards/rate-limit.guard.ts:42-66 | on the same arrivals whatever the guard admits the sliding-window log grants too |
| RateLimits.GuardIsStricter | src/modules/auth/guards/rate-limit.guard.ts:120-135 | the converse fails: three arrivals where the log grants and the guard refuses |
| RateLimits.SlidingWindowKey.CheckRateLimit | src/redis/services/redis-cache.service.ts:327-365 | prune, count, add and expire give the specified log and verdict |
| RateLimits.GuardKey.CanActivate | src/modules/auth/guards/rate-limit.guard.ts:42-66 | decision and remaining header from the renewed counter |
| Lockout.LockoutBound | src/modules/auth/services/auth.service.ts:71-88 | in every stretch without a successful login n failed password checks over time T satisfy n <= 5 + T / 15 min |
| Lockout.BoundIsTight | src/modules/auth/services/auth.service.ts:300-323 | for every k a run reaches 5 + k failures in exactly k lockouts |
| Lockout.RunConsistent | src/modules/auth/services/auth.service.ts:300-323 | in every run the counter is the failures logged since the last logged success, each failure from the fifth on is logged as a lock, and lockedUntil is set exactly when the counter is at least 5 |
| Lockout.LoginAnswers | src/modules/auth/services/auth.service.ts:71-88 | a correct password logs in exactly when no lock time lies ahead, and clears the counter; a rejected device changes nothing and does not log in; which of the four answers each attempt gets |
| Lockout.FifthWrongLocks | src/modules/auth/services/auth.service.ts:300-323 | in every run, after a success four wrong passwords lock nothing and the fifth locks out every attempt until exactly 15 minutes later |
| Lockout.SuccessClears | src/modules/auth/services/auth.service.ts:235-249 | in every run a success leaves counter 0 and no lock time |
| Lockout.LoginLogs | src/modules/auth/services/auth.service.ts:235-323 | every failure is logged, locks from the fifth on, a success exactly when it cleared a failure, and nothing else |
| Lockout.CounterCountsFailures | src/modules/auth/services/auth.service.ts:209-233 | without a success the counter grows by exactly the processed failures |
| Lockout.FailureBound | src/modules/auth/services/auth.service.ts:198-207 | the bound from any consistent account, by the failures it has left |
| Lockout.LockedBound | src/modules/auth/services/auth.service.ts:204-207 | a locked account fails at most once per lockout |
| Lockout.UserSecurity.TryLogin | src/modules/auth/services/auth.service.ts:71-88 | the sequence of login: lock check, password check, device registration, reset |
| MessageCache.CacheRefinesFullLog | src/redis/services/redis-cache.service.ts:59-71 | after any additions to an empty cache it is the last 100 entries of the untrimmed log |
| MessageCache.CacheHoldsGreatest | src/redis/services/redis-cache.service.ts:59-71 | equivalently: the 100 greatest of all messages ever added by score then member, or all if fewer |
| MessageCache.ReadNeverGetsLater | src/redis/services/redis-cache.service.ts:76-84 | along every read, whatever the limit, sending times never increase |
| MessageCache.DroppedAreOldest | src/redis/services/redis-cache.service.ts:66-67 | no dropped message was sent later than a kept one, and messages are dropped only when 100 are kept |
| MessageCache.FullLogIsSortedSet | src/redis/services/redis-cache.service.ts:60-64 | the untrimmed log is the ascending list of all distinct messages |
| MessageCache.TrimThenAdd | src/redis/services/redis-cache.service.ts:60-67 | trimming before an addition loses nothing a later trim would keep |
| MessageCache.ReadsNewestFirst | src/redis/services/redis-cache.service.ts:76-84 | for a positive limit a read is the newest-first prefix of the untrimmed log of length min(limit, 100, size) |
| MessageCache.ReadsNewestFirstIff | src/redis/services/redis-cache.service.ts:76-84 | exactly when that holds: the limit is positive or its negation is at least the cache size |
| MessageCache.ReadForAnyLimit | src/redis/services/redis-cache.service.ts:76-84 | what a read returns for each limit, zero and negative ones included |
| MessageCache.ZeroLimitReadsAll | src/redis/services/redis-cache.service.ts:76-84 | a read with limit 0 returns the whole cache |
| MessageCache.CacheKey.AddMessageToCache | src/redis/services/redis-cache.service.ts:59-71 | add, trim and expire leave the last 100 of everything added |
| MessageCache.CacheKey.GetCachedMessages | src/redis/services/redis-cache.service.ts:76-84 | for every limit the newest-first prefix of the cache of the exact length, which for a positive limit is that of the untrimmed log |
| OfflineDelivery.ExactlyOnce | src/socket/services/message-queue.service.ts:34-140 | in every run the socket index is inverse, online users have empty queues, and each user's reversed batches then reversed queue are the messages sent while offline, in send order |
| OfflineDelivery.OnlineUserHasAll | src/socket/services/message-queue.service.ts:101-140 | from the start, a user who is online has been handed exactly the missed messages, and each was confirmed once |
| OfflineDelivery.StepGood | src/socket/gateways/chat.gateway.ts:261-398 | each event keeps index, queues and confirmations, and accounts for exactly the messages it makes a user miss |
| OfflineDelivery.ConnectGood | src/socket/gateways/chat.gateway.ts:261-351 | connecting delivers without changing what was received or waits |
| OfflineDelivery.DisconnectGood | src/socket/gateways/chat.gateway.ts:361-398 | disconnecting a socket keeps the index inverse, with no empty set left |
| OfflineDelivery.SendReceived | src/socket/gateways/chat.gateway.ts:1563-1596 | a message is queued for exactly the offline participants other than the sender |
| OfflineDelivery.OnlineIff | src/socket/gateways/chat.gateway.ts:2720-2723 | online, present in the index, and owning a socket are the same |
| OfflineDelivery.AckKeepsReceivedIff | src/socket/services/message-queue.service.ts:117-135 | an acknowledgement loses nothing exactly when the queue is empty when it is taken |
| OfflineDelivery.LateAckLosesMessage | src/socket/services/message-queue.service.ts:117-135 | a run from the start: miss m, connect and be sent it, disconnect, miss n; the acknowledgement of the first batch, taken then, deletes n undelivered |
| OfflineDelivery.BatchInSendOrderIff | src/socket/services/message-queue.service.ts:106-118 | at every connection of every run the new batch is what was missed since the last one, newest first; it is in send order exactly when it reads the same backwards, for different messages exactly when there is at most one |
| OfflineDelivery.TwoMissedComeReversed | src/socket/services/message-queue.service.ts:34-49 | a run of two missed messages whose batch is in the wrong order |
| OfflineDelivery.Gateway.HandleConnection | src/socket/gateways/chat.gateway.ts:261-351 | maps, batches, confirmations and queues as specified |
| OfflineDelivery.Gateway.SendDeliveryConfirmations | src/socket/gateways/chat.gateway.ts:1524-1555 | the loop confirms each queued message once, then the queue is gone |
| OfflineDelivery.Gateway.HandleDisconnect | src/socket/gateways/chat.gateway.ts:361-398 | both maps as specified, the user's entry going with the last socket |
| OfflineDelivery.Gateway.QueueForOfflineParticipants | src/socket/gateways/chat.gateway.ts:1563-1596 | the loop queues for exactly the specified users |
| ChunkSession.RunAgrees | src/redis/services/redis-chunk-session.service.ts:156-317 | in every run of the two scripts with chunk numbers below the total, progress expiries included, sets, hashes and session agree |
| ChunkSession.ReadersAgree | src/redis/services/redis-chunk-session.service.ts:322-543 | the cached percentage is in 0..100 and is 100 exactly when the session is complete; isComplete agrees while the progress hash lives; getSessionProgress exceeds it by 0 or 1 |
| ChunkSession.CreatedAgrees | src/redis/services/redis-chunk-session.service.ts:26-114 | a new session starts in agreement |
| ChunkSession.CreateAnswers | src/redis/services/redis-chunk-session.service.ts:26-60 | a session is created exactly when all sizes are positive and the chunk count is within one of the number of chunks the file needs; otherwise nothing changes |
| ChunkSession.ScriptAnswers | src/redis/services/redis-chunk-session.service.ts:156-317 | which answer both scripts give for which input, and which of them changed nothing |
| ChunkSession.ReportIsOfMarks | src/redis/services/redis-chunk-session.service.ts:322-339 | in every run on a new session the chunks reported failed are exactly those last marked failed, and while the progress hash lives the number reported completed is that of the chunks last marked uploaded |
| ChunkSession.NothingStoredNothingDone | src/redis/services/redis-chunk-session.service.ts:322-339 | without the stored hashes the readers report nothing done |
| ChunkSession.CompleteIffAllUploaded | src/redis/services/redis-chunk-session.service.ts:492-504 | counting is enough: complete exactly when every single chunk below the total is uploaded |
| ChunkSession.PercentageMeaning | src/redis/services/redis-chunk-session.service.ts:190-193 | the floor percentage is within 0..100 and is 100 exactly at full count |
| ChunkSession.RoundVersusFloor | src/redis/services/redis-chunk-session.service.ts:528-530 | the rounded percentage is the floored one or one more |
| ChunkSession.ShownPercentages | src/redis/services/redis-chunk-session.service.ts:190-193 | the cached percentage is the greatest whole one not above count / total, the shown one the nearest |
| ChunkSession.LastMarkDecides | src/redis/services/redis-chunk-session.service.ts:156-317 | in every run each chunk is in the set its last mark names and in no other, and the session carries the last error text given |
| ChunkSession.CompletedAgreesIff | src/redis/services/redis-chunk-session.service.ts:166-208 | the script's precondition: marking chunk n keeps agreement exactly when n is below the total |
| ChunkSession.UploadsAgree | src/modules/files/services/chunk-upload.service.ts:165-252 | through the upload endpoint, which checks chunk numbers, every run of any requests keeps the stores in agreement and never loses an uploaded chunk |
| ChunkSession.UploadKeepsAgreement | src/modules/files/services/chunk-upload.service.ts:188-229 | one request establishes that precondition, and uploads a chunk exactly when it was missing, is one of the session's and its data was stored |
| ChunkSession.OutOfRangeChunkCompletes | src/redis/services/redis-chunk-session.service.ts:166-208 | why the endpoint's check is needed: the script alone would let one out-of-range chunk complete a one-chunk upload |
| ChunkSession.ExpiredProgressNeverComplete | src/redis/services/redis-chunk-session.service.ts:322-339 | once the progress hash has expired getProgress never reports completion again |
| ChunkSession.BatchIsFold | src/redis/services/redis-chunk-session.service.ts:634-669 | a batch leaves both sets as marking completed then failed chunks one by one would, overlaps included, and keeps them disjoint |
| ChunkSession.BatchKeepsCountIff | src/redis/services/redis-chunk-session.service.ts:634-669 | after a batch the cached count is right exactly when it uploads as many new chunks as it takes back |
| ChunkSession.ChunkStore.Create | src/redis/services/redis-chunk-session.service.ts:26-114 | keys and outcome, the size checks included |
| ChunkSession.ChunkStore.MarkChunkCompleted | src/redis/services/redis-chunk-session.service.ts:156-228 | keys and outcome, the script error on a missing total included |
| ChunkSession.ChunkStore.MarkChunkFailed | src/redis/services/redis-chunk-session.service.ts:233-317 | keys and outcome as specified |
| ChunkSession.ChunkStore.BatchUpdateChunks | src/redis/services/redis-chunk-session.service.ts:634-669 | the loops of the pipeline compute the specified sets |
| IceLine.RoundTrip | src/socket/gateways/chat.gateway.ts:3656-3683 | a line printed by the grammar of RFC 8839, section 5.1 is parsed back to its foundation, transport, priority, address, port and type, whatever the object that carries it said before |
| IceLine.FilterSameOnEnhanced | src/socket/gateways/chat.gateway.ts:3688-3765 | for a candidate without a preset address, parsing first or letting the filter parse gives one verdict |
| IceLine.FilterReadsAddress | src/socket/gateways/chat.gateway.ts:3688-3765 | on a printed line the verdict depends on the address alone |
| IceLine.NoDotFiltered | src/socket/gateways/chat.gateway.ts:3721-3765 | the gateway holds back an address without a dot, IPv6 in particular, exactly when it is blank, the word undefined or null, or ::1 |
| IceLine.LocalNameForwarded | src/socket/gateways/chat.gateway.ts:3733-3765 | a name of one label and .local, with which browsers hide addresses, is never held back |
| IceLine.ClientOnNoDot | test-app/voice-call-service.js:1745-1808 | the client throws such an address away exactly when it is blank, ::1, or its port is reserved |
| IceLine.ClientOnLocalName | test-app/voice-call-service.js:1745-1808 | and such a name exactly for a reserved port |
| IceLine.QuadFiltered | src/socket/gateways/chat.gateway.ts:3733-3755 | on IPv4 addresses the text tests mean exactly 172.16.0.0/12, 169.254.0.0/16 and 127.0.0.1 |
| IceLine.QuadPrefix172 | src/socket/gateways/chat.gateway.ts:3733-3743 | the text prefix test holds exactly for first octet 172 |
| IceLine.QuadPrefix169254 | src/socket/gateways/chat.gateway.ts:3745-3749 | the text prefix test holds exactly for 169.254 |
| IceLine.ClientCoversGateway | test-app/voice-call-service.js:1745-1808 | whatever the gateway holds back the client would throw away, addresses or none, except the addresses spelled undefined and null |
| IceLine.ClientOnQuads | test-app/voice-call-service.js:1745-1808 | on well-formed IPv4 lines the client's verdict is the gateway's plus the reserved-port rule |
| IceLine.ThrownAwayIff | src/socket/gateways/chat.gateway.ts:3383-3402 | along the whole way from one client through the gateway to the other: a kept and forwarded candidate is thrown away exactly for its parsed port, or for a 172. address that has not four fields |
| IceLine.ThrownAwayOnQuads | src/socket/gateways/chat.gateway.ts:3383-3402 | for a well-formed IPv4 line: exactly when the sender's object shows no bad route, the address is not blocked and the line's port is reserved |
| IceLine.ShownOrHiddenAddress | test-app/voice-call-service.js:1690-1740 | an object that shows its line's own address and port is never thrown away after sending; one that hides its address is, exactly for an unblocked address with a reserved port |
| Text.SplitJoin | src/socket/gateways/chat.gateway.ts:3663-3664 | splitting inverts joining for parts without the separator |
| Text.ParsePrinted | src/socket/gateways/chat.gateway.ts:3674-3677 | parseInt reads back every printed number |
| Text.ParseFront | src/socket/gateways/chat.gateway.ts:3737-3740 | parseInt reads a number, signed or not, at the front of a text and stops at the first non-digit |
| Text.ParseHex | src/socket/gateways/chat.gateway.ts:3737-3740 | parseInt reads hexadecimal digits after 0x |
| Text.NoNumber | src/socket/gateways/chat.gateway.ts:3737-3740 | parseInt finds no number in a text that starts with neither digit, sign nor white space |
| RemoteIce.EveryCandidateOnce | test-app/voice-call-service.js:1590-1684 | under every interleaving of receives, flushes and results the k-th candidate received, read off the events, is in exactly one of applied, queued, held by a flush, awaited by its handler, or dropped, and there once, exactly when it is usable; nothing else is anywhere; none is applied before a remote description; the second filtering loses none |
| RemoteIce.HeldByOneFlush | test-app/voice-call-service.js:1953-2034 | no candidate is held by two concurrent flushes |
| RemoteIce.QuietMeansApplied | test-app/voice-call-service.js:1953-2034 | without errors, once nothing waits, exactly the usable candidates received have been applied, once each |
| RemoteIce.DropsIff | test-app/voice-call-service.js:1665-1684 | exactly which settled adds lose a candidate: the cannot-add text queues it again from the handler and loses it from a flush |
| RemoteIce.StepGood | test-app/voice-call-service.js:1590-1684 | every step between two awaits keeps the conservation invariant |
| RemoteIce.ReceiveGood | test-app/voice-call-service.js:1590-1646 | a received candidate is queued exactly when it is usable and there is no description yet, and awaited by its handler exactly when it is usable and there is one |
| RemoteIce.OrdinaryCandidatePlacedIff | test-app/voice-call-service.js:1611-1646 | a forwarded candidate of a well-formed IPv4 line is queued, or awaited once a description is set, exactly when its address is not blocked and its port not reserved |
| RemoteIce.BlankLineIsIgnored | test-app/voice-call-service.js:1611-1620 | a missing, empty or all-blank line leaves the candidate nowhere |
| RemoteIce.DirectDonePlaces | test-app/voice-call-service.js:1646-1684 | after the handler's add settles its candidate is applied exactly on success, queued again exactly on the two description texts, dropped exactly on any other error, and nowhere else |
| RemoteIce.FlushTakesAll | test-app/voice-call-service.js:1953-1965 | a flush takes everything that waits, in order, exactly when a description is set |
| RemoteIce.FlushNextGood | test-app/voice-call-service.js:1967-1981 | the flush's repeated filtering never skips a queued candidate |
| RemoteIce.FlushDoneGood | test-app/voice-call-service.js:1981-2015 | after an add settles the current candidate is applied exactly on success, queued again exactly on the null-description text, dropped exactly on any other error, and nowhere else |
| RemoteIce.VoiceCall.HandleIceCandidate | test-app/voice-call-service.js:1590-1646 | validation, filtering and queueing up to the await |
| RemoteIce.VoiceCall.OnDirectDone | test-app/voice-call-service.js:1646-1684 | the continuation and the catch block |
| RemoteIce.VoiceCall.OnFlushDone | test-app/voice-call-service.js:1981-2015 | the rest of the iteration, catch block included |
| LocalIce.SentInOrder | test-app/voice-call-service.js:1308-1342 | without a crossing incoming call the candidates sent then those queued are the unfiltered ones in generation order, and none waits once there is a call id |
| LocalIce.RunOrder | test-app/voice-call-service.js:276-286 | the same from any orderly state |
| LocalIce.StepGoodIff | test-app/voice-call-service.js:1430 | taking over a call id keeps the queue discipline exactly when it does not cross waiting candidates |
| LocalIce.SentUnderNamedIds | test-app/voice-call-service.js:2039-2076 | nothing is sent without a call id, and only under ids the server named |
| LocalIce.IdIsTaken | test-app/voice-call-service.js:276-286 | after either message from the server its id is in use and the next passing candidate is sent at once under it |
| LocalIce.WaitsWithoutId | test-app/voice-call-service.js:1330-1336 | without an id a passing candidate waits as the last, a filtered one is forgotten, and a flush does nothing |
| LocalIce.CrossingOvertakes | test-app/voice-call-service.js:1430 | a crossing incoming call makes a later candidate overtake a queued one, and both go to the incoming call |
| LocalIce.VoiceCall.FlushIceCandidateQueue | test-app/voice-call-service.js:2039-2076 | the loop sends the queue in order under the current id and empties it |
| LocalIce.VoiceCall.OnCallInitiated | test-app/voice-call-service.js:276-286 | takes the id and flushes |
| Typing.LiveTimersAreTracked | src/socket/gateways/chat.gateway.ts:1783-1870 | in every run the live timers are exactly the values of userTypingTimeouts, one per user at most, each named by a shown indicator of its user |
| Typing.StepGood | src/socket/gateways/chat.gateway.ts:1783-1936 | every start, stop, send, expiry and disconnect keeps timers, tracking and indicators in step |
| Typing.DisconnectClears | src/socket/gateways/chat.gateway.ts:1917-1936 | after clearAllUserTyping the user has no indicator and no timer, and every other user's are as before |
| Typing.StartRenews | src/socket/gateways/chat.gateway.ts:1796-1815 | typing shows the indicator under a timer due exactly 5000 ms later, the user's only one |
| Typing.StopHides | src/socket/gateways/chat.gateway.ts:1817-1870 | stopping takes exactly that indicator away, and every timer of the user |
| Typing.StartKeepsTimedIff | src/socket/gateways/chat.gateway.ts:1796-1815 | starting to type keeps every indicator under a live timer exactly when the user has none in another conversation |
| Typing.StopKeepsTimedIff | src/socket/gateways/chat.gateway.ts:1817-1820 | the same exact condition for stopping |
| Typing.ClearKeepsTimedIff | src/socket/gateways/chat.gateway.ts:1832-1870 | the same exact condition for clearUserTyping |
| Typing.IndicatorsAreFresh | src/socket/gateways/chat.gateway.ts:1804-1806 | while users type in one conversation at a time no indicator is shown longer than the timeout |
| Typing.StaleForever | src/socket/gateways/chat.gateway.ts:1860-1865 | an indicator that lost its timer stays until its user acts in that conversation or disconnects |
| Typing.SecondConversationStrands | src/socket/gateways/chat.gateway.ts:1796-1815 | typing in a second conversation strands the first indicator |
| Typing.ExpireIsClear | src/socket/gateways/chat.gateway.ts:1804-1806 | a fired timer's callback has exactly the effect of clearUserTyping |
| Typing.StopLeavesEmptyIff | src/socket/gateways/chat.gateway.ts:1790-1792 | stopping leaves no empty conversation map exactly when the conversation was already known |
| Typing.OthersLeaveNoEmpty | src/socket/gateways/chat.gateway.ts:1842-1845 | no other step leaves an empty conversation map |
| Typing.ChatGateway.SetUserTyping | src/socket/gateways/chat.gateway.ts:1783-1825 | maps and timers as specified |
| Typing.ChatGateway.ClearUserTyping | src/socket/gateways/chat.gateway.ts:1832-1870 | maps and timers as specified |
| Typing.ChatGateway.OnTimer | src/socket/gateways/chat.gateway.ts:1804-1806 | the timer callback |
| Typing.ChatGateway.ClearAllUserTyping | src/socket/gateways/chat.gateway.ts:1917-1936 | the loop over conversations computes the specified clearing, in any order |
| Typing.ChatGateway.ClearConversations | src/socket/gateways/chat.gateway.ts:1919-1924 | the loop alone |
| Batching.DeliveryIsConserved | src/socket/services/message-optimization.service.ts:54-121 | in every run a conversation's delivered batches then its pending batch are exactly the updates added for it, in order |
| Batching.ReadFlushesEmitRounds | src/socket/services/message-optimization.service.ts:73-156 | with ids free of colons each read flush emits for a pair the ids added since the last flush, duplicate-free in first-seen order, and the rest is pending |
| Batching.DedupMeaning | src/socket/services/message-optimization.service.ts:83-84 | deduplication keeps exactly the same ids, each once, in the order first seen |
| Batching.DedupMerge | src/socket/services/message-optimization.service.ts:83-84 | merging into a deduplicated list is deduplicating everything at once |
| Batching.TargetIff | src/socket/services/message-optimization.service.ts:133 | a receipt is emitted for the pair it was added for exactly when neither id contains a colon |
| Batching.KeysClash | src/socket/services/message-optimization.service.ts:75 | with colons two pairs share one list |
| Batching.ColonMisdirects | src/socket/services/message-optimization.service.ts:126-156 | with a colon a receipt goes to a pair nobody added it for |
| Batching.CounterIsEmitted | src/socket/services/message-optimization.service.ts:114-146 | without reset processedCounter is the number of updates and ids emitted |
| Batching.StatusAddsUp | src/socket/services/message-optimization.service.ts:370-389 | in every run, read receipts included, the updates emitted plus those waiting are those added |
| Batching.ReportedStatusAddsUp | src/socket/services/message-optimization.service.ts:370-389 | so the reported total, less the read ids emitted, plus the reported waiting updates is the number of updates added |
| Batching.DeliveryEmitted | src/socket/services/message-optimization.service.ts:97-121 | a delivery flush emits for a conversation exactly its pending list |
| Batching.MessageOptimizationService.AddDeliveryUpdate | src/socket/services/message-optimization.service.ts:54-68 | appends to the conversation's list |
| Batching.MessageOptimizationService.AddReadReceipt | src/socket/services/message-optimization.service.ts:73-92 | merges into the pair's list without duplicates |
| Batching.MessageOptimizationService.FlushDeliveryBatch | src/socket/services/message-optimization.service.ts:97-121 | emissions, counter and cleared batch as specified |
| Batching.MessageOptimizationService.FlushReadBatch | src/socket/services/message-optimization.service.ts:126-156 | emissions, counter and cleared batch as specified |
| Batching.MessageOptimizationService.GetProcessingStatus | src/socket/services/message-optimization.service.ts:370-389 | the two sums, activity and the counter |

## Left out

- Redis, MongoDB and network failures: every store operation succeeds, so the guard's fail-open path and the services'
  catch blocks that only log are not modelled; the client's ICE errors are.
- Races between awaits inside one server operation: operations are atomic here, the code takes no locks.
- Expiry of Redis keys, except in the two rate limiters, of the progress hash, and in `CallExpiry`. The safety results of
  `CallProtocol` and `CallDetails` are about runs in which the keys of live calls and their users do not expire.
- Mixing the REST call path with the WebRTC path on one call.
- Call durations and the timestamps of the WebRTC path, media and ICE keys, renegotiation, group calls and call rooms.
- The rate-limit key, endpoint table and health bypass of the guard, and its headers other than the remaining count.
- `removeQueuedMessage` and the retry queue of the message queue service, which the delivery paths do not use.
- The owner, size and checksum checks of the upload endpoint, which refuse a chunk without touching the stores, and the
  resumption of cancelled sessions.
- Presence, device registration and its limit, real-time state, download tokens, last-message cache: only thin layers.
- Password hashing and tokens: what the password check says is an input of `Lockout`.
- `resetProcessedCounter`, the interval timers that trigger flushes, and Redis persistence of batch entries.
- In `RemoteIce` and `LocalIce`: clean-up and a missing peer connection (both modules cover one call), and log output.
- Socket acknowledgements carry no identity in `OfflineDelivery`: one is taken for a user, as the code does.
- Text is ASCII as far as white space goes: other Unicode spaces that trim and parseInt skip are not.
- Rounding of floating-point percentages, and JavaScript timer delays beyond 2^31 - 1 ms.
- Broadcasts of typing indicators and their listing for late joiners: they only read the maps modelled here.
