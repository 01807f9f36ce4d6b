/** The WebRTC call protocol: WebRTCSignalingService, CallStateService and the gateway's ring timer
    and disconnect clean-up, as one state machine over their shared stores.

    Every service operation is one atomic step. Redis key expiry is not modelled. */
module CallProtocol {

  type UserId = string
  type CallId = string

  datatype CallStatus = Initiating | Active | Ended
  datatype MemberStatus = Invited | Joined | Declined | Left

  /** The Mongo document of a call. `endReason` is empty until the call ends. */
  datatype CallRecord = CallRecord(
    initiatorId: UserId, members: map<UserId, MemberStatus>, status: CallStatus, endReason: string)

  /** The value of the Redis key `call:active:<id>`. */
  datatype ActiveCall = ActiveCall(status: CallStatus, initiatorId: UserId, participants: seq<UserId>)

  /** The value of `call:user:<id>`; an idle user has no such key. */
  datatype Phase = Dialing | Ringing | InCall
  datatype UserStatus = UserStatus(phase: Phase, currentCallId: CallId)

  /** The value of `call:signaling:<id>`. */
  datatype Signaling = Signaling(callerId: UserId, targetId: UserId, status: CallStatus, acceptedBy: set<UserId>)

  /** The stores. `userActive` holds the pairs (u, c) with c in the Redis set `call:user_active:<u>`;
      `timers` maps each call with an armed ring timer to the caller the timer was armed for. */
  datatype State = State(
    records: map<CallId, CallRecord>,
    active: map<CallId, ActiveCall>,
    userStatus: map<UserId, UserStatus>,
    userActive: set<(UserId, CallId)>,
    signaling: map<CallId, Signaling>,
    timers: map<CallId, UserId>)

  datatype Outcome = Done | SelfCall | CallerBusy | TargetBusy | NotParticipant | NotInitiating | NoSignaling
  datatype Reply = Reply(state: State, outcome: Outcome)

  const Empty := State(map[], map[], map[], {}, map[], map[])

  // ---------------------------------------------------------------- operations

  function SetStatus(s: State, u: UserId, phase: Phase, c: CallId): State {
    s.(userStatus := s.userStatus[u := UserStatus(phase, c)])
  }

  function Users(participants: seq<UserId>): set<UserId> {
    set u | u in participants
  }

  /** The calls listed in a user's active-call set. */
  function ActiveCallsOf(s: State, u: UserId): set<CallId> {
    set p | p in s.userActive && p.0 == u :: p.1
  }

  /** CallStateService.endCall: every participant becomes idle, the active-call key goes. */
  function EndCall(s: State, c: CallId): State {
    if c !in s.active then s
    else
      var users := Users(s.active[c].participants);
      s.(userStatus := s.userStatus - users,
      userActive := (set p | p in s.userActive && !(p.0 in users && p.1 == c)),
      active := s.active - {c})
  }

  /** WebRTCSignalingService.cleanupCallState. */
  function CleanupCall(s: State, c: CallId): State {
    var t := EndCall(s, c);
    t.(signaling := t.signaling - {c})
  }

  function Initiate(s: State, caller: UserId, target: UserId, c: CallId): Reply {
    if caller == target then Reply(s, SelfCall)
    else if caller in s.userStatus then Reply(s, CallerBusy)
    else if target in s.userStatus then Reply(s, TargetBusy)
    else
      var r := CallRecord(caller, map[caller := Joined, target := Invited], Initiating, "");
      Reply(State(
              s.records[c := r],
              s.active[c := ActiveCall(Initiating, caller, [caller, target])],
              s.userStatus[caller := UserStatus(Dialing, c)][target := UserStatus(Ringing, c)],
              s.userActive + {(caller, c)},
              s.signaling[c := Signaling(caller, target, Initiating, {})],
              s.timers[c := caller]), Done)
  }

  predicate IsMember(s: State, user: UserId, c: CallId) {
    c in s.records && user in s.records[c].members
  }

  /** acceptCall: the record turns active before the signaling key is looked up, so a missing key
      leaves the record changed although the caller sees an error. */
  function Accept(s: State, user: UserId, c: CallId): Reply {
    if !IsMember(s, user, c) then Reply(s, NotParticipant)
    else if s.records[c].status != Initiating then Reply(s, NotInitiating)
    else
      var r := s.records[c];
      var records := s.records[c := r.(status := Active, members := r.members[user := Joined])];
      if c !in s.signaling then Reply(s.(records := records), NoSignaling)
      else
        Reply(State(
                records,
                if c in s.active then s.active[c := s.active[c].(status := Active)] else s.active,
                s.userStatus[r.initiatorId := UserStatus(InCall, c)][user := UserStatus(InCall, c)],
                s.userActive,
                s.signaling[c := s.signaling[c].(status := Active, acceptedBy := {user})],
                s.timers - {c}), Done)
  }

  /** The common part of declineCall and hangupCall: the record ends whatever its status was. */
  function Finish(s: State, user: UserId, c: CallId, member: MemberStatus, reason: string): Reply {
    if !IsMember(s, user, c) then Reply(s, NotParticipant)
    else
      var r := s.records[c];
      var ended := r.(status := Ended, members := r.members[user := member], endReason := reason);
      var t := CleanupCall(s.(records := s.records[c := ended]), c);
      Reply(t.(timers := t.timers - {c}), Done)
  }

  function Decline(s: State, user: UserId, c: CallId): Reply {
    Finish(s, user, c, Declined, "declined")
  }

  function Hangup(s: State, user: UserId, c: CallId, reason: string): Reply {
    Finish(s, user, c, Left, if reason == "" then "completed" else reason)
  }

  /** The ring timer: only a call whose active key still says initiating is hung up. */
  function RingTimeout(s: State, c: CallId): State
    requires c in s.timers
  {
    var t := if c in s.active && s.active[c].status == Initiating
             then Hangup(s, s.timers[c], c, "timeout").state else s;
    t.(timers := t.timers - {c})
  }

  function Without(participants: seq<UserId>, user: UserId): (rest: seq<UserId>)
    ensures Users(rest) == Users(participants) - {user}
    ensures |rest| <= |participants|
    ensures user in participants ==> |rest| < |participants|
  {
    assert participants != [] ==> Users(participants) == {participants[0]} + Users(participants[1..]) by {
      if participants != [] { assert participants == [participants[0]] + participants[1..]; }
    }
    if participants == [] then []
    else if participants[0] == user then Without(participants[1..], user)
    else
      var tail := Without(participants[1..], user);
      assert Users([participants[0]] + tail) == {participants[0]} + Users(tail);
      [participants[0]] + tail
  }

  function RemoveParticipant(s: State, c: CallId, user: UserId): State {
    if c !in s.active then s
    else
      s.(active := s.active[c := s.active[c].(participants := Without(s.active[c].participants, user))],
      userStatus := s.userStatus - {user},
      userActive := s.userActive - {(user, c)})
  }

  /** One iteration of the gateway's cleanupUserCallState. */
  function LeaveCall(s: State, user: UserId, c: CallId): State {
    var t := RemoveParticipant(s.(timers := s.timers - {c}), c, user);
    if c in t.active && |t.active[c].participants| <= 1 then EndCall(t, c) else t
  }

  function LeaveCalls(s: State, user: UserId, calls: seq<CallId>): State {
    if calls == [] then s
    else LeaveCall(LeaveCalls(s, user, calls[..|calls|-1]), user, calls[|calls|-1])
  }

  // ---------------------------------------------------------------- runs

  datatype Event =
    | InitiateE(caller: UserId, target: UserId, callId: CallId)
    | AcceptE(user: UserId, callId: CallId)
    | DeclineE(user: UserId, callId: CallId)
    | HangupE(user: UserId, callId: CallId, reason: string)
    | RingTimeoutE(callId: CallId)
    | DisconnectE(user: UserId, calls: seq<CallId>)

  /** Call ids are fresh, only armed timers fire, and a disconnect sees one enumeration of the user's set. */
  predicate Enabled(s: State, e: Event) {
    match e
    case InitiateE(_, _, c) => c !in s.records
    case RingTimeoutE(c) => c in s.timers
    case DisconnectE(u, calls) => (set c | c in calls) == ActiveCallsOf(s, u)
    case _ => true
  }

  function Step(s: State, e: Event): State
    requires Enabled(s, e)
  {
    match e
    case InitiateE(caller, target, c) => Initiate(s, caller, target, c).state
    case AcceptE(u, c) => Accept(s, u, c).state
    case DeclineE(u, c) => Decline(s, u, c).state
    case HangupE(u, c, reason) => Hangup(s, u, c, reason).state
    case RingTimeoutE(c) => RingTimeout(s, c)
    case DisconnectE(u, calls) => LeaveCalls(s, u, calls)
  }

  ghost predicate Run(s: State, events: seq<Event>, t: State)
    decreases |events|
  {
    if events == [] then s == t
    else Enabled(s, events[0]) && Run(Step(s, events[0]), events[1..], t)
  }

  // ---------------------------------------------------------------- safety

  predicate InCallWith(s: State, u: UserId, c: CallId) {
    c in s.active && u in s.active[c].participants
  }

  ghost predicate DisjointCalls(s: State) {
    forall c, d, u :: InCallWith(s, u, c) && InCallWith(s, u, d) ==> c == d
  }

  ghost predicate ParticipantsBusy(s: State) {
    forall c, u :: InCallWith(s, u, c) ==> u in s.userStatus
  }

  ghost predicate ActiveSetsSound(s: State) {
    forall u, c :: (u, c) in s.userActive ==> InCallWith(s, u, c) && s.active[c].initiatorId == u
  }

  /** A live call still has both its members, and its key and its record agree. */
  predicate LiveCallSound(s: State, c: CallId)
    requires c in s.active
  {
    var a := s.active[c];
    && c in s.records
    && a.status == s.records[c].status
    && a.status != Ended
    && |a.participants| == 2
    && a.participants[0] == a.initiatorId == s.records[c].initiatorId
    && a.participants[0] != a.participants[1]
    && s.records[c].members.Keys == {a.participants[0], a.participants[1]}
    && (a.initiatorId, c) in s.userActive
    && (a.status == Initiating ==> c in s.timers && s.timers[c] == a.initiatorId)
  }

  /** Who is in which live call, and what the users' own keys say about it. */
  ghost predicate CallsSafe(s: State) {
    DisjointCalls(s) && ParticipantsBusy(s) && ActiveSetsSound(s)
  }

  ghost predicate LiveCallsSound(s: State) {
    forall c :: c in s.active ==> LiveCallSound(s, c)
  }

  predicate RecordSound(s: State, c: CallId)
    requires c in s.records
  {
    && s.records[c].initiatorId in s.records[c].members
    && (s.records[c].status == Initiating ==> c in s.signaling)
  }

  ghost predicate RecordsSound(s: State) {
    && (forall c :: c in s.records ==> RecordSound(s, c))
    && (forall c :: c in s.timers ==> c in s.records && s.timers[c] in s.records[c].members)
  }

  ghost predicate Safe(s: State) {
    CallsSafe(s) && LiveCallsSound(s) && RecordsSound(s)
  }

  lemma InitiateCallsSafe(s: State, caller: UserId, target: UserId, c: CallId)
    requires CallsSafe(s) && c !in s.active && Initiate(s, caller, target, c).outcome == Done
    ensures CallsSafe(Initiate(s, caller, target, c).state)
    ensures forall u, d :: InCallWith(Initiate(s, caller, target, c).state, u, d)
                           <==> InCallWith(s, u, d) || (d == c && (u == caller || u == target))
  {
    var t := Initiate(s, caller, target, c).state;
    assert t.active[c].participants == [caller, target];
    forall u, d ensures InCallWith(t, u, d) <==> InCallWith(s, u, d) || (d == c && (u == caller || u == target)) {}
    assert !(exists d :: InCallWith(s, caller, d) || InCallWith(s, target, d));
    assert DisjointCalls(t);
    forall u, d | (u, d) in t.userActive ensures InCallWith(t, u, d) && t.active[d].initiatorId == u {
      if (u, d) != (caller, c) { assert InCallWith(s, u, d); }
    }
  }

  lemma InitiateRecordsSound(s: State, caller: UserId, target: UserId, c: CallId)
    requires LiveCallsSound(s) && RecordsSound(s) && c !in s.records
    requires Initiate(s, caller, target, c).outcome == Done
    ensures LiveCallsSound(Initiate(s, caller, target, c).state)
    ensures RecordsSound(Initiate(s, caller, target, c).state)
  {
    var t := Initiate(s, caller, target, c).state;
    NewCallSound(s, caller, target, c);
    forall d | d in t.active && d != c ensures LiveCallSound(t, d) { assert LiveCallSound(s, d); }
    forall d | d in t.records && d != c ensures RecordSound(t, d) { assert RecordSound(s, d); }
  }

  lemma NewCallSound(s: State, caller: UserId, target: UserId, c: CallId)
    requires Initiate(s, caller, target, c).outcome == Done
    ensures var t := Initiate(s, caller, target, c).state;
            c in t.active && LiveCallSound(t, c) && c in t.records && RecordSound(t, c)
  {
    assert Initiate(s, caller, target, c).state.active[c].participants == [caller, target];
  }

  lemma InitiateSafe(s: State, caller: UserId, target: UserId, c: CallId)
    requires Safe(s) && c !in s.records
    ensures Safe(Initiate(s, caller, target, c).state)
  {
    if Initiate(s, caller, target, c).outcome == Done {
      var t := Initiate(s, caller, target, c).state;
      assert c in s.active ==> LiveCallSound(s, c);
      InitiateCallsSafe(s, caller, target, c);
      InitiateRecordsSound(s, caller, target, c);
    }
  }

  lemma AcceptRecordsSound(s: State, user: UserId, c: CallId)
    requires LiveCallsSound(s) && RecordsSound(s) && Accept(s, user, c).outcome == Done
    ensures LiveCallsSound(Accept(s, user, c).state)
    ensures RecordsSound(Accept(s, user, c).state)
  {
    var t := Accept(s, user, c).state;
    forall d | d in t.active ensures LiveCallSound(t, d) { assert LiveCallSound(s, d); }
    forall d | d in t.records ensures RecordSound(t, d) { assert RecordSound(s, d); }
  }

  lemma AcceptCallsSafe(s: State, user: UserId, c: CallId)
    requires CallsSafe(s)
    ensures CallsSafe(Accept(s, user, c).state)
  {
    forall u, d ensures InCallWith(Accept(s, user, c).state, u, d) <==> InCallWith(s, u, d) {}
  }

  lemma AcceptSafe(s: State, user: UserId, c: CallId)
    requires Safe(s)
    ensures Safe(Accept(s, user, c).state)
    ensures Accept(s, user, c).outcome != NoSignaling
  {
    if IsMember(s, user, c) { assert RecordSound(s, c); }
    if Accept(s, user, c).outcome == Done {
      AcceptCallsSafe(s, user, c);
      AcceptRecordsSound(s, user, c);
    }
  }

  /** Ending a call frees exactly its participants and leaves every other live call alone. */
  lemma EndCallSafe(s: State, c: CallId)
    requires CallsSafe(s)
    ensures CallsSafe(EndCall(s, c))
    ensures c !in EndCall(s, c).active
    ensures forall u, d :: InCallWith(EndCall(s, c), u, d) <==> InCallWith(s, u, d) && d != c
  {
    var t := EndCall(s, c);
    if c in s.active {
      forall u, d ensures InCallWith(t, u, d) <==> InCallWith(s, u, d) && d != c {}
      forall u, d | InCallWith(t, u, d) ensures u in t.userStatus {
        assert InCallWith(s, u, d) && !InCallWith(s, u, c);
      }
      forall u, d | (u, d) in t.userActive ensures InCallWith(t, u, d) && t.active[d].initiatorId == u {
        assert InCallWith(s, u, d);
      }
    }
  }

  /** What a step says about who is in which call depends on three of the stores only. */
  lemma SameCalls(s: State, t: State)
    requires s.active == t.active && s.userStatus == t.userStatus && s.userActive == t.userActive
    ensures forall u, d :: InCallWith(s, u, d) <==> InCallWith(t, u, d)
    ensures CallsSafe(s) ==> CallsSafe(t)
    ensures Exact(s) ==> Exact(t)
  {}

  lemma FinishStores(s: State, user: UserId, c: CallId, member: MemberStatus, reason: string)
    requires IsMember(s, user, c)
    ensures var t := Finish(s, user, c, member, reason).state;
            && t.active == EndCall(s, c).active && t.userStatus == EndCall(s, c).userStatus
            && t.userActive == EndCall(s, c).userActive
            && t.records.Keys == s.records.Keys && t.records[c].status == Ended
            && t.records[c].initiatorId == s.records[c].initiatorId
            && t.records[c].members.Keys == s.records[c].members.Keys
            && (forall d :: d in s.records && d != c ==> t.records[d] == s.records[d])
            && t.signaling == s.signaling - {c} && t.timers == s.timers - {c}
  {}

  /** A step that removes one call and leaves the entries of all others alone keeps the others sound. */
  lemma OtherCallsSound(s: State, t: State, c: CallId)
    requires LiveCallsSound(s)
    requires c !in t.active
    requires forall d :: d in t.active ==>
                           d in s.active && t.active[d] == s.active[d] && d in t.records && t.records[d] == s.records[d]
    requires forall u, d :: (u, d) in s.userActive && d != c ==> (u, d) in t.userActive
    requires forall d :: d in s.timers && d != c ==> d in t.timers && t.timers[d] == s.timers[d]
    ensures LiveCallsSound(t)
  {}

  lemma FinishRecordsSound(s: State, user: UserId, c: CallId, member: MemberStatus, reason: string)
    requires LiveCallsSound(s) && RecordsSound(s) && IsMember(s, user, c)
    ensures LiveCallsSound(Finish(s, user, c, member, reason).state)
    ensures RecordsSound(Finish(s, user, c, member, reason).state)
  {
    FinishLiveSound(s, user, c, member, reason);
    FinishStores(s, user, c, member, reason);
    var t := Finish(s, user, c, member, reason).state;
    forall d | d in t.records ensures RecordSound(t, d) { assert RecordSound(s, d); }
  }

  lemma FinishLiveSound(s: State, user: UserId, c: CallId, member: MemberStatus, reason: string)
    requires LiveCallsSound(s) && IsMember(s, user, c)
    ensures LiveCallsSound(Finish(s, user, c, member, reason).state)
  {
    FinishStores(s, user, c, member, reason);
    forall d | d in s.active ensures d in s.records { assert LiveCallSound(s, d); }
    OtherCallsSound(s, Finish(s, user, c, member, reason).state, c);
  }

  lemma FinishSafe(s: State, user: UserId, c: CallId, member: MemberStatus, reason: string)
    requires Safe(s)
    ensures Safe(Finish(s, user, c, member, reason).state)
    ensures IsMember(s, user, c) ==> c !in Finish(s, user, c, member, reason).state.active
  {
    if IsMember(s, user, c) {
      var t := Finish(s, user, c, member, reason).state;
      FinishStores(s, user, c, member, reason);
      assert CallsSafe(t) by {
        EndCallSafe(s, c);
        SameCalls(EndCall(s, c), t);
      }
      FinishRecordsSound(s, user, c, member, reason);
    }
  }

  /** Dropping the timer of a call that is not live and initiating changes nothing the invariant needs. */
  lemma DropTimerSafe(s: State, c: CallId)
    requires Safe(s)
    requires c in s.active ==> s.active[c].status != Initiating
    ensures Safe(s.(timers := s.timers - {c}))
  {
    var t := s.(timers := s.timers - {c});
    assert forall u, d :: InCallWith(t, u, d) <==> InCallWith(s, u, d);
    forall d | d in t.active ensures LiveCallSound(t, d) { assert LiveCallSound(s, d); }
    forall d | d in t.records ensures RecordSound(t, d) { assert RecordSound(s, d); }
  }

  lemma RingTimeoutSafe(s: State, c: CallId)
    requires Safe(s) && c in s.timers
    ensures Safe(RingTimeout(s, c))
    ensures c in s.active && s.active[c].status == Initiating ==> c !in RingTimeout(s, c).active
  {
    if c in s.active && s.active[c].status == Initiating {
      FinishSafe(s, s.timers[c], c, Left, "timeout");
      DropTimerSafe(Hangup(s, s.timers[c], c, "timeout").state, c);
    } else {
      DropTimerSafe(s, c);
    }
  }

  /** A two-party call never survives the loss of one of its participants. */
  lemma LeaveCallSafe(s: State, user: UserId, c: CallId)
    requires Safe(s)
    requires InCallWith(s, user, c) || c !in s.active
    ensures Safe(LeaveCall(s, user, c))
    ensures LeaveCall(s, user, c).active.Keys == s.active.Keys - {c}
    ensures forall u, d :: InCallWith(LeaveCall(s, user, c), u, d) <==> InCallWith(s, u, d) && d != c
  {
    var t := LeaveCall(s, user, c);
    if c in s.active {
      LeaveCallCallsSafe(s, user, c);
      LeaveCallRecordsSound(s, user, c);
      LeaveCallStores(s, user, c);
    } else {
      DropTimerSafe(s, c);
      assert forall u, d :: InCallWith(t, u, d) <==> InCallWith(s, u, d);
    }
  }

  lemma LeaveCallCallsSafe(s: State, user: UserId, c: CallId)
    requires CallsSafe(s) && LiveCallsSound(s) && InCallWith(s, user, c)
    ensures CallsSafe(LeaveCall(s, user, c))
    ensures forall u, d :: InCallWith(LeaveCall(s, user, c), u, d) <==> InCallWith(s, u, d) && d != c
  {
    var s1 := RemoveParticipant(s.(timers := s.timers - {c}), c, user);
    assert LiveCallSound(s, c);
    RemoveParticipantSafe(s, s.timers - {c}, c, user);
    assert LeaveCall(s, user, c) == EndCall(s1, c);
    EndCallSafe(s1, c);
    forall u, d ensures InCallWith(EndCall(s1, c), u, d) <==> InCallWith(s, u, d) && d != c {}
  }

  lemma LeaveCallRecordsSound(s: State, user: UserId, c: CallId)
    requires LiveCallsSound(s) && RecordsSound(s) && InCallWith(s, user, c)
    ensures LiveCallsSound(LeaveCall(s, user, c)) && RecordsSound(LeaveCall(s, user, c))
  {
    var t := LeaveCall(s, user, c);
    LeaveCallStores(s, user, c);
    LeaveCallOthers(s, user, c);
    OtherCallsSound(s, t, c);
    forall d | d in t.records ensures RecordSound(t, d) { assert RecordSound(s, d); }
  }

  lemma LeaveCallOthers(s: State, user: UserId, c: CallId)
    requires LiveCallsSound(s) && InCallWith(s, user, c)
    ensures var t := LeaveCall(s, user, c);
            && (forall d :: d in t.active ==> d in s.active && t.active[d] == s.active[d])
            && (forall u, d :: (u, d) in s.userActive && d != c ==> (u, d) in t.userActive)
            && (forall d :: d in t.active ==> d in t.records && d in s.records && t.records[d] == s.records[d])
  {
    assert LiveCallSound(s, c);
    forall d | d in s.active ensures d in s.records { assert LiveCallSound(s, d); }
  }

  lemma LeaveCallStores(s: State, user: UserId, c: CallId)
    requires LiveCallsSound(s) && InCallWith(s, user, c)
    ensures var t := LeaveCall(s, user, c);
            && t.active.Keys == s.active.Keys - {c} && t.records == s.records && t.signaling == s.signaling
            && t.timers == s.timers - {c}
            && (forall d :: d in t.active ==> t.active[d] == s.active[d] && LiveCallSound(s, d))
            && (forall u, d :: (u, d) in s.userActive && d != c ==> (u, d) in t.userActive)
  {}

  lemma RemoveParticipantSafe(s: State, timers: map<CallId, UserId>, c: CallId, user: UserId)
    requires CallsSafe(s) && InCallWith(s, user, c)
    ensures CallsSafe(RemoveParticipant(s.(timers := timers), c, user))
    ensures forall u, d :: InCallWith(RemoveParticipant(s.(timers := timers), c, user), u, d)
                           <==> InCallWith(s, u, d) && !(u == user && d == c)
  {
    var t := RemoveParticipant(s.(timers := timers), c, user);
    forall u, d ensures InCallWith(t, u, d) <==> InCallWith(s, u, d) && !(u == user && d == c) {
      if d == c {
        assert u in Users(t.active[c].participants) <==> u in Users(s.active[c].participants) - {user};
      }
    }
    forall u, d | InCallWith(t, u, d) ensures u in t.userStatus {
      assert InCallWith(s, u, d);
    }
  }

  lemma {:induction false} LeaveCallsSafe(s: State, user: UserId, calls: seq<CallId>)
    requires Safe(s)
    requires forall c :: c in calls ==> InCallWith(s, user, c)
    ensures Safe(LeaveCalls(s, user, calls))
    ensures forall d :: d in LeaveCalls(s, user, calls).active <==> d in s.active && d !in calls
    ensures forall u, d :: InCallWith(LeaveCalls(s, user, calls), u, d) <==> InCallWith(s, u, d) && d !in calls
    decreases |calls|
  {
    if calls != [] {
      var front, c := calls[..|calls|-1], calls[|calls|-1];
      assert forall d :: d in calls <==> d in front || d == c;
      LeaveCallsSafe(s, user, front);
      LeaveCallSafe(LeaveCalls(s, user, front), user, c);
    }
  }

  lemma StepSafe(s: State, e: Event)
    requires Safe(s) && Enabled(s, e)
    ensures Safe(Step(s, e))
  {
    match e
    case InitiateE(caller, target, c) => InitiateSafe(s, caller, target, c);
    case AcceptE(u, c) => AcceptSafe(s, u, c);
    case DeclineE(u, c) => FinishSafe(s, u, c, Declined, "declined");
    case HangupE(u, c, reason) => FinishSafe(s, u, c, Left, if reason == "" then "completed" else reason);
    case RingTimeoutE(c) => RingTimeoutSafe(s, c);
    case DisconnectE(u, calls) =>
      forall c | c in calls ensures InCallWith(s, u, c) { assert c in ActiveCallsOf(s, u); }
      LeaveCallsSafe(s, u, calls);
  }

  /** Main result: in every run, disconnects included, live calls are disjoint, their participants are
      busy, and a user's active-call set lists only live calls of that user. */
  lemma {:induction false} RunSafe(s: State, events: seq<Event>, t: State)
    requires Safe(s) && Run(s, events, t)
    ensures Safe(t)
    decreases |events|
  {
    if events != [] {
      StepSafe(s, events[0]);
      RunSafe(Step(s, events[0]), events[1..], t);
    }
  }

  /** The same from the empty stores, spelled out, and a live call's record still names both its members. */
  lemma ReachableCalls(events: seq<Event>, t: State)
    requires Run(Empty, events, t)
    ensures forall c, d, u :: InCallWith(t, u, c) && InCallWith(t, u, d) ==> c == d
    ensures forall c, u :: InCallWith(t, u, c) ==> u in t.userStatus && c in t.records && u in t.records[c].members
    ensures forall u, c :: (u, c) in t.userActive ==> InCallWith(t, u, c)
  {
    RunSafe(Empty, events, t);
    forall c, u | InCallWith(t, u, c) ensures c in t.records && u in t.records[c].members {
      assert LiveCallSound(t, c);
      assert u in t.records[c].members.Keys;
    }
  }

  /** A disconnect ends exactly the live calls its user initiated; a callee's disconnect ends none. */
  lemma DisconnectEffect(s: State, user: UserId, calls: seq<CallId>)
    requires Safe(s) && Enabled(s, DisconnectE(user, calls))
    ensures forall c :: c in LeaveCalls(s, user, calls).active
                        <==> c in s.active && s.active[c].initiatorId != user
    ensures forall u, c :: InCallWith(s, u, c) && s.active[c].initiatorId != user
                           ==> InCallWith(LeaveCalls(s, user, calls), u, c)
  {
    forall c | c in calls ensures InCallWith(s, user, c) { assert c in ActiveCallsOf(s, user); }
    LeaveCallsSafe(s, user, calls);
    forall c | c in s.active ensures c in calls <==> s.active[c].initiatorId == user {
      assert LiveCallSound(s, c);
      assert c in calls <==> c in ActiveCallsOf(s, user);
      if c in calls { assert (user, c) in s.userActive; }
      if s.active[c].initiatorId == user { assert (user, c) in s.userActive; }
    }
  }

  /** Every unanswered live call has an armed ring timer; when it fires the call ends and both users are free. */
  lemma RingTimeoutFrees(s: State, c: CallId)
    requires Safe(s) && c in s.active && s.active[c].status == Initiating
    ensures Enabled(s, RingTimeoutE(c))
    ensures c !in RingTimeout(s, c).active && RingTimeout(s, c).records[c].status == Ended
    ensures forall u :: u in s.active[c].participants ==> u !in RingTimeout(s, c).userStatus
  {}

  // ---------------------------------------------------------------- exactness

  /** A user is busy iff they are in a live call, and the status key names that call. */
  ghost predicate Exact(s: State) {
    && (forall u :: u in s.userStatus ==> InCallWith(s, u, s.userStatus[u].currentCallId))
    && (forall u, c :: InCallWith(s, u, c) ==> u in s.userStatus && s.userStatus[u].currentCallId == c)
  }

  /** The one step that can make a user busy without a live call: accepting a record whose active key
      a disconnect has already removed. Exactly then is Exact lost. */
  lemma AcceptExactIff(s: State, user: UserId, c: CallId)
    requires Safe(s) && Exact(s) && Accept(s, user, c).outcome == Done
    ensures Exact(Accept(s, user, c).state) <==> c in s.active
  {
    var t := Accept(s, user, c).state;
    assert t.userStatus[user].currentCallId == c;
    if c in s.active {
      AcceptLiveExact(s, user, c);
    } else {
      assert !InCallWith(t, user, c);
    }
  }

  lemma AcceptLiveExact(s: State, user: UserId, c: CallId)
    requires LiveCallsSound(s) && Exact(s) && Accept(s, user, c).outcome == Done && c in s.active
    ensures Exact(Accept(s, user, c).state)
  {
    var t := Accept(s, user, c).state;
    var caller := s.records[c].initiatorId;
    assert LiveCallSound(s, c);
    assert InCallWith(s, user, c) && InCallWith(s, caller, c);
    assert t.userStatus.Keys == s.userStatus.Keys;
    assert forall u :: u in s.userStatus ==> t.userStatus[u].currentCallId == s.userStatus[u].currentCallId;
    forall u, d ensures InCallWith(t, u, d) <==> InCallWith(s, u, d) {}
  }

  lemma EndCallExact(s: State, c: CallId)
    requires CallsSafe(s) && Exact(s)
    ensures Exact(EndCall(s, c))
  {
    EndCallSafe(s, c);
    var t := EndCall(s, c);
    forall u | u in t.userStatus ensures InCallWith(t, u, t.userStatus[u].currentCallId) {
      assert InCallWith(s, u, s.userStatus[u].currentCallId);
    }
    forall u, d | InCallWith(t, u, d) ensures u in t.userStatus && t.userStatus[u].currentCallId == d {
      assert InCallWith(s, u, d);
    }
  }

  lemma FinishExact(s: State, user: UserId, c: CallId, member: MemberStatus, reason: string)
    requires Safe(s) && Exact(s)
    ensures Exact(Finish(s, user, c, member, reason).state)
  {
    if IsMember(s, user, c) {
      EndCallExact(s, c);
      FinishStores(s, user, c, member, reason);
      SameCalls(EndCall(s, c), Finish(s, user, c, member, reason).state);
    }
  }

  lemma LeaveCallExact(s: State, user: UserId, c: CallId)
    requires Safe(s) && Exact(s) && (InCallWith(s, user, c) || c !in s.active)
    ensures Exact(LeaveCall(s, user, c))
  {
    LeaveCallSafe(s, user, c);
    var t := LeaveCall(s, user, c);
    if c in s.active {
      assert LiveCallSound(s, c);
      var s1 := RemoveParticipant(s.(timers := s.timers - {c}), c, user);
      assert t == EndCall(s1, c);
      assert Users(s1.active[c].participants) == Users(s.active[c].participants) - {user};
      assert t.userStatus.Keys == s.userStatus.Keys - Users(s.active[c].participants);
    }
    forall u | u in t.userStatus ensures InCallWith(t, u, t.userStatus[u].currentCallId) {
      assert InCallWith(s, u, s.userStatus[u].currentCallId);
    }
    forall u, d | InCallWith(t, u, d) ensures u in t.userStatus && t.userStatus[u].currentCallId == d {
      assert InCallWith(s, u, d) && !InCallWith(s, u, c);
    }
  }

  lemma {:induction false} LeaveCallsExact(s: State, user: UserId, calls: seq<CallId>)
    requires Safe(s) && Exact(s)
    requires forall c :: c in calls ==> InCallWith(s, user, c)
    ensures Exact(LeaveCalls(s, user, calls))
    decreases |calls|
  {
    if calls != [] {
      var front, c := calls[..|calls|-1], calls[|calls|-1];
      FrontLeft(s, user, calls);
      LeaveCallsExact(s, user, front);
      LeaveCallExact(LeaveCalls(s, user, front), user, c);
    }
  }

  /** The last of the calls to leave, when all before it have been left. */
  lemma FrontLeft(s: State, user: UserId, calls: seq<CallId>)
    requires Safe(s) && calls != [] && forall c :: c in calls ==> InCallWith(s, user, c)
    ensures var front, c := calls[..|calls|-1], calls[|calls|-1];
            && (forall d :: d in front ==> InCallWith(s, user, d))
            && Safe(LeaveCalls(s, user, front))
            && (InCallWith(LeaveCalls(s, user, front), user, c) || c !in LeaveCalls(s, user, front).active)
  {
    var front, c := calls[..|calls|-1], calls[|calls|-1];
    assert forall d :: d in calls <==> d in front || d == c;
    LeaveCallsSafe(s, user, front);
  }

  lemma InitiateCallsExact(s: State, caller: UserId, target: UserId, c: CallId)
    requires CallsSafe(s) && Exact(s) && c !in s.active && Initiate(s, caller, target, c).outcome == Done
    ensures Exact(Initiate(s, caller, target, c).state)
  {
    var t := Initiate(s, caller, target, c).state;
    InitiateCallsSafe(s, caller, target, c);
    forall u | u in t.userStatus ensures InCallWith(t, u, t.userStatus[u].currentCallId) {
      if u != caller && u != target { assert InCallWith(s, u, s.userStatus[u].currentCallId); }
    }
  }

  lemma InitiateExact(s: State, caller: UserId, target: UserId, c: CallId)
    requires Safe(s) && Exact(s) && c !in s.records
    ensures Exact(Initiate(s, caller, target, c).state)
  {
    assert c in s.active ==> LiveCallSound(s, c);
    if Initiate(s, caller, target, c).outcome == Done {
      InitiateCallsExact(s, caller, target, c);
    }
  }

  /** The guard a caller can check: a successful accept finds the call's active key. */
  predicate AcceptIsLive(s: State, e: Event) {
    e.AcceptE? && Accept(s, e.user, e.callId).outcome == Done ==> e.callId in s.active
  }

  lemma StepExact(s: State, e: Event)
    requires Safe(s) && Exact(s) && Enabled(s, e) && AcceptIsLive(s, e)
    ensures Exact(Step(s, e))
  {
    match e
    case InitiateE(caller, target, c) => InitiateExact(s, caller, target, c);
    case AcceptE(u, c) =>
      AcceptSafe(s, u, c);
      if Accept(s, u, c).outcome == Done { AcceptExactIff(s, u, c); }
    case DeclineE(u, c) => FinishExact(s, u, c, Declined, "declined");
    case HangupE(u, c, reason) => FinishExact(s, u, c, Left, if reason == "" then "completed" else reason);
    case RingTimeoutE(c) =>
      FinishExact(s, s.timers[c], c, Left, "timeout");
      var t := if c in s.active && s.active[c].status == Initiating
               then Hangup(s, s.timers[c], c, "timeout").state else s;
      assert forall u, d :: InCallWith(RingTimeout(s, c), u, d) <==> InCallWith(t, u, d);
    case DisconnectE(u, calls) =>
      forall c | c in calls ensures InCallWith(s, u, c) { assert c in ActiveCallsOf(s, u); }
      LeaveCallsExact(s, u, calls);
  }

  ghost predicate AcceptsLive(s: State, events: seq<Event>)
    decreases |events|
  {
    events != [] ==>
      AcceptIsLive(s, events[0]) && (Enabled(s, events[0]) ==> AcceptsLive(Step(s, events[0]), events[1..]))
  }

  function Occupied(s: State, calls: set<CallId>): set<UserId>
    requires calls <= s.active.Keys
  {
    set c, u | c in calls && u in s.active[c].participants :: u
  }

  lemma OccupiedSplit(s: State, calls: set<CallId>, c: CallId)
    requires calls <= s.active.Keys && c in calls && |s.active[c].participants| == 2
    ensures Occupied(s, calls)
            == Occupied(s, calls - {c}) + {s.active[c].participants[0], s.active[c].participants[1]}
  {
    var ps := s.active[c].participants;
    forall u | u in Occupied(s, calls) ensures u in Occupied(s, calls - {c}) + {ps[0], ps[1]} {
      var d :| d in calls && u in s.active[d].participants;
      if d != c { assert d in calls - {c}; }
    }
    forall u | u in Occupied(s, calls - {c}) + {ps[0], ps[1]} ensures u in Occupied(s, calls) {
      if u in Occupied(s, calls - {c}) {
        var d :| d in calls - {c} && u in s.active[d].participants;
        assert d in calls;
      } else {
        assert c in calls && u in ps;
      }
    }
  }

  lemma OccupiedOnce(s: State, calls: set<CallId>, c: CallId, u: UserId)
    requires DisjointCalls(s) && calls <= s.active.Keys && c !in calls && InCallWith(s, u, c)
    ensures u !in Occupied(s, calls)
  {
    if u in Occupied(s, calls) {
      var d :| d in calls && u in s.active[d].participants;
      assert InCallWith(s, u, d);
    }
  }

  lemma OccupiedWithout(s: State, calls: set<CallId>, c: CallId)
    requires DisjointCalls(s) && calls <= s.active.Keys && c in calls && LiveCallSound(s, c)
    ensures |Occupied(s, calls)| == |Occupied(s, calls - {c})| + 2
  {
    var p, q := s.active[c].participants[0], s.active[c].participants[1];
    OccupiedSplit(s, calls, c);
    OccupiedOnce(s, calls - {c}, c, p);
    OccupiedOnce(s, calls - {c}, c, q);
    assert |Occupied(s, calls - {c}) + {p, q}| == |Occupied(s, calls - {c})| + |{p, q}|;
  }

  lemma {:induction false} TwoPerCall(s: State, calls: set<CallId>)
    requires Safe(s) && calls <= s.active.Keys
    ensures |Occupied(s, calls)| == 2 * |calls|
    decreases |calls|
  {
    if calls == {} {
      assert Occupied(s, calls) == {};
    } else {
      var c :| c in calls;
      TwoPerCall(s, calls - {c});
      assert LiveCallSound(s, c);
      OccupiedWithout(s, calls, c);
    }
  }

  lemma BusyAreOccupied(s: State)
    requires Exact(s)
    ensures s.userStatus.Keys == Occupied(s, s.active.Keys)
  {
    forall u | u in s.userStatus ensures u in Occupied(s, s.active.Keys) {
      assert InCallWith(s, u, s.userStatus[u].currentCallId);
    }
    forall u | u in Occupied(s, s.active.Keys) ensures u in s.userStatus {
      var c :| c in s.active && u in s.active[c].participants;
      assert InCallWith(s, u, c);
    }
  }

  lemma BusyUsersCounted(s: State)
    requires Safe(s) && Exact(s)
    ensures |s.userStatus| == 2 * |s.active|
  {
    TwoPerCall(s, s.active.Keys);
    BusyAreOccupied(s);
    assert |s.userStatus.Keys| == |s.userStatus| && |s.active.Keys| == |s.active|;
  }

  /** Main result, disconnects allowed: as long as no accept hits a removed call, a user is busy iff in
      exactly one live call, and the busy users number twice the live calls. */
  lemma {:induction false} RunExact(s: State, events: seq<Event>, t: State)
    requires Safe(s) && Exact(s) && Run(s, events, t) && AcceptsLive(s, events)
    ensures Safe(t) && Exact(t) && |t.userStatus| == 2 * |t.active|
    decreases |events|
  {
    if events == [] {
      BusyUsersCounted(t);
    } else {
      StepSafe(s, events[0]);
      StepExact(s, events[0]);
      RunExact(Step(s, events[0]), events[1..], t);
    }
  }

  /** A call's active key exists iff its record has not ended. */
  ghost predicate KeysMatchRecords(s: State) {
    forall c :: c in s.records ==> (c in s.active <==> s.records[c].status != Ended)
  }

  lemma AcceptKeysMatch(s: State, user: UserId, c: CallId)
    requires KeysMatchRecords(s)
    ensures KeysMatchRecords(Accept(s, user, c).state)
    ensures Accept(s, user, c).outcome == Done ==> c in s.active
  {}

  lemma FinishKeysMatch(s: State, user: UserId, c: CallId, member: MemberStatus, reason: string)
    requires KeysMatchRecords(s)
    ensures KeysMatchRecords(Finish(s, user, c, member, reason).state)
  {
    if IsMember(s, user, c) { FinishStores(s, user, c, member, reason); }
  }

  lemma StepKeysMatch(s: State, e: Event)
    requires Safe(s) && KeysMatchRecords(s) && Enabled(s, e) && !e.DisconnectE?
    ensures KeysMatchRecords(Step(s, e)) && AcceptIsLive(s, e)
  {
    match e
    case InitiateE(caller, target, c) =>
    case AcceptE(u, c) => AcceptKeysMatch(s, u, c);
    case DeclineE(u, c) => FinishKeysMatch(s, u, c, Declined, "declined");
    case HangupE(u, c, reason) => FinishKeysMatch(s, u, c, Left, if reason == "" then "completed" else reason);
    case RingTimeoutE(c) => FinishKeysMatch(s, s.timers[c], c, Left, "timeout");
  }

  /** Main result without disconnects: from the empty stores, key and record agree on every call's status,
      and busy users are exactly the participants of live calls. */
  lemma DisconnectFreeRun(events: seq<Event>, t: State)
    requires Run(Empty, events, t) && forall e :: e in events ==> !e.DisconnectE?
    ensures Safe(t) && Exact(t) && KeysMatchRecords(t) && |t.userStatus| == 2 * |t.active|
    ensures forall c :: c in t.active ==> t.active[c].status == t.records[c].status
  {
    DisconnectFreeFrom(Empty, events, t);
    RunExact(Empty, events, t);
    forall c | c in t.active ensures t.active[c].status == t.records[c].status { assert LiveCallSound(t, c); }
  }

  lemma {:induction false} DisconnectFreeFrom(s: State, events: seq<Event>, t: State)
    requires Safe(s) && KeysMatchRecords(s) && Run(s, events, t)
    requires forall e :: e in events ==> !e.DisconnectE?
    ensures KeysMatchRecords(t) && AcceptsLive(s, events)
    decreases |events|
  {
    if events != [] {
      assert events[0] in events;
      StepKeysMatch(s, events[0]);
      StepSafe(s, events[0]);
      DisconnectFreeFrom(Step(s, events[0]), events[1..], t);
    }
  }

  // ---------------------------------------------------------------- status order and stranded users

  predicate MayBecome(before: CallStatus, after: CallStatus) {
    before == after || (before == Initiating && after == Active) || after == Ended
  }

  lemma StepOrder(s: State, e: Event, c: CallId)
    requires Enabled(s, e) && c in s.records
    ensures c in Step(s, e).records && MayBecome(s.records[c].status, Step(s, e).records[c].status)
  {
    if e.DisconnectE? { LeaveCallsRecords(s, e.user, e.calls); }
  }

  lemma {:induction false} LeaveCallsRecords(s: State, user: UserId, calls: seq<CallId>)
    ensures LeaveCalls(s, user, calls).records == s.records
    decreases |calls|
  {
    if calls != [] { LeaveCallsRecords(s, user, calls[..|calls|-1]); }
  }

  /** In every run a record's status only moves forward: initiating, active, ended. */
  lemma {:induction false} RunOrder(s: State, events: seq<Event>, t: State, c: CallId)
    requires Run(s, events, t) && c in s.records
    ensures c in t.records && MayBecome(s.records[c].status, t.records[c].status)
    decreases |events|
  {
    if events != [] {
      StepOrder(s, events[0], c);
      RunOrder(Step(s, events[0]), events[1..], t, c);
    }
  }

  /** Busy, but in no live call. */
  ghost predicate Stranded(s: State, u: UserId) {
    u in s.userStatus && forall c :: !InCallWith(s, u, c)
  }

  /** Accepting a call that is no longer live strands both the acceptor and the initiator. */
  lemma DeadAcceptStrands(s: State, user: UserId, c: CallId)
    requires Safe(s) && Exact(s) && Accept(s, user, c).outcome == Done && c !in s.active
    requires user !in s.userStatus && s.records[c].initiatorId !in s.userStatus
    ensures Stranded(Accept(s, user, c).state, user)
    ensures Stranded(Accept(s, user, c).state, s.records[c].initiatorId)
  {
    SameCalls(s, s);
    forall u, d ensures InCallWith(Accept(s, user, c).state, u, d) <==> InCallWith(s, u, d) {}
  }

  /** In every reachable exact state with an unanswered call: if the caller disconnects and the callee
      then accepts, the accept succeeds and both users are stranded. */
  lemma DisconnectThenAcceptStrands(s: State, calls: seq<CallId>, c: CallId)
    requires Safe(s) && Exact(s) && c in s.active && s.active[c].status == Initiating
    requires |s.active[c].participants| == 2 && Enabled(s, DisconnectE(s.active[c].initiatorId, calls))
    ensures var caller, callee := s.active[c].initiatorId, s.active[c].participants[1];
            var t := LeaveCalls(s, caller, calls);
            && Accept(t, callee, c).outcome == Done
            && Stranded(Accept(t, callee, c).state, caller) && Stranded(Accept(t, callee, c).state, callee)
  {
    var caller, callee := s.active[c].initiatorId, s.active[c].participants[1];
    var e, t := DisconnectE(caller, calls), LeaveCalls(s, caller, calls);
    assert LiveCallSound(s, c) && InCallWith(s, caller, c) && InCallWith(s, callee, c);
    StepSafe(s, e);
    StepExact(s, e);
    assert Safe(t) && Exact(t);
    LeaveCallsRecords(s, caller, calls);
    assert RecordSound(t, c);
    DisconnectFrees(s, calls, c, caller);
    DisconnectFrees(s, calls, c, callee);
    DeadAcceptStrands(t, callee, c);
  }

  /** The caller's disconnect leaves both users of the call idle. */
  lemma DisconnectFrees(s: State, calls: seq<CallId>, c: CallId, u: UserId)
    requires Safe(s) && Exact(s) && InCallWith(s, u, c) && Enabled(s, DisconnectE(s.active[c].initiatorId, calls))
    ensures c !in LeaveCalls(s, s.active[c].initiatorId, calls).active
    ensures u !in LeaveCalls(s, s.active[c].initiatorId, calls).userStatus
  {
    var caller := s.active[c].initiatorId;
    var t := LeaveCalls(s, caller, calls);
    forall d | d in calls ensures InCallWith(s, caller, d) { assert d in ActiveCallsOf(s, caller); }
    LeaveCallsSafe(s, caller, calls);
    LeaveCallsExact(s, caller, calls);
    assert c in calls by {
      assert LiveCallSound(s, c) && (caller, c) in s.userActive;
      assert c in ActiveCallsOf(s, caller);
    }
    assert u in t.userStatus ==> InCallWith(t, u, t.userStatus[u].currentCallId);
  }

  /** Such a state is reachable from the empty stores in one step. */
  lemma UnansweredCallReachable()
    ensures var s := Initiate(Empty, "ann", "bob", "c1").state;
            && Run(Empty, [InitiateE("ann", "bob", "c1")], s) && Safe(s) && Exact(s)
            && "c1" in s.active && s.active["c1"].status == Initiating
            && s.active["c1"].participants == ["ann", "bob"] && Enabled(s, DisconnectE("ann", ["c1"]))
  {
    var s := Initiate(Empty, "ann", "bob", "c1").state;
    InitiateSafe(Empty, "ann", "bob", "c1");
    InitiateExact(Empty, "ann", "bob", "c1");
    assert s.userActive == {("ann", "c1")};
    assert [InitiateE("ann", "bob", "c1")][1..] == [];
  }

  // ---------------------------------------------------------------- the services, updating their stores in place

  class CallBackend {
    var records: map<CallId, CallRecord>
    var active: map<CallId, ActiveCall>
    var userStatus: map<UserId, UserStatus>
    var userActive: set<(UserId, CallId)>
    var signaling: map<CallId, Signaling>
    var timers: map<CallId, UserId>

    constructor ()
      ensures Stores() == Empty
    {
      records, active, userStatus, userActive, signaling, timers := map[], map[], map[], {}, map[], map[];
    }

    function Stores(): State
      reads this
    {
      State(records, active, userStatus, userActive, signaling, timers)
    }

    method UpdateUserCallStatus(u: UserId, phase: Phase, c: CallId)
      modifies this`userStatus
      ensures Stores() == SetStatus(old(Stores()), u, phase, c)
    {
      userStatus := userStatus[u := UserStatus(phase, c)];
    }

    /** CallStateService.endCall: one pass over the participants, then the key. */
    method EndActiveCall(c: CallId)
      modifies this`userStatus, this`userActive, this`active
      ensures Stores() == EndCall(old(Stores()), c)
    {
      if c !in active { return; }
      var participants := active[c].participants;
      ghost var before := Stores();
      for i := 0 to |participants|
        invariant userStatus == before.userStatus - Users(participants[..i])
        invariant userActive == (set p | p in before.userActive && !(p.0 in Users(participants[..i]) && p.1 == c))
        invariant active == before.active
      {
        assert participants[..i+1] == participants[..i] + [participants[i]];
        assert Users(participants[..i+1]) == Users(participants[..i]) + {participants[i]};
        userStatus := userStatus - {participants[i]};
        userActive := userActive - {(participants[i], c)};
      }
      assert participants[..|participants|] == participants;
      active := active - {c};
    }

    /** cleanupCallState: reset every participant, end the call, drop the signaling key. */
    method CleanupCallState(c: CallId)
      modifies this`userStatus, this`userActive, this`active, this`signaling
      ensures Stores() == CleanupCall(old(Stores()), c)
    {
      ghost var before := Stores();
      if c in active {
        var participants := active[c].participants;
        for i := 0 to |participants|
          invariant userStatus == before.userStatus - Users(participants[..i])
          invariant userActive == before.userActive && active == before.active && signaling == before.signaling
        {
          assert participants[..i+1] == participants[..i] + [participants[i]];
          assert Users(participants[..i+1]) == Users(participants[..i]) + {participants[i]};
          userStatus := userStatus - {participants[i]};
        }
        assert participants[..|participants|] == participants;
        assert userStatus - Users(participants) == before.userStatus - Users(participants);
      }
      EndActiveCall(c);
      signaling := signaling - {c};
    }

    /** createActiveCall, which also sets the initiator's status once more. */
    method CreateActiveCall(c: CallId, initiator: UserId, participants: seq<UserId>)
      modifies this`active, this`userStatus, this`userActive
      ensures active == old(active)[c := ActiveCall(Initiating, initiator, participants)]
      ensures userStatus == old(userStatus)[initiator := UserStatus(Dialing, c)]
      ensures userActive == old(userActive) + {(initiator, c)}
    {
      active := active[c := ActiveCall(Initiating, initiator, participants)];
      UpdateUserCallStatus(initiator, Dialing, c);
      userActive := userActive + {(initiator, c)};
    }

    method InitiateCall(caller: UserId, target: UserId, c: CallId) returns (outcome: Outcome)
      modifies this
      ensures Reply(Stores(), outcome) == Initiate(old(Stores()), caller, target, c)
    {
      if caller == target { return SelfCall; }
      if caller in userStatus { return CallerBusy; }
      if target in userStatus { return TargetBusy; }
      records := records[c := CallRecord(caller, map[caller := Joined, target := Invited], Initiating, "")];
      signaling := signaling[c := Signaling(caller, target, Initiating, {})];
      UpdateUserCallStatus(caller, Dialing, c);
      UpdateUserCallStatus(target, Ringing, c);
      CreateActiveCall(c, caller, [caller, target]);
      assert userStatus == old(userStatus)[caller := UserStatus(Dialing, c)][target := UserStatus(Ringing, c)];
      timers := timers[c := caller];
      outcome := Done;
    }

    method AcceptCall(user: UserId, c: CallId) returns (outcome: Outcome)
      modifies this
      ensures Reply(Stores(), outcome) == Accept(old(Stores()), user, c)
    {
      if c !in records || user !in records[c].members { return NotParticipant; }
      var r := records[c];
      if r.status != Initiating { return NotInitiating; }
      records := records[c := r.(status := Active, members := r.members[user := Joined])];
      if c !in signaling { return NoSignaling; }
      signaling := signaling[c := signaling[c].(status := Active, acceptedBy := {user})];
      UpdateUserCallStatus(r.initiatorId, InCall, c);
      UpdateUserCallStatus(user, InCall, c);
      if c in active {
        active := active[c := active[c].(status := Active)];
      }
      timers := timers - {c};
      outcome := Done;
    }

    method DeclineCall(user: UserId, c: CallId) returns (outcome: Outcome)
      modifies this
      ensures Reply(Stores(), outcome) == Decline(old(Stores()), user, c)
      ensures outcome == Done <==> c in old(records) && user in old(records[c]).members
    {
      if c !in records || user !in records[c].members { return NotParticipant; }
      var r := records[c];
      records := records[c := r.(status := Ended, members := r.members[user := Declined], endReason := "declined")];
      CleanupCallState(c);
      timers := timers - {c};
      outcome := Done;
    }

    method HangupCall(user: UserId, c: CallId, reason: string) returns (outcome: Outcome)
      modifies this
      ensures Reply(Stores(), outcome) == Hangup(old(Stores()), user, c, reason)
      ensures outcome == Done <==> c in old(records) && user in old(records[c]).members
    {
      if c !in records || user !in records[c].members { return NotParticipant; }
      var r := records[c];
      var endReason := if reason == "" then "completed" else reason;
      records := records[c := r.(status := Ended, members := r.members[user := Left], endReason := endReason)];
      CleanupCallState(c);
      timers := timers - {c};
      outcome := Done;
    }

    /** The callback of the gateway's ring timer. */
    method OnRingTimeout(c: CallId)
      requires c in timers
      modifies this
      ensures Stores() == RingTimeout(old(Stores()), c)
    {
      if c in active && active[c].status == Initiating {
        var _ := HangupCall(timers[c], c, "timeout");
      }
      timers := timers - {c};
    }

    /** removeParticipant, whose filter keeps every id different from `user`. */
    method RemoveFromCall(c: CallId, user: UserId)
      modifies this`userStatus, this`userActive, this`active
      ensures Stores() == RemoveParticipant(old(Stores()), c, user)
    {
      if c !in active { return; }
      active := active[c := active[c].(participants := Without(active[c].participants, user))];
      userStatus := userStatus - {user};
      userActive := userActive - {(user, c)};
    }

    /** cleanupUserCallState, over one reply of SMEMBERS for the user's active-call set. */
    method CleanupUserCallState(user: UserId, calls: seq<CallId>)
      modifies this
      ensures Stores() == LeaveCalls(old(Stores()), user, calls)
    {
      ghost var before := Stores();
      for i := 0 to |calls|
        invariant Stores() == LeaveCalls(before, user, calls[..i])
      {
        timers := timers - {calls[i]};
        RemoveFromCall(calls[i], user);
        if calls[i] in active && |active[calls[i]].participants| <= 1 {
          EndActiveCall(calls[i]);
        }
        assert calls[..i+1][..i] == calls[..i];
      }
      assert calls[..|calls|] == calls;
    }
  }
}
