/** What the stores say about the two users of a live call, beyond who is in it: phases, member statuses, the
    signaling key and the end reason. */
module CallDetails {
  import opened CallProtocol

  // ---------------------------------------------------------------- the two sides of a live call

  /** A live call that nobody accepted shows as dialing to its caller and as ringing to its callee. An accepted one
      shows as a call in progress to its caller, and to its callee too if it was the callee who accepted. */
  predicate SidesAgree(s: State, c: CallId)
    requires c in s.active && |s.active[c].participants| == 2
  {
    var a := s.active[c];
    var caller, callee := a.participants[0], a.participants[1];
    && c in s.signaling && c in s.records && caller in s.userStatus && callee in s.userStatus
    && s.signaling[c].callerId == caller && s.signaling[c].targetId == callee
    && s.signaling[c].status == a.status == s.records[c].status
    && (a.status == Initiating ==>
          && s.signaling[c].acceptedBy == {}
          && s.userStatus[caller].phase == Dialing && s.userStatus[callee].phase == Ringing
          && s.records[c].members == map[caller := Joined, callee := Invited])
    && (a.status == Active ==>
          && (s.signaling[c].acceptedBy == {caller} || s.signaling[c].acceptedBy == {callee})
          && s.userStatus[caller].phase == InCall
          && (if s.signaling[c].acceptedBy == {callee}
              then s.userStatus[callee].phase == InCall && s.records[c].members == map[caller := Joined, callee := Joined]
              else s.userStatus[callee].phase == Ringing && s.records[c].members == map[caller := Joined, callee := Invited]))
  }

  ghost predicate AllSidesAgree(s: State) {
    forall c :: c in s.active ==> |s.active[c].participants| == 2 && SidesAgree(s, c)
  }

  /** A step that leaves a call's entries and its users' statuses alone leaves its sides alone. */
  lemma SidesFrame(s: State, t: State, d: CallId)
    requires AllSidesAgree(s) && d in s.active && d in t.active && t.active[d] == s.active[d]
    requires d in t.signaling && d in s.signaling && t.signaling[d] == s.signaling[d]
    requires d in t.records && d in s.records && t.records[d] == s.records[d]
    requires forall u :: InCallWith(s, u, d) && u in s.userStatus ==> u in t.userStatus && t.userStatus[u] == s.userStatus[u]
    ensures |t.active[d].participants| == 2 && SidesAgree(t, d)
  {}

  lemma InitiateSides(s: State, caller: UserId, target: UserId, c: CallId)
    requires Safe(s) && AllSidesAgree(s) && c !in s.records && Initiate(s, caller, target, c).outcome == Done
    ensures AllSidesAgree(Initiate(s, caller, target, c).state)
  {
    var t := Initiate(s, caller, target, c).state;
    NewCallSides(s, caller, target, c);
    forall d | d in t.active && d != c ensures |t.active[d].participants| == 2 && SidesAgree(t, d) {
      OldCallSides(s, caller, target, c, d);
    }
  }

  lemma NewCallSides(s: State, caller: UserId, target: UserId, c: CallId)
    requires Initiate(s, caller, target, c).outcome == Done
    ensures var t := Initiate(s, caller, target, c).state;
            c in t.active && |t.active[c].participants| == 2 && SidesAgree(t, c)
  {
  }

  lemma OldCallSides(s: State, caller: UserId, target: UserId, c: CallId, d: CallId)
    requires CallsSafe(s) && AllSidesAgree(s) && Initiate(s, caller, target, c).outcome == Done
    requires c !in s.records && d in s.active
    ensures d != c
    ensures var t := Initiate(s, caller, target, c).state;
            d in t.active && |t.active[d].participants| == 2 && SidesAgree(t, d)
  {}

  lemma AcceptedCallSides(s: State, user: UserId, c: CallId)
    requires LiveCallsSound(s) && AllSidesAgree(s) && Accept(s, user, c).outcome == Done && c in s.active
    ensures var t := Accept(s, user, c).state;
            c in t.active && |t.active[c].participants| == 2 && SidesAgree(t, c)
  {
    assert LiveCallSound(s, c) && SidesAgree(s, c);
  }

  lemma OtherCallSides(s: State, user: UserId, c: CallId, d: CallId)
    requires CallsSafe(s) && LiveCallsSound(s) && AllSidesAgree(s) && Accept(s, user, c).outcome == Done
    requires c in s.active && d in s.active && d != c
    ensures var t := Accept(s, user, c).state;
            d in t.active && |t.active[d].participants| == 2 && SidesAgree(t, d)
  {
    assert LiveCallSound(s, c) && SidesAgree(s, d);
    assert InCallWith(s, user, c) && InCallWith(s, s.records[c].initiatorId, c);
    SidesFrame(s, Accept(s, user, c).state, d);
  }

  /** Accepting a live call settles both sides when the callee accepts, and leaves the callee ringing when the
      caller does. */
  lemma AcceptSides(s: State, user: UserId, c: CallId)
    requires Safe(s) && AllSidesAgree(s) && Accept(s, user, c).outcome == Done && c in s.active
    ensures AllSidesAgree(Accept(s, user, c).state)
  {
    var t := Accept(s, user, c).state;
    AcceptedCallSides(s, user, c);
    forall d | d in t.active && d != c ensures |t.active[d].participants| == 2 && SidesAgree(t, d) {
      OtherCallSides(s, user, c, d);
    }
  }

  lemma FinishSides(s: State, user: UserId, c: CallId, member: MemberStatus, reason: string)
    requires Safe(s) && AllSidesAgree(s)
    ensures AllSidesAgree(Finish(s, user, c, member, reason).state)
  {
    if IsMember(s, user, c) {
      var t := Finish(s, user, c, member, reason).state;
      FinishStores(s, user, c, member, reason);
      forall d | d in t.active ensures |t.active[d].participants| == 2 && SidesAgree(t, d) {
        assert SidesAgree(s, d) && LiveCallSound(s, d);
        KeptStatuses(s, c, d);
        SidesFrame(s, t, d);
      }
    }
  }

  /** Ending one call leaves the statuses of the users of another alone. */
  lemma KeptStatuses(s: State, c: CallId, d: CallId)
    requires CallsSafe(s) && d != c
    ensures forall u :: InCallWith(s, u, d) && u in s.userStatus
                        ==> u in EndCall(s, c).userStatus && EndCall(s, c).userStatus[u] == s.userStatus[u]
  {
    forall u | InCallWith(s, u, d) ensures !InCallWith(s, u, c) {
    }
  }

  lemma LeaveCallSides(s: State, user: UserId, c: CallId)
    requires Safe(s) && AllSidesAgree(s) && (InCallWith(s, user, c) || c !in s.active)
    ensures AllSidesAgree(LeaveCall(s, user, c))
  {
    var t := LeaveCall(s, user, c);
    LeaveCallSafe(s, user, c);
    if c in s.active {
      LeaveCallStores(s, user, c);
      LeaveStatuses(s, user, c);
    }
    forall d | d in t.active ensures |t.active[d].participants| == 2 && SidesAgree(t, d) {
      assert SidesAgree(s, d) && LiveCallSound(s, d);
      SidesFrame(s, t, d);
    }
  }

  lemma LeaveStatuses(s: State, user: UserId, c: CallId)
    requires Safe(s) && InCallWith(s, user, c)
    ensures forall d :: d in s.active && d != c ==> d in LeaveCall(s, user, c).active
                                                    && LeaveCall(s, user, c).active[d] == s.active[d]
    ensures forall d, u :: InCallWith(s, u, d) && d != c && u in s.userStatus
                           ==> u in LeaveCall(s, user, c).userStatus
                               && LeaveCall(s, user, c).userStatus[u] == s.userStatus[u]
  {
    assert LiveCallSound(s, c);
    var r := RemoveParticipant(s.(timers := s.timers - {c}), c, user);
    assert LeaveCall(s, user, c) == EndCall(r, c);
    assert Users(r.active[c].participants) == Users(s.active[c].participants) - {user};
    forall d, u | InCallWith(s, u, d) && d != c ensures u !in s.active[c].participants {
      assert !InCallWith(s, u, c);
    }
  }

  lemma {:induction false} LeaveCallsSides(s: State, user: UserId, calls: seq<CallId>)
    requires Safe(s) && AllSidesAgree(s) && forall c :: c in calls ==> InCallWith(s, user, c)
    ensures AllSidesAgree(LeaveCalls(s, user, calls))
    decreases |calls|
  {
    if calls != [] {
      var front, c := calls[..|calls|-1], calls[|calls|-1];
      assert forall d :: d in calls <==> d in front || d == c;
      LeaveCallsSides(s, user, front);
      LeaveCallsSafe(s, user, front);
      LeaveCallSides(LeaveCalls(s, user, front), user, c);
    }
  }

  lemma RingTimeoutSides(s: State, c: CallId)
    requires Safe(s) && AllSidesAgree(s) && c in s.timers
    ensures AllSidesAgree(RingTimeout(s, c))
  {
    FinishSides(s, s.timers[c], c, Left, "timeout");
    var h := if c in s.active && s.active[c].status == Initiating then Hangup(s, s.timers[c], c, "timeout").state else s;
    assert AllSidesAgree(h);
    var t := RingTimeout(s, c);
    forall d | d in t.active ensures |t.active[d].participants| == 2 && SidesAgree(t, d) {
      assert SidesAgree(h, d);
      SidesFrame(h, t, d);
    }
  }

  lemma StepSides(s: State, e: Event)
    requires Safe(s) && AllSidesAgree(s) && Enabled(s, e) && AcceptIsLive(s, e)
    ensures AllSidesAgree(Step(s, e))
  {
    match e
    case InitiateE(caller, target, c) =>
      if Initiate(s, caller, target, c).outcome == Done { InitiateSides(s, caller, target, c); }
    case AcceptE(u, c) =>
      AcceptSafe(s, u, c);
      if Accept(s, u, c).outcome == Done { AcceptSides(s, u, c); }
    case DeclineE(u, c) => FinishSides(s, u, c, Declined, "declined");
    case HangupE(u, c, reason) => FinishSides(s, u, c, Left, if reason == "" then "completed" else reason);
    case RingTimeoutE(c) => RingTimeoutSides(s, c);
    case DisconnectE(u, calls) =>
      forall c | c in calls ensures InCallWith(s, u, c) { assert c in ActiveCallsOf(s, u); }
      LeaveCallsSides(s, u, calls);
  }

  /** In every run in which no accept hits a removed call, both sides of every live call show what happened to it. */
  lemma {:induction false} RunSides(s: State, events: seq<Event>, t: State)
    requires Safe(s) && AllSidesAgree(s) && Run(s, events, t) && AcceptsLive(s, events)
    ensures Safe(t) && AllSidesAgree(t)
    decreases |events|
  {
    if events != [] {
      StepSides(s, events[0]);
      StepSafe(s, events[0]);
      RunSides(Step(s, events[0]), events[1..], t);
    }
  }

  /** Nobody checks that the callee accepts: an accept of a live call settles the callee's side exactly when it is
      not the caller's own. */
  lemma AcceptSettlesIff(s: State, user: UserId, c: CallId)
    requires Safe(s) && AllSidesAgree(s) && Accept(s, user, c).outcome == Done && c in s.active
    ensures var t, callee := Accept(s, user, c).state, s.active[c].participants[1];
            && callee in t.userStatus && callee in t.records[c].members
            && (t.userStatus[callee].phase == InCall && t.records[c].members[callee] == Joined
                <==> user != s.active[c].initiatorId)
  {}

  // ---------------------------------------------------------------- ring timers

  /** A ring timer is armed only for a live call that nobody accepted. */
  ghost predicate TimersRing(s: State) {
    forall c :: c in s.timers ==> c in s.active && s.active[c].status == Initiating
  }

  lemma FinishTimers(s: State, user: UserId, c: CallId, member: MemberStatus, reason: string)
    requires Safe(s) && TimersRing(s)
    ensures TimersRing(Finish(s, user, c, member, reason).state)
  {
    if IsMember(s, user, c) { FinishStores(s, user, c, member, reason); }
  }

  lemma {:induction false} LeaveCallsTimers(s: State, user: UserId, calls: seq<CallId>)
    requires Safe(s) && TimersRing(s) && forall c :: c in calls ==> InCallWith(s, user, c)
    ensures TimersRing(LeaveCalls(s, user, calls))
    decreases |calls|
  {
    if calls != [] {
      var front, c := calls[..|calls|-1], calls[|calls|-1];
      assert forall d :: d in calls <==> d in front || d == c;
      LeaveCallsTimers(s, user, front);
      LeaveCallsSafe(s, user, front);
      var t := LeaveCalls(s, user, front);
      if c in t.active {
        LeaveCallStores(t, user, c);
        LeaveStatuses(t, user, c);
      }
    }
  }

  lemma StepTimers(s: State, e: Event)
    requires Safe(s) && TimersRing(s) && Enabled(s, e)
    ensures TimersRing(Step(s, e))
  {
    match e
    case InitiateE(_, _, _) =>
    case AcceptE(u, c) => AcceptSafe(s, u, c);
    case DeclineE(u, c) => FinishTimers(s, u, c, Declined, "declined");
    case HangupE(u, c, reason) => FinishTimers(s, u, c, Left, if reason == "" then "completed" else reason);
    case RingTimeoutE(c) => FinishTimers(s, s.timers[c], c, Left, "timeout");
    case DisconnectE(u, calls) =>
      forall c | c in calls ensures InCallWith(s, u, c) { assert c in ActiveCallsOf(s, u); }
      LeaveCallsTimers(s, u, calls);
  }

  /** In every run, disconnects and accepts of removed calls included, the armed ring timers are exactly those of
      the live unanswered calls. */
  lemma {:induction false} RunTimers(s: State, events: seq<Event>, t: State)
    requires Safe(s) && TimersRing(s) && Run(s, events, t)
    ensures forall c :: c in t.timers <==> c in t.active && t.active[c].status == Initiating
    decreases |events|
  {
    if events == [] {
      forall c | c in t.active && t.active[c].status == Initiating ensures c in t.timers { assert LiveCallSound(t, c); }
    } else {
      StepTimers(s, events[0]);
      StepSafe(s, events[0]);
      RunTimers(Step(s, events[0]), events[1..], t);
    }
  }

  // ---------------------------------------------------------------- how a call ended

  predicate Gone(m: MemberStatus) {
    m == Declined || m == Left
  }

  /** A record has an end reason iff it has ended, and iff one of its members declined or left. */
  predicate EndingExplained(r: CallRecord) {
    && (r.status == Ended <==> r.endReason != "")
    && (r.status == Ended <==> exists u <- r.members :: Gone(r.members[u]))
  }

  ghost predicate EndingsExplained(s: State) {
    forall c :: c in s.records ==> EndingExplained(s.records[c])
  }

  lemma AcceptEndings(s: State, user: UserId, c: CallId)
    requires EndingsExplained(s)
    ensures EndingsExplained(Accept(s, user, c).state)
  {
    var t := Accept(s, user, c).state;
    forall d | d in t.records ensures EndingExplained(t.records[d]) {
      assert EndingExplained(s.records[d]);
    }
  }

  lemma FinishEndings(s: State, user: UserId, c: CallId, member: MemberStatus, reason: string)
    requires EndingsExplained(s) && Gone(member) && reason != ""
    ensures EndingsExplained(Finish(s, user, c, member, reason).state)
  {
    var t := Finish(s, user, c, member, reason).state;
    forall d | d in t.records ensures EndingExplained(t.records[d]) {
      assert EndingExplained(s.records[d]);
      if IsMember(s, user, c) && d == c { assert Gone(t.records[c].members[user]); }
    }
  }

  lemma StepEndings(s: State, e: Event)
    requires EndingsExplained(s) && Enabled(s, e)
    ensures EndingsExplained(Step(s, e))
  {
    match e
    case InitiateE(caller, target, c) =>
      var t := Step(s, e);
      forall d | d in t.records ensures EndingExplained(t.records[d]) {
        assert d in s.records ==> EndingExplained(s.records[d]);
      }
    case AcceptE(u, c) => AcceptEndings(s, u, c);
    case DeclineE(u, c) => FinishEndings(s, u, c, Declined, "declined");
    case HangupE(u, c, reason) => FinishEndings(s, u, c, Left, if reason == "" then "completed" else reason);
    case RingTimeoutE(c) => FinishEndings(s, s.timers[c], c, Left, "timeout");
    case DisconnectE(u, calls) => LeaveCallsRecords(s, u, calls);
  }

  /** In every run, disconnects included, a call has an end reason, and a member who declined or left, exactly when
      its record has ended. */
  lemma {:induction false} RunEndings(s: State, events: seq<Event>, t: State)
    requires EndingsExplained(s) && Run(s, events, t)
    ensures EndingsExplained(t)
    decreases |events|
  {
    if events != [] {
      StepEndings(s, events[0]);
      RunEndings(Step(s, events[0]), events[1..], t);
    }
  }

  // ---------------------------------------------------------------- what changes a record

  /** The record after a member ended the call. */
  function EndedBy(r: CallRecord, user: UserId, member: MemberStatus, reason: string): CallRecord {
    if user in r.members then CallRecord(r.initiatorId, r.members[user := member], Ended, reason) else r
  }

  lemma FinishRecord(s: State, user: UserId, d: CallId, member: MemberStatus, reason: string, c: CallId)
    requires c in s.records
    ensures c in Finish(s, user, d, member, reason).state.records
    ensures Finish(s, user, d, member, reason).state.records[c]
            == if c == d then EndedBy(s.records[c], user, member, reason) else s.records[c]
  {
  }

  lemma TimeoutRecord(s: State, d: CallId, c: CallId)
    requires Safe(s) && d in s.timers && c in s.records
    ensures c in RingTimeout(s, d).records
    ensures RingTimeout(s, d).records[c]
            == if c == d && d in s.active && s.active[d].status == Initiating
               then EndedBy(s.records[c], s.records[c].initiatorId, Left, "timeout") else s.records[c]
  {}

  /** Exactly which steps change a call's record, and to what: an accept by a member of an unanswered call, a
      decline or hang-up by a member, and the ring timer of a live unanswered call. A disconnect changes none. */
  lemma RecordCauses(s: State, e: Event, c: CallId)
    requires Safe(s) && Enabled(s, e) && c in s.records
    ensures c in Step(s, e).records
    ensures var r, t := s.records[c], Step(s, e).records[c];
            match e
            case AcceptE(u, d) =>
              t == if d == c && u in r.members && r.status == Initiating
                   then r.(status := Active, members := r.members[u := Joined]) else r
            case DeclineE(u, d) => t == if d == c then EndedBy(r, u, Declined, "declined") else r
            case HangupE(u, d, reason) =>
              t == if d == c then EndedBy(r, u, Left, if reason == "" then "completed" else reason) else r
            case RingTimeoutE(d) =>
              t == if d == c && c in s.active && s.active[c].status == Initiating
                   then EndedBy(r, r.initiatorId, Left, "timeout") else r
            case InitiateE(_, _, _) => t == r
            case DisconnectE(_, _) => t == r
  {
    match e
    case InitiateE(_, _, _) =>
    case AcceptE(_, _) =>
    case DeclineE(u, d) => FinishRecord(s, u, d, Declined, "declined", c);
    case HangupE(u, d, reason) => FinishRecord(s, u, d, Left, if reason == "" then "completed" else reason, c);
    case RingTimeoutE(d) => TimeoutRecord(s, d, c);
    case DisconnectE(u, calls) => LeaveCallsRecords(s, u, calls);
  }
}
