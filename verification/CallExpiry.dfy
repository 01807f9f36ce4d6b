/** The call protocol with key expiry: any Redis key of a call or a user may vanish between two operations. How long
    does a user who was stranded by an accept stay busy? */
module CallExpiry {
  import opened CallProtocol

  datatype KeyEvent =
    | Service(event: Event)
    | StatusKeyExpires(user: UserId)
    | ActiveKeyExpires(callId: CallId)
    | ActiveSetExpires(user: UserId)
    | SignalingKeyExpires(callId: CallId)

  predicate Possible(s: State, x: KeyEvent) {
    x.Service? ==> Enabled(s, x.event)
  }

  function Next(s: State, x: KeyEvent): State
    requires Possible(s, x)
  {
    match x
    case Service(e) => Step(s, e)
    case StatusKeyExpires(u) => s.(userStatus := s.userStatus - {u})
    case ActiveKeyExpires(c) => s.(active := s.active - {c})
    case ActiveSetExpires(u) => s.(userActive := set p | p in s.userActive && p.0 != u)
    case SignalingKeyExpires(c) => s.(signaling := s.signaling - {c})
  }

  ghost predicate KeyRun(s: State, events: seq<KeyEvent>, t: State)
    decreases |events|
  {
    if events == [] then s == t
    else Possible(s, events[0]) && KeyRun(Next(s, events[0]), events[1..], t)
  }

  // ---------------------------------------------------------------- what expiry leaves intact

  predicate ListedSoundly(s: State, u: UserId, c: CallId) {
    c in s.records && (c in s.active ==> InCallWith(s, u, c))
  }

  /** A live call in a user's active-call set still contains that user, and all ids in use have a record. */
  ghost predicate Listed(s: State) {
    && (forall u, c :: (u, c) in s.userActive ==> ListedSoundly(s, u, c))
    && s.active.Keys <= s.records.Keys
  }

  lemma SafeIsListed(s: State)
    requires Safe(s)
    ensures Listed(s)
  {
    forall c | c in s.active ensures c in s.records { assert LiveCallSound(s, c); }
    forall u, c | (u, c) in s.userActive ensures ListedSoundly(s, u, c) { assert InCallWith(s, u, c); }
  }

  lemma FinishListed(s: State, user: UserId, c: CallId, member: MemberStatus, reason: string)
    requires Listed(s)
    ensures Listed(Finish(s, user, c, member, reason).state)
  {
    var t := Finish(s, user, c, member, reason).state;
    forall u, d | (u, d) in t.userActive ensures ListedSoundly(t, u, d) { assert ListedSoundly(s, u, d); }
  }

  lemma LeaveCallListed(s: State, user: UserId, c: CallId)
    requires Listed(s)
    ensures Listed(LeaveCall(s, user, c))
  {
    var t := LeaveCall(s, user, c);
    forall u, d | (u, d) in t.userActive ensures ListedSoundly(t, u, d) {
      assert ListedSoundly(s, u, d);
      if c in s.active && d == c && u != user {
        assert u in Users(Without(s.active[c].participants, user));
      }
    }
  }

  lemma {:induction false} LeaveCallsListed(s: State, user: UserId, calls: seq<CallId>)
    requires Listed(s)
    ensures Listed(LeaveCalls(s, user, calls))
    decreases |calls|
  {
    if calls != [] {
      LeaveCallsListed(s, user, calls[..|calls|-1]);
      LeaveCallListed(LeaveCalls(s, user, calls[..|calls|-1]), user, calls[|calls|-1]);
    }
  }

  lemma StepListed(s: State, e: Event)
    requires Listed(s) && Enabled(s, e)
    ensures Listed(Step(s, e))
  {
    var t := Step(s, e);
    match e
    case InitiateE(_, _, _) =>
      forall u, d | (u, d) in t.userActive ensures ListedSoundly(t, u, d) {
        assert (u, d) in s.userActive ==> ListedSoundly(s, u, d);
      }
    case AcceptE(_, _) =>
      forall u, d | (u, d) in t.userActive ensures ListedSoundly(t, u, d) { assert ListedSoundly(s, u, d); }
    case DeclineE(u, c) => FinishListed(s, u, c, Declined, "declined");
    case HangupE(u, c, reason) => FinishListed(s, u, c, Left, if reason == "" then "completed" else reason);
    case RingTimeoutE(c) =>
      FinishListed(s, s.timers[c], c, Left, "timeout");
      var h := if c in s.active && s.active[c].status == Initiating then Hangup(s, s.timers[c], c, "timeout").state else s;
      forall u, d | (u, d) in t.userActive ensures ListedSoundly(t, u, d) { assert ListedSoundly(h, u, d); }
    case DisconnectE(u, calls) => LeaveCallsListed(s, u, calls);
  }

  lemma NextListed(s: State, x: KeyEvent)
    requires Listed(s) && Possible(s, x)
    ensures Listed(Next(s, x))
  {
    if x.Service? {
      StepListed(s, x.event);
    } else {
      var t := Next(s, x);
      forall u, d | (u, d) in t.userActive ensures ListedSoundly(t, u, d) { assert ListedSoundly(s, u, d); }
    }
  }

  // ---------------------------------------------------------------- stranded users

  /** A stranded user with a given status: busy, but in no live call. */
  ghost predicate StrandedAs(s: State, u: UserId, status: UserStatus) {
    Stranded(s, u) && s.userStatus[u] == status
  }

  lemma EndCallStranded(s: State, c: CallId, u: UserId, status: UserStatus)
    requires StrandedAs(s, u, status)
    ensures StrandedAs(EndCall(s, c), u, status)
  {
    assert !InCallWith(s, u, c);
    forall d ensures !InCallWith(EndCall(s, c), u, d) { assert !InCallWith(s, u, d); }
  }

  lemma FinishStranded(s: State, user: UserId, c: CallId, member: MemberStatus, reason: string, u: UserId, status: UserStatus)
    requires StrandedAs(s, u, status)
    ensures StrandedAs(Finish(s, user, c, member, reason).state, u, status)
  {
    EndCallStranded(s, c, u, status);
    var t := Finish(s, user, c, member, reason).state;
    forall d ensures !InCallWith(t, u, d) {
      assert !InCallWith(s, u, d) && !InCallWith(EndCall(s, c), u, d);
    }
  }

  lemma LeaveCallStranded(s: State, user: UserId, c: CallId, u: UserId, status: UserStatus)
    requires StrandedAs(s, u, status) && (user != u || c !in s.active)
    ensures StrandedAs(LeaveCall(s, user, c), u, status)
    ensures LeaveCall(s, user, c).active.Keys <= s.active.Keys
  {
    var t := RemoveParticipant(s.(timers := s.timers - {c}), c, user);
    forall d ensures !InCallWith(t, u, d) {
      assert !InCallWith(s, u, d);
      if c in s.active && d == c { assert u !in Users(Without(s.active[c].participants, user)); }
    }
    assert StrandedAs(t, u, status);
    EndCallStranded(t, c, u, status);
  }

  lemma {:induction false} LeaveCallsStranded(s: State, user: UserId, calls: seq<CallId>, u: UserId, status: UserStatus)
    requires StrandedAs(s, u, status) && (user != u || forall c :: c in calls ==> c !in s.active)
    ensures StrandedAs(LeaveCalls(s, user, calls), u, status)
    ensures LeaveCalls(s, user, calls).active.Keys <= s.active.Keys
    decreases |calls|
  {
    if calls != [] {
      var front, c := calls[..|calls|-1], calls[|calls|-1];
      assert c in calls && forall d :: d in front ==> d in calls;
      LeaveCallsStranded(s, user, front, u, status);
      LeaveCallStranded(LeaveCalls(s, user, front), user, c, u, status);
    }
  }

  /** The one service operation that writes a stranded user's status key: an accept by them or of a call of theirs. */
  predicate Renews(s: State, e: Event, u: UserId) {
    e.AcceptE? && Accept(s, e.user, e.callId).outcome == Done && (e.user == u || s.records[e.callId].initiatorId == u)
  }

  lemma StepStranded(s: State, e: Event, u: UserId)
    requires Listed(s) && Enabled(s, e) && Stranded(s, u)
    ensures Stranded(Step(s, e), u)
    ensures !Renews(s, e, u) ==> Step(s, e).userStatus[u] == s.userStatus[u]
  {
    var status := s.userStatus[u];
    match e
    case InitiateE(_, _, _) =>
      forall d ensures !InCallWith(Step(s, e), u, d) { assert !InCallWith(s, u, d); }
    case AcceptE(_, _) =>
      forall d ensures !InCallWith(Step(s, e), u, d) { assert !InCallWith(s, u, d); }
    case DeclineE(v, c) => FinishStranded(s, v, c, Declined, "declined", u, status);
    case HangupE(v, c, reason) =>
      FinishStranded(s, v, c, Left, if reason == "" then "completed" else reason, u, status);
    case RingTimeoutE(c) =>
      FinishStranded(s, s.timers[c], c, Left, "timeout", u, status);
      var h := if c in s.active && s.active[c].status == Initiating then Hangup(s, s.timers[c], c, "timeout").state else s;
      forall d ensures !InCallWith(Step(s, e), u, d) { assert !InCallWith(h, u, d); }
    case DisconnectE(v, calls) =>
      if v == u {
        forall c | c in calls ensures c !in s.active {
          assert c in ActiveCallsOf(s, u) && ListedSoundly(s, u, c) && !InCallWith(s, u, c);
        }
      }
      LeaveCallsStranded(s, v, calls, u, status);
  }

  /** Of everything that can happen, exactly the expiry of their own status key frees a stranded user. */
  lemma NextStrandedIff(s: State, x: KeyEvent, u: UserId)
    requires Listed(s) && Possible(s, x) && Stranded(s, u)
    ensures Stranded(Next(s, x), u) <==> x != StatusKeyExpires(u)
    ensures x != StatusKeyExpires(u) && !(x.Service? && Renews(s, x.event, u))
            ==> Next(s, x).userStatus[u] == s.userStatus[u]
  {
    if x.Service? {
      StepStranded(s, x.event, u);
    } else if x != StatusKeyExpires(u) {
      forall d ensures !InCallWith(Next(s, x), u, d) { assert !InCallWith(s, u, d); }
    }
  }

  /** Main result: whatever else happens, expiries of all other keys included, a stranded user stays stranded until
      their status key expires, and until then every call by or to them is refused. */
  lemma {:induction false} StrandedUntilExpiry(s: State, events: seq<KeyEvent>, t: State, u: UserId)
    requires Listed(s) && Stranded(s, u) && KeyRun(s, events, t)
    requires StatusKeyExpires(u) !in events
    ensures Stranded(t, u)
    ensures forall v, c :: Initiate(t, u, v, c).outcome != Done && Initiate(t, v, u, c).outcome != Done
    decreases |events|
  {
    if events != [] {
      assert events[0] in events;
      NextListed(s, events[0]);
      NextStrandedIff(s, events[0], u);
      StrandedUntilExpiry(Next(s, events[0]), events[1..], t, u);
    }
  }

  /** And then they can call and be called again. */
  lemma ExpiryFrees(s: State, u: UserId, v: UserId, c: CallId)
    requires Stranded(s, u) && v != u && v !in s.userStatus
    ensures var t := Next(s, StatusKeyExpires(u));
            Initiate(t, u, v, c).outcome == Done && Initiate(t, v, u, c).outcome == Done
  {}

  /** The state in which the caller of a call has disconnected and its callee has accepted it. */
  function AcceptedAfterDisconnect(s: State, calls: seq<CallId>, c: CallId): State
    requires c in s.active && |s.active[c].participants| == 2
  {
    Accept(LeaveCalls(s, s.active[c].initiatorId, calls), s.active[c].participants[1], c).state
  }

  lemma DisconnectSafe(s: State, user: UserId, calls: seq<CallId>)
    requires Safe(s) && Enabled(s, DisconnectE(user, calls))
    ensures Safe(LeaveCalls(s, user, calls))
  {
    forall c | c in calls ensures InCallWith(s, user, c) { assert c in ActiveCallsOf(s, user); }
    LeaveCallsSafe(s, user, calls);
  }

  lemma AcceptedIsListed(s: State, calls: seq<CallId>, c: CallId)
    requires Safe(s) && c in s.active && |s.active[c].participants| == 2
    requires Enabled(s, DisconnectE(s.active[c].initiatorId, calls))
    ensures Listed(AcceptedAfterDisconnect(s, calls, c))
  {
    DisconnectSafe(s, s.active[c].initiatorId, calls);
    AcceptSafe(LeaveCalls(s, s.active[c].initiatorId, calls), s.active[c].participants[1], c);
    SafeIsListed(AcceptedAfterDisconnect(s, calls, c));
  }

  lemma TwoParties(s: State, c: CallId, u: UserId)
    requires Safe(s) && InCallWith(s, u, c)
    ensures |s.active[c].participants| == 2
    ensures u == s.active[c].initiatorId || u == s.active[c].participants[1]
  {
    assert LiveCallSound(s, c);
  }

  lemma BothStranded(s: State, calls: seq<CallId>, c: CallId, u: UserId)
    requires Safe(s) && Exact(s) && InCallWith(s, u, c) && s.active[c].status == Initiating
    requires |s.active[c].participants| == 2 && Enabled(s, DisconnectE(s.active[c].initiatorId, calls))
    ensures Stranded(AcceptedAfterDisconnect(s, calls, c), u)
  {
    TwoParties(s, c, u);
    DisconnectThenAcceptStrands(s, calls, c);
  }

  /** From every exact state with an unanswered call: the caller disconnects, the callee accepts, and each of them is
      busy with no call until their status key expires. */
  lemma AcceptStrandsUntilExpiry(s: State, calls: seq<CallId>, c: CallId, events: seq<KeyEvent>, t: State, u: UserId)
    requires Safe(s) && Exact(s) && InCallWith(s, u, c) && s.active[c].status == Initiating
    requires |s.active[c].participants| == 2 && Enabled(s, DisconnectE(s.active[c].initiatorId, calls))
    requires KeyRun(AcceptedAfterDisconnect(s, calls, c), events, t) && StatusKeyExpires(u) !in events
    ensures Stranded(t, u)
  {
    AcceptedIsListed(s, calls, c);
    BothStranded(s, calls, c, u);
    StrandedUntilExpiry(AcceptedAfterDisconnect(s, calls, c), events, t, u);
  }
}
