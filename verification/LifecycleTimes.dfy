/** When the timers of a call fire, and what its operations answer: exact times, where CallLifecycle has the bounds. */
module LifecycleTimes {
  import opened Options
  import opened CallLifecycle

  // ---------------------------------------------------------------- which timer an operation arms

  /** The call is under one timer, of this phase and due at this time. */
  ghost predicate UnderTimer(s: State, c: CallId, phase: Phase, deadline: int) {
    exists id :: ArmedFor(s, c) == {id} && id in s.armed && s.armed[id] == Timer(c, phase, deadline)
  }

  /** The timer just armed for an open call is its only one. */
  lemma OnlyTimer(t: State, c: CallId, id: nat)
    requires Good(t) && OpenCall(t, c) && id in t.armed && t.armed[id].callId == c
    ensures ArmedFor(t, c) == {id}
  {
    OneTimerPerOpenCall(t, c);
    var x :| ArmedFor(t, c) == {x};
    assert id in ArmedFor(t, c);
  }

  /** A started call rings under one timer: the given time later if a positive one was given, else 30 seconds. */
  lemma InitiateArms(s: State, c: CallId, participants: seq<UserId>, ringing: Option<nat>)
    requires Good(s) && c !in s.records && c !in s.cleanups
    ensures var t := Initiate(s, c, participants, ringing);
            && c in t.records && t.records[c].status == Ringing
            && UnderTimer(t, c, RingingPhase, s.now + match ringing case Some(v) => (if v > 0 then v else 30000) case None => 30000)
  {
    InitiateGood(s, c, participants, ringing);
    InitiateStores(s, c, participants, ringing);
    OnlyTimer(Initiate(s, c, participants, ringing), c, s.nextTimer);
  }

  /** An accepted call connects under one timer, due exactly 15 seconds after the accept. */
  lemma AcceptArms(s: State, c: CallId, user: UserId)
    requires Good(s) && MayAccept(s, c, user)
    ensures var t := Accept(s, c, user);
            c in t.records && t.records[c].status == Connecting && UnderTimer(t, c, ConnectingPhase, s.now + 15000)
  {
    AcceptGood(s, c, user);
    AcceptTimersSound(s, c, user);
    AcceptStores(s, c, user);
    OnlyTimer(Accept(s, c, user), c, s.nextTimer);
  }

  /** A connected call is active under one timer, due exactly an hour later. */
  lemma EstablishArms(s: State, c: CallId)
    requires Good(s) && c in s.records && s.records[c].status == Connecting
    ensures var t := Establish(s, c);
            && c in t.records && t.records[c].status == Active && t.records[c].startedAt == Some(s.now)
            && UnderTimer(t, c, MaxDuration, s.now + 3600000)
  {
    EstablishGood(s, c);
    EstablishStores(s, c);
    OnlyTimer(Establish(s, c), c, s.nextTimer);
  }

  // ---------------------------------------------------------------- no step renews a timer

  /** How far a call has come; a step never takes it back. */
  function Rank(status: Status): nat {
    match status
    case Initiating => 0
    case Ringing => 1
    case Connecting => 2
    case Active => 3
    case Ended => 4
    case Failed => 4
  }

  lemma StepRank(s: State, e: Event, c: CallId)
    requires Good(s) && Enabled(s, e) && c in s.records
    ensures c in Step(s, e).records && Rank(s.records[c].status) <= Rank(Step(s, e).records[c].status)
  {
    StatusCauses(s, e, c);
    assert CallSound(s, c);
  }

  /** Clearing the timer of one call leaves a timer of another armed. */
  lemma ClearOther(s: State, d: CallId, phase: Phase, id: nat)
    requires TimersSound(s) && id in s.armed && s.armed[id].callId != d
    ensures id in ClearTimeout(s, TimerKey(d, phase)).armed
  {
    var k := TimerKey(d, phase);
    if k in s.timeouts {
      assert KeySound(s, k);
      TimerKeyInjective(s.armed[s.timeouts[k]].callId, s.armed[s.timeouts[k]].phase, d, phase);
    }
  }

  lemma CloseOther(s: State, d: CallId, status: Status, id: nat)
    requires TimersSound(s) && HitsOnlyItself(s, d) && id in s.armed && s.armed[id].callId != d
    ensures id in ClearAllTimeouts(s, d).armed && id in Close(s, d, status).armed
  {
    assert TimerSound(s, id);
    ClearAllRemoves(s, d);
  }

  lemma AcceptKeepsTimer(s: State, d: CallId, user: UserId, id: nat)
    requires TimersSound(s) && id in s.armed && s.armed[id].callId != d
    ensures id in Accept(s, d, user).armed && Accept(s, d, user).armed[id] == s.armed[id]
  {
    assert TimerSound(s, id);
    ClearOther(s, d, RingingPhase, id);
  }

  lemma EstablishKeepsTimer(s: State, d: CallId, id: nat)
    requires TimersSound(s) && id in s.armed && s.armed[id].callId != d
    ensures id in Establish(s, d).armed && Establish(s, d).armed[id] == s.armed[id]
  {
    assert TimerSound(s, id);
    ClearOther(s, d, ConnectingPhase, id);
  }

  lemma FireKeepsTimer(s: State, j: nat, id: nat)
    requires TimersSound(s) && j in s.armed && id in s.armed && s.armed[id].callId != s.armed[j].callId
    requires HitsOnlyItself(s, s.armed[j].callId)
    ensures id in Fire(s, j).armed && Fire(s, j).armed[id] == s.armed[id]
  {
    FireIsClose(s, j);
    CloseOther(s, s.armed[j].callId, if s.armed[j].phase == MaxDuration then Ended else Failed, id);
  }

  /** The step moves the call out of its phase. */
  predicate Moves(s: State, e: Event, c: CallId)
    requires Enabled(s, e)
  {
    match e
    case AcceptE(d, user) => d == c && MayAccept(s, d, user)
    case EstablishE(d) => d == c
    case EndE(d) => d == c
    case FireE(id) => s.armed[id].callId == c
    case _ => false
  }

  lemma MovedIsElsewhere(s: State, e: Event, c: CallId)
    requires Good(s) && Enabled(s, e) && OpenCall(s, c) && Moves(s, e, c)
    ensures c in Step(s, e).records && Step(s, e).records[c].status != s.records[c].status
  {
    match e
    case AcceptE(d, user) =>
      AcceptStatus(s, d, user, c);
      assert s.records[c].status == s.redis[c].status;
    case EstablishE(d) => EstablishStatus(s, d, c);
    case EndE(d) => CloseStatus(s, d, Ended, c);
    case FireE(id) => FireCauses(s, id, c);
  }

  lemma ClosingKeepsTimer(s: State, e: Event, ids: set<CallId>, c: CallId, id: nat)
    requires Good(s) && Enabled(s, e) && PrefixFree(ids) && IdsWithin(s, ids) && Names(e, ids)
    requires e.EndE? || e.FireE? || e.CleanupE?
    ensures OpenCall(s, c) && id in s.armed && s.armed[id].callId == c && !Moves(s, e, c)
            ==> id in Step(s, e).armed && Step(s, e).armed[id] == s.armed[id]
  {
    if OpenCall(s, c) && id in s.armed && s.armed[id].callId == c && !Moves(s, e, c) {
      match e
      case EndE(d) =>
        PrefixFreeHitsOnlyItself(s, ids, d);
        CloseOther(s, d, Ended, id);
      case FireE(j) =>
        assert TimerSound(s, j);
        PrefixFreeHitsOnlyItself(s, ids, s.armed[j].callId);
        FireKeepsTimer(s, j, id);
      case CleanupE(d) =>
        PrefixFreeHitsOnlyItself(s, ids, d);
        CloseOther(s, d, Ended, id);
    }
  }

  /** As long as a step leaves the call in its phase, it leaves its timer armed and unchanged. */
  lemma StepKeepsTimer(s: State, e: Event, ids: set<CallId>, c: CallId, id: nat)
    requires Good(s) && Enabled(s, e) && PrefixFree(ids) && IdsWithin(s, ids) && Names(e, ids)
    ensures OpenCall(s, c) && id in s.armed && s.armed[id].callId == c && !Moves(s, e, c)
            ==> id in Step(s, e).armed && Step(s, e).armed[id] == s.armed[id]
  {
    if OpenCall(s, c) && id in s.armed && s.armed[id].callId == c && !Moves(s, e, c) {
      match e
      case InitiateE(d, participants, ringing) => assert TimerSound(s, id);
      case AcceptE(d, user) => if MayAccept(s, d, user) { AcceptKeepsTimer(s, d, user, id); }
      case EstablishE(d) => EstablishKeepsTimer(s, d, id);
      case EndE(_) => ClosingKeepsTimer(s, e, ids, c, id);
      case FireE(_) => ClosingKeepsTimer(s, e, ids, c, id);
      case CleanupE(_) => ClosingKeepsTimer(s, e, ids, c, id);
      case TickE(time) =>
    }
  }

  lemma StepStaysGood(s: State, e: Event, ids: set<CallId>, c: CallId)
    requires Good(s) && Enabled(s, e) && PrefixFree(ids) && IdsWithin(s, ids) && Names(e, ids) && c in s.records
    ensures Good(Step(s, e)) && IdsWithin(Step(s, e), ids)
    ensures c in Step(s, e).records && Rank(s.records[c].status) <= Rank(Step(s, e).records[c].status)
  {
    StepRank(s, e, c);
    StepGood(s, e, ids);
    StepIdsWithin(s, e, ids);
  }

  lemma {:induction false} RunRank(s: State, events: seq<Event>, t: State, ids: set<CallId>, c: CallId)
    requires Good(s) && Run(s, events, t) && c in s.records
    requires PrefixFree(ids) && IdsWithin(s, ids) && forall e :: e in events ==> Names(e, ids)
    ensures Good(t) && c in t.records && Rank(s.records[c].status) <= Rank(t.records[c].status)
    decreases |events|
  {
    if events != [] {
      assert events[0] in events && forall x :: x in events[1..] ==> x in events;
      StepStaysGood(s, events[0], ids, c);
      RunRank(Step(s, events[0]), events[1..], t, ids, c);
    }
  }

  /** Open statuses are told apart by how far the call has come. */
  lemma SameRank(a: Status, b: Status)
    requires Rank(a) == Rank(b) && !a.Terminal()
    ensures a == b
  {}

  predicate SamePhase(s: State, t: State, c: CallId) {
    OpenCall(s, c) && c in t.records && t.records[c].status == s.records[c].status
  }

  lemma {:induction false} RunStaysGood(s: State, events: seq<Event>, t: State, ids: set<CallId>)
    requires Good(s) && Run(s, events, t)
    requires PrefixFree(ids) && IdsWithin(s, ids) && forall e :: e in events ==> Names(e, ids)
    ensures Good(t)
    decreases |events|
  {
    if events != [] {
      assert events[0] in events && forall x :: x in events[1..] ==> x in events;
      StepGood(s, events[0], ids);
      StepIdsWithin(s, events[0], ids);
      RunStaysGood(Step(s, events[0]), events[1..], t, ids);
    }
  }

  /** In every run, a call that is still in the same phase at the end is still under the same timer. */
  lemma {:induction false} RunKeepsTimer(s: State, events: seq<Event>, t: State, ids: set<CallId>, c: CallId, id: nat)
    requires Good(s) && Run(s, events, t)
    requires PrefixFree(ids) && IdsWithin(s, ids) && forall e :: e in events ==> Names(e, ids)
    ensures SamePhase(s, t, c) && id in s.armed && s.armed[id].callId == c ==> id in t.armed && t.armed[id] == s.armed[id]
    decreases |events|
  {
    if events != [] && SamePhase(s, t, c) && id in s.armed && s.armed[id].callId == c {
      var e, u := events[0], Step(s, events[0]);
      assert e in events && forall x :: x in events[1..] ==> x in events;
      StepStaysGood(s, e, ids, c);
      RunRank(u, events[1..], t, ids, c);
      SameRank(s.records[c].status, u.records[c].status);
      if Moves(s, e, c) { MovedIsElsewhere(s, e, c); }
      StepKeepsTimer(s, e, ids, c, id);
      RunKeepsTimer(u, events[1..], t, ids, c, id);
    }
  }

  // ---------------------------------------------------------------- no timer fires early, none late

  /** A step by which a call comes to its end, in this status, without anybody ending it. */
  predicate TimesOut(s: State, e: Event, c: CallId, status: Status) {
    && Enabled(s, e) && OpenCall(s, c) && e != EndE(c)
    && status.Terminal() && c in Step(s, e).records && Step(s, e).records[c].status == status
  }

  /** Only the call's own timer, when it is due, does that. */
  lemma TimesOutByTimer(m: State, e: Event, c: CallId, status: Status, id: nat)
    requires Good(m) && TimesOut(m, e, c, status) && id in m.armed && m.armed[id].callId == c
    ensures m.now == m.armed[id].deadline && status == if m.armed[id].phase == MaxDuration then Ended else Failed
  {
    StatusCauses(m, e, c);
    OnlyTimer(m, c, id);
    assert e.FireE? && e.id in ArmedFor(m, c);
    assert TimerSound(m, id);
    FireCauses(m, id, c);
  }

  /** A call that entered its phase under a timer due at `deadline`, and is still in that phase, times out at exactly
      that moment: not earlier, and the clock cannot pass it. */
  lemma TimesOutAt(s: State, events: seq<Event>, m: State, ids: set<CallId>, c: CallId, phase: Phase, deadline: int)
    requires Good(s) && Run(s, events, m)
    requires PrefixFree(ids) && IdsWithin(s, ids) && forall x :: x in events ==> Names(x, ids)
    ensures UnderTimer(s, c, phase, deadline) && SamePhase(s, m, c) ==> m.now <= deadline
    ensures forall e, status :: UnderTimer(s, c, phase, deadline) && SamePhase(s, m, c) && TimesOut(m, e, c, status) ==>
                                  m.now == deadline && status == if phase == MaxDuration then Ended else Failed
  {
    if UnderTimer(s, c, phase, deadline) && SamePhase(s, m, c) {
      var id :| ArmedFor(s, c) == {id} && id in s.armed && s.armed[id] == Timer(c, phase, deadline);
      RunKeepsTimer(s, events, m, ids, c, id);
      RunStaysGood(s, events, m, ids);
      assert TimerSound(m, id);
      forall e, status | TimesOut(m, e, c, status)
        ensures m.now == deadline && status == if phase == MaxDuration then Ended else Failed
      {
        TimesOutByTimer(m, e, c, status, id);
      }
    }
  }

  /** What TimesOutAt says of one step, from a call that has just entered its phase. */
  lemma EnteredTimesOut(
    u: State, events: seq<Event>, m: State, ids: set<CallId>, c: CallId, phase: Phase, deadline: int, e: Event, status: Status)
    requires Good(u) && Run(u, events, m)
    requires PrefixFree(ids) && IdsWithin(u, ids) && forall x :: x in events ==> Names(x, ids)
    ensures SamePhase(u, m, c) && UnderTimer(u, c, phase, deadline) && TimesOut(m, e, c, status)
            ==> m.now == deadline && status == if phase == MaxDuration then Ended else Failed
  {
    TimesOutAt(u, events, m, ids, c, phase, deadline);
  }

  lemma InitiateEnters(s: State, c: CallId, participants: seq<UserId>, ringing: Option<nat>, ids: set<CallId>)
    requires Good(s) && c !in s.records && c !in s.cleanups && c in ids && IdsWithin(s, ids)
    ensures Good(Initiate(s, c, participants, ringing)) && IdsWithin(Initiate(s, c, participants, ringing), ids)
  {
    InitiateGood(s, c, participants, ringing);
    StepIdsWithin(s, InitiateE(c, participants, ringing), ids);
  }

  lemma AcceptEnters(s: State, c: CallId, user: UserId, ids: set<CallId>)
    requires Good(s) && MayAccept(s, c, user) && c in ids && IdsWithin(s, ids)
    ensures Good(Accept(s, c, user)) && IdsWithin(Accept(s, c, user), ids)
  {
    AcceptGood(s, c, user);
    StepIdsWithin(s, AcceptE(c, user), ids);
  }

  lemma EstablishEnters(s: State, c: CallId, ids: set<CallId>)
    requires Good(s) && c in s.records && s.records[c].status == Connecting && c in ids && IdsWithin(s, ids)
    ensures Good(Establish(s, c)) && IdsWithin(Establish(s, c), ids)
  {
    EstablishGood(s, c);
    StepIdsWithin(s, EstablishE(c), ids);
  }

  /** In every run a call still ringing fails by itself at exactly the given time after its start, if a positive one
      was given, and else at exactly 30 seconds. */
  lemma RingsExactly(
    s: State, c: CallId, participants: seq<UserId>, ringing: Option<nat>, events: seq<Event>, m: State, e: Event,
    status: Status, ids: set<CallId>)
    requires Good(s)
    requires PrefixFree(ids) && c in ids && IdsWithin(s, ids) && forall x :: x in events ==> Names(x, ids)
    ensures c !in s.records && c !in s.cleanups && Run(Initiate(s, c, participants, ringing), events, m)
            && c in m.records && m.records[c].status == Ringing && TimesOut(m, e, c, status)
            ==> m.now == s.now + (match ringing case Some(v) => (if v > 0 then v else 30000) case None => 30000)
                && status == Failed
  {
    if c !in s.records && c !in s.cleanups && Run(Initiate(s, c, participants, ringing), events, m)
       && c in m.records && m.records[c].status == Ringing && TimesOut(m, e, c, status) {
      InitiateEnters(s, c, participants, ringing, ids);
      InitiateArms(s, c, participants, ringing);
      EnteredTimesOut(Initiate(s, c, participants, ringing), events, m, ids, c, RingingPhase,
                      s.now + match ringing case Some(v) => (if v > 0 then v else 30000) case None => 30000, e, status);
    }
  }

  /** In every run a call still connecting fails by itself at exactly 15 seconds after its accept. */
  lemma ConnectsExactly(
    s: State, c: CallId, user: UserId, events: seq<Event>, m: State, e: Event, status: Status, ids: set<CallId>)
    requires Good(s)
    requires PrefixFree(ids) && c in ids && IdsWithin(s, ids) && forall x :: x in events ==> Names(x, ids)
    ensures MayAccept(s, c, user) && Run(Accept(s, c, user), events, m)
            && c in m.records && m.records[c].status == Connecting && TimesOut(m, e, c, status)
            ==> m.now == s.now + 15000 && status == Failed
  {
    if MayAccept(s, c, user) && Run(Accept(s, c, user), events, m)
       && c in m.records && m.records[c].status == Connecting && TimesOut(m, e, c, status) {
      AcceptEnters(s, c, user, ids);
      AcceptArms(s, c, user);
      EnteredTimesOut(Accept(s, c, user), events, m, ids, c, ConnectingPhase, s.now + 15000, e, status);
    }
  }

  /** In every run a call still active is ended by itself at exactly one hour after it became active. */
  lemma LastsExactly(
    s: State, c: CallId, events: seq<Event>, m: State, e: Event, status: Status, ids: set<CallId>)
    requires Good(s)
    requires PrefixFree(ids) && c in ids && IdsWithin(s, ids) && forall x :: x in events ==> Names(x, ids)
    ensures c in s.records && s.records[c].status == Connecting && Run(Establish(s, c), events, m)
            && c in m.records && m.records[c].status == Active && TimesOut(m, e, c, status)
            ==> m.now == s.now + 3600000 && status == Ended
  {
    if c in s.records && s.records[c].status == Connecting && Run(Establish(s, c), events, m)
       && c in m.records && m.records[c].status == Active && TimesOut(m, e, c, status) {
      EstablishEnters(s, c, ids);
      EstablishArms(s, c);
      EnteredTimesOut(Establish(s, c), events, m, ids, c, MaxDuration, s.now + 3600000, e, status);
    }
  }

  // ---------------------------------------------------------------- who is let through

  /** The endpoint accepts exactly a participant of a ringing call; then the call connects, otherwise nothing changes. */
  lemma AcceptAnswers(s: State, c: CallId, user: UserId)
    requires Good(s) && KeysKept(s)
    ensures MayAccept(s, c, user)
            <==> c in s.records && s.records[c].status == Ringing && user in s.redis[c].participants
    ensures MayAccept(s, c, user) ==> Accept(s, c, user).records[c].status == Connecting
    ensures !MayAccept(s, c, user) ==> Accept(s, c, user) == s
  {
    assert c in s.records && s.records[c].status == Ringing ==> OpenCall(s, c);
    if MayAccept(s, c, user) { AcceptStatus(s, c, user, c); }
  }

  /** The participants are those the call was started with, as long as it is open. */
  lemma {:induction false} ParticipantsStay(s: State, events: seq<Event>, t: State, c: CallId)
    requires StoresAgree(s) && Run(s, events, t) && c in s.redis && c in t.redis && c in s.records
    ensures t.redis[c].participants == s.redis[c].participants
    decreases |events|
  {
    if events != [] {
      StepStoresAgree(s, events[0]);
      KeysNeverReturn(Step(s, events[0]), events[1..], t, c);
      StepParticipants(s, events[0], c);
      ParticipantsStay(Step(s, events[0]), events[1..], t, c);
    }
  }

  lemma StepParticipants(s: State, e: Event, c: CallId)
    requires Enabled(s, e) && c in s.records
    ensures c in Step(s, e).records
    ensures c in Step(s, e).redis ==> c in s.redis && Step(s, e).redis[c].participants == s.redis[c].participants
  {
    match e
    case InitiateE(d, participants, ringing) => InitiateStores(s, d, participants, ringing);
    case AcceptE(d, user) =>
    case EstablishE(d) => EstablishStores(s, d);
    case EndE(d) =>
    case FireE(id) =>
    case CleanupE(d) =>
    case TickE(time) =>
  }

  /** A call's Redis key, once gone, never comes back. */
  lemma {:induction false} KeysNeverReturn(s: State, events: seq<Event>, t: State, c: CallId)
    requires Run(s, events, t) && c in s.records && c in t.redis
    ensures c in s.redis
    decreases |events|
  {
    if events != [] {
      StepParticipants(s, events[0], c);
      KeysNeverReturn(Step(s, events[0]), events[1..], t, c);
    }
  }
}
