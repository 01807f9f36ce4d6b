/** CallLifecycleService: the REST call path, whose phases RINGING, CONNECTING and ACTIVE each run
    under one timer kept in the `activeTimeouts` map.

    JavaScript timers are modelled by themselves (`armed`), apart from the map that names them: a map
    entry that is overwritten leaves its old timer armed, and clearing by prefix may hit foreign keys. */
module CallLifecycle {
  import opened Options

  type CallId = string
  type UserId = string

  datatype Status = Initiating | Ringing | Connecting | Active | Ended | Failed
  {
    predicate Terminal() { this == Ended || this == Failed }
  }

  /** CallErrorHandlerService.validateStateTransition: the specification of the status order. */
  function ValidTargets(from: Status): set<Status> {
    match from
    case Initiating => {Ringing, Failed, Ended}
    case Ringing => {Connecting, Failed, Ended}
    case Connecting => {Active, Failed, Ended}
    case Active => {Ended, Failed}
    case Ended => {}
    case Failed => {}
  }

  predicate ValidateStateTransition(from: Status, to: Status) {
    to in ValidTargets(from)
  }

  datatype Phase = RingingPhase | ConnectingPhase | MaxDuration

  const RINGING_TIMEOUT := 30000
  const CONNECTING_TIMEOUT := 15000
  const MAX_CALL_DURATION := 3600000

  function Suffix(phase: Phase): string {
    match phase
    case RingingPhase => ":ringing"
    case ConnectingPhase => ":connecting"
    case MaxDuration => ":max_duration"
  }

  function TimerKey(c: CallId, phase: Phase): string {
    c + Suffix(phase)
  }

  datatype Timer = Timer(callId: CallId, phase: Phase, deadline: int)

  /** `ringFor` is the ringing timeout the call was started with. */
  datatype Record = Record(status: Status, createdAt: int, startedAt: Option<int>, ringFor: nat)
  datatype RedisKey = RedisKey(status: Status, participants: seq<UserId>)

  datatype State = State(
    now: int,
    records: map<CallId, Record>,
    redis: map<CallId, RedisKey>,
    armed: map<nat, Timer>,
    timeouts: map<string, nat>,
    nextTimer: nat,
    cleanups: multiset<CallId>)

  // ---------------------------------------------------------------- operations

  function Arm(s: State, c: CallId, phase: Phase, delay: nat): State {
    s.(armed := s.armed[s.nextTimer := Timer(c, phase, s.now + delay)],
    timeouts := s.timeouts[TimerKey(c, phase) := s.nextTimer],
    nextTimer := s.nextTimer + 1)
  }

  function ClearTimeout(s: State, key: string): State {
    if key in s.timeouts
    then s.(armed := s.armed - {s.timeouts[key]}, timeouts := s.timeouts - {key})
    else s
  }

  /** The keys clearAllTimeouts selects: every key that starts with the call id. */
  function KeysWithPrefix(s: State, c: CallId): set<string> {
    set k | k in s.timeouts && c <= k
  }

  function TimersUnder(timeouts: map<string, nat>, keys: set<string>): set<nat> {
    set k | k in keys && k in timeouts :: timeouts[k]
  }

  function ClearAllTimeouts(s: State, c: CallId): State {
    var keys := KeysWithPrefix(s, c);
    s.(armed := s.armed - TimersUnder(s.timeouts, keys), timeouts := s.timeouts - keys)
  }

  /** updateCallStatus: Mongo and Redis each change only what exists. */
  function SetStatus(s: State, c: CallId, status: Status): State {
    s.(records := if c in s.records then s.records[c := s.records[c].(status := status)] else s.records,
    redis := if c in s.redis then s.redis[c := s.redis[c].(status := status)] else s.redis)
  }

  /** `options.ringingTimeout || RINGING`: a zero option also means the default. */
  function RingingDelay(option: Option<nat>): nat {
    if option.Some? && option.value != 0 then option.value else RINGING_TIMEOUT
  }

  function Initiate(s: State, c: CallId, participants: seq<UserId>, ringing: Option<nat>): State {
    var r := Record(Initiating, s.now, None, RingingDelay(ringing));
    var t := s.(records := s.records[c := r], redis := s.redis[c := RedisKey(Initiating, participants)]);
    Arm(SetStatus(t, c, Ringing), c, RingingPhase, RingingDelay(ringing))
  }

  /** The controller lets a participant accept only while the Redis key says RINGING. */
  predicate MayAccept(s: State, c: CallId, user: UserId) {
    c in s.redis && user in s.redis[c].participants && s.redis[c].status == Ringing
  }

  function Accept(s: State, c: CallId, user: UserId): State {
    if !MayAccept(s, c, user) then s
    else Arm(SetStatus(ClearTimeout(s, TimerKey(c, RingingPhase)), c, Connecting), c, ConnectingPhase, CONNECTING_TIMEOUT)
  }

  function Establish(s: State, c: CallId): State {
    var t := SetStatus(ClearTimeout(s, TimerKey(c, ConnectingPhase)), c, Active);
    var u := t.(records := if c in t.records then t.records[c := t.records[c].(startedAt := Some(t.now))] else t.records);
    Arm(u, c, MaxDuration, MAX_CALL_DURATION)
  }

  /** endCall and handleCallFailure differ only in the terminal status they write. */
  function Close(s: State, c: CallId, status: Status): State {
    var t := SetStatus(ClearAllTimeouts(s, c), c, status);
    t.(cleanups := t.cleanups + multiset{c})
  }

  function EndCall(s: State, c: CallId): State {
    Close(s, c, Ended)
  }

  /** A due timer fires once and runs the handler of its phase. */
  function Fire(s: State, id: nat): State
    requires id in s.armed
  {
    var timer := s.armed[id];
    Close(s.(armed := s.armed - {id}), timer.callId, if timer.phase == MaxDuration then Ended else Failed)
  }

  /** The delayed cleanupCall: timers once more, then the Redis key. */
  function Cleanup(s: State, c: CallId): State {
    var t := ClearAllTimeouts(s, c);
    t.(redis := t.redis - {c}, cleanups := t.cleanups - multiset{c})
  }

  // ---------------------------------------------------------------- runs

  datatype Event =
    | InitiateE(callId: CallId, participants: seq<UserId>, ringing: Option<nat>)
    | AcceptE(callId: CallId, user: UserId)
    | EstablishE(callId: CallId)
    | EndE(callId: CallId)
    | FireE(id: nat)
    | CleanupE(callId: CallId)
    | TickE(time: int)

  /** Call ids are fresh, connections are established only while CONNECTING, timers fire when due, and
      the clock never passes a due timer. */
  predicate Enabled(s: State, e: Event) {
    match e
    case InitiateE(c, _, _) => c !in s.records && c !in s.cleanups
    case AcceptE(_, _) => true
    case EstablishE(c) => c in s.records && s.records[c].status == Connecting
    case EndE(_) => true
    case FireE(id) => id in s.armed && s.armed[id].deadline <= s.now
    case CleanupE(c) => c in s.cleanups
    case TickE(time) => s.now <= time && forall id :: id in s.armed ==> time <= s.armed[id].deadline
  }

  function Step(s: State, e: Event): State
    requires Enabled(s, e)
  {
    match e
    case InitiateE(c, participants, ringing) => Initiate(s, c, participants, ringing)
    case AcceptE(c, user) => Accept(s, c, user)
    case EstablishE(c) => Establish(s, c)
    case EndE(c) => EndCall(s, c)
    case FireE(id) => Fire(s, id)
    case CleanupE(c) => Cleanup(s, c)
    case TickE(time) => s.(now := time)
  }

  ghost predicate Run(s: State, events: seq<Event>, t: State)
    decreases |events|
  {
    if events == [] then s == t
    else Enabled(s, events[0]) && Run(Step(s, events[0]), events[1..], t)
  }

  // ---------------------------------------------------------------- the invariant

  function PhaseOf(status: Status): Phase
    requires status in {Ringing, Connecting, Active}
  {
    match status
    case Ringing => RingingPhase
    case Connecting => ConnectingPhase
    case _ => MaxDuration
  }

  /** The latest time at which the timer of a phase may be due. */
  function Budget(r: Record, phase: Phase): int {
    r.createdAt + r.ringFor +
    match phase
    case RingingPhase => 0
    case ConnectingPhase => CONNECTING_TIMEOUT
    case MaxDuration => CONNECTING_TIMEOUT + MAX_CALL_DURATION
  }

  predicate OpenCall(s: State, c: CallId) {
    c in s.records && !s.records[c].status.Terminal()
  }

  /** An armed timer belongs to an open call, is the one of the call's phase, and is the one the map names. */
  predicate TimerSound(s: State, id: nat)
    requires id in s.armed
  {
    var t := s.armed[id];
    && id < s.nextTimer
    && OpenCall(s, t.callId)
    && s.records[t.callId].status in {Ringing, Connecting, Active}
    && t.phase == PhaseOf(s.records[t.callId].status)
    && TimerKey(t.callId, t.phase) in s.timeouts
    && s.timeouts[TimerKey(t.callId, t.phase)] == id
    && s.now <= t.deadline <= Budget(s.records[t.callId], t.phase)
  }

  predicate KeySound(s: State, k: string)
    requires k in s.timeouts
  {
    s.timeouts[k] in s.armed && k == TimerKey(s.armed[s.timeouts[k]].callId, s.armed[s.timeouts[k]].phase)
  }

  predicate CallSound(s: State, c: CallId)
    requires c in s.records
  {
    var status := s.records[c].status;
    && status != Initiating
    && (status in {Ringing, Connecting, Active} ==> TimerKey(c, PhaseOf(status)) in s.timeouts)
  }

  ghost predicate TimersSound(s: State) {
    && (forall id :: id in s.armed ==> TimerSound(s, id))
    && (forall k :: k in s.timeouts ==> KeySound(s, k))
    && (forall c :: c in s.records ==> CallSound(s, c))
  }

  ghost predicate StoresAgree(s: State) {
    && (forall c :: c in s.redis ==> c in s.records && s.redis[c].status == s.records[c].status)
    && (forall c :: c in s.cleanups ==> !OpenCall(s, c))
  }

  ghost predicate Good(s: State) {
    TimersSound(s) && StoresAgree(s)
  }

  /** Statuses move only as the table allows; a terminal call may only change to the other terminal status. */
  ghost predicate Orderly(s: State, t: State) {
    forall c :: c in s.records ==>
                  c in t.records && MayBecome(s.records[c].status, t.records[c].status)
  }

  predicate MayBecome(from: Status, to: Status) {
    from == to || ValidateStateTransition(from, to) || (from.Terminal() && to.Terminal())
  }

  // ---------------------------------------------------------------- timer keys

  lemma TailAt(a: string, b: string, n: nat)
    requires 1 <= n <= |b|
    ensures (a + b)[|a + b| - n] == b[|b| - n]
  {}

  /** The last and the eighth character from the end tell the suffixes apart. */
  lemma SuffixesDiffer(p: Phase, q: Phase)
    ensures |Suffix(p)| >= 8
    ensures Suffix(p)[|Suffix(p)|-1] == Suffix(q)[|Suffix(q)|-1] && Suffix(p)[|Suffix(p)|-8] == Suffix(q)[|Suffix(q)|-8]
            ==> p == q
  {
    assert |Suffix(q)| >= 8;
  }

  lemma TimerKeyInjective(c: CallId, p: Phase, d: CallId, q: Phase)
    requires TimerKey(c, p) == TimerKey(d, q)
    ensures c == d && p == q
  {
    SuffixesDiffer(p, q);
    SuffixesDiffer(q, p);
    TailAt(c, Suffix(p), 1);
    TailAt(c, Suffix(p), 8);
    TailAt(d, Suffix(q), 1);
    TailAt(d, Suffix(q), 8);
    assert c == TimerKey(c, p)[..|c|] == d;
  }

  predicate PrefixFree(ids: set<CallId>) {
    forall c, d | c in ids && d in ids :: c <= d ==> c == d
  }

  /** If neither id is a proper prefix of the other, clearing one call never selects a timer key of the other. */
  lemma PrefixSelectsOwn(c: CallId, d: CallId, phase: Phase)
    ensures c == d ==> c <= TimerKey(d, phase)
    ensures c <= TimerKey(d, phase) ==> c <= d || d <= c
  {}

  /** No open call other than c owns a timer key that starts with c. */
  ghost predicate HitsOnlyItself(s: State, c: CallId) {
    forall id :: id in s.armed && c <= TimerKey(s.armed[id].callId, s.armed[id].phase) ==> s.armed[id].callId == c
  }

  lemma PrefixFreeHitsOnlyItself(s: State, ids: set<CallId>, c: CallId)
    requires PrefixFree(ids) && c in ids && s.records.Keys <= ids && TimersSound(s)
    ensures HitsOnlyItself(s, c)
  {
    forall id | id in s.armed && c <= TimerKey(s.armed[id].callId, s.armed[id].phase)
      ensures s.armed[id].callId == c
    {
      assert TimerSound(s, id);
      PrefixSelectsOwn(c, s.armed[id].callId, s.armed[id].phase);
    }
  }

  lemma ClearAllRemoves(s: State, c: CallId)
    requires TimersSound(s)
    ensures forall id :: id in ClearAllTimeouts(s, c).armed
                         <==> id in s.armed && !(c <= TimerKey(s.armed[id].callId, s.armed[id].phase))
    ensures forall k :: k in ClearAllTimeouts(s, c).timeouts <==> k in s.timeouts && !(c <= k)
  {}

  // ---------------------------------------------------------------- every step keeps the invariant

  /** The timer an open call is under. */
  lemma OpenTimer(s: State, c: CallId)
    requires TimersSound(s) && OpenCall(s, c)
    ensures s.records[c].status in {Ringing, Connecting, Active}
    ensures var phase := PhaseOf(s.records[c].status);
            && TimerKey(c, phase) in s.timeouts && s.timeouts[TimerKey(c, phase)] in s.armed
            && s.armed[s.timeouts[TimerKey(c, phase)]].callId == c
            && s.armed[s.timeouts[TimerKey(c, phase)]].phase == phase
  {
    assert CallSound(s, c);
    var phase := PhaseOf(s.records[c].status);
    var k := TimerKey(c, phase);
    assert KeySound(s, k);
    TimerKeyInjective(s.armed[s.timeouts[k]].callId, s.armed[s.timeouts[k]].phase, c, phase);
  }

  lemma CloseCallSound(s: State, c: CallId, status: Status, d: CallId)
    requires TimersSound(s) && HitsOnlyItself(s, c) && status.Terminal() && d in s.records
    ensures CallSound(Close(s, c, status), d)
  {
    assert CallSound(s, d);
    if d != c && OpenCall(s, d) {
      OpenTimer(s, d);
      var k := TimerKey(d, PhaseOf(s.records[d].status));
      assert !(c <= k);
      assert k in Close(s, c, status).timeouts;
      assert Close(s, c, status).records[d] == s.records[d];
    }
  }

  lemma CloseTimersSound(s: State, c: CallId, status: Status)
    requires TimersSound(s) && HitsOnlyItself(s, c) && status.Terminal()
    ensures TimersSound(Close(s, c, status))
  {
    var t := Close(s, c, status);
    ClearAllRemoves(s, c);
    forall d | d in t.records ensures CallSound(t, d) { CloseCallSound(s, c, status, d); }
    forall id | id in t.armed ensures TimerSound(t, id) {
      assert TimerSound(s, id);
      PrefixSelectsOwn(c, c, s.armed[id].phase);
    }
    forall k | k in t.timeouts ensures KeySound(t, k) { assert KeySound(s, k); }
  }

  lemma CloseGood(s: State, c: CallId, status: Status)
    requires Good(s) && HitsOnlyItself(s, c) && status.Terminal()
    ensures Good(Close(s, c, status)) && Orderly(s, Close(s, c, status))
    ensures c in s.records ==> Close(s, c, status).records[c].status == status
  {
    CloseTimersSound(s, c, status);
    forall d | d in s.records ensures MayBecome(s.records[d].status, Close(s, c, status).records[d].status) {
      assert CallSound(s, d);
    }
  }

  /** The exact condition: ending a call keeps every call under its timer iff no other open call owns a
      timer key that starts with the ended id. */
  lemma EndGoodIff(s: State, c: CallId)
    requires Good(s)
    ensures Good(EndCall(s, c)) <==> HitsOnlyItself(s, c)
  {
    if HitsOnlyItself(s, c) {
      CloseGood(s, c, Ended);
    } else {
      var id :| id in s.armed && c <= TimerKey(s.armed[id].callId, s.armed[id].phase) && s.armed[id].callId != c;
      assert TimerSound(s, id);
      ClearAllRemoves(s, c);
      assert !CallSound(EndCall(s, c), s.armed[id].callId);
    }
  }

  /** A fired timer closes its call exactly as closing the call would while the timer is still armed. */
  lemma FireIsClose(s: State, id: nat)
    requires TimersSound(s) && id in s.armed
    ensures Fire(s, id) == Close(s, s.armed[id].callId, if s.armed[id].phase == MaxDuration then Ended else Failed)
  {}

  /** By the time clean-up runs its call has no timer left, so it clears none. */
  lemma CleanupClearsNothing(s: State, c: CallId)
    requires TimersSound(s) && !OpenCall(s, c) && HitsOnlyItself(s, c)
    ensures ClearAllTimeouts(s, c) == s
  {}

  lemma CleanupGood(s: State, c: CallId)
    requires Good(s) && c in s.cleanups && HitsOnlyItself(s, c)
    ensures Good(Cleanup(s, c)) && Orderly(s, Cleanup(s, c))
  {
    var t := Cleanup(s, c);
    CleanupClearsNothing(s, c);
    forall id | id in t.armed ensures TimerSound(t, id) { assert TimerSound(s, id); }
    forall k | k in t.timeouts ensures KeySound(t, k) { assert KeySound(s, k); }
    forall d | d in t.records ensures CallSound(t, d) { assert CallSound(s, d); }
  }

  /** Moving a call on to its next phase swaps its timer for the new phase's one. */
  lemma AdvanceSound(s: State, t: State, c: CallId, r: Record, delay: nat)
    requires TimersSound(s) && c in s.records && s.records[c].status in {Ringing, Connecting}
    requires r.status in {Connecting, Active} && PhaseOf(r.status) != PhaseOf(s.records[c].status)
    requires r.createdAt == s.records[c].createdAt && r.ringFor == s.records[c].ringFor
    requires t.now == s.now && t.records == s.records[c := r]
    requires TimerKey(c, PhaseOf(s.records[c].status)) in s.timeouts
    requires var k := TimerKey(c, PhaseOf(s.records[c].status));
             && t.armed == (s.armed - {s.timeouts[k]})[s.nextTimer := Timer(c, PhaseOf(r.status), s.now + delay)]
             && t.timeouts == (s.timeouts - {k})[TimerKey(c, PhaseOf(r.status)) := s.nextTimer]
    requires t.nextTimer == s.nextTimer + 1
    requires s.now + delay <= Budget(r, PhaseOf(r.status))
    ensures TimersSound(t)
  {
    var old_, new_ := PhaseOf(s.records[c].status), PhaseOf(r.status);
    var k, k' := TimerKey(c, old_), TimerKey(c, new_);
    forall id | id in t.armed ensures TimerSound(t, id) {
      if id != s.nextTimer {
        assert TimerSound(s, id);
        var u := s.armed[id];
        assert u.callId != c;
        if TimerKey(u.callId, u.phase) == k' { TimerKeyInjective(u.callId, u.phase, c, new_); }
        if TimerKey(u.callId, u.phase) == k { TimerKeyInjective(u.callId, u.phase, c, old_); }
      }
    }
    forall x | x in t.timeouts ensures KeySound(t, x) {
      if x != k' {
        assert KeySound(s, x);
        assert TimerSound(s, s.timeouts[x]);
        assert KeySound(s, k);
      }
    }
    forall d | d in t.records ensures CallSound(t, d) {
      assert CallSound(s, d);
      if d != c && OpenCall(s, d) {
        if TimerKey(d, PhaseOf(s.records[d].status)) == k { TimerKeyInjective(d, PhaseOf(s.records[d].status), c, old_); }
      }
    }
  }

  /** The timer of an open call bounds the clock. */
  lemma OpenCallInTime(s: State, c: CallId)
    requires TimersSound(s) && OpenCall(s, c)
    ensures s.records[c].status in {Ringing, Connecting, Active}
    ensures TimerKey(c, PhaseOf(s.records[c].status)) in s.timeouts
    ensures s.now <= Budget(s.records[c], PhaseOf(s.records[c].status))
  {
    OpenTimer(s, c);
    assert TimerSound(s, s.timeouts[TimerKey(c, PhaseOf(s.records[c].status))]);
  }

  lemma AcceptTimersSound(s: State, c: CallId, user: UserId)
    requires Good(s) && MayAccept(s, c, user)
    ensures TimersSound(Accept(s, c, user)) && c in s.records && s.records[c].status == Ringing
  {
    OpenCallInTime(s, c);
    AdvanceSound(s, Accept(s, c, user), c, s.records[c].(status := Connecting), CONNECTING_TIMEOUT);
  }

  lemma AcceptStores(s: State, c: CallId, user: UserId)
    requires MayAccept(s, c, user) && c in s.records
    ensures var t := Accept(s, c, user);
            && t.records == s.records[c := s.records[c].(status := Connecting)]
            && t.redis == s.redis[c := s.redis[c].(status := Connecting)]
            && t.cleanups == s.cleanups
  {}

  lemma AcceptGood(s: State, c: CallId, user: UserId)
    requires Good(s)
    ensures Good(Accept(s, c, user)) && Orderly(s, Accept(s, c, user))
  {
    if MayAccept(s, c, user) {
      AcceptTimersSound(s, c, user);
      AcceptStores(s, c, user);
      StatusMove(s, Accept(s, c, user), c);
    }
  }

  lemma EstablishTimersSound(s: State, c: CallId)
    requires TimersSound(s) && c in s.records && s.records[c].status == Connecting
    ensures TimersSound(Establish(s, c))
  {
    OpenCallInTime(s, c);
    AdvanceSound(s, Establish(s, c), c, s.records[c].(status := Active, startedAt := Some(s.now)), MAX_CALL_DURATION);
  }

  lemma EstablishStores(s: State, c: CallId)
    requires c in s.records
    ensures var t := Establish(s, c);
            && t.records == s.records[c := s.records[c].(status := Active, startedAt := Some(s.now))]
            && t.redis == (if c in s.redis then s.redis[c := s.redis[c].(status := Active)] else s.redis)
            && t.cleanups == s.cleanups
  {}

  lemma EstablishGood(s: State, c: CallId)
    requires Good(s) && c in s.records && s.records[c].status == Connecting
    ensures Good(Establish(s, c)) && Orderly(s, Establish(s, c))
  {
    EstablishTimersSound(s, c);
    EstablishStores(s, c);
    StatusMove(s, Establish(s, c), c);
  }

  /** A step that moves one open call to an allowed open status, in both stores. */
  lemma StatusMove(s: State, t: State, c: CallId)
    requires StoresAgree(s) && OpenCall(s, c) && c in t.records && OpenCall(t, c) && t.cleanups == s.cleanups
    requires t.records == s.records[c := t.records[c]] && ValidateStateTransition(s.records[c].status, t.records[c].status)
    requires t.redis == if c in s.redis then s.redis[c := s.redis[c].(status := t.records[c].status)] else s.redis
    ensures StoresAgree(t) && Orderly(s, t)
  {}

  /** The exact condition: a connection report keeps timers and status order iff the call is CONNECTING.
      The controller does not check it. */
  lemma EstablishGoodIff(s: State, c: CallId)
    requires Good(s)
    ensures Good(Establish(s, c)) && Orderly(s, Establish(s, c))
            <==> c in s.records && s.records[c].status == Connecting
  {
    var t := Establish(s, c);
    if c in s.records && s.records[c].status == Connecting {
      EstablishGood(s, c);
    } else if c !in s.records {
      assert s.nextTimer in t.armed && !TimerSound(t, s.nextTimer);
    } else if OpenCall(s, c) {
      EstablishLeaksTimer(s, c);
    } else {
      assert !MayBecome(s.records[c].status, t.records[c].status);
    }
  }

  /** Establishing a call that is ringing or already active leaves its old timer armed. */
  lemma EstablishLeaksTimer(s: State, c: CallId)
    requires TimersSound(s) && OpenCall(s, c) && s.records[c].status != Connecting
    ensures !TimersSound(Establish(s, c))
  {
    var t := Establish(s, c);
    OpenTimer(s, c);
    var id := s.timeouts[TimerKey(c, PhaseOf(s.records[c].status))];
    assert TimerSound(s, id);
    var k' := TimerKey(c, ConnectingPhase);
    if k' in s.timeouts && s.timeouts[k'] == id {
      assert KeySound(s, k');
      TimerKeyInjective(c, s.armed[id].phase, c, ConnectingPhase);
    }
    assert id in t.armed && t.armed[id] == s.armed[id];
    assert !TimerSound(t, id);
  }

  lemma InitiateTimersSound(s: State, c: CallId, participants: seq<UserId>, ringing: Option<nat>)
    requires TimersSound(s) && c !in s.records
    ensures TimersSound(Initiate(s, c, participants, ringing))
  {
    var t := Initiate(s, c, participants, ringing);
    var k' := TimerKey(c, RingingPhase);
    if k' in s.timeouts {
      assert KeySound(s, k') && TimerSound(s, s.timeouts[k']);
      TimerKeyInjective(s.armed[s.timeouts[k']].callId, s.armed[s.timeouts[k']].phase, c, RingingPhase);
    }
    assert k' !in s.timeouts;
    forall id | id in t.armed ensures TimerSound(t, id) {
      if id != s.nextTimer { assert TimerSound(s, id); }
    }
    forall k | k in t.timeouts ensures KeySound(t, k) {
      if k != k' { assert KeySound(s, k) && TimerSound(s, s.timeouts[k]); }
    }
    forall d | d in t.records ensures CallSound(t, d) {
      if d != c { assert CallSound(s, d); }
    }
  }

  lemma InitiateStores(s: State, c: CallId, participants: seq<UserId>, ringing: Option<nat>)
    ensures var t := Initiate(s, c, participants, ringing);
            && t.records == s.records[c := Record(Ringing, s.now, None, RingingDelay(ringing))]
            && t.redis == s.redis[c := RedisKey(Ringing, participants)]
            && t.cleanups == s.cleanups
  {}

  lemma NewCallAgrees(s: State, t: State, c: CallId)
    requires StoresAgree(s) && c !in s.records && c !in s.cleanups && c in t.records && c in t.redis
    requires t.records == s.records[c := t.records[c]] && t.redis == s.redis[c := t.redis[c]]
    requires t.redis[c].status == t.records[c].status && t.cleanups == s.cleanups
    ensures StoresAgree(t) && Orderly(s, t)
  {}

  lemma InitiateGood(s: State, c: CallId, participants: seq<UserId>, ringing: Option<nat>)
    requires Good(s) && c !in s.records && c !in s.cleanups
    ensures Good(Initiate(s, c, participants, ringing)) && Orderly(s, Initiate(s, c, participants, ringing))
  {
    InitiateTimersSound(s, c, participants, ringing);
    InitiateStores(s, c, participants, ringing);
    NewCallAgrees(s, Initiate(s, c, participants, ringing), c);
  }

  lemma TickGood(s: State, time: int)
    requires Good(s) && Enabled(s, TickE(time))
    ensures Good(s.(now := time))
  {}

  lemma FireGood(s: State, id: nat, ids: set<CallId>)
    requires Good(s) && id in s.armed && PrefixFree(ids) && s.records.Keys <= ids
    ensures Good(Fire(s, id)) && Orderly(s, Fire(s, id))
  {
    assert TimerSound(s, id);
    PrefixFreeHitsOnlyItself(s, ids, s.armed[id].callId);
    FireIsClose(s, id);
    CloseGood(s, s.armed[id].callId, if s.armed[id].phase == MaxDuration then Ended else Failed);
  }

  /** Ids named by an event; a run is over a prefix-free set of ids. */
  predicate Names(e: Event, ids: set<CallId>) {
    match e
    case InitiateE(c, _, _) => c in ids
    case EndE(c) => c in ids
    case _ => true
  }

  /** Every id in use is drawn from the given set. */
  ghost predicate IdsWithin(s: State, ids: set<CallId>) {
    s.records.Keys <= ids && forall c :: c in s.cleanups ==> c in ids
  }

  lemma CloseIdsWithin(s: State, c: CallId, status: Status, ids: set<CallId>)
    requires IdsWithin(s, ids) && c in ids
    ensures IdsWithin(Close(s, c, status), ids)
  {}

  lemma StepIdsWithin(s: State, e: Event, ids: set<CallId>)
    requires TimersSound(s) && Enabled(s, e) && IdsWithin(s, ids) && Names(e, ids)
    ensures IdsWithin(Step(s, e), ids)
  {
    match e
    case EndE(c) => CloseIdsWithin(s, c, Ended, ids);
    case FireE(id) =>
      assert TimerSound(s, id);
      FireIsClose(s, id);
      CloseIdsWithin(s, s.armed[id].callId, if s.armed[id].phase == MaxDuration then Ended else Failed, ids);
    case CleanupE(c) => assert Step(s, e).records.Keys == s.records.Keys;
    case AcceptE(c, user) => assert Step(s, e).records.Keys == s.records.Keys;
    case _ =>
  }

  lemma StepGood(s: State, e: Event, ids: set<CallId>)
    requires Good(s) && Enabled(s, e) && PrefixFree(ids) && IdsWithin(s, ids) && Names(e, ids)
    ensures Good(Step(s, e)) && Orderly(s, Step(s, e))
  {
    match e
    case InitiateE(c, participants, ringing) => InitiateGood(s, c, participants, ringing);
    case AcceptE(c, user) => AcceptGood(s, c, user);
    case EstablishE(c) => EstablishGood(s, c);
    case EndE(c) =>
      PrefixFreeHitsOnlyItself(s, ids, c);
      CloseGood(s, c, Ended);
    case FireE(id) => FireGood(s, id, ids);
    case CleanupE(c) =>
      PrefixFreeHitsOnlyItself(s, ids, c);
      CleanupGood(s, c);
    case TickE(time) => TickGood(s, time);
  }

  // ---------------------------------------------------------------- main results

  /** The timers of call c that are armed. */
  function ArmedFor(s: State, c: CallId): set<nat> {
    set id | id in s.armed && s.armed[id].callId == c
  }

  /** An open call has exactly one armed timer, the one of its phase; a terminal or unknown call has none. */
  lemma OneTimerPerOpenCall(s: State, c: CallId)
    requires Good(s)
    ensures OpenCall(s, c) ==> exists id :: ArmedFor(s, c) == {id} && s.records[c].status in {Ringing, Connecting, Active}
                                             && s.armed[id].phase == PhaseOf(s.records[c].status)
    ensures !OpenCall(s, c) ==> ArmedFor(s, c) == {}
  {
    forall id | id in ArmedFor(s, c) ensures OpenCall(s, c) { assert TimerSound(s, id); }
    if OpenCall(s, c) {
      OpenCallInTime(s, c);
      var k := TimerKey(c, PhaseOf(s.records[c].status));
      var id := s.timeouts[k];
      assert KeySound(s, k);
      TimerKeyInjective(s.armed[id].callId, s.armed[id].phase, c, PhaseOf(s.records[c].status));
      forall x ensures x in ArmedFor(s, c) <==> x == id {
        if x in ArmedFor(s, c) { assert TimerSound(s, x); }
      }
      assert ArmedFor(s, c) == {id};
    }
  }

  /** In every run over prefix-free ids each open call is under its one timer, statuses follow the table, and
      no call is open longer than its ringing timeout plus 15 s plus one hour after it started. */
  lemma {:induction false} RunGood(s: State, events: seq<Event>, t: State, ids: set<CallId>)
    requires Good(s) && Run(s, events, t)
    requires PrefixFree(ids) && IdsWithin(s, ids)
    requires forall e :: e in events ==> Names(e, ids)
    ensures Good(t)
    ensures forall c :: OpenCall(t, c) ==>
                          t.now <= t.records[c].createdAt + t.records[c].ringFor + CONNECTING_TIMEOUT + MAX_CALL_DURATION
    decreases |events|
  {
    if events == [] {
      forall c | OpenCall(t, c)
        ensures t.now <= t.records[c].createdAt + t.records[c].ringFor + CONNECTING_TIMEOUT + MAX_CALL_DURATION
      {
        OpenCallInTime(t, c);
      }
    } else {
      assert events[0] in events;
      StepGood(s, events[0], ids);
      StepIdsWithin(s, events[0], ids);
      RunGood(Step(s, events[0]), events[1..], t, ids);
    }
  }

  /** What brings a call into a status: connecting only an accept by one of its participants while it rings, active
      only a connection report, ended only the end of the call or its maximum duration, failed only the timer of
      an earlier phase. */
  lemma StatusCauses(s: State, e: Event, c: CallId)
    requires Good(s) && Enabled(s, e) && c in s.records
    ensures c in Step(s, e).records
    ensures var was, next := s.records[c].status, Step(s, e).records[c].status;
            next != was ==>
              match next
              case Connecting => e.AcceptE? && e.callId == c && was == Ringing
                                 && c in s.redis && e.user in s.redis[c].participants
              case Active => e == EstablishE(c) && was == Connecting
              case Ended => e == EndE(c) || (e.FireE? && s.armed[e.id].callId == c && was == Active)
              case Failed => e.FireE? && s.armed[e.id].callId == c && (was == Ringing || was == Connecting)
              case _ => false
  {
    match e
    case FireE(id) => FireCauses(s, id, c);
    case AcceptE(d, user) =>
      AcceptStatus(s, d, user, c);
      assert d in s.redis ==> d in s.records && s.redis[d].status == s.records[d].status;
    case InitiateE(d, participants, ringing) =>
    case EstablishE(d) => EstablishStatus(s, d, c);
    case EndE(d) => CloseStatus(s, d, Ended, c);
    case CleanupE(d) =>
    case TickE(time) =>
  }

  lemma AcceptStatus(s: State, d: CallId, user: UserId, c: CallId)
    requires c in s.records
    ensures c in Accept(s, d, user).records
    ensures Accept(s, d, user).records[c].status
            == if d == c && MayAccept(s, c, user) then Connecting else s.records[c].status
  {
  }

  lemma EstablishStatus(s: State, d: CallId, c: CallId)
    requires c in s.records
    ensures c in Establish(s, d).records
    ensures Establish(s, d).records[c].status == if d == c then Active else s.records[c].status
  {
  }

  lemma CloseStatus(s: State, d: CallId, status: Status, c: CallId)
    requires c in s.records
    ensures c in Close(s, d, status).records
    ensures Close(s, d, status).records[c].status == if d == c then status else s.records[c].status
  {
  }

  lemma FireCauses(s: State, id: nat, c: CallId)
    requires TimersSound(s) && id in s.armed && c in s.records
    ensures c in Fire(s, id).records
    ensures var timer, next := s.armed[id], Fire(s, id).records[c].status;
            if timer.callId != c then next == s.records[c].status
            else next == (if s.records[c].status == Active then Ended else Failed)
                 && s.records[c].status in {Ringing, Connecting, Active}
  {}

  /** The two stores agree after every step, whatever the ids. */
  lemma StepStoresAgree(s: State, e: Event)
    requires StoresAgree(s) && Enabled(s, e)
    ensures StoresAgree(Step(s, e))
  {
    match e
    case InitiateE(c, participants, ringing) =>
      InitiateStores(s, c, participants, ringing);
      NewCallAgrees(s, Step(s, e), c);
    case AcceptE(c, user) =>
      if MayAccept(s, c, user) {
        AcceptStores(s, c, user);
        StatusMove(s, Accept(s, c, user), c);
      }
    case EstablishE(c) =>
      EstablishStores(s, c);
      StatusMove(s, Establish(s, c), c);
    case EndE(c) => CloseStoresAgree(s, c, Ended);
    case FireE(id) =>
      CloseStoresAgree(s.(armed := s.armed - {id}), s.armed[id].callId,
                       if s.armed[id].phase == MaxDuration then Ended else Failed);
    case CleanupE(c) =>
    case TickE(time) =>
  }

  lemma CloseStoresAgree(s: State, c: CallId, status: Status)
    requires StoresAgree(s) && status.Terminal()
    ensures StoresAgree(Close(s, c, status))
  {}

  lemma StepTerminal(s: State, e: Event, c: CallId)
    requires StoresAgree(s) && Enabled(s, e) && c in s.records && s.records[c].status.Terminal()
    ensures c in Step(s, e).records && Step(s, e).records[c].status.Terminal()
  {
    match e
    case AcceptE(d, user) => AcceptStatus(s, d, user, c);
    case EstablishE(d) => EstablishStatus(s, d, c);
    case EndE(d) => CloseStatus(s, d, Ended, c);
    case FireE(id) =>
      CloseStatus(s.(armed := s.armed - {id}), s.armed[id].callId,
                  if s.armed[id].phase == MaxDuration then Ended else Failed, c);
    case _ =>
  }

  /** A terminal call stays terminal, whatever happens later and whatever the ids. */
  lemma {:induction false} TerminalForever(s: State, events: seq<Event>, t: State, c: CallId)
    requires StoresAgree(s) && Run(s, events, t) && c in s.records && s.records[c].status.Terminal()
    ensures c in t.records && t.records[c].status.Terminal()
    decreases |events|
  {
    if events != [] {
      StepTerminal(s, events[0], c);
      StepStoresAgree(s, events[0]);
      TerminalForever(Step(s, events[0]), events[1..], t, c);
    }
  }

  /** With the default timeouts every call is terminal once 30 + 15 + 3600 seconds have passed. */
  lemma DefaultBound(s: State, events: seq<Event>, t: State, ids: set<CallId>, c: CallId)
    requires Good(s) && Run(s, events, t) && c in t.records && t.records[c].ringFor == RingingDelay(None)
    requires PrefixFree(ids) && IdsWithin(s, ids)
    requires forall e :: e in events ==> Names(e, ids)
    requires t.now > t.records[c].createdAt + 3645000
    ensures t.records[c].status.Terminal() && ArmedFor(t, c) == {}
  {
    RunGood(s, events, t, ids);
    OneTimerPerOpenCall(t, c);
  }

  // ---------------------------------------------------------------- when a call was started

  /** A call's start time is set when it becomes active, and its timers run from the right moments. */
  predicate StartSound(s: State, c: CallId)
    requires c in s.records
  {
    var r := s.records[c];
    && r.createdAt <= s.now && r.ringFor > 0
    && (r.status in {Ringing, Connecting} ==> r.startedAt.None?)
    && (r.status == Active ==> r.startedAt.Some?)
    && (r.startedAt.Some? ==> r.createdAt <= r.startedAt.value <= s.now)
  }

  predicate DeadlineSound(s: State, id: nat)
    requires id in s.armed
  {
    var t := s.armed[id];
    && t.callId in s.records
    && (t.phase == RingingPhase ==> t.deadline == s.records[t.callId].createdAt + s.records[t.callId].ringFor)
    && (t.phase == MaxDuration ==> s.records[t.callId].startedAt == Some(t.deadline - MAX_CALL_DURATION))
  }

  ghost predicate TimesSound(s: State) {
    && (forall c :: c in s.records ==> StartSound(s, c))
    && (forall id :: id in s.armed ==> DeadlineSound(s, id))
  }

  /** A step that arms nothing and changes no times keeps the times sound. */
  lemma TimesFrame(s: State, t: State)
    requires TimesSound(s) && t.now == s.now && t.records.Keys == s.records.Keys
    requires forall c :: c in s.records ==> t.records[c] == s.records[c]
                                            || (t.records[c].status.Terminal() && t.records[c] == s.records[c].(status := t.records[c].status))
    requires forall id :: id in t.armed ==> id in s.armed && t.armed[id] == s.armed[id]
    ensures TimesSound(t)
  {}

  lemma InitiateTimes(s: State, c: CallId, participants: seq<UserId>, ringing: Option<nat>)
    requires TimesSound(s) && c !in s.records
    ensures TimesSound(Initiate(s, c, participants, ringing))
  {}

  lemma AcceptTimes(s: State, c: CallId, user: UserId)
    requires Good(s) && TimesSound(s)
    ensures TimesSound(Accept(s, c, user))
  {
    var t := Accept(s, c, user);
    if MayAccept(s, c, user) {
      forall d | d in t.records ensures StartSound(t, d) { assert StartSound(s, d); }
      forall id | id in t.armed ensures DeadlineSound(t, id) { if id != s.nextTimer { assert DeadlineSound(s, id); } }
    }
  }

  /** Moving a connecting call on changes no deadline that was sound: all its old timers are of an earlier phase. */
  lemma EstablishDeadline(s: State, c: CallId, id: nat)
    requires TimersSound(s) && c in s.records && s.records[c].status == Connecting
    requires id in Establish(s, c).armed && id != s.nextTimer && id in s.armed && DeadlineSound(s, id)
    ensures DeadlineSound(Establish(s, c), id)
  {
    EstablishStores(s, c);
    assert TimerSound(s, id);
    assert Establish(s, c).armed[id] == s.armed[id];
  }

  lemma EstablishTimes(s: State, c: CallId)
    requires Good(s) && TimesSound(s) && c in s.records && s.records[c].status == Connecting
    ensures TimesSound(Establish(s, c))
  {
    var t := Establish(s, c);
    EstablishStores(s, c);
    forall d | d in t.records ensures StartSound(t, d) { assert StartSound(s, d); }
    forall id | id in t.armed ensures DeadlineSound(t, id) {
      if id != s.nextTimer { EstablishDeadline(s, c, id); }
    }
  }

  lemma StepTimes(s: State, e: Event)
    requires Good(s) && TimesSound(s) && Enabled(s, e)
    ensures TimesSound(Step(s, e))
  {
    match e
    case InitiateE(c, participants, ringing) => InitiateTimes(s, c, participants, ringing);
    case AcceptE(c, user) => AcceptTimes(s, c, user);
    case EstablishE(c) => EstablishTimes(s, c);
    case EndE(c) => TimesFrame(s, EndCall(s, c));
    case FireE(id) => TimesFrame(s, Fire(s, id));
    case CleanupE(c) => TimesFrame(s, Cleanup(s, c));
    case TickE(time) =>
      var t := Step(s, e);
      forall c | c in t.records ensures StartSound(t, c) { assert StartSound(s, c); }
      forall id | id in t.armed ensures DeadlineSound(t, id) { assert DeadlineSound(s, id); }
  }

  /** In every run a ringing call rings no longer than its positive timeout, an active call carries its start time and
      lasts no longer than an hour from it, and a call that never became active has no start time while open. */
  lemma {:induction false} PhaseTimes(s: State, events: seq<Event>, t: State, ids: set<CallId>, c: CallId)
    requires Good(s) && TimesSound(s) && Run(s, events, t)
    requires PrefixFree(ids) && IdsWithin(s, ids)
    requires forall e :: e in events ==> Names(e, ids)
    ensures Good(t) && TimesSound(t)
    ensures c in t.records && t.records[c].status == Ringing
            ==> t.now <= t.records[c].createdAt + t.records[c].ringFor && t.records[c].ringFor > 0
                && t.records[c].startedAt.None?
    ensures c in t.records && t.records[c].status == Active
            ==> t.records[c].startedAt.Some? && t.records[c].createdAt <= t.records[c].startedAt.value <= t.now
                && t.now <= t.records[c].startedAt.value + MAX_CALL_DURATION
    decreases |events|
  {
    if events == [] {
      if OpenCall(t, c) {
        OpenTimer(t, c);
        var id := t.timeouts[TimerKey(c, PhaseOf(t.records[c].status))];
        assert TimerSound(t, id) && DeadlineSound(t, id) && StartSound(t, c);
      }
    } else {
      assert events[0] in events;
      StepGood(s, events[0], ids);
      StepIdsWithin(s, events[0], ids);
      StepTimes(s, events[0]);
      PhaseTimes(Step(s, events[0]), events[1..], t, ids, c);
    }
  }

  // ---------------------------------------------------------------- Redis keys

  /** Every open call has its Redis key, and a key outlives its call only until the clean-up. */
  ghost predicate KeysKept(s: State) {
    && (forall c :: OpenCall(s, c) ==> c in s.redis)
    && (forall c :: c in s.redis ==> OpenCall(s, c) || c in s.cleanups)
  }

  lemma AdvanceKeys(s: State, t: State, c: CallId)
    requires KeysKept(s) && t.redis.Keys == s.redis.Keys && t.cleanups == s.cleanups
    requires forall d :: d != c ==> (OpenCall(t, d) <==> OpenCall(s, d))
    requires OpenCall(s, c) && OpenCall(t, c)
    ensures KeysKept(t)
  {}

  lemma AcceptKeys(s: State, c: CallId, user: UserId)
    requires Good(s) && KeysKept(s)
    ensures KeysKept(Accept(s, c, user))
  {
    if MayAccept(s, c, user) {
      assert c in s.records && s.records[c].status == Ringing;
      AcceptStores(s, c, user);
      AdvanceKeys(s, Accept(s, c, user), c);
    }
  }

  lemma EstablishKeys(s: State, c: CallId)
    requires KeysKept(s) && c in s.records && s.records[c].status == Connecting
    ensures KeysKept(Establish(s, c))
  {
    EstablishStores(s, c);
    AdvanceKeys(s, Establish(s, c), c);
  }

  lemma CloseKeys(s: State, c: CallId, status: Status)
    requires KeysKept(s) && status.Terminal()
    ensures KeysKept(Close(s, c, status))
  {
    var t := Close(s, c, status);
    assert t.records.Keys == s.records.Keys && t.redis.Keys == s.redis.Keys;
    forall d ensures OpenCall(t, d) <==> OpenCall(s, d) && d != c {
      if d in s.records { CloseStatus(s, c, status, d); }
    }
    assert forall d :: d in t.cleanups <==> d in s.cleanups || d == c;
  }

  lemma CleanupKeys(s: State, c: CallId)
    requires Good(s) && KeysKept(s) && c in s.cleanups
    ensures KeysKept(Cleanup(s, c))
  {
    var t := Cleanup(s, c);
    assert !OpenCall(s, c);
    assert forall d :: d != c ==> (d in t.cleanups <==> d in s.cleanups);
    assert forall d :: OpenCall(t, d) <==> OpenCall(s, d);
  }

  lemma StepKeys(s: State, e: Event)
    requires Good(s) && KeysKept(s) && Enabled(s, e)
    ensures KeysKept(Step(s, e))
  {
    match e
    case InitiateE(c, participants, ringing) =>
    case AcceptE(c, user) => AcceptKeys(s, c, user);
    case EstablishE(c) => EstablishKeys(s, c);
    case EndE(c) => CloseKeys(s, c, Ended);
    case FireE(id) =>
      CloseKeys(s, s.armed[id].callId, if s.armed[id].phase == MaxDuration then Ended else Failed);
      FireIsClose(s, id);
    case CleanupE(c) => CleanupKeys(s, c);
    case TickE(time) =>
  }

  /** In every run, once no clean-up is pending, the Redis keys are exactly those of the open calls. */
  lemma {:induction false} RunKeys(s: State, events: seq<Event>, t: State, ids: set<CallId>)
    requires Good(s) && KeysKept(s) && Run(s, events, t)
    requires PrefixFree(ids) && IdsWithin(s, ids)
    requires forall e :: e in events ==> Names(e, ids)
    ensures KeysKept(t)
    ensures t.cleanups == multiset{} ==> forall c :: c in t.redis <==> OpenCall(t, c)
    decreases |events|
  {
    if events != [] {
      assert events[0] in events;
      StepGood(s, events[0], ids);
      StepIdsWithin(s, events[0], ids);
      StepKeys(s, events[0]);
      RunKeys(Step(s, events[0]), events[1..], t, ids);
    }
  }

  /** The clock is never stuck: firing a due timer leaves strictly fewer timers armed. */
  lemma FireMakesProgress(s: State, id: nat)
    requires Good(s) && id in s.armed
    ensures |Fire(s, id).armed| < |s.armed|
  {}

  /** Why ids must be prefix-free: ending "call" disarms the timer of an open call "call2". */
  lemma PrefixDisarmsForeignCall(s: State, id: nat)
    requires Good(s) && id in s.armed && s.armed[id].callId == "call2"
    ensures id !in EndCall(s, "call").armed && !Good(EndCall(s, "call"))
  {
    assert TimerSound(s, id);
    var k := TimerKey("call2", s.armed[id].phase);
    assert "call" <= k;
    ClearAllRemoves(s, "call");
    EndGoodIff(s, "call");
  }

  /** A run that does so, from the empty service: "call2" is started, a call "call" that nobody started is ended, and
      "call2" rings on with no timer at all. */
  lemma PrefixDisarmRun(now: int, participants: seq<UserId>)
    ensures var s := State(now, map[], map[], map[], map[], 0, multiset{});
            var t := EndCall(Initiate(s, "call2", participants, None), "call");
            && Run(s, [InitiateE("call2", participants, None), EndE("call")], t)
            && OpenCall(t, "call2") && t.records["call2"].status == Ringing && t.armed == map[]
  {
    var s := State(now, map[], map[], map[], map[], 0, multiset{});
    var s1 := Initiate(s, "call2", participants, None);
    var t := EndCall(s1, "call");
    var events := [InitiateE("call2", participants, None), EndE("call")];
    assert events[1..] == [EndE("call")] && events[1..][1..] == [];
    assert Run(t, [], t) && Run(s1, events[1..], t);
    var k := TimerKey("call2", RingingPhase);
    assert s1.timeouts == map[k := 0] && s1.armed.Keys == {0};
    assert "call" <= k;
    assert k in KeysWithPrefix(s1, "call");
    assert 0 in TimersUnder(s1.timeouts, KeysWithPrefix(s1, "call"));
  }

  // ---------------------------------------------------------------- the service, updating its map in place

  class CallLifecycle {
    var now: int
    var records: map<CallId, Record>
    var redis: map<CallId, RedisKey>
    var armed: map<nat, Timer>
    var activeTimeouts: map<string, nat>
    var nextTimer: nat
    var cleanups: multiset<CallId>

    constructor (start: int)
      ensures Stores() == State(start, map[], map[], map[], map[], 0, multiset{})
      ensures Good(Stores())
    {
      now, records, redis, armed, activeTimeouts, nextTimer, cleanups := start, map[], map[], map[], map[], 0, multiset{};
    }

    function Stores(): State
      reads this
    {
      State(now, records, redis, armed, activeTimeouts, nextTimer, cleanups)
    }

    /** setTimeout, and its entry in the map. */
    method SetTimeout(c: CallId, phase: Phase, delay: nat)
      modifies this`armed, this`activeTimeouts, this`nextTimer
      ensures Stores() == Arm(old(Stores()), c, phase, delay)
    {
      armed := armed[nextTimer := Timer(c, phase, now + delay)];
      activeTimeouts := activeTimeouts[TimerKey(c, phase) := nextTimer];
      nextTimer := nextTimer + 1;
    }

    method ClearTimer(key: string)
      modifies this`armed, this`activeTimeouts
      ensures Stores() == ClearTimeout(old(Stores()), key)
    {
      if key in activeTimeouts {
        armed := armed - {activeTimeouts[key]};
        activeTimeouts := activeTimeouts - {key};
      }
    }

    /** clearAllTimeouts: select the keys first, then clear them one by one. */
    method ClearAllTimers(c: CallId)
      modifies this`armed, this`activeTimeouts
      ensures Stores() == ClearAllTimeouts(old(Stores()), c)
    {
      ghost var before := Stores();
      var keys := set k | k in activeTimeouts && c <= k;
      var todo := keys;
      while todo != {}
        invariant todo <= keys == KeysWithPrefix(before, c)
        invariant armed == before.armed - TimersUnder(before.timeouts, keys - todo)
        invariant activeTimeouts == before.timeouts - (keys - todo)
        decreases todo
      {
        var key :| key in todo;
        assert activeTimeouts[key] == before.timeouts[key];
        ClearTimer(key);
        assert keys - (todo - {key}) == (keys - todo) + {key};
        assert TimersUnder(before.timeouts, (keys - todo) + {key})
            == TimersUnder(before.timeouts, keys - todo) + {before.timeouts[key]};
        todo := todo - {key};
      }
      assert keys - todo == keys;
    }

    method UpdateCallStatus(c: CallId, status: Status)
      modifies this`records, this`redis
      ensures Stores() == SetStatus(old(Stores()), c, status)
    {
      if c in records { records := records[c := records[c].(status := status)]; }
      if c in redis { redis := redis[c := redis[c].(status := status)]; }
    }

    method InitiateCall(c: CallId, participants: seq<UserId>, ringing: Option<nat>)
      modifies this
      ensures Stores() == Initiate(old(Stores()), c, participants, ringing)
    {
      records := records[c := Record(Initiating, now, None, RingingDelay(ringing))];
      redis := redis[c := RedisKey(Initiating, participants)];
      UpdateCallStatus(c, Ringing);
      SetTimeout(c, RingingPhase, RingingDelay(ringing));
    }

    /** The controller's accept endpoint and the service's acceptCall behind it. */
    method AcceptCall(c: CallId, user: UserId) returns (accepted: bool)
      modifies this
      ensures accepted == MayAccept(old(Stores()), c, user)
      ensures Stores() == Accept(old(Stores()), c, user)
    {
      if c !in redis || user !in redis[c].participants || redis[c].status != Ringing { return false; }
      ClearTimer(TimerKey(c, RingingPhase));
      UpdateCallStatus(c, Connecting);
      SetTimeout(c, ConnectingPhase, CONNECTING_TIMEOUT);
      accepted := true;
    }

    method EstablishConnection(c: CallId)
      modifies this
      ensures Stores() == Establish(old(Stores()), c)
    {
      ClearTimer(TimerKey(c, ConnectingPhase));
      UpdateCallStatus(c, Active);
      if c in records { records := records[c := records[c].(startedAt := Some(now))]; }
      SetTimeout(c, MaxDuration, MAX_CALL_DURATION);
    }

    method CloseCall(c: CallId, status: Status)
      modifies this
      ensures Stores() == Close(old(Stores()), c, status)
    {
      ClearAllTimers(c);
      UpdateCallStatus(c, status);
      cleanups := cleanups + multiset{c};
    }

    /** A timer callback. */
    method OnTimer(id: nat)
      requires id in armed
      modifies this
      ensures Stores() == Fire(old(Stores()), id)
    {
      var timer := armed[id];
      armed := armed - {id};
      if timer.phase == MaxDuration {
        CloseCall(timer.callId, Ended);
      } else {
        CloseCall(timer.callId, Failed);
      }
    }

    method CleanupCall(c: CallId)
      modifies this
      ensures Stores() == Cleanup(old(Stores()), c)
    {
      ClearAllTimers(c);
      redis := redis - {c};
      cleanups := cleanups - multiset{c};
    }
  }
}
