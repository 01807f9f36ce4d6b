/** Typing indicators of the chat gateway: who is typing where, and the timer that takes each indicator away. */
module Typing {
  type Conversation = string
  type User = string
  type TimerId = nat

  const TYPING_TIMEOUT := 5000

  datatype Entry = Entry(timer: TimerId, timestamp: int)

  /** A scheduled call of clearUserTyping. */
  datatype Timer = Timer(conversation: Conversation, user: User, due: int)

  /** `live` holds the timers that are neither fired nor cleared. */
  datatype State = State(
    typing: map<Conversation, map<User, Entry>>,
    timeouts: map<User, TimerId>,
    live: map<TimerId, Timer>,
    nextId: TimerId,
    now: int)

  predicate Shown(s: State, c: Conversation, u: User) {
    c in s.typing && u in s.typing[c]
  }

  // ---------------------------------------------------------------- operations

  function ForgetTimer(s: State, u: User): State {
    if u in s.timeouts then s.(live := s.live - {s.timeouts[u]}, timeouts := s.timeouts - {u}) else s
  }

  /** Takes one indicator away with its own timer, and the conversation with its last indicator. */
  function DropEntry(s: State, c: Conversation, u: User): State {
    if !Shown(s, c, u) then s
    else
      var rest := s.typing[c] - {u};
      s.(live := s.live - {s.typing[c][u].timer},
         typing := if rest == map[] then s.typing - {c} else s.typing[c := rest])
  }

  /** clearUserTyping */
  function Clear(s: State, c: Conversation, u: User): State {
    ForgetTimer(DropEntry(s, c, u), u)
  }

  function Opened(s: State, c: Conversation): State {
    if c in s.typing then s else s.(typing := s.typing[c := map[]])
  }

  /** setUserTyping with isTyping: only the user's one tracked timer is cleared, whatever conversation it is for. */
  function Start(s: State, c: Conversation, u: User): State {
    var o := Opened(s, c);
    var live := if u in o.timeouts then o.live - {o.timeouts[u]} else o.live;
    o.(live := live[o.nextId := Timer(c, u, o.now + TYPING_TIMEOUT)],
       typing := o.typing[c := o.typing[c][u := Entry(o.nextId, o.now)]],
       timeouts := o.timeouts[u := o.nextId],
       nextId := o.nextId + 1)
  }

  /** setUserTyping without isTyping */
  function Stop(s: State, c: Conversation, u: User): State {
    Clear(Opened(s, c), c, u)
  }

  /** A timer fires: it is gone, and its callback clears the indicator. */
  function Expire(s: State, id: TimerId): State
    requires id in s.live
  {
    Clear(s.(live := s.live - {id}), s.live[id].conversation, s.live[id].user)
  }

  /** The timers of a user's indicators in a set of conversations. */
  function TimersIn(s: State, u: User, convs: set<Conversation>): set<TimerId> {
    set c | c in convs && Shown(s, c, u) :: s.typing[c][u].timer
  }

  /** DropEntry for one user over a set of conversations. */
  function DropAll(s: State, u: User, convs: set<Conversation>): State {
    s.(live := s.live - TimersIn(s, u, convs),
       typing := map c | c in s.typing && !(c in convs && Shown(s, c, u) && s.typing[c] - {u} == map[])
                       :: if c in convs then s.typing[c] - {u} else s.typing[c])
  }

  /** clearAllUserTyping */
  function ClearAll(s: State, u: User): State {
    ForgetTimer(DropAll(s, u, s.typing.Keys), u)
  }

  // ---------------------------------------------------------------- runs

  datatype Event =
    | StartE(conversation: Conversation, user: User)
    | StopE(conversation: Conversation, user: User)
    | SentE(conversation: Conversation, user: User)
    | ExpireE(timer: TimerId)
    | DisconnectE(user: User)
    | TickE(time: int)

  /** Timers fire on time: the clock does not pass the due time of a live timer. */
  predicate Enabled(s: State, e: Event) {
    match e
    case ExpireE(id) => id in s.live && s.live[id].due <= s.now
    case TickE(time) => s.now <= time && forall id <- s.live :: time <= s.live[id].due
    case _ => true
  }

  function Step(s: State, e: Event): State
    requires Enabled(s, e)
  {
    match e
    case StartE(c, u) => Start(s, c, u)
    case StopE(c, u) => Stop(s, c, u)
    case SentE(c, u) => Clear(s, c, u)
    case ExpireE(id) => Expire(s, id)
    case DisconnectE(u) => ClearAll(s, u)
    case TickE(time) => s.(now := time)
  }

  ghost predicate Run(s: State, events: seq<Event>, t: State)
    decreases |events|
  {
    if events == [] then s == t
    else Enabled(s, events[0]) && Run(Step(s, events[0]), events[1..], t)
  }

  function Initial(now: int): State {
    State(map[], map[], map[], 0, now)
  }

  // ---------------------------------------------------------------- the invariant

  /** A live timer is its user's tracked one and belongs to an indicator that names it. */
  predicate TimerHeld(s: State, id: TimerId)
    requires id in s.live
  {
    var t := s.live[id];
    && t.user in s.timeouts && s.timeouts[t.user] == id
    && Shown(s, t.conversation, t.user)
    && s.typing[t.conversation][t.user] == Entry(id, t.due - TYPING_TIMEOUT)
    && s.now <= t.due
  }

  predicate TimersHeld(s: State) {
    forall id <- s.live :: TimerHeld(s, id)
  }

  /** Each tracked timer is live and its user's. */
  predicate TimeoutsLive(s: State) {
    forall u <- s.timeouts :: s.timeouts[u] in s.live && s.live[s.timeouts[u]].user == u
  }

  /** The timer an indicator names is used up, and only that indicator's own if it still lives. */
  predicate EntryOwns(s: State, c: Conversation, u: User)
    requires Shown(s, c, u)
  {
    var id := s.typing[c][u].timer;
    id < s.nextId && (id in s.live ==> s.live[id].conversation == c && s.live[id].user == u)
  }

  ghost predicate EntriesOwn(s: State) {
    forall c, u :: Shown(s, c, u) ==> EntryOwns(s, c, u)
  }

  ghost predicate Good(s: State) {
    TimersHeld(s) && TimeoutsLive(s) && EntriesOwn(s)
  }

  lemma OpenedAt(s: State, c: Conversation, d: Conversation, v: User)
    ensures Shown(Opened(s, c), d, v) == Shown(s, d, v)
    ensures Shown(s, d, v) ==> Opened(s, c).typing[d][v] == s.typing[d][v]
  {
  }

  lemma OpenedGood(s: State, c: Conversation)
    requires Good(s)
    ensures Good(Opened(s, c))
  {
    var t := Opened(s, c);
    forall id <- t.live ensures TimerHeld(t, id) {
      assert TimerHeld(s, id);
    }
    forall d, v | Shown(t, d, v) ensures EntryOwns(t, d, v) {
      OpenedAt(s, c, d, v);
      assert EntryOwns(s, d, v);
    }
  }

  lemma StartAt(s: State, c: Conversation, u: User, d: Conversation, v: User)
    requires d != c || v != u
    ensures var t := Start(s, c, u);
            Shown(t, d, v) == Shown(s, d, v) && (Shown(s, d, v) ==> t.typing[d][v] == s.typing[d][v])
  {
  }

  lemma StartGood(s: State, c: Conversation, u: User)
    requires Good(s)
    ensures Good(Start(s, c, u))
  {
    var t := Start(s, c, u);
    forall id <- s.live ensures id < s.nextId {
      assert TimerHeld(s, id);
      assert EntryOwns(s, s.live[id].conversation, s.live[id].user);
    }
    StartTimersHeld(s, c, u);
    forall d, v | Shown(t, d, v) ensures EntryOwns(t, d, v) {
      if d != c || v != u {
        StartAt(s, c, u, d, v);
        assert EntryOwns(s, d, v);
      }
    }
  }

  lemma StartTimersHeld(s: State, c: Conversation, u: User)
    requires Good(s) && forall id <- s.live :: id < s.nextId
    ensures TimersHeld(Start(s, c, u)) && TimeoutsLive(Start(s, c, u))
  {
    var t := Start(s, c, u);
    forall id <- t.live ensures TimerHeld(t, id) {
      if id != s.nextId {
        assert TimerHeld(s, id);
        StartAt(s, c, u, s.live[id].conversation, s.live[id].user);
      }
    }
    forall v <- t.timeouts ensures t.timeouts[v] in t.live && t.live[t.timeouts[v]].user == v {
      assert v != u ==> v in s.timeouts;
    }
  }

  lemma DropEntryAt(s: State, c: Conversation, u: User, d: Conversation, v: User)
    ensures var t := DropEntry(s, c, u);
            && Shown(t, d, v) == (Shown(s, d, v) && (d != c || v != u))
            && (Shown(t, d, v) ==> t.typing[d][v] == s.typing[d][v])
  {
    if Shown(s, c, u) && d == c && v != u && v in s.typing[c] {
      assert v in s.typing[c] - {u};
    }
  }

  lemma ClearAt(s: State, c: Conversation, u: User, d: Conversation, v: User)
    ensures var t := Clear(s, c, u);
            && Shown(t, d, v) == (Shown(s, d, v) && (d != c || v != u))
            && (Shown(t, d, v) ==> t.typing[d][v] == s.typing[d][v])
  {
    DropEntryAt(s, c, u, d, v);
    assert Clear(s, c, u).typing == DropEntry(s, c, u).typing;
  }

  /** Only the user's timers go. */
  lemma ClearLive(s: State, c: Conversation, u: User)
    requires Good(s)
    ensures var t := Clear(s, c, u);
            && t.timeouts == s.timeouts - {u}
            && forall id :: id in t.live <==> id in s.live && s.live[id].user != u
    ensures forall id <- Clear(s, c, u).live :: Clear(s, c, u).live[id] == s.live[id]
  {
    assert Shown(s, c, u) ==> EntryOwns(s, c, u);
    forall id <- s.live ensures TimerHeld(s, id) {
    }
  }

  lemma ClearGood(s: State, c: Conversation, u: User)
    requires Good(s)
    ensures Good(Clear(s, c, u))
  {
    var t := Clear(s, c, u);
    ClearLive(s, c, u);
    assert t.nextId == s.nextId && t.now == s.now;
    forall id <- t.live ensures TimerHeld(t, id) {
      assert TimerHeld(s, id);
      ClearAt(s, c, u, s.live[id].conversation, s.live[id].user);
    }
    forall d, v | Shown(t, d, v) ensures EntryOwns(t, d, v) {
      ClearAt(s, c, u, d, v);
      assert EntryOwns(s, d, v);
    }
  }

  /** A fired timer leaves its user's tracking and indicator behind; its callback removes both. */
  lemma ExpireIsClear(s: State, id: TimerId)
    requires Good(s) && id in s.live
    ensures Expire(s, id) == Clear(s, s.live[id].conversation, s.live[id].user)
  {
    assert TimerHeld(s, id);
    assert s.live - {id} - {id} == s.live - {id};
  }

  lemma ClearAllAt(s: State, u: User, d: Conversation, v: User)
    ensures var t := ClearAll(s, u);
            Shown(t, d, v) == (Shown(s, d, v) && v != u) && (Shown(t, d, v) ==> t.typing[d][v] == s.typing[d][v])
  {
    if Shown(s, d, v) && v != u {
      assert v in s.typing[d] - {u};
    }
  }

  lemma ClearAllLive(s: State, u: User)
    requires Good(s)
    ensures var t := ClearAll(s, u);
            && t.timeouts == s.timeouts - {u}
            && forall id :: id in t.live <==> id in s.live && s.live[id].user != u
    ensures forall id <- ClearAll(s, u).live :: ClearAll(s, u).live[id] == s.live[id]
  {}

  lemma ClearAllGood(s: State, u: User)
    requires Good(s)
    ensures Good(ClearAll(s, u))
  {
    var t := ClearAll(s, u);
    ClearAllLive(s, u);
    assert t.nextId == s.nextId && t.now == s.now;
    forall id <- t.live ensures TimerHeld(t, id) {
      assert TimerHeld(s, id);
      ClearAllAt(s, u, s.live[id].conversation, s.live[id].user);
    }
    forall d, v | Shown(t, d, v) ensures EntryOwns(t, d, v) {
      ClearAllAt(s, u, d, v);
      assert EntryOwns(s, d, v);
    }
  }

  lemma TickGood(s: State, time: int)
    requires Good(s) && Enabled(s, TickE(time))
    ensures Good(s.(now := time))
  {
    var t := s.(now := time);
    forall id <- t.live ensures TimerHeld(t, id) {
      assert TimerHeld(s, id);
    }
    forall d, v | Shown(t, d, v) ensures EntryOwns(t, d, v) {
      assert EntryOwns(s, d, v);
    }
  }

  lemma StepGood(s: State, e: Event)
    requires Good(s) && Enabled(s, e)
    ensures Good(Step(s, e))
  {
    match e
    case StartE(c, u) => StartGood(s, c, u);
    case StopE(c, u) => OpenedGood(s, c); ClearGood(Opened(s, c), c, u);
    case SentE(c, u) => ClearGood(s, c, u);
    case ExpireE(id) => ExpireIsClear(s, id); ClearGood(s, s.live[id].conversation, s.live[id].user);
    case DisconnectE(u) => ClearAllGood(s, u);
    case TickE(time) => TickGood(s, time);
  }

  lemma {:induction false} RunGood(s: State, events: seq<Event>, t: State)
    requires Good(s) && Run(s, events, t)
    ensures Good(t)
    decreases |events|
  {
    if events != [] {
      StepGood(s, events[0]);
      RunGood(Step(s, events[0]), events[1..], t);
    }
  }

  // ---------------------------------------------------------------- main results

  /** In every run the live timers are exactly the tracked ones, one per user at most, and each is named by a
      shown indicator of its user. */
  lemma LiveTimersAreTracked(now: int, events: seq<Event>, t: State)
    requires Run(Initial(now), events, t)
    ensures t.live.Keys == t.timeouts.Values
    ensures forall i, j :: i in t.live && j in t.live && t.live[i].user == t.live[j].user ==> i == j
    ensures forall i <- t.live :: Shown(t, t.live[i].conversation, t.live[i].user)
                                  && t.typing[t.live[i].conversation][t.live[i].user].timer == i
  {
    RunGood(Initial(now), events, t);
    forall i <- t.live ensures TimerHeld(t, i) && i in t.timeouts.Values {
      assert TimerHeld(t, i);
      assert t.live[i].user in t.timeouts;
    }
  }

  /** After a disconnect nothing of the user is left, and every other user's indicators and timers are as before. */
  lemma DisconnectClears(s: State, u: User, c: Conversation, v: User)
    requires Good(s)
    ensures var t := ClearAll(s, u);
            && Shown(t, c, v) == (v != u && Shown(s, c, v))
            && (Shown(t, c, v) ==> t.typing[c][v] == s.typing[c][v]
                                   && (t.typing[c][v].timer in t.live <==> s.typing[c][v].timer in s.live))
            && (v in t.timeouts <==> v != u && v in s.timeouts)
            && (forall i <- t.live :: t.live[i].user != u)
  {
    ClearAllAt(s, u, c, v);
    ClearAllLive(s, u);
    assert Shown(s, c, v) ==> EntryOwns(s, c, v);
  }

  /** Typing shows the indicator and renews its timer: whatever timer there was, the one it has now is due exactly
      5 seconds later. */
  lemma StartRenews(s: State, c: Conversation, u: User)
    requires Good(s)
    ensures var t := Start(s, c, u);
            && Shown(t, c, u) && t.typing[c][u].timestamp == s.now
            && t.typing[c][u].timer in t.live && t.live[t.typing[c][u].timer] == Timer(c, u, s.now + 5000)
            && (forall i <- t.live :: t.live[i].user == u ==> i == t.typing[c][u].timer)
  {
    StartGood(s, c, u);
    var t := Start(s, c, u);
    forall i <- t.live ensures TimerHeld(t, i) {}
  }

  /** Stopping takes exactly that indicator away, and with it every timer of the user. */
  lemma StopHides(s: State, c: Conversation, u: User, d: Conversation, v: User)
    requires Good(s)
    ensures var t := Stop(s, c, u);
            && Shown(t, d, v) == (Shown(s, d, v) && (d != c || v != u))
            && (forall i <- t.live :: t.live[i].user != u)
  {
    OpenedGood(s, c);
    OpenedAt(s, c, d, v);
    ClearAt(Opened(s, c), c, u, d, v);
    ClearLive(Opened(s, c), c, u);
  }

  // ---------------------------------------------------------------- indicators that outlive their timer

  predicate Timed(s: State, c: Conversation, u: User)
    requires Shown(s, c, u)
  {
    s.typing[c][u].timer in s.live
  }

  /** Every indicator still has the timer that takes it away. */
  ghost predicate AllTimed(s: State) {
    forall c, u :: Shown(s, c, u) ==> Timed(s, c, u)
  }

  ghost predicate ElsewhereToo(s: State, c: Conversation, u: User) {
    exists d :: d != c && Shown(s, d, u)
  }

  /** A timed indicator's timer is the tracked one, so a user has at most one timed indicator. */
  lemma TimedIsTracked(s: State, c: Conversation, u: User)
    requires Good(s) && Shown(s, c, u) && Timed(s, c, u)
    ensures u in s.timeouts && s.timeouts[u] == s.typing[c][u].timer
  {}

  /** Since a user has one tracked timer, starting to type keeps every indicator timed exactly when the user has
      no indicator in another conversation. */
  lemma StartKeepsTimedIff(s: State, c: Conversation, u: User)
    requires Good(s) && AllTimed(s)
    ensures AllTimed(Start(s, c, u)) <==> !ElsewhereToo(s, c, u)
  {
    var t := Start(s, c, u);
    forall d, v | Shown(t, d, v) && (d != c || v != u) ensures Shown(s, d, v) && (Timed(t, d, v) <==> v != u) {
      StartAt(s, c, u, d, v);
      assert Timed(s, d, v) && EntryOwns(s, d, v);
      TimedIsTracked(s, d, v);
    }
    if ElsewhereToo(s, c, u) {
      var d :| d != c && Shown(s, d, u);
      StartAt(s, c, u, d, u);
    }
  }

  lemma ClearKeepsTimedIff(s: State, c: Conversation, u: User)
    requires Good(s) && AllTimed(s)
    ensures AllTimed(Clear(s, c, u)) <==> !ElsewhereToo(s, c, u)
  {
    var t := Clear(s, c, u);
    ClearLive(s, c, u);
    forall d, v | Shown(t, d, v) ensures Shown(s, d, v) && (Timed(t, d, v) <==> v != u) {
      ClearAt(s, c, u, d, v);
      assert Timed(s, d, v) && EntryOwns(s, d, v);
    }
    if ElsewhereToo(s, c, u) {
      var d :| d != c && Shown(s, d, u);
      ClearAt(s, c, u, d, u);
    }
    ClearAt(s, c, u, c, u);
  }

  lemma StopKeepsTimedIff(s: State, c: Conversation, u: User)
    requires Good(s) && AllTimed(s)
    ensures AllTimed(Stop(s, c, u)) <==> !ElsewhereToo(s, c, u)
  {
    var o := Opened(s, c);
    OpenedGood(s, c);
    forall d, v ensures Shown(o, d, v) == Shown(s, d, v) && (Shown(o, d, v) ==> Timed(o, d, v)) {
      OpenedAt(s, c, d, v);
      assert Shown(s, d, v) ==> Timed(s, d, v);
    }
    ClearKeepsTimedIff(o, c, u);
  }

  /** The user types in one conversation at a time. */
  ghost predicate OneAtATime(s: State, e: Event) {
    (e.StartE? || e.StopE? || e.SentE?) ==> !ElsewhereToo(s, e.conversation, e.user)
  }

  ghost predicate Tidy(s: State, events: seq<Event>)
    decreases |events|
  {
    events != [] && Enabled(s, events[0]) ==> OneAtATime(s, events[0]) && Tidy(Step(s, events[0]), events[1..])
  }

  lemma StepTimed(s: State, e: Event)
    requires Good(s) && AllTimed(s) && Enabled(s, e) && OneAtATime(s, e)
    ensures AllTimed(Step(s, e))
  {
    match e
    case StartE(c, u) => StartKeepsTimedIff(s, c, u);
    case StopE(c, u) => StopKeepsTimedIff(s, c, u);
    case SentE(c, u) => ClearKeepsTimedIff(s, c, u);
    case ExpireE(id) => ExpireTimed(s, id);
    case DisconnectE(u) =>
      var t := Step(s, e);
      forall d, v | Shown(t, d, v) ensures Timed(t, d, v) {
        DisconnectClears(s, u, d, v);
        assert Timed(s, d, v);
      }
    case TickE(time) =>
      var t := Step(s, e);
      forall d, v | Shown(t, d, v) ensures Timed(t, d, v) {
        assert Timed(s, d, v);
      }
  }

  lemma ExpireTimed(s: State, id: TimerId)
    requires Good(s) && AllTimed(s) && id in s.live
    ensures AllTimed(Expire(s, id))
  {
    var c, u := s.live[id].conversation, s.live[id].user;
    ExpireIsClear(s, id);
    assert TimerHeld(s, id);
    forall d | d != c ensures !Shown(s, d, u) {
      if Shown(s, d, u) {
        assert Timed(s, d, u) && EntryOwns(s, d, u);
        TimedIsTracked(s, d, u);
      }
    }
    ClearKeepsTimedIff(s, c, u);
  }

  lemma {:induction false} RunTimed(s: State, events: seq<Event>, t: State)
    requires Good(s) && AllTimed(s) && Run(s, events, t) && Tidy(s, events)
    ensures Good(t) && AllTimed(t)
    decreases |events|
  {
    if events != [] {
      StepGood(s, events[0]);
      StepTimed(s, events[0]);
      RunTimed(Step(s, events[0]), events[1..], t);
    }
  }

  /** While users type in one conversation at a time, no indicator is shown for longer than the timeout. */
  lemma IndicatorsAreFresh(now: int, events: seq<Event>, t: State, c: Conversation, u: User)
    requires Run(Initial(now), events, t) && Tidy(Initial(now), events)
    requires Shown(t, c, u)
    ensures t.now - t.typing[c][u].timestamp <= TYPING_TIMEOUT
  {
    RunTimed(Initial(now), events, t);
    assert Timed(t, c, u) && EntryOwns(t, c, u);
    assert TimerHeld(t, t.typing[c][u].timer);
  }

  /** What a step must be about to take away the user's indicator in the conversation by hand. */
  predicate Touches(e: Event, c: Conversation, u: User) {
    || ((e.StartE? || e.StopE? || e.SentE?) && e.conversation == c && e.user == u)
    || (e.DisconnectE? && e.user == u)
  }

  predicate Stale(s: State, c: Conversation, u: User) {
    Shown(s, c, u) && !Timed(s, c, u)
  }

  lemma StaleStays(s: State, e: Event, c: Conversation, u: User)
    requires Good(s) && Enabled(s, e) && Stale(s, c, u) && !Touches(e, c, u)
    ensures Stale(Step(s, e), c, u) && Step(s, e).typing[c][u] == s.typing[c][u]
  {
    assert EntryOwns(s, c, u);
    match e
    case StartE(d, v) => StartAt(s, d, v, c, u);
    case StopE(d, v) =>
      OpenedAt(s, d, c, u);
      ClearAt(Opened(s, d), d, v, c, u);
    case SentE(d, v) => ClearAt(s, d, v, c, u);
    case ExpireE(id) =>
      assert TimerHeld(s, id);
      ExpireIsClear(s, id);
      ClearAt(s, s.live[id].conversation, s.live[id].user, c, u);
    case DisconnectE(v) => DisconnectClears(s, v, c, u);
    case TickE(time) =>
  }

  /** Once an indicator has lost its timer no timer ever takes it away: it stays, however long, until the user
      acts in that conversation again or disconnects. */
  lemma {:induction false} StaleForever(s: State, events: seq<Event>, t: State, c: Conversation, u: User)
    requires Good(s) && Stale(s, c, u) && Run(s, events, t) && forall e :: e in events ==> !Touches(e, c, u)
    ensures Stale(t, c, u) && t.typing[c][u] == s.typing[c][u]
    decreases |events|
  {
    if events != [] {
      assert events[0] in events;
      assert forall e :: e in events[1..] ==> e in events;
      StaleStays(s, events[0], c, u);
      StepGood(s, events[0]);
      StaleForever(Step(s, events[0]), events[1..], t, c, u);
    }
  }

  /** Typing in a second conversation is how a timer is lost. */
  lemma SecondConversationStrands(now: int, c: Conversation, d: Conversation, u: User)
    requires c != d
    ensures var s := Start(Start(Initial(now), c, u), d, u);
            Run(Initial(now), [StartE(c, u), StartE(d, u)], s) && Stale(s, c, u)
  {}

  // ---------------------------------------------------------------- empty conversations

  predicate NoEmpty(s: State) {
    forall c <- s.typing :: s.typing[c] != map[]
  }

  /** Only a stop in a conversation nobody types in leaves an empty map behind. */
  lemma StopLeavesEmptyIff(s: State, c: Conversation, u: User)
    requires NoEmpty(s)
    ensures NoEmpty(Stop(s, c, u)) <==> c in s.typing
  {}

  lemma OthersLeaveNoEmpty(s: State, e: Event)
    requires NoEmpty(s) && Enabled(s, e) && !e.StopE?
    ensures NoEmpty(Step(s, e))
  {
    match e
    case StartE(c, u) =>
      assert u in Step(s, e).typing[c];
    case DisconnectE(u) =>
      var t := Step(s, e);
      forall c <- t.typing ensures t.typing[c] != map[] {
        assert !Shown(s, c, u) ==> s.typing[c] - {u} == s.typing[c];
      }
    case _ =>
  }

  // ---------------------------------------------------------------- the gateway, updating its maps in place

  /** The loop of clearAllUserTyping takes one conversation more. */
  lemma DropOneMore(s: State, u: User, done: set<Conversation>, c: Conversation)
    requires c in s.typing && c !in done
    ensures DropEntry(DropAll(s, u, done), c, u) == DropAll(s, u, done + {c})
  {
    if Shown(s, c, u) { DropShown(s, u, done, c); } else { DropAbsent(s, u, done, c); }
  }

  lemma DropShown(s: State, u: User, done: set<Conversation>, c: Conversation)
    requires Shown(s, c, u) && c !in done
    ensures DropEntry(DropAll(s, u, done), c, u) == DropAll(s, u, done + {c})
  {
    var a, b := DropAll(s, u, done), DropAll(s, u, done + {c});
    assert a.typing[c] == s.typing[c];
    assert TimersIn(s, u, done + {c}) == TimersIn(s, u, done) + {s.typing[c][u].timer};
    assert a.live - {s.typing[c][u].timer} == b.live;
    var rest := s.typing[c] - {u};
    assert (if rest == map[] then a.typing - {c} else a.typing[c := rest]) == b.typing;
  }

  lemma DropAbsent(s: State, u: User, done: set<Conversation>, c: Conversation)
    requires c in s.typing && !Shown(s, c, u) && c !in done
    ensures DropAll(s, u, done) == DropAll(s, u, done + {c})
    ensures !Shown(DropAll(s, u, done), c, u)
  {
    var a, b := DropAll(s, u, done), DropAll(s, u, done + {c});
    assert s.typing[c] - {u} == s.typing[c];
    assert TimersIn(s, u, done + {c}) == TimersIn(s, u, done);
    assert a.live == b.live;
    assert a.typing == b.typing;
  }

  lemma DropNothing(s: State, u: User)
    ensures DropAll(s, u, {}) == s
  {}

  lemma ForgetCommutes(s: State, c: Conversation, u: User)
    ensures Clear(ForgetTimer(s, u), c, u) == ForgetTimer(DropEntry(s, c, u), u)
  {}

  /** The state in the middle of clearAllUserTyping, and what one more conversation makes of it. */
  function Midway(s: State, u: User, done: set<Conversation>, cleared: bool): State {
    if cleared then ForgetTimer(DropAll(s, u, done), u) else DropAll(s, u, done)
  }

  lemma MidwayStep(s: State, u: User, done: set<Conversation>, cleared: bool, c: Conversation)
    requires c in s.typing && c !in done
    ensures var m := Midway(s, u, done, cleared);
            if Shown(m, c, u) then Clear(m, c, u) == Midway(s, u, done + {c}, true)
            else m == Midway(s, u, done + {c}, cleared)
  {
    var d := DropAll(s, u, done);
    assert d.typing[c] == s.typing[c];
    if Shown(s, c, u) {
      DropOneMore(s, u, done, c);
      ForgetCommutes(d, c, u);
    } else {
      DropAbsent(s, u, done, c);
    }
  }

  class ChatGateway {
    var typingUsers: map<Conversation, map<User, Entry>>
    var userTypingTimeouts: map<User, TimerId>
    var live: map<TimerId, Timer>
    var nextId: TimerId
    var now: int

    constructor (time: int)
      ensures Fields() == Initial(time)
    {
      typingUsers, userTypingTimeouts, live, nextId, now := map[], map[], map[], 0, time;
    }

    function Fields(): State
      reads this
    {
      State(typingUsers, userTypingTimeouts, live, nextId, now)
    }

    method ClearTimeout(id: TimerId)
      modifies this`live
      ensures live == old(live) - {id}
    {
      live := live - {id};
    }

    method SetUserTyping(conversationId: Conversation, userId: User, isTyping: bool)
      modifies this
      ensures Fields() == if isTyping then Start(old(Fields()), conversationId, userId)
                          else Stop(old(Fields()), conversationId, userId)
    {
      if conversationId !in typingUsers {
        typingUsers := typingUsers[conversationId := map[]];
      }
      if isTyping {
        if userId in userTypingTimeouts {
          ClearTimeout(userTypingTimeouts[userId]);
        }
        var timeoutId := nextId;
        nextId := nextId + 1;
        live := live[timeoutId := Timer(conversationId, userId, now + TYPING_TIMEOUT)];
        typingUsers := typingUsers[conversationId := typingUsers[conversationId][userId := Entry(timeoutId, now)]];
        userTypingTimeouts := userTypingTimeouts[userId := timeoutId];
      } else {
        ClearUserTyping(conversationId, userId);
      }
    }

    method ClearUserTyping(conversationId: Conversation, userId: User)
      modifies this
      ensures Fields() == Clear(old(Fields()), conversationId, userId)
    {
      if conversationId in typingUsers {
        var conversationTyping := typingUsers[conversationId];
        if userId in conversationTyping {
          ClearTimeout(conversationTyping[userId].timer);
          conversationTyping := conversationTyping - {userId};
          typingUsers := typingUsers[conversationId := conversationTyping];
          if conversationTyping == map[] {
            typingUsers := typingUsers - {conversationId};
          }
        }
      }
      ForgetUserTimeout(userId);
    }

    method OnTimer(id: TimerId)
      requires id in live
      modifies this
      ensures Fields() == Expire(old(Fields()), id)
    {
      var timer := live[id];
      live := live - {id};
      ClearUserTyping(timer.conversation, timer.user);
    }

    /** clearAllUserTyping: its loop over the conversations, then its tail. */
    method ClearAllUserTyping(userId: User)
      modifies this
      ensures Fields() == ClearAll(old(Fields()), userId)
    {
      ghost var cleared := ClearConversations(userId);
      ForgetUserTimeout(userId);
    }

    /** One iteration of that loop. */
    method ClearIfTyping(conversationId: Conversation, userId: User) returns (ghost hit: bool)
      modifies this
      ensures hit == Shown(old(Fields()), conversationId, userId)
      ensures Fields() == if hit then Clear(old(Fields()), conversationId, userId) else old(Fields())
    {
      hit := Shown(Fields(), conversationId, userId);
      if conversationId in typingUsers && userId in typingUsers[conversationId] {
        ClearUserTyping(conversationId, userId);
      }
    }

    method ClearConversations(userId: User) returns (ghost cleared: bool)
      modifies this
      ensures Fields() == Midway(old(Fields()), userId, old(typingUsers).Keys, cleared)
    {
      ghost var s := Fields();
      var todo := typingUsers.Keys;
      ghost var done: set<Conversation> := {};
      cleared := false;
      DropNothing(s, userId);
      while todo != {}
        invariant todo !! done && todo + done == s.typing.Keys
        invariant Fields() == Midway(s, userId, done, cleared)
        decreases |todo|
      {
        var conversationId :| conversationId in todo;
        MidwayStep(s, userId, done, cleared, conversationId);
        ghost var hit := ClearIfTyping(conversationId, userId);
        cleared := cleared || hit;
        todo, done := todo - {conversationId}, done + {conversationId};
      }
      assert done == s.typing.Keys;
    }

    method ForgetUserTimeout(userId: User)
      modifies this
      ensures Fields() == ForgetTimer(old(Fields()), userId)
    {
      if userId in userTypingTimeouts {
        ClearTimeout(userTypingTimeouts[userId]);
        userTypingTimeouts := userTypingTimeouts - {userId};
      }
    }
  }
}
