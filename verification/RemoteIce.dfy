/** Remote ICE candidates in the browser client, within one call: candidates wait in a queue until a remote
    description is set, and several flushes may run at once. Every `await` of addIceCandidate is a step
    boundary, so receives, flushes and their results interleave freely. */
module RemoteIce {
  import opened Options
  import opened Text
  import opened IceLine

  /** One received candidate; the id tells equal candidates apart. */
  datatype Arrival = Arrival(id: nat, candidate: Candidate)

  /** A running flush: its snapshot of the queue, how far it is, and whether it awaits an add. */
  datatype Flush = Flush(snapshot: seq<Arrival>, next: nat, adding: bool)

  /** How addIceCandidate settles; the error texts matter to the handlers. */
  datatype AddResult = Ok | NullDescription | CannotAdd | OtherError

  /** `applied`, `dropped` and `skipped` record what became of the candidates. */
  datatype State = State(
    remoteSet: bool,
    queue: seq<Arrival>,
    flushes: seq<Flush>,
    direct: set<Arrival>,
    applied: seq<Arrival>,
    dropped: seq<Arrival>,
    skipped: seq<Arrival>,
    nextId: nat)

  const Idle := State(false, [], [], {}, [], [], [], 0)

  // ---------------------------------------------------------------- operations

  /** The verdict of a filter on candidates; the client's own filter is ClientFilters. */
  type Filter = Candidate -> bool

  predicate Usable(c: Candidate, filters: Filter) {
    Truthy(c.candidate) && SkipSpace(c.candidate.value) != "" && !filters(c)
  }

  /** handleIceCandidate up to its await: validate, filter, then queue or start adding. */
  function Receive(s: State, c: Candidate, filters: Filter): State {
    var a, t := Arrival(s.nextId, c), s.(nextId := s.nextId + 1);
    if !Usable(c, filters) then t
    else if !s.remoteSet then t.(queue := t.queue + [a])
    else t.(direct := t.direct + {a})
  }

  /** Where a settled add leaves its candidate: applied, queued again, or dropped after an error. */
  function Settle(s: State, a: Arrival, result: AddResult, requeue: bool): State {
    if result == Ok then s.(applied := s.applied + [a])
    else if requeue then s.(queue := s.queue + [a])
    else s.(dropped := s.dropped + [a])
  }

  /** handleIceCandidate after its await: both texts about a missing description queue the candidate again. */
  function DirectDone(s: State, a: Arrival, result: AddResult): State
    requires a in s.direct
  {
    Settle(s.(direct := s.direct - {a}), a, result, result == NullDescription || result == CannotAdd)
  }

  /** flushRemoteIceCandidateQueue up to its loop: take the whole queue, if a description is set. */
  function StartFlush(s: State): State {
    if s.queue != [] && s.remoteSet then s.(flushes := s.flushes + [Flush(s.queue, 0, false)], queue := []) else s
  }

  predicate Working(s: State, i: nat) {
    i < |s.flushes| && s.flushes[i].next < |s.flushes[i].snapshot|
  }

  /** One loop iteration up to its await: filter once more, then start adding. */
  function FlushNext(s: State, i: nat, filters: Filter): State
    requires Working(s, i)
  {
    var f := s.flushes[i];
    var a := f.snapshot[f.next];
    if filters(a.candidate)
    then s.(flushes := s.flushes[i := f.(next := f.next + 1)], skipped := s.skipped + [a])
    else s.(flushes := s.flushes[i := f.(adding := true)])
  }

  /** The state between a flush giving up its current candidate and that candidate's next place. */
  function PastCurrent(s: State, i: nat): State
    requires Working(s, i)
  {
    s.(flushes := s.flushes[i := s.flushes[i].(next := s.flushes[i].next + 1, adding := false)])
  }

  /** The rest of the iteration: here only the null-description text queues the candidate again. */
  function FlushDone(s: State, i: nat, result: AddResult): State
    requires Working(s, i)
  {
    Settle(PastCurrent(s, i), s.flushes[i].snapshot[s.flushes[i].next], result, result == NullDescription)
  }

  // ---------------------------------------------------------------- runs

  datatype Event =
    | ReceiveE(candidate: Candidate)
    | DirectDoneE(arrival: Arrival, result: AddResult)
    | SetRemoteE
    | StartFlushE
    | FlushNextE(flush: nat)
    | FlushDoneE(flush: nat, result: AddResult)

  predicate Enabled(s: State, e: Event) {
    match e
    case DirectDoneE(a, _) => a in s.direct
    case FlushNextE(i) => Working(s, i) && !s.flushes[i].adding
    case FlushDoneE(i, _) => Working(s, i) && s.flushes[i].adding
    case _ => true
  }

  function Step(s: State, e: Event, filters: Filter): State
    requires Enabled(s, e)
  {
    match e
    case ReceiveE(c) => Receive(s, c, filters)
    case DirectDoneE(a, result) => DirectDone(s, a, result)
    case SetRemoteE => s.(remoteSet := true)
    case StartFlushE => StartFlush(s)
    case FlushNextE(i) => FlushNext(s, i, filters)
    case FlushDoneE(i, result) => FlushDone(s, i, result)
  }

  ghost predicate Run(s: State, events: seq<Event>, t: State, filters: Filter)
    decreases |events|
  {
    if events == [] then s == t
    else Enabled(s, events[0]) && Run(Step(s, events[0], filters), events[1..], t, filters)
  }

  // ---------------------------------------------------------------- where a candidate can be

  /** How often a list holds an arrival. */
  function Count(list: seq<Arrival>, a: Arrival): nat {
    if list == [] then 0 else Count(list[..|list|-1], a) + if list[|list|-1] == a then 1 else 0
  }

  lemma {:induction false} CountTail(list: seq<Arrival>, a: Arrival)
    requires list != []
    ensures Count(list, a) == Count(list[1..], a) + if list[0] == a then 1 else 0
    decreases |list|
  {
    var n := |list| - 1;
    if n > 0 {
      CountTail(list[..n], a);
      assert list[..n][1..] == list[1..][..n-1];
    }
  }

  lemma {:induction false} CountIn(list: seq<Arrival>, a: Arrival)
    ensures Count(list, a) > 0 <==> a in list
    decreases |list|
  {
    if list != [] {
      var n := |list| - 1;
      CountIn(list[..n], a);
      assert list == list[..n] + [list[n]];
    }
  }

  /** How often a flush still holds an arrival of its snapshot. */
  function Rest(f: Flush, a: Arrival): nat {
    if f.next <= |f.snapshot| then Count(f.snapshot[f.next..], a) else 0
  }

  /** How often the flushes hold an arrival. */
  function Held(flushes: seq<Flush>, a: Arrival): nat {
    if flushes == [] then 0 else Held(flushes[..|flushes|-1], a) + Rest(flushes[|flushes|-1], a)
  }

  lemma {:induction false} HeldUpdate(flushes: seq<Flush>, i: nat, f: Flush, a: Arrival)
    requires i < |flushes|
    ensures Held(flushes[i := f], a) + Rest(flushes[i], a) == Held(flushes, a) + Rest(f, a)
    decreases |flushes|
  {
    var n := |flushes| - 1;
    var front := flushes[..n];
    if i == n {
      assert flushes[i := f][..n] == front;
    } else {
      HeldUpdate(front, i, f, a);
      assert flushes[i := f][..n] == front[i := f];
    }
  }

  /** Moving a flush past its current candidate releases exactly that candidate. */
  lemma HeldReleases(flushes: seq<Flush>, i: nat, adding: bool, a: Arrival)
    requires i < |flushes| && flushes[i].next < |flushes[i].snapshot|
    ensures var f := flushes[i];
            Held(flushes, a) == Held(flushes[i := f.(next := f.next + 1, adding := adding)], a)
                                + if f.snapshot[f.next] == a then 1 else 0
  {
    var f := flushes[i];
    HeldUpdate(flushes, i, f.(next := f.next + 1, adding := adding), a);
    CountTail(f.snapshot[f.next..], a);
    assert f.snapshot[f.next..][1..] == f.snapshot[f.next+1..];
  }

  // ---------------------------------------------------------------- what a run has received

  /** What an event adds to the received candidates. */
  function ReceivedBy(e: Event): seq<Candidate> {
    if e.ReceiveE? then [e.candidate] else []
  }

  /** The candidates received in a run, in order. */
  function Received(events: seq<Event>): seq<Candidate> {
    if events == [] then []
    else ReceivedBy(events[0]) + Received(events[1..])
  }

  /** The arrivals that must be somewhere: the k-th received candidate, as number k, if it is usable. */
  predicate Expected(received: seq<Candidate>, a: Arrival, filters: Filter) {
    a.id < |received| && received[a.id] == a.candidate && Usable(a.candidate, filters)
  }

  // ---------------------------------------------------------------- the invariant

  /** How often an arrival is in any of the five places. */
  function Found(s: State, a: Arrival): nat {
    Count(s.applied, a) + Count(s.queue, a) + Held(s.flushes, a) + Count(s.dropped, a) + if a in s.direct then 1 else 0
  }

  /** Every expected arrival is in one place and there once, every other arrival in none. */
  ghost predicate Conserved(s: State, received: seq<Candidate>, filters: Filter) {
    forall a :: Found(s, a) == if Expected(received, a, filters) then 1 else 0
  }

  /** Nothing is added, and no flush runs, before a remote description is set. */
  predicate NotEarly(s: State) {
    !s.remoteSet ==> s.applied == [] && s.flushes == [] && s.direct == {}
  }

  ghost predicate Good(s: State, received: seq<Candidate>, filters: Filter) {
    Conserved(s, received, filters) && s.nextId == |received| && NotEarly(s) && s.skipped == []
  }

  /** Expectations about earlier arrivals do not change, and the newest is expected iff it is usable. */
  lemma ExpectedNext(received: seq<Candidate>, c: Candidate, filters: Filter, a: Arrival)
    ensures Expected(received + [c], a, filters)
            <==> Expected(received, a, filters) || (a == Arrival(|received|, c) && Usable(c, filters))
  {
    if a.id == |received| { assert (received + [c])[a.id] == c; }
    if a.id < |received| { assert (received + [c])[a.id] == received[a.id]; }
  }

  lemma ReceiveFound(s: State, c: Candidate, filters: Filter, a: Arrival)
    requires Arrival(s.nextId, c) !in s.direct
    ensures Found(Receive(s, c, filters), a)
            == Found(s, a) + if a == Arrival(s.nextId, c) && Usable(c, filters) then 1 else 0
  {
    CountAppend(s.queue, Arrival(s.nextId, c), a);
  }

  lemma ReceiveConserved(s: State, received: seq<Candidate>, c: Candidate, filters: Filter)
    requires Good(s, received, filters)
    ensures Good(Receive(s, c, filters), received + [c], filters)
  {
    var x, t := Arrival(s.nextId, c), Receive(s, c, filters);
    assert Found(s, x) == 0;
    forall a ensures Found(t, a) == if Expected(received + [c], a, filters) then 1 else 0 {
      assert Found(s, a) == if Expected(received, a, filters) then 1 else 0;
      ExpectedNext(received, c, filters, a);
      ReceiveFound(s, c, filters, a);
    }
  }

  /** A received candidate is placed exactly when it is usable: in the queue as long as no description is set. */
  lemma ReceiveGood(s: State, received: seq<Candidate>, c: Candidate, filters: Filter)
    requires Good(s, received, filters)
    ensures Good(Receive(s, c, filters), received + [c], filters)
    ensures var x, t := Arrival(|received|, c), Receive(s, c, filters);
            && (x in t.queue <==> Usable(c, filters) && !s.remoteSet)
            && (x in t.direct <==> Usable(c, filters) && s.remoteSet)
  {
    ReceiveConserved(s, received, c, filters);
    assert Found(s, Arrival(|received|, c)) == 0;
    CountIn(s.queue, Arrival(|received|, c));
  }

  lemma CountAppend(list: seq<Arrival>, x: Arrival, a: Arrival)
    ensures Count(list + [x], a) == Count(list, a) + if x == a then 1 else 0
  {
    assert (list + [x])[..|list|] == list;
  }

  lemma SettleFound(s: State, x: Arrival, result: AddResult, requeue: bool, a: Arrival)
    ensures Found(Settle(s, x, result, requeue), a) == Found(s, a) + if x == a then 1 else 0
  {}

  lemma DirectDoneGood(s: State, received: seq<Candidate>, x: Arrival, result: AddResult, filters: Filter)
    requires Good(s, received, filters) && x in s.direct
    ensures Good(DirectDone(s, x, result), received, filters)
  {
    var t := DirectDone(s, x, result);
    forall a ensures Found(t, a) == if Expected(received, a, filters) then 1 else 0 {
      assert Found(s, a) == if Expected(received, a, filters) then 1 else 0;
      SettleFound(s.(direct := s.direct - {x}), x, result, result == NullDescription || result == CannotAdd, a);
    }
  }

  lemma StartFlushGood(s: State, received: seq<Candidate>, filters: Filter)
    requires Good(s, received, filters)
    ensures Good(StartFlush(s), received, filters)
  {
    var t, f := StartFlush(s), Flush(s.queue, 0, false);
    forall a ensures Found(t, a) == if Expected(received, a, filters) then 1 else 0 {
      assert Found(s, a) == if Expected(received, a, filters) then 1 else 0;
      assert (s.flushes + [f])[..|s.flushes|] == s.flushes && s.queue[0..] == s.queue;
    }
  }

  /** The second filtering in the flush agrees with the first, so nothing is skipped there. */
  lemma FlushNextGood(s: State, received: seq<Candidate>, i: nat, filters: Filter)
    requires Good(s, received, filters) && Working(s, i)
    ensures Good(FlushNext(s, i, filters), received, filters)
    ensures FlushNext(s, i, filters).flushes[i] == s.flushes[i].(adding := true)
  {
    var t, f := FlushNext(s, i, filters), s.flushes[i];
    var x := f.snapshot[f.next];
    HeldReleases(s.flushes, i, false, x);
    assert Found(s, x) == if Expected(received, x, filters) then 1 else 0;
    assert Expected(received, x, filters);
    forall a ensures Found(t, a) == if Expected(received, a, filters) then 1 else 0 {
      assert Found(s, a) == if Expected(received, a, filters) then 1 else 0;
      HeldUpdate(s.flushes, i, f.(adding := true), a);
    }
  }

  lemma PastCurrentFound(s: State, i: nat, a: Arrival)
    requires Working(s, i)
    ensures Found(s, a) == Found(PastCurrent(s, i), a) + if s.flushes[i].snapshot[s.flushes[i].next] == a then 1 else 0
  {
    HeldReleases(s.flushes, i, false, a);
  }

  lemma FlushDoneConserved(s: State, received: seq<Candidate>, i: nat, result: AddResult, filters: Filter)
    requires Good(s, received, filters) && Working(s, i)
    ensures Good(FlushDone(s, i, result), received, filters)
  {
    var t, x := FlushDone(s, i, result), s.flushes[i].snapshot[s.flushes[i].next];
    assert t == Settle(PastCurrent(s, i), x, result, result == NullDescription);
    forall a ensures Found(t, a) == if Expected(received, a, filters) then 1 else 0 {
      assert Found(s, a) == if Expected(received, a, filters) then 1 else 0;
      PastCurrentFound(s, i, a);
      SettleFound(PastCurrent(s, i), x, result, result == NullDescription, a);
    }
  }

  /** Where the current candidate of a flush is after its add has settled, and nowhere else. */
  lemma FlushDoneGood(s: State, received: seq<Candidate>, i: nat, result: AddResult, filters: Filter)
    requires Good(s, received, filters) && Working(s, i)
    ensures Good(FlushDone(s, i, result), received, filters)
    ensures var x, t := s.flushes[i].snapshot[s.flushes[i].next], FlushDone(s, i, result);
            && (x in t.applied <==> result == Ok)
            && (x in t.queue <==> result == NullDescription)
            && (x in t.dropped <==> result in {CannotAdd, OtherError})
            && Held(t.flushes, x) == 0 && x !in t.direct
  {
    var x, t := s.flushes[i].snapshot[s.flushes[i].next], FlushDone(s, i, result);
    FlushDoneConserved(s, received, i, result, filters);
    CountIn(t.applied, x);
    CountIn(t.queue, x);
    CountIn(t.dropped, x);
    assert Found(t, x) <= 1;
  }

  lemma SetRemoteGood(s: State, received: seq<Candidate>, filters: Filter)
    requires Good(s, received, filters)
    ensures Good(s.(remoteSet := true), received, filters)
  {
    forall a ensures Found(s.(remoteSet := true), a) == if Expected(received, a, filters) then 1 else 0 {
      assert Found(s, a) == if Expected(received, a, filters) then 1 else 0;
    }
  }

  lemma StepGood(s: State, received: seq<Candidate>, e: Event, filters: Filter)
    requires Good(s, received, filters) && Enabled(s, e)
    ensures Good(Step(s, e, filters), received + ReceivedBy(e), filters)
  {
    assert received + [] == received;
    match e
    case ReceiveE(c) => ReceiveConserved(s, received, c, filters);
    case DirectDoneE(a, result) => DirectDoneGood(s, received, a, result, filters);
    case SetRemoteE => SetRemoteGood(s, received, filters);
    case StartFlushE => StartFlushGood(s, received, filters);
    case FlushNextE(i) => FlushNextGood(s, received, i, filters);
    case FlushDoneE(i, result) => FlushDoneConserved(s, received, i, result, filters);
  }

  lemma {:induction false} RunGood(
    s: State, received: seq<Candidate>, events: seq<Event>, t: State, filters: Filter)
    requires Good(s, received, filters) && Run(s, events, t, filters)
    ensures Good(t, received + Received(events), filters)
    decreases |events|
  {
    if events == [] {
      assert received + [] == received;
    } else {
      var more, rest := ReceivedBy(events[0]), Received(events[1..]);
      StepGood(s, received, events[0], filters);
      RunGood(Step(s, events[0], filters), received + more, events[1..], t, filters);
      assert (received + more) + rest == received + (more + rest);
    }
  }

  // ---------------------------------------------------------------- main results

  /** Under every interleaving each usable candidate received is in exactly one of applied, queued, held by a flush,
      held by a waiting handler, or dropped after an error, and there once; nothing else is anywhere; none is
      applied before a remote description is set; and the second filtering in the flush never loses one. */
  lemma EveryCandidateOnce(events: seq<Event>, t: State, filters: Filter, a: Arrival)
    requires Run(Idle, events, t, filters)
    ensures Found(t, a) == if Expected(Received(events), a, filters) then 1 else 0
    ensures t.applied != [] ==> t.remoteSet
    ensures t.skipped == []
  {
    RunGood(Idle, [], events, t, filters);
    assert [] + Received(events) == Received(events);
  }

  /** A candidate is held by at most one flush. */
  lemma HeldByOneFlush(events: seq<Event>, t: State, filters: Filter, i: nat, j: nat, a: Arrival)
    requires Run(Idle, events, t, filters) && i < j < |t.flushes| && Rest(t.flushes[i], a) > 0
    ensures Rest(t.flushes[j], a) == 0
  {
    EveryCandidateOnce(events, t, filters, a);
    HeldTwice(t.flushes, i, j, a);
  }

  lemma {:induction false} HeldAt(flushes: seq<Flush>, i: nat, a: Arrival)
    requires i < |flushes|
    ensures Held(flushes, a) >= Rest(flushes[i], a)
    decreases |flushes|
  {
    if i < |flushes| - 1 { HeldAt(flushes[..|flushes|-1], i, a); }
  }

  lemma {:induction false} HeldTwice(flushes: seq<Flush>, i: nat, j: nat, a: Arrival)
    requires i < j < |flushes|
    ensures Held(flushes, a) >= Rest(flushes[i], a) + Rest(flushes[j], a)
    decreases |flushes|
  {
    var front := flushes[..|flushes|-1];
    if j == |flushes| - 1 { HeldAt(front, i, a); } else { HeldTwice(front, i, j, a); }
  }

  /** Exactly which settled adds lose a candidate: the "cannot add" text queues it again from the handler, but
      loses it from a flush. */
  lemma DropsIff(s: State, e: Event, filters: Filter, a: Arrival)
    requires Enabled(s, e)
    ensures Count(Step(s, e, filters).dropped, a) > Count(s.dropped, a) <==>
            || (e.DirectDoneE? && e.arrival == a && e.result == OtherError)
            || (e.FlushDoneE? && s.flushes[e.flush].snapshot[s.flushes[e.flush].next] == a
                && e.result in {CannotAdd, OtherError})
  {
    match e
    case ReceiveE(_) =>
    case SetRemoteE =>
    case StartFlushE =>
    case FlushNextE(_) =>
    case DirectDoneE(x, result) =>
      SettleDrops(s.(direct := s.direct - {x}), x, result, result == NullDescription || result == CannotAdd, a);
    case FlushDoneE(i, result) =>
      SettleDrops(PastCurrent(s, i), s.flushes[i].snapshot[s.flushes[i].next], result, result == NullDescription, a);
  }

  lemma SettleDrops(s: State, x: Arrival, result: AddResult, requeue: bool, a: Arrival)
    ensures Count(Settle(s, x, result, requeue).dropped, a)
            == Count(s.dropped, a) + if result != Ok && !requeue && x == a then 1 else 0
  {
    CountAppend(s.dropped, x, a);
  }

  predicate Fails(e: Event) {
    (e.DirectDoneE? || e.FlushDoneE?) && e.result != Ok
  }

  lemma {:induction false} NoErrorsNoDrops(s: State, events: seq<Event>, t: State, filters: Filter)
    requires Run(s, events, t, filters) && forall e :: e in events ==> !Fails(e)
    ensures t.dropped == s.dropped
    decreases |events|
  {
    if events != [] {
      assert events[0] in events && !Fails(events[0]);
      assert forall e :: e in events[1..] ==> e in events;
      NoErrorsNoDrops(Step(s, events[0], filters), events[1..], t, filters);
    }
  }

  lemma {:induction false} HeldNothing(flushes: seq<Flush>, a: Arrival)
    requires forall f :: f in flushes ==> f.next >= |f.snapshot|
    ensures Held(flushes, a) == 0
    decreases |flushes|
  {
    if flushes != [] {
      var n := |flushes| - 1;
      assert flushes[n] in flushes;
      assert forall f :: f in flushes[..n] ==> f in flushes;
      HeldNothing(flushes[..n], a);
    }
  }

  /** Without errors, once nothing waits any more, exactly the usable candidates received have been
      applied, once each. */
  lemma QuietMeansApplied(events: seq<Event>, t: State, filters: Filter, a: Arrival)
    requires Run(Idle, events, t, filters) && forall e :: e in events ==> !Fails(e)
    requires t.queue == [] && t.direct == {} && forall f :: f in t.flushes ==> f.next >= |f.snapshot|
    ensures Count(t.applied, a) == if Expected(Received(events), a, filters) then 1 else 0
  {
    EveryCandidateOnce(events, t, filters, a);
    NoErrorsNoDrops(Idle, events, t, filters);
    HeldNothing(t.flushes, a);
  }

  // ---------------------------------------------------------------- which candidates the client keeps

  /** A candidate is used iff it has a line with a character that is not white space, and passes the filter. */
  lemma UsableIff(c: Candidate, filters: Filter)
    ensures Usable(c, filters)
            <==> c.candidate.Some? && (exists i :: 0 <= i < |c.candidate.value| && !IsSpace(c.candidate.value[i])) && !filters(c)
  {
    if c.candidate.Some? { SkipSpaceEmptyIff(c.candidate.value); }
  }

  /** A missing, empty or blank line leaves the candidate nowhere. */
  lemma BlankLineIsIgnored(s: State, c: Candidate, filters: Filter)
    requires c.candidate == None || forall i :: 0 <= i < |c.candidate.value| ==> IsSpace(c.candidate.value[i])
    ensures Receive(s, c, filters) == s.(nextId := s.nextId + 1)
  {
    UsableIff(c, filters);
  }

  /** The forwarded candidate of a well-formed line with an IPv4 address: it is queued, or awaited once a description
      is set, exactly when its address is not blocked and its port not reserved; otherwise it is nowhere. */
  lemma OrdinaryCandidatePlacedIff(
    s: State, received: seq<Candidate>, l: Line, a: nat, b: nat, c: nat, d: nat)
    requires Good(s, received, ClientFilters) && WellFormed(l) && l.address == Quad(a, b, c, d)
    ensures var t, x := Receive(s, Enhance(Bare(Print(l))), ClientFilters), Arrival(s.nextId, Enhance(Bare(Print(l))));
            var kept := !BlockedQuad(a, b, c, d) && !ReservedPort(l.port);
            && (x in t.queue <==> kept && !s.remoteSet)
            && (x in t.direct <==> kept && s.remoteSet)
            && (!kept ==> t == s.(nextId := s.nextId + 1))
  {
    var e := Enhance(Bare(Print(l)));
    OrdinaryUsableIff(l, a, b, c, d);
    ReceiveGood(s, received, e, ClientFilters);
  }

  lemma OrdinaryUsableIff(l: Line, a: nat, b: nat, c: nat, d: nat)
    requires WellFormed(l) && l.address == Quad(a, b, c, d)
    ensures Usable(Enhance(Bare(Print(l))), ClientFilters) <==> !BlockedQuad(a, b, c, d) && !ReservedPort(l.port)
  {
    RoundTrip(l, Bare(Print(l)));
    LineStartsWithC(l);
    ClientOnEnhancedQuad(l, a, b, c, d);
    UsableIff(Enhance(Bare(Print(l))), ClientFilters);
  }

  // ---------------------------------------------------------------- the other steps, place by place

  /** Where the handler's candidate is after its add has settled, and nowhere else. */
  lemma DirectDonePlaces(s: State, received: seq<Candidate>, x: Arrival, result: AddResult, filters: Filter)
    requires Good(s, received, filters) && x in s.direct
    ensures var t := DirectDone(s, x, result);
            && (x in t.applied <==> result == Ok)
            && (x in t.queue <==> result in {NullDescription, CannotAdd})
            && (x in t.dropped <==> result == OtherError)
            && Held(t.flushes, x) == 0 && x !in t.direct
  {
    var t := DirectDone(s, x, result);
    DirectDoneGood(s, received, x, result, filters);
    CountIn(t.applied, x);
    CountIn(t.queue, x);
    CountIn(t.dropped, x);
    assert Found(t, x) <= 1;
  }

  /** A flush takes everything that waits, in order, exactly when a description is set and something waits. */
  lemma FlushTakesAll(s: State)
    ensures s.remoteSet && s.queue != [] ==>
              var t := StartFlush(s); t.queue == [] && t.flushes == s.flushes + [Flush(s.queue, 0, false)]
    ensures !(s.remoteSet && s.queue != []) ==> StartFlush(s) == s
  {}

  // ---------------------------------------------------------------- the client, updating its queue in place

  class VoiceCall {
    var remoteSet: bool
    var remoteIceCandidateQueue: seq<Arrival>
    var flushes: seq<Flush>
    var direct: set<Arrival>
    var applied: seq<Arrival>
    var dropped: seq<Arrival>
    var skipped: seq<Arrival>
    var nextId: nat

    constructor ()
      ensures Fields() == Idle
    {
      remoteSet, remoteIceCandidateQueue, flushes, direct := false, [], [], {};
      applied, dropped, skipped, nextId := [], [], [], 0;
    }

    function Fields(): State
      reads this
    {
      State(remoteSet, remoteIceCandidateQueue, flushes, direct, applied, dropped, skipped, nextId)
    }

    method HandleIceCandidate(c: Candidate)
      modifies this
      ensures Fields() == Receive(old(Fields()), c, ClientFilters)
    {
      var a := Arrival(nextId, c);
      nextId := nextId + 1;
      if !Truthy(c.candidate) || SkipSpace(c.candidate.value) == "" { return; }
      if ClientFilters(c) { return; }
      if !remoteSet {
        remoteIceCandidateQueue := remoteIceCandidateQueue + [a];
        return;
      }
      direct := direct + {a};
    }

    /** The continuation of HandleIceCandidate, or its catch block. */
    method OnDirectDone(a: Arrival, result: AddResult)
      requires a in direct
      modifies this
      ensures Fields() == DirectDone(old(Fields()), a, result)
    {
      direct := direct - {a};
      if result == Ok {
        applied := applied + [a];
      } else if result == NullDescription || result == CannotAdd {
        remoteIceCandidateQueue := remoteIceCandidateQueue + [a];
      } else {
        dropped := dropped + [a];
      }
    }

    method FlushRemoteIceCandidateQueue()
      modifies this
      ensures Fields() == StartFlush(old(Fields()))
    {
      if |remoteIceCandidateQueue| > 0 && remoteSet {
        var candidates := remoteIceCandidateQueue;
        remoteIceCandidateQueue := [];
        flushes := flushes + [Flush(candidates, 0, false)];
      }
    }

    method OnFlushNext(i: nat)
      requires Working(Fields(), i)
      modifies this
      ensures Fields() == FlushNext(old(Fields()), i, ClientFilters)
    {
      var f := flushes[i];
      var candidate := f.snapshot[f.next];
      if ClientFilters(candidate.candidate) {
        skipped := skipped + [candidate];
        flushes := flushes[i := f.(next := f.next + 1)];
      } else {
        flushes := flushes[i := f.(adding := true)];
      }
    }

    method OnFlushDone(i: nat, result: AddResult)
      requires Working(Fields(), i)
      modifies this
      ensures Fields() == FlushDone(old(Fields()), i, result)
    {
      var f := flushes[i];
      var candidate := f.snapshot[f.next];
      flushes := flushes[i := f.(next := f.next + 1, adding := false)];
      if result == Ok {
        applied := applied + [candidate];
      } else if result == NullDescription {
        remoteIceCandidateQueue := remoteIceCandidateQueue + [candidate];
      } else {
        dropped := dropped + [candidate];
      }
    }
  }
}
