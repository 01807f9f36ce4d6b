/** Local ICE candidates in the browser client: they wait in a queue until the call has an id. */
module LocalIce {
  import opened IceLine

  type Filter = Candidate -> bool

  datatype Sent = Sent(callId: string, candidate: Candidate)

  /** An empty `callId` stands for no call id; both fail the client's test for one. */
  datatype State = State(callId: string, queue: seq<Candidate>, sent: seq<Sent>)

  const Idle := State("", [], [])

  // ---------------------------------------------------------------- operations

  /** The onicecandidate handler. */
  function Generate(s: State, c: Candidate, filters: Filter): State {
    if filters(c) then s
    else if s.callId != "" then s.(sent := s.sent + [Sent(s.callId, c)])
    else s.(queue := s.queue + [c])
  }

  function Tagged(callId: string, queue: seq<Candidate>): seq<Sent> {
    seq(|queue|, i requires 0 <= i < |queue| => Sent(callId, queue[i]))
  }

  /** flushIceCandidateQueue, also run a moment after gathering has ended. */
  function Flush(s: State): State {
    if s.queue != [] && s.callId != "" then s.(sent := s.sent + Tagged(s.callId, s.queue), queue := []) else s
  }

  /** The call:initiated handler. */
  function Initiated(s: State, callId: string): State {
    Flush(s.(callId := callId))
  }

  /** handleIncomingCall takes over the call id without flushing. */
  function Incoming(s: State, callId: string): State {
    s.(callId := callId)
  }

  // ---------------------------------------------------------------- runs

  /** Everything between an idle client and its cleanup. */
  datatype Event =
    | GenerateE(candidate: Candidate)
    | GatheredE
    | InitiatedE(callId: string)
    | IncomingE(callId: string)

  function Step(s: State, e: Event, filters: Filter): State {
    match e
    case GenerateE(c) => Generate(s, c, filters)
    case GatheredE => Flush(s)
    case InitiatedE(callId) => Initiated(s, callId)
    case IncomingE(callId) => Incoming(s, callId)
  }

  function Run(s: State, events: seq<Event>, filters: Filter): State
    decreases |events|
  {
    if events == [] then s else Run(Step(s, events[0], filters), events[1..], filters)
  }

  // ---------------------------------------------------------------- order

  function Candidates(sent: seq<Sent>): seq<Candidate> {
    seq(|sent|, i requires 0 <= i < |sent| => sent[i].candidate)
  }

  /** What was sent, then what waits. */
  function Pipeline(s: State): seq<Candidate> {
    Candidates(s.sent) + s.queue
  }

  function Passing(e: Event, filters: Filter): seq<Candidate> {
    if e.GenerateE? && !filters(e.candidate) then [e.candidate] else []
  }

  /** The unfiltered candidates of a run, in the order of generation. */
  function Generated(events: seq<Event>, filters: Filter): seq<Candidate> {
    if events == [] then [] else Passing(events[0], filters) + Generated(events[1..], filters)
  }

  /** A waiting candidate means there is no call id yet. */
  predicate Good(s: State) {
    s.callId != "" ==> s.queue == []
  }

  /** No incoming call takes over the id while candidates wait. */
  predicate Crossing(s: State, e: Event) {
    e.IncomingE? && e.callId != "" && s.queue != []
  }

  ghost predicate Uncrossed(s: State, events: seq<Event>, filters: Filter)
    decreases |events|
  {
    events == [] || (!Crossing(s, events[0]) && Uncrossed(Step(s, events[0], filters), events[1..], filters))
  }

  /** Taking over a call id keeps the client in order exactly when it does not cross waiting candidates. */
  lemma StepGoodIff(s: State, e: Event, filters: Filter)
    requires Good(s)
    ensures Good(Step(s, e, filters)) <==> !Crossing(s, e)
    ensures Pipeline(Step(s, e, filters)) == Pipeline(s) + Passing(e, filters)
  {}

  lemma {:induction false} RunOrder(s: State, events: seq<Event>, filters: Filter)
    requires Good(s) && Uncrossed(s, events, filters)
    ensures Good(Run(s, events, filters))
    ensures Pipeline(Run(s, events, filters)) == Pipeline(s) + Generated(events, filters)
    decreases |events|
  {
    if events != [] {
      var e, rest := events[0], events[1..];
      StepGoodIff(s, e, filters);
      RunOrder(Step(s, e, filters), rest, filters);
      assert Pipeline(s) + Passing(e, filters) + Generated(rest, filters)
          == Pipeline(s) + (Passing(e, filters) + Generated(rest, filters));
    }
  }

  /** With no crossing incoming call, the candidates sent and then those waiting are the unfiltered candidates in
      the order of generation, and none waits once there is a call id. */
  lemma SentInOrder(events: seq<Event>, filters: Filter)
    requires Uncrossed(Idle, events, filters)
    ensures var t := Run(Idle, events, filters);
            && Candidates(t.sent) + t.queue == Generated(events, filters)
            && (t.callId != "" ==> t.queue == [] && Candidates(t.sent) == Generated(events, filters))
  {
    RunOrder(Idle, events, filters);
    var t := Run(Idle, events, filters);
    assert Candidates(t.sent) + [] == Candidates(t.sent);
  }

  function IdsUsed(events: seq<Event>): set<string> {
    if events == [] then {}
    else (if events[0].InitiatedE? || events[0].IncomingE? then {events[0].callId} else {}) + IdsUsed(events[1..])
  }

  /** Nothing is sent without a call id, and only ids the server named are used. */
  lemma {:induction false} SentUnderNamedIds(s: State, events: seq<Event>, filters: Filter, ids: set<string>)
    requires forall x <- s.sent :: x.callId != "" && x.callId in ids
    requires s.callId == "" || s.callId in ids
    ensures forall x <- Run(s, events, filters).sent :: x.callId != "" && x.callId in ids + IdsUsed(events)
    decreases |events|
  {
    if events != [] {
      var t := Step(s, events[0], filters);
      var more := ids + if events[0].InitiatedE? || events[0].IncomingE? then {events[0].callId} else {};
      forall x <- t.sent ensures x.callId != "" && x.callId in more {
        var i :| 0 <= i < |t.sent| && t.sent[i] == x;
        if i < |s.sent| { assert t.sent[i] == s.sent[i]; assert s.sent[i] in s.sent; }
      }
      SentUnderNamedIds(t, events[1..], filters, more);
      assert more + IdsUsed(events[1..]) == ids + IdsUsed(events);
    }
  }

  /** An incoming call that crosses waiting candidates: they are overtaken by later ones, and when they are
      flushed at last they go to the incoming call. */
  lemma CrossingOvertakes(x: Candidate, y: Candidate, filters: Filter)
    requires !filters(x) && !filters(y)
    ensures Run(Idle, [GenerateE(x), IncomingE("b"), GenerateE(y), GatheredE], filters)
            == State("b", [], [Sent("b", y), Sent("b", x)])
  {
    var e := [GenerateE(x), IncomingE("b"), GenerateE(y), GatheredE];
    assert e[1..] == [IncomingE("b"), GenerateE(y), GatheredE];
    assert e[1..][1..] == [GenerateE(y), GatheredE];
    assert e[1..][1..][1..] == [GatheredE];
    assert e[1..][1..][1..][1..] == [];
    var s := Step(Step(Step(Idle, e[0], filters), e[1], filters), e[2], filters);
    assert s == State("b", [x], [Sent("b", y)]) by {
      assert [] + [x] == [x] && [] + [Sent("b", y)] == [Sent("b", y)];
    }
    assert Tagged("b", [x]) == [Sent("b", x)];
    assert Flush(s) == State("b", [], [Sent("b", y), Sent("b", x)]);
    RunFour(e, filters);
  }

  lemma RunFour(e: seq<Event>, filters: Filter)
    requires |e| == 4
    ensures Run(Idle, e, filters)
            == Step(Step(Step(Step(Idle, e[0], filters), e[1], filters), e[2], filters), e[3], filters)
  {
    var s := Step(Idle, e[0], filters);
    assert Run(Idle, e, filters) == Run(s, e[1..], filters);
    assert Run(s, e[1..], filters) == Run(Step(s, e[1], filters), e[1..][1..], filters);
    assert e[1..][1..] == e[2..] && e[2..][1..] == e[3..] && e[3..][1..] == [];
    var t := Step(Step(s, e[1], filters), e[2], filters);
    assert Run(t, e[3..], filters) == Run(Step(t, e[3], filters), [], filters);
  }

  // ---------------------------------------------------------------- the call id in use

  /** After either message from the server its id is the client's, and the next candidate that passes is sent at once
      under it. */
  lemma IdIsTaken(s: State, callId: string, c: Candidate, filters: Filter)
    requires callId != "" && !filters(c)
    ensures forall t :: t in {Initiated(s, callId), Incoming(s, callId)} ==>
              && t.callId == callId
              && Generate(t, c, filters) == State(callId, t.queue, t.sent + [Sent(callId, c)])
    ensures Initiated(s, callId).queue == []
  {}

  /** Until there is an id, a candidate that passes waits as the last in the queue; one that does not is forgotten. */
  lemma WaitsWithoutId(s: State, c: Candidate, filters: Filter)
    requires s.callId == ""
    ensures Generate(s, c, filters) == if filters(c) then s else State("", s.queue + [c], s.sent)
    ensures Flush(s) == s
  {}

  // ---------------------------------------------------------------- the client, updating its queue in place

  class VoiceCall {
    var currentCallId: string
    var iceCandidateQueue: seq<Candidate>
    var sent: seq<Sent>

    constructor ()
      ensures Fields() == Idle
    {
      currentCallId, iceCandidateQueue, sent := "", [], [];
    }

    function Fields(): State
      reads this
    {
      State(currentCallId, iceCandidateQueue, sent)
    }

    method OnIceCandidate(candidate: Candidate)
      modifies this
      ensures Fields() == Generate(old(Fields()), candidate, LocalFilters)
    {
      if LocalFilters(candidate) { return; }
      if currentCallId != "" {
        sent := sent + [Sent(currentCallId, candidate)];
      } else {
        iceCandidateQueue := iceCandidateQueue + [candidate];
      }
    }

    method FlushIceCandidateQueue()
      modifies this
      ensures Fields() == Flush(old(Fields()))
    {
      if |iceCandidateQueue| > 0 && currentCallId != "" {
        for i := 0 to |iceCandidateQueue|
          invariant currentCallId == old(currentCallId) && iceCandidateQueue == old(iceCandidateQueue)
          invariant sent == old(sent) + Tagged(currentCallId, iceCandidateQueue)[..i]
        {
          sent := sent + [Sent(currentCallId, iceCandidateQueue[i])];
        }
        iceCandidateQueue := [];
      }
    }

    method OnCallInitiated(callId: string)
      modifies this
      ensures Fields() == Initiated(old(Fields()), callId)
    {
      currentCallId := callId;
      FlushIceCandidateQueue();
    }

    method HandleIncomingCall(callId: string)
      modifies this
      ensures Fields() == Incoming(old(Fields()), callId)
    {
      currentCallId := callId;
    }
  }
}
