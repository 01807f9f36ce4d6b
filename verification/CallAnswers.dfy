/** What the call operations answer their callers: who is let through, who is refused and with which reason, and that
    a refused request changes nothing. */
module CallAnswers {
  import opened CallProtocol

  // ---------------------------------------------------------------- decline and hang-up

  /** Declining and hanging up answer by membership in the call's record alone; a stranger changes nothing. */
  lemma MembersMayLeave(s: State, u: UserId, c: CallId, reason: string)
    ensures Decline(s, u, c).outcome == (if c in s.records && u in s.records[c].members then Done else NotParticipant)
    ensures Hangup(s, u, c, reason).outcome == (if c in s.records && u in s.records[c].members then Done else NotParticipant)
    ensures Decline(s, u, c).outcome != Done ==> Decline(s, u, c).state == s
    ensures Hangup(s, u, c, reason).outcome != Done ==> Hangup(s, u, c, reason).state == s
  {}

  /** In every run, each user in a live call can decline and hang up, and is then idle and the call gone; somebody
      who is in no such record is refused. */
  lemma ParticipantsCanLeave(events: seq<Event>, s: State, u: UserId, c: CallId, reason: string)
    requires Run(Empty, events, s) && InCallWith(s, u, c)
    ensures Decline(s, u, c).outcome == Done && Hangup(s, u, c, reason).outcome == Done
    ensures var t := Decline(s, u, c).state; c !in t.active && u !in t.userStatus
    ensures var t := Hangup(s, u, c, reason).state; c !in t.active && u !in t.userStatus
    ensures forall v :: v !in s.active[c].participants ==> Hangup(s, v, c, reason) == Reply(s, NotParticipant)
                                                           && Decline(s, v, c) == Reply(s, NotParticipant)
  {
    RunSafe(Empty, events, s);
    assert LiveCallSound(s, c);
    assert forall v :: v in s.records[c].members <==> v in s.records[c].members.Keys;
    LeavingFrees(s, u, c, Declined, "declined");
    LeavingFrees(s, u, c, Left, if reason == "" then "completed" else reason);
  }

  lemma LeavingFrees(s: State, u: UserId, c: CallId, member: MemberStatus, reason: string)
    requires InCallWith(s, u, c) && IsMember(s, u, c)
    ensures var t := Finish(s, u, c, member, reason).state; c !in t.active && u !in t.userStatus
  {
    FinishStores(s, u, c, member, reason);
    assert u in Users(s.active[c].participants);
  }

  // ---------------------------------------------------------------- accept

  /** In every run an accept is let through exactly for a member of an initiating record; the two refusals tell
      membership and status apart, and change nothing. */
  lemma AcceptAnswers(events: seq<Event>, s: State, u: UserId, c: CallId)
    requires Run(Empty, events, s)
    ensures var member := c in s.records && u in s.records[c].members;
            && (Accept(s, u, c).outcome == NotParticipant <==> !member)
            && (Accept(s, u, c).outcome == NotInitiating <==> member && s.records[c].status != Initiating)
            && (Accept(s, u, c).outcome == Done <==> member && s.records[c].status == Initiating)
    ensures Accept(s, u, c).outcome != Done ==> Accept(s, u, c).state == s
  {
    RunSafe(Empty, events, s);
    AcceptSafe(s, u, c);
  }

  /** In particular both users of a live unanswered call can accept it, and nobody can accept a call in progress. */
  lemma UnansweredCallAcceptable(events: seq<Event>, s: State, u: UserId, c: CallId)
    requires Run(Empty, events, s) && c in s.active
    ensures s.active[c].status == Initiating ==>
              (Accept(s, u, c).outcome == Done <==> InCallWith(s, u, c))
    ensures s.active[c].status == Active ==>
              Accept(s, u, c).outcome == if InCallWith(s, u, c) then NotInitiating else NotParticipant
  {
    AcceptAnswers(events, s, u, c);
    RunSafe(Empty, events, s);
    assert LiveCallSound(s, c);
    assert u in s.records[c].members <==> u in s.records[c].members.Keys;
  }

  // ---------------------------------------------------------------- initiate

  ghost predicate InSomeCall(s: State, u: UserId) {
    exists c :: InCallWith(s, u, c)
  }

  /** While busy means in a live call, the answer to a new call is: oneself, then the caller in a call, then the
      target in a call, then done; and a refused call changes nothing. */
  lemma InitiateAnswers(s: State, caller: UserId, target: UserId, c: CallId)
    requires Exact(s)
    ensures var r := Initiate(s, caller, target, c);
            && (r.outcome == SelfCall <==> caller == target)
            && (r.outcome == CallerBusy <==> caller != target && InSomeCall(s, caller))
            && (r.outcome == TargetBusy <==> caller != target && !InSomeCall(s, caller) && InSomeCall(s, target))
            && (r.outcome == Done <==> caller != target && !InSomeCall(s, caller) && !InSomeCall(s, target))
            && (r.outcome != Done ==> r.state == s)
  {
    forall u ensures u in s.userStatus <==> InSomeCall(s, u) {
      if u in s.userStatus { assert InCallWith(s, u, s.userStatus[u].currentCallId); }
    }
  }

  /** And a call that is let through is live, with the caller first, both users in it, and unanswered. */
  lemma InitiatedIsLive(s: State, caller: UserId, target: UserId, c: CallId)
    requires Initiate(s, caller, target, c).outcome == Done
    ensures var t := Initiate(s, caller, target, c).state;
            && c in t.active && t.active[c] == ActiveCall(Initiating, caller, [caller, target])
            && InCallWith(t, caller, c) && InCallWith(t, target, c)
            && Accept(t, target, c).outcome == Done && Hangup(t, caller, c, "").outcome == Done
  {}

  /** Without disconnects that is the answer in every run. */
  lemma InitiateAnswersInRuns(events: seq<Event>, s: State, caller: UserId, target: UserId, c: CallId)
    requires Run(Empty, events, s) && forall e :: e in events ==> !e.DisconnectE?
    ensures Initiate(s, caller, target, c).outcome
            == if caller == target then SelfCall
               else if InSomeCall(s, caller) then CallerBusy
               else if InSomeCall(s, target) then TargetBusy
               else Done
  {
    DisconnectFreeRun(events, s);
    InitiateAnswers(s, caller, target, c);
  }
}
