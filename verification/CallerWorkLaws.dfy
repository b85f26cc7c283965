/** What caller work promises over every run of calls, interleaved with the writes of other components. */
module CallerWorkLaws {
  import opened JsonValues
  import opened CallerWork
  import opened CallerWorkSteps
  import opened CallerWorkCommands

  // Runs

  /** What other components may do between two calls: rewrite jobs, controls and operations, open
      suspensions, and park or cancel a waiting one. */
  predicate WorldStep(s: Registry, after: Registry) {
    && after.tickets == s.tickets && after.candidates == s.candidates && after.recorded == s.recorded
    && after.outbox == s.outbox && after.journal == s.journal
    && forall k :: k in s.suspensions ==>
                     && k in after.suspensions
                     && after.suspensions[k].ticketId == s.suspensions[k].ticketId
                     && (!s.suspensions[k].state.Waiting? ==> after.suspensions[k] == s.suspensions[k])
  }

  datatype Step = Call(command: Command, draw: Draw) | World(after: Registry)

  function Next(s: Registry, step: Step): Registry {
    match step
    case Call(c, d) =>
      var o := Execute(s, c, d);
      if o.Done? then o.registry else s
    case World(after) =>
      if WorldStep(s, after) then after else s
  }

  function Run(s: Registry, steps: seq<Step>): Registry
    decreases |steps|
  {
    if steps == [] then s else Run(Next(s, steps[0]), steps[1..])
  }

  predicate Empty(s: Registry) {
    s.tickets == map[] && s.candidates == {} && s.recorded == map[] && s.outbox == map[]
  }

  lemma EmptyIsSound(s: Registry)
    requires Empty(s)
    ensures Sound(s)
  {
  }

  lemma WorldKeepsSound(s: Registry, after: Registry)
    requires Sound(s) && WorldStep(s, after)
    ensures Sound(after) && Advances(s, after)
  {
    hide Shaped, Later, SchemaAllows, ReceiptBinds, KeysHold, ClosedRight;
    forall id | id in s.tickets ensures TicketSound(after, s.tickets[id]) && Later(s.tickets[id], s.tickets[id]) {
      var t := s.tickets[id];
      assert TicketSound(s, t);
      RowStepIsLater(t, t);
      SameRowsSameKeys(s, after, t);
    }
    forall k | k in s.recorded ensures RecordSound(after, k, s.recorded[k]) {
      RecordSurvives(s, after, k, s.recorded[k]);
    }
    forall c | c in s.candidates ensures CandidateSound(after, c) {
      assert CandidateSound(s, c);
    }
    forall k | k in s.outbox ensures OutboxSound(after, k, s.outbox[k]) {
      assert OutboxSound(s, k, s.outbox[k]);
    }
  }

  lemma SameRowsSameKeys(s: Registry, after: Registry, t: Ticket)
    requires after.tickets == s.tickets && after.candidates == s.candidates
    ensures KeysHold(s, t) <==> KeysHold(after, t)
    ensures ClosedRight(s, t) <==> ClosedRight(after, t)
  {
  }

  lemma NextKeepsSound(s: Registry, step: Step)
    requires Sound(s)
    ensures Sound(Next(s, step)) && Advances(s, Next(s, step))
  {
    hide Sound, Advances, Execute, WorldStep;
    match step
    case Call(c, d) =>
      if Execute(s, c, d).Done? {
        ExecuteKeepsSound(s, c, d);
      } else {
        AdvancesNowhere(s);
      }
    case World(after) =>
      if WorldStep(s, after) {
        WorldKeepsSound(s, after);
      } else {
        AdvancesNowhere(s);
      }
  }

  /** Every registry a run reaches is sound: rows keep the shape their state demands, references
      resolve, and a closed ticket agrees with its receipt, its suspension and its outbox entry. A
      run also never undoes a ticket, a receipt, a command record, an outbox entry or a journalled
      response. */
  lemma {:induction false} RunKeepsSound(s: Registry, steps: seq<Step>)
    requires Sound(s)
    ensures Sound(Run(s, steps)) && Advances(s, Run(s, steps))
    decreases |steps|
  {
    hide Sound, Advances, Next;
    if steps == [] {
      AdvancesNowhere(s);
    } else {
      NextKeepsSound(s, steps[0]);
      RunKeepsSound(Next(s, steps[0]), steps[1..]);
      AdvancesComposes(s, Next(s, steps[0]), Run(s, steps));
    }
  }

  lemma RunsStaySound(start: Registry, steps: seq<Step>)
    requires Empty(start)
    ensures Sound(Run(start, steps))
  {
    hide Sound, Run, Empty, Advances;
    EmptyIsSound(start);
    RunKeepsSound(start, steps);
  }

  // Single tickets over runs

  lemma LaterInRun(s: Registry, steps: seq<Step>, id: string)
    requires Sound(s) && id in s.tickets
    ensures id in Run(s, steps).tickets && Later(s.tickets[id], Run(s, steps).tickets[id])
  {
    hide Sound, Run, Later;
    RunKeepsSound(s, steps);
  }

  /** Settled truth is never overwritten: no run changes a closed ticket in any field. */
  lemma ClosedNeverChanges(s: Registry, steps: seq<Step>, id: string)
    requires Sound(s) && id in s.tickets && Closed(s.tickets[id].state)
    ensures id in Run(s, steps).tickets && Run(s, steps).tickets[id] == s.tickets[id]
  {
    hide Sound, Run;
    LaterInRun(s, steps, id);
  }

  /** A revision names one version of a ticket: whatever happened in between, the same revision
      means the same row. */
  lemma RevisionNamesOneVersion(s: Registry, steps: seq<Step>, id: string)
    requires Sound(s) && id in s.tickets
    ensures id in Run(s, steps).tickets && s.tickets[id].revision <= Run(s, steps).tickets[id].revision
    ensures s.tickets[id].revision == Run(s, steps).tickets[id].revision ==> Run(s, steps).tickets[id] == s.tickets[id]
  {
    hide Sound, Run;
    LaterInRun(s, steps, id);
  }

  /** A marked send is never unmarked, repeated or given another claimant, attempt, key or time. */
  lemma MarkedSendIsFrozen(s: Registry, steps: seq<Step>, id: string)
    requires Sound(s) && id in s.tickets && SendMarked(s.tickets[id])
    ensures id in Run(s, steps).tickets
    ensures var t, u := s.tickets[id], Run(s, steps).tickets[id];
      SendMarked(u) && u.claimant == t.claimant && SameSend(t.attempt.value, u.attempt.value)
  {
    hide Sound, Run;
    LaterInRun(s, steps, id);
  }

  // Compare-and-swap

  /** The ticket revision a command expects. */
  function ExpectedRevision(c: Command): Option<nat> {
    match c
    case Claim(f, _, _, _) => Some(f.revision)
    case MarkSendStarted(f, _, _, _, _, _, _, _, _) => Some(f.revision)
    case CancelBeforeSend(f, _, _, _, _, _, _, _, _) => Some(f.revision)
    case Commit(f, _, _, _, _, _, _, _, _) => Some(f.revision)
    case Reconcile(f, _, _, _, _, _, _) => Some(f.revision)
    case SettleCandidate(_, r, _, _, _, _, _) => Some(r)
    case ReclaimExpired(_, r, _, _) => Some(r)
    case RequestCancel(_, r) => Some(r)
    case MarkOutcomeUnknown(_, r) => Some(r)
    case AppendCandidate(_, _) => None
    case AppendModelCandidate(_, _, _) => None
    case CreateTicket(_) => None
  }

  lemma StaleIsRefused(s: Registry, t: Ticket, c: Command, d: Draw)
    requires Keyed(c) && ExpectedRevision(c) != Some(t.revision)
    ensures Fresh(s, t, c, d).Refused?
  {
    hide FreshClaim, FreshMark, FreshCancel, FreshCommit, FreshReconcile;
  }

  lemma StaleKeyedCallIsInert(s: Registry, t: Ticket, c: Command, d: Draw)
    requires Keyed(c) && ExpectedRevision(c) != Some(t.revision) && KeyedCall(s, t, c, d).Done?
    ensures KeyedCall(s, t, c, d).registry == s
    ensures (t.operation, KeyOf(c)) in s.recorded && s.recorded[(t.operation, KeyOf(c))].command == c
  {
    hide Fresh, KeyOf, ExpectedRevision;
    StaleIsRefused(s, t, c, d);
  }

  /** A call that expects another revision of its ticket than the current one changes nothing. */
  lemma StaleCallIsInert(s: Registry, c: Command, d: Draw)
    requires Sound(s) && TicketOf(c) in s.tickets && ExpectedRevision(c).Some?
    requires ExpectedRevision(c) != Some(s.tickets[TicketOf(c)].revision)
    ensures Execute(s, c, d).Done? ==> Execute(s, c, d).registry == s
  {
    hide KeyedCall, SchemaAllows, TicketSound, CandidatesSound, OutboxesSound, Later;
    var t := s.tickets[TicketOf(c)];
    if Execute(s, c, d).Done? && Keyed(c) {
      if c.Commit? && IsModelSuccess(c.observation) {
        var mid := WithResponse(s, t, c.observation, c.response).value;
        StaleKeyedCallIsInert(mid, t, c, d);
        assert RecordSound(s, (t.operation, KeyOf(c)), s.recorded[(t.operation, KeyOf(c))]);
        var key := (t.operation, t.attempt.value.externalKey);
        assert s.journal == s.journal[key := c.observation.evidence];
      } else {
        StaleKeyedCallIsInert(s, t, c, d);
      }
    }
  }

  /** The call succeeds and moves its ticket on. */
  predicate MovesTicket(s: Registry, c: Command, d: Draw) {
    && Execute(s, c, d).Done? && TicketOf(c) in s.tickets
    && TicketOf(c) in Execute(s, c, d).registry.tickets
    && Execute(s, c, d).registry.tickets[TicketOf(c)] != s.tickets[TicketOf(c)]
  }

  /** Compare-and-swap has one winner: once a call moved a ticket on from a revision, no later call
      that expects the same revision changes anything, whatever ran in between. */
  lemma OneWinnerPerRevision(s: Registry, a: Command, d: Draw, steps: seq<Step>, b: Command, e: Draw)
    requires Sound(s) && MovesTicket(s, a, d)
    requires TicketOf(b) == TicketOf(a) && ExpectedRevision(b) == Some(s.tickets[TicketOf(a)].revision)
    ensures var now := Run(Execute(s, a, d).registry, steps);
      Execute(now, b, e).Done? ==> Execute(now, b, e).registry == now
  {
    hide Sound, Run, Execute, Advances, ExpectedRevision, TicketOf, Later;
    var first := Execute(s, a, d).registry;
    var now := Run(first, steps);
    ExecuteKeepsSound(s, a, d);
    AdvancedRow(s, first, TicketOf(a));
    RunKeepsSound(first, steps);
    RevisionNamesOneVersion(first, steps, TicketOf(a));
    StaleCallIsInert(now, b, e);
  }

  lemma AdvancedRow(s: Registry, after: Registry, id: string)
    requires Advances(s, after) && id in s.tickets
    ensures id in after.tickets && s.tickets[id].revision <= after.tickets[id].revision
    ensures after.tickets[id] != s.tickets[id] ==> s.tickets[id].revision < after.tickets[id].revision
  {
  }

  // Send-starts

  /** The call marks a send itself: it succeeds and is not answered from an earlier record. */
  predicate MarksSend(s: Registry, c: Command, d: Draw) {
    && c.MarkSendStarted? && Execute(s, c, d).Done?
    && (s.tickets[TicketOf(c)].operation, KeyOf(c)) !in s.recorded
  }

  function SendStarts(s: Registry, steps: seq<Step>, id: string): nat
    decreases |steps|
  {
    if steps == [] then 0
    else
      (if steps[0].Call? && MarksSend(s, steps[0].command, steps[0].draw) && TicketOf(steps[0].command) == id then 1
       else 0) + SendStarts(Next(s, steps[0]), steps[1..], id)
  }

  predicate MarkedIn(s: Registry, id: string) {
    id in s.tickets && SendMarked(s.tickets[id])
  }

  lemma OtherFreshCallsDoNotMark(s: Registry, t: Ticket, c: Command, d: Draw)
    requires Own(s, t) && TicketSound(s, t) && Keyed(c) && !c.MarkSendStarted? && Fresh(s, t, c, d).Done?
    requires c.Commit? ==> SchemaAllows(c.observation)
    ensures SendMarked(Fresh(s, t, c, d).ticket) ==> SendMarked(t)
  {
    hide KeysHold, Project, FenceError, SchemaAllows, ClosedRight, JournalHolds, Rivals, CommitReceipt;
  }

  lemma FreshMarkMarks(s: Registry, t: Ticket, c: Command, d: Draw)
    requires Own(s, t) && TicketSound(s, t) && c.MarkSendStarted? && Fresh(s, t, c, d).Done?
    ensures !SendMarked(t) && SendMarked(Fresh(s, t, c, d).ticket)
  {
    hide KeysHold, Project, FenceError, ClosedRight;
  }

  /** After a keyed call, its ticket is marked exactly when it was before or the call marks it. */
  lemma KeyedCallMarks(s: Registry, t: Ticket, c: Command, d: Draw)
    requires Sound(s) && Own(s, t) && Keyed(c) && TicketOf(c) == t.id && JournalReady(s, t, c)
    requires KeyedCall(s, t, c, d).Done?
    ensures var after := KeyedCall(s, t, c, d).registry;
      && after.tickets.Keys == s.tickets.Keys
      && (forall id :: id in s.tickets && id != t.id ==> after.tickets[id] == s.tickets[id])
      && (SendMarked(after.tickets[t.id]) <==>
            SendMarked(t) || (c.MarkSendStarted? && (t.operation, KeyOf(c)) !in s.recorded))
      && (c.MarkSendStarted? && (t.operation, KeyOf(c)) !in s.recorded ==> !SendMarked(t))
  {
    hide Fresh, TicketSound, SchemaAllows, KeyOf, TicketOf, Moved, WithResponse, SendMarked;
    if (t.operation, KeyOf(c)) !in s.recorded {
      OwnIsSound(s, t);
      FreshMoves(s, t, c, d);
      var o := Fresh(s, t, c, d);
      MovedOnlyOwn(s, o.registry, t, o.ticket);
      if c.MarkSendStarted? {
        FreshMarkMarks(s, t, c, d);
      } else {
        OtherFreshCallsDoNotMark(s, t, c, d);
      }
    }
  }

  lemma MovedOnlyOwn(s: Registry, after: Registry, t: Ticket, u: Ticket)
    requires Moved(s, after, t, u)
    ensures t.id in s.tickets && after.tickets == s.tickets[t.id := u] && (SendMarked(t) ==> SendMarked(u))
  {
  }

  lemma UnkeyedCallMarks(s: Registry, c: Command, d: Draw, id: string)
    requires Sound(s) && !Keyed(c) && Execute(s, c, d).Done?
    ensures MarkedIn(Execute(s, c, d).registry, id) ==> MarkedIn(s, id)
  {
    hide KeysHold, ClosedRight, SchemaAllows, CandidatesSound, RecordsSound, OutboxesSound, ReceiptBinds;
    if c.CreateTicket? {
    } else {
      var t := s.tickets[TicketOf(c)];
      assert TicketSound(s, t);
    }
  }

  lemma CallMarks(s: Registry, c: Command, d: Draw, id: string)
    requires Sound(s) && Execute(s, c, d).Done?
    ensures MarkedIn(Execute(s, c, d).registry, id) <==>
            MarkedIn(s, id) || (MarksSend(s, c, d) && TicketOf(c) == id)
    ensures MarksSend(s, c, d) && TicketOf(c) == id ==> !MarkedIn(s, id)
  {
    hide Sound, KeyedCall, WithResponse, SchemaAllows, KeyOf, SendMarked;
    if Keyed(c) {
      var t := s.tickets[TicketOf(c)];
      OwnIsCurrent(s, t, TicketOf(c));
      if c.Commit? && IsModelSuccess(c.observation) {
        ResponseIsKept(s, t, c.observation, c.response);
        var mid := WithResponse(s, t, c.observation, c.response).value;
        JournallingKeepsSound(s, mid);
        KeyedCallMarks(mid, t, c, d);
      } else {
        KeyedCallMarks(s, t, c, d);
      }
    } else {
      UnkeyedCallMarks(s, c, d, id);
      ExecuteKeepsSound(s, c, d);
      MarkedStays(s, Execute(s, c, d).registry, id);
    }
  }

  lemma OwnIsCurrent(s: Registry, t: Ticket, id: string)
    requires Sound(s) && id in s.tickets && s.tickets[id] == t
    ensures Own(s, t) && t.id == id
  {
  }

  lemma MarkedStays(s: Registry, after: Registry, id: string)
    requires Advances(s, after)
    ensures MarkedIn(s, id) ==> MarkedIn(after, id)
  {
  }

  lemma NextMarks(s: Registry, step: Step, id: string)
    requires Sound(s)
    ensures var marks := step.Call? && MarksSend(s, step.command, step.draw) && TicketOf(step.command) == id;
      && (MarkedIn(Next(s, step), id) <==> MarkedIn(s, id) || marks)
      && (marks ==> !MarkedIn(s, id))
  {
    hide Sound, Execute, TicketOf, KeyOf, SendMarked;
    match step
    case Call(c, d) =>
      if Execute(s, c, d).Done? {
        CallMarks(s, c, d, id);
      }
    case World(after) =>
  }

  /** A ticket gets at most one send-start: over any run, the calls that mark it number one exactly
      when it was unmarked before and is marked after, and none otherwise. */
  lemma {:induction false} AtMostOneSendStart(s: Registry, steps: seq<Step>, id: string)
    requires Sound(s)
    ensures SendStarts(s, steps, id) == (if MarkedIn(Run(s, steps), id) && !MarkedIn(s, id) then 1 else 0)
    ensures MarkedIn(s, id) ==> MarkedIn(Run(s, steps), id)
    decreases |steps|
  {
    hide Sound, Next, MarksSend, MarkedIn, TicketOf;
    if steps != [] {
      NextMarks(s, steps[0], id);
      NextKeepsSound(s, steps[0]);
      AtMostOneSendStart(Next(s, steps[0]), steps[1..], id);
    }
  }

  /** A ticket cancelled before its send was never sent and never will be: it carries no mark, no
      receipt exists for it, and no run adds either. */
  lemma CancelledBeforeSendIsUnsent(s: Registry, steps: seq<Step>, id: string)
    requires Sound(s) && id in s.tickets && s.tickets[id].state.CancelledBeforeSend?
    ensures SendStarts(s, steps, id) == 0
    ensures forall c :: c in Run(s, steps).candidates ==> c.ticketId != id
  {
    hide Run, SendStarts, KeysHold, ClosedRight, SchemaAllows, RecordsSound, OutboxesSound;
    var after := Run(s, steps);
    ClosedNeverChanges(s, steps, id);
    AtMostOneSendStart(s, steps, id);
    RunKeepsSound(s, steps);
    assert TicketSound(after, after.tickets[id]);
    forall c | c in after.candidates ensures c.ticketId != id {
      assert CandidateSound(after, c);
    }
  }
}
