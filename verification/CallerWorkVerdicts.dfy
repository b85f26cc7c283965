/** Replays, races between cancelling and sending, and how a ticket closes. */
module CallerWorkVerdicts {
  import opened JsonValues
  import opened CallerWork
  import opened CallerWorkSteps
  import opened CallerWorkCommands
  import opened CallerWorkLaws

  // Replays

  predicate IsModelCommit(c: Command) {
    c.Commit? && IsModelSuccess(c.observation)
  }

  /** The call succeeded once under its key. */
  predicate RecordedFor(s: Registry, c: Command, result: Ticket) {
    && Keyed(c) && TicketOf(c) in s.tickets
    && var key := (s.tickets[TicketOf(c)].operation, KeyOf(c));
    && key in s.recorded && s.recorded[key] == Recorded(TicketOf(c), c, result)
  }

  lemma KeyedCallRecords(s: Registry, t: Ticket, c: Command, d: Draw)
    requires Sound(s) && Own(s, t) && Keyed(c) && TicketOf(c) == t.id && JournalReady(s, t, c)
    requires KeyedCall(s, t, c, d).Done?
    ensures RecordedFor(KeyedCall(s, t, c, d).registry, c, KeyedCall(s, t, c, d).ticket)
  {
    hide Fresh, TicketSound, SchemaAllows, KeyOf, TicketOf, Moved, WithResponse, CandidatesSound, OutboxesSound, Later,
      JournalKept, CommitClosed, TicketsSound;
    if (t.operation, KeyOf(c)) in s.recorded {
      assert RecordSound(s, (t.operation, KeyOf(c)), s.recorded[(t.operation, KeyOf(c))]);
    } else {
      OwnIsSound(s, t);
      FreshMoves(s, t, c, d);
      MovedRow(s, Fresh(s, t, c, d).registry, t, Fresh(s, t, c, d).ticket);
    }
  }

  lemma SuccessIsRecorded(s: Registry, c: Command, d: Draw)
    requires Sound(s) && Keyed(c) && Execute(s, c, d).Done?
    ensures RecordedFor(Execute(s, c, d).registry, c, Execute(s, c, d).ticket)
  {
    hide Sound, KeyedCall, WithResponse, SchemaAllows, KeyOf, RecordedFor;
    var t := s.tickets[TicketOf(c)];
    OwnIsCurrent(s, t, TicketOf(c));
    if IsModelCommit(c) {
      ResponseIsKept(s, t, c.observation, c.response);
      var mid := WithResponse(s, t, c.observation, c.response).value;
      JournallingKeepsSound(s, mid);
      KeyedCallRecords(mid, t, c, d);
    } else {
      KeyedCallRecords(s, t, c, d);
    }
  }

  lemma RecordStays(s: Registry, after: Registry, c: Command, result: Ticket)
    requires RecordedFor(s, c, result) && Advances(s, after)
    ensures RecordedFor(after, c, result)
  {
    hide KeyOf;
  }

  lemma RecordAnswers(s: Registry, c: Command, result: Ticket, d: Draw)
    requires Sound(s) && RecordedFor(s, c, result)
    ensures !IsModelCommit(c) ==> Execute(s, c, d) == Done(s, result)
    ensures IsModelCommit(c) && result.state.SettledSuccess? ==> Execute(s, c, d) == Done(s, result)
    ensures IsModelCommit(c) && !result.state.SettledSuccess? ==> Execute(s, c, d) == Refused(Conflict)
  {
    hide Fresh, TicketSound, KeyOf, CandidatesSound, OutboxesSound, SchemaAllows, Shaped;
    var t := s.tickets[TicketOf(c)];
    OwnIsCurrent(s, t, TicketOf(c));
    assert RecordSound(s, (t.operation, KeyOf(c)), s.recorded[(t.operation, KeyOf(c))]);
    if IsModelCommit(c) {
      var key := (t.operation, t.attempt.value.externalKey);
      assert s.journal == s.journal[key := c.observation.evidence];
      assert s == s.(journal := s.journal[key := c.observation.evidence]);
    }
  }

  /** Replaying a key changes nothing and gives the first answer again, at any later point of any
      run. The one exception is a successful model commit that ended in quarantine: the response
      journal no longer accepts the ticket, so its replay is always refused. */
  lemma ReplayGivesTheFirstAnswer(s: Registry, c: Command, d: Draw, steps: seq<Step>, again: Draw)
    requires Sound(s) && Keyed(c) && Execute(s, c, d).Done?
    ensures var first := Execute(s, c, d);
      var now := Run(first.registry, steps);
      if IsModelCommit(c) && first.ticket.state.Quarantined? then Execute(now, c, again) == Refused(Conflict)
      else Execute(now, c, again) == Done(now, first.ticket)
  {
    hide Sound, Execute, Run, Advances;
    var first := Execute(s, c, d);
    SuccessIsRecorded(s, c, d);
    ExecuteKeepsSound(s, c, d);
    RunKeepsSound(first.registry, steps);
    RecordStays(first.registry, Run(first.registry, steps), c, first.ticket);
    if IsModelCommit(c) {
      RecordedCommitState(first.registry, c, first.ticket);
    }
    RecordAnswers(Run(first.registry, steps), c, first.ticket, again);
  }

  lemma RecordedCommitState(s: Registry, c: Command, result: Ticket)
    requires Sound(s) && RecordedFor(s, c, result) && IsModelCommit(c)
    ensures result.state.SettledSuccess? || result.state.Quarantined?
  {
    hide TicketSound, KeyOf, CandidatesSound, OutboxesSound, SchemaAllows, Later, JournalKept, TicketsSound;
    var key := (s.tickets[TicketOf(c)].operation, KeyOf(c));
    assert RecordSound(s, key, s.recorded[key]);
  }

  /** A key that once answered a command refuses every other command of the same operation. */
  lemma ChangedPayloadIsRefused(s: Registry, c: Command, d: Draw, steps: seq<Step>, other: Command, e: Draw)
    requires Sound(s) && Keyed(c) && Execute(s, c, d).Done?
    requires Keyed(other) && other != c && KeyOf(other) == KeyOf(c)
    requires var now := Run(Execute(s, c, d).registry, steps);
      && TicketOf(c) in now.tickets && TicketOf(other) in now.tickets
      && now.tickets[TicketOf(other)].operation == now.tickets[TicketOf(c)].operation
    ensures var answer := Execute(Run(Execute(s, c, d).registry, steps), other, e);
      answer.Refused? && (!other.Commit? ==> answer.error == KeyReused)
  {
    hide Sound, Execute, Run, Advances, KeyOf;
    var first := Execute(s, c, d);
    SuccessIsRecorded(s, c, d);
    ExecuteKeepsSound(s, c, d);
    RunKeepsSound(first.registry, steps);
    RecordStays(first.registry, Run(first.registry, steps), c, first.ticket);
    TakenKeyRefuses(Run(first.registry, steps), c, first.ticket, other, e);
  }

  lemma TakenKeyRefuses(s: Registry, c: Command, result: Ticket, other: Command, e: Draw)
    requires RecordedFor(s, c, result) && Keyed(other) && other != c && KeyOf(other) == KeyOf(c)
    requires TicketOf(other) in s.tickets
    requires s.tickets[TicketOf(other)].operation == s.tickets[TicketOf(c)].operation
    ensures Execute(s, other, e).Refused? && (!other.Commit? ==> Execute(s, other, e).error == KeyReused)
  {
    hide Fresh, KeyOf, SchemaAllows;
  }

  // Cancelling against sending

  lemma FreshTargets(s: Registry, t: Ticket, c: Command, d: Draw)
    requires Own(s, t) && TicketSound(s, t) && (c.MarkSendStarted? || c.CancelBeforeSend?) && Fresh(s, t, c, d).Done?
    ensures c.MarkSendStarted? ==> Fresh(s, t, c, d).ticket.state.SendStarted?
    ensures c.CancelBeforeSend? ==> Fresh(s, t, c, d).ticket.state.CancelledBeforeSend?
    ensures !SendMarked(t) && !Closed(t.state)
  {
    hide FenceError, KeysHold, Project;
  }

  /** The call takes effect itself rather than being answered from a record. */
  predicate Effective(s: Registry, c: Command, d: Draw) {
    && Keyed(c) && Execute(s, c, d).Done? && TicketOf(c) in s.tickets
    && (s.tickets[TicketOf(c)].operation, KeyOf(c)) !in s.recorded
  }

  lemma EffectOfRace(s: Registry, c: Command, d: Draw)
    requires Sound(s) && Effective(s, c, d) && (c.MarkSendStarted? || c.CancelBeforeSend?)
    ensures var after := Execute(s, c, d).registry;
      && TicketOf(c) in after.tickets
      && !MarkedIn(s, TicketOf(c)) && !Closed(s.tickets[TicketOf(c)].state)
      && (c.MarkSendStarted? ==> MarkedIn(after, TicketOf(c)))
      && (c.CancelBeforeSend? ==> after.tickets[TicketOf(c)].state.CancelledBeforeSend?)
  {
    hide Sound, Fresh, TicketSound, KeyOf, TicketOf, Moved, Closed;
    var t := s.tickets[TicketOf(c)];
    OwnIsCurrent(s, t, TicketOf(c));
    OwnIsSound(s, t);
    FreshMoves(s, t, c, d);
    MovedRow(s, Fresh(s, t, c, d).registry, t, Fresh(s, t, c, d).ticket);
    FreshTargets(s, t, c, d);
    MarkIsSendMarked(s, t, c, d);
  }

  lemma MarkIsSendMarked(s: Registry, t: Ticket, c: Command, d: Draw)
    requires Own(s, t) && TicketSound(s, t) && (c.MarkSendStarted? || c.CancelBeforeSend?) && Fresh(s, t, c, d).Done?
    ensures c.MarkSendStarted? ==> SendMarked(Fresh(s, t, c, d).ticket)
  {
    if c.MarkSendStarted? {
      FreshMarkMarks(s, t, c, d);
    }
  }

  /** Cancelling before the send and marking the send exclude each other for good: whichever takes
      effect first on a ticket, the other never takes effect on it in any later registry. */
  lemma CancelAndSendExclude(s: Registry, first: Command, d: Draw, steps: seq<Step>, second: Command, e: Draw)
    requires Sound(s) && Effective(s, first, d) && TicketOf(second) == TicketOf(first)
    requires (first.MarkSendStarted? && second.CancelBeforeSend?) ||
             (first.CancelBeforeSend? && second.MarkSendStarted?)
    ensures !Effective(Run(Execute(s, first, d).registry, steps), second, e)
  {
    hide Sound, Execute, Run, Effective, TicketOf, Advances;
    EffectiveIsDone(s, first, d);
    EffectOfRace(s, first, d);
    var after := Execute(s, first, d).registry;
    var id := TicketOf(first);
    ExecuteKeepsSound(s, first, d);
    RunKeepsSound(after, steps);
    var now := Run(after, steps);
    if Effective(now, second, e) {
      EffectOfRace(now, second, e);
      if first.MarkSendStarted? {
        AtMostOneSendStart(after, steps, id);
        assert false;
      } else {
        ClosedNeverChanges(after, steps, id);
        EffectiveIsDone(now, second, e);
        assert false;
      }
    }
  }

  lemma EffectiveIsDone(s: Registry, c: Command, d: Draw)
    requires Effective(s, c, d)
    ensures Execute(s, c, d).Done? && TicketOf(c) in s.tickets
  {
  }

  // How a ticket closes

  predicate Closes(c: Command) {
    c.Commit? || c.SettleCandidate? || (c.Reconcile? && c.action.Settle?)
  }

  /** The receipt a closing command puts forward. */
  function Forwarded(t: Ticket, c: Command, now: int): Option<Receipt> {
    if c.Commit? then
      if t.claimant.Some? && t.attempt.Some? then Some(CommitReceipt(t, c, now)) else None
    else if c.SettleCandidate? && c.candidate.Some? && c.candidate.value.OfReceipt? then Some(c.candidate.value.receipt)
    else if c.Reconcile? && c.candidate.Some? && c.candidate.value.OfReceipt? then Some(c.candidate.value.receipt)
    else None
  }

  /** The registry a closing command settles in: a commit has added its receipt. */
  function WithForwarded(s: Registry, c: Command, r: Receipt): Registry {
    if c.Commit? then s.(candidates := s.candidates + {r}) else s
  }

  predicate Agree(s: Registry, t: Ticket)
    requires t.attempt.Some?
  {
    forall a, b :: a in Rivals(s, t) && b in Rivals(s, t) ==> a == b
  }

  lemma OneRivalExactlyWhenAllAgree(s: Registry, t: Ticket, r: Receipt)
    requires t.attempt.Some? && r in Rivals(s, t)
    ensures |Rivals(s, t)| > 1 <==> !Agree(s, t)
  {
    var rivals := Rivals(s, t);
    if rivals == {r} {
    } else {
      var other :| other in rivals && other != r;
      assert {r, other} <= rivals;
      Subset({r, other}, rivals);
    }
  }

  lemma Subset(a: set<Receipt>, b: set<Receipt>)
    requires a <= b
    ensures |a| <= |b|
  {
    assert b == a + (b - a);
  }

  lemma FreshSettles(s: Registry, t: Ticket, c: Command, d: Draw)
    requires Own(s, t) && TicketSound(s, t) && Closes(c) && Fresh(s, t, c, d).Done? && TicketOf(c) == t.id
    requires c.Commit? ==> SchemaAllows(c.observation)
    ensures Forwarded(t, c, d.now).Some? && MayHaveSent(t.state) && t.attempt.Some?
    ensures var r := Forwarded(t, c, d.now).value;
      && r in Rivals(WithForwarded(s, c, r), t)
      && Fresh(s, t, c, d) == Settlement(WithForwarded(s, c, r), t, r, d.now)
  {
    hide Settlement, SchemaAllows, FenceError, KeysHold, ClosedRight;
  }

  /** Conflicting receipts quarantine; a receipt no other contradicts decides the state. With the
      words the schema knows, everything that is not a success settles as a failure, an unknown
      outcome and a child's certain cancellation included. */
  lemma ClosingVerdict(s: Registry, t: Ticket, c: Command, d: Draw)
    requires Sound(s) && Own(s, t) && Closes(c) && Fresh(s, t, c, d).Done? && TicketOf(c) == t.id
    requires c.Commit? ==> SchemaAllows(c.observation)
    ensures Forwarded(t, c, d.now).Some? && t.attempt.Some?
    ensures var r := Forwarded(t, c, d.now).value; var u := Fresh(s, t, c, d).ticket;
      && (u.state.Quarantined? <==> !Agree(WithForwarded(s, c, r), t))
      && (u.state.SettledSuccess? <==> Agree(WithForwarded(s, c, r), t) && r.observation.report.Succeeded?)
      && (u.state.SettledFailure? <==> Agree(WithForwarded(s, c, r), t) && !r.observation.report.Succeeded?)
      && (!u.state.Quarantined? ==> u.settledReceipt == Some(OfReceipt(r)))
  {
    hide Agree, KeysHold, ClosedRight, Project, JournalHolds, TicketsSound, OutboxesSound, RecordsSound, FenceError,
      Fresh, CommitReceipt;
    OwnIsSound(s, t);
    FreshSettles(s, t, c, d);
    var r := Forwarded(t, c, d.now).value;
    OneRivalExactlyWhenAllAgree(WithForwarded(s, c, r), t, r);
    ForwardedIsKnown(s, t, c, d);
  }

  lemma ForwardedIsKnown(s: Registry, t: Ticket, c: Command, d: Draw)
    requires Sound(s) && Own(s, t) && Closes(c) && Fresh(s, t, c, d).Done? && TicketOf(c) == t.id
    requires c.Commit? ==> SchemaAllows(c.observation)
    requires Forwarded(t, c, d.now).Some?
    ensures SchemaAllows(Forwarded(t, c, d.now).value.observation)
  {
    hide KeysHold, ClosedRight, Project, JournalHolds, TicketsSound, OutboxesSound, RecordsSound, FenceError,
      Settlement, SchemaAllows;
    if !c.Commit? {
      OwnIsSound(s, t);
      assert CandidateSound(s, Forwarded(t, c, d.now).value);
    }
  }

  /** No run ever closes a ticket as certainly cancelled: the words that would are not in the schema. */
  lemma CancelledCertainIsUnreachable(start: Registry, steps: seq<Step>, id: string)
    requires Empty(start) && id in Run(start, steps).tickets
    ensures !Run(start, steps).tickets[id].state.CancelledCertain?
  {
    hide Run, Empty, KeysHold, Shaped, RecordsSound, OutboxesSound;
    RunsStaySound(start, steps);
    var s := Run(start, steps);
    assert TicketSound(s, s.tickets[id]);
    assert forall c :: c in s.candidates ==> CandidateSound(s, c);
  }

  /** In every registry a run reaches, a ticket settled by receipt names a kept receipt of its own
      attempt, and is settled as a success exactly when that receipt reports one. */
  lemma SettledTruthIsTheReceipt(start: Registry, steps: seq<Step>, id: string)
    requires Empty(start) && id in Run(start, steps).tickets
    requires ClosedByReceipt(Run(start, steps).tickets[id].state)
    ensures var s := Run(start, steps); var t := s.tickets[id];
      && t.attempt.Some? && t.settledReceipt.Some? && t.settledReceipt.value.OfReceipt?
      && t.settledReceipt.value.receipt in Rivals(s, t)
      && (t.state.SettledSuccess? <==> t.settledReceipt.value.receipt.observation.report.Succeeded?)
      && (t.operation, t.suspension) in s.suspensions
      && !s.suspensions[(t.operation, t.suspension)].state.Waiting?
  {
    hide Run, Empty, KeysHold, Shaped, RecordsSound, OutboxesSound, CandidatesSound;
    RunsStaySound(start, steps);
    var s := Run(start, steps);
    assert TicketSound(s, s.tickets[id]);
  }

  // Continuations

  /** The outer operation may still continue after this ticket: it is accepted, and an outcome
      already classified as unknown came in before the job's deadline. */
  predicate MayContinue(s: Registry, t: Ticket, now: int) {
    && t.operation in s.operations && s.operations[t.operation].OperationAccepted?
    && (t.operation in s.jobs && t.state.OutcomeUnknown? ==> now < s.jobs[t.operation].deadline)
  }

  /** Settling writes a successor exactly when the outer operation may continue, and then wakes the
      job and advances both control revisions together; otherwise it leaves all three alone. */
  lemma SuccessorExactlyWhenContinuing(s: Registry, t: Ticket, u: Ticket, at: int)
    requires ClosedByReceipt(u.state) && u.settledReceipt.Some? && Close(s, t, u, at).Done?
    requires (t.operation, t.suspension) !in s.outbox
    ensures var after := Close(s, t, u, at).registry; var key := (t.operation, t.suspension);
      if MayContinue(s, t, at) then
        && after.outbox == s.outbox[key := Successor(u.settledReceipt.value, at)]
        && t.operation in s.jobs && t.operation in s.controls
        && s.jobs[t.operation].phase.WaitingExternal? && !s.controls[t.operation].cancelled
        && t.operation in after.jobs && after.jobs[t.operation].phase.PhaseAccepted?
        && t.operation in after.controls
        && after.jobs[t.operation].control == after.controls[t.operation].revision ==
           s.controls[t.operation].revision + 1
      else
        after.outbox == s.outbox && after.jobs == s.jobs && after.controls == s.controls
  {
    hide Shaped, KeysHold;
  }
}
