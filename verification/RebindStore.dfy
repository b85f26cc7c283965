/** The rebind transactions of src/aar/runtime/registry.py as they run: guarded UPDATE statements on
    one operation's rows. A transaction is rolled back when a statement misses its row, or when the
    process dies before the last statement. */
module RebindStore {
  import opened JsonValues
  import opened Rebind
  import opened RebindLaws
  import opened RebindOutcomes

  const COMMIT_STATEMENTS: nat := 6

  predicate Answers(before: Registry, outcome: Outcome, after: Registry, r: Result<(), Error>) {
    match outcome
    case Done(registry) => after == registry && r == Ok(())
    case Refused(error) => after == before && r == Err(error)
  }

  /** A transaction, whatever it answers, keeps a sound registry sound and only moves it forward. */
  lemma TransactionKeepsSound(s: Registry, step: Step)
    ensures Sound(s) ==> Sound(Next(s, step)) && Advances(s, Next(s, step))
  {
    hide Sound, Next, Advances;
    if Sound(s) {
      NextKeepsSound(s, step);
    }
  }

  class Store {
    var outer: OuterState
    var job: Job
    var control: Control
    var dispatch: DispatchState
    var currentAttempt: Option<nat>
    var authority: Option<Authority>
    var attempts: map<string, Attempt>
    var cells: map<string, Cell>
    var suspensions: map<nat, Suspension>
    var tickets: map<string, Ticket>
    var outboxes: map<nat, Outbox>
    var transfers: map<Token, TransferState>

    constructor (s: Registry)
      ensures State() == s
    {
      outer, job, control, dispatch, currentAttempt := s.outer, s.job, s.control, s.dispatch, s.currentAttempt;
      authority, attempts, cells, suspensions := s.authority, s.attempts, s.cells, s.suspensions;
      tickets, outboxes, transfers := s.tickets, s.outboxes, s.transfers;
    }

    function State(): Registry
      reads this
    {
      Registry(outer, job, control, dispatch, currentAttempt, authority, attempts, cells, suspensions, tickets,
               outboxes, transfers)
    }

    /** The rollback of a transaction that began in `s`. */
    method RollBack(s: Registry)
      modifies this
      ensures State() == s
    {
      outer, job, control, dispatch, currentAttempt := s.outer, s.job, s.control, s.dispatch, s.currentAttempt;
      authority, attempts, cells, suspensions := s.authority, s.attempts, s.cells, s.suspensions;
      tickets, outboxes, transfers := s.tickets, s.outboxes, s.transfers;
    }

    method PrepareSuccessor(c: Caller, now: int) returns (r: Result<(), Error>)
      modifies this
      ensures Answers(old(State()), Prepare(old(State()), c, now), State(), r)
      ensures old(Sound(State())) ==> Sound(State()) && Advances(old(State()), State())
    {
      hide Sound, Advances;
      TransactionKeepsSound(State(), PrepareStep(c, now));
      if |PendingOutboxes(State())| != 1 {
        return Err(InvalidTransition);
      }
      PendingIsOne(PendingOutboxes(State()));
      var k :| k in PendingOutboxes(State());
      r := PrepareOutbox(c, k, now);
    }

    method PrepareOutbox(c: Caller, k: nat, now: int) returns (r: Result<(), Error>)
      modifies this
      ensures Answers(old(State()), PrepareOn(old(State()), c, k, now), State(), r)
    {
      var before := State();
      if !MayPrepare(State(), k) || now >= job.deadline {
        return Err(InvalidTransition);
      }
      if !PredecessorQuiet(State()) {
        return Err(StaleFence);
      }
      if !SettlementBinds(State(), k) {
        return Err(InvalidTransition);
      }
      var t := TokenFor(State(), c, k);
      if t in transfers || !GenerationFree(State(), t) {
        return Err(Integrity);
      }
      transfers := transfers[t := Prepared];
      outboxes := outboxes[k := outboxes[k].(state := OutboxPrepared, generation := t.rebindGeneration,
                                            attempt := Some(c.attempt), fence := Some(c.fence))];
      if !AttemptIsRunning(State(), c) {
        RollBack(before);
        return Err(StaleFence);
      }
      return Ok(());
    }

    /** The checks of a commit before its first write; `None` lets the writes begin. */
    method CheckCommit(c: Caller, t: Token, generation: nat, identity: string, now: int)
      returns (answer: Option<Result<(), Error>>)
      ensures match answer
              case Some(r) => Answers(State(), Commit(State(), c, t, generation, identity, now), State(), r)
              case None => c.live && Joined(State(), t) && t.successorAttempt == c.attempt &&
                           MayCommit(State(), c, t, generation, identity, now)
    {
      if !c.live {
        return Some(Err(StaleFence));
      }
      if !Joined(State(), t) || t.successorAttempt != c.attempt {
        return Some(Err(InvalidTransition));
      }
      if transfers[t].Committed? || transfers[t].Consumed? {
        if CommitStands(State(), c, t, generation, identity) {
          return Some(Ok(()));
        }
        return Some(Err(StaleFence));
      }
      if !MayCommit(State(), c, t, generation, identity, now) {
        return Some(Err(StaleFence));
      }
      return None;
    }

    /** The six writes of a commit. `crash` is how many of them the process lives to make. */
    method WriteCommit(c: Caller, t: Token, now: int, crash: nat) returns (r: Result<(), Error>)
      requires Joined(State(), t)
      requires exists g, id :: MayCommit(State(), c, t, g, id, now)
      modifies this
      ensures r.Ok? <==>
              CellHeldByPredecessor(old(State()), t) && OutboxHeldBy(old(State()), c, t) && crash >= COMMIT_STATEMENTS
      ensures r.Ok? ==> r == Ok(())
      ensures r.Err? ==> r.error == StaleFence || (r.error == Crashed && crash < COMMIT_STATEMENTS)
      ensures crash >= COMMIT_STATEMENTS && r.Err? ==> r.error == StaleFence
      ensures r.Ok? ==>
                var s := old(State());
                State() ==
                s.(authority := Some(s.authority.value.(attempt := c.attempt, fence := t.successorFence,
                                                       generation := t.successorGeneration, token := Some(t))),
                   cells := s.cells[t.cell := Cell(CellRunning, c.attempt, t.successorFence)],
                   job := s.job.(phase := PhaseRunning, control := t.control + 1),
                   control := s.control.(revision := t.control + 1),
                   transfers := s.transfers[t := Committed],
                   outboxes := s.outboxes[t.suspension := s.outboxes[t.suspension].(state := OutboxConsumed)])
    {
      if crash == 0 {
        return Err(Crashed);
      }
      authority := Some(authority.value.(attempt := c.attempt, fence := t.successorFence,
                                        generation := t.successorGeneration, token := Some(t)));
      if crash == 1 {
        return Err(Crashed);
      }
      if !CellHeldByPredecessor(State(), t) {
        return Err(StaleFence);
      }
      cells := cells[t.cell := Cell(CellRunning, c.attempt, t.successorFence)];
      if crash == 2 {
        return Err(Crashed);
      }
      job := job.(phase := PhaseRunning, control := t.control + 1);
      if crash == 3 {
        return Err(Crashed);
      }
      control := control.(revision := t.control + 1);
      if crash == 4 {
        return Err(Crashed);
      }
      transfers := transfers[t := Committed];
      if crash == 5 {
        return Err(Crashed);
      }
      if !OutboxHeldBy(State(), c, t) {
        return Err(StaleFence);
      }
      outboxes := outboxes[t.suspension := outboxes[t.suspension].(state := OutboxConsumed)];
      return Ok(());
    }

    /** `commit_workbench_rebind`. All six writes are there afterwards or none is: a process that
        dies among them leaves the registry it found. */
    method CommitRebind(c: Caller, t: Token, generation: nat, identity: string, now: int, crash: nat)
      returns (r: Result<(), Error>)
      modifies this
      ensures crash >= COMMIT_STATEMENTS ==>
                Answers(old(State()), Commit(old(State()), c, t, generation, identity, now), State(), r)
      ensures crash < COMMIT_STATEMENTS ==> State() == old(State())
      ensures r == Err(Crashed) ==> crash < COMMIT_STATEMENTS
      ensures old(Sound(State())) ==> Sound(State()) && Advances(old(State()), State())
    {
      hide Sound, Advances;
      TransactionKeepsSound(State(), CommitStep(c, t, generation, identity, now));
      TransactionKeepsSound(State(), Crash);
      var before := State();
      var answer := CheckCommit(c, t, generation, identity, now);
      if answer.Some? {
        return answer.value;
      }
      r := WriteCommit(c, t, now, crash);
      if r.Err? {
        RollBack(before);
      }
    }

    method AcknowledgeRebind(c: Caller, t: Token, content: AckContent, digest: AckDigest) returns (r: Result<(), Error>)
      modifies `transfers
      ensures Answers(old(State()), Acknowledge(old(State()), c, t, content, digest), State(), r)
      ensures old(Sound(State())) ==> Sound(State()) && Advances(old(State()), State())
      ensures r.Ok? ==>
                && c.live && c.attempt == t.successorAttempt && t in old(transfers)
                && (old(transfers)[t].Committed? || old(transfers)[t] == Consumed(WorkerAck(digest)))
                && digest == Sealed(content) && content.token == t && content.workerIdentity == t.workerIdentity
                && transfers == old(transfers)[t := Consumed(WorkerAck(digest))]
                && authority.Some? && authority.value.token == Some(t) && authority.value.attempt == c.attempt
                && authority.value.generation == t.successorGeneration
    {
      hide Sound, Advances;
      TransactionKeepsSound(State(), AckStep(c, t, content, digest));
      if !c.live {
        return Err(StaleFence);
      }
      if t !in transfers || authority.None? || t.successorAttempt != c.attempt {
        return Err(InvalidTransition);
      }
      var matches := AckMatches(State(), c, t, content, digest);
      if transfers[t] == Consumed(WorkerAck(digest)) && matches {
        return Ok(());
      }
      if !transfers[t].Committed? || !matches {
        return Err(StaleFence);
      }
      transfers := transfers[t := Consumed(WorkerAck(digest))];
      return Ok(());
    }

    /** The statements of `mark_workbench_rebind_worker_lost`. */
    method WriteLoss(t: Token, restored: Restore) returns (r: Result<(), Error>)
      modifies this
      ensures Answers(old(State()), MarkWorkerLost(old(State()), t, restored), State(), r)
    {
      var before := State();
      if !LossJoined(State(), t) || !outer.OuterIndeterminate? ||
          !(job.phase.PhaseAccepted? || job.phase.PhaseRunning?) {
        return Err(InvalidTransition);
      }
      if transfers[t] == Consumed(FencedLoss) || transfers[t].Aborted? {
        if !LossReplayed(State(), t, restored) {
          return Err(ReplayChanged);
        }
        return Ok(());
      }
      if !MayLose(State(), t) {
        return Err(StaleFence);
      }
      if restored != Restore(job.workspace, job.workspaceGeneration + 1, 0) {
        return Err(InvalidTransition);
      }
      if transfers[t].Committed? {
        transfers := transfers[t := Consumed(FencedLoss)];
      } else {
        transfers := transfers[t := Aborted];
      }
      var outbox := outboxes[t.suspension];
      if outbox.state.OutboxPending? {
        RollBack(before);
        return Err(StaleFence);
      }
      outboxes := outboxes[t.suspension := outbox.(state := OutboxConsumed)];
      cells := cells[t.cell := cells[t.cell].(state := CellLost)];
      job := job.(phase := PhaseRunning, workspaceGeneration := restored.generation,
                  workspaceRevision := restored.revision);
      return Ok(());
    }

    method MarkLost(t: Token, restored: Restore) returns (r: Result<(), Error>)
      modifies this
      ensures Answers(old(State()), MarkWorkerLost(old(State()), t, restored), State(), r)
      ensures old(Sound(State())) ==> Sound(State()) && Advances(old(State()), State())
      ensures r.Ok? ==> LossTold(old(State()), State(), t, restored)
    {
      hide Sound, Advances, MarkWorkerLost, LossTold;
      TransactionKeepsSound(State(), LossStep(t, restored));
      LossLeaves(State(), t, restored);
      r := WriteLoss(t, restored);
    }

    method BindRecoveryAuthority(c: Caller, t: Token, restored: Restore, generation: nat, identity: string)
      returns (r: Result<(), Error>)
      modifies `authority
      ensures Answers(old(State()), BindRecovery(old(State()), c, t, restored, generation, identity), State(), r)
      ensures old(Sound(State())) ==> Sound(State()) && Advances(old(State()), State())
      ensures r.Ok? ==>
                && t in transfers && (transfers[t] == Consumed(FencedLoss) || transfers[t].Aborted?)
                && old(authority).Some? && authority.Some?
                && authority.value.generation == old(authority).value.generation + 1
                && old(authority).value.attempt != c.attempt == authority.value.attempt
                && authority.value.fence == c.fence && authority.value.token.None?
                && authority.value.cell == old(authority).value.cell == t.cell
                && restored == Restore(job.workspace, job.workspaceGeneration, job.workspaceRevision)
    {
      hide Sound, Advances;
      TransactionKeepsSound(State(), RecoveryStep(c, t, restored, generation, identity));
      if !c.live {
        return Err(StaleFence);
      }
      if !AwaitsRecovery(State(), t) {
        return Err(InvalidTransition);
      }
      var a := authority.value;
      if !cells[t.cell].state.CellLost? || a.attempt == c.attempt
         || restored != Restore(job.workspace, job.workspaceGeneration, job.workspaceRevision) {
        return Err(StaleFence);
      }
      var expected := if transfers[t].Consumed? then t.successorGeneration else t.priorGeneration;
      if a.generation != expected {
        return Err(StaleFence);
      }
      authority := Some(a.(attempt := c.attempt, fence := c.fence, generation := a.generation + 1,
                          workerGeneration := generation, workerIdentity := identity,
                          workspace := restored.workspace, workspaceGeneration := restored.generation,
                          workspaceRevision := restored.revision, token := None));
      return Ok(());
    }

    /** The workbench rows of a cancelled operation. */
    method CancelWorkbenchRows()
      modifies this
      ensures State() == old(State()).(
                job := old(job).(phase := PhaseCancelled, control := control.revision,
                                 cancellation := old(job).cancellation + 1),
                cells := map id | id in old(cells) :: id := CancelledCell(old(cells)[id]),
                suspensions := map k | k in old(suspensions) :: k := CancelledSuspension(old(suspensions)[k]),
                outboxes := map k | k in old(outboxes) :: k := CancelledOutbox(old(outboxes)[k]),
                transfers := map t | t in old(transfers) :: t := CancelledTransfer(old(transfers)[t]))
    {
      job := job.(phase := PhaseCancelled, control := control.revision, cancellation := job.cancellation + 1);
      cells := map id | id in cells :: id := CancelledCell(cells[id]);
      suspensions := map k | k in suspensions :: k := CancelledSuspension(suspensions[k]);
      outboxes := map k | k in outboxes :: k := CancelledOutbox(outboxes[k]);
      transfers := map t | t in transfers :: t := CancelledTransfer(transfers[t]);
    }

    /** The part of a cancellation that follows the outer update. */
    method CancelWorkbench() returns (r: Result<(), Error>)
      modifies this
      ensures r.Ok? ==>
                r == Ok(()) && control.cancelled && !old(job).phase.PhaseEnded? && !old(job).phase.PhaseCancelled?
      ensures r.Ok? ==> State() == old(State()).(
                job := old(job).(phase := PhaseCancelled, control := control.revision,
                                 cancellation := old(job).cancellation + 1),
                cells := map id | id in old(cells) :: id := CancelledCell(old(cells)[id]),
                suspensions := map k | k in old(suspensions) :: k := CancelledSuspension(old(suspensions)[k]),
                outboxes := map k | k in old(outboxes) :: k := CancelledOutbox(old(outboxes)[k]),
                transfers := map t | t in old(transfers) :: t := CancelledTransfer(old(transfers)[t]))
      ensures r == Err(InvalidTransition) <==> !old(control).cancelled
      ensures r == Err(StaleFence) <==>
              old(control).cancelled && (old(job).phase.PhaseEnded? || old(job).phase.PhaseCancelled?)
      ensures r.Err? ==> r.error == InvalidTransition || r.error == StaleFence
    {
      hide CancelledCell, CancelledSuspension, CancelledOutbox, CancelledTransfer;
      if !control.cancelled {
        return Err(InvalidTransition);
      }
      if job.phase.PhaseEnded? || job.phase.PhaseCancelled? {
        return Err(StaleFence);
      }
      CancelWorkbenchRows();
      return Ok(());
    }

    /** The transaction of `cancel_queued_dispatch`. */
    method CancelDispatchRows(now: int) returns (r: Result<(), Error>)
      modifies this
      ensures Answers(old(State()), CancelQueued(old(State()), now), State(), r)
    {
      hide Quiescent, CancelledCell, CancelledSuspension, CancelledOutbox, CancelledTransfer;
      if !outer.OuterAccepted? || !(dispatch.DispatchQueued? || dispatch.DispatchParked?) || !Quiescent(State(), now) {
        return Ok(());
      }
      var before := State();
      outer, dispatch := OuterElsewhere, DispatchCompleted;
      r := CancelWorkbench();
      if r.Err? {
        RollBack(before);
      }
    }

    method CancelQueuedDispatch(now: int) returns (r: Result<(), Error>)
      modifies this
      ensures Answers(old(State()), CancelQueued(old(State()), now), State(), r)
      ensures old(Sound(State())) ==> Sound(State()) && Advances(old(State()), State())
    {
      hide Sound, Advances, CancelQueued;
      TransactionKeepsSound(State(), CancelStep(now));
      r := CancelDispatchRows(now);
    }
  }
}
