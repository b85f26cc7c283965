/** When each transaction of a rebind succeeds, and what it leaves, told by the rows alone. */
module RebindOutcomes {
  import opened JsonValues
  import opened Rebind

  // Preparing

  /** Exactly one outbox is pending. */
  predicate OnlyPending(s: Registry, k: nat) {
    k in s.outboxes && forall j :: j in s.outboxes ==> (s.outboxes[j].state == OutboxPending <==> j == k)
  }

  /** The job was woken, its control is its own, and the suspension that ended is the one the authority's cell
      waits in. */
  predicate Woken(s: Registry, k: nat, now: int) {
    && s.job.phase == PhaseAccepted && s.job.control == s.control.revision && !s.control.cancelled
    && now < s.job.deadline && s.authority.Some? && k in s.suspensions
    && (s.suspensions[k].state == Settled || s.suspensions[k].state == Cancelled)
    && s.suspensions[k].cell == Some(s.authority.value.cell)
  }

  /** The predecessor is suspended without a lease, and the successor's attempt runs. */
  predicate HandsReady(s: Registry, c: Caller) {
    && s.authority.Some? && s.authority.value.attempt in s.attempts
    && s.attempts[s.authority.value.attempt].state == AttemptSuspended
    && s.attempts[s.authority.value.attempt].lease == None
    && c.attempt in s.attempts
    && s.attempts[c.attempt].number == c.number && s.attempts[c.attempt].state == AttemptRunning
  }

  /** The outbox carries the settlement of its suspension's ticket, and no transfer its next generation. */
  predicate Carries(s: Registry, k: nat) {
    && k in s.outboxes && k in s.suspensions && s.suspensions[k].ticket in s.tickets
    && s.tickets[s.suspensions[k].ticket].settledBy == Some(s.outboxes[k].settlement)
    && forall t :: t in s.transfers && t.suspension == k ==> t.rebindGeneration != s.outboxes[k].generation + 1
  }

  /** The token binds the authority handed over, the attempt it is handed to, and every row it depends on. */
  predicate Binds(t: Token, s: Registry, c: Caller, k: nat)
    requires s.authority.Some? && k in s.outboxes && k in s.suspensions
  {
    && t.priorAttempt == s.authority.value.attempt && t.priorFence == s.authority.value.fence
    && t.priorGeneration == s.authority.value.generation && t.successorGeneration == t.priorGeneration + 1
    && t.successorAttempt == c.attempt && t.successorFence == c.fence
    && t.workspace == s.authority.value.workspace && t.workspaceGeneration == s.authority.value.workspaceGeneration
    && t.workspaceRevision == s.authority.value.workspaceRevision
    && t.workerGeneration == s.authority.value.workerGeneration
    && t.workerIdentity == s.authority.value.workerIdentity
    && t.control == s.job.control && t.cancellation == s.job.cancellation && t.deadline == s.job.deadline
    && t.suspension == k && s.suspensions[k].cell == Some(t.cell) && t.ticket == s.suspensions[k].ticket
    && t.settlement == s.outboxes[k].settlement && t.outboxDigest == s.outboxes[k].digest
    && t.rebindGeneration == s.outboxes[k].generation + 1
  }

  lemma PendingSet(s: Registry, k: nat)
    requires OnlyPending(s, k)
    ensures PendingOutboxes(s) == {k}
  {
  }

  lemma OnePending(s: Registry)
    ensures |PendingOutboxes(s)| == 1 ==> exists k :: OnlyPending(s, k)
  {
    if |PendingOutboxes(s)| == 1 {
      PendingIsOne(PendingOutboxes(s));
      var k :| k in PendingOutboxes(s);
      assert forall j :: j in s.outboxes && s.outboxes[j].state == OutboxPending ==> j in PendingOutboxes(s);
      assert OnlyPending(s, k);
    }
  }

  /** Without exactly one pending outbox nothing is prepared. */
  lemma PrepareNeedsOnePending(s: Registry, c: Caller, now: int)
    ensures Prepare(s, c, now).Done? ==> exists k :: OnlyPending(s, k)
  {
    hide PrepareOn;
    OnePending(s);
  }

  lemma PrepareIsOn(s: Registry, c: Caller, now: int, k: nat)
    requires OnlyPending(s, k)
    ensures Prepare(s, c, now) == PrepareOn(s, c, k, now)
  {
    hide PrepareOn;
    PendingSet(s, k);
  }

  /** A preparation succeeds exactly when the job is woken, the hands are ready and the outbox carries its
      settlement; it adds one prepared transfer, under a token that binds all of it, and marks the outbox. */
  lemma PrepareSucceedsExactly(s: Registry, c: Caller, now: int, k: nat)
    requires OnlyPending(s, k)
    ensures Prepare(s, c, now).Done? <==> Woken(s, k, now) && HandsReady(s, c) && Carries(s, k)
    ensures Prepare(s, c, now).Done? ==>
              var t := TokenFor(s, c, k); var after := Prepare(s, c, now).registry;
              && Binds(t, s, c, k) && t !in s.transfers
              && after == s.(transfers := s.transfers[t := Prepared], outboxes := after.outboxes)
              && after.outboxes ==
                 s.outboxes[k := Outbox(t.settlement, t.outboxDigest, OutboxPrepared, t.rebindGeneration,
                                        Some(c.attempt), Some(c.fence))]
  {
    PrepareIsOn(s, c, now, k);
  }

  // Committing

  predicate RowsThere(s: Registry, t: Token) {
    && t in s.transfers && t.suspension in s.suspensions && t.suspension in s.outboxes && s.authority.Some?
    && t.cell in s.cells
  }

  predicate Ended(p: Suspension) {
    p.state == Settled || p.state == Cancelled
  }

  /** Controls, dispatch and worker are still as the token bound them. */
  predicate StillBound(s: Registry, c: Caller, t: Token, control: nat, generation: nat, identity: string)
    requires s.authority.Some?
  {
    && s.job.control == control && s.control.revision == control && !s.control.cancelled
    && s.job.cancellation == t.cancellation && s.job.deadline == t.deadline
    && s.dispatch == DispatchRunning && s.currentAttempt == Some(c.number)
    && s.authority.value.workerGeneration == generation && s.authority.value.workerIdentity == identity
    && t.workerGeneration == generation && t.workerIdentity == identity && s.authority.value.cell == t.cell
  }

  /** A prepared transfer commits exactly for its live successor, in time, while the predecessor holds authority and
      cell and everything else is as the token bound it; authority, cell, job, control, transfer and outbox move
      together. */
  lemma CommitSucceedsExactly(s: Registry, c: Caller, t: Token, generation: nat, identity: string, now: int)
    requires t in s.transfers && s.transfers[t] == Prepared
    ensures Commit(s, c, t, generation, identity, now).Done? <==>
            && c.live && RowsThere(s, t) && t.successorAttempt == c.attempt && now < t.deadline
            && s.job.phase == PhaseAccepted && Ended(s.suspensions[t.suspension])
            && StillBound(s, c, t, t.control, generation, identity)
            && s.authority.value.attempt == t.priorAttempt && s.authority.value.fence == t.priorFence
            && s.authority.value.generation == t.priorGeneration
            && s.cells[t.cell] == Cell(CellSuspended, t.priorAttempt, t.priorFence)
            && s.outboxes[t.suspension].state == OutboxPrepared
            && s.outboxes[t.suspension].attempt == Some(c.attempt)
            && s.outboxes[t.suspension].fence == Some(t.successorFence)
    ensures Commit(s, c, t, generation, identity, now).Done? ==>
              var after := Commit(s, c, t, generation, identity, now).registry; var a := after.authority;
              && a.Some? && a.value.attempt == t.successorAttempt && a.value.fence == t.successorFence
              && a.value.generation == t.successorGeneration && a.value.token == Some(t)
              && a.value == s.authority.value.(attempt := a.value.attempt, fence := a.value.fence,
                                              generation := a.value.generation, token := a.value.token)
              && after.cells == s.cells[t.cell := Cell(CellRunning, t.successorAttempt, t.successorFence)]
              && after.job == s.job.(phase := PhaseRunning, control := s.job.control + 1)
              && after.control == Control(s.control.revision + 1, false)
              && after.transfers == s.transfers[t := Committed]
              && after.outboxes == s.outboxes[t.suspension := s.outboxes[t.suspension].(state := OutboxConsumed)]
              && after == s.(authority := after.authority, cells := after.cells, job := after.job,
                             control := after.control, transfers := after.transfers, outboxes := after.outboxes)
  {
  }

  /** A commit seen again changes nothing, and is accepted exactly while what it brought about still stands; an
      aborted transfer, or one whose worker was lost, is never committed. */
  lemma CommitAgainExactly(s: Registry, c: Caller, t: Token, generation: nat, identity: string, now: int)
    requires t in s.transfers && s.transfers[t] != Prepared
    ensures Commit(s, c, t, generation, identity, now).Done? ==>
              Commit(s, c, t, generation, identity, now).registry == s
    ensures Commit(s, c, t, generation, identity, now).Done? <==>
            && (s.transfers[t] == Committed || (s.transfers[t].Consumed? && s.transfers[t].kind != FencedLoss))
            && c.live && RowsThere(s, t) && t.successorAttempt == c.attempt
            && s.job.phase == PhaseRunning && Ended(s.suspensions[t.suspension])
            && StillBound(s, c, t, t.control + 1, generation, identity)
            && s.authority.value.attempt == t.successorAttempt && s.authority.value.fence == t.successorFence
            && s.authority.value.generation == t.successorGeneration && s.authority.value.token == Some(t)
            && s.cells[t.cell].state == CellRunning && s.outboxes[t.suspension].state == OutboxConsumed
  {
  }

  // Acknowledging

  /** What a worker that resumed its stack under this token seals. */
  predicate SealsTheToken(t: Token, content: AckContent, digest: AckDigest) {
    && digest == Sealed(content) && content == AckContent(t, true, t.workerIdentity, t.workspaceRevision, true)
  }

  predicate HoldsByToken(s: Registry, t: Token) {
    && s.authority.Some? && s.authority.value.attempt == t.successorAttempt
    && s.authority.value.fence == t.successorFence && s.authority.value.generation == t.successorGeneration
    && s.authority.value.token == Some(t)
  }

  /** An acknowledgement succeeds exactly for the live successor that holds the authority under this token and seals
      it, the first time on a committed transfer and again with the same digest. */
  lemma AcknowledgeSucceedsExactly(s: Registry, c: Caller, t: Token, content: AckContent, digest: AckDigest)
    ensures Acknowledge(s, c, t, content, digest).Done? <==>
            && c.live && t in s.transfers && t.successorAttempt == c.attempt && HoldsByToken(s, t)
            && SealsTheToken(t, content, digest)
            && (s.transfers[t] == Committed || s.transfers[t] == Consumed(WorkerAck(digest)))
    ensures Acknowledge(s, c, t, content, digest).Done? ==>
              Acknowledge(s, c, t, content, digest).registry ==
              s.(transfers := s.transfers[t := Consumed(WorkerAck(digest))])
  {
    if t in s.transfers && s.transfers[t] == Consumed(WorkerAck(digest)) {
      assert s.transfers[t := s.transfers[t]] == s.transfers;
    }
  }

  // Losing a worker

  /** The authority is on the side of the transfer where it should be: with the successor once it is committed, with
      the predecessor before. */
  predicate OnItsSide(s: Registry, t: Token)
    requires t in s.transfers && s.authority.Some?
  {
    s.authority.value.attempt == if s.transfers[t] == Committed then t.successorAttempt else t.priorAttempt
  }

  /** The first loss of a transfer's worker succeeds exactly while the operation is indeterminate, with the cell of
      the authority running or suspended and the successor's attempt indeterminate, for the checkpoint restored into
      the next generation of the workspace. */
  lemma FirstLossExactly(s: Registry, t: Token, restored: Restore)
    requires t in s.transfers && (s.transfers[t] == Prepared || s.transfers[t] == Committed)
    ensures MarkWorkerLost(s, t, restored).Done? <==>
            && RowsThere(s, t) && t.successorAttempt in s.attempts
            && s.attempts[t.successorAttempt].state == AttemptIndeterminate
            && s.outer == OuterIndeterminate && (s.job.phase == PhaseAccepted || s.job.phase == PhaseRunning)
            && (s.cells[t.cell].state == CellRunning || s.cells[t.cell].state == CellSuspended)
            && s.authority.value.cell == t.cell && OnItsSide(s, t)
            && s.outboxes[t.suspension].digest == t.outboxDigest && s.outboxes[t.suspension].state != OutboxPending
            && restored == Restore(s.job.workspace, s.job.workspaceGeneration + 1, 0)
  {
  }

  /** The first loss leaves the cell lost and the job running on the restored workspace, a committed transfer consumed
      by the loss and a prepared one aborted, and the outbox spent; nothing else changes. A later one changes
      nothing. */
  predicate LossTold(s: Registry, after: Registry, t: Token, restored: Restore) {
    && t in s.transfers
    && if s.transfers[t] == Prepared || s.transfers[t] == Committed then
         && t.cell in s.cells && after.cells == s.cells[t.cell := s.cells[t.cell].(state := CellLost)]
         && after.job == s.job.(phase := PhaseRunning, workspaceGeneration := restored.generation,
                                workspaceRevision := restored.revision)
         && after.transfers ==
            s.transfers[t := if s.transfers[t] == Committed then Consumed(FencedLoss) else Aborted]
         && t.suspension in s.outboxes
         && after.outboxes == s.outboxes[t.suspension := s.outboxes[t.suspension].(state := OutboxConsumed)]
         && after == s.(cells := after.cells, job := after.job, transfers := after.transfers,
                        outboxes := after.outboxes)
       else after == s
  }

  lemma LossLeaves(s: Registry, t: Token, restored: Restore)
    ensures MarkWorkerLost(s, t, restored).Done? ==> LossTold(s, MarkWorkerLost(s, t, restored).registry, t, restored)
  {
  }

  /** A loss seen again changes nothing, and is accepted exactly on the workspace it left. */
  lemma LossAgainExactly(s: Registry, t: Token, restored: Restore)
    requires t in s.transfers && s.transfers[t] != Prepared && s.transfers[t] != Committed
    ensures MarkWorkerLost(s, t, restored).Done? ==> MarkWorkerLost(s, t, restored).registry == s
    ensures MarkWorkerLost(s, t, restored).Done? <==>
            && (s.transfers[t] == Aborted || s.transfers[t] == Consumed(FencedLoss))
            && RowsThere(s, t) && t.successorAttempt in s.attempts
            && s.outer == OuterIndeterminate && (s.job.phase == PhaseAccepted || s.job.phase == PhaseRunning)
            && s.cells[t.cell].state == CellLost
            && s.outboxes[t.suspension].digest == t.outboxDigest && s.outboxes[t.suspension].state == OutboxConsumed
            && restored == Restore(s.job.workspace, s.job.workspaceGeneration, s.job.workspaceRevision)
  {
  }

  // Recovering

  /** A recovery is bound exactly for a live attempt other than the authority's, on the job's own workspace, for a lost
      cell of the authority whose transfer was aborted or consumed by the loss, at the generation it left. */
  lemma RecoverySucceedsExactly(s: Registry, c: Caller, t: Token, restored: Restore, generation: nat, identity: string)
    ensures BindRecovery(s, c, t, restored, generation, identity).Done? <==>
            && c.live && t in s.transfers && s.authority.Some? && t.cell in s.cells
            && s.cells[t.cell].state == CellLost && s.authority.value.cell == t.cell
            && s.authority.value.attempt != c.attempt
            && restored == Restore(s.job.workspace, s.job.workspaceGeneration, s.job.workspaceRevision)
            && ((s.transfers[t] == Consumed(FencedLoss) && s.authority.value.generation == t.successorGeneration)
                || (s.transfers[t] == Aborted && s.authority.value.generation == t.priorGeneration))
    ensures BindRecovery(s, c, t, restored, generation, identity).Done? ==>
              BindRecovery(s, c, t, restored, generation, identity).registry ==
              s.(authority := Some(Authority(c.attempt, c.fence, s.authority.value.generation + 1, generation, identity,
                                            restored.workspace, restored.generation, restored.revision,
                                            s.authority.value.cell, None)))
  {
  }

  /** After the first loss of a transfer a live attempt other than the authority's binds the recovery on the restored
      workspace, the authority being at the generation the transfer left it. */
  lemma LossIsRecoverable(s: Registry, t: Token, restored: Restore, c: Caller, generation: nat, identity: string)
    requires t in s.transfers && (s.transfers[t] == Prepared || s.transfers[t] == Committed)
    requires MarkWorkerLost(s, t, restored).Done? && s.authority.Some?
    requires s.authority.value.generation ==
             if s.transfers[t] == Committed then t.successorGeneration else t.priorGeneration
    requires c.live && c.attempt != s.authority.value.attempt
    ensures var bound := BindRecovery(MarkWorkerLost(s, t, restored).registry, c, t, restored, generation, identity);
      && bound.Done? && bound.registry.authority.Some?
      && bound.registry.authority.value.attempt == c.attempt
      && bound.registry.authority.value.generation == s.authority.value.generation + 1
      && bound.registry.authority.value.workspaceGeneration == restored.generation
      && bound.registry.authority.value.token.None?
  {
    hide MarkWorkerLost, BindRecovery;
    FirstLossExactly(s, t, restored);
    LossLeaves(s, t, restored);
    RecoverySucceedsExactly(MarkWorkerLost(s, t, restored).registry, c, t, restored, generation, identity);
  }

  // Cancelling a queued operation

  /** No attempt of the current number runs or holds a lease that has not expired, and one of them is known. */
  ghost predicate Quiet(s: Registry, now: int) {
    s.currentAttempt.Some? ==>
      && (exists id :: id in s.attempts && s.attempts[id].number == s.currentAttempt.value)
      && (forall id :: id in s.attempts && s.attempts[id].number == s.currentAttempt.value ==>
                         && s.attempts[id].state != AttemptRunning
                         && (s.attempts[id].lease.None? || s.attempts[id].lease.value <= now))
  }

  predicate Open(c: Cell) {
    c.state == CellPrepared || c.state == CellRunning || c.state == CellSuspended
  }

  /** A queued or parked operation at rest closes altogether, once its control is cancelled and unless its job has
      ended; any other is left alone. */
  lemma CancelSucceedsExactly(s: Registry, now: int)
    ensures var rests := s.outer == OuterAccepted && (s.dispatch == DispatchQueued || s.dispatch == DispatchParked) &&
                         Quiet(s, now);
      && (!rests ==> CancelQueued(s, now) == Done(s))
      && (rests ==>
            (CancelQueued(s, now).Done? <==>
             s.control.cancelled && s.job.phase != PhaseEnded && s.job.phase != PhaseCancelled))
      && (rests && CancelQueued(s, now).Done? ==> Closes(s, CancelQueued(s, now).registry))
  {
  }

  /** Every open cell, waiting suspension, prepared transfer and its outbox is closed, and nothing else is touched. */
  predicate Closes(s: Registry, after: Registry) {
    && after.outer == OuterElsewhere && after.dispatch == DispatchCompleted
    && after.job == s.job.(phase := PhaseCancelled, control := s.control.revision,
                           cancellation := s.job.cancellation + 1)
    && after.cells.Keys == s.cells.Keys && after.suspensions.Keys == s.suspensions.Keys
    && after.outboxes.Keys == s.outboxes.Keys && after.transfers.Keys == s.transfers.Keys
    && (forall id :: id in s.cells ==>
          after.cells[id] == if Open(s.cells[id]) then s.cells[id].(state := CellElsewhere) else s.cells[id])
    && (forall k :: k in s.suspensions ==>
          after.suspensions[k] ==
          if s.suspensions[k].state == Waiting then s.suspensions[k].(state := Cancelled) else s.suspensions[k])
    && (forall k :: k in s.outboxes ==>
          after.outboxes[k] ==
          if s.outboxes[k].state == OutboxPrepared then s.outboxes[k].(state := OutboxConsumed) else s.outboxes[k])
    && (forall t :: t in s.transfers ==>
          after.transfers[t] == if s.transfers[t] == Prepared then Aborted else s.transfers[t])
    && after == s.(outer := after.outer, dispatch := after.dispatch, job := after.job, cells := after.cells,
                   suspensions := after.suspensions, outboxes := after.outboxes, transfers := after.transfers)
  }

  /** After a cancellation that closes, nothing of the operation is left open or in transfer. */
  lemma NothingStaysOpen(s: Registry, now: int)
    requires CancelQueued(s, now).Done? && CancelQueued(s, now).registry != s
    ensures var after := CancelQueued(s, now).registry;
      && (forall id :: id in after.cells ==> !Open(after.cells[id]))
      && (forall k :: k in after.suspensions ==> after.suspensions[k].state != Waiting)
      && (forall k :: k in after.outboxes ==> after.outboxes[k].state != OutboxPrepared)
      && (forall t :: t in after.transfers ==> after.transfers[t] != Prepared)
  {
    hide CancelQueued, Quiet;
    CancelSucceedsExactly(s, now);
  }
}
