/** The hand-over of a suspended workbench cell to a successor attempt, for one operation
    (src/aar/runtime/registry.py): its rows, and what each transaction does to them. A token's
    digest is the token itself. */
module Rebind {
  import opened JsonValues

  // Rows

  datatype Fence = Fence(dispatcher: nat, lease: nat, owner: string)

  datatype Token = Token(rebindGeneration: nat, priorGeneration: nat, successorGeneration: nat,
                         control: nat, cancellation: nat, deadline: int,
                         priorAttempt: string, priorFence: Fence,
                         successorAttempt: string, successorFence: Fence,
                         workspace: string, workspaceGeneration: nat, workspaceRevision: nat,
                         cell: string, suspension: nat, ticket: string, settlement: string, outboxDigest: string,
                         workerGeneration: nat, workerIdentity: string)

  datatype Consumption = WorkerAck(digest: AckDigest) | FencedLoss

  datatype TransferState = Prepared | Committed | Aborted | Consumed(kind: Consumption)

  datatype OutboxState = OutboxPending | OutboxPrepared | OutboxConsumed

  datatype Outbox = Outbox(settlement: string, digest: string, state: OutboxState, generation: nat,
                           attempt: Option<string>, fence: Option<Fence>)

  datatype Authority = Authority(attempt: string, fence: Fence, generation: nat, workerGeneration: nat,
                                 workerIdentity: string, workspace: string, workspaceGeneration: nat,
                                 workspaceRevision: nat, cell: string, token: Option<Token>)

  datatype CellState = CellPrepared | CellRunning | CellSuspended | CellLost | CellElsewhere

  datatype Cell = Cell(state: CellState, attempt: string, fence: Fence)

  datatype Phase = PhaseAccepted | PhaseRunning | PhaseCancelled | PhaseEnded | PhaseElsewhere

  datatype Job = Job(phase: Phase, control: nat, cancellation: nat, deadline: int,
                     workspace: string, workspaceGeneration: nat, workspaceRevision: nat)

  datatype Control = Control(revision: nat, cancelled: bool)

  datatype SuspensionState = Waiting | Settled | Cancelled | Parked

  datatype Suspension = Suspension(ticket: string, state: SuspensionState, cell: Option<string>)

  /** A caller-work ticket as this protocol reads it: the receipt that settled it, if one did. */
  datatype Ticket = Ticket(settledBy: Option<string>)

  datatype AttemptState = AttemptRunning | AttemptSuspended | AttemptIndeterminate | AttemptElsewhere

  /** `lease` is when the attempt's unreleased lease expires, if it holds one. */
  datatype Attempt = Attempt(number: nat, state: AttemptState, lease: Option<int>)

  datatype DispatchState = DispatchQueued | DispatchRunning | DispatchParked | DispatchCompleted

  datatype OuterState = OuterAccepted | OuterRunning | OuterIndeterminate | OuterElsewhere

  datatype Registry = Registry(outer: OuterState,
                               job: Job,
                               control: Control,
                               dispatch: DispatchState,
                               currentAttempt: Option<nat>,
                               authority: Option<Authority>,
                               attempts: map<string, Attempt>,
                               cells: map<string, Cell>,
                               suspensions: map<nat, Suspension>,
                               tickets: map<string, Ticket>,
                               outboxes: map<nat, Outbox>,
                               transfers: map<Token, TransferState>)

  // Calls

  /** Who calls: a claimed attempt, and whether its lease and generations are current. */
  datatype Caller = Caller(attempt: string, number: nat, fence: Fence, live: bool)

  datatype AckContent = AckContent(token: Token, committedPhase: bool, workerIdentity: string,
                                   workspaceRevision: int, stackResumed: bool)

  datatype AckDigest = Sealed(content: AckContent) | Unsealed(text: string)

  datatype Error = InvalidTransition | StaleFence | ReplayChanged | Integrity | Crashed

  datatype Outcome = Done(registry: Registry) | Refused(error: Error)

  function PendingOutboxes(s: Registry): set<nat> {
    set k | k in s.outboxes && s.outboxes[k].state.OutboxPending?
  }

  function TokenFor(s: Registry, c: Caller, k: nat): Token
    requires k in s.outboxes && k in s.suspensions && s.suspensions[k].cell.Some? && s.authority.Some?
  {
    var outbox, suspension, a := s.outboxes[k], s.suspensions[k], s.authority.value;
    Token(outbox.generation + 1, a.generation, a.generation + 1, s.job.control, s.job.cancellation, s.job.deadline,
          a.attempt, a.fence, c.attempt, c.fence, a.workspace, a.workspaceGeneration, a.workspaceRevision,
          suspension.cell.value, k, suspension.ticket, outbox.settlement, outbox.digest,
          a.workerGeneration, a.workerIdentity)
  }

  /** The control, phase and cell checks of a prepare on the outbox `k`. */
  predicate MayPrepare(s: Registry, k: nat) {
    && k in s.outboxes && k in s.suspensions && s.authority.Some?
    && s.job.phase.PhaseAccepted?
    && (s.suspensions[k].state.Settled? || s.suspensions[k].state.Cancelled?)
    && s.job.control == s.control.revision && !s.control.cancelled
    && s.suspensions[k].cell == Some(s.authority.value.cell)
  }

  predicate PredecessorQuiet(s: Registry)
    requires s.authority.Some?
  {
    var prior := s.authority.value.attempt;
    prior in s.attempts && s.attempts[prior].state.AttemptSuspended? && s.attempts[prior].lease.None?
  }

  predicate SettlementBinds(s: Registry, k: nat)
    requires k in s.outboxes && k in s.suspensions
  {
    var ticket := s.suspensions[k].ticket;
    ticket in s.tickets && s.tickets[ticket].settledBy == Some(s.outboxes[k].settlement)
  }

  /** UNIQUE (operation_id, suspension_revision, rebind_generation). */
  predicate GenerationFree(s: Registry, t: Token) {
    forall other :: other in s.transfers ==>
                      other.suspension != t.suspension || other.rebindGeneration != t.rebindGeneration
  }

  predicate AttemptIsRunning(s: Registry, c: Caller) {
    c.attempt in s.attempts && s.attempts[c.attempt].number == c.number && s.attempts[c.attempt].state.AttemptRunning?
  }

  function PrepareOn(s: Registry, c: Caller, k: nat, now: int): Outcome {
    if !MayPrepare(s, k) || now >= s.job.deadline then Refused(InvalidTransition)
    else if !PredecessorQuiet(s) then Refused(StaleFence)
    else if !SettlementBinds(s, k) then Refused(InvalidTransition)
    else
      var t := TokenFor(s, c, k);
      if t in s.transfers || !GenerationFree(s, t) then Refused(Integrity)
      else if !AttemptIsRunning(s, c) then Refused(StaleFence)
      else
        Done(s.(transfers := s.transfers[t := Prepared],
                outboxes := s.outboxes[k := s.outboxes[k].(state := OutboxPrepared, generation := t.rebindGeneration,
                                                        attempt := Some(c.attempt), fence := Some(c.fence))]))
  }

  /** `_prepare_workbench_successor_unlocked`: exactly one outbox must be pending. */
  function Prepare(s: Registry, c: Caller, now: int): Outcome {
    if |PendingOutboxes(s)| != 1 then Refused(InvalidTransition)
    else
      PendingIsOne(PendingOutboxes(s));
      var k :| k in PendingOutboxes(s);
      PrepareOn(s, c, k, now)
  }

  lemma PendingIsOne(pending: set<nat>)
    requires |pending| == 1
    ensures exists k :: k in pending
    ensures forall j, k :: j in pending && k in pending ==> j == k
  {
    var k :| k in pending;
    assert pending == {k} by {
      assert |pending - {k}| == 0;
    }
  }

  /** The rows a commit joins are all there. */
  predicate Joined(s: Registry, t: Token) {
    && t in s.transfers && t.suspension in s.suspensions && t.suspension in s.outboxes
    && s.authority.Some? && t.cell in s.cells
  }

  predicate SameControls(s: Registry, t: Token, control: nat) {
    && s.job.control == control && s.control.revision == control
    && s.job.cancellation == t.cancellation && !s.control.cancelled && s.job.deadline == t.deadline
  }

  predicate WorkerMatches(s: Registry, t: Token, generation: nat, identity: string)
    requires s.authority.Some?
  {
    var a := s.authority.value;
    && a.workerGeneration == generation && a.workerIdentity == identity
    && t.workerGeneration == generation && t.workerIdentity == identity
  }

  predicate DispatchedTo(s: Registry, c: Caller) {
    s.dispatch.DispatchRunning? && s.currentAttempt == Some(c.number)
  }

  /** A commit seen again after it took effect. */
  predicate CommitStands(s: Registry, c: Caller, t: Token, generation: nat, identity: string)
    requires Joined(s, t)
  {
    var a := s.authority.value;
    && (s.transfers[t].Committed? || (s.transfers[t].Consumed? && s.transfers[t].kind.WorkerAck?))
    && s.outboxes[t.suspension].state.OutboxConsumed? && s.job.phase.PhaseRunning?
    && (s.suspensions[t.suspension].state.Settled? || s.suspensions[t.suspension].state.Cancelled?)
    && s.cells[t.cell].state.CellRunning? && DispatchedTo(s, c) && SameControls(s, t, t.control + 1)
    && a.attempt == c.attempt && a.fence == t.successorFence && a.generation == t.successorGeneration
    && a.token == Some(t) && a.cell == t.cell && WorkerMatches(s, t, generation, identity)
  }

  predicate MayCommit(s: Registry, c: Caller, t: Token, generation: nat, identity: string, now: int)
    requires Joined(s, t)
  {
    var a := s.authority.value;
    && s.transfers[t].Prepared? && s.outboxes[t.suspension].state.OutboxPrepared? && s.job.phase.PhaseAccepted?
    && (s.suspensions[t.suspension].state.Settled? || s.suspensions[t.suspension].state.Cancelled?)
    && s.cells[t.cell].state.CellSuspended? && DispatchedTo(s, c) && SameControls(s, t, t.control)
    && now < t.deadline
    && a.attempt == t.priorAttempt && a.fence == t.priorFence && a.generation == t.priorGeneration
    && a.cell == t.cell && WorkerMatches(s, t, generation, identity)
  }

  predicate CellHeldByPredecessor(s: Registry, t: Token)
    requires t.cell in s.cells
  {
    var cell := s.cells[t.cell];
    cell.state.CellSuspended? && cell.attempt == t.priorAttempt && cell.fence == t.priorFence
  }

  predicate OutboxHeldBy(s: Registry, c: Caller, t: Token)
    requires t.suspension in s.outboxes
  {
    var outbox := s.outboxes[t.suspension];
    outbox.state.OutboxPrepared? && outbox.attempt == Some(c.attempt) && outbox.fence == Some(t.successorFence)
  }

  /** `commit_workbench_rebind`: authority, cell, phase, control, transfer and outbox together. */
  function Commit(s: Registry, c: Caller, t: Token, generation: nat, identity: string, now: int): Outcome {
    if !c.live then Refused(StaleFence)
    else if !Joined(s, t) || t.successorAttempt != c.attempt then Refused(InvalidTransition)
    else if s.transfers[t].Committed? || s.transfers[t].Consumed? then
      if CommitStands(s, c, t, generation, identity) then Done(s) else Refused(StaleFence)
    else if !MayCommit(s, c, t, generation, identity, now) || !CellHeldByPredecessor(s, t) ||
        !OutboxHeldBy(s, c, t) then
      Refused(StaleFence)
    else
      Done(s.(authority := Some(s.authority.value.(attempt := c.attempt, fence := t.successorFence,
                                                  generation := t.successorGeneration, token := Some(t))),
              cells := s.cells[t.cell := Cell(CellRunning, c.attempt, t.successorFence)],
              job := s.job.(phase := PhaseRunning, control := t.control + 1),
              control := s.control.(revision := t.control + 1),
              transfers := s.transfers[t := Committed],
              outboxes := s.outboxes[t.suspension := s.outboxes[t.suspension].(state := OutboxConsumed)]))
  }

  predicate AckMatches(s: Registry, c: Caller, t: Token, content: AckContent, digest: AckDigest)
    requires s.authority.Some?
  {
    var a := s.authority.value;
    && a.attempt == c.attempt && a.fence == t.successorFence && a.generation == t.successorGeneration
    && a.token == Some(t)
    && content.token == t && content.committedPhase && content.workerIdentity == t.workerIdentity
    && content.workspaceRevision == t.workspaceRevision && content.stackResumed
    && digest == Sealed(content)
  }

  /** `acknowledge_workbench_rebind`. */
  function Acknowledge(s: Registry, c: Caller, t: Token, content: AckContent, digest: AckDigest): Outcome {
    if !c.live then Refused(StaleFence)
    else if t !in s.transfers || s.authority.None? || t.successorAttempt != c.attempt then Refused(InvalidTransition)
    else if s.transfers[t] == Consumed(WorkerAck(digest)) && AckMatches(s, c, t, content, digest) then Done(s)
    else if !s.transfers[t].Committed? || !AckMatches(s, c, t, content, digest) then Refused(StaleFence)
    else Done(s.(transfers := s.transfers[t := Consumed(WorkerAck(digest))]))
  }

  /** The workspace a lost worker's checkpoint was restored into. */
  datatype Restore = Restore(workspace: string, generation: nat, revision: nat)

  predicate LossJoined(s: Registry, t: Token) {
    && Joined(s, t) && t.successorAttempt in s.attempts
    && s.outboxes[t.suspension].digest == t.outboxDigest
  }

  predicate LossReplayed(s: Registry, t: Token, restored: Restore)
    requires LossJoined(s, t)
  {
    && s.cells[t.cell].state.CellLost?
    && restored == Restore(s.job.workspace, s.job.workspaceGeneration, s.job.workspaceRevision)
    && s.outboxes[t.suspension].state.OutboxConsumed?
  }

  predicate MayLose(s: Registry, t: Token)
    requires LossJoined(s, t)
  {
    var a := s.authority.value;
    && (s.transfers[t].Prepared? || s.transfers[t].Committed?)
    && (s.cells[t.cell].state.CellRunning? || s.cells[t.cell].state.CellSuspended?)
    && a.attempt == (if s.transfers[t].Committed? then t.successorAttempt else t.priorAttempt)
    && a.cell == t.cell
    && s.attempts[t.successorAttempt].state.AttemptIndeterminate?
  }

  /** `mark_workbench_rebind_worker_lost`: a committed transfer is consumed, a prepared one aborted,
      and its outbox is consumed either way. */
  function MarkWorkerLost(s: Registry, t: Token, restored: Restore): Outcome {
    if !LossJoined(s, t) || !s.outer.OuterIndeterminate? ||
        !(s.job.phase.PhaseAccepted? || s.job.phase.PhaseRunning?) then
      Refused(InvalidTransition)
    else if s.transfers[t] == Consumed(FencedLoss) || s.transfers[t].Aborted? then
      if LossReplayed(s, t, restored) then Done(s) else Refused(ReplayChanged)
    else if !MayLose(s, t) then Refused(StaleFence)
    else if restored != Restore(s.job.workspace, s.job.workspaceGeneration + 1, 0) then Refused(InvalidTransition)
    else if s.outboxes[t.suspension].state.OutboxPending? then Refused(StaleFence)
    else
      Done(s.(transfers := s.transfers[t := if s.transfers[t].Committed? then Consumed(FencedLoss) else Aborted],
              outboxes := s.outboxes[t.suspension := s.outboxes[t.suspension].(state := OutboxConsumed)],
              cells := s.cells[t.cell := s.cells[t.cell].(state := CellLost)],
              job := s.job.(phase := PhaseRunning, workspaceGeneration := restored.generation,
                            workspaceRevision := restored.revision)))
  }

  /** The transfer left a recovery to bind, and it is the one the authority's cell belongs to. */
  predicate AwaitsRecovery(s: Registry, t: Token) {
    && t in s.transfers && s.authority.Some? && t.cell in s.cells && t.cell == s.authority.value.cell
    && (s.transfers[t] == Consumed(FencedLoss) || s.transfers[t].Aborted?)
  }

  /** `bind_workbench_recovery_authority`, for the transfer `t` the query returned. */
  function BindRecovery(s: Registry, c: Caller, t: Token, restored: Restore, generation: nat,
                        identity: string): Outcome {
    if !c.live then Refused(StaleFence)
    else if !AwaitsRecovery(s, t) then Refused(InvalidTransition)
    else
      var a := s.authority.value;
      if !s.cells[t.cell].state.CellLost? || a.attempt == c.attempt
        || restored != Restore(s.job.workspace, s.job.workspaceGeneration, s.job.workspaceRevision) then
        Refused(StaleFence)
      else if a.generation != (if s.transfers[t].Consumed? then t.successorGeneration else t.priorGeneration) then
        Refused(StaleFence)
      else
        Done(s.(authority := Some(a.(attempt := c.attempt, fence := c.fence, generation := a.generation + 1,
                                     workerGeneration := generation, workerIdentity := identity,
                                     workspace := restored.workspace, workspaceGeneration := restored.generation,
                                     workspaceRevision := restored.revision, token := None))))
  }

  predicate Quiescent(s: Registry, now: int) {
    s.currentAttempt.Some? ==>
      && (exists id :: id in s.attempts && s.attempts[id].number == s.currentAttempt.value)
      && (forall id :: id in s.attempts && s.attempts[id].number == s.currentAttempt.value ==>
                         !s.attempts[id].state.AttemptRunning? &&
                         (s.attempts[id].lease.Some? ==> s.attempts[id].lease.value <= now))
  }

  /** `cancel_queued_dispatch`: an operation that is not queued, parked and quiet is left alone;
      otherwise its prepared transfers abort and their outboxes are consumed. */
  function CancelQueued(s: Registry, now: int): Outcome {
    if !s.outer.OuterAccepted? || !(s.dispatch.DispatchQueued? || s.dispatch.DispatchParked?) || !Quiescent(s, now) then
      Done(s)
    else if !s.control.cancelled then Refused(InvalidTransition)
    else if s.job.phase.PhaseEnded? || s.job.phase.PhaseCancelled? then Refused(StaleFence)
    else
      Done(s.(outer := OuterElsewhere,
              dispatch := DispatchCompleted,
              job := s.job.(phase := PhaseCancelled, control := s.control.revision,
                            cancellation := s.job.cancellation + 1),
              cells := map id | id in s.cells :: id := CancelledCell(s.cells[id]),
              suspensions := map k | k in s.suspensions :: k := CancelledSuspension(s.suspensions[k]),
              outboxes := map k | k in s.outboxes :: k := CancelledOutbox(s.outboxes[k]),
              transfers := map t | t in s.transfers :: t := CancelledTransfer(s.transfers[t])))
  }

  function CancelledCell(c: Cell): Cell {
    if c.state.CellPrepared? || c.state.CellRunning? || c.state.CellSuspended? then c.(state := CellElsewhere) else c
  }

  function CancelledSuspension(p: Suspension): Suspension {
    if p.state.Waiting? then p.(state := Cancelled) else p
  }

  function CancelledOutbox(o: Outbox): Outbox {
    if o.state.OutboxPrepared? then o.(state := OutboxConsumed) else o
  }

  function CancelledTransfer(t: TransferState): TransferState {
    if t.Prepared? then Aborted else t
  }
}
