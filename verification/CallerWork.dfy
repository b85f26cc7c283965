/** The tables of src/aar/runtime/caller_work.py and what each command does to them. A digest is
    the value it was computed from, so two digests agree exactly when the values do. */
module CallerWork {
  import opened JsonValues

  // Rows

  datatype TicketState =
    | Pending
    | SendReserved
    | SendStarted
    | SettledSuccess
    | SettledFailure
    | OutcomeUnknown
    | CancelRequested
    | CancelledBeforeSend
    | CancelledCertain
    | Quarantined

  /** A physical send was marked and its outcome is still open. */
  predicate MayHaveSent(state: TicketState) {
    state.SendStarted? || state.OutcomeUnknown? || state.CancelRequested?
  }

  /** Closed by a candidate receipt. */
  predicate ClosedByReceipt(state: TicketState) {
    state.SettledSuccess? || state.SettledFailure? || state.CancelledCertain?
  }

  predicate Closed(state: TicketState) {
    ClosedByReceipt(state) || state.CancelledBeforeSend? || state.Quarantined?
  }

  datatype Fence = Fence(ticketId: string, revision: nat, claimId: string, attempt: string,
                         adapter: string, generation: int)

  datatype Claimant = Claimant(principal: string, session: string, adapter: string, generation: int,
                               claimId: string, fence: Fence, expires: int)

  datatype Attempt = Attempt(id: string, externalKey: string, lookup: bool, cancel: bool,
                             startedAt: Option<int>, sentDigest: Option<string>, sentAt: Option<int>,
                             requestId: Option<string>)

  datatype Ticket = Ticket(id: string, operation: string, suspension: nat, revision: nat, digest: string,
                           requestDigest: string, deadline: int, state: TicketState,
                           claimant: Option<Claimant>, attempt: Option<Attempt>,
                           settledReceipt: Option<Digest>, settledAt: Option<int>)

  datatype Kind = Model | Subagent | Evidence | Effect

  /** What an observation reports. The last two words are those the code compares with and no
      schema lists. */
  datatype Report =
    | Succeeded
    | FailedCertain
    | ReportedUnknown
    | Accepted
    | ReportedCancelled
    | Proposed
    | Rejected
    | WordCancelled
    | WordCanceled

  datatype Observation = Observation(kind: Kind, report: Report, evidence: string)

  datatype Signature =
    | CommitSignature(ticketId: string, attempt: string, requestId: Option<string>, observation: Observation)
    | OtherSignature(text: string)

  datatype Receipt = Receipt(ticketId: string, ticketDigest: string, attempt: string, sentDigest: string,
                             sentAt: Option<int>, requestId: Option<string>, observation: Observation,
                             principal: string, session: string, adapter: string, generation: int,
                             observedAt: int, signature: Signature)

  datatype Digest = OfReceipt(receipt: Receipt) | OtherDigest(text: string)

  /** The evidence a model response carries, and whether it attests the bound route. */
  datatype Response = Response(evidence: string, attestsRoute: bool)

  datatype SuspensionState = Waiting | Settled | Cancelled | Parked

  datatype Suspension = Suspension(ticketId: string, requestDigest: string, control: int,
                                   state: SuspensionState, settledAt: Option<int>)

  datatype Phase = PhaseAccepted | WaitingExternal | OtherPhase

  datatype Job = Job(phase: Phase, control: int, cancellation: int, cancelled: bool, deadline: int)

  datatype Control = Control(revision: int, cancelled: bool)

  datatype OperationState = OperationAccepted | OperationElsewhere

  datatype Successor = Successor(settlement: Digest, createdAt: int)

  datatype Recorded = Recorded(ticketId: string, command: Command, result: Ticket)

  datatype Registry = Registry(tickets: map<string, Ticket>,
                               candidates: set<Receipt>,
                               recorded: map<(string, string), Recorded>,
                               suspensions: map<(string, nat), Suspension>,
                               operations: map<string, OperationState>,
                               controls: map<string, Control>,
                               jobs: map<string, Job>,
                               outbox: map<(string, nat), Successor>,
                               journal: map<(string, string), string>)

  // Row constraints

  predicate Unsent(a: Attempt) {
    a.startedAt.None? && a.sentDigest.None? && a.sentAt.None? && a.requestId.None?
  }

  predicate Marked(a: Attempt) {
    a.startedAt.Some? && a.sentDigest.Some?
  }

  predicate SendMarked(t: Ticket) {
    t.attempt.Some? && t.attempt.value.startedAt.Some?
  }

  /** The CHECK clauses of `caller_work_tickets`. */
  predicate Shaped(t: Ticket) {
    && (t.claimant.Some? <==> t.attempt.Some?)
    && (t.state.Pending? ==> t.attempt.None?)
    && (!t.state.Pending? && !t.state.CancelledBeforeSend? ==> t.attempt.Some?)
    && ((t.state.SendReserved? || t.state.CancelledBeforeSend?) && t.attempt.Some? ==> Unsent(t.attempt.value))
    && ((MayHaveSent(t.state) || ClosedByReceipt(t.state) || t.state.Quarantined?) ==> Marked(t.attempt.value))
    && (t.settledReceipt.Some? <==> ClosedByReceipt(t.state) || t.state.CancelledBeforeSend?)
    && (t.settledAt.Some? <==> ClosedByReceipt(t.state) || t.state.CancelledBeforeSend?)
    && (t.state.SettledSuccess? ==> t.attempt.value.sentAt.Some?)
  }

  /** UNIQUE (physical_attempt_id), and the candidate rows that reference this row. */
  predicate KeysHold(s: Registry, t: Ticket) {
    && (t.attempt.Some? ==>
          forall id :: id in s.tickets && id != t.id && s.tickets[id].attempt.Some? ==>
                         s.tickets[id].attempt.value.id != t.attempt.value.id)
    && (forall c :: c in s.candidates && c.ticketId == t.id ==>
                      t.attempt.Some? && t.attempt.value.id == c.attempt)
  }

  // Commands

  datatype Budget = Budget(wallTime: int, modelRequests: int, inputTokens: int, outputTokens: int,
                           childOperations: int, artifactBytes: int)

  /** Who calls, and on what terms; `rest` stands for the identifiers no check reads. */
  datatype Context = Context(principal: string, session: string, generation: int, capabilities: string,
                             deadline: int, grants: seq<string>, budget: Budget, rest: string)

  /** What every command of a caller carries: its context, and each durable fence it names. */
  datatype Fences = Fences(context: Context, ticketId: string, revision: nat, ticketDigest: string,
                           operation: string, control: int, cancellation: int, suspension: nat, deadline: int,
                           key: string)

  datatype Action = Lookup | RetryIfCertainNoSend | Quarantine | Settle

  datatype ReconcileFence = ReconcileFence(ticketId: string, revision: nat, attempt: string,
                                           receipt: Option<Digest>, reconciler: string, generation: int,
                                           action: Action)

  datatype Command =
    | Claim(fences: Fences, adapter: string, generation: int, lease: int)
    | MarkSendStarted(fences: Fences, claimId: string, claimFence: Fence, attempt: string, expires: int,
                      externalKey: string, sentDigest: string, lookup: bool, cancel: bool)
    | CancelBeforeSend(fences: Fences, from: TicketState, reservedClaim: Option<string>,
                       reservedFence: Option<Fence>, reservedAttempt: Option<string>,
                       reservedExpiry: Option<int>, settlement: Digest, settledAt: int, reason: string)
    | Commit(fences: Fences, claimId: string, claimFence: Fence, attempt: string, sentDigest: string,
             sentAt: Option<int>, requestId: Option<string>, observation: Observation,
             response: Option<Response>)
    | Reconcile(fences: Fences, attempt: string, reconciler: string, generation: int, fence: ReconcileFence,
                action: Action, candidate: Option<Digest>)
    | SettleCandidate(ticketId: string, revision: nat, candidate: Option<Digest>, reconciler: string,
                      generation: int, fence: ReconcileFence, key: string)
    | ReclaimExpired(ticketId: string, revision: nat, claimId: string, claimFence: Fence)
    | RequestCancel(ticketId: string, revision: nat)
    | MarkOutcomeUnknown(ticketId: string, revision: nat)
    | AppendCandidate(receipt: Receipt, digest: Digest)
    | AppendModelCandidate(receipt: Receipt, digest: Digest, evidence: Response)
    | CreateTicket(ticket: Ticket)

  predicate Keyed(c: Command) {
    c.Claim? || c.MarkSendStarted? || c.CancelBeforeSend? || c.Commit? || c.Reconcile? || c.SettleCandidate?
  }

  function KeyOf(c: Command): string
    requires Keyed(c)
  {
    if c.SettleCandidate? then c.key else c.fences.key
  }

  function TicketOf(c: Command): string {
    match c
    case Claim(f, _, _, _) => f.ticketId
    case MarkSendStarted(f, _, _, _, _, _, _, _, _) => f.ticketId
    case CancelBeforeSend(f, _, _, _, _, _, _, _, _) => f.ticketId
    case Commit(f, _, _, _, _, _, _, _, _) => f.ticketId
    case Reconcile(f, _, _, _, _, _, _) => f.ticketId
    case SettleCandidate(id, _, _, _, _, _, _) => id
    case ReclaimExpired(id, _, _, _) => id
    case RequestCancel(id, _) => id
    case MarkOutcomeUnknown(id, _) => id
    case AppendCandidate(r, _) => r.ticketId
    case AppendModelCandidate(r, _, _) => r.ticketId
    case CreateTicket(t) => t.id
  }

  /** What one call draws from outside: the clock and two new identifiers. */
  datatype Draw = Draw(now: int, claimId: string, attempt: string)

  datatype Error =
    | Missing
    | Stale
    | InvalidTransition
    | ExpiredClaim
    | Conflict
    | KeyReused
    | Invalid
    | Integrity

  datatype Outcome = Done(registry: Registry, ticket: Ticket) | Refused(error: Error)

  datatype Projected = Kept(registry: Registry) | Lost(error: Error)

  // Guards

  /** `_checked_row`: every durable fence the command names, first failure first. */
  function FenceError(s: Registry, t: Ticket, f: Fences): Option<Error> {
    if t.revision != f.revision then Some(Stale)
    else if t.digest != f.ticketDigest || t.operation != f.operation || t.suspension != f.suspension
      || t.deadline != f.deadline then Some(Conflict)
    else if t.operation !in s.controls || t.operation !in s.jobs
      || (t.operation, t.suspension) !in s.suspensions then Some(Conflict)
    else
      var control := s.controls[t.operation];
      var job := s.jobs[t.operation];
      var suspension := s.suspensions[(t.operation, t.suspension)];
      if control.revision != f.control || control.cancelled then Some(Conflict)
      else if job.control != f.control || job.cancellation != f.cancellation || job.cancelled
        || job.deadline != f.deadline then Some(Conflict)
      else if suspension.control != f.control || !suspension.state.Waiting? then Some(Conflict)
      else None
  }

  predicate ClaimMatches(t: Ticket, claimId: Option<string>, fence: Option<Fence>, attempt: Option<string>) {
    && t.claimant.Some? && t.attempt.Some?
    && claimId == Some(t.claimant.value.claimId)
    && fence == Some(t.claimant.value.fence)
    && attempt == Some(t.attempt.value.id)
  }

  predicate ReconcilerMatches(t: Ticket, reconciler: string, generation: int) {
    t.claimant.Some? && t.claimant.value.adapter == reconciler && t.claimant.value.generation == generation
  }

  predicate SchemaAllows(o: Observation) {
    match o.kind
    case Model => o.report.Succeeded? || o.report.FailedCertain? || o.report.ReportedUnknown?
    case Subagent => o.report.Accepted? || o.report.Succeeded? || o.report.FailedCertain?
                     || o.report.ReportedUnknown? || o.report.ReportedCancelled?
    case Evidence => o.report.Succeeded? || o.report.FailedCertain?
    case Effect => o.report.Proposed? || o.report.Rejected? || o.report.ReportedUnknown?
  }

  predicate IsModelSuccess(o: Observation) {
    o.kind.Model? && o.report.Succeeded?
  }

  function CallerKey(digest: string): string {
    var hex := if |digest| >= 7 && digest[..7] == "sha256:" then digest[7..] else digest;
    "caller-" + (if |hex| > 48 then hex[..48] else hex)
  }

  // Writes shared by the commands

  /** One UPDATE of a ticket row, refused by the row's own constraints. */
  function Write(s: Registry, t: Ticket): Outcome {
    if Shaped(t) && KeysHold(s, t) then Done(s.(tickets := s.tickets[t.id := t]), t)
    else Refused(Integrity)
  }

  function Released(t: Ticket): Ticket {
    t.(revision := t.revision + 1, state := Pending, claimant := None, attempt := None,
       settledReceipt := None, settledAt := None)
  }

  function SuspensionAfter(state: TicketState): SuspensionState
    requires Closed(state)
  {
    if state.SettledSuccess? || state.SettledFailure? then Settled
    else if state.Quarantined? then Parked
    else Cancelled
  }

  /** `_project_terminal`. `t` is the row as it was before the ticket closed. */
  function Project(s: Registry, t: Ticket, state: TicketState, settlement: Option<Digest>, at: int): Projected
    requires Closed(state)
    requires ClosedByReceipt(state) ==> settlement.Some?
  {
    var key := (t.operation, t.suspension);
    if key !in s.suspensions || !s.suspensions[key].state.Waiting? then Lost(Conflict)
    else
      var suspension := s.suspensions[key].(state := SuspensionAfter(state), settledAt := Some(at));
      var s1 := s.(suspensions := s.suspensions[key := suspension]);
      if !ClosedByReceipt(state) then Kept(s1)
      else if t.operation !in s.operations then Lost(Conflict)
      else if !s.operations[t.operation].OperationAccepted? then Kept(s1)
      else if t.operation !in s.jobs || t.operation !in s.controls then Lost(Conflict)
      else
        var job := s.jobs[t.operation];
        var control := s.controls[t.operation];
        if t.state.OutcomeUnknown? && at >= job.deadline then Kept(s1)
        else if key in s.outbox then Lost(Integrity)
        else if !job.phase.WaitingExternal? || job.control != control.revision || control.cancelled then
          Lost(Conflict)
        else
          Kept(s1.(outbox := s.outbox[key := Successor(settlement.value, at)],
                   jobs := s.jobs[t.operation := job.(phase := PhaseAccepted, control := job.control + 1)],
                   controls := s.controls[t.operation := control.(revision := job.control + 1)]))
  }

  function Rivals(s: Registry, t: Ticket): set<Receipt>
    requires t.attempt.Some?
  {
    set c | c in s.candidates && c.ticketId == t.id && c.attempt == t.attempt.value.id
  }

  function Verdict(report: Report): TicketState {
    if report.Succeeded? then SettledSuccess
    else if report.WordCancelled? || report.WordCanceled? then CancelledCertain
    else SettledFailure
  }

  /** The row write and the projection that close a ticket, in that order. */
  function Close(s: Registry, t: Ticket, closed: Ticket, at: int): Outcome
    requires Closed(closed.state)
    requires ClosedByReceipt(closed.state) ==> closed.settledReceipt.Some?
  {
    var written := Write(s, closed);
    if written.Refused? then written
    else
      var projected := Project(written.registry, t, closed.state, closed.settledReceipt, at);
      if projected.Lost? then Refused(projected.error) else Done(projected.registry, closed)
  }

  function Quarantining(t: Ticket): Ticket {
    t.(revision := t.revision + 1, state := Quarantined)
  }

  function Settling(t: Ticket, r: Receipt, now: int): Ticket
    requires t.attempt.Some?
  {
    t.(revision := t.revision + 1, state := Verdict(r.observation.report),
       attempt := Some(t.attempt.value.(sentAt := r.sentAt, requestId := r.requestId)),
       settledReceipt := Some(OfReceipt(r)), settledAt := Some(now))
  }

  /** `_require_model_settlement_authority`. */
  predicate JournalHolds(s: Registry, t: Ticket, o: Observation)
    requires t.attempt.Some?
  {
    var key := (t.operation, t.attempt.value.externalKey);
    && (MayHaveSent(t.state) || t.state.SettledSuccess?)
    && key in s.journal && s.journal[key] == o.evidence
  }

  /** `_apply_candidate_settlement`. */
  function Settlement(s: Registry, t: Ticket, r: Receipt, now: int): Outcome
    requires t.attempt.Some?
  {
    if |Rivals(s, t)| > 1 then Close(s, t, Quarantining(t), now)
    else if IsModelSuccess(r.observation) && !JournalHolds(s, t, r.observation) then Refused(Conflict)
    else Close(s, t, Settling(t, r, now), now)
  }

  /** `_record_model_response`: the journal after it, unless it refuses the response. */
  function WithResponse(s: Registry, t: Ticket, o: Observation, response: Option<Response>): Option<Registry> {
    if response.None? || response.value.evidence != o.evidence || !response.value.attestsRoute then None
    else if t.attempt.None? || !(MayHaveSent(t.state) || t.state.SettledSuccess?) then None
    else
      var key := (t.operation, t.attempt.value.externalKey);
      if key in s.journal && s.journal[key] != o.evidence then None
      else Some(s.(journal := s.journal[key := o.evidence]))
  }

  // The commands, once no earlier call under their key is found

  function FreshClaim(s: Registry, t: Ticket, c: Command, d: Draw): Outcome
    requires c.Claim?
  {
    if !t.state.Pending? || d.now >= t.deadline then Refused(InvalidTransition)
    else
      var fence := Fence(t.id, t.revision + 1, d.claimId, d.attempt, c.adapter, c.generation);
      Write(s, t.(revision := t.revision + 1, state := SendReserved,
                  claimant := Some(Claimant(c.fences.context.principal, c.fences.context.session, c.adapter,
                                            c.generation, d.claimId, fence, d.now + c.lease)),
                  attempt := Some(Attempt(d.attempt, CallerKey(t.digest), false, false, None, None, None, None))))
  }

  function FreshMark(s: Registry, t: Ticket, c: Command, d: Draw): Outcome
    requires c.MarkSendStarted?
  {
    if !t.state.SendReserved? then Refused(InvalidTransition)
    else if !ClaimMatches(t, Some(c.claimId), Some(c.claimFence), Some(c.attempt)) then Refused(Conflict)
    else if d.now >= t.deadline || d.now >= t.claimant.value.expires then Refused(ExpiredClaim)
    else if c.expires != t.claimant.value.expires || c.externalKey != t.attempt.value.externalKey
      || c.sentDigest != t.requestDigest then Refused(Conflict)
    else
      Write(s, t.(revision := t.revision + 1, state := SendStarted,
                  attempt := Some(t.attempt.value.(lookup := c.lookup, cancel := c.cancel,
                                  startedAt := Some(d.now), sentDigest := Some(c.sentDigest)))))
  }

  function FreshCancel(s: Registry, t: Ticket, c: Command): Outcome
    requires c.CancelBeforeSend?
  {
    if t.state != c.from || !(c.from.Pending? || c.from.SendReserved?) then Refused(InvalidTransition)
    else if c.from.SendReserved? && !ClaimMatches(t, c.reservedClaim, c.reservedFence, c.reservedAttempt) then
      Refused(Conflict)
    else if c.from.SendReserved? && c.reservedExpiry != Some(t.claimant.value.expires) then Refused(Conflict)
    else
      Close(s, t, t.(revision := t.revision + 1, state := CancelledBeforeSend,
                     settledReceipt := Some(c.settlement), settledAt := Some(c.settledAt)), c.settledAt)
  }

  function CommitReceipt(t: Ticket, c: Command, now: int): Receipt
    requires c.Commit? && t.claimant.Some? && t.attempt.Some?
  {
    var claimant := t.claimant.value;
    Receipt(t.id, t.digest, t.attempt.value.id, c.sentDigest, c.sentAt, c.requestId, c.observation,
            claimant.principal, claimant.session, claimant.adapter, claimant.generation, now,
            CommitSignature(t.id, t.attempt.value.id, c.requestId, c.observation))
  }

  function FreshCommit(s: Registry, t: Ticket, c: Command, d: Draw): Outcome
    requires c.Commit?
  {
    if !MayHaveSent(t.state) then Refused(InvalidTransition)
    else if !ClaimMatches(t, Some(c.claimId), Some(c.claimFence), Some(c.attempt)) then Refused(Conflict)
    else if t.attempt.value.sentDigest != Some(c.sentDigest) then Refused(Conflict)
    else
      var r := CommitReceipt(t, c, d.now);
      Settlement(s.(candidates := s.candidates + {r}), t, r, d.now)
  }

  function FreshReconcile(s: Registry, t: Ticket, c: Command, d: Draw): Outcome
    requires c.Reconcile?
  {
    if t.attempt.None? || t.attempt.value.id != c.attempt then Refused(Conflict)
    else if t.claimant.None? || t.claimant.value.principal != c.fences.context.principal
      || t.claimant.value.session != c.fences.context.session then Refused(Conflict)
    else if !ReconcilerMatches(t, c.reconciler, c.generation) then Refused(Conflict)
    else if c.fence != ReconcileFence(t.id, c.fences.revision, c.attempt, c.candidate, c.reconciler,
                                      c.generation, c.action) then Refused(Conflict)
    else if c.action.RetryIfCertainNoSend? then
      if !t.state.SendReserved? || t.attempt.value.startedAt.Some? then Refused(InvalidTransition)
      else Write(s, Released(t))
    else if !MayHaveSent(t.state) then Refused(InvalidTransition)
    else if c.action.Lookup? then Done(s, t)
    else if !Named(s, t, c.candidate) then Refused(Conflict)
    else if c.action.Settle? then Settlement(s, t, c.candidate.value.receipt, d.now)
    else Close(s, t, Quarantining(t), d.now)
  }

  /** The digest names a candidate receipt of the ticket's current attempt. */
  predicate Named(s: Registry, t: Ticket, digest: Option<Digest>)
    requires t.attempt.Some?
  {
    digest.Some? && digest.value.OfReceipt? && digest.value.receipt in Rivals(s, t)
  }

  function FreshSettle(s: Registry, t: Ticket, c: Command, d: Draw): Outcome
    requires c.SettleCandidate?
  {
    if t.revision != c.revision then Refused(Stale)
    else if !MayHaveSent(t.state) then Refused(InvalidTransition)
    else if t.attempt.None? || !ReconcilerMatches(t, c.reconciler, c.generation) then Refused(Conflict)
    else if c.fence != ReconcileFence(t.id, c.revision, t.attempt.value.id, c.candidate, c.reconciler,
                                      c.generation, Settle) then Refused(Conflict)
    else if !Named(s, t, c.candidate) then Refused(Conflict)
    else Settlement(s, t, c.candidate.value.receipt, d.now)
  }

  function Fresh(s: Registry, t: Ticket, c: Command, d: Draw): Outcome
    requires Keyed(c)
  {
    if c.SettleCandidate? then FreshSettle(s, t, c, d)
    else
      var refused := FenceError(s, t, c.fences);
      if refused.Some? then Refused(refused.value)
      else if c.Claim? then FreshClaim(s, t, c, d)
      else if c.MarkSendStarted? then FreshMark(s, t, c, d)
      else if c.CancelBeforeSend? then FreshCancel(s, t, c)
      else if c.Commit? then FreshCommit(s, t, c, d)
      else FreshReconcile(s, t, c, d)
  }

  // Whole calls

  function Replayed(s: Registry, t: Ticket, c: Command): Outcome
    requires Keyed(c) && (t.operation, KeyOf(c)) in s.recorded
  {
    var earlier := s.recorded[(t.operation, KeyOf(c))];
    if earlier.ticketId == t.id && earlier.command == c then Done(s, earlier.result)
    else Refused(KeyReused)
  }

  function KeyedCall(s: Registry, t: Ticket, c: Command, d: Draw): Outcome
    requires Keyed(c)
  {
    var key := (t.operation, KeyOf(c));
    if key in s.recorded then Replayed(s, t, c)
    else
      var outcome := Fresh(s, t, c, d);
      if outcome.Refused? then outcome
      else
        var after := outcome.registry;
        Done(after.(recorded := after.recorded[key := Recorded(t.id, c, outcome.ticket)]), outcome.ticket)
  }

  function CommitCall(s: Registry, t: Ticket, c: Command, d: Draw): Outcome
    requires c.Commit?
  {
    if !SchemaAllows(c.observation) then Refused(Invalid)
    else if !IsModelSuccess(c.observation) then KeyedCall(s, t, c, d)
    else
      var recorded := WithResponse(s, t, c.observation, c.response);
      if recorded.None? then Refused(Conflict) else KeyedCall(recorded.value, t, c, d)
  }

  function ReclaimCall(s: Registry, t: Ticket, c: Command, d: Draw): Outcome
    requires c.ReclaimExpired?
  {
    if t.revision != c.revision then Refused(Stale)
    else if !t.state.SendReserved? then Refused(InvalidTransition)
    else if t.claimant.None? || t.claimant.value.claimId != c.claimId || t.claimant.value.fence != c.claimFence then
      Refused(Conflict)
    else if d.now < t.claimant.value.expires then Refused(InvalidTransition)
    else Write(s, Released(t))
  }

  function RequestCancelCall(s: Registry, t: Ticket, c: Command): Outcome
    requires c.RequestCancel?
  {
    if t.revision != c.revision then Refused(Stale)
    else if !(t.state.SendStarted? || t.state.OutcomeUnknown?) then Refused(InvalidTransition)
    else Write(s, t.(revision := t.revision + 1, state := CancelRequested))
  }

  function MarkUnknownCall(s: Registry, t: Ticket, c: Command): Outcome
    requires c.MarkOutcomeUnknown?
  {
    if t.revision != c.revision then Refused(Stale)
    else if t.state.OutcomeUnknown? then Done(s, t)
    else if !t.state.SendStarted? then Refused(InvalidTransition)
    else Write(s, t.(revision := t.revision + 1, state := OutcomeUnknown))
  }

  /** What a late receipt must name before it is kept. */
  predicate ReceiptBinds(t: Ticket, r: Receipt) {
    && r.ticketDigest == t.digest
    && SendMarked(t)
    && r.attempt == t.attempt.value.id
    && r.sentDigest == t.requestDigest
  }

  function AppendCall(s: Registry, t: Ticket, r: Receipt, digest: Digest): Outcome {
    if !SchemaAllows(r.observation) then Refused(Invalid)
    else if digest != OfReceipt(r) || !ReceiptBinds(t, r) then Refused(Conflict)
    else Done(s.(candidates := s.candidates + {r}), t)
  }

  function AppendModelCall(s: Registry, t: Ticket, r: Receipt, digest: Digest, response: Response): Outcome {
    if !SchemaAllows(r.observation) then Refused(Invalid)
    else if !IsModelSuccess(r.observation) || digest != OfReceipt(r) || !ReceiptBinds(t, r) then Refused(Conflict)
    else
      var recorded := WithResponse(s, t, r.observation, Some(response));
      if recorded.None? then Refused(Conflict) else AppendCall(recorded.value, t, r, digest)
  }

  function CreateCall(s: Registry, t: Ticket): Outcome {
    if t.id in s.tickets then
      if s.tickets[t.id] == t then Done(s, t) else Refused(Conflict)
    else
      var row := t.(claimant := None, attempt := None);
      var key := (t.operation, t.suspension);
      if key !in s.suspensions || s.suspensions[key].ticketId != t.id
        || s.suspensions[key].requestDigest != t.requestDigest then Refused(Integrity)
      else Write(s, row)
  }

  /** One call on the repository; a refused call is rolled back. */
  function Execute(s: Registry, c: Command, d: Draw): Outcome {
    if c.CreateTicket? then CreateCall(s, c.ticket)
    else if TicketOf(c) !in s.tickets then Refused(Missing)
    else
      var t := s.tickets[TicketOf(c)];
      if c.Commit? then CommitCall(s, t, c, d)
      else if Keyed(c) then KeyedCall(s, t, c, d)
      else if c.ReclaimExpired? then ReclaimCall(s, t, c, d)
      else if c.RequestCancel? then RequestCancelCall(s, t, c)
      else if c.MarkOutcomeUnknown? then MarkUnknownCall(s, t, c)
      else if c.AppendCandidate? then AppendCall(s, t, c.receipt, c.digest)
      else AppendModelCall(s, t, c.receipt, c.digest, c.evidence)
  }
}
