/** `CallerWorkRepository` of src/aar/runtime/caller_work.py. Each public method is one transaction:
    it writes table by table, and a refusal restores every table it had already written. The result
    is that of the command's specification in `CallerWork`. */
module CallerWorkRepository {
  import opened JsonValues
  import opened CallerWork
  import opened CallerWorkSteps
  import opened CallerWorkConstraints
  import opened CallerWorkSuspensions

  /** What a transaction answers and leaves behind: the outcome when it succeeds, and the registry
      it started from when it is refused. */
  predicate Answers(before: Registry, outcome: Outcome, after: Registry, r: Result<Ticket, Error>) {
    match outcome
    case Done(registry, ticket) => after == registry && r == Ok(ticket)
    case Refused(error) => after == before && r == Err(error)
  }

  /** Only the row at `key` differs, if any does. */
  ghost predicate ApartFrom<K, V>(before: map<K, V>, after: map<K, V>, key: K) {
    after - {key} == before - {key}
  }

  /** A projection of `t` touches its suspension, its outbox entry, and its operation's job and control. Every
      other row of these tables, and every other table but that of the tickets, is as before. */
  ghost predicate ProjectsOnly(before: Registry, after: Registry, t: Ticket) {
    && ApartFrom(before.suspensions, after.suspensions, (t.operation, t.suspension))
    && ApartFrom(before.outbox, after.outbox, (t.operation, t.suspension))
    && ApartFrom(before.jobs, after.jobs, t.operation) && ApartFrom(before.controls, after.controls, t.operation)
    && after == before.(tickets := after.tickets, suspensions := after.suspensions, outbox := after.outbox,
                        jobs := after.jobs, controls := after.controls)
  }

  lemma ProjectFrame(s: Registry, t: Ticket, state: TicketState, settlement: Option<Digest>, at: int)
    requires Closed(state) && (ClosedByReceipt(state) ==> settlement.Some?)
    ensures match Project(s, t, state, settlement, at)
            case Kept(after) => ProjectsOnly(s, after, t) && after.tickets == s.tickets
            case Lost(_) => true
  {
  }

  lemma CloseFrame(s: Registry, t: Ticket, closed: Ticket, at: int)
    requires Closed(closed.state) && (ClosedByReceipt(closed.state) ==> closed.settledReceipt.Some?)
    ensures match Close(s, t, closed, at)
            case Done(after, _) => ProjectsOnly(s, after, t) && after.tickets == s.tickets[closed.id := closed]
            case Refused(_) => true
  {
    hide Project, Shaped, KeysHold;
    var written := Write(s, closed);
    if written.Done? {
      ProjectFrame(written.registry, t, closed.state, closed.settledReceipt, at);
    }
  }

  lemma SettlementFrame(s: Registry, t: Ticket, r: Receipt, now: int)
    requires t.attempt.Some?
    ensures match Settlement(s, t, r, now)
            case Done(after, u) =>
              && ProjectsOnly(s, after, t) && u.id == t.id && Closed(u.state) && after.tickets == s.tickets[t.id := u]
            case Refused(_) => true
  {
    hide Close, JournalHolds, ProjectsOnly, Rivals;
    CloseFrame(s, t, Quarantining(t), now);
    CloseFrame(s, t, Settling(t, r, now), now);
    CloseAnswers(s, t, Quarantining(t), now);
    CloseAnswers(s, t, Settling(t, r, now), now);
  }

  lemma CloseAnswers(s: Registry, t: Ticket, closed: Ticket, at: int)
    requires Closed(closed.state) && (ClosedByReceipt(closed.state) ==> closed.settledReceipt.Some?)
    ensures Close(s, t, closed, at).Done? ==> Close(s, t, closed, at).ticket == closed
  {
    hide Project, Shaped, KeysHold;
  }

  class Repository {
    var tickets: map<string, Ticket>
    var candidates: set<Receipt>
    var recorded: map<(string, string), Recorded>
    var suspensions: map<(string, nat), Suspension>
    var operations: map<string, OperationState>
    var controls: map<string, Control>
    var jobs: map<string, Job>
    var outbox: map<(string, nat), Successor>
    var journal: map<(string, string), string>

    constructor (s: Registry)
      ensures State() == s
    {
      tickets, candidates, recorded := s.tickets, s.candidates, s.recorded;
      suspensions, operations, controls, jobs := s.suspensions, s.operations, s.controls, s.jobs;
      outbox, journal := s.outbox, s.journal;
    }

    function State(): Registry
      reads this
    {
      Registry(tickets, candidates, recorded, suspensions, operations, controls, jobs, outbox, journal)
    }

    // The transaction

    method Restore(s: Registry)
      modifies this
      ensures State() == s
    {
      tickets, candidates, recorded := s.tickets, s.candidates, s.recorded;
      suspensions, operations, controls, jobs := s.suspensions, s.operations, s.controls, s.jobs;
      outbox, journal := s.outbox, s.journal;
    }

    /** Ends a transaction that began in `s`: a refusal is rolled back. */
    method Finish(s: Registry, r: Result<Ticket, Error>)
      modifies this
      ensures State() == if r.Ok? then old(State()) else s
    {
      if r.Err? {
        Restore(s);
      }
    }

    // Statements the commands share

    /** One UPDATE of `caller_work_tickets`. */
    method UpdateRow(t: Ticket) returns (r: Result<Ticket, Error>)
      modifies `tickets
      ensures Answers(old(State()), Write(old(State()), t), State(), r)
    {
      if !Shaped(t) || !KeysHold(State(), t) {
        return Err(Integrity);
      }
      tickets := tickets[t.id := t];
      return Ok(t);
    }

    /** The statements of `_project_terminal`; on a refusal the tables may already be partly written. */
    method WriteProjection(t: Ticket, state: TicketState, settlement: Option<Digest>, at: int)
      returns (failed: Option<Error>)
      requires Closed(state) && (ClosedByReceipt(state) ==> settlement.Some?)
      modifies `suspensions, `outbox, `jobs, `controls
      ensures match Project(old(State()), t, state, settlement, at)
              case Kept(after) => failed == None && State() == after
              case Lost(error) => failed == Some(error)
    {
      var key := (t.operation, t.suspension);
      if key !in suspensions || !suspensions[key].state.Waiting? {
        return Some(Conflict);
      }
      suspensions := suspensions[key := suspensions[key].(state := SuspensionAfter(state), settledAt := Some(at))];
      if !ClosedByReceipt(state) {
        return None;
      }
      if t.operation !in operations {
        return Some(Conflict);
      }
      if !operations[t.operation].OperationAccepted? {
        return None;
      }
      if t.operation !in jobs || t.operation !in controls {
        return Some(Conflict);
      }
      var job, control := jobs[t.operation], controls[t.operation];
      if t.state.OutcomeUnknown? && at >= job.deadline {
        return None;
      }
      if key in outbox {
        return Some(Integrity);
      }
      outbox := outbox[key := Successor(settlement.value, at)];
      if !job.phase.WaitingExternal? || job.control != control.revision || control.cancelled {
        return Some(Conflict);
      }
      jobs := jobs[t.operation := job.(phase := PhaseAccepted, control := job.control + 1)];
      controls := controls[t.operation := control.(revision := job.control + 1)];
      return None;
    }

    /** `_project_terminal`. */
    method ProjectTerminal(t: Ticket, state: TicketState, settlement: Option<Digest>, at: int)
      returns (failed: Option<Error>)
      requires Closed(state) && (ClosedByReceipt(state) ==> settlement.Some?)
      modifies `suspensions, `outbox, `jobs, `controls
      ensures match Project(old(State()), t, state, settlement, at)
              case Kept(after) => failed == None && State() == after
              case Lost(error) => failed == Some(error)
      ensures failed.None? ==> ProjectsOnly(old(State()), State(), t)
      ensures failed.None? ==>
                && (t.operation, t.suspension) in old(suspensions) && (t.operation, t.suspension) in suspensions
                && old(suspensions)[(t.operation, t.suspension)].state.Waiting?
                && Ends(old(suspensions)[(t.operation, t.suspension)], suspensions[(t.operation, t.suspension)],
                        state, at)
    {
      hide Project, ProjectsOnly, Ends;
      ProjectionEnds(State(), t, state, settlement, at);
      ProjectFrame(State(), t, state, settlement, at);
      failed := WriteProjection(t, state, settlement, at);
    }

    method CloseRow(t: Ticket, closed: Ticket, at: int) returns (r: Result<Ticket, Error>)
      requires Closed(closed.state) && (ClosedByReceipt(closed.state) ==> closed.settledReceipt.Some?)
      modifies `tickets, `suspensions, `outbox, `jobs, `controls
      ensures match Close(old(State()), t, closed, at)
              case Done(after, u) => r == Ok(u) && State() == after
              case Refused(error) => r == Err(error)
    {
      r := UpdateRow(closed);
      if r.Err? {
        return;
      }
      var failed := ProjectTerminal(t, closed.state, closed.settledReceipt, at);
      if failed.Some? {
        r := Err(failed.value);
      }
    }

    /** `_apply_candidate_settlement`. */
    method ApplyCandidateSettlement(t: Ticket, selected: Receipt, now: int) returns (r: Result<Ticket, Error>)
      requires t.attempt.Some?
      modifies `tickets, `suspensions, `outbox, `jobs, `controls
      ensures match Settlement(old(State()), t, selected, now)
              case Done(after, u) => r == Ok(u) && State() == after
              case Refused(error) => r == Err(error)
      ensures r.Ok? ==>
                && ProjectsOnly(old(State()), State(), t)
                && r.value.id == t.id && Closed(r.value.state) && tickets == old(tickets)[t.id := r.value]
    {
      hide ProjectsOnly, Close, JournalHolds;
      SettlementFrame(State(), t, selected, now);
      if |Rivals(State(), t)| > 1 {
        r := CloseRow(t, Quarantining(t), now);
        return;
      }
      if IsModelSuccess(selected.observation) && !JournalHolds(State(), t, selected.observation) {
        return Err(Conflict);
      }
      r := CloseRow(t, Settling(t, selected, now), now);
    }

    /** `_record_model_response`. */
    method RecordModelResponse(t: Ticket, o: Observation, response: Option<Response>) returns (accepted: bool)
      modifies `journal
      ensures accepted <==> WithResponse(old(State()), t, o, response).Some?
      ensures State() == if accepted then WithResponse(old(State()), t, o, response).value else old(State())
    {
      if response.None? || response.value.evidence != o.evidence || !response.value.attestsRoute {
        return false;
      }
      if t.attempt.None? || !(MayHaveSent(t.state) || t.state.SettledSuccess?) {
        return false;
      }
      var key := (t.operation, t.attempt.value.externalKey);
      if key in journal && journal[key] != o.evidence {
        return false;
      }
      journal := journal[key := o.evidence];
      return true;
    }

    /** `_replay_command`. */
    method ReplayCommand(t: Ticket, c: Command) returns (replay: Option<Result<Ticket, Error>>)
      requires Keyed(c)
      ensures replay.Some? <==> (t.operation, KeyOf(c)) in recorded
      ensures replay.Some? ==> Answers(State(), Replayed(State(), t, c), State(), replay.value)
    {
      var key := (t.operation, KeyOf(c));
      if key !in recorded {
        return None;
      }
      var earlier := recorded[key];
      if earlier.ticketId != t.id || earlier.command != c {
        return Some(Err(KeyReused));
      }
      return Some(Ok(earlier.result));
    }

    /** `_record_command`, once a command has succeeded. */
    method RecordCommand(t: Ticket, c: Command, r: Result<Ticket, Error>)
      requires Keyed(c)
      modifies `recorded
      ensures r.Err? ==> State() == old(State())
      ensures r.Ok? ==>
                var key := (t.operation, KeyOf(c));
                State() == old(State()).(recorded := old(recorded)[key := Recorded(t.id, c, r.value)])
    {
      if r.Ok? {
        recorded := recorded[(t.operation, KeyOf(c)) := Recorded(t.id, c, r.value)];
      }
    }

    // Commands under an idempotency key

    /** The part of `claim` that follows the fences. */
    method ClaimFresh(t: Ticket, c: Command, d: Draw) returns (r: Result<Ticket, Error>)
      requires c.Claim?
      modifies `tickets
      ensures Answers(old(State()), FreshClaim(old(State()), t, c, d), State(), r)
    {
      if !t.state.Pending? || d.now >= t.deadline {
        return Err(InvalidTransition);
      }
      var fence := Fence(t.id, t.revision + 1, d.claimId, d.attempt, c.adapter, c.generation);
      var claimant := Claimant(c.fences.context.principal, c.fences.context.session, c.adapter, c.generation, d.claimId,
                               fence, d.now + c.lease);
      var attempt := Attempt(d.attempt, CallerKey(t.digest), false, false, None, None, None, None);
      r := UpdateRow(t.(revision := t.revision + 1, state := SendReserved, claimant := Some(claimant),
                        attempt := Some(attempt)));
    }

    method ClaimTicket(c: Command, d: Draw) returns (r: Result<Ticket, Error>)
      requires c.Claim?
      modifies this
      ensures Answers(old(State()), Execute(old(State()), c, d), State(), r)
      ensures old(Sound(State())) ==> Sound(State()) && Advances(old(State()), State())
    {
      hide FreshClaim, FenceError, Replayed, Sound, Advances;
      CallKeepsSound(State(), c, d);
      var before := State();
      if c.fences.ticketId !in tickets {
        return Err(Missing);
      }
      var t := tickets[c.fences.ticketId];
      var replay := ReplayCommand(t, c);
      if replay.Some? {
        return replay.value;
      }
      var refused := FenceError(State(), t, c.fences);
      if refused.Some? {
        return Err(refused.value);
      }
      r := ClaimFresh(t, c, d);
      RecordCommand(t, c, r);
      Finish(before, r);
    }

    /** The part of `mark_send_started` that follows the fences. */
    method MarkFresh(t: Ticket, c: Command, d: Draw) returns (r: Result<Ticket, Error>)
      requires c.MarkSendStarted?
      modifies `tickets
      ensures Answers(old(State()), FreshMark(old(State()), t, c, d), State(), r)
    {
      if !t.state.SendReserved? {
        return Err(InvalidTransition);
      }
      if !ClaimMatches(t, Some(c.claimId), Some(c.claimFence), Some(c.attempt)) {
        return Err(Conflict);
      }
      if d.now >= t.deadline || d.now >= t.claimant.value.expires {
        return Err(ExpiredClaim);
      }
      if c.expires != t.claimant.value.expires || c.externalKey != t.attempt.value.externalKey
         || c.sentDigest != t.requestDigest {
        return Err(Conflict);
      }
      var attempt := t.attempt.value.(lookup := c.lookup, cancel := c.cancel, startedAt := Some(d.now),
                                      sentDigest := Some(c.sentDigest));
      r := UpdateRow(t.(revision := t.revision + 1, state := SendStarted, attempt := Some(attempt)));
    }

    method MarkSendStarted(c: Command, d: Draw) returns (r: Result<Ticket, Error>)
      requires c.MarkSendStarted?
      modifies this
      ensures Answers(old(State()), Execute(old(State()), c, d), State(), r)
      ensures old(Sound(State())) ==> Sound(State()) && Advances(old(State()), State())
    {
      hide FreshMark, FenceError, Replayed, Sound, Advances;
      CallKeepsSound(State(), c, d);
      var before := State();
      if c.fences.ticketId !in tickets {
        return Err(Missing);
      }
      var t := tickets[c.fences.ticketId];
      var replay := ReplayCommand(t, c);
      if replay.Some? {
        return replay.value;
      }
      var refused := FenceError(State(), t, c.fences);
      if refused.Some? {
        return Err(refused.value);
      }
      r := MarkFresh(t, c, d);
      RecordCommand(t, c, r);
      Finish(before, r);
    }

    /** The part of `cancel_before_send` that follows the fences. */
    method CancelFresh(t: Ticket, c: Command) returns (r: Result<Ticket, Error>)
      requires c.CancelBeforeSend?
      modifies this
      ensures match FreshCancel(old(State()), t, c)
              case Done(after, u) => r == Ok(u) && State() == after
              case Refused(error) => r == Err(error)
    {
      if t.state != c.from || !(c.from.Pending? || c.from.SendReserved?) {
        return Err(InvalidTransition);
      }
      if c.from.SendReserved? {
        if !ClaimMatches(t, c.reservedClaim, c.reservedFence, c.reservedAttempt) {
          return Err(Conflict);
        }
        if c.reservedExpiry != Some(t.claimant.value.expires) {
          return Err(Conflict);
        }
      }
      r := CloseRow(t, t.(revision := t.revision + 1, state := CancelledBeforeSend,
                          settledReceipt := Some(c.settlement), settledAt := Some(c.settledAt)), c.settledAt);
    }

    method CancelBeforeSend(c: Command, d: Draw) returns (r: Result<Ticket, Error>)
      requires c.CancelBeforeSend?
      modifies this
      ensures Answers(old(State()), Execute(old(State()), c, d), State(), r)
      ensures old(Sound(State())) ==> Sound(State()) && Advances(old(State()), State())
      ensures old(Sound(State())) && r.Ok? ==> Told(old(State()), State(), c.fences.ticketId, ClosingTime(c, d))
    {
      hide Told, ClosingTime, FreshCancel, FenceError, Replayed, Sound, Advances;
      CallEnds(State(), c, d);
      CallKeepsSound(State(), c, d);
      var before := State();
      if c.fences.ticketId !in tickets {
        return Err(Missing);
      }
      var t := tickets[c.fences.ticketId];
      var replay := ReplayCommand(t, c);
      if replay.Some? {
        return replay.value;
      }
      var refused := FenceError(State(), t, c.fences);
      if refused.Some? {
        return Err(refused.value);
      }
      r := CancelFresh(t, c);
      RecordCommand(t, c, r);
      Finish(before, r);
    }

    /** The part of `commit` that follows the replay check. */
    method CommitFresh(t: Ticket, c: Command, d: Draw) returns (r: Result<Ticket, Error>)
      requires c.Commit?
      modifies this
      ensures match Fresh(old(State()), t, c, d)
              case Done(after, u) => r == Ok(u) && State() == after
              case Refused(error) => r == Err(error)
    {
      var refused := FenceError(State(), t, c.fences);
      if refused.Some? {
        return Err(refused.value);
      }
      if !MayHaveSent(t.state) {
        return Err(InvalidTransition);
      }
      if !ClaimMatches(t, Some(c.claimId), Some(c.claimFence), Some(c.attempt)) {
        return Err(Conflict);
      }
      if t.attempt.value.sentDigest != Some(c.sentDigest) {
        return Err(Conflict);
      }
      var receipt := CommitReceipt(t, c, d.now);
      candidates := candidates + {receipt};
      r := ApplyCandidateSettlement(t, receipt, d.now);
    }

    method Commit(c: Command, d: Draw) returns (r: Result<Ticket, Error>)
      requires c.Commit?
      modifies this
      ensures Answers(old(State()), Execute(old(State()), c, d), State(), r)
      ensures old(Sound(State())) ==> Sound(State()) && Advances(old(State()), State())
      ensures old(Sound(State())) && r.Ok? ==> Told(old(State()), State(), c.fences.ticketId, ClosingTime(c, d))
    {
      hide Told, ClosingTime, Fresh, Replayed, WithResponse, SchemaAllows, IsModelSuccess, Sound, Advances;
      CallEnds(State(), c, d);
      CallKeepsSound(State(), c, d);
      var before := State();
      if c.fences.ticketId !in tickets {
        return Err(Missing);
      }
      var t := tickets[c.fences.ticketId];
      if !SchemaAllows(c.observation) {
        return Err(Invalid);
      }
      if IsModelSuccess(c.observation) {
        var accepted := RecordModelResponse(t, c.observation, c.response);
        if !accepted {
          return Err(Conflict);
        }
      }
      var replay := ReplayCommand(t, c);
      if replay.Some? {
        r := replay.value;
      } else {
        r := CommitFresh(t, c, d);
        RecordCommand(t, c, r);
      }
      Finish(before, r);
    }

    /** The part of `reconcile` that follows the fences. */
    method ReconcileFresh(t: Ticket, c: Command, d: Draw) returns (r: Result<Ticket, Error>)
      requires c.Reconcile?
      modifies this
      ensures match FreshReconcile(old(State()), t, c, d)
              case Done(after, u) => r == Ok(u) && State() == after
              case Refused(error) => r == Err(error)
    {
      if t.attempt.None? || t.attempt.value.id != c.attempt {
        return Err(Conflict);
      }
      if t.claimant.None? || t.claimant.value.principal != c.fences.context.principal
        || t.claimant.value.session != c.fences.context.session {
        return Err(Conflict);
      }
      if !ReconcilerMatches(t, c.reconciler, c.generation) {
        return Err(Conflict);
      }
      if c.fence != ReconcileFence(t.id, c.fences.revision, c.attempt, c.candidate, c.reconciler, c.generation,
                                   c.action) {
        return Err(Conflict);
      }
      if c.action.RetryIfCertainNoSend? {
        if !t.state.SendReserved? || t.attempt.value.startedAt.Some? {
          return Err(InvalidTransition);
        }
        r := UpdateRow(Released(t));
        return;
      }
      if !MayHaveSent(t.state) {
        return Err(InvalidTransition);
      }
      if c.action.Lookup? {
        return Ok(t);
      }
      if !Named(State(), t, c.candidate) {
        return Err(Conflict);
      }
      if c.action.Settle? {
        r := ApplyCandidateSettlement(t, c.candidate.value.receipt, d.now);
      } else {
        r := CloseRow(t, Quarantining(t), d.now);
      }
    }

    method Reconcile(c: Command, d: Draw) returns (r: Result<Ticket, Error>)
      requires c.Reconcile?
      modifies this
      ensures Answers(old(State()), Execute(old(State()), c, d), State(), r)
      ensures old(Sound(State())) ==> Sound(State()) && Advances(old(State()), State())
      ensures old(Sound(State())) && r.Ok? ==> Told(old(State()), State(), c.fences.ticketId, ClosingTime(c, d))
    {
      hide Told, ClosingTime, FreshReconcile, FenceError, Replayed, Sound, Advances;
      CallEnds(State(), c, d);
      CallKeepsSound(State(), c, d);
      var before := State();
      if c.fences.ticketId !in tickets {
        return Err(Missing);
      }
      var t := tickets[c.fences.ticketId];
      var replay := ReplayCommand(t, c);
      if replay.Some? {
        return replay.value;
      }
      var refused := FenceError(State(), t, c.fences);
      if refused.Some? {
        return Err(refused.value);
      }
      r := ReconcileFresh(t, c, d);
      RecordCommand(t, c, r);
      Finish(before, r);
    }

    method SettleCandidate(c: Command, d: Draw) returns (r: Result<Ticket, Error>)
      requires c.SettleCandidate?
      modifies this
      ensures Answers(old(State()), Execute(old(State()), c, d), State(), r)
      ensures old(Sound(State())) ==> Sound(State()) && Advances(old(State()), State())
      ensures old(Sound(State())) && r.Ok? ==> Told(old(State()), State(), c.ticketId, ClosingTime(c, d))
    {
      hide Told, ClosingTime, Settlement, Replayed, Sound, Advances;
      CallEnds(State(), c, d);
      CallKeepsSound(State(), c, d);
      var before := State();
      if c.ticketId !in tickets {
        return Err(Missing);
      }
      var t := tickets[c.ticketId];
      var replay := ReplayCommand(t, c);
      if replay.Some? {
        return replay.value;
      }
      if t.revision != c.revision {
        return Err(Stale);
      }
      if !MayHaveSent(t.state) {
        return Err(InvalidTransition);
      }
      if t.attempt.None? || !ReconcilerMatches(t, c.reconciler, c.generation) {
        return Err(Conflict);
      }
      if c.fence != ReconcileFence(t.id, c.revision, t.attempt.value.id, c.candidate, c.reconciler, c.generation,
                                   Settle) {
        return Err(Conflict);
      }
      if !Named(State(), t, c.candidate) {
        return Err(Conflict);
      }
      r := ApplyCandidateSettlement(t, c.candidate.value.receipt, d.now);
      RecordCommand(t, c, r);
      Finish(before, r);
    }

    // Commands under a revision alone

    method ReclaimExpired(c: Command, d: Draw) returns (r: Result<Ticket, Error>)
      requires c.ReclaimExpired?
      modifies this
      ensures Answers(old(State()), Execute(old(State()), c, d), State(), r)
      ensures old(Sound(State())) ==> Sound(State()) && Advances(old(State()), State())
      ensures old(Sound(State())) ==>
                (r.Ok? <==> c.ticketId in old(tickets) && Reclaimable(old(tickets)[c.ticketId], c, d.now))
      ensures old(Sound(State())) && r.Ok? ==>
                && State() == old(State()).(tickets := old(tickets)[c.ticketId := r.value])
                && SameIdentity(old(tickets)[c.ticketId], r.value) && r.value.revision == c.revision + 1
                && r.value.state.Pending? && r.value.claimant.None? && r.value.attempt.None?
    {
      hide Sound, Advances, Shaped, KeysHold;
      CallKeepsSound(State(), c, d);
      if Sound(State()) {
        ReclaimSucceeds(State(), c, d);
      }
      if c.ticketId !in tickets {
        return Err(Missing);
      }
      var t := tickets[c.ticketId];
      if t.revision != c.revision {
        return Err(Stale);
      }
      if !t.state.SendReserved? {
        return Err(InvalidTransition);
      }
      if t.claimant.None? || t.claimant.value.claimId != c.claimId || t.claimant.value.fence != c.claimFence {
        return Err(Conflict);
      }
      if d.now < t.claimant.value.expires {
        return Err(InvalidTransition);
      }
      r := UpdateRow(Released(t));
    }

    method RequestCancel(c: Command, d: Draw) returns (r: Result<Ticket, Error>)
      requires c.RequestCancel?
      modifies this
      ensures Answers(old(State()), Execute(old(State()), c, d), State(), r)
      ensures old(Sound(State())) ==> Sound(State()) && Advances(old(State()), State())
      ensures old(Sound(State())) ==>
                (r.Ok? <==> c.ticketId in old(tickets) && old(tickets)[c.ticketId].revision == c.revision
                            && (old(tickets)[c.ticketId].state.SendStarted?
                                || old(tickets)[c.ticketId].state.OutcomeUnknown?))
      ensures old(Sound(State())) && r.Ok? ==>
                && State() == old(State()).(tickets := old(tickets)[c.ticketId := r.value])
                && r.value == old(tickets)[c.ticketId].(revision := c.revision + 1, state := CancelRequested)
    {
      hide Sound, Advances, Shaped, KeysHold;
      CallKeepsSound(State(), c, d);
      if Sound(State()) {
        RequestCancelSucceeds(State(), c, d);
      }
      if c.ticketId !in tickets {
        return Err(Missing);
      }
      var t := tickets[c.ticketId];
      if t.revision != c.revision {
        return Err(Stale);
      }
      if !t.state.SendStarted? && !t.state.OutcomeUnknown? {
        return Err(InvalidTransition);
      }
      r := UpdateRow(t.(revision := t.revision + 1, state := CancelRequested));
    }

    method MarkOutcomeUnknown(c: Command, d: Draw) returns (r: Result<Ticket, Error>)
      requires c.MarkOutcomeUnknown?
      modifies this
      ensures Answers(old(State()), Execute(old(State()), c, d), State(), r)
      ensures old(Sound(State())) ==> Sound(State()) && Advances(old(State()), State())
      ensures old(Sound(State())) ==>
                (r.Ok? <==> c.ticketId in old(tickets) && old(tickets)[c.ticketId].revision == c.revision
                            && (old(tickets)[c.ticketId].state.SendStarted?
                                || old(tickets)[c.ticketId].state.OutcomeUnknown?))
      ensures old(Sound(State())) && r.Ok? ==>
                && State() == old(State()).(tickets := old(tickets)[c.ticketId := r.value])
                && r.value == old(tickets)[c.ticketId].(revision := r.value.revision, state := OutcomeUnknown)
                && r.value.revision == c.revision + (if old(tickets)[c.ticketId].state.OutcomeUnknown? then 0 else 1)
    {
      hide Sound, Advances, Shaped, KeysHold;
      CallKeepsSound(State(), c, d);
      if Sound(State()) {
        MarkUnknownSucceeds(State(), c, d);
      }
      if c.ticketId !in tickets {
        return Err(Missing);
      }
      var t := tickets[c.ticketId];
      if t.revision != c.revision {
        return Err(Stale);
      }
      if t.state.OutcomeUnknown? {
        return Ok(t);
      }
      if !t.state.SendStarted? {
        return Err(InvalidTransition);
      }
      r := UpdateRow(t.(revision := t.revision + 1, state := OutcomeUnknown));
    }

    // Receipts and new tickets

    /** `append_candidate_receipt`; the flag says that the receipt was already kept. */
    method AppendCandidateReceipt(receipt: Receipt, digest: Digest) returns (r: Result<bool, Error>)
      modifies this
      ensures match Execute(old(State()), AppendCandidate(receipt, digest), Draw(0, "", ""))
              case Done(after, _) => State() == after && r == Ok(receipt in old(candidates))
              case Refused(error) => State() == old(State()) && r == Err(error)
      ensures old(Sound(State())) ==> Sound(State()) && Advances(old(State()), State())
      ensures r.Ok? <==>
                && receipt.ticketId in old(tickets) && SchemaAllows(receipt.observation)
                && digest == OfReceipt(receipt) && ReceiptBinds(old(tickets)[receipt.ticketId], receipt)
      ensures r.Ok? ==> State() == old(State()).(candidates := old(candidates) + {receipt})
      ensures old(Sound(State())) && r.Ok? ==>
                && tickets[receipt.ticketId].attempt.Some?
                && receipt in Rivals(State(), tickets[receipt.ticketId])
    {
      hide Sound, Advances, Shaped, KeysHold;
      RowsAreTheirs(State());
      CallKeepsSound(State(), AppendCandidate(receipt, digest), Draw(0, "", ""));
      if receipt.ticketId !in tickets {
        return Err(Missing);
      }
      if !SchemaAllows(receipt.observation) {
        return Err(Invalid);
      }
      if digest != OfReceipt(receipt) || !ReceiptBinds(tickets[receipt.ticketId], receipt) {
        return Err(Conflict);
      }
      var replayed := receipt in candidates;
      candidates := candidates + {receipt};
      return Ok(replayed);
    }

    /** `append_model_candidate_receipt`: the typed evidence and the receipt are kept together. */
    method AppendModelCandidateReceipt(receipt: Receipt, digest: Digest, response: Response)
      returns (r: Result<bool, Error>)
      modifies this
      ensures match Execute(old(State()), AppendModelCandidate(receipt, digest, response), Draw(0, "", ""))
              case Done(after, _) => State() == after && r == Ok(receipt in old(candidates))
              case Refused(error) => State() == old(State()) && r == Err(error)
      ensures old(Sound(State())) ==> Sound(State()) && Advances(old(State()), State())
    {
      hide Sound, Advances, Shaped, KeysHold;
      CallKeepsSound(State(), AppendModelCandidate(receipt, digest, response), Draw(0, "", ""));
      if receipt.ticketId !in tickets {
        return Err(Missing);
      }
      if !SchemaAllows(receipt.observation) {
        return Err(Invalid);
      }
      var t := tickets[receipt.ticketId];
      if !IsModelSuccess(receipt.observation) || digest != OfReceipt(receipt) || !ReceiptBinds(t, receipt) {
        return Err(Conflict);
      }
      var accepted := RecordModelResponse(t, receipt.observation, Some(response));
      if !accepted {
        return Err(Conflict);
      }
      var replayed := receipt in candidates;
      candidates := candidates + {receipt};
      return Ok(replayed);
    }

    method CreateTicket(t: Ticket) returns (r: Result<Ticket, Error>)
      modifies this
      ensures Answers(old(State()), Execute(old(State()), CallerWork.CreateTicket(t), Draw(0, "", "")), State(), r)
      ensures old(Sound(State())) ==> Sound(State()) && Advances(old(State()), State())
      ensures old(Sound(State())) ==>
                (r.Ok? <==> if t.id in old(tickets) then old(tickets)[t.id] == t else MayBeCreated(old(State()), t))
      ensures r.Ok? ==>
                && State() == old(State()).(tickets := old(tickets)[t.id := r.value])
                && r.value == if t.id in old(tickets) then t else t.(claimant := None, attempt := None)
    {
      hide Sound, Advances, Shaped, KeysHold;
      CallKeepsSound(State(), CallerWork.CreateTicket(t), Draw(0, "", ""));
      if Sound(State()) {
        CreateSucceeds(State(), t);
      }
      if t.id in tickets {
        if tickets[t.id] != t {
          return Err(Conflict);
        }
        return Ok(t);
      }
      var key := (t.operation, t.suspension);
      if key !in suspensions || suspensions[key].ticketId != t.id
         || suspensions[key].requestDigest != t.requestDigest {
        return Err(Integrity);
      }
      r := UpdateRow(t.(claimant := None, attempt := None));
    }
  }
}
