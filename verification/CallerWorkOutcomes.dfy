/** When each command under an idempotency key succeeds, and what it then writes, told by the rows alone. */
module CallerWorkOutcomes {
  import opened JsonValues
  import opened CallerWork
  import opened CallerWorkSteps
  import opened CallerWorkCommands
  import opened CallerWorkLaws
  import opened CallerWorkVerdicts
  import opened CallerWorkConstraints
  import opened CallerWorkAuthority

  // Fences

  /** Everything a command names is as the rows have it, nothing was cancelled, and the suspension waits. */
  predicate FencesAgree(s: Registry, t: Ticket, f: Fences) {
    && f.revision == t.revision && f.ticketDigest == t.digest && f.operation == t.operation
    && f.suspension == t.suspension && f.deadline == t.deadline
    && t.operation in s.controls && s.controls[t.operation] == Control(f.control, false)
    && t.operation in s.jobs
    && s.jobs[t.operation] == s.jobs[t.operation].(control := f.control, cancellation := f.cancellation,
                                                   cancelled := false, deadline := f.deadline)
    && (t.operation, t.suspension) in s.suspensions
    && s.suspensions[(t.operation, t.suspension)].control == f.control
    && s.suspensions[(t.operation, t.suspension)].state == Waiting
  }

  lemma FencesAgreeExactly(s: Registry, t: Ticket, f: Fences)
    ensures FenceError(s, t, f).None? <==> FencesAgree(s, t, f)
    ensures FenceError(s, t, f) == Some(Stale) <==> f.revision != t.revision
  {
  }

  /** A new call that succeeds has all its fences agree. So once an operation or its workbench job is cancelled,
      or the suspension no longer waits, no such call of any kind succeeds. */
  lemma SuccessNeedsItsFences(s: Registry, c: Command, d: Draw)
    requires Sound(s) && Keyed(c) && !c.SettleCandidate? && TicketOf(c) in s.tickets && Execute(s, c, d).Done?
    requires (s.tickets[TicketOf(c)].operation, KeyOf(c)) !in s.recorded
    ensures FencesAgree(s, s.tickets[TicketOf(c)], c.fences)
  {
    hide Sound, FreshClaim, FreshMark, FreshCancel, FreshCommit, FreshReconcile, SchemaAllows, WithResponse, KeyOf,
      FencesAgree, FenceError;
    var t := s.tickets[TicketOf(c)];
    if c.Commit? && IsModelSuccess(c.observation) {
      ResponseIsKept(s, t, c.observation, c.response);
      var mid := WithResponse(s, t, c.observation, c.response).value;
      JournalIsNoFence(s, mid, t, c);
      FencesAgreeExactly(mid, t, c.fences);
      SameFences(s, mid, t, c.fences);
    } else {
      FencesAgreeExactly(s, t, c.fences);
    }
  }

  lemma SameFences(s: Registry, mid: Registry, t: Ticket, f: Fences)
    requires mid == s.(journal := mid.journal)
    ensures FencesAgree(mid, t, f) <==> FencesAgree(s, t, f)
  {
  }

  /** A command names the claim, the fence and the attempt of the row. */
  predicate NamesTheClaim(t: Ticket, claimId: string, fence: Fence, attempt: string) {
    && t.claimant.Some? && t.attempt.Some?
    && claimId == t.claimant.value.claimId && fence == t.claimant.value.fence && attempt == t.attempt.value.id
  }

  // Claiming, marking, cancelling

  /** What a new call of the first three kinds writes besides its record. */
  lemma NewCall(s: Registry, c: Command, d: Draw)
    requires Sound(s) && Keyed(c) && !c.Commit? && TicketOf(c) in s.tickets
    requires (s.tickets[TicketOf(c)].operation, KeyOf(c)) !in s.recorded
    ensures var t := s.tickets[TicketOf(c)]; var o := Fresh(s, t, c, d);
      && Own(s, t) && t.id == TicketOf(c)
      && (Execute(s, c, d).Done? <==> o.Done?)
      && (o.Done? ==>
            Execute(s, c, d) ==
            Done(o.registry.(recorded := o.registry.recorded[(t.operation, KeyOf(c)) := Recorded(t.id, c, o.ticket)]),
                 o.ticket))
  {
    hide Sound, Fresh, KeyOf;
    OwnIsCurrent(s, s.tickets[TicketOf(c)], TicketOf(c));
  }

  /** A new claim succeeds exactly on a pending ticket before its deadline, its fences agreeing, with an attempt
      identifier nobody has; the row is then reserved for the caller under a fence drawn from the claim, for the
      lease asked for, and no other row changes but the record. */
  lemma ClaimSucceedsExactly(s: Registry, c: Command, d: Draw)
    requires Sound(s) && c.Claim? && TicketOf(c) in s.tickets
    requires (s.tickets[TicketOf(c)].operation, KeyOf(c)) !in s.recorded
    ensures var t := s.tickets[TicketOf(c)]; var o := Execute(s, c, d);
      && (o.Done? <==> FencesAgree(s, t, c.fences) && t.state == Pending && d.now < t.deadline && NewAttempt(s, t, d))
      && (o.Done? ==>
            && o.ticket.state == SendReserved && o.ticket.revision == t.revision + 1
            && o.ticket == t.(revision := o.ticket.revision, state := o.ticket.state, claimant := o.ticket.claimant,
                              attempt := o.ticket.attempt)
            && o.ticket.claimant ==
               Some(Claimant(c.fences.context.principal, c.fences.context.session, c.adapter, c.generation, d.claimId,
                             Fence(t.id, t.revision + 1, d.claimId, d.attempt, c.adapter, c.generation),
                             d.now + c.lease))
            && o.ticket.attempt.Some? && o.ticket.attempt.value.id == d.attempt && Unsent(o.ticket.attempt.value)
            && o.registry == s.(tickets := s.tickets[t.id := o.ticket], recorded := o.registry.recorded))
  {
    hide Sound, FenceError, FencesAgree, KeyOf, NewAttempt, CallerKey, Shaped, KeysHold;
    var t := s.tickets[TicketOf(c)];
    NewCall(s, c, d);
    ClaimFits(s, t, c, d);
    FencesAgreeExactly(s, t, c.fences);
  }

  /** A new send mark succeeds exactly on a reserved ticket whose claim it names, before the deadline and the end
      of the lease, with the row's own key, expiry and request, its fences agreeing; the attempt is then marked
      with this time and request. */
  lemma MarkSucceedsExactly(s: Registry, c: Command, d: Draw)
    requires Sound(s) && c.MarkSendStarted? && TicketOf(c) in s.tickets
    requires (s.tickets[TicketOf(c)].operation, KeyOf(c)) !in s.recorded
    ensures var t := s.tickets[TicketOf(c)]; var o := Execute(s, c, d);
      && (o.Done? <==>
            && FencesAgree(s, t, c.fences) && t.state == SendReserved
            && NamesTheClaim(t, c.claimId, c.claimFence, c.attempt)
            && d.now < t.deadline && d.now < t.claimant.value.expires && c.expires == t.claimant.value.expires
            && c.externalKey == t.attempt.value.externalKey && c.sentDigest == t.requestDigest)
      && (o.Done? ==>
            && t.attempt.Some? && o.ticket.state == SendStarted
            && o.ticket == t.(revision := t.revision + 1, state := o.ticket.state, attempt := o.ticket.attempt)
            && o.ticket.attempt ==
               Some(t.attempt.value.(lookup := c.lookup, cancel := c.cancel, startedAt := Some(d.now),
                                     sentDigest := Some(t.requestDigest)))
            && o.registry == s.(tickets := s.tickets[t.id := o.ticket], recorded := o.registry.recorded))
  {
    hide Sound, FenceError, FencesAgree, KeyOf, Shaped, KeysHold;
    var t := s.tickets[TicketOf(c)];
    NewCall(s, c, d);
    MarkFits(s, t, c, d);
    FencesAgreeExactly(s, t, c.fences);
  }

  /** A new cancellation succeeds exactly on a ticket in the unsent state it names, a reserved one only under its
      own claim and expiry, its fences agreeing; the ticket then closes with the settlement and time given. */
  lemma CancelSucceedsExactly(s: Registry, c: Command, d: Draw)
    requires Sound(s) && c.CancelBeforeSend? && TicketOf(c) in s.tickets
    requires (s.tickets[TicketOf(c)].operation, KeyOf(c)) !in s.recorded
    ensures var t := s.tickets[TicketOf(c)]; var o := Execute(s, c, d);
      && (o.Done? <==>
            && FencesAgree(s, t, c.fences) && t.state == c.from
            && (t.state == Pending
                || (t.state == SendReserved && c.reservedClaim.Some? && c.reservedFence.Some? && c.reservedAttempt.Some?
                    && NamesTheClaim(t, c.reservedClaim.value, c.reservedFence.value, c.reservedAttempt.value)
                    && c.reservedExpiry == Some(t.claimant.value.expires))))
      && (o.Done? ==>
            && o.ticket == t.(revision := t.revision + 1, state := CancelledBeforeSend,
                              settledReceipt := Some(c.settlement), settledAt := Some(c.settledAt))
            && o.registry == s.(tickets := s.tickets[t.id := o.ticket], suspensions := o.registry.suspensions,
                                recorded := o.registry.recorded))
  {
    hide Sound, FenceError, FencesAgree, KeyOf, Shaped, KeysHold;
    var t := s.tickets[TicketOf(c)];
    NewCall(s, c, d);
    CancelFits(s, t, c);
    FencesAgreeExactly(s, t, c.fences);
    if FencesAgree(s, t, c.fences) {
      FencesHold(s, t, c.fences);
    }
  }

  // Reconciling and settling

  /** The receipt a digest names is kept for the attempt of the row. */
  predicate NamesAReceipt(s: Registry, t: Ticket, digest: Option<Digest>) {
    && t.attempt.Some? && digest.Some? && digest.value.OfReceipt?
    && digest.value.receipt in s.candidates && digest.value.receipt.ticketId == t.id
    && digest.value.receipt.attempt == t.attempt.value.id
  }

  /** A model success is settled only with its evidence journalled under the attempt's own key. */
  predicate Journalled(s: Registry, t: Ticket, o: Observation) {
    o.kind == Model && o.report == Succeeded ==>
      && t.attempt.Some? && (t.operation, t.attempt.value.externalKey) in s.journal
      && s.journal[(t.operation, t.attempt.value.externalKey)] == o.evidence
  }

  /** A send was marked, and nothing closed the ticket since. */
  predicate OpenAfterSend(state: TicketState) {
    state == SendStarted || state == OutcomeUnknown || state == CancelRequested
  }

  lemma JournalledHolds(s: Registry, t: Ticket, o: Observation)
    requires t.attempt.Some? && OpenAfterSend(t.state)
    ensures (IsModelSuccess(o) ==> JournalHolds(s, t, o)) <==> Journalled(s, t, o)
  {
  }

  /** The operation takes the settlement: it exists, and when it is accepted its job waits for it at the revision
      of a control that was not cancelled, unless the outcome was already unknown at the job's deadline. */
  predicate Taken(s: Registry, t: Ticket, now: int) {
    && t.operation in s.operations
    && (s.operations[t.operation] == OperationAccepted ==>
          && t.operation in s.jobs && t.operation in s.controls
          && var job, control := s.jobs[t.operation], s.controls[t.operation];
          || (t.state == OutcomeUnknown && job.deadline <= now)
          || (job.phase == WaitingExternal && job.control == control.revision && !control.cancelled))
  }

  /** No other receipt of the attempt is kept. */
  predicate Alone(s: Registry, t: Ticket, r: Receipt) {
    forall c :: c in s.candidates && c.ticketId == t.id && t.attempt.Some? && c.attempt == t.attempt.value.id ==> c == r
  }

  /** The settlement of a kept receipt goes through: the suspension waits, and a receipt that stands alone has its
      evidence journalled, its time of sending if it reports a success, and an operation that takes it. */
  predicate Settles(s: Registry, t: Ticket, r: Receipt, now: int) {
    && (t.operation, t.suspension) in s.suspensions && s.suspensions[(t.operation, t.suspension)].state == Waiting
    && (Alone(s, t, r) ==>
          && Journalled(s, t, r.observation) && (r.observation.report == Succeeded ==> r.sentAt.Some?)
          && Taken(s, t, now))
  }

  lemma AloneExactly(s: Registry, t: Ticket, r: Receipt)
    requires t.attempt.Some? && r in Rivals(s, t)
    ensures Alone(s, t, r) <==> |Rivals(s, t)| <= 1
  {
    SoleRival(s, t, r);
    assert Alone(s, t, r) ==> Rivals(s, t) <= {r};
    if Rivals(s, t) <= {r} {
      forall c | c in s.candidates && c.ticketId == t.id && c.attempt == t.attempt.value.id ensures c == r {
        assert c in Rivals(s, t);
      }
    }
  }

  lemma ProjectDone(s: Registry, t: Ticket, state: TicketState, settlement: Option<Digest>, at: int)
    requires Closed(state) && (ClosedByReceipt(state) ==> settlement.Some?) && (t.operation, t.suspension) !in s.outbox
    ensures Project(s, t, state, settlement, at).Kept? <==>
            && (t.operation, t.suspension) in s.suspensions
            && s.suspensions[(t.operation, t.suspension)].state == Waiting
            && (ClosedByReceipt(state) ==> Taken(s, t, at))
  {
  }

  lemma ClosesExactly(s: Registry, t: Ticket, u: Ticket, at: int)
    requires Closed(u.state) && (ClosedByReceipt(u.state) ==> u.settledReceipt.Some?)
    requires (t.operation, t.suspension) !in s.outbox && KeysHold(s, u)
    ensures Close(s, t, u, at).Done? <==>
            && Shaped(u) && (t.operation, t.suspension) in s.suspensions
            && s.suspensions[(t.operation, t.suspension)].state == Waiting
            && (ClosedByReceipt(u.state) ==> Taken(s, t, at))
  {
    hide Shaped, KeysHold, Project;
    if Shaped(u) {
      ProjectDone(Write(s, u).registry, t, u.state, u.settledReceipt, at);
    }
  }

  /** When the settlement of a kept receipt goes through. */
  lemma KeptSettles(s: Registry, t: Ticket, r: Receipt, now: int)
    requires Sound(s) && Own(s, t) && OpenAfterSend(t.state) && t.attempt.Some? && r in Rivals(s, t)
    ensures Settlement(s, t, r, now).Done? <==> Settles(s, t, r, now)
  {
    hide Sound, KeysHold, ClosedRight, JournalHolds, SchemaAllows, Close, Rivals, Journalled, Taken, Alone;
    OwnIsSound(s, t);
    assert KeysHold(s, t) by { OwnKeysHold(s, t); }
    NoOutboxWhileOpen(s, t);
    KeptIsKnown(s, t, r);
    AloneExactly(s, t, r);
    JournalledHolds(s, t, r.observation);
    var u := if Alone(s, t, r) then Settling(t, r, now) else Quarantining(t);
    SameKeysHold(s, t, u);
    KnownVerdict(r.observation);
    ClosesExactly(s, t, u, now);
  }

  lemma OwnKeysHold(s: Registry, t: Ticket)
    requires Sound(s) && Own(s, t)
    ensures KeysHold(s, t)
  {
    OwnIsSound(s, t);
  }

  lemma KeptIsKnown(s: Registry, t: Ticket, r: Receipt)
    requires Sound(s) && t.attempt.Some? && r in Rivals(s, t)
    ensures SchemaAllows(r.observation)
  {
    hide SchemaAllows, TicketsSound, OutboxesSound, RecordsSound;
    assert CandidateSound(s, r);
  }

  /** A new settlement of a kept receipt succeeds exactly for the adapter and generation of the claim, at the
      named revision of an open send, under a fence drawn from all it names. */
  lemma SettleSucceedsExactly(s: Registry, c: Command, d: Draw)
    requires Sound(s) && c.SettleCandidate? && TicketOf(c) in s.tickets
    requires (s.tickets[TicketOf(c)].operation, KeyOf(c)) !in s.recorded
    ensures var t := s.tickets[TicketOf(c)];
      Execute(s, c, d).Done? <==>
      && c.revision == t.revision && OpenAfterSend(t.state) && NamesAReceipt(s, t, c.candidate)
      && t.claimant.Some? && t.claimant.value.adapter == c.reconciler && t.claimant.value.generation == c.generation
      && c.fence == ReconcileFence(t.id, t.revision, t.attempt.value.id, c.candidate, c.reconciler, c.generation,
                                   Settle)
      && Settles(s, t, c.candidate.value.receipt, d.now)
  {
    hide Sound, KeyOf, Settles, NamesAReceipt, Settlement, Named;
    var t := s.tickets[TicketOf(c)];
    NewCall(s, c, d);
    OwnIsSound(s, t);
    NamedOnlyWithAttempt(s, t, c.candidate);
    if OpenAfterSend(t.state) && NamesAReceipt(s, t, c.candidate) {
      NamedReceiptIsRival(s, t, c.candidate);
      KeptSettles(s, t, c.candidate.value.receipt, d.now);
    }
  }

  lemma NamedOnlyWithAttempt(s: Registry, t: Ticket, digest: Option<Digest>)
    ensures NamesAReceipt(s, t, digest) ==> t.attempt.Some? && digest.Some? && digest.value.OfReceipt?
    ensures t.attempt.Some? ==> (Named(s, t, digest) <==> NamesAReceipt(s, t, digest))
  {
  }

  lemma NamedReceiptIsRival(s: Registry, t: Ticket, digest: Option<Digest>)
    requires NamesAReceipt(s, t, digest)
    ensures digest.value.receipt in Rivals(s, t)
  {
  }

  /** A command of the claimant itself, for the attempt of the row, under a fence drawn from all it names. */
  predicate OfTheClaimant(t: Ticket, c: Command)
    requires c.Reconcile?
  {
    && t.attempt.Some? && c.attempt == t.attempt.value.id
    && t.claimant.Some? && t.claimant.value.principal == c.fences.context.principal
    && t.claimant.value.session == c.fences.context.session
    && t.claimant.value.adapter == c.reconciler && t.claimant.value.generation == c.generation
    && c.fence == ReconcileFence(t.id, t.revision, t.attempt.value.id, c.candidate, c.reconciler, c.generation,
                                 c.action)
  }

  lemma ReleasedWrites(s: Registry, t: Ticket)
    requires Sound(s) && Own(s, t) && t.state == SendReserved
    ensures !SendMarked(t)
    ensures Write(s, Released(t)) ==
            Done(s.(tickets := s.tickets[t.id := Released(t)]), Released(t))
  {
    hide Sound, KeysHold;
    OwnIsSound(s, t);
    ReleaseFits(s, t);
  }

  lemma QuarantineCloses(s: Registry, t: Ticket, f: Fences, at: int)
    requires Sound(s) && Own(s, t) && OpenAfterSend(t.state) && FencesAgree(s, t, f)
    ensures Close(s, t, Quarantining(t), at).Done? && Close(s, t, Quarantining(t), at).ticket == Quarantining(t)
  {
    hide Sound, KeysHold, Project;
    OwnIsSound(s, t);
    OwnKeysHold(s, t);
    NoOutboxWhileOpen(s, t);
    SameAttemptKeysHold(s, t, Quarantining(t));
    ClosesExactly(s, t, Quarantining(t), at);
  }

  /** A new reconciliation succeeds exactly for the claimant, its fences agreeing: a retry on a reservation, which
      it releases; a lookup on an open send, which it leaves alone; a quarantine of an open send that names a kept
      receipt; and a settlement of such a receipt that goes through. */
  lemma ReconcileSucceedsExactly(s: Registry, c: Command, d: Draw)
    requires Sound(s) && c.Reconcile? && TicketOf(c) in s.tickets
    requires (s.tickets[TicketOf(c)].operation, KeyOf(c)) !in s.recorded
    ensures var t := s.tickets[TicketOf(c)]; var o := Execute(s, c, d);
      && (o.Done? <==>
            && FencesAgree(s, t, c.fences) && OfTheClaimant(t, c)
            && match c.action
               case RetryIfCertainNoSend => t.state == SendReserved
               case Lookup => OpenAfterSend(t.state)
               case Quarantine => OpenAfterSend(t.state) && NamesAReceipt(s, t, c.candidate)
               case Settle =>
                 OpenAfterSend(t.state) && NamesAReceipt(s, t, c.candidate)
                 && Settles(s, t, c.candidate.value.receipt, d.now))
      && (o.Done? ==>
            match c.action
            case RetryIfCertainNoSend =>
              o.ticket == t.(revision := t.revision + 1, state := Pending, claimant := None, attempt := None)
              && o.registry == s.(tickets := s.tickets[t.id := o.ticket], recorded := o.registry.recorded)
            case Lookup => o.ticket == t && o.registry == s.(recorded := o.registry.recorded)
            case Quarantine => o.ticket == t.(revision := t.revision + 1, state := Quarantined)
            case Settle => true)
  {
    hide Sound, KeyOf, Settles, NamesAReceipt, Settlement, Named, FenceError, FencesAgree, Close, Write, Shaped,
      KeysHold;
    var t := s.tickets[TicketOf(c)];
    NewCall(s, c, d);
    OwnIsSound(s, t);
    FencesAgreeExactly(s, t, c.fences);
    FencesNameTheRevision(s, t, c.fences);
    NamedOnlyWithAttempt(s, t, c.candidate);
    if t.state == SendReserved {
      ReleasedWrites(s, t);
      ReservedIsUnsettled(t);
    }
    if OpenAfterSend(t.state) && NamesAReceipt(s, t, c.candidate) {
      NamedReceiptIsRival(s, t, c.candidate);
      KeptSettles(s, t, c.candidate.value.receipt, d.now);
    }
    if OpenAfterSend(t.state) && FencesAgree(s, t, c.fences) {
      QuarantineCloses(s, t, c.fences, d.now);
    }
  }

  lemma ReservedIsUnsettled(t: Ticket)
    requires Shaped(t) && t.state == SendReserved
    ensures t.settledReceipt.None? && t.settledAt.None?
  {
  }

  // Committing

  /** The reports the observation schema has for each kind of work. */
  predicate Listed(o: Observation) {
    o.report in match o.kind
                case Model => {Succeeded, FailedCertain, ReportedUnknown}
                case Subagent => {Accepted, Succeeded, FailedCertain, ReportedUnknown, ReportedCancelled}
                case Evidence => {Succeeded, FailedCertain}
                case Effect => {Proposed, Rejected, ReportedUnknown}
  }

  /** The response of a model success carries its evidence and attests the route, and no other evidence is
      journalled under the attempt's key. */
  predicate Attested(s: Registry, t: Ticket, o: Observation, response: Option<Response>) {
    o.kind == Model && o.report == Succeeded ==>
      && response.Some? && response.value == Response(o.evidence, true)
      && t.attempt.Some?
      && ((t.operation, t.attempt.value.externalKey) in s.journal ==>
            s.journal[(t.operation, t.attempt.value.externalKey)] == o.evidence)
  }

  /** The receipt a commit leaves: what it observed, under the claim of the row. */
  predicate LeavesReceipt(t: Ticket, c: Command, now: int, r: Receipt)
    requires c.Commit?
  {
    && t.claimant.Some? && t.attempt.Some?
    && r.ticketId == t.id && r.ticketDigest == t.digest && r.attempt == t.attempt.value.id
    && r.sentDigest == c.sentDigest && r.sentAt == c.sentAt && r.requestId == c.requestId
    && r.observation == c.observation && r.observedAt == now
    && r.principal == t.claimant.value.principal && r.session == t.claimant.value.session
    && r.adapter == t.claimant.value.adapter && r.generation == t.claimant.value.generation
  }

  lemma AcceptedResponse(s: Registry, t: Ticket, o: Observation, response: Option<Response>)
    requires OpenAfterSend(t.state) && t.attempt.Some?
    ensures (IsModelSuccess(o) ==> WithResponse(s, t, o, response).Some?) <==> Attested(s, t, o, response)
  {
  }

  lemma ListedExactly(o: Observation)
    ensures SchemaAllows(o) <==> Listed(o)
  {
  }

  lemma AdmittedByTheRows(s: Registry, t: Ticket, c: Command)
    requires c.Commit?
    ensures CommitAdmitted(s, t, c) <==>
            && FencesAgree(s, t, c.fences) && OpenAfterSend(t.state)
            && NamesTheClaim(t, c.claimId, c.claimFence, c.attempt) && t.attempt.value.sentDigest == Some(c.sentDigest)
  {
    hide FenceError, FencesAgree;
    FencesAgreeExactly(s, t, c.fences);
  }

  lemma LandsByTheRows(s: Registry, t: Ticket, r: Receipt, now: int)
    requires t.attempt.Some? && Fenced(s, t) && r.ticketId == t.id && r.attempt == t.attempt.value.id
    ensures Lands(s, t, r, now) <==>
            (Alone(s, t, r) ==> (r.observation.report == Succeeded ==> r.sentAt.Some?) && Taken(s, t, now))
  {
    assert Alone(s, t, r) ==> Rivals(s, t) <= {r};
    if Rivals(s, t) <= {r} {
      forall c | c in s.candidates && c.ticketId == t.id && c.attempt == t.attempt.value.id ensures c == r {
        assert c in Rivals(s, t);
      }
    }
  }

  /** A new commit succeeds exactly for a listed report, attested when it is a model success, on an open send whose
      claim and marked request it names, its fences agreeing, unless its receipt would be the only one and reports
      a success without a time of sending, or nobody takes it; it keeps that receipt. */
  lemma CommitTold(s: Registry, c: Command, d: Draw)
    requires Sound(s) && c.Commit? && TicketOf(c) in s.tickets
    requires (s.tickets[TicketOf(c)].operation, KeyOf(c)) !in s.recorded
    ensures var t := s.tickets[TicketOf(c)];
      Execute(s, c, d).Done? <==>
      && Listed(c.observation) && Attested(s, t, c.observation, c.response)
      && FencesAgree(s, t, c.fences) && OpenAfterSend(t.state)
      && NamesTheClaim(t, c.claimId, c.claimFence, c.attempt) && t.attempt.value.sentDigest == Some(c.sentDigest)
      && (Alone(s, t, CommitReceipt(t, c, d.now)) ==>
            (c.observation.report == Succeeded ==> c.sentAt.Some?) && Taken(s, t, d.now))
    ensures var t := s.tickets[TicketOf(c)];
      Execute(s, c, d).Done? ==>
      && LeavesReceipt(t, c, d.now, CommitReceipt(t, c, d.now))
      && Execute(s, c, d).registry.candidates == s.candidates + {CommitReceipt(t, c, d.now)}
  {
    hide Sound, KeyOf, Execute, Lands, CommitAdmitted, SchemaAllows, WithResponse, Listed, Attested, Taken, Alone,
      FencesAgree;
    var t := s.tickets[TicketOf(c)];
    CommitSucceedsExactly(s, c, d);
    ListedExactly(c.observation);
    AdmittedByTheRows(s, t, c);
    if CommitAdmitted(s, t, c) {
      AcceptedResponse(s, t, c.observation, c.response);
      AdmittedIsFenced(s, t, c);
      LandsByTheRows(s, t, CommitReceipt(t, c, d.now), d.now);
    }
    if Execute(s, c, d).Done? {
      CommitKeepsReceipt(s, c, d);
    }
  }

  lemma AdmittedIsFenced(s: Registry, t: Ticket, c: Command)
    requires c.Commit? && CommitAdmitted(s, t, c)
    ensures Fenced(s, t)
  {
    hide FenceError;
    FencesHold(s, t, c.fences);
  }

  lemma CloseKeepsReceipts(s: Registry, t: Ticket, u: Ticket, at: int)
    requires Closed(u.state) && (ClosedByReceipt(u.state) ==> u.settledReceipt.Some?) && Close(s, t, u, at).Done?
    ensures Close(s, t, u, at).registry.candidates == s.candidates
  {
    hide Shaped, KeysHold;
  }

  lemma SettlementKeepsReceipts(s: Registry, t: Ticket, r: Receipt, now: int)
    requires t.attempt.Some? && Settlement(s, t, r, now).Done?
    ensures Settlement(s, t, r, now).registry.candidates == s.candidates
  {
    hide Rivals, JournalHolds, Close;
    if |Rivals(s, t)| > 1 {
      CloseKeepsReceipts(s, t, Quarantining(t), now);
    } else {
      CloseKeepsReceipts(s, t, Settling(t, r, now), now);
    }
  }

  lemma FreshKeepsReceipt(s: Registry, t: Ticket, c: Command, d: Draw)
    requires c.Commit? && Fresh(s, t, c, d).Done?
    ensures t.claimant.Some? && t.attempt.Some?
    ensures Fresh(s, t, c, d).registry.candidates == s.candidates + {CommitReceipt(t, c, d.now)}
  {
    hide FenceError, Settlement, CommitReceipt;
    var r := CommitReceipt(t, c, d.now);
    SettlementKeepsReceipts(s.(candidates := s.candidates + {r}), t, r, d.now);
  }

  lemma CommitKeepsReceipt(s: Registry, c: Command, d: Draw)
    requires Sound(s) && c.Commit? && TicketOf(c) in s.tickets && Execute(s, c, d).Done?
    requires (s.tickets[TicketOf(c)].operation, KeyOf(c)) !in s.recorded
    requires CommitAdmitted(s, s.tickets[TicketOf(c)], c)
    ensures Execute(s, c, d).registry.candidates == s.candidates + {CommitReceipt(s.tickets[TicketOf(c)], c, d.now)}
  {
    hide Sound, KeyOf, SchemaAllows, WithResponse, Fresh, CommitAdmitted, CommitReceipt;
    var t := s.tickets[TicketOf(c)];
    if IsModelSuccess(c.observation) {
      ResponseIsKept(s, t, c.observation, c.response);
      FreshKeepsReceipt(WithResponse(s, t, c.observation, c.response).value, t, c, d);
    } else {
      FreshKeepsReceipt(s, t, c, d);
    }
  }

  /** The key a claim gives its attempt for the outside: a prefix and the first 48 characters of the ticket's digest,
      its own prefix taken off. */
  lemma ClaimDrawsTheKey(s: Registry, c: Command, d: Draw, digits: string)
    requires Sound(s) && c.Claim? && TicketOf(c) in s.tickets && Execute(s, c, d).Done?
    requires (s.tickets[TicketOf(c)].operation, KeyOf(c)) !in s.recorded
    requires var digest := s.tickets[TicketOf(c)].digest;
      digest == "sha256:" + digits || (digest == digits && !("sha256:" <= digest))
    ensures Execute(s, c, d).ticket.attempt ==
            Some(Attempt(d.attempt, "caller-" + (if |digits| <= 48 then digits else digits[..48]), false, false, None,
                         None, None, None))
  {
    hide Sound, KeyOf, FenceError, Shaped, KeysHold, CallerKey;
    var t := s.tickets[TicketOf(c)];
    NewCall(s, c, d);
    KeyIsDrawn(t.digest, digits);
  }

  lemma KeyIsDrawn(digest: string, digits: string)
    requires digest == "sha256:" + digits || (digest == digits && !("sha256:" <= digest))
    ensures CallerKey(digest) == "caller-" + if |digits| <= 48 then digits else digits[..48]
  {
    assert digest == "sha256:" + digits ==> digest[..7] == "sha256:" && digest[7..] == digits;
  }

  /** What a sole receipt's report makes of its ticket: a success only a success, the two words no schema lists a
      certain cancellation, and everything else a failure. */
  lemma ReportsDecide(t: Ticket, r: Receipt, now: int)
    requires t.attempt.Some?
    ensures Settling(t, r, now).state ==
            if r.observation.report == Succeeded then SettledSuccess
            else if r.observation.report in {WordCancelled, WordCanceled} then CancelledCertain
            else SettledFailure
  {
  }

  // Late receipts

  /** A receipt of the marked attempt and request of its ticket. */
  predicate OfTheMarkedSend(t: Ticket, r: Receipt) {
    && t.attempt.Some? && t.attempt.value.startedAt.Some?
    && r.ticketDigest == t.digest && r.attempt == t.attempt.value.id && r.sentDigest == t.requestDigest
  }

  /** A late receipt is kept exactly when it is sealed, lists a known report and is of the marked send of its ticket;
      nothing but the receipts changes. */
  lemma AppendSucceedsExactly(s: Registry, r: Receipt, digest: Digest, d: Draw)
    ensures var o := Execute(s, AppendCandidate(r, digest), d);
      && (o.Done? <==>
            r.ticketId in s.tickets && Listed(r.observation) && digest == OfReceipt(r)
            && OfTheMarkedSend(s.tickets[r.ticketId], r))
      && (o.Done? ==> o.registry == s.(candidates := s.candidates + {r}))
  {
    hide Listed, SchemaAllows;
    ListedExactly(r.observation);
  }

  /** With typed evidence it must report a model success, and the evidence is journalled under the attempt's key,
      which holds no other and is open or settled as a success. */
  lemma AppendModelSucceedsExactly(s: Registry, r: Receipt, digest: Digest, response: Response, d: Draw)
    ensures var o := Execute(s, AppendModelCandidate(r, digest, response), d);
      && (o.Done? <==>
            && r.ticketId in s.tickets && digest == OfReceipt(r)
            && r.observation.kind == Model && r.observation.report == Succeeded
            && var t := s.tickets[r.ticketId];
            && OfTheMarkedSend(t, r) && (OpenAfterSend(t.state) || t.state == SettledSuccess)
            && Attested(s, t, r.observation, Some(response)))
      && (o.Done? ==>
            && s.tickets[r.ticketId].attempt.Some?
            && var t := s.tickets[r.ticketId];
            && o.registry ==
               s.(candidates := s.candidates + {r},
                  journal := s.journal[(t.operation, t.attempt.value.externalKey) := r.observation.evidence]))
  {
    hide KeyedCall, CommitCall, ReclaimCall, RequestCancelCall, MarkUnknownCall;
  }

  // Rows by state

  /** What a row has in each state: no claim while it is pending, an unsent attempt while it is reserved, and from the
      send on a marked attempt; a settlement exactly when it settled or was cancelled, and a time of sending when it
      settled as a success. */
  predicate HasItsShape(t: Ticket) {
    && (t.claimant.Some? <==> t.attempt.Some?)
    && (t.settledReceipt.Some? <==> t.state in {SettledSuccess, SettledFailure, CancelledCertain, CancelledBeforeSend})
    && (t.settledAt.Some? <==> t.settledReceipt.Some?)
    && match t.state
       case Pending => t.attempt.None?
       case SendReserved => t.attempt.Some? && NothingSent(t.attempt.value)
       case CancelledBeforeSend => t.attempt.Some? ==> NothingSent(t.attempt.value)
       case SettledSuccess => t.attempt.Some? && MarkedOnce(t.attempt.value) && t.attempt.value.sentAt.Some?
       case _ => t.attempt.Some? && MarkedOnce(t.attempt.value)
  }

  predicate NothingSent(a: Attempt) {
    a.startedAt == None && a.sentDigest == None && a.sentAt == None && a.requestId == None
  }

  predicate MarkedOnce(a: Attempt) {
    a.startedAt.Some? && a.sentDigest.Some?
  }

  lemma ShapedExactly(t: Ticket)
    ensures Shaped(t) <==> HasItsShape(t)
  {
  }

  /** In every registry a run reaches each row has the shape of its state, an attempt is that of no other row, a marked
      send is of the row's own request, and the fence of a claim is drawn from the claim. */
  lemma RowsHaveTheirShape(start: Registry, steps: seq<Step>, id: string)
    requires Empty(start) && id in Run(start, steps).tickets
    ensures var s := Run(start, steps); var t := s.tickets[id];
      && HasItsShape(t)
      && (t.attempt.Some? ==>
            forall other :: other in s.tickets && other != id && s.tickets[other].attempt.Some? ==>
                              s.tickets[other].attempt.value.id != t.attempt.value.id)
      && (t.attempt.Some? && t.attempt.value.sentDigest.Some? ==> t.attempt.value.sentDigest.value == t.requestDigest)
      && (t.claimant.Some? && t.attempt.Some? ==>
            && t.claimant.value.fence.ticketId == id && t.claimant.value.fence.claimId == t.claimant.value.claimId
            && t.claimant.value.fence.attempt == t.attempt.value.id
            && t.claimant.value.fence.adapter == t.claimant.value.adapter
            && t.claimant.value.fence.generation == t.claimant.value.generation)
  {
    hide Run, Empty, Shaped, HasItsShape, CandidatesSound, RecordsSound, OutboxesSound, ClosedRight;
    RunsStaySound(start, steps);
    var s := Run(start, steps);
    assert TicketSound(s, s.tickets[id]) && s.tickets[id].id == id;
    ShapedExactly(s.tickets[id]);
  }
}
