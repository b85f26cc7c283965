/** Which calls the registry's own constraints refuse: exactly those, and no others. */
module CallerWorkConstraints {
  import opened JsonValues
  import opened CallerWork
  import opened CallerWorkSteps
  import opened CallerWorkCommands
  import opened CallerWorkLaws
  import opened CallerWorkVerdicts

  // Single rows

  lemma UnmarkedHasNoReceipt(s: Registry, t: Ticket)
    requires Sound(s) && Own(s, t) && !SendMarked(t)
    ensures forall c :: c in s.candidates ==> c.ticketId != t.id
  {
    hide TicketsSound, OutboxesSound, RecordsSound, SchemaAllows;
    forall c | c in s.candidates ensures c.ticketId != t.id {
      assert CandidateSound(s, c);
    }
  }

  lemma NoOutboxWhileOpen(s: Registry, t: Ticket)
    requires Sound(s) && Own(s, t) && !Closed(t.state)
    ensures (t.operation, t.suspension) !in s.outbox
  {
    hide CandidatesSound, RecordsSound, Shaped, KeysHold, ClosedRight;
    var key := (t.operation, t.suspension);
    assert TicketSound(s, t);
    assert key in s.outbox ==> OutboxSound(s, key, s.outbox[key]);
  }

  lemma ProjectFits(s: Registry, t: Ticket, state: TicketState, settlement: Option<Digest>, at: int)
    requires Closed(state) && (ClosedByReceipt(state) ==> settlement.Some?)
    requires (t.operation, t.suspension) !in s.outbox
    ensures Project(s, t, state, settlement, at) != Lost(Integrity)
  {
  }

  lemma CloseFits(s: Registry, t: Ticket, u: Ticket, at: int)
    requires Closed(u.state) && (ClosedByReceipt(u.state) ==> u.settledReceipt.Some?)
    requires (t.operation, t.suspension) !in s.outbox
    ensures Close(s, t, u, at) == Refused(Integrity) <==> !(Shaped(u) && KeysHold(s, u))
  {
    hide Shaped, KeysHold, Project;
    if Shaped(u) && KeysHold(s, u) {
      ProjectFits(Write(s, u).registry, t, u.state, u.settledReceipt, at);
    }
  }

  /** A settlement trips over a constraint exactly when the sole receipt reports a success without a
      time of sending. */
  lemma SettlementFits(s: Registry, t: Ticket, r: Receipt, now: int)
    requires Shaped(t) && MayHaveSent(t.state) && KeysHold(s, t) && (t.operation, t.suspension) !in s.outbox
    requires r in Rivals(s, t)
    ensures Settlement(s, t, r, now) == Refused(Integrity) <==>
            && |Rivals(s, t)| <= 1 && r.observation.report.Succeeded? && r.sentAt.None?
            && (IsModelSuccess(r.observation) ==> JournalHolds(s, t, r.observation))
  {
    hide Project, Close, JournalHolds, KeysHold;
    var u := if |Rivals(s, t)| > 1 then Quarantining(t) else Settling(t, r, now);
    SameKeysHold(s, t, u);
    CloseFits(s, t, u, now);
  }

  lemma SameKeysHold(s: Registry, t: Ticket, u: Ticket)
    requires KeysHold(s, t) && u.id == t.id && t.attempt.Some? && u.attempt.Some?
    requires u.attempt.value.id == t.attempt.value.id
    ensures KeysHold(s, u)
  {
  }

  lemma ReleaseFits(s: Registry, t: Ticket)
    requires Sound(s) && Own(s, t) && t.state.SendReserved?
    ensures Write(s, Released(t)).Done?
  {
    hide CandidatesSound, RecordsSound, OutboxesSound, ClosedRight;
    OwnIsSound(s, t);
    UnmarkedHasNoReceipt(s, t);
  }

  lemma ClaimFits(s: Registry, t: Ticket, c: Command, d: Draw)
    requires Sound(s) && Own(s, t) && c.Claim?
    ensures FreshClaim(s, t, c, d).Done? <==> t.state.Pending? && d.now < t.deadline && NewAttempt(s, t, d)
    ensures FreshClaim(s, t, c, d) == Refused(Integrity) <==>
            t.state.Pending? && d.now < t.deadline && !NewAttempt(s, t, d)
  {
    hide CandidatesSound, RecordsSound, OutboxesSound, ClosedRight;
    OwnIsSound(s, t);
    if t.state.Pending? {
      UnmarkedHasNoReceipt(s, t);
    }
  }

  /** No other ticket has the attempt identifier drawn. */
  predicate NewAttempt(s: Registry, t: Ticket, d: Draw) {
    forall id :: id in s.tickets && id != t.id && s.tickets[id].attempt.Some? ==>
                   s.tickets[id].attempt.value.id != d.attempt
  }

  lemma MarkFits(s: Registry, t: Ticket, c: Command, d: Draw)
    requires Sound(s) && Own(s, t) && c.MarkSendStarted?
    ensures FreshMark(s, t, c, d) != Refused(Integrity)
  {
    hide KeysHold, CandidatesSound, RecordsSound, OutboxesSound, ClosedRight;
    OwnIsSound(s, t);
    if FreshMark(s, t, c, d).Refused? && t.state.SendReserved? {
      SameKeysHold(s, t, t.(revision := t.revision + 1, state := SendStarted,
                            attempt := Some(t.attempt.value.(lookup := c.lookup, cancel := c.cancel,
                                            startedAt := Some(d.now), sentDigest := Some(c.sentDigest)))));
    }
  }

  lemma CancelFits(s: Registry, t: Ticket, c: Command)
    requires Sound(s) && Own(s, t) && c.CancelBeforeSend?
    ensures FreshCancel(s, t, c) != Refused(Integrity)
  {
    hide KeysHold, CandidatesSound, RecordsSound, OutboxesSound, ClosedRight, Close;
    OwnIsSound(s, t);
    if t.state.Pending? || t.state.SendReserved? {
      var u := t.(revision := t.revision + 1, state := CancelledBeforeSend,
                  settledReceipt := Some(c.settlement), settledAt := Some(c.settledAt));
      NoOutboxWhileOpen(s, t);
      SameAttemptKeysHold(s, t, u);
      CloseFits(s, t, u, c.settledAt);
    }
  }

  lemma SameAttemptKeysHold(s: Registry, t: Ticket, u: Ticket)
    requires KeysHold(s, t) && u.id == t.id && u.attempt == t.attempt
    ensures KeysHold(s, u)
  {
  }

  // Settling calls

  /** A commit past its fences and its claim: it names the claim, the fence and the attempt that the
      row holds, and the request that was marked. */
  predicate CommitAdmitted(s: Registry, t: Ticket, c: Command)
    requires c.Commit?
  {
    && FenceError(s, t, c.fences).None? && MayHaveSent(t.state)
    && ClaimMatches(t, Some(c.claimId), Some(c.claimFence), Some(c.attempt))
    && t.attempt.value.sentDigest == Some(c.sentDigest)
  }

  /** A settlement past the reconciler's own authority, naming a kept receipt of the row's attempt. */
  predicate ReconcilerAdmitted(s: Registry, t: Ticket, c: Command)
    requires c.SettleCandidate? || c.Reconcile?
  {
    && MayHaveSent(t.state) && t.attempt.Some? && ReconcilerMatches(t, c.reconciler, c.generation)
    && c.fence == ReconcileFence(t.id, t.revision, t.attempt.value.id, c.candidate, c.reconciler, c.generation, Settle)
    && Named(s, t, c.candidate)
    && (if c.SettleCandidate? then c.revision == t.revision
        else
          && FenceError(s, t, c.fences).None? && c.attempt == t.attempt.value.id && c.action.Settle?
          && t.claimant.value.principal == c.fences.context.principal
          && t.claimant.value.session == c.fences.context.session)
  }

  predicate Admitted(s: Registry, t: Ticket, c: Command)
    requires Closes(c)
  {
    if c.Commit? then CommitAdmitted(s, t, c) else ReconcilerAdmitted(s, t, c)
  }

  /** The receipt put forward is the only one of its attempt, reports a success, and knows no time of
      sending. */
  predicate SoleUntimedSuccess(s: Registry, t: Ticket, r: Receipt)
    requires t.attempt.Some?
  {
    Rivals(s, t) <= {r} && r.observation.report.Succeeded? && r.sentAt.None?
  }

  lemma SoleRival(s: Registry, t: Ticket, r: Receipt)
    requires t.attempt.Some? && r in Rivals(s, t)
    ensures |Rivals(s, t)| <= 1 <==> Rivals(s, t) <= {r}
  {
    OneRivalExactlyWhenAllAgree(s, t, r);
  }

  lemma CommitFits(s: Registry, t: Ticket, c: Command, d: Draw)
    requires Sound(s) && Own(s, t) && c.Commit?
    requires IsModelSuccess(c.observation) && MayHaveSent(t.state) ==>
               t.attempt.Some? && JournalHolds(s, t, c.observation)
    ensures Fresh(s, t, c, d) == Refused(Integrity) <==>
            CommitAdmitted(s, t, c) && SoleUntimedSuccess(s, t, CommitReceipt(t, c, d.now))
  {
    hide CandidatesSound, RecordsSound, OutboxesSound, ClosedRight, Settlement, Shaped, FenceError, JournalHolds;
    OwnIsSound(s, t);
    if CommitAdmitted(s, t, c) {
      NoOutboxWhileOpen(s, t);
      var r := CommitReceipt(t, c, d.now);
      var mid := s.(candidates := s.candidates + {r});
      assert KeysHold(mid, t);
      assert Rivals(mid, t) == Rivals(s, t) + {r};
      SoleRival(mid, t, r);
      SameJournal(s, mid, t, c.observation);
      SettlementFits(mid, t, r, d.now);
    } else {
      FenceErrorsAreNotIntegrity(s, t, c.fences);
    }
  }

  lemma SameJournal(s: Registry, mid: Registry, t: Ticket, o: Observation)
    requires t.attempt.Some? && mid.journal == s.journal
    ensures JournalHolds(mid, t, o) <==> JournalHolds(s, t, o)
  {
  }

  lemma FenceErrorsAreNotIntegrity(s: Registry, t: Ticket, f: Fences)
    ensures FenceError(s, t, f) != Some(Integrity)
  {
  }

  lemma SettleFits(s: Registry, t: Ticket, c: Command, d: Draw)
    requires Sound(s) && Own(s, t) && c.SettleCandidate?
    ensures Fresh(s, t, c, d) == Refused(Integrity) <==>
            && ReconcilerAdmitted(s, t, c) && SoleUntimedSuccess(s, t, c.candidate.value.receipt)
            && (IsModelSuccess(c.candidate.value.receipt.observation) ==>
                  JournalHolds(s, t, c.candidate.value.receipt.observation))
  {
    hide CandidatesSound, RecordsSound, OutboxesSound, ClosedRight, Settlement, Shaped, JournalHolds;
    OwnIsSound(s, t);
    if ReconcilerAdmitted(s, t, c) {
      NoOutboxWhileOpen(s, t);
      SoleRival(s, t, c.candidate.value.receipt);
      SettlementFits(s, t, c.candidate.value.receipt, d.now);
    }
  }

  lemma ReconcileFits(s: Registry, t: Ticket, c: Command, d: Draw)
    requires Sound(s) && Own(s, t) && c.Reconcile?
    ensures Fresh(s, t, c, d) == Refused(Integrity) <==>
            && ReconcilerAdmitted(s, t, c) && SoleUntimedSuccess(s, t, c.candidate.value.receipt)
            && (IsModelSuccess(c.candidate.value.receipt.observation) ==>
                  JournalHolds(s, t, c.candidate.value.receipt.observation))
  {
    hide CandidatesSound, RecordsSound, OutboxesSound, ClosedRight, Settlement, Shaped, JournalHolds, KeysHold, Close,
      FenceError;
    OwnIsSound(s, t);
    FenceErrorsAreNotIntegrity(s, t, c.fences);
    FencesNameTheRevision(s, t, c.fences);
    if ReconcilerAdmitted(s, t, c) {
      NoOutboxWhileOpen(s, t);
      SoleRival(s, t, c.candidate.value.receipt);
      SettlementFits(s, t, c.candidate.value.receipt, d.now);
    } else if c.action.RetryIfCertainNoSend? && t.state.SendReserved? {
      ReleaseFits(s, t);
    } else if c.action.Quarantine? && MayHaveSent(t.state) {
      NoOutboxWhileOpen(s, t);
      SameAttemptKeysHold(s, t, Quarantining(t));
      QuarantiningIsShaped(t);
      CloseFits(s, t, Quarantining(t), d.now);
    }
  }

  lemma QuarantiningIsShaped(t: Ticket)
    requires Shaped(t) && MayHaveSent(t.state)
    ensures Shaped(Quarantining(t))
  {
  }

  lemma FencesNameTheRevision(s: Registry, t: Ticket, f: Fences)
    ensures FenceError(s, t, f).None? ==> f.revision == t.revision
  {
  }

  // Every call

  /** A new ticket the tables take: its suspension names it and its request, and it is either open
      or cancelled before anything was claimed. */
  predicate MayBeCreated(s: Registry, t: Ticket) {
    var key := (t.operation, t.suspension);
    && key in s.suspensions && s.suspensions[key].ticketId == t.id
    && s.suspensions[key].requestDigest == t.requestDigest
    && (t.state.Pending? || t.state.CancelledBeforeSend?)
    && (t.settledReceipt.Some? <==> t.state.CancelledBeforeSend?)
    && (t.settledAt.Some? <==> t.state.CancelledBeforeSend?)
  }

  /** A claim past its fences that draws an attempt identifier another ticket has. */
  predicate ClaimsTakenAttempt(s: Registry, t: Ticket, c: Command, d: Draw) {
    && c.Claim? && FenceError(s, t, c.fences).None? && t.state.Pending? && d.now < t.deadline
    && !NewAttempt(s, t, d)
  }

  /** A call past its guards that would settle a success no time of sending is known for. */
  predicate SettlesUntimedSuccess(s: Registry, t: Ticket, c: Command, d: Draw) {
    && Closes(c) && Admitted(s, t, c)
    && SoleUntimedSuccess(s, t, Forwarded(t, c, d.now).value)
    && (if c.Commit? then
          && SchemaAllows(c.observation)
          && (IsModelSuccess(c.observation) ==> WithResponse(s, t, c.observation, c.response).Some?)
        else
          var o := Forwarded(t, c, d.now).value.observation;
          IsModelSuccess(o) ==> JournalHolds(s, t, o))
  }

  predicate TablesRefuse(s: Registry, c: Command, d: Draw) {
    if c.CreateTicket? then c.ticket.id !in s.tickets && !MayBeCreated(s, c.ticket)
    else
      && TicketOf(c) in s.tickets && Keyed(c)
      && var t := s.tickets[TicketOf(c)];
      && (t.operation, KeyOf(c)) !in s.recorded
      && (ClaimsTakenAttempt(s, t, c, d) || SettlesUntimedSuccess(s, t, c, d))
  }

  lemma CreateFits(s: Registry, t: Ticket)
    requires Sound(s)
    ensures CreateCall(s, t) == Refused(Integrity) <==> t.id !in s.tickets && !MayBeCreated(s, t)
  {
    hide TicketsSound, RecordsSound, OutboxesSound, SchemaAllows, ReceiptBinds;
    if t.id !in s.tickets {
      forall c | c in s.candidates ensures c.ticketId != t.id {
        assert CandidateSound(s, c);
      }
    }
  }

  /** A keyed call that no earlier one answers, any other than a commit of a model success. */
  lemma FreshFits(s: Registry, t: Ticket, c: Command, d: Draw)
    requires Sound(s) && Own(s, t) && Keyed(c) && !IsModelCommit(c) && (c.Commit? ==> SchemaAllows(c.observation))
    ensures Fresh(s, t, c, d) == Refused(Integrity) <==>
            ClaimsTakenAttempt(s, t, c, d) || SettlesUntimedSuccess(s, t, c, d)
  {
    hide Sound, FreshClaim, FreshMark, FreshCancel, FreshCommit, FreshSettle, FreshReconcile, NewAttempt, FenceError,
      SoleUntimedSuccess, CommitAdmitted, SchemaAllows, JournalHolds;
    if c.Claim? {
      ClaimFits(s, t, c, d);
      FenceErrorsAreNotIntegrity(s, t, c.fences);
    } else if c.MarkSendStarted? {
      MarkFits(s, t, c, d);
      FenceErrorsAreNotIntegrity(s, t, c.fences);
    } else if c.CancelBeforeSend? {
      CancelFits(s, t, c);
      FenceErrorsAreNotIntegrity(s, t, c.fences);
    } else if c.Commit? {
      CommitFits(s, t, c, d);
      AdmittedForwards(s, t, c, d.now);
    } else if c.SettleCandidate? {
      SettleFits(s, t, c, d);
    } else {
      ReconcileFits(s, t, c, d);
    }
  }

  lemma AdmittedForwards(s: Registry, t: Ticket, c: Command, now: int)
    requires c.Commit?
    ensures CommitAdmitted(s, t, c) ==> Forwarded(t, c, now) == Some(CommitReceipt(t, c, now))
  {
  }

  lemma UnkeyedFits(s: Registry, t: Ticket, c: Command, d: Draw)
    requires Sound(s) && Own(s, t) && !Keyed(c) && !c.CreateTicket? && TicketOf(c) == t.id
    ensures Execute(s, c, d) != Refused(Integrity)
  {
    hide CandidatesSound, RecordsSound, OutboxesSound, ClosedRight, KeysHold, SchemaAllows, ReceiptBinds, WithResponse;
    OwnIsSound(s, t);
    if c.ReclaimExpired? && t.state.SendReserved? {
      ReleaseFits(s, t);
    } else if c.RequestCancel? {
      SameAttemptKeysHold(s, t, t.(revision := t.revision + 1, state := CancelRequested));
    } else if c.MarkOutcomeUnknown? {
      SameAttemptKeysHold(s, t, t.(revision := t.revision + 1, state := OutcomeUnknown));
    }
  }

  /** A commit of a model success is judged with its response already journalled. */
  lemma ModelCommitFits(s: Registry, t: Ticket, c: Command, d: Draw)
    requires Sound(s) && Own(s, t) && IsModelCommit(c) && WithResponse(s, t, c.observation, c.response).Some?
    ensures var mid := WithResponse(s, t, c.observation, c.response).value;
      Fresh(mid, t, c, d) == Refused(Integrity) <==>
      CommitAdmitted(s, t, c) && SoleUntimedSuccess(s, t, CommitReceipt(t, c, d.now))
  {
    hide Sound, Fresh, SoleUntimedSuccess, CommitReceipt;
    var mid := WithResponse(s, t, c.observation, c.response).value;
    ResponseIsKept(s, t, c.observation, c.response);
    JournallingKeepsSound(s, mid);
    CommitFits(mid, t, c, d);
    JournalIsNoFence(s, mid, t, c);
  }

  lemma JournalIsNoFence(s: Registry, mid: Registry, t: Ticket, c: Command)
    requires mid == s.(journal := mid.journal) && c.Commit?
    ensures CommitAdmitted(mid, t, c) <==> CommitAdmitted(s, t, c)
    ensures forall r :: t.attempt.Some? ==> (SoleUntimedSuccess(mid, t, r) <==> SoleUntimedSuccess(s, t, r))
  {
    assert t.attempt.Some? ==> Rivals(mid, t) == Rivals(s, t);
  }

  /** The constraints of a sound registry refuse a call exactly when it creates a ticket that is not
      awaited, claims with an attempt identifier another ticket has, or would settle a sole success
      that no time of sending is known for. */
  lemma ConstraintsFireExactly(s: Registry, c: Command, d: Draw)
    requires Sound(s)
    ensures Execute(s, c, d) == Refused(Integrity) <==> TablesRefuse(s, c, d)
  {
    hide Sound, Fresh, WithResponse, SchemaAllows, NewAttempt, KeyOf, SoleUntimedSuccess, CommitAdmitted,
      ReconcilerAdmitted, MayBeCreated, JournalHolds, FenceError, CreateCall, CommitReceipt;
    if c.CreateTicket? {
      CreateFits(s, c.ticket);
    } else if TicketOf(c) in s.tickets {
      var t := s.tickets[TicketOf(c)];
      OwnIsCurrent(s, t, TicketOf(c));
      if IsModelCommit(c) {
        AdmittedForwards(s, t, c, d.now);
        if WithResponse(s, t, c.observation, c.response).Some? {
          ModelCommitFits(s, t, c, d);
          ResponseIsKept(s, t, c.observation, c.response);
        }
      } else if Keyed(c) {
        if c.Commit? ==> SchemaAllows(c.observation) {
          FreshFits(s, t, c, d);
        }
      } else {
        UnkeyedFits(s, t, c, d);
      }
    }
  }

  // Calls with one write succeed exactly when their own guards hold

  /** An expired reservation of exactly this claim. */
  predicate Reclaimable(t: Ticket, c: Command, now: int)
    requires c.ReclaimExpired?
  {
    && t.revision == c.revision && t.state.SendReserved? && t.claimant.Some?
    && t.claimant.value.claimId == c.claimId && t.claimant.value.fence == c.claimFence
    && t.claimant.value.expires <= now
  }

  lemma ReclaimSucceeds(s: Registry, c: Command, d: Draw)
    requires Sound(s) && c.ReclaimExpired?
    ensures c.ticketId in s.tickets ==> s.tickets[c.ticketId].id == c.ticketId
    ensures Execute(s, c, d).Done? <==> c.ticketId in s.tickets && Reclaimable(s.tickets[c.ticketId], c, d.now)
  {
    hide Sound, Shaped, KeysHold;
    if c.ticketId in s.tickets {
      OwnIsCurrent(s, s.tickets[c.ticketId], c.ticketId);
      if s.tickets[c.ticketId].state.SendReserved? {
        ReleaseFits(s, s.tickets[c.ticketId]);
      }
    }
  }

  lemma RequestCancelSucceeds(s: Registry, c: Command, d: Draw)
    requires Sound(s) && c.RequestCancel?
    ensures c.ticketId in s.tickets ==> s.tickets[c.ticketId].id == c.ticketId
    ensures Execute(s, c, d).Done? <==>
            && c.ticketId in s.tickets && s.tickets[c.ticketId].revision == c.revision
            && (s.tickets[c.ticketId].state.SendStarted? || s.tickets[c.ticketId].state.OutcomeUnknown?)
  {
    hide Sound, Shaped, KeysHold;
    if c.ticketId in s.tickets {
      OwnIsCurrent(s, s.tickets[c.ticketId], c.ticketId);
      UnkeyedFits(s, s.tickets[c.ticketId], c, d);
    }
  }

  lemma MarkUnknownSucceeds(s: Registry, c: Command, d: Draw)
    requires Sound(s) && c.MarkOutcomeUnknown?
    ensures c.ticketId in s.tickets ==> s.tickets[c.ticketId].id == c.ticketId
    ensures Execute(s, c, d).Done? <==>
            && c.ticketId in s.tickets && s.tickets[c.ticketId].revision == c.revision
            && (s.tickets[c.ticketId].state.SendStarted? || s.tickets[c.ticketId].state.OutcomeUnknown?)
  {
    hide Sound, Shaped, KeysHold;
    if c.ticketId in s.tickets {
      OwnIsCurrent(s, s.tickets[c.ticketId], c.ticketId);
      UnkeyedFits(s, s.tickets[c.ticketId], c, d);
    }
  }

  lemma CreateSucceeds(s: Registry, t: Ticket)
    requires Sound(s)
    ensures CreateCall(s, t).Done? <==> if t.id in s.tickets then s.tickets[t.id] == t else MayBeCreated(s, t)
  {
    hide Sound, Shaped, KeysHold, MayBeCreated;
    CreateFits(s, t);
  }

  lemma RowsAreTheirs(s: Registry)
    ensures Sound(s) ==> forall id :: id in s.tickets ==> s.tickets[id].id == id
  {
    hide TicketSound, CandidatesSound, RecordsSound, OutboxesSound;
  }

  /** A call, whatever it answers, keeps a sound registry sound and only moves it forward. */
  lemma CallKeepsSound(s: Registry, c: Command, d: Draw)
    ensures Sound(s) ==> Advances(s, s)
    ensures Sound(s) && Execute(s, c, d).Done? ==>
              Sound(Execute(s, c, d).registry) && Advances(s, Execute(s, c, d).registry)
  {
    hide Sound, Execute, Advances;
    AdvancesNowhere(s);
    if Sound(s) && Execute(s, c, d).Done? {
      ExecuteKeepsSound(s, c, d);
    }
  }
}
