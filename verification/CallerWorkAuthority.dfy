/** Who may commit: what the claim fence binds, and what no check of a commit reads. */
module CallerWorkAuthority {
  import opened JsonValues
  import opened CallerWork
  import opened CallerWorkSteps
  import opened CallerWorkCommands
  import opened CallerWorkLaws
  import opened CallerWorkVerdicts
  import opened CallerWorkConstraints

  // The caller is not compared

  /** The same command from another caller. */
  function From(c: Command, context: Context): Command
    requires c.Commit? || c.MarkSendStarted? || c.CancelBeforeSend?
  {
    match c
    case Commit(f, id, fence, attempt, digest, at, request, o, response) =>
      Commit(f.(context := context), id, fence, attempt, digest, at, request, o, response)
    case MarkSendStarted(f, id, fence, attempt, expires, key, digest, lookup, cancel) =>
      MarkSendStarted(f.(context := context), id, fence, attempt, expires, key, digest, lookup, cancel)
    case CancelBeforeSend(f, state, id, fence, attempt, expires, settlement, at, reason) =>
      CancelBeforeSend(f.(context := context), state, id, fence, attempt, expires, settlement, at, reason)
  }

  /** Marking a send, cancelling before it and committing never compare the caller: the same command
      from anyone else does the same, as long as its key answered nothing yet. */
  lemma CallerIsNotCompared(s: Registry, t: Ticket, c: Command, d: Draw, context: Context)
    requires c.Commit? || c.MarkSendStarted? || c.CancelBeforeSend?
    ensures Fresh(s, t, From(c, context), d) == Fresh(s, t, c, d)
  {
    hide Settlement, Write, Close, ClaimMatches;
    var other := From(c, context);
    assert FenceError(s, t, other.fences) == FenceError(s, t, c.fences);
    if c.Commit? && t.claimant.Some? && t.attempt.Some? {
      assert CommitReceipt(t, other, d.now) == CommitReceipt(t, c, d.now);
    }
  }

  // The claim is

  /** Once its receipt is in, a commit lands unless the receipt is the only one and reports a success
      without a time of sending, or its operation is gone, or may continue but is not waiting. */
  predicate Lands(s: Registry, t: Ticket, r: Receipt, now: int)
    requires t.attempt.Some?
  {
    Rivals(s, t) <= {r} ==>
      && (r.observation.report.Succeeded? ==> r.sentAt.Some?)
      && t.operation in s.operations
      && (MayContinue(s, t, now) ==> t.operation in s.jobs && s.jobs[t.operation].phase.WaitingExternal?)
  }

  /** What fences that hold say about the rows around the ticket. */
  predicate Fenced(s: Registry, t: Ticket) {
    && t.operation in s.controls && t.operation in s.jobs && (t.operation, t.suspension) in s.suspensions
    && s.suspensions[(t.operation, t.suspension)].state.Waiting?
    && s.jobs[t.operation].control == s.controls[t.operation].revision && !s.controls[t.operation].cancelled
  }

  lemma FencesHold(s: Registry, t: Ticket, f: Fences)
    requires FenceError(s, t, f).None?
    ensures Fenced(s, t)
  {
  }

  lemma ProjectKept(s: Registry, t: Ticket, state: TicketState, settlement: Option<Digest>, at: int)
    requires Closed(state) && (ClosedByReceipt(state) ==> settlement.Some?)
    requires (t.operation, t.suspension) !in s.outbox && Fenced(s, t)
    ensures Project(s, t, state, settlement, at).Kept? <==>
            (ClosedByReceipt(state) ==>
               t.operation in s.operations && (MayContinue(s, t, at) ==> s.jobs[t.operation].phase.WaitingExternal?))
  {
  }

  lemma CloseDone(s: Registry, t: Ticket, u: Ticket, at: int)
    requires Closed(u.state) && (ClosedByReceipt(u.state) ==> u.settledReceipt.Some?)
    requires (t.operation, t.suspension) !in s.outbox && Fenced(s, t)
    ensures Close(s, t, u, at).Done? <==>
            && Shaped(u) && KeysHold(s, u)
            && (ClosedByReceipt(u.state) ==>
                  t.operation in s.operations && (MayContinue(s, t, at) ==> s.jobs[t.operation].phase.WaitingExternal?))
  {
    hide Shaped, KeysHold, Project;
    if Shaped(u) && KeysHold(s, u) {
      ProjectKept(Write(s, u).registry, t, u.state, u.settledReceipt, at);
    }
  }

  lemma SettlementDone(s: Registry, t: Ticket, r: Receipt, now: int)
    requires Shaped(t) && MayHaveSent(t.state) && KeysHold(s, t) && (t.operation, t.suspension) !in s.outbox
    requires Fenced(s, t) && r in Rivals(s, t) && SchemaAllows(r.observation)
    requires IsModelSuccess(r.observation) ==> JournalHolds(s, t, r.observation)
    ensures Settlement(s, t, r, now).Done? <==> Lands(s, t, r, now)
  {
    hide Close, JournalHolds, KeysHold, SchemaAllows, MayContinue;
    var u := if |Rivals(s, t)| > 1 then Quarantining(t) else Settling(t, r, now);
    SoleRival(s, t, r);
    KnownVerdict(r.observation);
    SameKeysHold(s, t, u);
    CloseDone(s, t, u, now);
  }

  lemma KnownVerdict(o: Observation)
    requires SchemaAllows(o)
    ensures Verdict(o.report) == if o.report.Succeeded? then SettledSuccess else SettledFailure
  {
  }

  lemma ReceiptBesideKeys(s: Registry, t: Ticket, r: Receipt)
    requires KeysHold(s, t) && t.attempt.Some? && r.attempt == t.attempt.value.id
    ensures KeysHold(s.(candidates := s.candidates + {r}), t)
  {
  }

  /** When a commit that no earlier one answers succeeds. */
  lemma FreshCommitSucceeds(s: Registry, t: Ticket, c: Command, d: Draw)
    requires Sound(s) && Own(s, t) && c.Commit? && SchemaAllows(c.observation)
    requires IsModelSuccess(c.observation) && MayHaveSent(t.state) ==>
               t.attempt.Some? && JournalHolds(s, t, c.observation)
    ensures Fresh(s, t, c, d).Done? <==> CommitAdmitted(s, t, c) && Lands(s, t, CommitReceipt(t, c, d.now), d.now)
  {
    hide CandidatesSound, RecordsSound, OutboxesSound, ClosedRight, FenceError, JournalHolds, KeysHold, Shaped,
      SchemaAllows, Settlement;
    OwnIsSound(s, t);
    if CommitAdmitted(s, t, c) {
      NoOutboxWhileOpen(s, t);
      FencesHold(s, t, c.fences);
      var r := CommitReceipt(t, c, d.now);
      var mid := s.(candidates := s.candidates + {r});
      assert Rivals(mid, t) == Rivals(s, t) + {r};
      assert KeysHold(mid, t) by { ReceiptBesideKeys(s, t, r); }
      SameJournal(s, mid, t, c.observation);
      SettlementDone(mid, t, r, d.now);
    }
  }

  /** When a commit whose key answered nothing yet succeeds: exactly when its observation is in the
      schema, the response of a model success is accepted, its fences hold, it names the claim, the
      fence and the attempt of the row and the request that was marked, and its receipt can land. */
  lemma CommitSucceedsExactly(s: Registry, c: Command, d: Draw)
    requires Sound(s) && c.Commit? && TicketOf(c) in s.tickets
    requires (s.tickets[TicketOf(c)].operation, KeyOf(c)) !in s.recorded
    ensures var t := s.tickets[TicketOf(c)];
      Execute(s, c, d).Done? <==>
      && SchemaAllows(c.observation)
      && (IsModelSuccess(c.observation) ==> WithResponse(s, t, c.observation, c.response).Some?)
      && CommitAdmitted(s, t, c) && Lands(s, t, CommitReceipt(t, c, d.now), d.now)
  {
    hide Sound, Fresh, SchemaAllows, KeyOf, CommitAdmitted, Lands, CommitReceipt;
    var t := s.tickets[TicketOf(c)];
    OwnIsCurrent(s, t, TicketOf(c));
    if !SchemaAllows(c.observation) {
    } else if !IsModelSuccess(c.observation) {
      FreshCommitSucceeds(s, t, c, d);
    } else if WithResponse(s, t, c.observation, c.response).Some? {
      var mid := WithResponse(s, t, c.observation, c.response).value;
      ResponseIsKept(s, t, c.observation, c.response);
      JournallingKeepsSound(s, mid);
      FreshCommitSucceeds(mid, t, c, d);
      JournalIsNoFence(s, mid, t, c);
      JournalIsNoBar(s, mid, t, c, d.now);
    }
  }

  lemma JournalIsNoBar(s: Registry, mid: Registry, t: Ticket, c: Command, now: int)
    requires mid == s.(journal := mid.journal) && c.Commit?
    ensures CommitAdmitted(s, t, c) ==>
              (Lands(mid, t, CommitReceipt(t, c, now), now) <==> Lands(s, t, CommitReceipt(t, c, now), now))
  {
    hide FenceError;
    assert t.attempt.Some? ==> Rivals(mid, t) == Rivals(s, t);
  }

  lemma RepeatedCommitIsInert(s: Registry, c: Command, d: Draw)
    requires Sound(s) && c.Commit? && TicketOf(c) in s.tickets && Execute(s, c, d).Done?
    requires (s.tickets[TicketOf(c)].operation, KeyOf(c)) in s.recorded
    ensures Execute(s, c, d).registry == s
  {
    hide Fresh, SchemaAllows, TicketSound, CandidatesSound, OutboxesSound, Later;
    var t := s.tickets[TicketOf(c)];
    if IsModelSuccess(c.observation) {
      assert RecordSound(s, (t.operation, KeyOf(c)), s.recorded[(t.operation, KeyOf(c))]);
      var key := (t.operation, t.attempt.value.externalKey);
      assert s.journal == s.journal[key := c.observation.evidence];
    }
  }

  /** A commit that changes anything at all names the claim, the fence and the attempt of the row, and
      so the adapter and the generation the row was claimed for. */
  lemma CommitNeedsTheClaim(s: Registry, c: Command, d: Draw)
    requires Sound(s) && c.Commit? && TicketOf(c) in s.tickets && Next(s, Call(c, d)) != s
    ensures var t := s.tickets[TicketOf(c)];
      && t.claimant.Some? && t.attempt.Some?
      && c.claimId == t.claimant.value.claimId && c.claimFence == t.claimant.value.fence
      && c.attempt == t.attempt.value.id
      && c.claimFence.adapter == t.claimant.value.adapter && c.claimFence.generation == t.claimant.value.generation
  {
    hide Execute, CandidatesSound, RecordsSound, OutboxesSound, Shaped, KeysHold, ClosedRight, Lands, FenceError, KeyOf;
    var t := s.tickets[TicketOf(c)];
    assert TicketSound(s, t);
    if (t.operation, KeyOf(c)) in s.recorded {
      RepeatedCommitIsInert(s, c, d);
    } else {
      CommitSucceedsExactly(s, c, d);
    }
  }

  /** A commit that names another generation than the claim's leaves everything alone. */
  lemma ForeignGenerationIsInert(s: Registry, c: Command, d: Draw)
    requires Sound(s) && c.Commit? && TicketOf(c) in s.tickets && s.tickets[TicketOf(c)].claimant.Some?
    requires c.claimFence.generation != s.tickets[TicketOf(c)].claimant.value.generation
    ensures Next(s, Call(c, d)) == s
  {
    hide Sound, Next;
    if Next(s, Call(c, d)) != s {
      CommitNeedsTheClaim(s, c, d);
    }
  }
}
