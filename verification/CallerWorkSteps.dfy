/** What one call keeps: the soundness of the registry, and every fact a later call relies on.
    A call moves one ticket row and the rows that hang on it. `Moved` says which moves there are,
    and the lemmas show, table by table, that each of them keeps what makes a registry sound and
    that nothing kept earlier is lost. The commands are shown to be such moves in
    `CallerWorkCommands`, and runs of them are the subject of `CallerWorkLaws`. */
module CallerWorkSteps {
  import opened JsonValues
  import opened CallerWork

  // The invariant

  predicate SameIdentity(t: Ticket, u: Ticket) {
    && u.id == t.id && u.operation == t.operation && u.suspension == t.suspension
    && u.digest == t.digest && u.requestDigest == t.requestDigest && u.deadline == t.deadline
  }

  predicate SameSend(a: Attempt, b: Attempt) {
    && b.id == a.id && b.externalKey == a.externalKey && b.lookup == a.lookup && b.cancel == a.cancel
    && b.startedAt == a.startedAt && b.sentDigest == a.sentDigest
  }

  /** A marked send stays the same send. */
  predicate SendKept(t: Ticket, u: Ticket) {
    SendMarked(t) ==>
      u.claimant == t.claimant && u.attempt.Some? && SameSend(t.attempt.value, u.attempt.value)
  }

  /** `u` is the same ticket at the same or a later time. */
  predicate Later(t: Ticket, u: Ticket) {
    && SameIdentity(t, u)
    && t.revision <= u.revision
    && (t.revision == u.revision ==> u == t)
    && (Closed(t.state) ==> u == t)
    && SendKept(t, u)
  }

  /** The receipt a closed ticket names is kept, and decides the state it closed in. */
  predicate ClosedRight(s: Registry, t: Ticket) {
    && t.attempt.Some? && t.settledReceipt.Some? && t.settledReceipt.value.OfReceipt?
    && var r := t.settledReceipt.value.receipt;
    && r in Rivals(s, t) && t.state == Verdict(r.observation.report)
    && t.attempt.value.sentAt == r.sentAt && t.attempt.value.requestId == r.requestId
  }

  /** The fence of a claim is drawn from the claim itself, its attempt and its adapter's generation. */
  predicate ClaimBinds(t: Ticket) {
    t.claimant.Some? && t.attempt.Some? ==>
      && var k := t.claimant.value;
      && k.fence == Fence(t.id, k.fence.revision, k.claimId, t.attempt.value.id, k.adapter, k.generation)
  }

  predicate TicketSound(s: Registry, t: Ticket) {
    var key := (t.operation, t.suspension);
    && Shaped(t) && KeysHold(s, t) && ClaimBinds(t)
    && key in s.suspensions && s.suspensions[key].ticketId == t.id
    && (t.attempt.Some? && t.attempt.value.sentDigest.Some? ==> t.attempt.value.sentDigest.value == t.requestDigest)
    && (ClosedByReceipt(t.state) || t.state.Quarantined? ==> !s.suspensions[key].state.Waiting?)
    && (ClosedByReceipt(t.state) ==> ClosedRight(s, t))
  }

  predicate CandidateSound(s: Registry, c: Receipt) {
    c.ticketId in s.tickets && ReceiptBinds(s.tickets[c.ticketId], c) && SchemaAllows(c.observation)
  }

  /** A journalled model commit is found again under the ticket's own key. */
  predicate JournalKept(s: Registry, t: Ticket, c: Command) {
    c.Commit? && IsModelSuccess(c.observation) ==>
      && t.attempt.Some? && (t.operation, t.attempt.value.externalKey) in s.journal
      && s.journal[(t.operation, t.attempt.value.externalKey)] == c.observation.evidence
      && SendMarked(t) && c.response.Some? && c.response.value.evidence == c.observation.evidence
      && c.response.value.attestsRoute && SchemaAllows(c.observation)
  }

  /** A commit leaves its ticket closed, and a successful model commit in one of two states. */
  predicate CommitClosed(c: Command, result: Ticket) {
    c.Commit? ==>
      && SchemaAllows(c.observation) && Closed(result.state)
      && (IsModelSuccess(c.observation) ==> result.state.SettledSuccess? || result.state.Quarantined?)
  }

  predicate RecordSound(s: Registry, key: (string, string), r: Recorded) {
    && r.ticketId in s.tickets && s.tickets[r.ticketId].operation == key.0
    && Keyed(r.command) && KeyOf(r.command) == key.1 && TicketOf(r.command) == r.ticketId
    && Later(r.result, s.tickets[r.ticketId])
    && JournalKept(s, s.tickets[r.ticketId], r.command)
    && CommitClosed(r.command, r.result)
  }

  predicate OutboxSound(s: Registry, key: (string, nat), o: Successor) {
    && key in s.suspensions && s.suspensions[key].ticketId in s.tickets
    && var t := s.tickets[s.suspensions[key].ticketId];
    && (t.operation, t.suspension) == key && ClosedByReceipt(t.state) && t.settledReceipt == Some(o.settlement)
  }

  predicate TicketsSound(s: Registry) {
    forall id :: id in s.tickets ==> s.tickets[id].id == id && TicketSound(s, s.tickets[id])
  }

  predicate CandidatesSound(s: Registry) {
    forall c :: c in s.candidates ==> CandidateSound(s, c)
  }

  predicate RecordsSound(s: Registry) {
    forall key :: key in s.recorded ==> RecordSound(s, key, s.recorded[key])
  }

  predicate OutboxesSound(s: Registry) {
    forall key :: key in s.outbox ==> OutboxSound(s, key, s.outbox[key])
  }

  predicate Sound(s: Registry) {
    TicketsSound(s) && CandidatesSound(s) && RecordsSound(s) && OutboxesSound(s)
  }

  // What only grows

  predicate TicketsLater(s: Registry, after: Registry) {
    forall id :: id in s.tickets ==> id in after.tickets && Later(s.tickets[id], after.tickets[id])
  }

  predicate RecordsKept(s: Registry, after: Registry) {
    forall key :: key in s.recorded ==> key in after.recorded && after.recorded[key] == s.recorded[key]
  }

  predicate OutboxKept(s: Registry, after: Registry) {
    forall key :: key in s.outbox ==> key in after.outbox && after.outbox[key] == s.outbox[key]
  }

  predicate JournalGrows(s: Registry, after: Registry) {
    forall key :: key in s.journal ==> key in after.journal && after.journal[key] == s.journal[key]
  }

  /** Tickets only move on, and candidate receipts, command records, outbox entries and journalled
      responses are never changed or removed. */
  predicate Advances(s: Registry, after: Registry) {
    && TicketsLater(s, after) && s.candidates <= after.candidates
    && RecordsKept(s, after) && OutboxKept(s, after) && JournalGrows(s, after)
  }

  lemma LaterComposes(t: Ticket, u: Ticket, v: Ticket)
    requires Later(t, u) && Later(u, v)
    ensures Later(t, v)
  {
  }

  lemma AdvancesComposes(a: Registry, b: Registry, c: Registry)
    requires Advances(a, b) && Advances(b, c)
    ensures Advances(a, c)
  {
    hide Later;
    forall id | id in a.tickets ensures id in c.tickets && Later(a.tickets[id], c.tickets[id]) {
      LaterComposes(a.tickets[id], b.tickets[id], c.tickets[id]);
    }
  }

  // One write

  /** How a call may change the row it is about. */
  predicate RowStep(t: Ticket, u: Ticket) {
    || u == t
    || (SameIdentity(t, u) && u.revision == t.revision + 1 && !Closed(t.state) && SendKept(t, u) && ClaimBinds(u))
  }

  predicate SuspensionStep(s: Registry, after: Registry, t: Ticket, u: Ticket) {
    var key := (t.operation, t.suspension);
    && after.suspensions.Keys == s.suspensions.Keys
    && (forall k :: k in s.suspensions && k != key ==> after.suspensions[k] == s.suspensions[k])
    && (key in s.suspensions ==>
          && after.suspensions[key].ticketId == s.suspensions[key].ticketId
          && (!s.suspensions[key].state.Waiting? ==> !after.suspensions[key].state.Waiting?)
          && (u != t && Closed(u.state) ==> !after.suspensions[key].state.Waiting?))
  }

  predicate OutboxStep(s: Registry, after: Registry, t: Ticket, u: Ticket) {
    || after.outbox == s.outbox
    || (var key := (t.operation, t.suspension);
        && u != t && ClosedByReceipt(u.state) && key !in s.outbox && key in after.outbox
        && u.settledReceipt == Some(after.outbox[key].settlement)
        && after.outbox == s.outbox[key := after.outbox[key]])
  }

  predicate CandidatesStep(s: Registry, after: Registry, u: Ticket) {
    && s.candidates <= after.candidates
    && (forall c :: c in after.candidates && c !in s.candidates ==>
                      c.ticketId == u.id && ReceiptBinds(u, c) && SchemaAllows(c.observation))
  }

  /** What a call that succeeds may change: its own row, that row's suspension, and new rows in the
      tables that only grow. */
  predicate Moved(s: Registry, after: Registry, t: Ticket, u: Ticket) {
    && t.id in s.tickets && s.tickets[t.id] == t
    && after.tickets == s.tickets[t.id := u]
    && RowStep(t, u) && Shaped(u) && KeysHold(after, u)
    && (u.attempt.Some? && u.attempt.value.sentDigest.Some? ==> u.attempt.value.sentDigest.value == u.requestDigest)
    && (u != t && ClosedByReceipt(u.state) ==> ClosedRight(after, u))
    && CandidatesStep(s, after, u)
    && SuspensionStep(s, after, t, u) && OutboxStep(s, after, t, u)
    && after.recorded == s.recorded && after.journal == s.journal
  }

  lemma RowStepIsLater(t: Ticket, u: Ticket)
    requires RowStep(t, u)
    ensures Later(t, u)
  {
  }

  lemma MovedAdvances(s: Registry, after: Registry, t: Ticket, u: Ticket)
    requires Moved(s, after, t, u)
    ensures Advances(s, after)
  {
    RowStepIsLater(t, u);
  }

  lemma OthersKeepKeys(s: Registry, after: Registry, t: Ticket, u: Ticket, v: Ticket)
    requires Moved(s, after, t, u) && v.id in s.tickets && s.tickets[v.id] == v && v.id != t.id && KeysHold(s, v)
    ensures KeysHold(after, v)
  {
    hide Shaped, SuspensionStep, OutboxStep, ClosedRight, RowStep;
    RowKeepsId(t, u);
    assert after.tickets[v.id] == v;
    forall c | c in after.candidates && c.ticketId == v.id
      ensures v.attempt.Some? && v.attempt.value.id == c.attempt
    {
      assert c in s.candidates;
    }
    if v.attempt.Some? {
      forall id | id in after.tickets && id != v.id && after.tickets[id].attempt.Some?
        ensures after.tickets[id].attempt.value.id != v.attempt.value.id
      {
        assert id != t.id ==> after.tickets[id] == s.tickets[id];
      }
    }
  }

  lemma ClosedRightGrows(s: Registry, after: Registry, t: Ticket)
    requires ClosedRight(s, t) && s.candidates <= after.candidates
    ensures ClosedRight(after, t)
  {
  }

  lemma MovedKeepsTicket(s: Registry, after: Registry, t: Ticket, u: Ticket, v: Ticket)
    requires Moved(s, after, t, u) && v.id in s.tickets && s.tickets[v.id] == v && v.id != t.id
    requires TicketSound(s, v) && TicketSound(s, t)
    ensures TicketSound(after, v)
  {
    hide Shaped, KeysHold, OutboxStep, ClosedRight, RowStep;
    OthersKeepKeys(s, after, t, u, v);
    if ClosedByReceipt(v.state) {
      ClosedRightGrows(s, after, v);
    }
    assert s.suspensions[(v.operation, v.suspension)].ticketId == v.id;
    assert s.suspensions[(t.operation, t.suspension)].ticketId == t.id;
  }

  lemma MovedKeepsOwnTicket(s: Registry, after: Registry, t: Ticket, u: Ticket)
    requires Moved(s, after, t, u) && TicketSound(s, t)
    ensures TicketSound(after, u)
  {
    hide Shaped, KeysHold, OutboxStep, ClosedRight;
    if u == t && ClosedByReceipt(t.state) {
      ClosedRightGrows(s, after, t);
    }
  }

  lemma MovedKeepsTickets(s: Registry, after: Registry, t: Ticket, u: Ticket)
    requires Moved(s, after, t, u) && TicketsSound(s)
    ensures TicketsSound(after)
  {
    hide TicketSound, RowStep, Shaped, KeysHold, OutboxStep, ClosedRight, SuspensionStep, CandidatesStep;
    RowKeepsId(t, u);
    MovedKeepsOwnTicket(s, after, t, u);
    forall id | id in after.tickets && id != t.id
      ensures after.tickets[id].id == id && TicketSound(after, after.tickets[id])
    {
      MovedKeepsTicket(s, after, t, u, s.tickets[id]);
    }
  }

  lemma RowKeepsId(t: Ticket, u: Ticket)
    requires RowStep(t, u)
    ensures u.id == t.id
  {
  }

  lemma BindingSurvives(t: Ticket, u: Ticket, c: Receipt)
    requires Later(t, u) && ReceiptBinds(t, c)
    ensures ReceiptBinds(u, c)
  {
  }

  lemma MovedKeepsCandidates(s: Registry, after: Registry, t: Ticket, u: Ticket)
    requires Moved(s, after, t, u) && CandidatesSound(s)
    ensures CandidatesSound(after)
  {
    hide ReceiptBinds, SchemaAllows, RowStep, Shaped, KeysHold, OutboxStep, ClosedRight, SuspensionStep, Later;
    RowKeepsId(t, u);
    forall c | c in after.candidates ensures CandidateSound(after, c) {
      if c in s.candidates && c.ticketId == t.id {
        RowStepIsLater(t, u);
        BindingSurvives(t, u, c);
      }
    }
  }

  lemma JournalKeptLater(s: Registry, after: Registry, t: Ticket, u: Ticket, c: Command)
    requires Later(t, u) && JournalKept(s, t, c) && JournalGrows(s, after)
    ensures JournalKept(after, u, c)
  {
  }

  /** A sound record stays sound while tickets move on and the journal grows. */
  lemma RecordSurvives(s: Registry, after: Registry, key: (string, string), r: Recorded)
    requires RecordSound(s, key, r) && TicketsLater(s, after) && JournalGrows(s, after)
    ensures RecordSound(after, key, r)
  {
    hide Later, JournalKept;
    var t, u := s.tickets[r.ticketId], after.tickets[r.ticketId];
    LaterKeepsOperation(t, u);
    LaterComposes(r.result, t, u);
    JournalKeptLater(s, after, t, u, r.command);
  }

  lemma LaterKeepsOperation(t: Ticket, u: Ticket)
    requires Later(t, u)
    ensures u.operation == t.operation && u.id == t.id
  {
  }

  lemma MovedKeepsRecords(s: Registry, after: Registry, t: Ticket, u: Ticket)
    requires Moved(s, after, t, u) && RecordsSound(s)
    ensures RecordsSound(after)
  {
    hide RecordSound, RowStep, Shaped, KeysHold, OutboxStep, ClosedRight, SuspensionStep, CandidatesStep;
    MovedAdvances(s, after, t, u);
    forall key | key in after.recorded ensures RecordSound(after, key, after.recorded[key]) {
      RecordSurvives(s, after, key, s.recorded[key]);
    }
  }

  lemma MovedKeepsOutbox(s: Registry, after: Registry, t: Ticket, u: Ticket)
    requires Moved(s, after, t, u) && OutboxesSound(s) && TicketSound(s, t)
    ensures OutboxesSound(after)
  {
    hide Shaped, KeysHold, ClosedRight, CandidatesStep, SendKept;
    forall key | key in after.outbox ensures OutboxSound(after, key, after.outbox[key]) {
      if key in s.outbox && after.outbox[key] == s.outbox[key] {
        assert OutboxSound(s, key, s.outbox[key]);
      }
    }
  }

  lemma MovedKeepsSound(s: Registry, after: Registry, t: Ticket, u: Ticket)
    requires Moved(s, after, t, u) && Sound(s)
    ensures Sound(after) && Advances(s, after)
  {
    hide Moved, TicketsSound, CandidatesSound, RecordsSound, OutboxesSound, Advances;
    MovedKeepsTickets(s, after, t, u);
    MovedKeepsCandidates(s, after, t, u);
    MovedKeepsRecords(s, after, t, u);
    MovedAdvances(s, after, t, u);
    assert TicketSound(s, t) by { MovedRowIsSound(s, after, t, u); }
    MovedKeepsOutbox(s, after, t, u);
  }

  lemma MovedRowIsSound(s: Registry, after: Registry, t: Ticket, u: Ticket)
    requires Moved(s, after, t, u) && TicketsSound(s)
    ensures TicketSound(s, t)
  {
  }
}
