/** Every command keeps the registry sound, and only moves it forward.
    Each command is shown to be one of the moves of `CallerWorkSteps`; what it then records under
    its key, adds to the journal or projects into the other tables is shown to disturb nothing.
    `ExecuteKeepsSound` joins the commands. */
module CallerWorkCommands {
  import opened JsonValues
  import opened CallerWork
  import opened CallerWorkSteps

  predicate Own(s: Registry, t: Ticket) {
    t.id in s.tickets && s.tickets[t.id] == t
  }

  // Each command moves its own ticket

  lemma WriteMoves(s: Registry, t: Ticket, u: Ticket)
    requires Own(s, t) && Write(s, u).Done? && RowStep(t, u) && u != t
    requires u.attempt.Some? && u.attempt.value.sentDigest.Some? ==> u.attempt.value.sentDigest.value == u.requestDigest
    requires !Closed(u.state)
    ensures Moved(s, Write(s, u).registry, t, u)
  {
    hide Shaped, RowStep;
    RowKeepsId(t, u);
  }

  lemma NothingMoves(s: Registry, t: Ticket)
    requires Own(s, t) && TicketSound(s, t)
    ensures Moved(s, s, t, t)
  {
    hide Shaped, KeysHold, ClosedRight;
    assert s.tickets == s.tickets[t.id := t];
  }

  lemma ClaimMoves(s: Registry, t: Ticket, c: Command, d: Draw)
    requires Own(s, t) && TicketSound(s, t) && c.Claim? && FreshClaim(s, t, c, d).Done?
    ensures Moved(s, FreshClaim(s, t, c, d).registry, t, FreshClaim(s, t, c, d).ticket)
    ensures FreshClaim(s, t, c, d).ticket.revision == t.revision + 1
  {
    hide KeysHold, ClosedRight, Moved;
    WriteMoves(s, t, FreshClaim(s, t, c, d).ticket);
  }

  lemma MarkMoves(s: Registry, t: Ticket, c: Command, d: Draw)
    requires Own(s, t) && TicketSound(s, t) && c.MarkSendStarted? && FreshMark(s, t, c, d).Done?
    ensures Moved(s, FreshMark(s, t, c, d).registry, t, FreshMark(s, t, c, d).ticket)
    ensures FreshMark(s, t, c, d).ticket.revision == t.revision + 1
  {
    hide KeysHold, ClosedRight, Moved;
    WriteMoves(s, t, FreshMark(s, t, c, d).ticket);
  }

  lemma ReleaseMoves(s: Registry, t: Ticket)
    requires Own(s, t) && TicketSound(s, t) && t.state.SendReserved? && Write(s, Released(t)).Done?
    ensures Moved(s, Write(s, Released(t)).registry, t, Released(t))
  {
    hide KeysHold, ClosedRight, Moved;
    WriteMoves(s, t, Released(t));
  }

  lemma StepsStartEarlier(s: Registry, mid: Registry, after: Registry, t: Ticket, u: Ticket)
    requires mid.suspensions == s.suspensions && mid.outbox == s.outbox
    requires SuspensionStep(mid, after, t, u) && OutboxStep(mid, after, t, u)
    ensures SuspensionStep(s, after, t, u) && OutboxStep(s, after, t, u)
  {
  }

  lemma ProjectSettlesSuspension(s: Registry, t: Ticket, u: Ticket, at: int)
    requires Closed(u.state) && (ClosedByReceipt(u.state) ==> u.settledReceipt.Some?)
    requires Project(s, t, u.state, u.settledReceipt, at).Kept?
    ensures SuspensionStep(s, Project(s, t, u.state, u.settledReceipt, at).registry, t, u)
  {
    var after := Project(s, t, u.state, u.settledReceipt, at).registry;
    var key := (t.operation, t.suspension);
    assert after.suspensions ==
           s.suspensions[key := s.suspensions[key].(state := SuspensionAfter(u.state), settledAt := Some(at))];
  }

  lemma ProjectSteps(s: Registry, t: Ticket, u: Ticket, at: int)
    requires Closed(u.state) && (ClosedByReceipt(u.state) ==> u.settledReceipt.Some?) && u != t
    requires Project(s, t, u.state, u.settledReceipt, at).Kept?
    ensures var after := Project(s, t, u.state, u.settledReceipt, at).registry;
      && SuspensionStep(s, after, t, u) && OutboxStep(s, after, t, u)
      && after.tickets == s.tickets && after.candidates == s.candidates
      && after.recorded == s.recorded && after.journal == s.journal
  {
    hide SuspensionStep;
    ProjectSettlesSuspension(s, t, u, at);
  }

  /** Closing a ticket moves it, its suspension and its outbox entry together. `s` is the registry
      before a receipt was added for the same call. */
  lemma CloseMoves(s: Registry, mid: Registry, t: Ticket, u: Ticket, at: int)
    requires Own(s, t) && mid == s.(candidates := mid.candidates) && CandidatesStep(s, mid, u)
    requires RowStep(t, u) && u != t && Closed(u.state)
    requires ClosedByReceipt(u.state) ==> u.settledReceipt.Some? && ClosedRight(mid, u)
    requires u.attempt.Some? && u.attempt.value.sentDigest.Some? ==> u.attempt.value.sentDigest.value == u.requestDigest
    requires Close(mid, t, u, at).Done?
    ensures Close(mid, t, u, at).ticket == u
    ensures Moved(s, Close(mid, t, u, at).registry, t, u)
  {
    hide Shaped, RowStep, ReceiptBinds, SchemaAllows, Project, SuspensionStep, OutboxStep;
    RowKeepsId(t, u);
    ProjectSteps(Write(mid, u).registry, t, u, at);
    StepsStartEarlier(s, Write(mid, u).registry, Close(mid, t, u, at).registry, t, u);
    var after := Close(mid, t, u, at).registry;
    assert KeysHold(after, u);
    assert ClosedByReceipt(u.state) ==> ClosedRight(after, u);
  }

  lemma CancelMoves(s: Registry, t: Ticket, c: Command)
    requires Own(s, t) && TicketSound(s, t) && c.CancelBeforeSend? && FreshCancel(s, t, c).Done?
    ensures Moved(s, FreshCancel(s, t, c).registry, t, FreshCancel(s, t, c).ticket)
    ensures FreshCancel(s, t, c).ticket.revision == t.revision + 1
  {
    hide KeysHold, ClosedRight, Moved, Close, ReceiptBinds;
    var u := t.(revision := t.revision + 1, state := CancelledBeforeSend,
                settledReceipt := Some(c.settlement), settledAt := Some(c.settledAt));
    assert FreshCancel(s, t, c) == Close(s, t, u, c.settledAt);
    CloseMoves(s, s, t, u, c.settledAt);
  }

  lemma SettlementMoves(s: Registry, mid: Registry, t: Ticket, r: Receipt, now: int)
    requires Own(s, t) && TicketSound(s, t) && MayHaveSent(t.state)
    requires mid == s.(candidates := mid.candidates) && CandidatesStep(s, mid, t) && r in Rivals(mid, t)
    requires Settlement(mid, t, r, now).Done?
    ensures Moved(s, Settlement(mid, t, r, now).registry, t, Settlement(mid, t, r, now).ticket)
    ensures Settlement(mid, t, r, now).ticket.revision == t.revision + 1
  {
    hide KeysHold, Moved, Close;
    var u := if |Rivals(mid, t)| > 1 then Quarantining(t) else Settling(t, r, now);
    assert Settlement(mid, t, r, now) == Close(mid, t, u, now);
    assert RowStep(t, u);
    forall c | c in mid.candidates && c !in s.candidates ensures ReceiptBinds(u, c) {
      assert ReceiptBinds(t, c);
    }
    CloseMoves(s, mid, t, u, now);
  }

  lemma CommitMoves(s: Registry, t: Ticket, c: Command, d: Draw)
    requires Own(s, t) && TicketSound(s, t) && c.Commit? && SchemaAllows(c.observation) && FreshCommit(s, t, c, d).Done?
    ensures Moved(s, FreshCommit(s, t, c, d).registry, t, FreshCommit(s, t, c, d).ticket)
    ensures FreshCommit(s, t, c, d).ticket.revision == t.revision + 1
  {
    hide KeysHold, ClosedRight, Moved, Settlement, SchemaAllows;
    var r := CommitReceipt(t, c, d.now);
    var mid := s.(candidates := s.candidates + {r});
    assert ReceiptBinds(t, r);
    SettlementMoves(s, mid, t, r, d.now);
  }

  lemma CommitCloses(s: Registry, t: Ticket, c: Command, d: Draw)
    requires c.Commit? && SchemaAllows(c.observation) && FreshCommit(s, t, c, d).Done?
    ensures CommitClosed(c, FreshCommit(s, t, c, d).ticket)
  {
    hide Write, Project, FenceError, Rivals, JournalHolds;
  }

  lemma SettleMoves(s: Registry, t: Ticket, c: Command, d: Draw)
    requires Own(s, t) && TicketSound(s, t) && c.SettleCandidate? && FreshSettle(s, t, c, d).Done?
    ensures Moved(s, FreshSettle(s, t, c, d).registry, t, FreshSettle(s, t, c, d).ticket)
    ensures FreshSettle(s, t, c, d).ticket.revision == t.revision + 1
  {
    hide KeysHold, ClosedRight, Moved, Settlement, SchemaAllows;
    SettlementMoves(s, s, t, c.candidate.value.receipt, d.now);
  }

  lemma ReconcileMoves(s: Registry, t: Ticket, c: Command, d: Draw)
    requires Own(s, t) && TicketSound(s, t) && c.Reconcile? && FreshReconcile(s, t, c, d).Done?
    ensures Moved(s, FreshReconcile(s, t, c, d).registry, t, FreshReconcile(s, t, c, d).ticket)
    ensures FreshReconcile(s, t, c, d).ticket.revision == t.revision + (if c.action.Lookup? then 0 else 1)
  {
    hide KeysHold, ClosedRight, Moved, Settlement, SchemaAllows, Close;
    match c.action
    case RetryIfCertainNoSend =>
      ReleaseMoves(s, t);
    case Lookup =>
      NothingMoves(s, t);
    case Settle =>
      SettlementMoves(s, s, t, c.candidate.value.receipt, d.now);
    case Quarantine =>
      assert FreshReconcile(s, t, c, d) == Close(s, t, Quarantining(t), d.now);
      CloseMoves(s, s, t, Quarantining(t), d.now);
  }

  /** A call whose key is new and that succeeds moves its ticket, by one revision unless it looks up. */
  lemma FreshMoves(s: Registry, t: Ticket, c: Command, d: Draw)
    requires Own(s, t) && TicketSound(s, t) && Keyed(c) && Fresh(s, t, c, d).Done?
    requires c.Commit? ==> SchemaAllows(c.observation)
    ensures CommitClosed(c, Fresh(s, t, c, d).ticket)
    ensures Moved(s, Fresh(s, t, c, d).registry, t, Fresh(s, t, c, d).ticket)
    ensures Fresh(s, t, c, d).ticket.revision ==
            t.revision + (if c.Reconcile? && c.action.Lookup? then 0 else 1)
  {
    hide TicketSound, Moved, FreshClaim, FreshMark, FreshCancel, FreshCommit, FreshSettle, FreshReconcile, SchemaAllows,
      FenceError;
    if c.Claim? {
      ClaimMoves(s, t, c, d);
    } else if c.MarkSendStarted? {
      MarkMoves(s, t, c, d);
    } else if c.CancelBeforeSend? {
      CancelMoves(s, t, c);
    } else if c.Commit? {
      CommitMoves(s, t, c, d);
      CommitCloses(s, t, c, d);
    } else if c.SettleCandidate? {
      SettleMoves(s, t, c, d);
    } else {
      ReconcileMoves(s, t, c, d);
    }
  }

  lemma ReclaimMoves(s: Registry, t: Ticket, c: Command, d: Draw)
    requires Own(s, t) && TicketSound(s, t) && c.ReclaimExpired? && ReclaimCall(s, t, c, d).Done?
    ensures Moved(s, ReclaimCall(s, t, c, d).registry, t, ReclaimCall(s, t, c, d).ticket)
  {
    hide Moved, TicketSound, KeysHold;
    ReleaseMoves(s, t);
  }

  lemma RequestCancelMoves(s: Registry, t: Ticket, c: Command)
    requires Own(s, t) && TicketSound(s, t) && c.RequestCancel? && RequestCancelCall(s, t, c).Done?
    ensures Moved(s, RequestCancelCall(s, t, c).registry, t, RequestCancelCall(s, t, c).ticket)
  {
    hide Moved, KeysHold;
    WriteMoves(s, t, t.(revision := t.revision + 1, state := CancelRequested));
  }

  lemma MarkUnknownMoves(s: Registry, t: Ticket, c: Command)
    requires Own(s, t) && TicketSound(s, t) && c.MarkOutcomeUnknown? && MarkUnknownCall(s, t, c).Done?
    ensures Moved(s, MarkUnknownCall(s, t, c).registry, t, MarkUnknownCall(s, t, c).ticket)
  {
    hide Moved, KeysHold;
    if t.state.OutcomeUnknown? {
      NothingMoves(s, t);
    } else {
      WriteMoves(s, t, t.(revision := t.revision + 1, state := OutcomeUnknown));
    }
  }

  lemma AppendMoves(s: Registry, t: Ticket, r: Receipt, digest: Digest)
    requires Own(s, t) && TicketSound(s, t) && r.ticketId == t.id && AppendCall(s, t, r, digest).Done?
    ensures Moved(s, AppendCall(s, t, r, digest).registry, t, t)
  {
    hide Shaped, SchemaAllows;
    var after := AppendCall(s, t, r, digest).registry;
    assert s.tickets == s.tickets[t.id := t];
    assert KeysHold(after, t);
  }

  // Whole calls

  lemma AdvancesNowhere(s: Registry)
    ensures Advances(s, s)
  {
  }

  predicate TicketsStay(s: Registry, after: Registry) {
    forall id :: id in s.tickets ==> id in after.tickets && after.tickets[id] == s.tickets[id]
  }

  /** Rows that were sound stay so when tickets are only added and the journal only grows. */
  lemma RowsSurvive(s: Registry, after: Registry)
    requires Sound(s) && TicketsStay(s, after) && JournalGrows(s, after)
    requires after.candidates == s.candidates && after.suspensions == s.suspensions && after.outbox == s.outbox
    ensures TicketsLater(s, after) && CandidatesSound(after) && OutboxesSound(after)
    ensures forall k :: k in s.recorded ==> RecordSound(after, k, s.recorded[k])
  {
    hide Shaped, SchemaAllows, TicketOf, KeyOf, Later, ReceiptBinds, RecordSound, TicketsSound;
    forall id | id in s.tickets ensures id in after.tickets && Later(s.tickets[id], after.tickets[id]) {
      RowStepIsLater(s.tickets[id], s.tickets[id]);
    }
    forall k | k in s.recorded ensures RecordSound(after, k, s.recorded[k]) {
      RecordSurvives(s, after, k, s.recorded[k]);
    }
    forall r | r in after.candidates ensures CandidateSound(after, r) {
      assert CandidateSound(s, r);
    }
    forall k | k in after.outbox ensures OutboxSound(after, k, after.outbox[k]) {
      assert OutboxSound(s, k, s.outbox[k]);
    }
  }

  /** A key taken for the first time: the record is sound and nothing else is disturbed. */
  lemma RecordingKeepsSound(s: Registry, u: Ticket, c: Command)
    requires Sound(s) && Own(s, u) && Keyed(c) && TicketOf(c) == u.id && (u.operation, KeyOf(c)) !in s.recorded
    requires JournalKept(s, u, c) && CommitClosed(c, u)
    ensures var after := s.(recorded := s.recorded[(u.operation, KeyOf(c)) := Recorded(u.id, c, u)]);
      Sound(after) && Advances(s, after)
  {
    hide Shaped, SchemaAllows, TicketOf, KeyOf, OutboxesSound, CandidatesSound, Later;
    var key := (u.operation, KeyOf(c));
    var after := s.(recorded := s.recorded[key := Recorded(u.id, c, u)]);
    RowsSurvive(s, after);
    RowStepIsLater(u, u);
    JournalKeptLater(s, after, u, u, c);
    forall id | id in after.tickets ensures after.tickets[id].id == id && TicketSound(after, after.tickets[id]) {
      assert TicketSound(s, s.tickets[id]);
    }
  }

  lemma JournallingKeepsSound(s: Registry, after: Registry)
    requires Sound(s) && after == s.(journal := after.journal) && JournalGrows(s, after)
    ensures Sound(after) && Advances(s, after)
  {
    hide Shaped, SchemaAllows, TicketOf, KeyOf, Later, OutboxesSound, CandidatesSound, RecordSound;
    RowsSurvive(s, after);
    forall id | id in after.tickets ensures after.tickets[id].id == id && TicketSound(after, after.tickets[id]) {
      assert TicketSound(s, s.tickets[id]);
    }
  }

  /** The evidence of a model commit is journalled under the ticket's own key by the time it ends. */
  predicate JournalReady(s: Registry, t: Ticket, c: Command) {
    && (c.Commit? ==> SchemaAllows(c.observation))
    && (c.Commit? && IsModelSuccess(c.observation) ==> WithResponse(s, t, c.observation, c.response) == Some(s))
  }

  lemma JournalReadyStays(s: Registry, after: Registry, t: Ticket, u: Ticket, c: Command)
    requires JournalReady(s, t, c) && RowStep(t, u) && Shaped(t) && after.journal == s.journal
    ensures JournalKept(after, u, c)
  {
    hide SchemaAllows;
    if c.Commit? && IsModelSuccess(c.observation) {
      var key := (t.operation, t.attempt.value.externalKey);
      assert s.journal == s.journal[key := c.observation.evidence];
      assert s.journal[key := c.observation.evidence][key] == c.observation.evidence;
    }
  }

  lemma MovedRow(s: Registry, after: Registry, t: Ticket, u: Ticket)
    requires Moved(s, after, t, u)
    ensures RowStep(t, u) && Own(after, u) && after.recorded == s.recorded && after.journal == s.journal
    ensures u.id == t.id && u.operation == t.operation
  {
  }

  lemma KeyedCallKeepsSound(s: Registry, t: Ticket, c: Command, d: Draw)
    requires Sound(s) && Own(s, t) && Keyed(c) && TicketOf(c) == t.id && JournalReady(s, t, c)
    requires KeyedCall(s, t, c, d).Done?
    ensures Sound(KeyedCall(s, t, c, d).registry) && Advances(s, KeyedCall(s, t, c, d).registry)
  {
    hide Sound, Advances, Moved, Fresh, SchemaAllows, TicketSound, JournalKept, RowStep, TicketOf, KeyOf, WithResponse;
    if (t.operation, KeyOf(c)) in s.recorded {
      AdvancesNowhere(s);
    } else {
      var o := Fresh(s, t, c, d);
      OwnIsSound(s, t);
      FreshMoves(s, t, c, d);
      MovedRow(s, o.registry, t, o.ticket);
      MovedKeepsSound(s, o.registry, t, o.ticket);
      JournalReadyStays(s, o.registry, t, o.ticket, c);
      RecordingKeepsSound(o.registry, o.ticket, c);
      AdvancesComposes(s, o.registry, KeyedCall(s, t, c, d).registry);
    }
  }

  lemma OwnIsSound(s: Registry, t: Ticket)
    requires Sound(s) && Own(s, t)
    ensures TicketSound(s, t) && Shaped(t)
  {
  }

  /** Once a response is accepted, accepting it again changes nothing. */
  lemma ResponseIsKept(s: Registry, t: Ticket, o: Observation, r: Option<Response>)
    requires WithResponse(s, t, o, r).Some?
    ensures var after := WithResponse(s, t, o, r).value;
      && after == s.(journal := after.journal) && JournalGrows(s, after)
      && WithResponse(after, t, o, r) == Some(after)
  {
    var after := WithResponse(s, t, o, r).value;
    var key := (t.operation, t.attempt.value.externalKey);
    assert after.journal[key := o.evidence] == after.journal;
  }

  lemma CommitCallKeepsSound(s: Registry, t: Ticket, c: Command, d: Draw)
    requires Sound(s) && Own(s, t) && c.Commit? && TicketOf(c) == t.id && CommitCall(s, t, c, d).Done?
    ensures Sound(CommitCall(s, t, c, d).registry) && Advances(s, CommitCall(s, t, c, d).registry)
  {
    hide Sound, Advances, KeyedCall, SchemaAllows, WithResponse, TicketOf;
    if IsModelSuccess(c.observation) {
      ResponseIsKept(s, t, c.observation, c.response);
      var mid := WithResponse(s, t, c.observation, c.response).value;
      JournallingKeepsSound(s, mid);
      KeyedCallKeepsSound(mid, t, c, d);
      AdvancesComposes(s, mid, CommitCall(s, t, c, d).registry);
    } else {
      KeyedCallKeepsSound(s, t, c, d);
    }
  }

  lemma AppendKeepsSound(s: Registry, t: Ticket, r: Receipt, digest: Digest)
    requires Sound(s) && Own(s, t) && r.ticketId == t.id && AppendCall(s, t, r, digest).Done?
    ensures Sound(AppendCall(s, t, r, digest).registry) && Advances(s, AppendCall(s, t, r, digest).registry)
  {
    hide Sound, Advances, Moved, AppendCall, TicketSound;
    OwnIsSound(s, t);
    AppendMoves(s, t, r, digest);
    MovedKeepsSound(s, AppendCall(s, t, r, digest).registry, t, t);
  }

  lemma AppendModelKeepsSound(s: Registry, t: Ticket, r: Receipt, digest: Digest, e: Response)
    requires Sound(s) && Own(s, t) && r.ticketId == t.id && AppendModelCall(s, t, r, digest, e).Done?
    ensures Sound(AppendModelCall(s, t, r, digest, e).registry)
    ensures Advances(s, AppendModelCall(s, t, r, digest, e).registry)
  {
    hide Sound, Advances, AppendCall, SchemaAllows, WithResponse, ReceiptBinds;
    ResponseIsKept(s, t, r.observation, Some(e));
    var mid := WithResponse(s, t, r.observation, Some(e)).value;
    JournallingKeepsSound(s, mid);
    AppendKeepsSound(mid, t, r, digest);
    AdvancesComposes(s, mid, AppendCall(mid, t, r, digest).registry);
  }

  lemma BesideNewTicket(s: Registry, row: Ticket, v: Ticket)
    requires row.id !in s.tickets && row.attempt.None? && Own(s, v) && TicketSound(s, v)
    ensures TicketSound(s.(tickets := s.tickets[row.id := row]), v)
  {
    hide Shaped, ReceiptBinds;
    var after := s.(tickets := s.tickets[row.id := row]);
    assert KeysHold(after, v);
    assert ClosedByReceipt(v.state) ==> ClosedRight(after, v);
  }

  lemma NewTicketIsSound(s: Registry, t: Ticket)
    requires Sound(s) && t.id !in s.tickets && CreateCall(s, t).Done?
    ensures TicketsSound(CreateCall(s, t).registry)
  {
    hide Shaped, KeysHold, OutboxesSound, RecordsSound, CandidatesSound, ClosedRight;
    var row := t.(claimant := None, attempt := None);
    ShapedWithoutClaim(row);
    var after := CreateCall(s, t).registry;
    assert KeysHold(after, row) by { KeysHoldBeside(s, row); }
    forall id | id in s.tickets ensures s.tickets[id].id == id && TicketSound(after, s.tickets[id]) {
      BesideNewTicket(s, row, s.tickets[id]);
    }
  }

  lemma KeysHoldBeside(s: Registry, row: Ticket)
    requires KeysHold(s, row) && row.attempt.None?
    ensures KeysHold(s.(tickets := s.tickets[row.id := row]), row)
  {
  }

  lemma CreatedRow(s: Registry, t: Ticket)
    requires t.id !in s.tickets && CreateCall(s, t).Done?
    ensures var after := CreateCall(s, t).registry;
      after == s.(tickets := after.tickets) && TicketsStay(s, after)
  {
    hide Shaped, KeysHold;
  }

  lemma CreateKeepsSound(s: Registry, t: Ticket)
    requires Sound(s) && CreateCall(s, t).Done?
    ensures Sound(CreateCall(s, t).registry) && Advances(s, CreateCall(s, t).registry)
  {
    hide TicketOf, TicketsLater, OutboxesSound, RecordSound, CandidatesSound, TicketsSound, TicketsStay;
    var after := CreateCall(s, t).registry;
    if t.id in s.tickets {
      AdvancesNowhere(s);
    } else {
      hide CreateCall;
      CreatedRow(s, t);
      RowsSurvive(s, after);
      NewTicketIsSound(s, t);
    }
  }

  lemma ShapedWithoutClaim(t: Ticket)
    ensures Shaped(t) && t.attempt.None? ==> !ClosedByReceipt(t.state) && !t.state.Quarantined?
  {
  }

  /** Every call that succeeds keeps the registry sound and only moves it forward. */
  lemma ExecuteKeepsSound(s: Registry, c: Command, d: Draw)
    requires Sound(s) && Execute(s, c, d).Done?
    ensures Sound(Execute(s, c, d).registry) && Advances(s, Execute(s, c, d).registry)
  {
    hide Advances, KeyedCall, CommitCall, ReclaimCall, RequestCancelCall, MarkUnknownCall, AppendCall, AppendModelCall,
      CreateCall, TicketSound, Moved, CandidatesSound, OutboxesSound, RecordsSound;
    if c.CreateTicket? {
      CreateKeepsSound(s, c.ticket);
    } else {
      var t := s.tickets[TicketOf(c)];
      assert Own(s, t);
      OwnIsSound(s, t);
      var o := Execute(s, c, d);
      if c.Commit? {
        CommitCallKeepsSound(s, t, c, d);
      } else if Keyed(c) {
        KeyedCallKeepsSound(s, t, c, d);
      } else if c.ReclaimExpired? {
        ReclaimMoves(s, t, c, d);
        MovedKeepsSound(s, o.registry, t, o.ticket);
      } else if c.RequestCancel? {
        RequestCancelMoves(s, t, c);
        MovedKeepsSound(s, o.registry, t, o.ticket);
      } else if c.MarkOutcomeUnknown? {
        MarkUnknownMoves(s, t, c);
        MovedKeepsSound(s, o.registry, t, o.ticket);
      } else if c.AppendCandidate? {
        AppendKeepsSound(s, t, c.receipt, c.digest);
      } else {
        AppendModelKeepsSound(s, t, c.receipt, c.digest, c.evidence);
      }
    }
  }
}
