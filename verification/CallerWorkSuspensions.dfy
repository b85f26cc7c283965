/** What becomes of the suspension a ticket was created for, in one call and over every run. */
module CallerWorkSuspensions {
  import opened JsonValues
  import opened CallerWork
  import opened CallerWorkSteps
  import opened CallerWorkCommands
  import opened CallerWorkLaws

  // One call

  /** A closed ticket's suspension: settled for a success or a failure, parked for a quarantine, cancelled
      otherwise, at the time of the closing. */
  predicate Ends(before: Suspension, after: Suspension, state: TicketState, at: int) {
    && after.settledAt == Some(at)
    && (after.state.Settled? <==> state == SettledSuccess || state == SettledFailure)
    && (after.state.Parked? <==> state == Quarantined)
    && (after.state.Cancelled? <==> state == CancelledBeforeSend || state == CancelledCertain)
    && after == before.(state := after.state, settledAt := after.settledAt)
  }

  /** If `t` closes as `u`, its waiting suspension ends with it; no other suspension changes, and none at all
      when `t` does not close. */
  predicate SuspensionFollows(s: Registry, after: Registry, t: Ticket, u: Ticket, at: int) {
    var key := (t.operation, t.suspension);
    if !Closed(t.state) && Closed(u.state) then
      && key in s.suspensions && s.suspensions[key].state.Waiting? && key in after.suspensions
      && Ends(s.suspensions[key], after.suspensions[key], u.state, at)
      && after.suspensions == s.suspensions[key := after.suspensions[key]]
    else after.suspensions == s.suspensions
  }

  lemma ProjectionEnds(s: Registry, t: Ticket, state: TicketState, settlement: Option<Digest>, at: int)
    requires Closed(state) && (ClosedByReceipt(state) ==> settlement.Some?)
    ensures var key := (t.operation, t.suspension);
      match Project(s, t, state, settlement, at)
      case Kept(after) =>
        && key in s.suspensions && s.suspensions[key].state.Waiting? && key in after.suspensions
        && Ends(s.suspensions[key], after.suspensions[key], state, at)
      case Lost(_) => true
  {
  }

  lemma CloseEnds(s: Registry, t: Ticket, u: Ticket, at: int)
    requires !Closed(t.state) && Closed(u.state) && (ClosedByReceipt(u.state) ==> u.settledReceipt.Some?)
    requires Close(s, t, u, at).Done?
    ensures Close(s, t, u, at).ticket == u && SuspensionFollows(s, Close(s, t, u, at).registry, t, u, at)
  {
    hide Shaped, KeysHold;
  }

  lemma SettlementEnds(s: Registry, t: Ticket, r: Receipt, now: int)
    requires t.attempt.Some? && !Closed(t.state) && Settlement(s, t, r, now).Done?
    ensures SuspensionFollows(s, Settlement(s, t, r, now).registry, t, Settlement(s, t, r, now).ticket, now)
    ensures Settlement(s, t, r, now).ticket.settledAt == Some(now) || Settlement(s, t, r, now).ticket.state.Quarantined?
  {
    hide Close, JournalHolds, Rivals, SuspensionFollows;
    if |Rivals(s, t)| > 1 {
      CloseEnds(s, t, Quarantining(t), now);
    } else {
      CloseEnds(s, t, Settling(t, r, now), now);
    }
  }

  /** When a call closes its ticket. */
  function ClosingTime(c: Command, d: Draw): int {
    if c.CancelBeforeSend? then c.settledAt else d.now
  }

  lemma FreshEnds(s: Registry, t: Ticket, c: Command, d: Draw)
    requires Keyed(c) && Fresh(s, t, c, d).Done?
    ensures var o := Fresh(s, t, c, d);
      && SuspensionFollows(s, o.registry, t, o.ticket, ClosingTime(c, d))
      && (Closed(o.ticket.state) && !o.ticket.state.Quarantined? ==> o.ticket.settledAt == Some(ClosingTime(c, d)))
  {
    hide FenceError, Close, Settlement, KeysHold, Shaped, Rivals, CommitReceipt;
    if c.Commit? {
      var r := CommitReceipt(t, c, d.now);
      SettlementEnds(s.(candidates := s.candidates + {r}), t, r, d.now);
    } else if c.SettleCandidate? {
      SettlementEnds(s, t, c.candidate.value.receipt, d.now);
    } else if c.CancelBeforeSend? {
      CloseEnds(s, t, t.(revision := t.revision + 1, state := CancelledBeforeSend,
                         settledReceipt := Some(c.settlement), settledAt := Some(c.settledAt)), c.settledAt);
    } else if c.Reconcile? && c.action.Settle? {
      SettlementEnds(s, t, c.candidate.value.receipt, d.now);
    } else if c.Reconcile? && c.action.Quarantine? {
      CloseEnds(s, t, Quarantining(t), d.now);
    }
  }

  /** The row a call is about, before and after it. */
  predicate Told(s: Registry, after: Registry, id: string, at: int) {
    && id in s.tickets && id in after.tickets
    && SuspensionFollows(s, after, s.tickets[id], after.tickets[id], at)
    && (!Closed(s.tickets[id].state) && ClosedByReceipt(after.tickets[id].state) ==>
          after.tickets[id].settledAt == Some(at))
  }

  lemma KeyedTold(s: Registry, t: Ticket, c: Command, d: Draw)
    requires Sound(s) && Own(s, t) && Keyed(c) && TicketOf(c) == t.id && JournalReady(s, t, c)
    requires KeyedCall(s, t, c, d).Done?
    ensures Told(s, KeyedCall(s, t, c, d).registry, t.id, ClosingTime(c, d))
  {
    hide Fresh, TicketSound, SchemaAllows, KeyOf, TicketOf, Moved, WithResponse, Sound, Ends;
    if (t.operation, KeyOf(c)) !in s.recorded {
      OwnIsSound(s, t);
      FreshMoves(s, t, c, d);
      FreshEnds(s, t, c, d);
      var o := Fresh(s, t, c, d);
      MovedOnlyOwn(s, o.registry, t, o.ticket);
    }
  }

  lemma UnkeyedTold(s: Registry, c: Command, d: Draw)
    requires Sound(s) && !Keyed(c) && !c.CreateTicket? && Execute(s, c, d).Done?
    ensures Told(s, Execute(s, c, d).registry, TicketOf(c), ClosingTime(c, d))
    ensures Execute(s, c, d).registry.suspensions == s.suspensions
  {
    hide KeysHold, Shaped, SchemaAllows, ReceiptBinds, KeyedCall, CommitCall, Sound, Ends, IsModelSuccess;
    OwnIsCurrent(s, s.tickets[TicketOf(c)], TicketOf(c));
  }

  /** After a call that closes its ticket the ticket's suspension is settled exactly for a success or a failure,
      parked exactly for a quarantine, and cancelled otherwise, at the time of the closing; no other suspension
      changes, and none does in a call that closes nothing. */
  lemma ClosingEndsTheSuspension(s: Registry, c: Command, d: Draw)
    requires Sound(s) && !c.CreateTicket? && Execute(s, c, d).Done?
    ensures Told(s, Execute(s, c, d).registry, TicketOf(c), ClosingTime(c, d))
  {
    hide Sound, KeyedCall, WithResponse, SchemaAllows, KeyOf, SuspensionFollows;
    if Keyed(c) {
      var t := s.tickets[TicketOf(c)];
      OwnIsCurrent(s, t, TicketOf(c));
      if c.Commit? && IsModelSuccess(c.observation) {
        ResponseIsKept(s, t, c.observation, c.response);
        var mid := WithResponse(s, t, c.observation, c.response).value;
        JournallingKeepsSound(s, mid);
        KeyedTold(mid, t, c, d);
        JournalIsNoSuspension(s, mid, KeyedCall(mid, t, c, d).registry, t.id, ClosingTime(c, d));
      } else {
        KeyedTold(s, t, c, d);
      }
    } else {
      UnkeyedTold(s, c, d);
    }
  }

  /** The same, for a registry of which only the tables are known. */
  lemma CallEnds(s: Registry, c: Command, d: Draw)
    ensures Sound(s) && !c.CreateTicket? && Execute(s, c, d).Done? ==>
              Told(s, Execute(s, c, d).registry, TicketOf(c), ClosingTime(c, d))
  {
    hide Sound, Execute, Told;
    if Sound(s) && !c.CreateTicket? && Execute(s, c, d).Done? {
      ClosingEndsTheSuspension(s, c, d);
    }
  }

  lemma JournalIsNoSuspension(s: Registry, mid: Registry, after: Registry, id: string, at: int)
    requires mid == s.(journal := mid.journal) && Told(mid, after, id, at)
    ensures Told(s, after, id, at)
  {
  }

  // Runs

  /** A ticket closed as a success or a failure has a settled suspension, and a quarantined one a parked
      suspension; the first two agree on the time. */
  predicate SuspensionAgrees(s: Registry, t: Ticket) {
    var key := (t.operation, t.suspension);
    && (t.state == SettledSuccess || t.state == SettledFailure ==>
          key in s.suspensions && s.suspensions[key].state == Settled && s.suspensions[key].settledAt == t.settledAt)
    && (t.state == Quarantined ==> key in s.suspensions && s.suspensions[key].state == Parked)
  }

  predicate SuspensionsAgree(s: Registry) {
    forall id :: id in s.tickets ==> SuspensionAgrees(s, s.tickets[id])
  }

  lemma OwnersDiffer(s: Registry, t: Ticket, u: Ticket)
    requires Sound(s) && Own(s, t) && Own(s, u) && t.id != u.id
    ensures (t.operation, t.suspension) != (u.operation, u.suspension)
  {
    hide Shaped, KeysHold, CandidatesSound, RecordsSound, OutboxesSound, ClosedRight;
    OwnIsSound(s, t);
    OwnIsSound(s, u);
  }

  lemma ToldAgrees(s: Registry, after: Registry, id: string, at: int)
    requires Told(s, after, id, at) && SuspensionAgrees(s, s.tickets[id])
    requires SameIdentity(s.tickets[id], after.tickets[id])
    requires Closed(s.tickets[id].state) ==> after.tickets[id] == s.tickets[id]
    ensures SuspensionAgrees(after, after.tickets[id])
  {
  }

  lemma OtherAgrees(s: Registry, after: Registry, id: string, other: string, at: int)
    requires Sound(s) && Told(s, after, id, at) && other in s.tickets && other != id
    requires SuspensionAgrees(s, s.tickets[other])
    ensures SuspensionAgrees(after, s.tickets[other])
  {
    hide Sound, Ends;
    OwnIsCurrent(s, s.tickets[id], id);
    OwnIsCurrent(s, s.tickets[other], other);
    OwnersDiffer(s, s.tickets[id], s.tickets[other]);
  }

  lemma CreateTouchesOne(s: Registry, c: Command, d: Draw, other: string)
    requires c.CreateTicket? && Execute(s, c, d).Done? && other != TicketOf(c)
    requires other in Execute(s, c, d).registry.tickets
    ensures other in s.tickets && Execute(s, c, d).registry.tickets[other] == s.tickets[other]
  {
    hide Shaped, KeysHold, KeyedCall, CommitCall, ReclaimCall, RequestCancelCall, MarkUnknownCall, AppendCall,
      AppendModelCall;
  }

  lemma UnkeyedTouchesOne(s: Registry, c: Command, d: Draw, other: string)
    requires Sound(s) && !Keyed(c) && !c.CreateTicket? && Execute(s, c, d).Done? && other != TicketOf(c)
    requires other in Execute(s, c, d).registry.tickets
    ensures other in s.tickets && Execute(s, c, d).registry.tickets[other] == s.tickets[other]
  {
    hide Sound, Shaped, KeysHold, KeyedCall, CommitCall, SchemaAllows, ReceiptBinds, IsModelSuccess;
    OwnIsCurrent(s, s.tickets[TicketOf(c)], TicketOf(c));
  }

  lemma CallTouchesOne(s: Registry, c: Command, d: Draw, other: string)
    requires Sound(s) && Execute(s, c, d).Done? && other != TicketOf(c) && other in Execute(s, c, d).registry.tickets
    ensures other in s.tickets && Execute(s, c, d).registry.tickets[other] == s.tickets[other]
  {
    hide Sound, KeyedCall, WithResponse, SchemaAllows, KeyOf, CreateCall;
    if c.CreateTicket? {
      hide Execute, TicketOf;
      CreateTouchesOne(s, c, d, other);
    } else if !Keyed(c) {
      hide Execute, TicketOf;
      UnkeyedTouchesOne(s, c, d, other);
    } else {
      var t := s.tickets[TicketOf(c)];
      OwnIsCurrent(s, t, TicketOf(c));
      if c.Commit? && IsModelSuccess(c.observation) {
        ResponseIsKept(s, t, c.observation, c.response);
        var mid := WithResponse(s, t, c.observation, c.response).value;
        JournallingKeepsSound(s, mid);
        KeyedCallMarks(mid, t, c, d);
      } else {
        KeyedCallMarks(s, t, c, d);
      }
    }
  }

  lemma CreatedAgrees(s: Registry, t: Ticket)
    requires SuspensionsAgree(s) && CreateCall(s, t).Done?
    ensures SuspensionsAgree(CreateCall(s, t).registry)
  {
    hide KeysHold;
  }

  lemma CallKeepsAgreement(s: Registry, c: Command, d: Draw)
    requires Sound(s) && SuspensionsAgree(s) && Execute(s, c, d).Done?
    ensures SuspensionsAgree(Execute(s, c, d).registry)
  {
    hide Sound, Execute, SuspensionAgrees, Told, TicketOf;
    var after := Execute(s, c, d).registry;
    if c.CreateTicket? {
      ExecutesCreate(s, c, d);
      CreatedAgrees(s, c.ticket);
    } else {
      ClosingEndsTheSuspension(s, c, d);
      ExecuteKeepsSound(s, c, d);
      forall id | id in after.tickets ensures SuspensionAgrees(after, after.tickets[id]) {
        if id == TicketOf(c) {
          AdvancedTicket(s, after, id, ClosingTime(c, d));
          ToldAgrees(s, after, id, ClosingTime(c, d));
        } else {
          CallTouchesOne(s, c, d, id);
          OtherAgrees(s, after, TicketOf(c), id, ClosingTime(c, d));
        }
      }
    }
  }

  lemma ExecutesCreate(s: Registry, c: Command, d: Draw)
    requires c.CreateTicket?
    ensures Execute(s, c, d) == CreateCall(s, c.ticket)
  {
  }

  lemma AdvancedTicket(s: Registry, after: Registry, id: string, at: int)
    requires Advances(s, after) && Told(s, after, id, at)
    ensures id in s.tickets && id in after.tickets && SameIdentity(s.tickets[id], after.tickets[id])
    ensures Closed(s.tickets[id].state) ==> after.tickets[id] == s.tickets[id]
  {
  }

  lemma WorldKeepsAgreement(s: Registry, after: Registry)
    requires SuspensionsAgree(s) && WorldStep(s, after)
    ensures SuspensionsAgree(after)
  {
    forall id | id in after.tickets ensures SuspensionAgrees(after, after.tickets[id]) {
      assert SuspensionAgrees(s, s.tickets[id]);
    }
  }

  lemma {:induction false} RunKeepsAgreement(s: Registry, steps: seq<Step>)
    requires Sound(s) && SuspensionsAgree(s)
    ensures SuspensionsAgree(Run(s, steps))
    decreases |steps|
  {
    hide Sound, SuspensionsAgree, Execute, WorldStep, Advances;
    if steps != [] {
      NextKeepsSound(s, steps[0]);
      match steps[0] {
        case Call(c, d) =>
          if Execute(s, c, d).Done? {
            CallKeepsAgreement(s, c, d);
          }
        case World(after) =>
          if WorldStep(s, after) {
            WorldKeepsAgreement(s, after);
          }
      }
      RunKeepsAgreement(Next(s, steps[0]), steps[1..]);
    }
  }

  /** In every registry a run reaches, a ticket closed as a success or a failure has a settled suspension, with
      the ticket's own time, and a quarantined ticket a parked one. */
  lemma ClosedTicketsEndTheirSuspensions(start: Registry, steps: seq<Step>, id: string)
    requires Empty(start) && id in Run(start, steps).tickets
    ensures var s := Run(start, steps); var t := s.tickets[id]; var key := (t.operation, t.suspension);
      && key in s.suspensions
      && (t.state == SettledSuccess || t.state == SettledFailure ==>
            s.suspensions[key].state == Settled && s.suspensions[key].settledAt == t.settledAt)
      && (t.state == Quarantined ==> s.suspensions[key].state == Parked)
  {
    hide Run, Shaped, KeysHold, CandidatesSound, RecordsSound, OutboxesSound, ClosedRight;
    EmptyIsSound(start);
    RunKeepsAgreement(start, steps);
    RunsStaySound(start, steps);
    var s := Run(start, steps);
    assert SuspensionAgrees(s, s.tickets[id]) && TicketSound(s, s.tickets[id]);
  }
}
