/** What the entry adds to the laws of caller work, over every run of requests and of everything else. */
module CallerWorkEntryLaws {
  import opened JsonValues
  import opened CallerWork
  import opened CallerWorkSteps
  import opened CallerWorkCommands
  import opened CallerWorkVerdicts
  import opened CallerWorkConstraints
  import opened CallerWorkAuthority
  import opened CallerWorkOutcomes
  import opened CallerWorkEntry
  import Laws = CallerWorkLaws

  // Runs

  /** The calls that components of the runtime make themselves: none of them claims, and a cancellation is
      made in the context its operation was admitted with. */
  predicate Internal(v: Service, c: Command) {
    Offered(c) ==> c.CancelBeforeSend? && MadeFor(v, c)
  }

  /** The command names an admitted operation, and is made for its principal and session. */
  predicate MadeFor(v: Service, c: Command)
    requires Offered(c)
  {
    && c.fences.operation in v.admitted
    && c.fences.context.principal == v.admitted[c.fences.operation].principal
    && c.fences.context.session == v.admitted[c.fences.operation].session
  }

  datatype Event =
    | Request(command: Command, draw: Draw, session: Session)
    | Inside(command: Command, draw: Draw)
    | Elsewhere(after: Registry)
    | Admit(operation: string, admission: Admission)
    | Rehost(host: Host)

  /** The call on the repository, or the writes beside it, that an event comes down to. */
  function StepOf(v: Service, e: Event): Laws.Step {
    match e
    case Request(c, d, session) =>
      if Offered(c) && Serve(v, c, d, session).Answered? then Laws.Call(c, d) else Laws.World(v.registry)
    case Inside(c, d) => if Internal(v, c) then Laws.Call(c, d) else Laws.World(v.registry)
    case Elsewhere(after) => Laws.World(after)
    case Admit(_, _) => Laws.World(v.registry)
    case Rehost(_) => Laws.World(v.registry)
  }

  /** An operation is admitted once, and a new host never has an earlier generation. */
  function After(v: Service, e: Event): Service {
    var registry := Laws.Next(v.registry, StepOf(v, e));
    match e
    case Admit(operation, admission) =>
      v.(registry := registry,
         admitted := if operation in v.admitted then v.admitted else v.admitted[operation := admission])
    case Rehost(host) =>
      v.(registry := registry, host := if v.host.generation <= host.generation then host else v.host)
    case Request(_, _, _) => v.(registry := registry)
    case Inside(_, _) => v.(registry := registry)
    case Elsewhere(_) => v.(registry := registry)
  }

  function Serving(v: Service, events: seq<Event>): Service
    decreases |events|
  {
    if events == [] then v else Serving(After(v, events[0]), events[1..])
  }

  function Steps(v: Service, events: seq<Event>): seq<Laws.Step>
    decreases |events|
  {
    if events == [] then [] else [StepOf(v, events[0])] + Steps(After(v, events[0]), events[1..])
  }

  /** Whatever is served, the tables go through a run of the repository: every law of such runs holds here. */
  lemma {:induction false} ServedRunsAreRuns(v: Service, events: seq<Event>)
    ensures Serving(v, events).registry == Laws.Run(v.registry, Steps(v, events))
    decreases |events|
  {
    hide Laws.Next, StepOf;
    if events != [] {
      var rest := Steps(After(v, events[0]), events[1..]);
      assert Steps(v, events)[0] == StepOf(v, events[0]) && Steps(v, events)[1..] == rest;
      ServedRunsAreRuns(After(v, events[0]), events[1..]);
    }
  }

  // What is written once, and what only grows

  /** `w` serves at a later time than `v`. */
  predicate Follows(v: Service, w: Service) {
    && v.host.generation <= w.host.generation
    && forall o :: o in v.admitted ==> o in w.admitted && w.admitted[o] == v.admitted[o]
  }

  lemma {:induction false} ServingFollows(v: Service, events: seq<Event>)
    ensures Follows(v, Serving(v, events))
    decreases |events|
  {
    hide Laws.Next, StepOf;
    if events != [] {
      ServingFollows(After(v, events[0]), events[1..]);
    }
  }

  // Claims

  /** A claim in `after` is one of `s`, or the one that `c` makes. */
  predicate ClaimFrom(s: Registry, after: Registry, c: Command, id: string) {
    id in after.tickets && after.tickets[id].claimant.Some? ==>
      var u := after.tickets[id];
      || (id in s.tickets && u.operation == s.tickets[id].operation && u.claimant == s.tickets[id].claimant)
      || (c.Claim? && id == TicketOf(c) && NewClaim(u, c))
  }

  predicate NewClaim(u: Ticket, c: Command)
    requires c.Claim? && u.claimant.Some?
  {
    && u.operation == c.fences.operation && u.claimant.value.principal == c.fences.context.principal
    && u.claimant.value.session == c.fences.context.session && u.claimant.value.generation == c.generation
  }

  lemma FreshClaimant(s: Registry, t: Ticket, c: Command, d: Draw)
    requires Keyed(c) && Fresh(s, t, c, d).Done?
    ensures var u := Fresh(s, t, c, d).ticket;
      && u.operation == t.operation
      && (u.claimant.Some? ==> u.claimant == t.claimant || (c.Claim? && NewClaim(u, c)))
  {
    hide KeysHold, Shaped, Project, JournalHolds, Rivals, CommitReceipt;
  }

  lemma ReplayClaims(s: Registry, t: Ticket, c: Command)
    requires Keyed(c) && (t.operation, KeyOf(c)) in s.recorded
    ensures Replayed(s, t, c).Done? ==> Replayed(s, t, c).registry == s
  {
    hide KeyOf;
  }

  lemma KeyedClaims(s: Registry, t: Ticket, c: Command, d: Draw, id: string)
    requires Sound(s) && Own(s, t) && Keyed(c) && TicketOf(c) == t.id && JournalReady(s, t, c)
    requires KeyedCall(s, t, c, d).Done?
    ensures ClaimFrom(s, KeyedCall(s, t, c, d).registry, c, id)
  {
    hide Fresh, Sound, TicketSound, SchemaAllows, KeyOf, TicketOf, Moved, WithResponse, NewClaim, SendMarked, Replayed;
    if (t.operation, KeyOf(c)) !in s.recorded {
      OwnIsSound(s, t);
      FreshMoves(s, t, c, d);
      var o := Fresh(s, t, c, d);
      Laws.MovedOnlyOwn(s, o.registry, t, o.ticket);
      FreshClaimant(s, t, c, d);
    } else {
      ReplayClaims(s, t, c);
    }
  }

  lemma ReceiptClaims(s: Registry, c: Command, d: Draw)
    requires (c.AppendCandidate? || c.AppendModelCandidate?) && Execute(s, c, d).Done?
    ensures Execute(s, c, d).registry.tickets == s.tickets && Execute(s, c, d).registry.recorded == s.recorded
  {
    hide SchemaAllows, ReceiptBinds, FenceError, KeyedCall, CommitCall, IsModelSuccess;
  }

  lemma RowClaims(s: Registry, c: Command, d: Draw)
    requires Sound(s) && (c.ReclaimExpired? || c.RequestCancel? || c.MarkOutcomeUnknown?) && Execute(s, c, d).Done?
    ensures TicketOf(c) in s.tickets
    ensures var o := Execute(s, c, d); var t := s.tickets[TicketOf(c)];
      && (o.registry == s || o.registry == s.(tickets := s.tickets[TicketOf(c) := o.ticket]))
      && o.ticket.operation == t.operation && (o.ticket.claimant.Some? ==> o.ticket.claimant == t.claimant)
  {
    hide KeysHold, Shaped, KeyedCall, CommitCall, AppendCall, AppendModelCall, Sound;
    RowsAreTheirs(s);
  }

  lemma CreateClaims(s: Registry, c: Command, d: Draw)
    requires c.CreateTicket? && Execute(s, c, d).Done?
    ensures var o := Execute(s, c, d);
      o.registry == s || (o.registry == s.(tickets := s.tickets[c.ticket.id := o.ticket]) && o.ticket.claimant.None?)
  {
    hide KeysHold, Shaped, KeyedCall, CommitCall, AppendCall, AppendModelCall;
  }

  lemma UnkeyedClaims(s: Registry, c: Command, d: Draw, id: string)
    requires Sound(s) && !Keyed(c) && Execute(s, c, d).Done?
    ensures ClaimFrom(s, Execute(s, c, d).registry, c, id)
    ensures Execute(s, c, d).registry.recorded == s.recorded
  {
    hide Sound, NewClaim, Execute, TicketOf;
    if c.CreateTicket? {
      CreateClaims(s, c, d);
    } else if c.AppendCandidate? || c.AppendModelCandidate? {
      ReceiptClaims(s, c, d);
    } else {
      RowClaims(s, c, d);
    }
  }

  lemma ClaimsComeFromClaims(s: Registry, c: Command, d: Draw, id: string)
    requires Sound(s) && Execute(s, c, d).Done?
    ensures ClaimFrom(s, Execute(s, c, d).registry, c, id)
  {
    hide Sound, KeyedCall, WithResponse, SchemaAllows, KeyOf, NewClaim;
    if Keyed(c) {
      var t := s.tickets[TicketOf(c)];
      Laws.OwnIsCurrent(s, t, TicketOf(c));
      if c.Commit? && IsModelSuccess(c.observation) {
        ResponseIsKept(s, t, c.observation, c.response);
        var mid := WithResponse(s, t, c.observation, c.response).value;
        JournallingKeepsSound(s, mid);
        KeyedClaims(mid, t, c, d, id);
      } else {
        KeyedClaims(s, t, c, d, id);
      }
    } else {
      UnkeyedClaims(s, c, d, id);
    }
  }

  // Records

  /** A record in `after` is one of `s`, or that of `c`, which then names its own operation, and if it is a
      commit the fence of a claim that stays. */
  predicate RecordFrom(s: Registry, after: Registry, c: Command, key: (string, string)) {
    key in after.recorded ==>
      || (key in s.recorded && after.recorded[key] == s.recorded[key])
      || (after.recorded[key].command == c && Recording(after, c, key, after.recorded[key].ticketId))
  }

  predicate Recording(after: Registry, c: Command, key: (string, string), id: string) {
    Offered(c) ==> c.fences.operation == key.0 && FenceKept(after, c, id)
  }

  /** A commit names the fence of a claim under which a send was marked. */
  predicate FenceKept(s: Registry, c: Command, id: string) {
    c.Commit? ==>
      && id in s.tickets && SendMarked(s.tickets[id])
      && s.tickets[id].claimant.Some? && s.tickets[id].claimant.value.fence == c.claimFence
  }

  lemma FreshNamesTheOperation(s: Registry, t: Ticket, c: Command, d: Draw)
    requires Offered(c) && Fresh(s, t, c, d).Done?
    ensures c.fences.operation == t.operation
  {
    hide FreshClaim, FreshMark, FreshCancel, FreshCommit, FreshReconcile;
  }

  lemma FreshCommitKeepsFence(s: Registry, t: Ticket, c: Command, d: Draw)
    requires TicketSound(s, t) && c.Commit? && Fresh(s, t, c, d).Done?
    ensures var u := Fresh(s, t, c, d).ticket;
      SendMarked(u) && u.claimant.Some? && u.claimant.value.fence == c.claimFence
  {
    hide KeysHold, Project, JournalHolds, Rivals, CommitReceipt, ClosedRight, FenceError;
  }

  lemma KeyedRecords(s: Registry, t: Ticket, c: Command, d: Draw, key: (string, string))
    requires Sound(s) && Own(s, t) && Keyed(c) && TicketOf(c) == t.id && JournalReady(s, t, c)
    requires KeyedCall(s, t, c, d).Done?
    ensures RecordFrom(s, KeyedCall(s, t, c, d).registry, c, key)
  {
    hide Fresh, TicketSound, SchemaAllows, KeyOf, TicketOf, Moved, WithResponse, SendMarked, TicketsSound,
      CandidatesSound, RecordsSound, OutboxesSound;
    if (t.operation, KeyOf(c)) !in s.recorded {
      OwnIsSound(s, t);
      FreshMoves(s, t, c, d);
      var o := Fresh(s, t, c, d);
      Laws.MovedOnlyOwn(s, o.registry, t, o.ticket);
      MovedRecords(s, o.registry, t, o.ticket);
      if Offered(c) {
        FreshNamesTheOperation(s, t, c, d);
      }
      if c.Commit? {
        FreshCommitKeepsFence(s, t, c, d);
      }
    }
  }

  lemma MovedRecords(s: Registry, after: Registry, t: Ticket, u: Ticket)
    requires Moved(s, after, t, u)
    ensures after.recorded == s.recorded
  {
  }

  lemma RecordsComeFromCalls(s: Registry, c: Command, d: Draw, key: (string, string))
    requires Sound(s) && Execute(s, c, d).Done?
    ensures RecordFrom(s, Execute(s, c, d).registry, c, key)
  {
    hide Sound, KeyedCall, WithResponse, SchemaAllows, KeyOf, Recording;
    if Keyed(c) {
      var t := s.tickets[TicketOf(c)];
      Laws.OwnIsCurrent(s, t, TicketOf(c));
      if c.Commit? && IsModelSuccess(c.observation) {
        ResponseIsKept(s, t, c.observation, c.response);
        var mid := WithResponse(s, t, c.observation, c.response).value;
        JournallingKeepsSound(s, mid);
        KeyedRecords(mid, t, c, d, key);
      } else {
        KeyedRecords(s, t, c, d, key);
      }
    } else {
      UnkeyedClaims(s, c, d, "");
    }
  }

  // The invariant

  /** A claim is held by the principal and session its operation was admitted for, for an adapter of this
      generation or an earlier one. */
  predicate ClaimHeld(v: Service, t: Ticket) {
    t.claimant.Some? ==>
      && t.operation in v.admitted
      && t.claimant.value.principal == v.admitted[t.operation].principal
      && t.claimant.value.session == v.admitted[t.operation].session
      && t.claimant.value.generation <= v.host.generation
  }

  /** What is on record was asked for by the operation's own principal and session, a commit under the claim
      that marked the send. */
  predicate RecordHeld(v: Service, key: (string, string), r: Recorded) {
    Offered(r.command) ==>
      && MadeFor(v, r.command) && r.command.fences.operation == key.0
      && FenceKept(v.registry, r.command, r.ticketId)
  }

  predicate ClaimsHeld(v: Service) {
    forall id :: id in v.registry.tickets ==> ClaimHeld(v, v.registry.tickets[id])
  }

  predicate RecordsHeld(v: Service) {
    forall key :: key in v.registry.recorded ==> RecordHeld(v, key, v.registry.recorded[key])
  }

  predicate Held(v: Service) {
    Sound(v.registry) && ClaimsHeld(v) && RecordsHeld(v)
  }

  lemma CallKeepsClaims(v: Service, c: Command, d: Draw)
    requires Sound(v.registry) && ClaimsHeld(v) && Execute(v.registry, c, d).Done?
    requires c.Claim? ==> MadeFor(v, c) && c.generation <= v.host.generation
    ensures ClaimsHeld(v.(registry := Execute(v.registry, c, d).registry))
  {
    hide Sound, Execute, TicketOf;
    var after := Execute(v.registry, c, d).registry;
    forall id | id in after.tickets ensures ClaimHeld(v.(registry := after), after.tickets[id]) {
      ClaimsComeFromClaims(v.registry, c, d, id);
      assert id in v.registry.tickets ==> ClaimHeld(v, v.registry.tickets[id]);
    }
  }

  lemma FenceStaysKept(s: Registry, after: Registry, c: Command, id: string)
    requires TicketsLater(s, after) && FenceKept(s, c, id)
    ensures FenceKept(after, c, id)
  {
  }

  lemma CallKeepsRecords(v: Service, c: Command, d: Draw)
    requires Sound(v.registry) && RecordsHeld(v) && Execute(v.registry, c, d).Done?
    requires Offered(c) ==> MadeFor(v, c)
    ensures RecordsHeld(v.(registry := Execute(v.registry, c, d).registry))
  {
    hide Sound, Execute, FenceKept, TicketsLater, RecordsKept, JournalGrows, OutboxKept, Offered;
    var after := Execute(v.registry, c, d).registry;
    ExecuteKeepsSound(v.registry, c, d);
    forall key | key in after.recorded ensures RecordHeld(v.(registry := after), key, after.recorded[key]) {
      RecordsComeFromCalls(v.registry, c, d, key);
      if key in v.registry.recorded && after.recorded[key] == v.registry.recorded[key] {
        var r := v.registry.recorded[key];
        assert RecordHeld(v, key, r);
        if FenceKept(v.registry, r.command, r.ticketId) {
          FenceStaysKept(v.registry, after, r.command, r.ticketId);
        }
      }
    }
  }

  lemma CallKeepsHeld(v: Service, c: Command, d: Draw)
    requires Held(v)
    requires Offered(c) ==> MadeFor(v, c) && (c.Claim? ==> c.generation <= v.host.generation)
    ensures Held(v.(registry := Laws.Next(v.registry, Laws.Call(c, d))))
  {
    hide Sound, Execute, ClaimsHeld, RecordsHeld, MadeFor, Advances;
    assert v == v.(registry := v.registry);
    if Execute(v.registry, c, d).Done? {
      ExecuteKeepsSound(v.registry, c, d);
      CallKeepsClaims(v, c, d);
      CallKeepsRecords(v, c, d);
    }
  }

  lemma AnsweredIsMadeFor(v: Service, c: Command, d: Draw, session: Session)
    requires Offered(c) && EntryDenial(v, c, d.now, session).None?
    ensures MadeFor(v, c) && (c.Claim? ==> c.generation == v.host.generation)
  {
    hide TermsDenial;
  }

  lemma InvalidIsInert(v: Service, c: Command, d: Draw)
    ensures c.Commit? && !SchemaAllows(c.observation) ==> Laws.Next(v.registry, Laws.Call(c, d)) == v.registry
  {
    hide SchemaAllows, KeyedCall;
  }

  lemma WorldKeepsHeld(v: Service, after: Registry)
    requires Held(v) && Laws.WorldStep(v.registry, after)
    ensures Held(v.(registry := after))
  {
    hide Sound, MadeFor, Advances;
    Laws.WorldKeepsSound(v.registry, after);
    var w := v.(registry := after);
    forall id | id in after.tickets ensures ClaimHeld(w, after.tickets[id]) {
      assert ClaimHeld(v, v.registry.tickets[id]);
    }
    forall key | key in after.recorded ensures RecordHeld(w, key, after.recorded[key]) {
      assert RecordHeld(v, key, v.registry.recorded[key]);
      MadeForLater(v, w, after.recorded[key].command);
    }
  }

  lemma MadeForLater(v: Service, w: Service, c: Command)
    requires Follows(v, w)
    ensures Offered(c) && MadeFor(v, c) ==> MadeFor(w, c)
  {
  }

  lemma HostKeepsHeld(v: Service, w: Service)
    requires Held(v) && Follows(v, w) && w.registry == v.registry
    ensures Held(w)
  {
    hide Sound, MadeFor;
    forall id | id in w.registry.tickets ensures ClaimHeld(w, w.registry.tickets[id]) {
      assert ClaimHeld(v, v.registry.tickets[id]);
    }
    forall key | key in w.registry.recorded ensures RecordHeld(w, key, w.registry.recorded[key]) {
      assert RecordHeld(v, key, v.registry.recorded[key]);
      MadeForLater(v, w, w.registry.recorded[key].command);
    }
  }

  lemma NothingHappens(s: Registry)
    ensures Laws.Next(s, Laws.World(s)) == s
  {
  }

  lemma AfterKeepsHeld(v: Service, e: Event)
    requires Held(v)
    ensures Held(After(v, e))
  {
    hide Held, EntryDenial, MadeFor, Laws.Next, Execute, SchemaAllows;
    NothingHappens(v.registry);
    match e
    case Request(c, d, session) =>
      if Offered(c) && Serve(v, c, d, session).Answered? {
        InvalidIsInert(v, c, d);
        if EntryDenial(v, c, d.now, session).None? {
          AnsweredIsMadeFor(v, c, d, session);
          CallKeepsHeld(v, c, d);
        }
      }
    case Inside(c, d) =>
      if Internal(v, c) {
        CallKeepsHeld(v, c, d);
      }
    case Elsewhere(after) =>
      ElsewhereKeepsHeld(v, after);
    case Admit(_, _) =>
      HostKeepsHeld(v, After(v, e));
    case Rehost(_) =>
      HostKeepsHeld(v, After(v, e));
  }

  lemma ElsewhereKeepsHeld(v: Service, after: Registry)
    requires Held(v)
    ensures Held(v.(registry := Laws.Next(v.registry, Laws.World(after))))
  {
    hide Held, Laws.WorldStep;
    assert v == v.(registry := v.registry);
    if Laws.WorldStep(v.registry, after) {
      WorldKeepsHeld(v, after);
    }
  }

  lemma {:induction false} ServingKeepsHeld(v: Service, events: seq<Event>)
    requires Held(v)
    ensures Held(Serving(v, events))
    decreases |events|
  {
    hide Held, After;
    if events != [] {
      AfterKeepsHeld(v, events[0]);
      ServingKeepsHeld(After(v, events[0]), events[1..]);
    }
  }

  lemma EmptyIsHeld(v: Service)
    requires Laws.Empty(v.registry)
    ensures Held(v)
  {
  }

  /** In every state that serving reaches from empty tables, whoever holds a claim is the principal and the
      session the ticket's operation was admitted for. */
  lemma ClaimantIsTheOperations(start: Service, events: seq<Event>, id: string)
    requires Laws.Empty(start.registry) && id in Serving(start, events).registry.tickets
    requires Serving(start, events).registry.tickets[id].claimant.Some?
    ensures var v := Serving(start, events); var t := v.registry.tickets[id];
      && t.operation in v.admitted
      && t.claimant.value.principal == v.admitted[t.operation].principal
      && t.claimant.value.session == v.admitted[t.operation].session
      && t.claimant.value.generation <= v.host.generation
  {
    hide Serving, Sound, Laws.Empty;
    EmptyIsHeld(start);
    ServingKeepsHeld(start, events);
    var v := Serving(start, events);
    assert ClaimHeld(v, v.registry.tickets[id]);
  }

  // Who may change anything

  /** The context of a request the entry lets through to an operation admitted as `a`: the admitted caller, in the
      current generation, in time, with the admitted grants, an execution grant among them, and no budget above the
      admitted one. */
  predicate Entitled(host: Host, a: Admission, context: Context, now: int) {
    && context.principal == a.principal && context.session == a.session
    && context.generation == host.generation && context.capabilities == host.capabilities
    && now < context.deadline <= a.deadline
    && (exists i :: 0 <= i < |a.grants| && a.grants[i].capability == "rlm.workbench.execute")
    && |context.grants| == |a.grants| && (forall i :: 0 <= i < |a.grants| ==> context.grants[i] == a.grants[i].id)
    && context.budget.wallTime <= a.budget.wallTime && context.budget.modelRequests <= a.budget.modelRequests
    && context.budget.inputTokens <= a.budget.inputTokens && context.budget.outputTokens <= a.budget.outputTokens
    && context.budget.childOperations <= a.budget.childOperations
    && context.budget.artifactBytes <= a.budget.artifactBytes
  }

  lemma GrantsAreTheirs(ids: seq<string>, grants: seq<Grant>)
    ensures ids == GrantIds(grants) <==> |ids| == |grants| && forall i :: 0 <= i < |grants| ==> ids[i] == grants[i].id
  {
  }

  /** The session authority, where there is one, answers for exactly the grants of the context. */
  predicate Confirmed(session: Session, context: Context) {
    session.Unmanaged? || session == Resolved(context.grants)
  }

  lemma AdmittedExactly(v: Service, c: Command, d: Draw, session: Session)
    requires Offered(c) && !c.Claim?
    ensures EntryDenial(v, c, d.now, session).None? <==>
            && c.fences.operation in v.admitted && Confirmed(session, c.fences.context)
            && Entitled(v.host, v.admitted[c.fences.operation], c.fences.context, d.now)
  {
    hide GrantIds;
    if c.fences.operation in v.admitted {
      GrantsAreTheirs(c.fences.context.grants, v.admitted[c.fences.operation].grants);
    }
  }

  lemma AnsweredIsEntitled(v: Service, c: Command, d: Draw, session: Session)
    requires Offered(c) && EntryDenial(v, c, d.now, session).None?
    ensures c.fences.operation in v.admitted
    ensures Confirmed(session, c.fences.context)
    ensures Entitled(v.host, v.admitted[c.fences.operation], c.fences.context, d.now)
  {
    hide GrantIds, AdapterDenial;
    GrantsAreTheirs(c.fences.context.grants, v.admitted[c.fences.operation].grants);
  }

  /** A call that changes anything names the operation of its ticket. */
  lemma EffectNamesTheOperation(s: Registry, c: Command, d: Draw)
    requires Sound(s) && Offered(c) && Laws.Next(s, Laws.Call(c, d)) != s
    ensures TicketOf(c) in s.tickets && s.tickets[TicketOf(c)].operation == c.fences.operation
  {
    hide Sound, Fresh, SchemaAllows, WithResponse, KeyOf;
    var t := s.tickets[TicketOf(c)];
    if (t.operation, KeyOf(c)) in s.recorded {
      if c.Commit? {
        RepeatedCommitIsInert(s, c, d);
      }
      assert false;
    } else if c.Commit? && IsModelSuccess(c.observation) {
      var mid := WithResponse(s, t, c.observation, c.response).value;
      ResponseIsKept(s, t, c.observation, c.response);
      FreshNamesTheOperation(mid, t, c, d);
    } else {
      FreshNamesTheOperation(s, t, c, d);
    }
  }

  /** A request that changes anything comes from the principal and session its ticket's operation was admitted
      for, of this generation, in time, and on no other terms than those admitted. */
  lemma OnlyTheOperationsCallerChanges(v: Service, c: Command, d: Draw, session: Session)
    requires Sound(v.registry) && After(v, Request(c, d, session)) != v
    ensures Offered(c) && TicketOf(c) in v.registry.tickets
    ensures v.registry.tickets[TicketOf(c)].operation in v.admitted
    ensures Entitled(v.host, v.admitted[v.registry.tickets[TicketOf(c)].operation], c.fences.context, d.now)
  {
    hide Sound, Entitled, EntryDenial, Execute, SchemaAllows, Offered, TicketOf, Laws.Next;
    NothingHappens(v.registry);
    InvalidIsInert(v, c, d);
    EffectNamesTheOperation(v.registry, c, d);
    AnsweredIsEntitled(v, c, d, session);
  }

  /** A request from outside the claim: another principal or session, another runtime generation, or a commit
      under a fence of another adapter generation. */
  predicate Foreign(v: Service, k: Claimant, c: Command)
    requires Offered(c)
  {
    || c.fences.context.principal != k.principal || c.fences.context.session != k.session
    || c.fences.context.generation != v.host.generation
    || (c.Commit? && c.claimFence.generation != k.generation)
  }

  /** A call that succeeds and changes nothing is answered from the record of the same command. */
  lemma QuietIsReplay(s: Registry, c: Command, d: Draw)
    requires Sound(s) && Offered(c) && Execute(s, c, d).Done? && Execute(s, c, d).registry == s
    ensures TicketOf(c) in s.tickets && (s.tickets[TicketOf(c)].operation, KeyOf(c)) in s.recorded
    ensures var r := s.recorded[(s.tickets[TicketOf(c)].operation, KeyOf(c))];
      r.ticketId == TicketOf(c) && r.command == c
  {
    hide Fresh, SchemaAllows, KeyOf, TicketOf, TicketSound, CandidatesSound, RecordsSound, OutboxesSound, WithResponse;
    var t := s.tickets[TicketOf(c)];
    if IsModelCommit(c) {
      ResponseIsKept(s, t, c.observation, c.response);
    }
  }

  /** The answer to a request is a success. */
  predicate Succeeds(v: Service, c: Command, d: Draw, session: Session)
    requires Offered(c)
  {
    Serve(v, c, d, session).Answered? && Serve(v, c, d, session).outcome.Done?
  }

  lemma ReplayIsTheClaimants(v: Service, c: Command, d: Draw, session: Session)
    requires Held(v) && Offered(c) && TicketOf(c) in v.registry.tickets
    requires v.registry.tickets[TicketOf(c)].claimant.Some?
    requires Succeeds(v, c, d, session) && After(v, Request(c, d, session)) == v
    ensures !Foreign(v, v.registry.tickets[TicketOf(c)].claimant.value, c)
  {
    hide Sound, TicketOf, KeyOf, SchemaAllows, Execute, Shaped, KeysHold, ClosedRight;
    var t := v.registry.tickets[TicketOf(c)];
    QuietIsReplay(v.registry, c, d);
    Laws.OwnIsCurrent(v.registry, t, TicketOf(c));
    OwnIsSound(v.registry, t);
    var key := (t.operation, KeyOf(c));
    assert ClaimHeld(v, t) && RecordHeld(v, key, v.registry.recorded[key]);
    AnsweredIsEntitled(v, c, d, session);
  }

  /** In every state that serving reaches from empty tables, a foreign request for a claimed ticket is rejected
      and changes nothing: neither the ticket nor any other row. */
  lemma ForeignRequestIsInert(start: Service, events: seq<Event>, c: Command, d: Draw, session: Session)
    requires Laws.Empty(start.registry) && Offered(c) && TicketOf(c) in Serving(start, events).registry.tickets
    requires var t := Serving(start, events).registry.tickets[TicketOf(c)];
      t.claimant.Some? && Foreign(Serving(start, events), t.claimant.value, c)
    ensures !Succeeds(Serving(start, events), c, d, session)
    ensures After(Serving(start, events), Request(c, d, session)) == Serving(start, events)
  {
    hide Serving, Sound, After, Laws.Empty, TicketOf, Offered, Succeeds;
    var v := Serving(start, events);
    EmptyIsHeld(start);
    ServingKeepsHeld(start, events);
    assert ClaimHeld(v, v.registry.tickets[TicketOf(c)]);
    if After(v, Request(c, d, session)) != v {
      OnlyTheOperationsCallerChanges(v, c, d, session);
      assert c.Commit?;
      RequestIsCall(v, c, d, session);
      ForeignGenerationIsInert(v.registry, c, d);
    }
    if Succeeds(v, c, d, session) {
      ReplayIsTheClaimants(v, c, d, session);
    }
  }

  lemma RequestIsCall(v: Service, c: Command, d: Draw, session: Session)
    ensures Laws.Next(v.registry, Laws.Call(c, d)) == v.registry ==> After(v, Request(c, d, session)) == v
  {
    hide Serve, Offered, Execute;
  }

  /** A restart fences for ever what was prepared before it: no later state of any run acts on a request of an
      earlier generation. */
  lemma EarlierGenerationIsFenced(v: Service, events: seq<Event>, c: Command, d: Draw, session: Session)
    requires Sound(v.registry) && Offered(c) && c.fences.context.generation < v.host.generation
    ensures !Succeeds(Serving(v, events), c, d, session)
    ensures After(Serving(v, events), Request(c, d, session)) == Serving(v, events)
  {
    hide Serving, Sound, After, Laws.Run, Steps, Offered, Advances, EntryDenial, Execute;
    ServingFollows(v, events);
    ServedRunsAreRuns(v, events);
    Laws.RunKeepsSound(v.registry, Steps(v, events));
    if EntryDenial(Serving(v, events), c, d.now, session).None? {
      AnsweredIsEntitled(Serving(v, events), c, d, session);
    }
    if After(Serving(v, events), Request(c, d, session)) != Serving(v, events) {
      OnlyTheOperationsCallerChanges(Serving(v, events), c, d, session);
    }
  }

  /** From the admitted deadline of its operation on, no request changes anything for a ticket, in any later
      state of any run. */
  lemma NothingIsServedAfterTheDeadline(v: Service, events: seq<Event>, c: Command, d: Draw, session: Session)
    requires Sound(v.registry) && Offered(c) && TicketOf(c) in v.registry.tickets
    requires v.registry.tickets[TicketOf(c)].operation in v.admitted
    requires v.admitted[v.registry.tickets[TicketOf(c)].operation].deadline <= d.now
    ensures After(Serving(v, events), Request(c, d, session)) == Serving(v, events)
  {
    hide Serving, Sound, After, Laws.Run, Steps, Offered, Advances, TicketOf;
    ServingFollows(v, events);
    ServedRunsAreRuns(v, events);
    Laws.RunKeepsSound(v.registry, Steps(v, events));
    Laws.LaterInRun(v.registry, Steps(v, events), TicketOf(c));
    if After(Serving(v, events), Request(c, d, session)) != Serving(v, events) {
      OnlyTheOperationsCallerChanges(Serving(v, events), c, d, session);
    }
  }

  /** When a served commit whose key answered nothing yet succeeds. */
  lemma ServedCommitSucceedsExactly(v: Service, c: Command, d: Draw, session: Session)
    requires Sound(v.registry) && c.Commit? && TicketOf(c) in v.registry.tickets
    requires (v.registry.tickets[TicketOf(c)].operation, KeyOf(c)) !in v.registry.recorded
    ensures var s := v.registry; var t := s.tickets[TicketOf(c)];
      Succeeds(v, c, d, session) <==>
      && t.operation in v.admitted && Entitled(v.host, v.admitted[t.operation], c.fences.context, d.now)
      && Confirmed(session, c.fences.context)
      && SchemaAllows(c.observation)
      && (IsModelSuccess(c.observation) ==> WithResponse(s, t, c.observation, c.response).Some?)
      && CommitAdmitted(s, t, c) && Lands(s, t, CommitReceipt(t, c, d.now), d.now)
  {
    hide Sound, Entitled, Confirmed, EntryDenial, Execute, SchemaAllows, KeyOf, Lands, CommitReceipt, WithResponse;
    AdmittedExactly(v, c, d, session);
    CommitSucceedsExactly(v.registry, c, d);
  }

  /** The published row for the request of the ticket names this adapter, and everything is of this generation. */
  predicate Drives(v: Service, c: Command)
    requires c.Claim?
  {
    && c.fences.ticketId in v.registry.tickets
    && v.registry.tickets[c.fences.ticketId].requestDigest in v.host.drivers
    && v.host.drivers[v.registry.tickets[c.fences.ticketId].requestDigest] == Driver(c.adapter, v.host.generation)
    && c.generation == v.host.generation
  }

  lemma ClaimAdmittedExactly(v: Service, c: Command, d: Draw, session: Session)
    requires c.Claim?
    ensures EntryDenial(v, c, d.now, session).None? <==>
            && c.fences.operation in v.admitted && Confirmed(session, c.fences.context)
            && Entitled(v.host, v.admitted[c.fences.operation], c.fences.context, d.now) && Drives(v, c)
  {
    hide GrantIds;
    if c.fences.operation in v.admitted {
      GrantsAreTheirs(c.fences.context.grants, v.admitted[c.fences.operation].grants);
    }
  }

  /** The five kinds of command there is a tool for reach the repository exactly as they are, once they are entitled and
      confirmed and a claim drives; no other kind does anything. */
  lemma EntitledRequestsReachTheRepository(v: Service, c: Command, d: Draw, session: Session)
    ensures (c.Claim? || c.MarkSendStarted? || c.CancelBeforeSend? || c.Commit? || c.Reconcile?) &&
            c.fences.operation in v.admitted && Confirmed(session, c.fences.context) &&
            Entitled(v.host, v.admitted[c.fences.operation], c.fences.context, d.now) && (c.Claim? ==> Drives(v, c)) ==>
              After(v, Request(c, d, session)) == v.(registry := Laws.Next(v.registry, Laws.Call(c, d)))
    ensures !(c.Claim? || c.MarkSendStarted? || c.CancelBeforeSend? || c.Commit? || c.Reconcile?) ==>
              After(v, Request(c, d, session)) == v
  {
    hide Entitled, Confirmed, EntryDenial, Execute, SchemaAllows, Drives, Laws.Next;
    NothingHappens(v.registry);
    if Offered(c) {
      InvalidIsInert(v, c, d);
      if c.Claim? {
        ClaimAdmittedExactly(v, c, d, session);
      } else {
        AdmittedExactly(v, c, d, session);
      }
    }
  }

  /** When a served claim whose key answered nothing yet succeeds. */
  lemma ServedClaimSucceedsExactly(v: Service, c: Command, d: Draw, session: Session)
    requires Sound(v.registry) && c.Claim? && TicketOf(c) in v.registry.tickets
    requires (v.registry.tickets[TicketOf(c)].operation, KeyOf(c)) !in v.registry.recorded
    ensures var s := v.registry; var t := s.tickets[TicketOf(c)];
      Succeeds(v, c, d, session) <==>
      && t.operation in v.admitted && Entitled(v.host, v.admitted[t.operation], c.fences.context, d.now)
      && Confirmed(session, c.fences.context) && Drives(v, c)
      && FencesAgree(s, t, c.fences) && t.state == Pending && d.now < t.deadline && NewAttempt(s, t, d)
  {
    hide Sound, Entitled, Confirmed, EntryDenial, Execute, KeyOf, NewAttempt, Drives;
    ClaimAdmittedExactly(v, c, d, session);
    ClaimSucceedsExactly(v.registry, c, d);
  }
}
