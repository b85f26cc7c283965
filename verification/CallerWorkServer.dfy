/** The functions of src/aar/mcp/server.py through which caller-work commands reach the repository. */
module CallerWorkServer {
  import opened JsonValues
  import opened CallerWork
  import opened CallerWorkRepository
  import opened CallerWorkEntry
  import opened CallerWorkEntryLaws

  datatype Failure = NotAdmitted(denial: Denial) | FromRepository(error: Error)

  /** What a served request answers. */
  function AnswerOf(served: Served): Result<Ticket, Failure> {
    match served
    case Denied(denial) => Err(NotAdmitted(denial))
    case Answered(Done(_, ticket)) => Ok(ticket)
    case Answered(Refused(error)) => Err(FromRepository(error))
  }

  class Server {
    const repository: Repository
    var admitted: map<string, Admission>
    var host: Host

    constructor (repository: Repository, admitted: map<string, Admission>, host: Host)
      ensures this.repository == repository && State() == Service(repository.State(), admitted, host)
    {
      this.repository, this.admitted, this.host := repository, admitted, host;
    }

    function State(): Service
      reads this, repository
    {
      Service(repository.State(), admitted, host)
    }

    method AssertOperationBinding(context: Context, operation: string, now: int) returns (denied: Option<Denial>)
      ensures denied == OperationDenial(State(), context, operation, now)
    {
      if context.generation != host.generation {
        return Some(StaleGeneration);
      }
      if context.capabilities != host.capabilities {
        return Some(CapabilityMismatch);
      }
      if now >= context.deadline {
        return Some(DeadlineExpired);
      }
      if operation !in admitted {
        return Some(UnknownOperation);
      }
      var request := admitted[operation];
      if request.principal != context.principal || request.session != context.session {
        return Some(ForeignOperation);
      }
      return None;
    }

    method AssertWorkbenchOperationBinding(context: Context, operation: string, session: Session, now: int)
      returns (denied: Option<Denial>)
      ensures denied.None? <==>
              && operation in admitted && Confirmed(session, context)
              && Entitled(host, admitted[operation], context, now)
      ensures denied == var bound := OperationDenial(State(), context, operation, now);
                        if bound.Some? then bound else TermsDenial(admitted[operation], context, session)
    {
      denied := AssertOperationBinding(context, operation, now);
      if denied.Some? {
        return;
      }
      var request := admitted[operation];
      if !GrantsWorkbench(request.grants) {
        return Some(NotWorkbench);
      }
      if context.deadline > request.deadline {
        return Some(DeadlineExtended);
      }
      if session.Withheld? || (session.Resolved? && session.grants != context.grants) {
        return Some(GrantDenied);
      }
      if context.grants != GrantIds(request.grants) {
        return Some(GrantDenied);
      }
      if !Within(context.budget, request.budget) {
        return Some(OverBudget);
      }
    }

    method AssertCurrentClaimAdapter(c: Command) returns (denied: Option<Denial>)
      requires c.Claim?
      ensures denied == AdapterDenial(State(), c)
    {
      if c.fences.ticketId !in repository.tickets {
        return Some(UnknownTicket);
      }
      var request := repository.tickets[c.fences.ticketId].requestDigest;
      if request !in host.drivers || host.drivers[request].adapter != c.adapter
         || host.drivers[request].generation != c.generation || host.drivers[request].generation != host.generation {
        return Some(AdapterNotCurrent);
      }
      return None;
    }

    /** `getattr(host.caller_work, method_name)(document)`. */
    method Dispatch(c: Command, d: Draw) returns (r: Result<Ticket, Error>)
      requires Offered(c)
      modifies repository
      ensures Answers(old(repository.State()), Execute(old(repository.State()), c, d), repository.State(), r)
    {
      hide Execute;
      if c.Claim? {
        r := repository.ClaimTicket(c, d);
      } else if c.MarkSendStarted? {
        r := repository.MarkSendStarted(c, d);
      } else if c.CancelBeforeSend? {
        r := repository.CancelBeforeSend(c, d);
      } else if c.Commit? {
        r := repository.Commit(c, d);
      } else {
        r := repository.Reconcile(c, d);
      }
    }

    /** `_run_caller_work_command`: a denied request never reaches the repository. */
    method RunCallerWorkCommand(c: Command, d: Draw, session: Session) returns (r: Result<Ticket, Failure>)
      requires Offered(c)
      modifies repository
      ensures r == AnswerOf(Serve(old(State()), c, d, session))
      ensures State() == After(old(State()), Request(c, d, session))
      ensures old(Held(State())) ==> Held(State())
      ensures r.Ok? ==>
                && c.fences.operation in admitted && Confirmed(session, c.fences.context)
                && Entitled(host, admitted[c.fences.operation], c.fences.context, d.now)
    {
      hide Execute, SchemaAllows, Held, Entitled, Confirmed, OperationDenial, TermsDenial, AdapterDenial;
      ghost var v := State();
      AfterKeeps(v, Request(c, d, session));
      if c.Commit? && !SchemaAllows(c.observation) {
        InvalidIsRefused(v, c, d);
        return Err(FromRepository(Invalid));
      }
      var denied := AssertWorkbenchOperationBinding(c.fences.context, c.fences.operation, session, d.now);
      if denied.Some? {
        return Err(NotAdmitted(denied.value));
      }
      if c.Claim? {
        denied := AssertCurrentClaimAdapter(c);
        if denied.Some? {
          return Err(NotAdmitted(denied.value));
        }
      }
      var answer := Dispatch(c, d);
      r := if answer.Ok? then Ok(answer.value) else Err(FromRepository(answer.error));
    }
  }

  lemma AfterKeeps(v: Service, e: Event)
    ensures Held(v) ==> Held(After(v, e))
  {
    hide Held, After;
    if Held(v) {
      AfterKeepsHeld(v, e);
    }
  }

  lemma InvalidIsRefused(v: Service, c: Command, d: Draw)
    requires c.Commit? && !SchemaAllows(c.observation)
    ensures Execute(v.registry, c, d).Refused?
  {
    hide SchemaAllows, KeyedCall;
  }
}
