/** The caller-work commands as src/aar/mcp/server.py serves them: what a request must show first. */
module CallerWorkEntry {
  import opened JsonValues
  import opened CallerWork

  // The host

  datatype Grant = Grant(id: string, capability: string)

  /** The request an operation was admitted under, stored with it once. */
  datatype Admission = Admission(principal: string, session: string, deadline: int, grants: seq<Grant>,
                                 budget: Budget)

  datatype Driver = Driver(adapter: string, generation: int)

  /** The runtime that serves. `drivers` has, by request digest, the published row of the method that the
      request names, where that row is a configured caller driver of the request's contract. */
  datatype Host = Host(generation: int, capabilities: string, drivers: map<string, Driver>)

  datatype Service = Service(registry: Registry, admitted: map<string, Admission>, host: Host)

  /** What the session authority answers for the grants of a request, where one is configured. */
  datatype Session = Unmanaged | Withheld | Resolved(grants: seq<string>)

  datatype Denial =
    | StaleGeneration
    | CapabilityMismatch
    | DeadlineExpired
    | UnknownOperation
    | ForeignOperation
    | NotWorkbench
    | DeadlineExtended
    | GrantDenied
    | OverBudget
    | UnknownTicket
    | AdapterNotCurrent

  const WORKBENCH := "rlm.workbench.execute"

  function GrantIds(grants: seq<Grant>): seq<string> {
    seq(|grants|, i requires 0 <= i < |grants| => grants[i].id)
  }

  predicate GrantsWorkbench(grants: seq<Grant>) {
    exists i :: 0 <= i < |grants| && grants[i].capability == WORKBENCH
  }

  predicate Within(a: Budget, b: Budget) {
    && a.wallTime <= b.wallTime && a.modelRequests <= b.modelRequests && a.inputTokens <= b.inputTokens
    && a.outputTokens <= b.outputTokens && a.childOperations <= b.childOperations
    && a.artifactBytes <= b.artifactBytes
  }

  // Checks

  /** The commands that have a tool of their own. */
  predicate Offered(c: Command) {
    c.Claim? || c.MarkSendStarted? || c.CancelBeforeSend? || c.Commit? || c.Reconcile?
  }

  /** `_validate_read_context`. */
  function ContextDenial(host: Host, context: Context, now: int): Option<Denial> {
    if context.generation != host.generation then Some(StaleGeneration)
    else if context.capabilities != host.capabilities then Some(CapabilityMismatch)
    else if now >= context.deadline then Some(DeadlineExpired)
    else None
  }

  /** `_assert_operation_binding`. */
  function OperationDenial(v: Service, context: Context, operation: string, now: int): Option<Denial> {
    var denied := ContextDenial(v.host, context, now);
    if denied.Some? then denied
    else if operation !in v.admitted then Some(UnknownOperation)
    else if v.admitted[operation].principal != context.principal || v.admitted[operation].session != context.session
    then Some(ForeignOperation)
    else None
  }

  /** The part of `_assert_workbench_operation_binding` that follows the operation binding. */
  function TermsDenial(a: Admission, context: Context, session: Session): Option<Denial> {
    if !GrantsWorkbench(a.grants) then Some(NotWorkbench)
    else if context.deadline > a.deadline then Some(DeadlineExtended)
    else if session.Withheld? || (session.Resolved? && session.grants != context.grants) then Some(GrantDenied)
    else if context.grants != GrantIds(a.grants) then Some(GrantDenied)
    else if !Within(context.budget, a.budget) then Some(OverBudget)
    else None
  }

  /** `_assert_current_claim_adapter`. */
  function AdapterDenial(v: Service, c: Command): Option<Denial>
    requires c.Claim?
  {
    if c.fences.ticketId !in v.registry.tickets then Some(UnknownTicket)
    else
      var request := v.registry.tickets[c.fences.ticketId].requestDigest;
      if request !in v.host.drivers || v.host.drivers[request] != Driver(c.adapter, c.generation)
        || c.generation != v.host.generation then Some(AdapterNotCurrent)
      else None
  }

  function EntryDenial(v: Service, c: Command, now: int, session: Session): Option<Denial>
    requires Offered(c)
  {
    var context := c.fences.context;
    var bound := OperationDenial(v, context, c.fences.operation, now);
    if bound.Some? then bound
    else
      var terms := TermsDenial(v.admitted[c.fences.operation], context, session);
      if terms.Some? then terms
      else if c.Claim? then AdapterDenial(v, c)
      else None
  }

  datatype Served = Denied(denial: Denial) | Answered(outcome: Outcome)

  /** `_run_caller_work_command`: the input is validated, the entry's checks are made, and only then is the
      repository called. */
  function Serve(v: Service, c: Command, d: Draw, session: Session): Served
    requires Offered(c)
  {
    if c.Commit? && !SchemaAllows(c.observation) then Answered(Refused(Invalid))
    else
      var denied := EntryDenial(v, c, d.now, session);
      if denied.Some? then Denied(denied.value) else Answered(Execute(v.registry, c, d))
  }
}
