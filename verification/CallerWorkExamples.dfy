/** Reachable registries and services: where caller work departs from what is asked of it, and where the entry
    keeps it from doing so. */
module CallerWorkExamples {
  import opened JsonValues
  import opened CallerWork
  import opened CallerWorkSteps
  import opened CallerWorkCommands
  import opened CallerWorkLaws
  import opened CallerWorkVerdicts
  import opened CallerWorkConstraints
  import opened CallerWorkAuthority
  import opened CallerWorkEntry
  import opened CallerWorkEntryLaws

  // One ticket, created, claimed and marked from empty tables

  const BUDGET := Budget(1000, 1, 0, 0, 0, 0)

  const OWNER := Context("owner", "session", 7, "capabilities", 100, ["grant"], BUDGET, "")
  const STRANGER := OWNER.(principal := "stranger", session := "elsewhere")

  const KEY: (string, nat) := ("op", 0)

  const START := Registry(map[], {}, map[], map[KEY := Suspension("t", "request", 1, Waiting, None)],
                          map["op" := OperationAccepted], map["op" := Control(1, false)],
                          map["op" := Job(WaitingExternal, 1, 0, false, 100)], map[], map[])

  function FencesAt(context: Context, revision: nat, key: string): Fences {
    Fences(context, "t", revision, "digest", "op", 1, 0, 0, 100, key)
  }

  const OPENED := Ticket("t", "op", 0, 1, "digest", "request", 100, Pending, None, None, None, None)

  const CLAIMS := Claim(FencesAt(OWNER, 1, "claiming"), "adapter", 7, 50)

  const CLAIM_FENCE := Fence("t", 2, "claim", "attempt", "adapter", 7)

  const CLAIMED := OPENED.(revision := 2, state := SendReserved,
                           claimant := Some(Claimant("owner", "session", "adapter", 7, "claim", CLAIM_FENCE, 60)),
                           attempt := Some(Attempt("attempt", CallerKey("digest"), false, false, None,
                                                   None, None, None)))

  const MARKS := MarkSendStarted(FencesAt(OWNER, 2, "marking"), "claim", CLAIM_FENCE, "attempt", 60,
                                 CallerKey("digest"), "request", false, false)

  const SENT := CLAIMED.(revision := 3, state := SendStarted,
                         attempt := Some(Attempt("attempt", CallerKey("digest"), false, false, Some(20),
                                                 Some("request"), None, None)))

  const OPENING: seq<Step> := [Call(CreateTicket(OPENED), Draw(5, "", "")), Call(CLAIMS, Draw(10, "claim", "attempt")),
                               Call(MARKS, Draw(20, "", ""))]

  const REACHED := START.(tickets := map["t" := SENT],
                          recorded := map[("op", "claiming") := Recorded("t", CLAIMS, CLAIMED),
                                          ("op", "marking") := Recorded("t", MARKS, SENT)])

  /** A commit under the row's own claim. */
  function Committing(context: Context, sentAt: Option<int>, o: Observation, response: Option<Response>): Command {
    Commit(FencesAt(context, 3, "committing"), "claim", CLAIM_FENCE, "attempt", "request", sentAt, None, o, response)
  }

  const SUCCESS := Observation(Evidence, Succeeded, "evidence")

  lemma Creating()
    ensures Execute(START, CreateTicket(OPENED), Draw(5, "", "")) == Done(START.(tickets := map["t" := OPENED]), OPENED)
  {
    assert START.tickets["t" := OPENED] == map["t" := OPENED];
  }

  lemma Claiming(s: Registry)
    requires s == START.(tickets := map["t" := OPENED])
    ensures Execute(s, CLAIMS, Draw(10, "claim", "attempt")) ==
            Done(START.(tickets := map["t" := CLAIMED],
                        recorded := map[("op", "claiming") := Recorded("t", CLAIMS, CLAIMED)]), CLAIMED)
  {
    hide CallerKey;
    assert s.tickets["t" := CLAIMED] == map["t" := CLAIMED];
    assert s.recorded[("op", "claiming") := Recorded("t", CLAIMS, CLAIMED)] ==
           map[("op", "claiming") := Recorded("t", CLAIMS, CLAIMED)];
  }

  lemma Marking(s: Registry)
    requires s == START.(tickets := map["t" := CLAIMED],
                         recorded := map[("op", "claiming") := Recorded("t", CLAIMS, CLAIMED)])
    ensures Execute(s, MARKS, Draw(20, "", "")) == Done(REACHED, SENT)
  {
    hide CallerKey;
    assert s.tickets["t" := SENT] == map["t" := SENT];
    assert s.recorded[("op", "marking") := Recorded("t", MARKS, SENT)] == REACHED.recorded;
  }

  lemma RunOfNone(s: Registry)
    ensures Run(s, []) == s
  {
  }

  lemma RunOfThree(s: Registry, a: Step, b: Step, c: Step)
    ensures Run(s, [a, b, c]) == Next(Next(Next(s, a), b), c)
  {
    hide Next;
    assert [a, b, c][1..] == [b, c] && [b, c][1..] == [c] && [c][1..] == [];
    assert Run(s, [a, b, c]) == Run(Next(s, a), [b, c]);
    assert Run(Next(s, a), [b, c]) == Run(Next(Next(s, a), b), [c]);
  }

  lemma OpeningReaches()
    ensures Empty(START) && Run(START, OPENING) == REACHED && Sound(REACHED)
  {
    hide Sound, Run, Execute;
    RunOfThree(START, OPENING[0], OPENING[1], OPENING[2]);
    Creating();
    var created := START.(tickets := map["t" := OPENED]);
    Claiming(created);
    Marking(Next(created, OPENING[1]));
    RunsStaySound(START, OPENING);
  }

  // What happens there

  lemma FreshAnswers(s: Registry, c: Command, d: Draw)
    requires c.Commit? && c.fences.key == "committing" && TicketOf(c) == "t" && !IsModelSuccess(c.observation)
    requires s.recorded == REACHED.recorded && s.tickets == REACHED.tickets && Execute(s, c, d).Done?
    ensures Fresh(s, SENT, c, d).Done? && Fresh(s, SENT, c, d).ticket == Execute(s, c, d).ticket
  {
    hide Fresh, SchemaAllows;
  }

  /** Any report the schema knows, committed under the row's own claim with a time of sending, lands. */
  lemma TimedCommitLands(context: Context, o: Observation)
    requires SchemaAllows(o) && !IsModelSuccess(o)
    ensures var c := Committing(context, Some(30), o, None); var d := Draw(40, "", "");
      && Execute(REACHED, c, d).Done?
      && Execute(REACHED, c, d).ticket.state == if o.report.Succeeded? then SettledSuccess else SettledFailure
  {
    hide Sound, Run, Execute, SchemaAllows;
    OpeningReaches();
    var c, d := Committing(context, Some(30), o, None), Draw(40, "", "");
    assert Rivals(REACHED, SENT) == {};
    CommitSucceedsExactly(REACHED, c, d);
    FreshAnswers(REACHED, c, d);
    ClosingVerdict(REACHED, SENT, c, d);
  }

  /** A child that is certainly cancelled settles as a failure. */
  lemma CertainCancellationSettlesAsFailure()
    ensures Empty(START)
    ensures var c := Committing(OWNER, Some(30), Observation(Subagent, ReportedCancelled, "evidence"), None);
      var o := Execute(Run(START, OPENING), c, Draw(40, "", ""));
      o.Done? && o.ticket.state.SettledFailure?
  {
    OpeningReaches();
    TimedCommitLands(OWNER, Observation(Subagent, ReportedCancelled, "evidence"));
  }

  /** A success without a time of sending is refused by the tables' own constraints. */
  lemma UntimedSuccessIsRefused()
    ensures Empty(START)
    ensures Execute(Run(START, OPENING), Committing(OWNER, None, SUCCESS, None), Draw(40, "", "")) == Refused(Integrity)
  {
    hide Sound, Run, Execute;
    OpeningReaches();
    assert Rivals(REACHED, SENT) == {};
    ConstraintsFireExactly(REACHED, Committing(OWNER, None, SUCCESS, None), Draw(40, "", ""));
  }

  // A replay that is refused

  const RIVAL := Receipt("t", "digest", "attempt", "request", Some(30), None, SUCCESS, "owner", "session", "adapter",
                         7, 35, OtherSignature("late"))

  const RIVALLED := REACHED.(candidates := {RIVAL})

  const MODEL_COMMIT := Committing(OWNER, Some(30), Observation(Model, Succeeded, "evidence"),
                                   Some(Response("evidence", true)))

  const KEEPING := Call(AppendCandidate(RIVAL, OfReceipt(RIVAL)), Draw(35, "", ""))

  lemma Keeping()
    ensures Next(REACHED, KEEPING) == RIVALLED
  {
    assert REACHED.candidates + {RIVAL} == {RIVAL};
  }

  lemma RivalledIsSound()
    ensures Sound(RIVALLED)
  {
    hide Sound, Next, Run, Advances;
    OpeningReaches();
    Keeping();
    NextKeepsSound(REACHED, KEEPING);
  }

  lemma RunOfFour(s: Registry, steps: seq<Step>, last: Step)
    requires |steps| == 3
    ensures Run(s, steps + [last]) == Next(Run(s, steps), last)
  {
    hide Next;
    assert steps == [steps[0], steps[1], steps[2]];
    RunOfThree(s, steps[0], steps[1], steps[2]);
    assert (steps + [last])[1..] == [steps[1], steps[2], last];
    RunOfThree(Next(s, steps[0]), steps[1], steps[2], last);
  }

  lemma ModelAnswers(s: Registry, c: Command, d: Draw)
    requires c.Commit? && TicketOf(c) in s.tickets && IsModelSuccess(c.observation) && Execute(s, c, d).Done?
    requires var t := s.tickets[TicketOf(c)]; (t.operation, KeyOf(c)) !in s.recorded
    ensures var t := s.tickets[TicketOf(c)]; var mid := WithResponse(s, t, c.observation, c.response);
      && mid.Some? && Fresh(mid.value, t, c, d).Done?
      && Fresh(mid.value, t, c, d).ticket == Execute(s, c, d).ticket
  {
    hide Fresh, KeyOf;
  }

  lemma ModelResponseIsKept()
    ensures var mid := WithResponse(RIVALLED, SENT, MODEL_COMMIT.observation, MODEL_COMMIT.response);
      mid.Some? && Sound(mid.value) && mid.value == RIVALLED.(journal := mid.value.journal)
  {
    hide Sound, Advances, CallerKey;
    RivalledIsSound();
    ResponseIsKept(RIVALLED, SENT, MODEL_COMMIT.observation, MODEL_COMMIT.response);
    var mid := WithResponse(RIVALLED, SENT, MODEL_COMMIT.observation, MODEL_COMMIT.response).value;
    JournallingKeepsSound(RIVALLED, mid);
  }

  lemma ModelCommitSucceeds()
    ensures Execute(RIVALLED, MODEL_COMMIT, Draw(40, "", "")).Done?
  {
    hide Sound, Execute, WithResponse, CallerKey;
    RivalledIsSound();
    ModelResponseIsKept();
    assert RIVAL in Rivals(RIVALLED, SENT);
    CommitSucceedsExactly(RIVALLED, MODEL_COMMIT, Draw(40, "", ""));
  }

  lemma ModelCommitQuarantines()
    ensures var o := Execute(RIVALLED, MODEL_COMMIT, Draw(40, "", "")); o.Done? && o.ticket.state.Quarantined?
  {
    hide Sound, Execute, WithResponse, CallerKey, Fresh;
    var c, d := MODEL_COMMIT, Draw(40, "", "");
    ModelResponseIsKept();
    ModelCommitSucceeds();
    ModelAnswers(RIVALLED, c, d);
    var mid := WithResponse(RIVALLED, SENT, c.observation, c.response).value;
    ClosingVerdict(mid, SENT, c, d);
    var r := Forwarded(SENT, c, 40).value;
    assert RIVAL in Rivals(WithForwarded(mid, c, r), SENT) && r in Rivals(WithForwarded(mid, c, r), SENT);
    assert r.observation != RIVAL.observation;
  }

  /** Once another receipt of the attempt is kept, the commit of a model success quarantines the ticket, and its
      replay is refused. */
  lemma ReplayOfQuarantinedIsRefused()
    ensures var s := Run(START, OPENING + [KEEPING]); var d := Draw(40, "", "");
      && Empty(START) && Execute(s, MODEL_COMMIT, d).Done? && Execute(s, MODEL_COMMIT, d).ticket.state.Quarantined?
      && Execute(Execute(s, MODEL_COMMIT, d).registry, MODEL_COMMIT, d) == Refused(Conflict)
  {
    hide Sound, Run, Next, Execute;
    OpeningReaches();
    RunOfFour(START, OPENING, KEEPING);
    Keeping();
    RivalledIsSound();
    ModelCommitQuarantines();
    var first := Execute(RIVALLED, MODEL_COMMIT, Draw(40, "", ""));
    ReplayGivesTheFirstAnswer(RIVALLED, MODEL_COMMIT, Draw(40, "", ""), [], Draw(40, "", ""));
    RunOfNone(first.registry);
  }

  // The same ticket, served

  const SERVICE := Service(START, map["op" := Admission("owner", "session", 100, [Grant("grant", WORKBENCH)], BUDGET)],
                           Host(7, "capabilities", map["request" := Driver("adapter", 7)]))

  const REQUESTS: seq<Event> := [Inside(CreateTicket(OPENED), Draw(5, "", "")),
                                 Request(CLAIMS, Draw(10, "claim", "attempt"), Unmanaged),
                                 Request(MARKS, Draw(20, "", ""), Unmanaged)]

  lemma OwnerIsLetThrough(registry: Registry, c: Command, now: int)
    requires Offered(c) && c.fences.context == OWNER && c.fences.operation == "op" && now < 100
    requires c.Claim? ==> c == CLAIMS && "t" in registry.tickets && registry.tickets["t"].requestDigest == "request"
    ensures EntryDenial(SERVICE.(registry := registry), c, now, Unmanaged).None?
  {
    assert SERVICE.admitted["op"].grants[0].capability == WORKBENCH;
    assert GrantIds(SERVICE.admitted["op"].grants) == ["grant"];
  }

  lemma ServedStep(v: Service, c: Command, d: Draw, after: Registry, t: Ticket)
    requires Offered(c) && EntryDenial(v, c, d.now, Unmanaged).None? && !c.Commit?
    requires Execute(v.registry, c, d) == Done(after, t)
    ensures After(v, Request(c, d, Unmanaged)) == v.(registry := after)
  {
    hide Execute, EntryDenial;
  }

  lemma RequestsReach()
    ensures Serving(SERVICE, REQUESTS) == SERVICE.(registry := REACHED)
  {
    hide Execute, EntryDenial, After, Serving, CallerKey;
    var created := START.(tickets := map["t" := OPENED]);
    var claimed := START.(tickets := map["t" := CLAIMED],
                          recorded := map[("op", "claiming") := Recorded("t", CLAIMS, CLAIMED)]);
    Creating();
    Claiming(created);
    Marking(claimed);
    CreatedInside();
    OwnerIsLetThrough(created, CLAIMS, 10);
    ServedStep(SERVICE.(registry := created), CLAIMS, Draw(10, "claim", "attempt"), claimed, CLAIMED);
    OwnerIsLetThrough(claimed, MARKS, 20);
    ServedStep(SERVICE.(registry := claimed), MARKS, Draw(20, "", ""), REACHED, SENT);
    ServingThree(SERVICE, REQUESTS[0], REQUESTS[1], REQUESTS[2]);
  }

  lemma CreatedInside()
    ensures After(SERVICE, REQUESTS[0]) == SERVICE.(registry := START.(tickets := map["t" := OPENED]))
  {
    hide Execute;
    Creating();
  }

  lemma ServingThree(v: Service, a: Event, b: Event, c: Event)
    ensures Serving(v, [a, b, c]) == After(After(After(v, a), b), c)
  {
    hide After;
    assert [a, b, c][1..] == [b, c] && [b, c][1..] == [c] && [c][1..] == [];
    assert Serving(v, [a, b, c]) == Serving(After(v, a), [b, c]);
    assert Serving(After(v, a), [b, c]) == Serving(After(After(v, a), b), [c]);
  }

  /** In a service that three events reach, the owner's commit succeeds, and a stranger's is denied by the entry
      although the repository would settle the ticket by it. */
  lemma TheEntryStopsTheStranger()
    ensures var v := Serving(SERVICE, REQUESTS); var d := Draw(40, "", "");
      var own, foreign := Committing(OWNER, Some(30), SUCCESS, None), Committing(STRANGER, Some(30), SUCCESS, None);
      && Empty(SERVICE.registry) && Succeeds(v, own, d, Unmanaged)
      && "t" in v.registry.tickets && v.registry.tickets["t"].claimant.Some?
      && foreign.fences.context.principal != v.registry.tickets["t"].claimant.value.principal
      && foreign.fences.context.session != v.registry.tickets["t"].claimant.value.session
      && Execute(v.registry, foreign, d).Done? && Execute(v.registry, foreign, d).ticket.state.SettledSuccess?
      && Serve(v, foreign, d, Unmanaged) == Denied(ForeignOperation)
  {
    hide Execute, EntryDenial, Serving, Run;
    RequestsReach();
    OpeningReaches();
    TimedCommitLands(OWNER, SUCCESS);
    TimedCommitLands(STRANGER, SUCCESS);
    OwnerIsLetThrough(REACHED, Committing(OWNER, Some(30), SUCCESS, None), 40);
    StrangerIsDenied();
  }

  lemma StrangerIsDenied()
    ensures EntryDenial(SERVICE.(registry := REACHED), Committing(STRANGER, Some(30), SUCCESS, None), 40, Unmanaged) ==
            Some(ForeignOperation)
  {
  }
}
