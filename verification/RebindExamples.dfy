/** A reachable loss of a worker whose transfer was only prepared. */
module RebindExamples {
  import opened JsonValues
  import opened Rebind
  import opened RebindLaws

  const FIRST := Fence(1, 1, "first")
  const SECOND := Fence(2, 1, "second")

  const PREDECESSOR := Authority("first", FIRST, 1, 1, "worker", "workspace", 1, 0, "cell", None)

  const START := Registry(OuterRunning, Job(PhaseAccepted, 1, 0, 100, "workspace", 1, 0), Control(1, false),
                          DispatchRunning, Some(2), Some(PREDECESSOR),
                          map["first" := Attempt(1, AttemptSuspended, None),
                              "second" := Attempt(2, AttemptRunning, Some(50))],
                          map["cell" := Cell(CellSuspended, "first", FIRST)],
                          map[0 := Suspension("ticket", Settled, Some("cell"))],
                          map["ticket" := Ticket(Some("receipt"))],
                          map[0 := Outbox("receipt", "digest", OutboxPending, 0, None, None)], map[])

  const TOKEN := Token(1, 1, 2, 1, 0, 100, "first", FIRST, "second", SECOND, "workspace", 1, 0, "cell", 0, "ticket",
                       "receipt", "digest", 1, "worker")

  const PREPARED := START.(transfers := map[TOKEN := Prepared],
                           outboxes := map[0 := Outbox("receipt", "digest", OutboxPrepared, 1, Some("second"),
                                                       Some(SECOND))])

  /** The worker of the second attempt is gone before it commits. */
  const ABANDONED := PREPARED.(outer := OuterIndeterminate,
                               attempts := map["first" := Attempt(1, AttemptSuspended, None),
                                               "second" := Attempt(2, AttemptIndeterminate, None)])

  const LOSING: seq<Step> := [PrepareStep(Caller("second", 2, SECOND, true), 10), World(ABANDONED),
                              LossStep(TOKEN, Restore("workspace", 2, 0))]

  lemma Preparing()
    ensures Next(START, LOSING[0]) == PREPARED
  {
    var c := Caller("second", 2, SECOND, true);
    assert START.outboxes.Keys == {0};
    assert PendingOutboxes(START) == {0};
    assert TokenFor(START, c, 0) == TOKEN;
    assert PrepareOn(START, c, 0, 10) == Done(PREPARED) by {
      assert START.transfers[TOKEN := Prepared] == map[TOKEN := Prepared];
      assert START.outboxes[0 := PREPARED.outboxes[0]] == PREPARED.outboxes;
    }
  }

  /** From an empty state a transfer is prepared and its worker lost: the transfer is aborted and its outbox
      consumed, and the predecessor still holds the authority. */
  lemma LossBeforeCommitIsReached()
    ensures Empty(START)
    ensures var before := Run(START, LOSING[..2]);
      TOKEN in before.transfers && before.transfers[TOKEN].Prepared?
    ensures var after := Run(START, LOSING);
      && TOKEN in after.transfers && after.transfers[TOKEN].Aborted?
      && 0 in after.outboxes && after.outboxes[0].state.OutboxConsumed?
      && after.authority == Some(PREDECESSOR)
  {
    hide Run, Next;
    Preparing();
    Abandoning();
    assert LOSING[..2] == [LOSING[0], LOSING[1]];
    RunOfTwo(START, LOSING[0], LOSING[1]);
    RunOfThree(START, LOSING[0], LOSING[1], LOSING[2]);
    Losing();
  }

  lemma Abandoning()
    ensures Next(PREPARED, LOSING[1]) == ABANDONED
  {
  }

  lemma Losing()
    ensures var after := Next(ABANDONED, LOSING[2]);
      && TOKEN in after.transfers && after.transfers[TOKEN].Aborted?
      && 0 in after.outboxes && after.outboxes[0].state.OutboxConsumed?
      && after.authority == Some(PREDECESSOR)
  {
  }

  lemma RunOfTwo(s: Registry, a: Step, b: Step)
    ensures Run(s, [a, b]) == Next(Next(s, a), b)
  {
    hide Next;
    assert [a, b][1..] == [b] && [b][1..] == [];
    assert Run(s, [a, b]) == Run(Next(s, a), [b]);
  }

  lemma RunOfThree(s: Registry, a: Step, b: Step, c: Step)
    ensures Run(s, [a, b, c]) == Next(Next(Next(s, a), b), c)
  {
    hide Next;
    assert [a, b, c][1..] == [b, c];
    assert Run(s, [a, b, c]) == Run(Next(s, a), [b, c]);
    RunOfTwo(Next(s, a), b, c);
  }
}
