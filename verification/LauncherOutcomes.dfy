/** What a launcher makes of the owner it finds, whatever others do between its looks. */
module LauncherOutcomes {
  import opened JsonValues
  import opened Launcher
  import opened LauncherLaws

  /** The version of the supervisor this launcher belongs to. */
  predicate OfThisVersion(r: Record) {
    r.version == "aar-supervisor/0.6.1a0"
  }

  /** What a launcher has read names a live process that can be observed. */
  predicate Finds(s: State, l: nat, r: Record, available: bool) {
    FoundBy(At(s, l)) == Some(r) && available && r.pid in s.alive
  }

  /** It has read nothing, or of a process that is gone. */
  predicate FindsNobody(s: State, l: nat, available: bool) {
    FoundBy(At(s, l)).None? || (available && FoundBy(At(s, l)).value.pid !in s.alive)
  }

  predicate OnlyMoves(s: State, after: State, l: nat, p: Place) {
    after == s.(places := s.places[l := p])
  }

  /** Before any spawn a live owner of this version is returned, outside the lock at once and inside it on
      release; an owner of another version, or one that cannot be observed, fails the call. */
  lemma OwnerBeforeSpawn(s: State, l: nat, r: Record, available: bool)
    requires At(s, l).FirstRead? || At(s, l).SecondRead?
    ensures var after := Next(s, Observe(l, available));
      if Finds(s, l, r, available) then
        var result := if OfThisVersion(r) then Accepted(r) else Failed;
        OnlyMoves(s, after, l, if At(s, l).FirstRead? then Finished(result) else Releasing(result))
      else if FindsNobody(s, l, available) then
        OnlyMoves(s, after, l, if At(s, l).FirstRead? then AwaitingLock else ReadyToSpawn)
      else
        FoundBy(At(s, l)) != Some(r) ||
        OnlyMoves(s, after, l, if At(s, l).FirstRead? then Finished(Failed) else Releasing(Failed))
  {
  }

  /** After a spawn a live owner of any version is accepted: at once when it is the launcher's own child, and
      otherwise once the child is reaped. Without one the polling goes on while the child lives. */
  lemma OwnerAfterSpawn(s: State, l: nat, c: nat, r: Record, available: bool)
    requires ChildOf(At(s, l)) == Some(c) && (At(s, l).PollRead? || At(s, l).FinalRead?)
    ensures var after := Next(s, Observe(l, available));
      if Finds(s, l, r, available) then
        OnlyMoves(s, after, l, if r.pid == c then Releasing(Accepted(r)) else Reaping(c, Some(r)))
      else if FindsNobody(s, l, available) then
        OnlyMoves(s, after, l, if At(s, l).PollRead? && c in s.alive then Polling(c) else Reaping(c, None))
      else
        FoundBy(At(s, l)) != Some(r) || OnlyMoves(s, after, l, Reaping(c, None))
  {
  }

  /** Reaping ends the child, and releases the lock with what was accepted before it, if anything. */
  lemma ReapingEndsTheChild(s: State, l: nat, c: nat, found: Option<Record>)
    requires At(s, l) == Reaping(c, found)
    ensures var after := Next(s, Reap(l));
      && c !in after.alive && after.alive + {c} == s.alive + {c}
      && At(after, l) == Releasing(if found.Some? then Accepted(found.value) else Failed)
    ensures At(Next(Next(s, Reap(l)), Release(l)), l) ==
            Finished(if found.Some? then Accepted(found.value) else Failed)
    ensures Next(Next(s, Reap(l)), Release(l)).lock.None?
  {
  }

  // Other launchers and supervisors in between

  predicate Concerns(step: Step, l: nat) {
    !step.Start? && !step.Publish? && !step.Die? && step.l == l
  }

  predicate Foreign(steps: seq<Step>, l: nat) {
    forall i :: 0 <= i < |steps| ==> !Concerns(steps[i], l)
  }

  lemma ForeignStep(s: State, step: Step, l: nat)
    requires !Concerns(step, l) && l in s.places
    ensures l in Next(s, step).places && At(Next(s, step), l) == At(s, l)
  {
  }

  lemma {:induction false} ForeignRun(s: State, steps: seq<Step>, l: nat)
    requires Foreign(steps, l) && l in s.places
    ensures l in Run(s, steps).places && At(Run(s, steps), l) == At(s, l)
    decreases |steps|
  {
    hide Next, At, Concerns;
    if steps != [] {
      ForeignStep(s, steps[0], l);
      assert Foreign(steps[1..], l);
      ForeignRun(Next(s, steps[0]), steps[1..], l);
    }
  }

  /** A launcher reads, the others act, and it observes what it read. */
  function Look(l: nat, between: seq<Step>): seq<Step> {
    [Read(l)] + between + [Observe(l, true)]
  }

  lemma LookUnfolds(s: State, l: nat, between: seq<Step>)
    ensures Run(s, Look(l, between)) == Next(Run(Next(s, Read(l)), between), Observe(l, true))
  {
    hide Next;
    RunAppends(s, [Read(l)] + between, [Observe(l, true)]);
    RunUnfolds(s, Read(l), between);
    RunUnfolds(Run(s, [Read(l)] + between), Observe(l, true), []);
    assert [Observe(l, true)] + [] == [Observe(l, true)];
  }

  /** A published owner of this version that lives through the look is what the launcher returns, outside the lock
      and inside it, whatever the others do meanwhile; one of another version fails the call. */
  lemma PublishedOwnerIsReturned(s: State, l: nat, r: Record, between: seq<Step>)
    requires (At(s, l).Begin? || At(s, l).Holding?) && s.published == Some(r) && Foreign(between, l)
    requires r.pid in Run(Next(s, Read(l)), between).alive
    ensures var result := if OfThisVersion(r) then Accepted(r) else Failed;
      At(Run(s, Look(l, between)), l) == if At(s, l).Begin? then Finished(result) else Releasing(result)
  {
    hide Run, Foreign, Concerns;
    LookUnfolds(s, l, between);
    ForeignRun(Next(s, Read(l)), between, l);
    OwnerBeforeSpawn(Run(Next(s, Read(l)), between), l, r, true);
  }

  /** The launcher's own child, once it has published itself, is what the launcher returns. */
  lemma OwnChildIsReturned(s: State, l: nat, c: nat, version: string, between: seq<Step>)
    requires At(s, l) == Polling(c) && s.published == Some(Record(c, version)) && Foreign(between, l)
    requires c in Run(Next(s, Read(l)), between).alive
    ensures At(Run(s, Look(l, between)), l) == Releasing(Accepted(Record(c, version)))
    ensures c in Run(s, Look(l, between)).alive
  {
    hide Run, Foreign, Concerns;
    LookUnfolds(s, l, between);
    ForeignRun(Next(s, Read(l)), between, l);
    OwnerAfterSpawn(Run(Next(s, Read(l)), between), l, c, Record(c, version), true);
  }

  /** A live supervisor may publish itself once no other publisher lives, and only then. */
  lemma PublishesItself(s: State, pid: nat, version: string)
    requires pid in s.alive
    ensures var after := Next(s, Publish(pid, version));
      if s.published.Some? && s.published.value.pid in s.alive && s.published.value.pid != pid then after == s
      else after == s.(published := Some(Record(pid, version)))
  {
  }
}
