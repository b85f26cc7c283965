/** What single-owner startup promises under any interleaving, and exactly when it does not. */
module LauncherLaws {
  import opened JsonValues
  import opened Launcher

  // The invariant

  predicate LockAgrees(s: State, l: nat) {
    HoldsLock(At(s, l)) <==> s.lock == Some(l)
  }

  /** What a launcher read still stands: if the process it names lives, it is still the publisher. */
  predicate ReadStands(s: State, l: nat) {
    var found := FoundBy(At(s, l));
    found.Some? ==>
      && found.value.pid in s.used
      && (found.value.pid in s.alive ==> s.published.Some? && s.published.value.pid == found.value.pid)
  }

  predicate ChildKnown(s: State, l: nat) {
    ChildOf(At(s, l)).Some? ==> ChildOf(At(s, l)).value in s.spawned
  }

  predicate PlaceSound(s: State, l: nat) {
    LockAgrees(s, l) && ReadStands(s, l) && ChildKnown(s, l)
  }

  predicate ProcessesKnown(s: State) {
    && s.alive <= s.used && s.spawned <= s.used
    && (s.published.Some? ==> s.published.value.pid in s.used)
  }

  ghost predicate Sound(s: State) {
    ProcessesKnown(s) && forall l: nat :: PlaceSound(s, l)
  }

  /** A launcher that moves from one place to another disturbs no other launcher. */
  lemma MoveKeepsSound(s: State, l: nat, p: Place)
    requires Sound(s) && (HoldsLock(p) <==> HoldsLock(At(s, l)))
    requires FoundBy(p).Some? ==> FoundBy(p) == s.published
    requires ChildOf(p).Some? ==> ChildOf(p) == ChildOf(At(s, l))
    ensures Sound(Move(s, l, p))
  {
    hide HoldsLock, ChildOf, FoundBy;
    var after := Move(s, l, p);
    forall k: nat ensures PlaceSound(after, k) {
      assert PlaceSound(s, k) && PlaceSound(s, l);
    }
  }

  lemma LockMoveKeepsSound(s: State, l: nat, p: Place, lock: Option<nat>)
    requires Sound(s) && FoundBy(p).None? && ChildOf(p).None?
    requires (HoldsLock(p) && s.lock.None? && lock == Some(l)) || (!HoldsLock(p) && s.lock == Some(l) && lock.None?)
    ensures Sound(Move(s, l, p).(lock := lock))
  {
    hide HoldsLock, ChildOf, FoundBy;
    var after := Move(s, l, p).(lock := lock);
    forall k: nat ensures PlaceSound(after, k) {
      assert PlaceSound(s, k) && PlaceSound(s, l);
    }
  }

  /** Processes may die, and new ones appear, under a sound state. */
  lemma ProcessesMoveKeepsSound(s: State, after: State)
    requires Sound(s) && after == s.(alive := after.alive, spawned := after.spawned, used := after.used)
    requires s.used <= after.used && s.spawned <= after.spawned <= after.used && after.alive <= after.used
    requires forall pid :: pid in after.alive && pid in s.used ==> pid in s.alive
    ensures Sound(after)
  {
    hide HoldsLock, ChildOf, FoundBy;
    forall k: nat ensures PlaceSound(after, k) {
      assert PlaceSound(s, k);
    }
  }

  lemma PublishKeepsSound(s: State, pid: nat, version: string)
    requires Sound(s)
    ensures Sound(PublishStep(s, pid, version))
  {
    hide HoldsLock, ChildOf, FoundBy;
    var after := PublishStep(s, pid, version);
    forall k: nat ensures PlaceSound(after, k) {
      assert PlaceSound(s, k);
    }
  }

  lemma SpawnKeepsSound(s: State, l: nat, pid: nat)
    requires Sound(s)
    ensures Sound(SpawnStep(s, l, pid))
  {
    if SpawnStep(s, l, pid) != s {
      var mid := s.(alive := s.alive + {pid}, spawned := s.spawned + {pid}, used := s.used + {pid});
      ProcessesMoveKeepsSound(s, mid);
      SpawnedMove(mid, l, pid);
      assert SpawnStep(s, l, pid) == Move(mid, l, Unbound(pid));
    }
  }

  lemma SpawnedMove(s: State, l: nat, pid: nat)
    requires Sound(s) && At(s, l).ReadyToSpawn? && pid in s.spawned
    ensures Sound(Move(s, l, Unbound(pid)))
  {
    var after := Move(s, l, Unbound(pid));
    forall k: nat ensures PlaceSound(after, k) {
      assert PlaceSound(s, k);
    }
  }

  lemma ReapKeepsSound(s: State, l: nat)
    requires Sound(s)
    ensures Sound(ReapStep(s, l))
  {
    if At(s, l).Reaping? {
      var mid := s.(alive := s.alive - {At(s, l).child});
      ProcessesMoveKeepsSound(s, mid);
      MoveKeepsSound(mid, l, At(ReapStep(s, l), l));
    }
  }

  lemma KillKeepsSound(s: State, l: nat)
    requires Sound(s)
    ensures Sound(KillStep(s, l))
  {
    if KillStep(s, l) != s {
      assert PlaceSound(s, l);
      if s.lock == Some(l) {
        LockMoveKeepsSound(s, l, Killed, None);
      } else {
        MoveKeepsSound(s, l, Killed);
        assert Move(s, l, Killed).(lock := s.lock) == Move(s, l, Killed);
      }
    }
  }

  lemma ObserveKeepsSound(s: State, l: nat, available: bool)
    requires Sound(s)
    ensures Sound(ObserveStep(s, l, available))
  {
    hide Sound, VersionChecked;
    if ObserveStep(s, l, available) != s {
      MoveKeepsSound(s, l, At(ObserveStep(s, l, available), l));
    }
  }

  lemma NextKeepsSound(s: State, step: Step)
    requires Sound(s)
    ensures Sound(Next(s, step))
  {
    hide Sound, ObserveStep, SpawnStep, KillStep, PublishStep, ReapStep;
    match step
    case Observe(l, available) => ObserveKeepsSound(s, l, available);
    case Spawn(l, pid) => SpawnKeepsSound(s, l, pid);
    case Kill(l) => KillKeepsSound(s, l);
    case Publish(pid, version) => PublishKeepsSound(s, pid, version);
    case Reap(l) => ReapKeepsSound(s, l);
    case Start(pid) =>
      if pid !in s.used {
        StartKeepsSound(s, pid);
      }
    case Die(pid) => DieKeepsSound(s, pid);
    case TryLock(l) =>
      if At(s, l).AwaitingLock? && s.lock.None? {
        LockMoveKeepsSound(s, l, Holding, Some(l));
      }
    case Release(l) =>
      if At(s, l).Releasing? {
        LockedBy(s, l);
        LockMoveKeepsSound(s, l, Finished(At(s, l).result), None);
      }
    case _ =>
      OtherKeepsSound(s, step);
  }

  lemma LockedBy(s: State, l: nat)
    requires Sound(s) && HoldsLock(At(s, l))
    ensures s.lock == Some(l)
  {
    assert PlaceSound(s, l);
  }

  lemma StartKeepsSound(s: State, pid: nat)
    requires Sound(s) && pid !in s.used
    ensures Sound(s.(alive := s.alive + {pid}, used := s.used + {pid}))
  {
    hide PlaceSound;
    ProcessesMoveKeepsSound(s, s.(alive := s.alive + {pid}, used := s.used + {pid}));
  }

  lemma DieKeepsSound(s: State, pid: nat)
    requires Sound(s)
    ensures Sound(s.(alive := s.alive - {pid}))
  {
    hide PlaceSound;
    ProcessesMoveKeepsSound(s, s.(alive := s.alive - {pid}));
  }

  /** Steps that only move one launcher, without lock or processes. */
  lemma OtherKeepsSound(s: State, step: Step)
    requires Sound(s)
    requires step.Launch? || step.Read? || step.ReadBlank? || step.ReadFails? || step.LockTimesOut?
             || step.SpawnFails? || step.Bind? || step.BindFails? || step.Interrupt? || step.TimeOut? || step.ReapFails?
    ensures Sound(Next(s, step))
  {
    hide Sound;
    var after := Next(s, step);
    if after != s {
      MoveKeepsSound(s, step.l, At(after, step.l));
    }
  }

  lemma {:induction false} RunKeepsSound(s: State, steps: seq<Step>)
    requires Sound(s)
    ensures Sound(Run(s, steps))
    decreases |steps|
  {
    hide Sound, Next;
    if steps != [] {
      NextKeepsSound(s, steps[0]);
      RunKeepsSound(Next(s, steps[0]), steps[1..]);
    }
  }

  // Mutual exclusion

  /** In no reachable state are two launchers between taking and releasing the lock; in particular
      at most one is between spawning a supervisor and releasing the lock. */
  lemma OneLauncherInside(start: State, steps: seq<Step>, k: nat, l: nat)
    requires Fresh(start)
    ensures var s := Run(start, steps);
      && (HoldsLock(At(s, k)) && HoldsLock(At(s, l)) ==> k == l)
      && (ChildOf(At(s, k)).Some? && ChildOf(At(s, l)).Some? ==> k == l)
  {
    hide Run;
    RunKeepsSound(start, steps);
    var s := Run(start, steps);
    assert PlaceSound(s, k) && PlaceSound(s, l);
  }

  // Stray children

  predicate IsPublished(s: State, pid: nat) {
    s.published.Some? && s.published.value.pid == pid
  }

  /** The child of the launcher that holds the lock. */
  function ChildInside(s: State): Option<nat> {
    if s.lock.Some? then ChildOf(At(s, s.lock.value)) else None
  }

  predicate Stray(s: State, pid: nat) {
    pid in s.spawned && pid in s.alive && !IsPublished(s, pid) && ChildInside(s) != Some(pid)
  }

  predicate NoStray(s: State) {
    forall pid :: pid in s.spawned ==> !Stray(s, pid)
  }

  /** The step lets go of a live child that nobody published: a bind failure, a reap given up, an
      interrupt between spawn and loop or during the last reap, or the death of the launcher itself. */
  predicate Leaks(s: State, step: Step) {
    && (step.BindFails? || step.ReapFails? || step.Interrupt? || step.Kill?)
    && Next(s, step) != s
    && ChildOf(At(s, step.l)).Some?
    && ChildOf(At(Next(s, step), step.l)).None?
    && ChildOf(At(s, step.l)).value in s.alive
    && !IsPublished(s, ChildOf(At(s, step.l)).value)
  }

  lemma LeakLeavesStray(s: State, step: Step)
    requires Sound(s) && Leaks(s, step)
    ensures !NoStray(Next(s, step))
  {
    var c := ChildOf(At(s, step.l)).value;
    assert PlaceSound(s, step.l);
    assert Stray(Next(s, step), c);
  }

  /** A move of the lock holder that keeps its child, or gives up one that is dead or published. */
  lemma MoveKeepsNoStray(s: State, after: State, l: nat)
    requires NoStray(s) && s.lock == Some(l) && after.spawned == s.spawned && after.alive <= s.alive
    requires after.published == s.published && (after.lock == s.lock || after.lock.None?)
    requires ChildOf(At(s, l)).Some? ==>
               || ChildInside(after) == ChildOf(At(s, l))
               || ChildOf(At(s, l)).value !in after.alive
               || IsPublished(s, ChildOf(At(s, l)).value)
    ensures NoStray(after)
  {
    hide ChildOf;
    forall pid | pid in after.spawned ensures !Stray(after, pid) {
      assert !Stray(s, pid);
    }
  }

  /** A launcher outside the lock has no child to lose. */
  lemma OutsideKeepsNoStray(s: State, after: State, l: nat)
    requires Sound(s) && NoStray(s) && s.lock != Some(l)
    requires after == s.(places := after.places) && forall k :: k != l ==> At(after, k) == At(s, k)
    ensures NoStray(after)
  {
    hide ChildOf, Sound;
    assert ChildInside(after) == ChildInside(s);
    forall pid | pid in after.spawned ensures !Stray(after, pid) {
      assert !Stray(s, pid);
    }
  }

  lemma PublishKeepsNoStray(s: State, pid: nat, version: string)
    requires NoStray(s)
    ensures NoStray(PublishStep(s, pid, version))
  {
    var after := PublishStep(s, pid, version);
    assert ChildInside(after) == ChildInside(s);
    forall c | c in after.spawned ensures !Stray(after, c) {
      assert !Stray(s, c);
    }
  }

  lemma ProcessesKeepNoStray(s: State, after: State)
    requires Sound(s) && NoStray(s) && after == s.(alive := after.alive, used := after.used)
    requires forall c :: c in after.alive && c in s.spawned ==> c in s.alive
    ensures NoStray(after)
  {
    assert ChildInside(after) == ChildInside(s);
    forall c | c in after.spawned ensures !Stray(after, c) {
      assert !Stray(s, c);
    }
  }

  lemma SpawnKeepsNoStray(s: State, l: nat, pid: nat)
    requires Sound(s) && NoStray(s)
    ensures NoStray(SpawnStep(s, l, pid))
  {
    var after := SpawnStep(s, l, pid);
    if after != s {
      LockedBy(s, l);
      forall c | c in after.spawned ensures !Stray(after, c) {
        assert c != pid ==> !Stray(s, c);
      }
    }
  }

  lemma LockKeepsNoStray(s: State, l: nat)
    requires Sound(s) && NoStray(s)
    ensures NoStray(LockStep(s, l))
  {
    var after := LockStep(s, l);
    forall c | c in after.spawned ensures !Stray(after, c) {
      assert !Stray(s, c);
    }
  }

  lemma ObserveKeepsNoStray(s: State, l: nat, available: bool)
    requires Sound(s) && NoStray(s)
    ensures NoStray(ObserveStep(s, l, available))
  {
    var after := ObserveStep(s, l, available);
    if after != s {
      assert PlaceSound(s, l);
      if HoldsLock(At(s, l)) {
        MoveKeepsNoStray(s, after, l);
      } else {
        OutsideKeepsNoStray(s, after, l);
      }
    }
  }

  lemma KillKeepsNoStray(s: State, l: nat)
    requires Sound(s) && NoStray(s) && !Leaks(s, Kill(l))
    ensures NoStray(KillStep(s, l))
  {
    var after := KillStep(s, l);
    if after != s {
      assert PlaceSound(s, l);
      if HoldsLock(At(s, l)) {
        MoveKeepsNoStray(s, after, l);
      } else {
        OutsideKeepsNoStray(s, after, l);
      }
    }
  }

  /** Steps that move one launcher and neither spawn, lock, publish nor observe. */
  lemma OtherKeepsNoStray(s: State, step: Step)
    requires Sound(s) && NoStray(s) && !Leaks(s, step)
    requires step.Launch? || step.Read? || step.ReadBlank? || step.ReadFails? || step.LockTimesOut?
             || step.SpawnFails? || step.Bind? || step.BindFails? || step.Interrupt? || step.TimeOut?
             || step.ReapFails? || step.Reap? || step.Release?
    ensures NoStray(Next(s, step))
  {
    hide NoStray, IsPublished;
    var after := Next(s, step);
    if after != s {
      assert PlaceSound(s, step.l);
      if HoldsLock(At(s, step.l)) {
        MoveKeepsNoStray(s, after, step.l);
      } else {
        OutsideKeepsNoStray(s, after, step.l);
      }
    }
  }

  /** Exactly the leaking steps leave a stray child: from a sound state without one, a step keeps
      "every live spawned supervisor is published or still in its launcher's hands" if and only if
      it is not a bind failure, an abandoned reap, an interrupt that nothing catches or a killed
      launcher, with a live unpublished child. */
  lemma StrayExactlyWhenLeaked(s: State, step: Step)
    requires Sound(s) && NoStray(s)
    ensures NoStray(Next(s, step)) <==> !Leaks(s, step)
  {
    hide NoStray, Sound, Leaks, ObserveStep, SpawnStep, KillStep, PublishStep, ReapStep, LockStep;
    if Leaks(s, step) {
      LeakLeavesStray(s, step);
    } else {
      match step
      case Observe(l, available) => ObserveKeepsNoStray(s, l, available);
      case Spawn(l, pid) => SpawnKeepsNoStray(s, l, pid);
      case Kill(l) => KillKeepsNoStray(s, l);
      case Publish(pid, version) => PublishKeepsNoStray(s, pid, version);
      case TryLock(l) => LockKeepsNoStray(s, l);
      case Start(pid) => StartKeepsNoStray(s, pid);
      case Die(pid) => DieKeepsNoStray(s, pid);
      case _ => OtherKeepsNoStray(s, step);
    }
  }

  lemma StartKeepsNoStray(s: State, pid: nat)
    requires Sound(s) && NoStray(s)
    ensures NoStray(Next(s, Start(pid)))
  {
    hide NoStray;
    if pid !in s.used {
      ProcessesKeepNoStray(s, Next(s, Start(pid)));
    }
  }

  lemma DieKeepsNoStray(s: State, pid: nat)
    requires Sound(s) && NoStray(s)
    ensures NoStray(Next(s, Die(pid)))
  {
    hide NoStray, Sound;
    ProcessesKeepNoStray(s, Next(s, Die(pid)));
  }

  predicate LeakFree(s: State, steps: seq<Step>)
    decreases |steps|
  {
    steps == [] || (!Leaks(s, steps[0]) && LeakFree(Next(s, steps[0]), steps[1..]))
  }

  lemma {:induction false} LeakFreeRunKeepsNoStray(s: State, steps: seq<Step>)
    requires Sound(s) && NoStray(s) && LeakFree(s, steps)
    ensures NoStray(Run(s, steps))
    decreases |steps|
  {
    hide Sound, NoStray, Next, Leaks;
    if steps != [] {
      NextKeepsSound(s, steps[0]);
      StrayExactlyWhenLeaked(s, steps[0]);
      LeakFreeRunKeepsNoStray(Next(s, steps[0]), steps[1..]);
    }
  }

  /** One owner: in every run no step of which leaks, the live supervisors that launchers spawned
      are at most the published one and the child of the one launcher inside the lock. */
  lemma OneLiveOwner(start: State, steps: seq<Step>, a: nat, b: nat)
    requires Fresh(start) && LeakFree(start, steps)
    requires var s := Run(start, steps);
      a in s.spawned && a in s.alive && b in s.spawned && b in s.alive &&
      ChildInside(s) != Some(a) && ChildInside(s) != Some(b)
    ensures a == b && IsPublished(Run(start, steps), a)
  {
    hide Run, LeakFree;
    LeakFreeRunKeepsNoStray(start, steps);
    assert !Stray(Run(start, steps), a) && !Stray(Run(start, steps), b);
  }

  // What a launcher returns

  /** A discovery a launcher takes over named, when it was observed, the live published supervisor;
      and before the launcher spawned one of its own, it carried the expected version. */
  lemma TakenOverIsLive(start: State, steps: seq<Step>, l: nat, available: bool, r: Record)
    requires Fresh(start)
    requires var s := Run(start, steps);
      && FoundBy(At(s, l)).Some?
      && var p := At(ObserveStep(s, l, available), l);
      && (p == Finished(Accepted(r)) || p == Releasing(Accepted(r)) || (p.Reaping? && p.found == Some(r)))
    ensures var s := Run(start, steps);
      && r.pid in s.alive && s.published.Some? && s.published.value.pid == r.pid
      && (ChildOf(At(s, l)).None? ==> r.version == EXPECTED_VERSION)
  {
    hide Run;
    RunKeepsSound(start, steps);
    assert PlaceSound(Run(start, steps), l);
  }

  lemma {:induction false} RunAppends(s: State, a: seq<Step>, b: seq<Step>)
    ensures Run(s, a + b) == Run(Run(s, a), b)
    decreases |a|
  {
    hide Next;
    if a == [] {
      assert a + b == b;
    } else {
      assert (a + b)[1..] == a[1..] + b;
      RunAppends(Next(s, a[0]), a[1..], b);
    }
  }

  lemma RunUnfolds(s: State, step: Step, rest: seq<Step>)
    ensures Run(s, [step] + rest) == Run(Next(s, step), rest)
  {
    assert ([step] + rest)[1..] == rest;
  }

  // Runs from a fresh state

  lemma RunOfThree(s: State, a: Step, b: Step, c: Step)
    ensures Run(s, [a, b, c]) == Next(Next(Next(s, a), b), c)
  {
    hide Next;
    RunUnfolds(s, a, [b, c]);
    RunUnfolds(Next(s, a), b, [c]);
    RunUnfolds(Next(Next(s, a), b), c, []);
    assert [a] + [b, c] == [a, b, c] && [b] + [c] == [b, c] && [c] + [] == [c];
  }

  /** A launcher that finds no owner comes to wait for the lock. */
  function Approach(l: nat): seq<Step> {
    [Launch(l), Read(l), Observe(l, true)]
  }

  lemma Approaches(s: State, l: nat)
    requires l !in s.places && s.published.None?
    ensures Run(s, Approach(l)) == s.(places := s.places[l := AwaitingLock])
  {
    RunOfThree(s, Launch(l), Read(l), Observe(l, true));
    assert s.places[l := Begin][l := FirstRead(None)][l := AwaitingLock] == s.places[l := AwaitingLock];
  }

  /** With the lock free and still no owner, it comes to spawn. */
  function Enter(l: nat): seq<Step> {
    [TryLock(l), Read(l), Observe(l, true)]
  }

  lemma Enters(s: State, l: nat)
    requires At(s, l).AwaitingLock? && s.lock.None? && s.published.None?
    ensures Run(s, Enter(l)) == s.(places := s.places[l := ReadyToSpawn], lock := Some(l))
  {
    RunOfThree(s, TryLock(l), Read(l), Observe(l, true));
    assert s.places[l := Holding][l := SecondRead(None)][l := ReadyToSpawn] == s.places[l := ReadyToSpawn];
  }

  lemma Arrives(s: State, l: nat)
    requires l !in s.places && s.lock.None? && s.published.None?
    ensures Run(s, Approach(l) + Enter(l)) == s.(places := s.places[l := ReadyToSpawn], lock := Some(l))
  {
    hide Run;
    RunAppends(s, Approach(l), Enter(l));
    Approaches(s, l);
    Enters(s.(places := s.places[l := AwaitingLock]), l);
    assert s.places[l := AwaitingLock][l := ReadyToSpawn] == s.places[l := ReadyToSpawn];
  }

  /** The version is not checked again after a spawn: from any fresh state without a publisher, a
      launcher whose own child loses the race to a live supervisor of another version returns that
      supervisor's discovery. */
  lemma OtherVersionIsAcceptedAfterSpawn(start: State, l: nat, c: nat, d: nat, version: string)
    requires Fresh(start) && start.published.None? && c !in start.used && d !in start.used && c != d
    requires version != EXPECTED_VERSION
    ensures var s := Run(start, Approach(l) + Enter(l) + [Spawn(l, c), Bind(l), Start(d)]
                                + [Publish(d, version), Read(l), Observe(l, true)]);
      d in s.alive && At(s, l) == Reaping(c, Some(Record(d, version)))
      && At(Next(Next(s, Reap(l)), Release(l)), l) == Finished(Accepted(Record(d, version)))
  {
    hide Run;
    var first, second := [Spawn(l, c), Bind(l), Start(d)], [Publish(d, version), Read(l), Observe(l, true)];
    hide Next;
    Arrives(start, l);
    var s1 := start.(places := start.places[l := ReadyToSpawn], lock := Some(l));
    RunAppends(start, Approach(l) + Enter(l), first);
    SpawnsBeside(s1, l, c, d);
    RunAppends(start, Approach(l) + Enter(l) + first, second);
    FindsOther(Run(s1, first), l, c, Record(d, version));
  }

  /** A launcher polls for its child while another supervisor has started. */
  lemma SpawnsBeside(s: State, l: nat, c: nat, d: nat)
    requires At(s, l).ReadyToSpawn? && c !in s.used && d !in s.used && c != d
    ensures var after := Run(s, [Spawn(l, c), Bind(l), Start(d)]);
      At(after, l) == Polling(c) && d in after.alive && after.published == s.published
  {
    RunOfThree(s, Spawn(l, c), Bind(l), Start(d));
  }

  lemma FindsOther(s: State, l: nat, c: nat, r: Record)
    requires At(s, l) == Polling(c) && r.pid in s.alive && r.pid != c && s.published.None?
    ensures var after := Run(s, [Publish(r.pid, r.version), Read(l), Observe(l, true)]);
      && r.pid in after.alive && At(after, l) == Reaping(c, Some(r))
      && At(Next(Next(after, Reap(l)), Release(l)), l) == Finished(Accepted(r))
  {
    RunOfThree(s, Publish(r.pid, r.version), Read(l), Observe(l, true));
  }

  /** A launcher with the lock whose bind fails leaves its live child behind, unpublished and in
      nobody's hands, so a second launcher can do the same: from any fresh state without a publisher
      a run ends with two live supervisors, no owner and the lock free. */
  lemma BindFailuresPileUp(start: State, l: nat, k: nat, c: nat, d: nat)
    requires Fresh(start) && start.published.None? && k != l
    requires c !in start.used && d !in start.used && c != d
    ensures var after := Run(start, Approach(l) + Enter(l) + [Spawn(l, c), BindFails(l), Release(l)]
                                    + (Approach(k) + Enter(k)) + [Spawn(k, d), BindFails(k), Release(k)]);
      Stray(after, c) && Stray(after, d) && after.lock.None? && after.published.None?
  {
    hide Run;
    var leave, again := [Spawn(l, c), BindFails(l), Release(l)], [Spawn(k, d), BindFails(k), Release(k)];
    Arrives(start, l);
    var s1 := start.(places := start.places[l := ReadyToSpawn], lock := Some(l));
    RunAppends(start, Approach(l) + Enter(l), leave);
    RunOfThree(s1, leave[0], leave[1], leave[2]);
    var s2 := Run(s1, leave);
    RunAppends(start, Approach(l) + Enter(l) + leave, Approach(k) + Enter(k));
    Arrives(s2, k);
    var s3 := s2.(places := s2.places[k := ReadyToSpawn], lock := Some(k));
    RunAppends(start, Approach(l) + Enter(l) + leave + (Approach(k) + Enter(k)), again);
    RunOfThree(s3, again[0], again[1], again[2]);
  }

  /** So does an interrupt that comes between the spawn and the loop. */
  lemma InterruptLeavesChild(start: State, l: nat, c: nat)
    requires Fresh(start) && start.published.None? && c !in start.used
    ensures var after := Run(start, Approach(l) + Enter(l) + [Spawn(l, c), Interrupt(l), Release(l)]);
      Stray(after, c) && after.lock.None? && At(after, l) == Finished(Failed)
  {
    hide Run;
    var leave := [Spawn(l, c), Interrupt(l), Release(l)];
    Arrives(start, l);
    RunAppends(start, Approach(l) + Enter(l), leave);
    RunOfThree(start.(places := start.places[l := ReadyToSpawn], lock := Some(l)), leave[0], leave[1], leave[2]);
  }
}
