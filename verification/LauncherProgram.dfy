/** `ensure_codex_supervisor` as one launcher runs it: its own control flow, with other launchers
    and supervisors acting at every point where it can be overtaken. What they do is a plan fixed in
    advance and unknown to the launcher, so every result holds whatever they do. */
module LauncherProgram {
  import opened JsonValues
  import opened Launcher
  import opened LauncherLaws
  import opened LauncherOutcomes

  /** What the environment does at each tick, and how often the launcher tries. */
  datatype Plan = Plan(others: nat -> seq<Step>, invalid: nat -> bool, unreadable: nat -> bool, available: nat -> bool,
                       interrupted: nat -> bool, reapFails: nat -> bool, spawnFails: bool, bindFails: bool,
                       pid: nat, lockTries: nat, polls: nat)

  /** Where a look leaves a launcher that has a child; `None` is an invalid record or an interrupt. */
  ghost function Looked(child: nat, v: Option<Verdict>, again: bool): Place {
    match v
    case Some(Owner(r)) => AfterSpawn(child, r)
    case Some(NoOwner) => if again then Polling(child) else Reaping(child, None)
    case _ => Reaping(child, None)
  }

  lemma PollSteps(s: State, l: nat, child: nat)
    requires At(s, l) == Polling(child)
    ensures At(Next(s, Interrupt(l)), l) == Reaping(child, None) && At(Next(s, ReadFails(l)), l) == Reaping(child, None)
    ensures At(Next(s, ReadBlank(l)), l) == PollRead(child, None)
    ensures At(Next(s, Read(l)), l) == PollRead(child, s.published)
    ensures At(Next(s, TimeOut(l)), l) == FinalRead(child, s.published)
  {
  }

  lemma ChildLooks(s: State, l: nat, child: nat, found: Option<Record>, available: bool)
    requires At(s, l) == PollRead(child, found) || At(s, l) == FinalRead(child, found)
    ensures At(Next(s, Observe(l, available)), l) ==
            Looked(child, Some(Judge(s, found, available)), At(s, l).PollRead? && child in s.alive)
  {
  }

  lemma OwnerSteps(s: State, l: nat)
    requires At(s, l).Begin? || At(s, l).Holding?
    ensures At(Next(s, Interrupt(l)), l) == Ended(s, l, Failed) && At(Next(s, ReadFails(l)), l) == Ended(s, l, Failed)
    ensures At(Next(s, Read(l)), l) == if At(s, l).Begin? then FirstRead(s.published) else SecondRead(s.published)
  {
  }

  lemma OwnerLooks(s: State, l: nat, found: Option<Record>, available: bool)
    requires At(s, l) == FirstRead(found) || At(s, l) == SecondRead(found)
    ensures At(Next(s, Observe(l, available)), l) ==
            match Judge(s, found, available)
            case NoOwner => (if At(s, l).FirstRead? then AwaitingLock else ReadyToSpawn)
            case Owner(r) =>
              var result := if r.version == EXPECTED_VERSION then Accepted(r) else Failed;
              if At(s, l).FirstRead? then Finished(result) else Releasing(result)
            case Unknowable => if At(s, l).FirstRead? then Finished(Failed) else Releasing(Failed)
  {
  }

  /** Where a result puts the launcher: at its end, or still with the lock. */
  ghost function Ended(before: State, l: nat, r: Ending): Place {
    if At(before, l).Begin? then Finished(r) else Releasing(r)
  }

  class Program {
    const l: nat
    const plan: Plan
    var state: State
    var clock: nat
    ghost const start: State
    ghost var trace: seq<Step>

    /** What the launcher and everybody else did so far is a run of the step machine. */
    ghost predicate Valid()
      reads this
    {
      && Sound(start) && state == Run(start, trace)
      && l in state.places
      && forall tick: nat :: Foreign(plan.others(tick), l)
    }

    constructor (s: State, l: nat, plan: Plan)
      requires Sound(s) && l !in s.places
      requires forall tick: nat :: Foreign(plan.others(tick), l)
      ensures Valid() && At(state, this.l).Begin? && this.l == l && start == s
    {
      this.l, this.plan, start := l, plan, s;
      state, clock := Next(s, Launch(l)), 0;
      trace := [Launch(l)];
      new;
      RunUnfolds(s, Launch(l), []);
      assert [Launch(l)] + [] == [Launch(l)];
    }

    /** The others act. */
    method Wait()
      requires Valid()
      modifies `state, `clock, `trace
      ensures Valid() && At(state, l) == At(old(state), l)
      ensures state == Run(old(state), plan.others(old(clock))) && clock == old(clock) + 1
    {
      hide Run, At, Next;
      RunAppends(start, trace, plan.others(clock));
      ForeignRun(state, plan.others(clock), l);
      state := Run(state, plan.others(clock));
      trace := trace + plan.others(clock);
      clock := clock + 1;
    }

    /** This launcher acts. */
    method Act(step: Step)
      requires Valid()
      modifies `state, `trace
      ensures Valid() && state == Next(old(state), step)
    {
      hide Sound, At;
      RunAppends(start, trace, [step]);
      RunUnfolds(state, step, []);
      assert [step] + [] == [step];
      state := Next(state, step);
      trace := trace + [step];
    }

    // The next look, seen from where the launcher stands

    /** When it will read the discovery. */
    ghost function WhenRead(): State
      reads this
    {
      Run(state, plan.others(clock))
    }

    /** When it will observe the process named there. */
    ghost function WhenObserved(): State
      reads this
    {
      Run(Next(WhenRead(), Read(l)), plan.others(clock + 1))
    }

    /** Nothing keeps it from looking. */
    predicate Looks()
      reads this
    {
      !plan.interrupted(clock + 1) && !plan.invalid(clock + 1)
    }

    /** It will find this record, of a process it can observe and that lives. */
    ghost predicate WillFind(r: Record)
      reads this
    {
      Looks() && WhenRead().published == Some(r) && plan.available(clock + 2) && r.pid in WhenObserved().alive
    }

    /** It will find no record, or that of a process which is gone. */
    ghost predicate WillFindNobody()
      reads this
    {
      && Looks()
      && (WhenRead().published.None?
          || (plan.available(clock + 2) && WhenRead().published.value.pid !in WhenObserved().alive))
    }

    /** `_load_discovery` outside the polling loop; `None` is an invalid or unreadable record. */
    method LoadDiscovery() returns (v: Option<Verdict>)
      requires Valid() && (At(state, l).Begin? || At(state, l).Holding?)
      modifies `state, `clock, `trace
      ensures Valid()
      ensures v == Some(NoOwner) <==> old(WillFindNobody())
      ensures forall r :: v == Some(Owner(r)) <==> old(WillFind(r))
      ensures match v
              case Some(NoOwner) => At(state, l) == if At(old(state), l).Begin? then AwaitingLock else ReadyToSpawn
              case Some(Owner(r)) =>
                At(state, l) == Ended(old(state), l, if r.version == EXPECTED_VERSION then Accepted(r) else Failed)
              case _ => At(state, l) == Ended(old(state), l, Failed)
    {
      hide Run, Sound, Valid, Next, At;
      Wait();
      OwnerSteps(state, l);
      if plan.interrupted(clock) {
        Act(Interrupt(l));
        return None;
      }
      if plan.invalid(clock) {
        Act(ReadFails(l));
        return None;
      }
      var found := state.published;
      Act(Read(l));
      Wait();
      v := Some(Judge(state, found, plan.available(clock)));
      OwnerLooks(state, l, found, plan.available(clock));
      Act(Observe(l, plan.available(clock)));
    }

    method AcquireLock() returns (locked: bool)
      requires Valid() && At(state, l).AwaitingLock?
      modifies `state, `clock, `trace
      ensures Valid() && At(state, l) == if locked then Holding else Finished(Failed)
    {
      hide Run, Sound, Valid;
      var tries := 0;
      while tries < plan.lockTries
        invariant Valid() && At(state, l).AwaitingLock?
      {
        Wait();
        if plan.interrupted(clock) {
          Act(Interrupt(l));
          return false;
        }
        if state.lock.None? {
          Act(TryLock(l));
          return true;
        }
        tries := tries + 1;
      }
      Wait();
      Act(LockTimesOut(l));
      return false;
    }

    /** The exception path after a spawn. */
    method ReapAfterFailure() returns (r: Ending)
      requires Valid() && At(state, l).Reaping? && At(state, l).found.None?
      modifies `state, `clock, `trace
      ensures Valid() && r.Failed? && At(state, l) == Releasing(r)
    {
      hide Run, Sound, Valid;
      Wait();
      if plan.interrupted(clock) {
        Act(Interrupt(l));
      } else if plan.reapFails(clock) {
        Act(ReapFails(l));
      } else {
        Act(Reap(l));
      }
      return Failed;
    }

    /** `_accept_discovery_after_spawn`, the observation having been made. */
    method AcceptAfterSpawn(child: nat, r: Record) returns (result: Ending)
      requires Valid() && At(state, l) == AfterSpawn(child, r)
      modifies `state, `clock, `trace
      ensures Valid() && At(state, l) == Releasing(result) && (result == Accepted(r) || result.Failed?)
      ensures r.pid == child ==> result == Accepted(r)
    {
      hide Run, Sound, Valid;
      if r.pid == child {
        return Accepted(r);
      }
      Wait();
      if plan.interrupted(clock) || plan.reapFails(clock) {
        if plan.interrupted(clock) {
          Act(Interrupt(l));
        } else {
          Act(ReapFails(l));
        }
        result := ReapAfterFailure();
        return;
      }
      Act(Reap(l));
      return Accepted(r);
    }

    /** `_load_discovery` inside the polling loop; `again` says that the child is still there. */
    method PollDiscovery(child: nat) returns (v: Option<Verdict>, again: bool)
      requires Valid() && At(state, l) == Polling(child)
      modifies `state, `clock, `trace
      ensures Valid() && At(state, l) == Looked(child, v, again)
    {
      hide Run, Sound, Valid, AfterSpawn, Next, At;
      Wait();
      PollSteps(state, l, child);
      if plan.interrupted(clock) {
        Act(Interrupt(l));
        return None, false;
      }
      if plan.invalid(clock) {
        Act(ReadFails(l));
        return None, false;
      }
      var found := if plan.unreadable(clock) then None else state.published;
      if plan.unreadable(clock) {
        Act(ReadBlank(l));
      } else {
        Act(Read(l));
      }
      Wait();
      v, again := Some(Judge(state, found, plan.available(clock))), child in state.alive;
      ChildLooks(state, l, child, found, plan.available(clock));
      Act(Observe(l, plan.available(clock)));
    }

    /** The last look, after the loop's deadline. */
    method FinalDiscovery(child: nat) returns (v: Option<Verdict>)
      requires Valid() && At(state, l) == Polling(child)
      modifies `state, `clock, `trace
      ensures Valid() && At(state, l) == Looked(child, v, false)
    {
      hide Run, Sound, Valid, AfterSpawn, Next, At;
      Wait();
      PollSteps(state, l, child);
      if plan.interrupted(clock) {
        Act(Interrupt(l));
        return None;
      }
      var found := state.published;
      Act(TimeOut(l));
      Wait();
      v := Some(Judge(state, found, plan.available(clock)));
      ChildLooks(state, l, child, found, plan.available(clock));
      Act(Observe(l, plan.available(clock)));
    }

    /** What follows a look that finds an owner, or that ends the wait. */
    method Conclude(child: nat, v: Option<Verdict>) returns (r: Ending)
      requires Valid() && At(state, l) == Looked(child, v, false)
      modifies `state, `clock, `trace
      ensures Valid() && At(state, l) == Releasing(r)
      ensures r.Accepted? ==> v == Some(Owner(r.record))
      ensures v.Some? && v.value.Owner? && v.value.record.pid == child ==> r == Accepted(v.value.record)
    {
      hide Run, Sound, Valid, At;
      if v.Some? && v.value.Owner? {
        r := AcceptAfterSpawn(child, v.value.record);
      } else {
        r := ReapAfterFailure();
      }
    }

    /** The polling loop and the last look after its deadline. */
    method AwaitReady(child: nat) returns (r: Ending)
      requires Valid() && At(state, l) == Polling(child)
      modifies `state, `clock, `trace
      ensures Valid() && At(state, l) == Releasing(r)
    {
      hide Run, Sound, Valid, AfterSpawn, At;
      var polls := 0;
      while polls < plan.polls
        invariant Valid() && At(state, l) == Polling(child)
      {
        var v, again := PollDiscovery(child);
        if v != Some(NoOwner) || !again {
          r := Conclude(child, v);
          return;
        }
        polls := polls + 1;
      }
      var last := FinalDiscovery(child);
      r := Conclude(child, last);
    }

    /** `_spawn_supervisor`; `None` is a child that was never there, or that nobody holds. */
    method SpawnChild() returns (child: Option<nat>)
      requires Valid() && At(state, l).ReadyToSpawn?
      modifies `state, `clock, `trace
      ensures Valid() && At(state, l) == if child.Some? then Unbound(child.value) else Releasing(Failed)
    {
      hide Run, Sound, Valid;
      Wait();
      if plan.interrupted(clock) {
        Act(Interrupt(l));
        return None;
      }
      if plan.spawnFails || plan.pid in state.used {
        Act(SpawnFails(l));
        return None;
      }
      Act(Spawn(l, plan.pid));
      return Some(plan.pid);
    }

    /** From the spawn to the end of the wait for the child. */
    method SpawnAndAwait() returns (r: Ending)
      requires Valid() && At(state, l).ReadyToSpawn?
      modifies `state, `clock, `trace
      ensures Valid() && At(state, l) == Releasing(r)
    {
      hide Run, Sound, Valid;
      var child := SpawnChild();
      if child.None? {
        return Failed;
      }
      Wait();
      if plan.interrupted(clock) {
        Act(Interrupt(l));
        return Failed;
      }
      if plan.bindFails {
        Act(BindFails(l));
        return Failed;
      }
      Act(Bind(l));
      r := AwaitReady(child.value);
    }

    /** The body of the `with _startup_lock` block. */
    method InsideLock() returns (r: Ending)
      requires Valid() && At(state, l).Holding?
      modifies `state, `clock, `trace
      ensures Valid() && At(state, l) == Releasing(r)
      ensures forall owner :: old(WillFind(owner)) ==>
                r == if owner.version == EXPECTED_VERSION then Accepted(owner) else Failed
    {
      hide Run, Sound, Valid;
      var existing := LoadDiscovery();
      if existing.None? || existing.value.Unknowable? {
        return Failed;
      }
      if existing.value.Owner? {
        return VersionChecked(existing.value.record);
      }
      r := SpawnAndAwait();
    }

    /** `ensure_codex_supervisor`: whatever the others do meanwhile, the whole history is a run of
        the step machine that ends with this launcher finished, holding no lock. */
    method Ensure() returns (r: Ending)
      requires Valid() && At(state, l).Begin?
      modifies `state, `clock, `trace
      ensures Valid() && At(state, l) == Finished(r) && state.lock != Some(l)
      ensures NoStray(start) && LeakFree(start, trace) ==> NoStray(state)
      ensures forall owner :: old(WillFind(owner)) ==>
                r == if owner.version == EXPECTED_VERSION then Accepted(owner) else Failed
    {
      hide Run, WillFind, WillFindNobody;
      var existing := LoadDiscovery();
      if existing.None? || existing.value.Unknowable? {
        r := Failed;
      } else if existing.value.Owner? {
        r := VersionChecked(existing.value.record);
      } else {
        var locked := AcquireLock();
        if locked {
          r := InsideLock();
          Wait();
          Act(Release(l));
        } else {
          r := Failed;
        }
      }
      FinishedIsUnlocked(start, trace, l);
      if NoStray(start) && LeakFree(start, trace) {
        LeakFreeRunKeepsNoStray(start, trace);
      }
    }
  }

  lemma FinishedIsUnlocked(start: State, trace: seq<Step>, l: nat)
    requires Sound(start) && At(Run(start, trace), l).Finished?
    ensures Run(start, trace).lock != Some(l)
  {
    hide Run;
    RunKeepsSound(start, trace);
    assert PlaceSound(Run(start, trace), l);
  }
}
