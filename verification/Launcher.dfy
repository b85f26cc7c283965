/** Single-owner startup of src/aar/compat/codex_mcp.py: any number of launchers running
    `ensure_codex_supervisor`, interleaved with supervisors that start, publish and die. */
module Launcher {
  import opened JsonValues

  const EXPECTED_VERSION: string := "aar-supervisor/0.6.1a0"

  /** The published discovery record. A process identity is never reused. */
  datatype Record = Record(pid: nat, version: string)

  datatype Ending = Accepted(record: Record) | Failed

  /** Where a launcher stands. Reading the discovery and observing the process it names are two
      steps; `child` is the process this launcher spawned. */
  datatype Place =
    | Begin
    | FirstRead(found: Option<Record>)
    | AwaitingLock
    | Holding
    | SecondRead(found: Option<Record>)
    | ReadyToSpawn
    | Unbound(child: nat)
    | Polling(child: nat)
    | PollRead(child: nat, found: Option<Record>)
    | FinalRead(child: nat, found: Option<Record>)
    | Reaping(child: nat, found: Option<Record>)
    | Releasing(result: Ending)
    | Finished(result: Ending)
    | Killed

  datatype State = State(places: map<nat, Place>, lock: Option<nat>, published: Option<Record>,
                         alive: set<nat>, spawned: set<nat>, used: set<nat>)

  datatype Step =
    | Launch(l: nat)
    | Read(l: nat)
    | ReadBlank(l: nat)
    | ReadFails(l: nat)
    | Observe(l: nat, available: bool)
    | TryLock(l: nat)
    | LockTimesOut(l: nat)
    | Spawn(l: nat, pid: nat)
    | SpawnFails(l: nat)
    | Bind(l: nat)
    | BindFails(l: nat)
    | Interrupt(l: nat)
    | TimeOut(l: nat)
    | Reap(l: nat)
    | ReapFails(l: nat)
    | Release(l: nat)
    | Kill(l: nat)
    | Start(pid: nat)
    | Publish(pid: nat, version: string)
    | Die(pid: nat)

  predicate HoldsLock(p: Place) {
    p.Holding? || p.SecondRead? || p.ReadyToSpawn? || p.Unbound? || p.Polling? || p.PollRead? || p.FinalRead?
    || p.Reaping? || p.Releasing?
  }

  /** The child a launcher is still responsible for. */
  function ChildOf(p: Place): Option<nat> {
    if p.Unbound? || p.Polling? || p.PollRead? || p.FinalRead? || p.Reaping? then Some(p.child) else None
  }

  function FoundBy(p: Place): Option<Record> {
    if p.FirstRead? || p.SecondRead? || p.PollRead? || p.FinalRead? then p.found else None
  }

  function At(s: State, l: nat): Place {
    if l in s.places then s.places[l] else Killed
  }

  function Move(s: State, l: nat, p: Place): State {
    s.(places := s.places[l := p])
  }

  // The steps of a launcher

  function ReadStep(s: State, l: nat): State {
    match At(s, l)
    case Begin => Move(s, l, FirstRead(s.published))
    case Holding => Move(s, l, SecondRead(s.published))
    case Polling(c) => Move(s, l, PollRead(c, s.published))
    case _ => s
  }

  /** An unreadable discovery, which counts as none while polling. */
  function ReadBlankStep(s: State, l: nat): State {
    if At(s, l).Polling? then Move(s, l, PollRead(At(s, l).child, None)) else s
  }

  /** An invalid discovery, or an unreadable one outside the polling loop. */
  function ReadFailsStep(s: State, l: nat): State {
    match At(s, l)
    case Begin => Move(s, l, Finished(Failed))
    case Holding => Move(s, l, Releasing(Failed))
    case Polling(c) => Move(s, l, Reaping(c, None))
    case _ => s
  }

  datatype Verdict = NoOwner | Owner(record: Record) | Unknowable

  /** `_load_discovery`, once the record is read. */
  function Judge(s: State, found: Option<Record>, available: bool): Verdict {
    if found.None? then NoOwner
    else if !available then Unknowable
    else if found.value.pid in s.alive then Owner(found.value)
    else NoOwner
  }

  function VersionChecked(r: Record): Ending {
    if r.version == EXPECTED_VERSION then Accepted(r) else Failed
  }

  /** `_accept_discovery_after_spawn`. */
  function AfterSpawn(c: nat, r: Record): Place {
    if r.pid == c then Releasing(Accepted(r)) else Reaping(c, Some(r))
  }

  function ObserveStep(s: State, l: nat, available: bool): State {
    match At(s, l)
    case FirstRead(found) =>
      (match Judge(s, found, available)
       case NoOwner => Move(s, l, AwaitingLock)
       case Owner(r) => Move(s, l, Finished(VersionChecked(r)))
       case Unknowable => Move(s, l, Finished(Failed)))
    case SecondRead(found) =>
      (match Judge(s, found, available)
       case NoOwner => Move(s, l, ReadyToSpawn)
       case Owner(r) => Move(s, l, Releasing(VersionChecked(r)))
       case Unknowable => Move(s, l, Releasing(Failed)))
    case PollRead(c, found) =>
      (match Judge(s, found, available)
       case NoOwner => if c in s.alive then Move(s, l, Polling(c)) else Move(s, l, Reaping(c, None))
       case Owner(r) => Move(s, l, AfterSpawn(c, r))
       case Unknowable => Move(s, l, Reaping(c, None)))
    case FinalRead(c, found) =>
      (match Judge(s, found, available)
       case Owner(r) => Move(s, l, AfterSpawn(c, r))
       case _ => Move(s, l, Reaping(c, None)))
    case _ => s
  }

  function LockStep(s: State, l: nat): State {
    if At(s, l).AwaitingLock? && s.lock.None? then Move(s, l, Holding).(lock := Some(l)) else s
  }

  function SpawnStep(s: State, l: nat, pid: nat): State {
    if At(s, l).ReadyToSpawn? && pid !in s.used then
      Move(s, l, Unbound(pid)).(alive := s.alive + {pid}, spawned := s.spawned + {pid}, used := s.used + {pid})
    else s
  }

  /** An interrupt ends the call. Only from the polling loop on does the exception path know the child;
      between the spawn and the loop nothing does, and an interrupted reap is not taken up again. */
  function InterruptStep(s: State, l: nat): State {
    match At(s, l)
    case Begin | FirstRead(_) | AwaitingLock => Move(s, l, Finished(Failed))
    case Holding | SecondRead(_) | ReadyToSpawn | Unbound(_) | Releasing(_) => Move(s, l, Releasing(Failed))
    case Polling(c) => Move(s, l, Reaping(c, None))
    case PollRead(c, _) => Move(s, l, Reaping(c, None))
    case FinalRead(c, _) => Move(s, l, Reaping(c, None))
    case Reaping(c, found) => Move(s, l, if found.Some? then Reaping(c, None) else Releasing(Failed))
    case _ => s
  }

  function ReapStep(s: State, l: nat): State {
    var p := At(s, l);
    if !p.Reaping? then s
    else
      var result := if p.found.Some? then Accepted(p.found.value) else Failed;
      Move(s, l, Releasing(result)).(alive := s.alive - {p.child})
  }

  /** A failed reap is tried again by the exception path, and given up after that. */
  function ReapFailsStep(s: State, l: nat): State {
    var p := At(s, l);
    if !p.Reaping? then s
    else if p.found.Some? then Move(s, l, Reaping(p.child, None))
    else Move(s, l, Releasing(Failed))
  }

  function ReleaseStep(s: State, l: nat): State {
    var p := At(s, l);
    if p.Releasing? then Move(s, l, Finished(p.result)).(lock := None) else s
  }

  /** A killed launcher loses its lock with its file handle; its child stays. */
  function KillStep(s: State, l: nat): State {
    if l !in s.places || s.places[l].Finished? then s
    else Move(s, l, Killed).(lock := if s.lock == Some(l) then None else s.lock)
  }

  /** A supervisor publishes only itself, and never over a live publisher. */
  function PublishStep(s: State, pid: nat, version: string): State {
    if pid in s.alive && (s.published.Some? && s.published.value.pid in s.alive ==> s.published.value.pid == pid) then
      s.(published := Some(Record(pid, version)))
    else s
  }

  function Next(s: State, step: Step): State {
    match step
    case Launch(l) => if l in s.places then s else Move(s, l, Begin)
    case Read(l) => ReadStep(s, l)
    case ReadBlank(l) => ReadBlankStep(s, l)
    case ReadFails(l) => ReadFailsStep(s, l)
    case Observe(l, available) => ObserveStep(s, l, available)
    case TryLock(l) => LockStep(s, l)
    case LockTimesOut(l) => if At(s, l).AwaitingLock? then Move(s, l, Finished(Failed)) else s
    case Spawn(l, pid) => SpawnStep(s, l, pid)
    case SpawnFails(l) => if At(s, l).ReadyToSpawn? then Move(s, l, Releasing(Failed)) else s
    case Bind(l) => if At(s, l).Unbound? then Move(s, l, Polling(At(s, l).child)) else s
    case BindFails(l) => if At(s, l).Unbound? then Move(s, l, Releasing(Failed)) else s
    case Interrupt(l) => InterruptStep(s, l)
    case TimeOut(l) => if At(s, l).Polling? then Move(s, l, FinalRead(At(s, l).child, s.published)) else s
    case Reap(l) => ReapStep(s, l)
    case ReapFails(l) => ReapFailsStep(s, l)
    case Release(l) => ReleaseStep(s, l)
    case Kill(l) => KillStep(s, l)
    case Start(pid) => if pid in s.used then s else s.(alive := s.alive + {pid}, used := s.used + {pid})
    case Publish(pid, version) => PublishStep(s, pid, version)
    case Die(pid) => s.(alive := s.alive - {pid})
  }

  function Run(s: State, steps: seq<Step>): State
    decreases |steps|
  {
    if steps == [] then s else Run(Next(s, steps[0]), steps[1..])
  }

  predicate Fresh(s: State) {
    && s.places == map[] && s.lock.None? && s.spawned == {}
    && s.alive <= s.used && (s.published.Some? ==> s.published.value.pid in s.used)
  }
}
