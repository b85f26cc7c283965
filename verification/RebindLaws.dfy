/** What a rebind promises over every run, crashes and other components' writes included. */
module RebindLaws {
  import opened JsonValues
  import opened Rebind

  // The invariant

  predicate TookEffect(state: TransferState) {
    state.Committed? || state.Consumed?
  }

  /** Until a transfer takes effect the authority at its prior generation is the predecessor; once
      it has, the authority at its successor generation is the successor, under this token. */
  predicate AuthorityAgrees(a: Authority, t: Token, state: TransferState) {
    && t.successorGeneration == t.priorGeneration + 1
    && a.generation >= t.priorGeneration
    && (a.generation == t.priorGeneration ==> a.attempt == t.priorAttempt && a.fence == t.priorFence)
    && (TookEffect(state) ==>
          && a.generation >= t.successorGeneration
          && (a.generation == t.successorGeneration ==>
                a.attempt == t.successorAttempt && a.fence == t.successorFence && a.token == Some(t)))
    && (!TookEffect(state) ==> a.token != Some(t))
  }

  predicate OutboxAgrees(o: Outbox, t: Token, state: TransferState) {
    && o.digest == t.outboxDigest && o.settlement == t.settlement && o.generation == t.rebindGeneration
    && o.attempt == Some(t.successorAttempt) && o.fence == Some(t.successorFence)
    && (if state.Prepared? then o.state.OutboxPrepared? else o.state.OutboxConsumed?)
  }

  predicate TransferSound(s: Registry, t: Token) {
    && t in s.transfers && t.suspension in s.outboxes && s.authority.Some?
    && OutboxAgrees(s.outboxes[t.suspension], t, s.transfers[t])
    && AuthorityAgrees(s.authority.value, t, s.transfers[t])
  }

  predicate TokenKnown(s: Registry) {
    s.authority.Some? && s.authority.value.token.Some? ==> s.authority.value.token.value in s.transfers
  }

  predicate OneTransferPerOutbox(s: Registry) {
    forall t, u :: t in s.transfers && u in s.transfers && t.suspension == u.suspension ==> t == u
  }

  predicate Sound(s: Registry) {
    (forall t :: t in s.transfers ==> TransferSound(s, t)) && OneTransferPerOutbox(s) && TokenKnown(s)
  }

  // Steps and runs

  /** A write of the authority by another component: the row keeps attempt, fence and token at its
      generation, or moves to a later generation, dropping the token when the attempt changes. */
  predicate AuthorityMoves(a: Option<Authority>, b: Option<Authority>) {
    match (a, b)
    case (None, None) => true
    case (None, Some(y)) => y.token.None?
    case (Some(_), None) => false
    case (Some(x), Some(y)) =>
      || (y.generation == x.generation && y.attempt == x.attempt && y.fence == x.fence && y.token == x.token)
      || (y.generation > x.generation && y.token.None?)
      || (y.generation > x.generation && y.attempt == x.attempt && y.fence == x.fence && y.token == x.token)
  }

  /** Other components never write a transfer, nor the outbox of one. */
  predicate WorldStep(s: Registry, after: Registry) {
    && after.transfers == s.transfers
    && (forall t :: t in s.transfers ==>
                      t.suspension in s.outboxes && t.suspension in after.outboxes &&
                      after.outboxes[t.suspension] == s.outboxes[t.suspension])
    && AuthorityMoves(s.authority, after.authority)
  }

  datatype Step =
    | PrepareStep(caller: Caller, now: int)
    | CommitStep(caller: Caller, token: Token, generation: nat, identity: string, now: int)
    | AckStep(caller: Caller, token: Token, content: AckContent, digest: AckDigest)
    | LossStep(token: Token, restored: Restore)
    | RecoveryStep(caller: Caller, token: Token, restored: Restore, generation: nat, identity: string)
    | CancelStep(now: int)
    | World(after: Registry)
    | Crash

  function Attempted(s: Registry, step: Step): Outcome {
    match step
    case PrepareStep(c, now) => Prepare(s, c, now)
    case CommitStep(c, t, g, id, now) => Commit(s, c, t, g, id, now)
    case AckStep(c, t, content, digest) => Acknowledge(s, c, t, content, digest)
    case LossStep(t, r) => MarkWorkerLost(s, t, r)
    case RecoveryStep(c, t, r, g, id) => BindRecovery(s, c, t, r, g, id)
    case CancelStep(now) => CancelQueued(s, now)
    case World(after) => if WorldStep(s, after) then Done(after) else Refused(InvalidTransition)
    case Crash => Refused(Crashed)
  }

  /** A refused or crashed transaction is rolled back. */
  function Next(s: Registry, step: Step): Registry {
    var o := Attempted(s, step);
    if o.Done? then o.registry else s
  }

  function Run(s: Registry, steps: seq<Step>): Registry
    decreases |steps|
  {
    if steps == [] then s else Run(Next(s, steps[0]), steps[1..])
  }

  // What a step may do to one transfer and to the authority

  predicate Forward(x: TransferState, y: TransferState) {
    || y == x
    || x.Prepared?
    || (x.Committed? && y.Consumed?)
  }

  /** At one generation there is one attempt, fence and token, and generations never go back. */
  predicate AuthorityLater(a: Option<Authority>, b: Option<Authority>) {
    a.Some? ==>
      && b.Some? && a.value.generation <= b.value.generation
      && (a.value.generation == b.value.generation ==>
            b.value.attempt == a.value.attempt && b.value.fence == a.value.fence && b.value.token == a.value.token)
  }

  predicate Advances(s: Registry, after: Registry) {
    && (forall t :: t in s.transfers ==> t in after.transfers && Forward(s.transfers[t], after.transfers[t]))
    && AuthorityLater(s.authority, after.authority)
  }

  lemma AdvancesComposes(a: Registry, b: Registry, c: Registry)
    requires Advances(a, b) && Advances(b, c)
    ensures Advances(a, c)
  {
    forall t | t in a.transfers ensures t in c.transfers && Forward(a.transfers[t], c.transfers[t]) {
      assert Forward(a.transfers[t], b.transfers[t]) && Forward(b.transfers[t], c.transfers[t]);
    }
  }

  lemma PrepareKeepsSound(s: Registry, c: Caller, now: int)
    requires Sound(s) && Prepare(s, c, now).Done?
    ensures Sound(Prepare(s, c, now).registry) && Advances(s, Prepare(s, c, now).registry)
  {
    hide PrepareOn, Sound, Advances;
    PendingIsOne(PendingOutboxes(s));
    var k :| k in PendingOutboxes(s);
    PreparedIsSound(s, c, k, now);
  }

  lemma MadeAgrees(s: Registry, c: Caller, k: nat)
    requires Sound(s) && MayPrepare(s, k) && TokenFor(s, c, k) !in s.transfers
    ensures AuthorityAgrees(s.authority.value, TokenFor(s, c, k), Prepared)
  {
    hide OutboxAgrees, OneTransferPerOutbox;
  }

  lemma PreparedIsSound(s: Registry, c: Caller, k: nat, now: int)
    requires Sound(s) && k in PendingOutboxes(s) && PrepareOn(s, c, k, now).Done?
    ensures Sound(PrepareOn(s, c, k, now).registry) && Advances(s, PrepareOn(s, c, k, now).registry)
  {
    hide PredecessorQuiet, SettlementBinds, GenerationFree, AttemptIsRunning, AuthorityAgrees;
    var after := PrepareOn(s, c, k, now).registry;
    var made := TokenFor(s, c, k);
    MadeAgrees(s, c, k);
    forall t | t in s.transfers ensures t.suspension != k && TransferSound(after, t) {
      assert TransferSound(s, t);
    }
    assert TransferSound(after, made);
  }

  /** Two states of a transfer that agree on whether it is prepared and whether it took effect
      constrain the other rows alike. */
  lemma AgreesAlike(a: Authority, o: Outbox, t: Token, x: TransferState, y: TransferState)
    requires AuthorityAgrees(a, t, x) && OutboxAgrees(o, t, x)
    requires (x.Prepared? <==> y.Prepared?) && (TookEffect(x) <==> TookEffect(y))
    ensures AuthorityAgrees(a, t, y) && OutboxAgrees(o, t, y)
  {
  }

  /** Consuming the outbox of a prepared transfer and aborting it go together. */
  lemma AbortAgrees(a: Authority, o: Outbox, t: Token)
    requires AuthorityAgrees(a, t, Prepared) && OutboxAgrees(o, t, Prepared)
    ensures AuthorityAgrees(a, t, Aborted) && OutboxAgrees(o.(state := OutboxConsumed), t, Aborted)
  {
  }

  lemma CommitAgrees(a: Authority, o: Outbox, t: Token)
    requires OutboxAgrees(o, t, Prepared) && AuthorityAgrees(a, t, Prepared) && a.generation == t.priorGeneration
    ensures var b := a.(attempt := t.successorAttempt, fence := t.successorFence, generation := t.successorGeneration,
                        token := Some(t));
      AuthorityAgrees(b, t, Committed) && OutboxAgrees(o.(state := OutboxConsumed), t, Committed)
  {
  }

  lemma CommitKeepsSound(s: Registry, c: Caller, t: Token, generation: nat, identity: string, now: int)
    requires Sound(s) && Commit(s, c, t, generation, identity, now).Done?
    ensures Sound(Commit(s, c, t, generation, identity, now).registry)
    ensures Advances(s, Commit(s, c, t, generation, identity, now).registry)
  {
    hide SameControls, WorkerMatches, CommitStands, CellHeldByPredecessor, DispatchedTo, AuthorityAgrees, OutboxAgrees;
    var after := Commit(s, c, t, generation, identity, now).registry;
    if after != s {
      assert TransferSound(s, t);
      forall u | u in s.transfers && u != t ensures TransferSound(after, u) {
        assert TransferSound(s, u);
        PriorOf(s, t);
        OthersAfterCommit(s.authority.value, after.authority.value, t, u, s.transfers[u]);
      }
      CommitAgrees(s.authority.value, s.outboxes[t.suspension], t);
    }
  }

  lemma PriorOf(s: Registry, t: Token)
    requires TransferSound(s, t)
    ensures t.successorGeneration == t.priorGeneration + 1
  {
  }

  /** A commit advances the authority past every other transfer's window. */
  lemma OthersAfterCommit(a: Authority, b: Authority, t: Token, u: Token, state: TransferState)
    requires AuthorityAgrees(a, u, state) && u != t
    requires a.generation == t.priorGeneration && t.successorGeneration == t.priorGeneration + 1
    requires b.generation == t.successorGeneration && b.token == Some(t)
    ensures AuthorityAgrees(b, u, state)
  {
  }

  lemma AckKeepsSound(s: Registry, c: Caller, t: Token, content: AckContent, digest: AckDigest)
    requires Sound(s) && Acknowledge(s, c, t, content, digest).Done?
    ensures Sound(Acknowledge(s, c, t, content, digest).registry)
    ensures Advances(s, Acknowledge(s, c, t, content, digest).registry)
  {
    hide AckMatches, Sound, Advances;
    if s.transfers[t].Committed? {
      ReplacedIsSound(s, t, Consumed(WorkerAck(digest)));
    } else {
      AdvancesNowhere(s);
    }
  }

  lemma ReplacedIsSound(s: Registry, t: Token, state: TransferState)
    requires Sound(s) && t in s.transfers && s.transfers[t].Committed? && state.Consumed?
    ensures var after := s.(transfers := s.transfers[t := state]);
      Sound(after) && Advances(s, after)
  {
    hide AuthorityAgrees, OutboxAgrees;
    var after := s.(transfers := s.transfers[t := state]);
    forall u | u in s.transfers ensures TransferSound(after, u) {
      assert TransferSound(s, u);
      AgreesAlike(s.authority.value, s.outboxes[u.suspension], u, s.transfers[u], after.transfers[u]);
    }
  }

  lemma LossKeepsSound(s: Registry, t: Token, restored: Restore)
    requires Sound(s) && MarkWorkerLost(s, t, restored).Done?
    ensures Sound(MarkWorkerLost(s, t, restored).registry)
    ensures Advances(s, MarkWorkerLost(s, t, restored).registry)
  {
    hide AuthorityAgrees, OutboxAgrees, LossReplayed;
    var after := MarkWorkerLost(s, t, restored).registry;
    forall u | u in s.transfers ensures TransferSound(after, u) {
      assert TransferSound(s, u);
      if u == t && s.transfers[t].Prepared? {
        AbortAgrees(s.authority.value, s.outboxes[t.suspension], t);
      } else if u == t {
        AgreesAlike(s.authority.value, s.outboxes[t.suspension], t, s.transfers[t], after.transfers[t]);
      }
    }
  }

  lemma RecoveryKeepsSound(s: Registry, c: Caller, t: Token, r: Restore, generation: nat, identity: string)
    requires Sound(s) && BindRecovery(s, c, t, r, generation, identity).Done?
    ensures Sound(BindRecovery(s, c, t, r, generation, identity).registry)
    ensures Advances(s, BindRecovery(s, c, t, r, generation, identity).registry)
  {
    var after := BindRecovery(s, c, t, r, generation, identity).registry;
    forall u | u in s.transfers ensures TransferSound(after, u) {
      assert TransferSound(s, u) && TransferSound(s, t);
    }
  }

  lemma CancelAgrees(a: Authority, o: Outbox, t: Token, state: TransferState)
    requires AuthorityAgrees(a, t, state) && OutboxAgrees(o, t, state)
    ensures AuthorityAgrees(a, t, CancelledTransfer(state)) &&
            OutboxAgrees(CancelledOutbox(o), t, CancelledTransfer(state))
  {
  }

  lemma CancelKeepsSound(s: Registry, now: int)
    requires Sound(s) && CancelQueued(s, now).Done?
    ensures Sound(CancelQueued(s, now).registry) && Advances(s, CancelQueued(s, now).registry)
  {
    hide Quiescent, AuthorityAgrees, OutboxAgrees;
    var after := CancelQueued(s, now).registry;
    forall u | u in s.transfers ensures TransferSound(after, u) {
      assert TransferSound(s, u);
      CancelAgrees(s.authority.value, s.outboxes[u.suspension], u, s.transfers[u]);
    }
  }

  lemma WorldKeepsSound(s: Registry, after: Registry)
    requires Sound(s) && WorldStep(s, after)
    ensures Sound(after) && Advances(s, after)
  {
    forall u | u in s.transfers ensures TransferSound(after, u) {
      assert TransferSound(s, u);
    }
  }

  lemma NextKeepsSound(s: Registry, step: Step)
    requires Sound(s)
    ensures Sound(Next(s, step)) && Advances(s, Next(s, step))
  {
    hide Sound, Advances, Prepare, Commit, Acknowledge, MarkWorkerLost, BindRecovery, CancelQueued, WorldStep;
    if Attempted(s, step).Refused? {
      AdvancesNowhere(s);
    } else {
      match step
      case PrepareStep(c, now) => PrepareKeepsSound(s, c, now);
      case CommitStep(c, t, g, id, now) => CommitKeepsSound(s, c, t, g, id, now);
      case AckStep(c, t, content, digest) => AckKeepsSound(s, c, t, content, digest);
      case LossStep(t, r) => LossKeepsSound(s, t, r);
      case RecoveryStep(c, t, r, g, id) => RecoveryKeepsSound(s, c, t, r, g, id);
      case CancelStep(now) => CancelKeepsSound(s, now);
      case World(after) => WorldKeepsSound(s, after);
      case Crash =>
    }
  }

  lemma AdvancesNowhere(s: Registry)
    ensures Advances(s, s)
  {
  }

  // Main results

  /** Over every run of prepares, commits, acknowledgements, losses, recoveries, cancellations,
      crashes and other writes, transfers and the authority stay in agreement and only move on. */
  lemma {:induction false} RunKeepsSound(s: Registry, steps: seq<Step>)
    requires Sound(s)
    ensures Sound(Run(s, steps)) && Advances(s, Run(s, steps))
    decreases |steps|
  {
    hide Sound, Advances, Next;
    if steps == [] {
      AdvancesNowhere(s);
    } else {
      NextKeepsSound(s, steps[0]);
      RunKeepsSound(Next(s, steps[0]), steps[1..]);
      AdvancesComposes(s, Next(s, steps[0]), Run(s, steps));
    }
  }

  predicate Empty(s: Registry) {
    s.transfers == map[] && (s.authority.Some? ==> s.authority.value.token.None?)
  }

  lemma RunsStaySound(start: Registry, steps: seq<Step>)
    requires Empty(start)
    ensures Sound(Run(start, steps))
  {
    hide Run, Advances;
    RunKeepsSound(start, steps);
  }

  /** A transfer, its outbox and the authority move together: in every registry a run reaches, the
      outbox is consumed exactly when the transfer is no longer prepared, the transfer took effect
      exactly when its outbox is consumed and it was not aborted, and the authority at the
      generations it hands over is the one its state says. */
  lemma HandOverIsAtomic(start: Registry, steps: seq<Step>, t: Token)
    requires Empty(start) && t in Run(start, steps).transfers
    ensures var s := Run(start, steps);
      && t.suspension in s.outboxes && s.authority.Some?
      && (s.outboxes[t.suspension].state.OutboxConsumed? <==> !s.transfers[t].Prepared?)
      && (TookEffect(s.transfers[t]) <==> s.outboxes[t.suspension].state.OutboxConsumed? && !s.transfers[t].Aborted?)
      && (s.authority.value.generation == t.priorGeneration ==>
            && !TookEffect(s.transfers[t])
            && s.authority.value.attempt == t.priorAttempt && s.authority.value.fence == t.priorFence)
      && (TookEffect(s.transfers[t]) && s.authority.value.generation == t.successorGeneration ==>
            s.authority.value.attempt == t.successorAttempt && s.authority.value.token == Some(t))
      && (s.authority.value.token == Some(t) ==> TookEffect(s.transfers[t]))
  {
    hide Run, Empty;
    RunsStaySound(start, steps);
    assert TransferSound(Run(start, steps), t);
  }

  /** Authority generations strictly grow: over any run the generation never goes back, and one
      generation never names two attempts, fences or tokens. */
  lemma GenerationNamesOneAuthority(s: Registry, steps: seq<Step>)
    requires Sound(s) && s.authority.Some?
    ensures var b := Run(s, steps).authority;
      && b.Some? && s.authority.value.generation <= b.value.generation
      && (s.authority.value.generation == b.value.generation ==>
            b.value.attempt == s.authority.value.attempt && b.value.fence == s.authority.value.fence
            && b.value.token == s.authority.value.token)
  {
    hide Run, Sound;
    RunKeepsSound(s, steps);
  }

  /** What happened to a transfer stays: a commit never becomes an abort, an abort never becomes
      anything else, and a transfer is consumed once, in one way. */
  lemma TransferFateIsFinal(s: Registry, steps: seq<Step>, t: Token)
    requires Sound(s) && t in s.transfers
    ensures var after := Run(s, steps); t in after.transfers
    ensures var x, y := s.transfers[t], Run(s, steps).transfers[t];
      && (x.Committed? ==> !y.Aborted? && !y.Prepared?)
      && (x.Aborted? || x.Consumed? ==> y == x)
  {
    hide Run, Sound;
    RunKeepsSound(s, steps);
  }

  /** While a transfer is prepared, the authority it was prepared from has not been handed to its successor,
      and only a commit by that successor, live and in time, makes the transfer take effect. */
  lemma PredecessorUntilCommit(start: Registry, steps: seq<Step>, t: Token, step: Step)
    requires Empty(start) && t in Run(start, steps).transfers && Run(start, steps).transfers[t].Prepared?
    ensures var s := Run(start, steps);
      && s.authority.Some? && s.authority.value.token != Some(t)
      && (s.authority.value.generation == t.priorGeneration ==>
            s.authority.value.attempt == t.priorAttempt && s.authority.value.fence == t.priorFence)
    ensures var after := Next(Run(start, steps), step);
      t in after.transfers && TookEffect(after.transfers[t]) ==>
        && step.CommitStep? && step.token == t && step.now < t.deadline
        && step.caller.live && step.caller.attempt == t.successorAttempt
  {
    hide Run, Empty, Next, OneTransferPerOutbox, TokenKnown;
    RunsStaySound(start, steps);
    assert TransferSound(Run(start, steps), t);
    OnlyItsCommitTakesEffect(Run(start, steps), step, t);
  }

  lemma OnlyItsCommitTakesEffect(s: Registry, step: Step, t: Token)
    requires t in s.transfers && s.transfers[t].Prepared?
    ensures t in Next(s, step).transfers && TookEffect(Next(s, step).transfers[t]) ==>
              && step.CommitStep? && step.token == t && step.now < t.deadline
              && step.caller.live && step.caller.attempt == t.successorAttempt
  {
    hide CommitStands, LossJoined, LossReplayed, MayLose, AwaitsRecovery, Quiescent, MayPrepare, PredecessorQuiet,
      SettlementBinds, GenerationFree, AttemptIsRunning, CellHeldByPredecessor, OutboxHeldBy, AckMatches;
  }

  /** The authority has moved past the generation the transfer was prepared at, without it. */
  predicate Overtaken(s: Registry, t: Token) {
    && t in s.transfers && !TookEffect(s.transfers[t])
    && s.authority.Some? && s.authority.value.generation > t.priorGeneration
  }

  lemma OvertakenStays(s: Registry, step: Step, t: Token)
    requires Sound(s) && Overtaken(s, t)
    ensures Overtaken(Next(s, step), t)
  {
    hide Sound, WorldStep, CommitStands, LossJoined, LossReplayed, MayLose, AwaitsRecovery, Quiescent, MayPrepare,
      PredecessorQuiet, SettlementBinds, GenerationFree, AttemptIsRunning;
    NextKeepsSound(s, step);
    if step.World? && WorldStep(s, step.after) {
      WorldKeepsTransfers(s, step.after);
    } else if step.PrepareStep? && Prepare(s, step.caller, step.now).Done? {
      PendingIsOne(PendingOutboxes(s));
    }
  }

  lemma WorldKeepsTransfers(s: Registry, after: Registry)
    requires WorldStep(s, after)
    ensures after.transfers == s.transfers
  {
  }

  /** A transfer the authority has passed by never takes effect: no later registry of any run accepts
      its commit, whoever makes it. */
  lemma {:induction false} OvertakenNeverCommits(s: Registry, steps: seq<Step>, t: Token, c: Caller, generation: nat,
                                                 identity: string, now: int)
    requires Sound(s) && Overtaken(s, t)
    ensures Overtaken(Run(s, steps), t) && Commit(Run(s, steps), c, t, generation, identity, now).Refused?
    decreases |steps|
  {
    hide Sound, Next;
    if steps != [] {
      OvertakenStays(s, steps[0], t);
      NextKeepsSound(s, steps[0]);
      OvertakenNeverCommits(Next(s, steps[0]), steps[1..], t, c, generation, identity, now);
    }
  }

  /** Acknowledgement and loss exclude each other: once one consumed a transfer, the other is
      refused in every later registry. */
  lemma AckAndLossExclude(s: Registry, steps: seq<Step>, t: Token, c: Caller, content: AckContent, digest: AckDigest,
                          restored: Restore)
    requires Sound(s) && t in s.transfers && s.transfers[t].Consumed?
    ensures var now := Run(s, steps);
      && (s.transfers[t].kind.FencedLoss? ==> Acknowledge(now, c, t, content, digest).Refused?)
      && (s.transfers[t].kind.WorkerAck? ==> MarkWorkerLost(now, t, restored).Refused?)
      && (s.transfers[t] != Consumed(WorkerAck(digest)) ==> Acknowledge(now, c, t, content, digest).Refused?)
  {
    hide Run, Sound;
    TransferFateIsFinal(s, steps, t);
  }

  /** The loss of a worker whose transfer was only prepared consumes the outbox without a commit:
      the transfer is aborted and the predecessor keeps the authority. So "the outbox is consumed"
      does not by itself mean that a successor took over. */
  lemma LossBeforeCommitConsumesTheOutbox(s: Registry, t: Token, restored: Restore)
    requires Sound(s) && t in s.transfers && s.transfers[t].Prepared? && MarkWorkerLost(s, t, restored).Done?
    ensures var after := MarkWorkerLost(s, t, restored).registry;
      && t in after.transfers && after.transfers[t].Aborted?
      && t.suspension in after.outboxes && after.outboxes[t.suspension].state.OutboxConsumed?
      && after.authority == s.authority && after.authority.Some? && after.authority.value.attempt == t.priorAttempt
  {
    hide OneTransferPerOutbox, TokenKnown;
    assert TransferSound(s, t);
  }

  /** A recovery is bound at most once per lost transfer: once it is, no later call binds another. */
  lemma RecoveryBindsOnce(s: Registry, c: Caller, t: Token, r: Restore, generation: nat, identity: string,
                          steps: seq<Step>, c': Caller, r': Restore, generation': nat, identity': string)
    requires Sound(s) && BindRecovery(s, c, t, r, generation, identity).Done?
    ensures var now := Run(BindRecovery(s, c, t, r, generation, identity).registry, steps);
      BindRecovery(now, c', t, r', generation', identity').Refused?
  {
    hide Run, Sound, OneTransferPerOutbox;
    var after := BindRecovery(s, c, t, r, generation, identity).registry;
    RecoveryKeepsSound(s, c, t, r, generation, identity);
    RunKeepsSound(after, steps);
    TransferFateIsFinal(after, steps, t);
    GenerationNamesOneAuthority(after, steps);
  }

  /** A prepared successor that is committed at once does take over: the guards of a commit follow
      from the prepare when the worker, the dispatch and the suspended cell are still in place. */
  lemma PreparedCommits(s: Registry, c: Caller, now: int, t: Token, later: int)
    requires Sound(s) && Prepare(s, c, now).Done? && t !in s.transfers && t in Prepare(s, c, now).registry.transfers
    requires c.live && s.dispatch.DispatchRunning? && s.currentAttempt == Some(c.number) && later < t.deadline
    requires t.cell in s.cells && s.cells[t.cell] == Cell(CellSuspended, t.priorAttempt, t.priorFence)
    ensures var after := Commit(Prepare(s, c, now).registry, c, t, t.workerGeneration, t.workerIdentity, later);
      && after.Done? && after.registry.authority.Some?
      && after.registry.authority.value.attempt == c.attempt && after.registry.authority.value.fence == c.fence
      && after.registry.authority.value.generation == s.authority.value.generation + 1
      && t in after.registry.transfers && after.registry.transfers[t].Committed?
  {
    hide PredecessorQuiet, SettlementBinds, GenerationFree, AttemptIsRunning, TokenKnown, OneTransferPerOutbox;
  }
}
