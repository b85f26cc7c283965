/** The ledger of verify_registry_v5_migration.py: a chain of events, each digest being the event it was taken from. */
module CutoverLedger {
  import opened JsonValues

  /** A JSON value; objects have no order. */
  datatype Value =
    | Nothing
    | Flag(flag: bool)
    | Number(number: int)
    | Text(text: string)
    | List(items: seq<Value>)
    | Mapping(fields: map<string, Value>)

  /** An event payload. `epoch` is whatever stands there, if anything does; `sequence`, `state` and `occurredAt`
      are `None` when they are absent or of the wrong type. `rest` stands for the payload's remaining fields,
      which the digest covers too. */
  datatype Event = Event(epoch: Option<Value>, sequence: Option<int>, previous: Option<Digest>,
                         state: Option<string>, occurredAt: Option<int>, rest: map<string, Option<string>>)

  /** `OtherDigest` is anything that is the digest of no event, text or not; none at all, and null, is `None`. */
  datatype Digest = OfEvent(event: Event) | OtherDigest(value: Value)

  /** A ledger entry: `event` is `None` when the document carries no object of that name. */
  datatype Document = NotAnObject | Document(event: Option<Event>, digest: Option<Digest>)

  datatype Ledger = Ledger(epoch: Option<Value>, events: Option<seq<Document>>, head: Option<Digest>)

  datatype Fault =
    | EventsMissing
    | DocumentInvalid
    | PayloadInvalid
    | DigestMismatch
    | EpochMismatch
    | SequenceMismatch
    | PreviousMismatch
    | TimeRegression
    | StateInvalid
    | IllegalPath
    | HeadMismatch

  const BEFORE_ALL_TIMES: int := -1

  /** `build_cutover_event`. */
  function BuildEvent(epoch: string, sequence: int, previous: Option<Digest>, state: string, occurredAt: int,
                      rest: map<string, Option<string>>): Document {
    var event := Event(Some(Text(epoch)), Some(sequence), previous, Some(state), Some(occurredAt), rest);
    Document(Some(event), Some(OfEvent(event)))
  }

  /** `get("cutover_epoch")`: nothing there reads as null. */
  function Read(epoch: Option<Value>): Value {
    if epoch.Some? then epoch.value else Nothing
  }

  // What an accepted ledger is

  predicate WellFormed(d: Document) {
    d.Document? && d.event.Some? && d.digest == Some(OfEvent(d.event.value))
  }

  function LinkOf(d: Document): Option<Digest> {
    if d.Document? then d.digest else None
  }

  function TimeOf(d: Document): int {
    if d.Document? && d.event.Some? && d.event.value.occurredAt.Some? then d.event.value.occurredAt.value
    else BEFORE_ALL_TIMES
  }

  function StateOf(d: Document): string {
    if d.Document? && d.event.Some? && d.event.value.state.Some? then d.event.value.state.value else ""
  }

  /** The digest the entry at `i` must name as its predecessor. */
  function PreviousDigest(events: seq<Document>, i: nat): Option<Digest>
    requires i <= |events|
  {
    if i == 0 then None else LinkOf(events[i - 1])
  }

  /** The time the entry at `i` must not precede. */
  function PreviousTime(events: seq<Document>, i: nat): int
    requires i <= |events|
  {
    if i == 0 then BEFORE_ALL_TIMES else TimeOf(events[i - 1])
  }

  /** The digest, sequence and predecessor checks on one entry. */
  predicate Linked(events: seq<Document>, i: nat)
    requires i < |events|
  {
    && WellFormed(events[i])
    && events[i].event.value.sequence == Some(i)
    && events[i].event.value.previous == PreviousDigest(events, i)
  }

  predicate Chained(events: seq<Document>) {
    forall i {:trigger Linked(events, i)} :: 0 <= i < |events| ==> Linked(events, i)
  }

  /** The remaining checks on one entry. */
  predicate Dated(events: seq<Document>, epoch: Option<Value>, i: nat)
    requires i < |events|
  {
    && WellFormed(events[i])
    && Read(events[i].event.value.epoch) == Read(epoch)
    && events[i].event.value.occurredAt.Some? && PreviousTime(events, i) <= TimeOf(events[i])
    && events[i].event.value.state.Some?
  }

  predicate AllDated(events: seq<Document>, epoch: Option<Value>) {
    forall i {:trigger Dated(events, epoch, i)} :: 0 <= i < |events| ==> Dated(events, epoch, i)
  }

  function StatesOf(events: seq<Document>): seq<string> {
    seq(|events|, i requires 0 <= i < |events| => StateOf(events[i]))
  }

  const ROLLED_BACK: seq<string> := ["prepared", "candidate_active", "rolled_back_before_write"]

  const WENT_FORWARD: seq<string> := ["prepared", "candidate_active", "post_snapshot_write", "retired_forward"]

  predicate Accepted(l: Ledger) {
    && l.events.Some? && l.events.value != []
    && var events := l.events.value;
    && Chained(events) && AllDated(events, l.epoch)
    && (StatesOf(events) == ROLLED_BACK || StatesOf(events) == WENT_FORWARD)
    && l.head == LinkOf(events[|events| - 1])
  }

  // The validator

  /** What is wrong with one entry, the earliest check first. */
  function EntryFault(d: Document, epoch: Option<Value>, sequence: nat, previous: Option<Digest>,
                      time: int): Option<Fault> {
    if !d.Document? then Some(DocumentInvalid)
    else if d.event.None? then Some(PayloadInvalid)
    else if d.digest != Some(OfEvent(d.event.value)) then Some(DigestMismatch)
    else if Read(d.event.value.epoch) != Read(epoch) then Some(EpochMismatch)
    else if d.event.value.sequence != Some(sequence) then Some(SequenceMismatch)
    else if d.event.value.previous != previous then Some(PreviousMismatch)
    else if d.event.value.occurredAt.None? || d.event.value.occurredAt.value < time then Some(TimeRegression)
    else if d.event.value.state.None? then Some(StateInvalid)
    else None
  }

  lemma FaultlessIsGood(events: seq<Document>, epoch: Option<Value>, i: nat)
    requires i < |events|
    ensures EntryFault(events[i], epoch, i, PreviousDigest(events, i), PreviousTime(events, i)).None? <==>
            Linked(events, i) && Dated(events, epoch, i)
  {
    hide PreviousDigest, PreviousTime;
  }

  predicate PassedUpTo(events: seq<Document>, epoch: Option<Value>, n: nat)
    requires n <= |events|
  {
    forall i {:trigger Linked(events, i)} {:trigger Dated(events, epoch, i)} :: 0 <= i < n ==>
      Linked(events, i) && Dated(events, epoch, i)
  }

  /** The entry at `n` is the first that fails, and `fault` is its first failing check. */
  predicate FirstBadEntry(l: Ledger, n: nat, fault: Fault) {
    && l.events.Some? && n < |l.events.value|
    && var events := l.events.value;
    && PassedUpTo(events, l.epoch, n)
    && EntryFault(events[n], l.epoch, n, PreviousDigest(events, n), PreviousTime(events, n)) == Some(fault)
  }

  ghost predicate SomeBadEntry(l: Ledger, fault: Fault) {
    exists n :: FirstBadEntry(l, n, fault)
  }

  predicate EntriesPass(l: Ledger) {
    && l.events.Some? && l.events.value != []
    && Chained(l.events.value) && AllDated(l.events.value, l.epoch)
  }

  /** `validate_terminal_cutover_ledger`: it returns exactly for accepted ledgers, and otherwise
      names the first check that fails. */
  method Validate(l: Ledger) returns (r: Result<(), Fault>)
    ensures r.Ok? <==> Accepted(l)
    ensures r == Err(EventsMissing) <==> l.events.None? || l.events.value == []
    ensures r.Err? && r.error !in {EventsMissing, IllegalPath, HeadMismatch} <==> r.Err? && SomeBadEntry(l, r.error)
    ensures r == Err(IllegalPath) <==>
            EntriesPass(l) && StatesOf(l.events.value) != ROLLED_BACK && StatesOf(l.events.value) != WENT_FORWARD
    ensures r == Err(HeadMismatch) ==> EntriesPass(l) && l.head != LinkOf(l.events.value[|l.events.value| - 1])
  {
    hide Linked, Dated, EntryFault, SomeBadEntry;
    FaultKinds(l);
    if l.events.None? || l.events.value == [] {
      return Err(EventsMissing);
    }
    var events := l.events.value;
    var states: seq<string> := [];
    var previousDigest: Option<Digest> := None;
    var previousTime := BEFORE_ALL_TIMES;
    var sequence := 0;
    while sequence < |events|
      invariant 0 <= sequence <= |events|
      invariant states == StatesOf(events[..sequence])
      invariant PassedUpTo(events, l.epoch, sequence)
      invariant previousDigest == PreviousDigest(events, sequence)
      invariant previousTime == PreviousTime(events, sequence)
    {
      var d := events[sequence];
      var fault := EntryFault(d, l.epoch, sequence, previousDigest, previousTime);
      FaultlessIsGood(events, l.epoch, sequence);
      if fault.Some? {
        IsBadEntry(l, sequence, fault.value);
        return Err(fault.value);
      }
      GoodHasParts(events, l.epoch, sequence);
      previousTime := d.event.value.occurredAt.value;
      states := states + [d.event.value.state.value];
      assert events[..sequence + 1] == events[..sequence] + [d];
      previousDigest := d.digest;
      sequence := sequence + 1;
    }
    assert events[..|events|] == events;
    if states != ROLLED_BACK && states != WENT_FORWARD {
      return Err(IllegalPath);
    }
    if l.head != previousDigest {
      return Err(HeadMismatch);
    }
    return Ok(());
  }

  lemma IsBadEntry(l: Ledger, n: nat, fault: Fault)
    requires FirstBadEntry(l, n, fault)
    ensures SomeBadEntry(l, fault)
  {
  }

  lemma GoodHasParts(events: seq<Document>, epoch: Option<Value>, i: nat)
    requires i < |events| && Linked(events, i) && Dated(events, epoch, i)
    ensures events[i].Document? && events[i].event.Some?
    ensures events[i].event.value.occurredAt == Some(TimeOf(events[i]))
    ensures events[i].event.value.state == Some(StateOf(events[i]))
  {
    hide PreviousDigest, PreviousTime;
  }

  /** The faults of single entries are told apart from the faults of the whole ledger. */
  lemma FaultKinds(l: Ledger)
    ensures forall fault :: SomeBadEntry(l, fault) ==> fault !in {EventsMissing, IllegalPath, HeadMismatch}
  {
    hide PassedUpTo, PreviousDigest, PreviousTime;
  }

  // What acceptance means

  lemma LinkedParts(a: seq<Document>, i: nat)
    requires i < |a| && Linked(a, i)
    ensures a[i].Document? && a[i].event.Some? && a[i] == Document(a[i].event, Some(OfEvent(a[i].event.value)))
    ensures a[i].event.value.sequence == Some(i) && a[i].event.value.previous == PreviousDigest(a, i)
  {
    hide PreviousDigest;
  }

  /** The head digest commits to the whole history: two chains of any length that pass the
      sequence, predecessor and digest checks and end in the same digest are the same entries. */
  lemma {:induction false} HeadCommitsToHistory(a: seq<Document>, b: seq<Document>)
    requires Chained(a) && Chained(b) && a != [] && b != []
    requires LinkOf(a[|a| - 1]) == LinkOf(b[|b| - 1])
    ensures a == b
    decreases |a|
  {
    hide Linked;
    var n, m := |a| - 1, |b| - 1;
    LinkedParts(a, n);
    LinkedParts(b, m);
    assert a[n] == b[m] && n == m;
    if n > 0 {
      ChainedPrefix(a);
      ChainedPrefix(b);
      assert PreviousDigest(a, n) == PreviousDigest(b, n);
      HeadCommitsToHistory(a[..n], b[..n]);
    }
    assert a == a[..n] + [a[n]] && b == b[..n] + [b[n]];
  }

  lemma LinkedInPrefix(a: seq<Document>, n: nat, i: nat)
    requires i < n <= |a| && Linked(a, i)
    ensures Linked(a[..n], i)
  {
    assert PreviousDigest(a[..n], i) == PreviousDigest(a, i);
  }

  lemma ChainedPrefix(a: seq<Document>)
    requires Chained(a) && a != []
    ensures Chained(a[..|a| - 1])
  {
    hide Linked;
    var n := |a| - 1;
    forall i | 0 <= i < n ensures Linked(a[..n], i) {
      LinkedInPrefix(a, n, i);
    }
  }

  /** Two accepted ledgers with the same head hold the same events, and read the same epoch. */
  lemma HeadDeterminesLedger(l: Ledger, m: Ledger)
    requires Accepted(l) && Accepted(m) && l.head == m.head
    ensures l.events == m.events && Read(l.epoch) == Read(m.epoch)
  {
    hide Linked, StatesOf;
    HeadCommitsToHistory(l.events.value, m.events.value);
    assert Dated(l.events.value, l.epoch, 0) && Dated(m.events.value, m.epoch, 0);
  }

  /** Accepted times never decrease, between any two entries. */
  lemma {:induction false} TimesNeverDecrease(l: Ledger, i: nat, j: nat)
    requires Accepted(l) && i <= j < |l.events.value|
    ensures TimeOf(l.events.value[i]) <= TimeOf(l.events.value[j])
    decreases j
  {
    hide Linked, StatesOf;
    if i < j {
      TimesNeverDecrease(l, i, j - 1);
      assert Dated(l.events.value, l.epoch, j);
    }
  }

  predicate Reports(l: Ledger, state: string) {
    l.events.Some? && exists i :: 0 <= i < |l.events.value| && ReportsAt(l.events.value[i], state)
  }

  predicate ReportsAt(d: Document, state: string) {
    d.Document? && d.event.Some? && d.event.value.state == Some(state)
  }

  lemma ReportedStates(l: Ledger, state: string)
    requires Accepted(l)
    ensures Reports(l, state) <==> state in StatesOf(l.events.value)
  {
    hide Linked;
    var events := l.events.value;
    forall i | 0 <= i < |events| ensures ReportsAt(events[i], state) <==> StatesOf(events)[i] == state {
      assert Dated(events, l.epoch, i);
    }
  }

  /** An accepted ledger reports a rollback exactly when it reports no post-snapshot write, and a
      write exactly when it reports the forward retirement; it always reports the first two states. */
  lemma WriteOrRollback(l: Ledger)
    requires Accepted(l)
    ensures Reports(l, "rolled_back_before_write") <==> !Reports(l, "post_snapshot_write")
    ensures Reports(l, "post_snapshot_write") <==> Reports(l, "retired_forward")
    ensures Reports(l, "prepared") && Reports(l, "candidate_active")
  {
    hide Reports, Chained, AllDated, StatesOf;
    ReportedStates(l, "rolled_back_before_write");
    ReportedStates(l, "post_snapshot_write");
    ReportedStates(l, "retired_forward");
    ReportedStates(l, "prepared");
    ReportedStates(l, "candidate_active");
  }

  /** The same epoch stands in both places, or none does, or nothing but null. */
  predicate SameEpoch(a: Option<Value>, b: Option<Value>) {
    a == b || (a in {None, Some(Nothing)} && b in {None, Some(Nothing)})
  }

  /** The entry at `i` is sealed, numbered, linked to the one before, of the ledger's epoch and no earlier than the
      entry before it, or than the time -1. */
  predicate InLine(l: Ledger, i: nat)
    requires l.events.Some? && i < |l.events.value|
  {
    var entry := l.events.value[i];
    && entry.Document? && entry.event.Some? && entry.digest == Some(OfEvent(entry.event.value))
    && var event := entry.event.value;
    && event.sequence == Some(i) && SameEpoch(event.epoch, l.epoch)
    && event.occurredAt.Some? && event.state.Some?
    && (if i == 0 then event.previous == None && -1 <= event.occurredAt.value
        else
          var before := l.events.value[i - 1];
          && before.Document? && before.digest.Some? && event.previous == before.digest
          && before.event.Some? && before.event.value.occurredAt.Some?
          && before.event.value.occurredAt.value <= event.occurredAt.value)
  }

  predicate ReportsPath(events: seq<Document>, path: seq<string>) {
    |events| == |path| && forall i :: 0 <= i < |path| ==> ReportsAt(events[i], path[i])
  }

  /** A ledger is accepted exactly when every entry is in line, the states are one of the two paths, and the head is
      the last digest. */
  lemma AcceptedByTheFields(l: Ledger)
    ensures Accepted(l) <==>
            && l.events.Some? && l.events.value != []
            && (forall i :: 0 <= i < |l.events.value| ==> InLine(l, i))
            && (ReportsPath(l.events.value, ["prepared", "candidate_active", "rolled_back_before_write"])
                || ReportsPath(l.events.value,
                               ["prepared", "candidate_active", "post_snapshot_write", "retired_forward"]))
            && l.events.value[|l.events.value| - 1].Document?
            && l.head == l.events.value[|l.events.value| - 1].digest
  {
    hide InLine, Linked, Dated, ReportsPath, StatesOf;
    if l.events.Some? && l.events.value != [] {
      var events := l.events.value;
      LinesExactly(l);
      if Chained(events) && AllDated(events, l.epoch) {
        var last := |events| - 1;
        assert Linked(events, last);
        LinkedParts(events, last);
        PathExactly(l, ROLLED_BACK);
        PathExactly(l, WENT_FORWARD);
      }
    }
  }

  lemma LineExactly(l: Ledger, i: nat)
    requires l.events.Some? && i < |l.events.value|
    requires i > 0 ==> Linked(l.events.value, i - 1) && Dated(l.events.value, l.epoch, i - 1)
    ensures InLine(l, i) <==> Linked(l.events.value, i) && Dated(l.events.value, l.epoch, i)
  {
  }

  lemma LinesExactly(l: Ledger)
    requires l.events.Some?
    ensures (forall i :: 0 <= i < |l.events.value| ==> InLine(l, i)) <==>
            Chained(l.events.value) && AllDated(l.events.value, l.epoch)
  {
    hide InLine, Linked, Dated;
    var events := l.events.value;
    if Chained(events) && AllDated(events, l.epoch) {
      forall i | 0 <= i < |events| ensures InLine(l, i) {
        assert Linked(events, i) && Dated(events, l.epoch, i);
        assert i > 0 ==> Linked(events, i - 1) && Dated(events, l.epoch, i - 1);
        LineExactly(l, i);
      }
    }
    if forall i :: 0 <= i < |events| ==> InLine(l, i) {
      LinesUpTo(l, |events|);
    }
  }

  lemma {:induction false} LinesUpTo(l: Ledger, n: nat)
    requires l.events.Some? && n <= |l.events.value|
    requires forall i :: 0 <= i < |l.events.value| ==> InLine(l, i)
    ensures forall i :: 0 <= i < n ==> Linked(l.events.value, i) && Dated(l.events.value, l.epoch, i)
  {
    hide InLine, Linked, Dated;
    if n > 0 {
      LinesUpTo(l, n - 1);
      LineExactly(l, n - 1);
    }
  }

  lemma PathExactly(l: Ledger, path: seq<string>)
    requires l.events.Some? && AllDated(l.events.value, l.epoch)
    ensures StatesOf(l.events.value) == path <==> ReportsPath(l.events.value, path)
  {
    var events := l.events.value;
    forall i | 0 <= i < |events| ensures ReportsAt(events[i], StatesOf(events)[i]) {
      assert Dated(events, l.epoch, i);
    }
  }

  // Building and validating

  /** The chain the builder produces, one event after another. */
  function Built(epoch: string, states: seq<string>, times: seq<int>,
                 rests: seq<map<string, Option<string>>>): seq<Document>
    requires |times| == |states| == |rests|
    decreases |states|
  {
    if states == [] then []
    else
      var n := |states| - 1;
      var earlier := Built(epoch, states[..n], times[..n], rests[..n]);
      var previous := if earlier == [] then None else LinkOf(earlier[|earlier| - 1]);
      earlier + [BuildEvent(epoch, n, previous, states[n], times[n], rests[n])]
  }

  /** The entry at `i` is the builder's own. */
  predicate BuiltAt(built: seq<Document>, i: nat, epoch: string, state: string, time: int)
    requires i < |built|
  {
    && Linked(built, i) && TimeOf(built[i]) == time && StateOf(built[i]) == state
    && built[i].event.value.epoch == Some(Text(epoch))
    && built[i].event.value.state.Some? && built[i].event.value.occurredAt.Some?
  }

  lemma {:induction false} BuiltIsChained(epoch: string, states: seq<string>, times: seq<int>,
                                          rests: seq<map<string, Option<string>>>)
    requires |times| == |states| == |rests|
    ensures var built := Built(epoch, states, times, rests);
      |built| == |states| && forall i :: 0 <= i < |built| ==> BuiltAt(built, i, epoch, states[i], times[i])
    decreases |states|
  {
    if states != [] {
      hide BuiltAt;
      var n := |states| - 1;
      BuiltIsChained(epoch, states[..n], times[..n], rests[..n]);
      var earlier := Built(epoch, states[..n], times[..n], rests[..n]);
      var built := Built(epoch, states, times, rests);
      forall i | 0 <= i < |built| ensures BuiltAt(built, i, epoch, states[i], times[i]) {
        if i < n {
          assert BuiltAt(earlier, i, epoch, states[..n][i], times[..n][i]);
        }
      }
    }
  }

  /** What the builder writes along an allowed path, at times that never go back, is accepted. */
  lemma BuiltIsAccepted(epoch: string, states: seq<string>, times: seq<int>, rests: seq<map<string, Option<string>>>)
    requires |times| == |states| == |rests| && (states == ROLLED_BACK || states == WENT_FORWARD)
    requires BEFORE_ALL_TIMES <= times[0] && forall i :: 0 < i < |times| ==> times[i - 1] <= times[i]
    ensures var built := Built(epoch, states, times, rests);
      built != [] && Accepted(Ledger(Some(Text(epoch)), Some(built), LinkOf(built[|built| - 1])))
  {
    hide Built, Linked;
    BuiltIsChained(epoch, states, times, rests);
    var built := Built(epoch, states, times, rests);
    forall i | 0 <= i < |built| ensures Dated(built, Some(Text(epoch)), i) {
      assert BuiltAt(built, i, epoch, states[i], times[i]);
      assert i > 0 ==> BuiltAt(built, i - 1, epoch, states[i - 1], times[i - 1]);
      LinkedParts(built, i);
    }
    forall i | 0 <= i < |built| ensures Linked(built, i) && StateOf(built[i]) == states[i] {
      assert BuiltAt(built, i, epoch, states[i], times[i]);
    }
    assert StatesOf(built) == states;
  }

  /** The times a ledger may begin with: minus one and every later one, and no others. */
  lemma FirstTimes(time: int)
    ensures (exists l :: Accepted(l) && TimeOf(l.events.value[0]) == time) <==> -1 <= time
  {
    if -1 <= time {
      var rests: seq<map<string, Option<string>>> := [map[], map[], map[]];
      BuiltIsAccepted("", ROLLED_BACK, [time, time, time], rests);
      BuiltIsChained("", ROLLED_BACK, [time, time, time], rests);
      var built := Built("", ROLLED_BACK, [time, time, time], rests);
      assert BuiltAt(built, 0, "", ROLLED_BACK[0], time);
      assert Accepted(Ledger(Some(Text("")), Some(built), LinkOf(built[|built| - 1])));
    }
    forall l | Accepted(l) ensures -1 <= TimeOf(l.events.value[0]) {
      assert Dated(l.events.value, l.epoch, 0);
    }
  }
}
