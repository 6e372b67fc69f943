/** The outbox over whole runs: one flusher, entries added at any time, and a
    crash possible between any two steps. */
module OutboxRuns {
  import opened RelayTables
  import opened Paging
  import opened Outbox

  /** `batch` holds the selected snapshots still to be flushed, `flight` the entry
      whose send is under way. `born` and `started` are history: the entry as it
      was enqueued, and how many sends of it have begun. */
  datatype Box = Box(
    rows: Rows, batch: seq<(Id, Entry)>, flight: Option<(Id, Entry)>, born: map<Id, Entry>, started: map<Id, nat>)

  const EMPTY_BOX := Box(map[], [], None, map[], map[])

  datatype BoxStep =
    | Add(o: Id, entry: Entry)
    | PickDue(limit: nat, now: int, batch: seq<(Id, Entry)>)
    | PickPacket(o: Id)
    | Begin(now: int)
    | End(outcome: Outcome, now: int, jitter: nat)
    | Crash

  ghost predicate IsNewEntry(e: Entry) {
    exists policy, maxAttempts, expiresAfter, now ::
      e == NewEntry(e.packet, e.from, e.to, e.content, policy, maxAttempts, expiresAfter, now)
  }

  /** `PickPacket` is the flush that directly follows an enqueue: it finds the
      row still queued. */
  ghost predicate CanDo(b: Box, step: BoxStep) {
    match step
    case Add(o, e) => o !in b.born && !PacketIdTaken(b.rows, e.packet) && IsNewEntry(e)
    case PickDue(limit, now, batch) => b.batch == [] && b.flight.None? && IsDueBatch(b.rows, limit, now, batch)
    case PickPacket(o) => b.batch == [] && b.flight.None? && o in b.rows && b.rows[o].status == Queued
    case Begin(_) => b.batch != [] && b.flight.None?
    case End(_, _, _) => b.flight.Some?
    case Crash => true
  }

  function Starts(b: Box, step: BoxStep): Option<Id> {
    if step.Begin? && b.batch != [] && !ExpiredEntry(b.batch[0].1, step.now) then Some(b.batch[0].0) else None
  }

  function CountOf(started: map<Id, nat>, o: Id): nat {
    if o in started then started[o] else 0
  }

  ghost function NextBox(b: Box, step: BoxStep): Box
    requires CanDo(b, step)
  {
    match step
    case Add(o, e) => b.(rows := b.rows[o := e], born := b.born[o := e])
    case PickDue(_, _, batch) => b.(batch := batch)
    case PickPacket(o) => b.(batch := [(o, b.rows[o])])
    case Begin(now) =>
      var (o, e) := b.batch[0];
      var rows := BeginFlush(b.rows, o, e, now);
      if ExpiredEntry(e, now) then b.(rows := rows, batch := b.batch[1..])
      else b.(rows := rows, batch := b.batch[1..], flight := Some((o, e)),
              started := b.started[o := CountOf(b.started, o) + 1])
    case End(outcome, now, jitter) =>
      var (o, e) := b.flight.value;
      b.(rows := EndFlush(b.rows, o, e, outcome, now, jitter), flight := None)
    case Crash => b.(batch := [], flight := None)
  }

  ghost predicate LegalBox(b: Box, run: seq<BoxStep>)
    decreases |run|
  {
    run == [] || (CanDo(b, run[0]) && LegalBox(NextBox(b, run[0]), run[1..]))
  }

  ghost function AfterBox(b: Box, run: seq<BoxStep>): Box
    requires LegalBox(b, run)
    decreases |run|
  {
    if run == [] then b else AfterBox(NextBox(b, run[0]), run[1..])
  }

  // -------------------------------------------------------------- invariant

  /** Everything a retry must not change. */
  predicate SameLetter(e: Entry, born: Entry) {
    e.packet == born.packet && e.from == born.from && e.to == born.to && e.content == born.content &&
    e.maxAttempts == born.maxAttempts && e.expiresAt == born.expiresAt
  }

  function Most(a: int, b: int): int {
    if a > b then a else b
  }

  predicate WithinMax(e: Entry, attempts: nat) {
    e.maxAttempts.Some? ==> attempts <= Most(1, e.maxAttempts.value)
  }

  predicate MaySend(e: Entry) {
    e.maxAttempts.None? || e.attempts == 0 || e.attempts < e.maxAttempts.value
  }

  predicate RowOk(b: Box, o: Id)
    requires o in b.rows
  {
    var e := b.rows[o];
    && o in b.born && SameLetter(e, b.born[o])
    && match e.status
       case Queued => CountOf(b.started, o) == e.attempts && MaySend(e)
       case Failed => false
       case Sending => CountOf(b.started, o) == e.attempts + 1 && MaySend(e)
       case DeadLetter => CountOf(b.started, o) == e.attempts
  }

  predicate SnapshotOk(b: Box, o: Id, e: Entry) {
    o in b.rows && b.rows[o] == e && e.status == Queued
  }

  predicate FlightOk(b: Box, o: Id, e: Entry) {
    && o in b.rows && b.rows[o].status == Sending && SameLetter(e, b.rows[o]) && b.rows[o].attempts == e.attempts
    && forall i :: 0 <= i < |b.batch| ==> b.batch[i].0 != o
  }

  /** No entry has been sent more often than its limit allows. */
  predicate WithinBound(b: Box, o: Id)
    requires o in b.born
  {
    WithinMax(b.born[o], CountOf(b.started, o))
  }

  ghost predicate BoxInv(b: Box) {
    && (forall o :: o in b.rows ==> RowOk(b, o))
    && (forall o :: o in b.born ==> WithinBound(b, o))
    && (forall o :: o in b.started ==> o in b.born)
    && (forall i :: 0 <= i < |b.batch| ==> SnapshotOk(b, b.batch[i].0, b.batch[i].1))
    && (forall i, j :: 0 <= i < j < |b.batch| ==> b.batch[i].0 != b.batch[j].0)
    && (b.flight.Some? ==> FlightOk(b, b.flight.value.0, b.flight.value.1))
  }

  lemma BeginKeepsRows(b: Box, step: BoxStep, o: Id)
    requires BoxInv(b) && CanDo(b, step) && step.Begin? && o in NextBox(b, step).rows
    ensures RowOk(NextBox(b, step), o)
  {
    hide DueKeys, WithinBound;
    assert RowOk(b, o) && SnapshotOk(b, b.batch[0].0, b.batch[0].1);
  }

  lemma OtherStepKeepsRows(b: Box, step: BoxStep, o: Id)
    requires BoxInv(b) && CanDo(b, step) && !step.Begin? && o in NextBox(b, step).rows
    ensures RowOk(NextBox(b, step), o)
  {
    if o in b.rows {
      assert RowOk(b, o);
    }
  }

  lemma StepKeepsRows(b: Box, step: BoxStep, o: Id)
    requires BoxInv(b) && CanDo(b, step) && o in NextBox(b, step).rows
    ensures RowOk(NextBox(b, step), o)
  {
    if step.Begin? {
      BeginKeepsRows(b, step, o);
    } else {
      OtherStepKeepsRows(b, step, o);
    }
  }

  lemma StepKeepsBounds(b: Box, step: BoxStep, o: Id)
    requires BoxInv(b) && CanDo(b, step) && o in NextBox(b, step).born
    ensures WithinBound(NextBox(b, step), o)
  {
    if o in b.born {
      assert WithinBound(b, o);
    }
    if step.Begin? {
      assert SnapshotOk(b, b.batch[0].0, b.batch[0].1) && RowOk(b, b.batch[0].0);
    }
  }

  lemma DueBatchIsSound(b: Box, limit: nat, now: int, batch: seq<(Id, Entry)>)
    requires BoxInv(b) && IsDueBatch(b.rows, limit, now, batch)
    ensures forall i :: 0 <= i < |batch| ==> SnapshotOk(b, batch[i].0, batch[i].1)
    ensures forall i, j :: 0 <= i < j < |batch| ==> batch[i].0 != batch[j].0
  {
    var ids := IdsOf(batch);
    forall i | 0 <= i < |batch|
      ensures SnapshotOk(b, batch[i].0, batch[i].1)
    {
      assert ids[i] in DueKeys(b.rows, now) && RowOk(b, batch[i].0);
    }
    forall i, j | 0 <= i < j < |batch|
      ensures batch[i].0 != batch[j].0
    {
      assert ids[i] != ids[j];
    }
  }

  lemma StepKeepsBatch(b: Box, step: BoxStep)
    requires BoxInv(b) && CanDo(b, step)
    ensures var b' := NextBox(b, step);
            (forall i :: 0 <= i < |b'.batch| ==> SnapshotOk(b', b'.batch[i].0, b'.batch[i].1)) &&
            (forall i, j :: 0 <= i < j < |b'.batch| ==> b'.batch[i].0 != b'.batch[j].0)
  {
    if step.PickDue? {
      DueBatchIsSound(b, step.limit, step.now, step.batch);
    }
  }

  lemma StepKeepsFlight(b: Box, step: BoxStep)
    requires BoxInv(b) && CanDo(b, step)
    ensures var b' := NextBox(b, step);
            b'.flight.Some? ==> FlightOk(b', b'.flight.value.0, b'.flight.value.1)
  {
    if step.Begin? {
      assert SnapshotOk(b, b.batch[0].0, b.batch[0].1);
    }
  }

  lemma StepKeepsBoxInv(b: Box, step: BoxStep)
    requires BoxInv(b) && CanDo(b, step)
    ensures BoxInv(NextBox(b, step))
  {
    var b' := NextBox(b, step);
    forall o | o in b'.rows
      ensures RowOk(b', o)
    {
      StepKeepsRows(b, step, o);
    }
    forall o | o in b'.born
      ensures WithinBound(b', o)
    {
      StepKeepsBounds(b, step, o);
    }
    StepKeepsBatch(b, step);
    StepKeepsFlight(b, step);
    if step.Begin? {
      assert SnapshotOk(b, b.batch[0].0, b.batch[0].1) && RowOk(b, b.batch[0].0);
    }
  }

  lemma {:induction false} RunKeepsBoxInv(b: Box, run: seq<BoxStep>)
    requires BoxInv(b) && LegalBox(b, run)
    ensures BoxInv(AfterBox(b, run))
    decreases |run|
  {
    if run != [] {
      StepKeepsBoxInv(b, run[0]);
      RunKeepsBoxInv(NextBox(b, run[0]), run[1..]);
    }
  }

  // --------------------------------------------------------------- theorems

  /** An entry with `max_attempts` m is sent at most max(1, m) times in any run,
      crashes included; without a limit nothing is claimed. */
  lemma SendsAreBounded(run: seq<BoxStep>, o: Id)
    requires LegalBox(EMPTY_BOX, run) && o in AfterBox(EMPTY_BOX, run).born
    ensures var b := AfterBox(EMPTY_BOX, run);
            b.born[o].maxAttempts.Some? ==> CountOf(b.started, o) <= Most(1, b.born[o].maxAttempts.value)
  {
    RunKeepsBoxInv(EMPTY_BOX, run);
    assert WithinBound(AfterBox(EMPTY_BOX, run), o);
  }

  /** Policy "none" is the limit 1: such an entry is sent at most once. */
  lemma NoRetryMeansOnce(
    run: seq<BoxStep>, o: Id, packet: Id, from: Id, to: Id, content: Content, maxAttempts: Option<int>,
    expiresAfter: Option<int>, now: int)
    requires LegalBox(EMPTY_BOX, run) && o in AfterBox(EMPTY_BOX, run).born
    requires AfterBox(EMPTY_BOX, run).born[o] ==
             NewEntry(packet, from, to, content, NoRetry, maxAttempts, expiresAfter, now)
    ensures CountOf(AfterBox(EMPTY_BOX, run).started, o) <= 1
  {
    SendsAreBounded(run, o);
  }

  /** A send begins only before the expiry fixed when the entry was enqueued. */
  lemma NoSendAfterExpiry(b: Box, step: BoxStep, o: Id)
    requires BoxInv(b) && CanDo(b, step) && Starts(b, step) == Some(o)
    ensures o in b.born && !ExpiredEntry(b.born[o], step.now)
    ensures CountOf(NextBox(b, step).started, o) == CountOf(b.started, o) + 1
  {
    assert SnapshotOk(b, b.batch[0].0, b.batch[0].1) && RowOk(b, o);
  }

  /** Rows that no flush will touch again: dead letters, and rows that a crash
      left marked as being sent. */
  predicate Settled(b: Box, o: Id) {
    o in b.rows && (b.rows[o].status == DeadLetter ||
                    (b.rows[o].status == Sending && (b.flight.None? || b.flight.value.0 != o)))
  }

  lemma SettledStepStays(b: Box, step: BoxStep, o: Id)
    requires BoxInv(b) && CanDo(b, step) && Settled(b, o)
    ensures var b' := NextBox(b, step);
            Settled(b', o) && b'.rows[o] == b.rows[o] && CountOf(b'.started, o) == CountOf(b.started, o)
  {
    assert RowOk(b, o);
    if step.Begin? {
      assert SnapshotOk(b, b.batch[0].0, b.batch[0].1);
    }
  }

  /** Dead letters are never selected again; neither is a row stranded in
      "sending" by a crash. */
  lemma {:induction false} SettledStaysSettled(b: Box, run: seq<BoxStep>, o: Id)
    requires BoxInv(b) && LegalBox(b, run) && Settled(b, o)
    ensures var b' := AfterBox(b, run);
            Settled(b', o) && b'.rows[o] == b.rows[o] && CountOf(b'.started, o) == CountOf(b.started, o)
    decreases |run|
  {
    if run != [] {
      SettledStepStays(b, run[0], o);
      StepKeepsBoxInv(b, run[0]);
      SettledStaysSettled(NextBox(b, run[0]), run[1..], o);
    }
  }

  predicate IsDead(b: Box, o: Id) {
    o in b.rows && b.rows[o].status == DeadLetter
  }

  /** An entry without limit and expiry is given up only for a permanent error. */
  lemma ForeverDiesOfPermanentErrors(b: Box, step: BoxStep, o: Id)
    requires BoxInv(b) && CanDo(b, step) && o in b.born
    requires b.born[o].maxAttempts.None? && b.born[o].expiresAt.None?
    requires !IsDead(b, o) && IsDead(NextBox(b, step), o)
    ensures step.End? && b.flight.Some? && b.flight.value.0 == o
    ensures step.outcome.Raised? && ClassifySendError(step.outcome.error) == Permanent
  {
    if o in b.rows {
      assert RowOk(b, o);
    }
  }

  /** So an entry enqueued under policy "forever" is never given up for anything
      that a retry could cure, whatever limits the caller passed along. */
  lemma ForeverPolicyNeverGivesUp(
    b: Box, step: BoxStep, o: Id, e: Entry, maxAttempts: Option<int>, expiresAfter: Option<int>, now: int)
    requires BoxInv(b) && CanDo(b, step) && o in b.born && b.born[o] == e
    requires e == NewEntry(e.packet, e.from, e.to, e.content, Forever, maxAttempts, expiresAfter, now)
    requires step.End? && step.outcome.Raised? && ClassifySendError(step.outcome.error) == Retryable
    ensures IsDead(NextBox(b, step), o) ==> IsDead(b, o)
  {
    if IsDead(NextBox(b, step), o) && !IsDead(b, o) {
      ForeverDiesOfPermanentErrors(b, step, o);
    }
  }

  /** The row can be selected at some later time. */
  ghost predicate ComesBack(rows: Rows, o: Id) {
    exists later :: o in DueKeys(rows, later)
  }

  lemma QueuedRowComesBack(rows: Rows, o: Id)
    requires o in rows && rows[o].status == Queued
    ensures ComesBack(rows, o)
  {
    assert o in DueKeys(rows, rows[o].nextAt);
  }

  /** After a failed send the entry comes back exactly if the error can be cured by
      a retry, fewer sends of it have begun than it was enqueued with, and it has
      not expired; and if not, no flush touches it again. */
  lemma FailedSendComesBackIff(b: Box, step: BoxStep, o: Id)
    requires BoxInv(b) && CanDo(b, step) && step.End? && step.outcome.Raised? && b.flight.value.0 == o
    ensures o in b.born && o in NextBox(b, step).rows
    ensures var born := b.born[o];
            ComesBack(NextBox(b, step).rows, o) <==>
            ClassifySendError(step.outcome.error) == Retryable && !ExpiredEntry(born, step.now) &&
            (born.maxAttempts.Some? ==> CountOf(b.started, o) < born.maxAttempts.value)
    ensures !ComesBack(NextBox(b, step).rows, o) ==> Settled(NextBox(b, step), o)
  {
    assert RowOk(b, o) && FlightOk(b, o, b.flight.value.1);
    var rows := NextBox(b, step).rows;
    if rows[o].status == Queued {
      QueuedRowComesBack(rows, o);
    }
  }

  /** Each retry uses up one of the remaining attempts, and one is always left. */
  lemma RetryUsesUpAnAttempt(b: Box, step: BoxStep, o: Id)
    requires BoxInv(b) && CanDo(b, step) && step.End? && b.flight.Some? && b.flight.value.0 == o
    requires o in NextBox(b, step).rows && NextBox(b, step).rows[o].status == Queued
    requires o in b.born && b.born[o].maxAttempts.Some?
    ensures var m := b.born[o].maxAttempts.value;
            o in b.rows && 0 < m - NextBox(b, step).rows[o].attempts < m - b.rows[o].attempts
  {
    assert RowOk(b, o) && FlightOk(b, o, b.flight.value.1);
  }

  /** A flush by packet id does not look at the status: on a dead letter that has
      not expired it starts another send, beyond the bound. */
  lemma FlushPacketIgnoresStatus(rows: Rows, o: Id, now: int)
    requires o in rows && rows[o].status == DeadLetter
    ensures BeginFlush(rows, o, rows[o], now)[o].status == Sending <==> !ExpiredEntry(rows[o], now)
  {
  }
}
