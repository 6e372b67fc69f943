/** The durable outbox of the app kit: one table of entries, and a flush that
    marks an entry, sends it, and records what came of it. */
module Outbox {
  import opened RelayTables
  import opened Paging

  datatype Policy = NoRetry | Bounded | UntilExpired | Forever

  datatype EntryStatus = Queued | Failed | Sending | DeadLetter

  datatype Entry = Entry(
    packet: Id, from: Id, to: Id, content: Content, status: EntryStatus, createdAt: int, nextAt: int,
    attempts: nat, maxAttempts: Option<int>, expiresAt: Option<int>)

  datatype SendError =
    | HttpError(code: int) | ConnectionError | InsecureTransport | BadArgument | OtherArqsError | OtherError

  datatype Classification = Retryable | Permanent

  /** What `client.send_packet` does from the outbox's point of view. */
  datatype Outcome = Answered | Raised(error: SendError)

  datatype FlushResult = Missing | SentResult(attempts: nat) | RetryResult(attempts: nat) | DeadResult(attempts: nat)

  type Rows = map<Id, Entry>

  function ClassifySendError(e: SendError): Classification {
    match e
    case HttpError(code) => if code in {429, 500, 502, 503, 504} then Retryable else Permanent
    case ConnectionError => Retryable
    case InsecureTransport => Permanent
    case BadArgument => Permanent
    case OtherArqsError => Permanent
    case OtherError => Retryable
  }

  function Pow2(n: nat): nat {
    if n == 0 then 1 else 2 * Pow2(n - 1)
  }

  /** `jitter` is what `random.randint(0, 5)` returned. */
  function BackoffSeconds(attempts: nat, jitter: nat): nat {
    if attempts <= 1 then 0
    else if attempts == 2 then 10
    else if attempts == 3 then 30
    else if attempts == 4 then 60
    else Min(300, Pow2(Min(attempts, 8))) + jitter
  }

  function EffectiveMax(policy: Policy, maxAttempts: Option<int>): Option<int> {
    match policy
    case NoRetry => Some(1)
    case Forever => None
    case _ => maxAttempts
  }

  function EffectiveExpiry(policy: Policy, expiresAfter: Option<int>, createdAt: int): Option<int> {
    if policy == Forever || expiresAfter.None? || expiresAfter == Some(0) then None
    else Some(createdAt + expiresAfter.value)
  }

  function NewEntry(
    packet: Id, from: Id, to: Id, content: Content, policy: Policy, maxAttempts: Option<int>,
    expiresAfter: Option<int>, now: int): Entry
  {
    Entry(packet, from, to, content, Queued, now, now, 0,
          EffectiveMax(policy, maxAttempts), EffectiveExpiry(policy, expiresAfter, now))
  }

  predicate PacketIdTaken(rows: Rows, packet: Id) {
    exists o :: o in rows && rows[o].packet == packet
  }

  predicate IsDue(e: Entry, now: int) {
    (e.status == Queued || e.status == Failed) && e.nextAt <= now
  }

  function DueKeys(rows: Rows, now: int): map<Id, int> {
    map o | o in rows && IsDue(rows[o], now) :: rows[o].createdAt
  }

  predicate ExpiredEntry(e: Entry, now: int) {
    e.expiresAt.Some? && e.expiresAt.value <= now
  }

  function CanRetry(e: Entry, attempts: nat, now: int): bool {
    !(e.maxAttempts.Some? && attempts >= e.maxAttempts.value) && !ExpiredEntry(e, now)
  }

  /** `UPDATE ... WHERE outbox_id = ?` for the columns a status change sets. */
  function SetStatus(rows: Rows, o: Id, status: EntryStatus, attempts: nat, nextAt: int): Rows {
    if o in rows then rows[o := rows[o].(status := status, attempts := attempts, nextAt := nextAt)] else rows
  }

  function MarkDeadLetter(rows: Rows, o: Id, attempts: Option<nat>, now: int): Rows {
    if o !in rows then rows
    else SetStatus(rows, o, DeadLetter, if attempts.Some? then attempts.value else rows[o].attempts, now)
  }

  /** First half of `_flush_entry`: refuse an expired entry, or mark it. */
  function BeginFlush(rows: Rows, o: Id, e: Entry, now: int): Rows {
    if ExpiredEntry(e, now) then MarkDeadLetter(rows, o, None, now)
    else SetStatus(rows, o, Sending, e.attempts, now)
  }

  predicate WillRetry(e: Entry, error: SendError, now: int) {
    ClassifySendError(error) == Retryable && CanRetry(e, e.attempts + 1, now)
  }

  /** Second half, once the client has answered or raised. */
  function EndFlush(rows: Rows, o: Id, e: Entry, outcome: Outcome, now: int, jitter: nat): Rows {
    match outcome
    case Answered => rows - {o}
    case Raised(error) =>
      if WillRetry(e, error, now)
      then SetStatus(rows, o, Queued, e.attempts + 1, now + BackoffSeconds(e.attempts + 1, jitter))
      else MarkDeadLetter(rows, o, Some(e.attempts + 1), now)
  }

  function FlushOutcome(e: Entry, began: int, outcome: Outcome, ended: int): FlushResult {
    if ExpiredEntry(e, began) then DeadResult(e.attempts)
    else match outcome
         case Answered => SentResult(e.attempts + 1)
         case Raised(error) =>
           if WillRetry(e, error, ended) then RetryResult(e.attempts + 1) else DeadResult(e.attempts + 1)
  }

  function Flushed(rows: Rows, o: Id, e: Entry, began: int, outcome: Outcome, ended: int, jitter: nat): Rows {
    if ExpiredEntry(e, began) then BeginFlush(rows, o, e, began)
    else EndFlush(BeginFlush(rows, o, e, began), o, e, outcome, ended, jitter)
  }

  /** The environment of one flush: two clock readings, what the client did, the
      random jitter. */
  datatype Try = Try(began: int, outcome: Outcome, ended: int, jitter: nat)

  /** `flush_due` works through the selected snapshots in order. */
  function FlushedAll(rows: Rows, batch: seq<(Id, Entry)>, tries: seq<Try>): Rows
    requires |tries| == |batch|
  {
    if batch == [] then rows
    else
      var i := |batch| - 1;
      var t := tries[i];
      Flushed(FlushedAll(rows, batch[..i], tries[..i]), batch[i].0, batch[i].1, t.began, t.outcome, t.ended, t.jitter)
  }

  function IdsOf(batch: seq<(Id, Entry)>): seq<Id> {
    seq(|batch|, i requires 0 <= i < |batch| => batch[i].0)
  }

  /** Snapshots of the rows the selection query returns. */
  ghost predicate IsDueBatch(rows: Rows, limit: nat, now: int, batch: seq<(Id, Entry)>) {
    && IsPage(DueKeys(rows, now), limit, IdsOf(batch))
    && forall i :: 0 <= i < |batch| ==> batch[i].0 in rows && batch[i].1 == rows[batch[i].0]
  }

  class SQLiteOutbox {
    var rows: Rows

    constructor ()
      ensures rows == map[]
    {
      rows := map[];
    }

    /** False is the integrity error of a packet id or outbox id already used. */
    method Enqueue(
      o: Id, packet: Id, from: Id, to: Id, content: Content, policy: Policy, maxAttempts: Option<int>,
      expiresAfter: Option<int>, now: int) returns (ok: bool)
      modifies this
      ensures ok <==> o !in old(rows) && !PacketIdTaken(old(rows), packet)
      ensures rows == if ok
                      then old(rows)[o := NewEntry(packet, from, to, content, policy, maxAttempts, expiresAfter, now)]
                      else old(rows)
    {
      var normalizedMax := maxAttempts;
      var normalizedExpiry := expiresAfter;
      if policy == NoRetry {
        normalizedMax := Some(1);
      } else if policy == Forever {
        normalizedMax := None;
        normalizedExpiry := None;
      }
      var expiresAt: Option<int> := None;
      if normalizedExpiry.Some? && normalizedExpiry.value != 0 {
        expiresAt := Some(now + normalizedExpiry.value);
      }
      if o in rows || PacketIdTaken(rows, packet) {
        return false;
      }
      rows := rows[o := Entry(packet, from, to, content, Queued, now, now, 0, normalizedMax, expiresAt)];
      ok := true;
    }

    method SelectDue(limit: nat, now: int) returns (batch: seq<(Id, Entry)>)
      ensures IsDueBatch(rows, limit, now, batch)
    {
      var table := rows;
      var page := Select(DueKeys(table, now), limit);
      assert forall i :: 0 <= i < |page| ==> page[i] in page && page[i] in table;
      batch := seq(|page|, i requires 0 <= i < |page| && page[i] in table => (page[i], table[page[i]]));
      assert IdsOf(batch) == page;
    }

    method FlushEntry(o: Id, e: Entry, t: Try) returns (r: FlushResult)
      modifies this
      ensures rows == Flushed(old(rows), o, e, t.began, t.outcome, t.ended, t.jitter)
      ensures r == FlushOutcome(e, t.began, t.outcome, t.ended)
    {
      if e.expiresAt.Some? && e.expiresAt.value <= t.began {
        rows := MarkDeadLetter(rows, o, None, t.began);
        return DeadResult(e.attempts);
      }
      rows := SetStatus(rows, o, Sending, e.attempts, t.began);
      if t.outcome.Raised? {
        r := HandleSendFailure(o, e, t.outcome.error, t.ended, t.jitter);
        return;
      }
      rows := rows - {o};
      r := SentResult(e.attempts + 1);
    }

    method HandleSendFailure(o: Id, e: Entry, error: SendError, now: int, jitter: nat) returns (r: FlushResult)
      modifies this
      ensures rows == EndFlush(old(rows), o, e, Raised(error), now, jitter)
      ensures r == if WillRetry(e, error, now) then RetryResult(e.attempts + 1) else DeadResult(e.attempts + 1)
    {
      var nextAttempts := e.attempts + 1;
      var shouldRetry := ClassifySendError(error) == Retryable && CanRetry(e, nextAttempts, now);
      if shouldRetry {
        rows := SetStatus(rows, o, Queued, nextAttempts, now + BackoffSeconds(nextAttempts, jitter));
        return RetryResult(nextAttempts);
      }
      rows := MarkDeadLetter(rows, o, Some(nextAttempts), now);
      r := DeadResult(nextAttempts);
    }

    /** `tries[i]` is what happens to the i-th selected entry. */
    method FlushDue(limit: nat, now: int, tries: seq<Try>)
      returns (batch: seq<(Id, Entry)>, results: seq<FlushResult>)
      requires limit <= |tries|
      modifies this
      ensures IsDueBatch(old(rows), limit, now, batch) && |batch| <= limit
      ensures rows == FlushedAll(old(rows), batch, tries[..|batch|])
      ensures |results| == |batch|
      ensures forall i :: 0 <= i < |batch| ==>
                results[i] == FlushOutcome(batch[i].1, tries[i].began, tries[i].outcome, tries[i].ended)
    {
      hide Flushed, FlushOutcome, DueKeys;
      batch := SelectDue(limit, now);
      assert |IdsOf(batch)| == |batch|;
      results := [];
      var i := 0;
      while i < |batch|
        invariant 0 <= i <= |batch| && |results| == i
        invariant rows == FlushedAll(old(rows), batch[..i], tries[..i])
        invariant forall j :: 0 <= j < i ==>
                    results[j] == FlushOutcome(batch[j].1, tries[j].began, tries[j].outcome, tries[j].ended)
      {
        assert batch[..i + 1][..i] == batch[..i] && tries[..i + 1][..i] == tries[..i];
        var r := FlushEntry(batch[i].0, batch[i].1, tries[i]);
        results := results + [r];
        i := i + 1;
      }
      assert batch[..i] == batch;
    }

    /** `found` is the row the lookup by packet id returned. */
    method FlushPacket(found: Option<Id>, t: Try) returns (r: FlushResult)
      requires found.Some? ==> found.value in rows
      modifies this
      ensures found.None? ==> r == Missing && rows == old(rows)
      ensures found.Some? ==>
                var e := old(rows)[found.value];
                r == FlushOutcome(e, t.began, t.outcome, t.ended) &&
                rows == Flushed(old(rows), found.value, e, t.began, t.outcome, t.ended, t.jitter)
    {
      if found.None? {
        return Missing;
      }
      r := FlushEntry(found.value, rows[found.value], t);
    }
  }

  /** The delay never exceeds 261 seconds, and it is not monotone: the fifth
      failure waits less than the fourth. */
  lemma BackoffIsBounded(attempts: nat, jitter: nat)
    requires jitter <= 5
    ensures BackoffSeconds(attempts, jitter) <= 261
    ensures attempts == 5 ==> BackoffSeconds(attempts, jitter) < BackoffSeconds(4, jitter)
  {
    assert Pow2(5) == 32 && Pow2(6) == 64;
    assert Pow2(7) == 128;
    assert Pow2(8) == 256;
  }
}
