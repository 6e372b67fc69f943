/** The bridge's cache of delivered packets and the order in which a delivery is
    forwarded, remembered, saved and acknowledged. */
module BridgeSeen {
  import opened RelayTables
  import opened Paging

  const SEEN_DELIVERIES_LIMIT: nat := 10000

  // -------------------------------------------------------------- the cache

  function LastN(s: seq<Id>, n: nat): (r: seq<Id>) {
    if |s| <= n then s else s[|s| - n..]
  }

  function Marked(seen: seq<Id>, d: Id, limit: nat): seq<Id> {
    if d in seen then seen else LastN(seen + [d], limit)
  }

  function Members(s: seq<Id>): set<Id> {
    set d | d in s
  }

  predicate CacheOk(seen: seq<Id>, limit: nat) {
    Distinct(seen) && |seen| <= limit
  }

  /** `file` is the list that loading the state file would give. */
  class SeenDeliveries {
    var seen: seq<Id>
    var ids: set<Id>
    var file: seq<Id>

    ghost predicate Valid()
      reads this
    {
      ids == Members(seen) && CacheOk(seen, SEEN_DELIVERIES_LIMIT) && CacheOk(file, SEEN_DELIVERIES_LIMIT)
    }

    /** Loading what `Save` left behind, or starting from nothing. */
    constructor (saved: seq<Id>)
      requires CacheOk(saved, SEEN_DELIVERIES_LIMIT)
      ensures Valid() && seen == file == saved
    {
      seen := saved;
      file := saved;
      ids := Members(saved);
    }

    method MarkSeenDelivery(d: Id)
      requires Valid()
      modifies this`seen, this`ids
      ensures Valid() && seen == Marked(old(seen), d, SEEN_DELIVERIES_LIMIT)
    {
      MarkKeepsCache(seen, d, SEEN_DELIVERIES_LIMIT);
      if d in ids {
        return;
      }
      ids := ids + {d};
      seen := seen + [d];
      if |seen| > SEEN_DELIVERIES_LIMIT {
        var trim := LastN(seen, SEEN_DELIVERIES_LIMIT);
        seen := trim;
        ids := Members(trim);
      }
    }

    method HasSeenDelivery(d: Id) returns (r: bool)
      requires Valid()
      ensures r <==> d in seen
    {
      r := d in ids;
    }

    /** Opening the file for writing empties it. A save that is cut off there, by a
        crash or an error, leaves a file that loads as no deliveries at all. */
    method Save(completes: bool)
      requires Valid()
      modifies this`file
      ensures Valid() && file == if completes then seen else []
    {
      file := [];
      if completes {
        file := LastN(seen, SEEN_DELIVERIES_LIMIT);
      }
    }
  }

  lemma MarkKeepsCache(seen: seq<Id>, d: Id, limit: nat)
    requires CacheOk(seen, limit)
    ensures CacheOk(Marked(seen, d, limit), limit)
  {
  }

  function MarkAll(seen: seq<Id>, ds: seq<Id>, limit: nat): seq<Id>
    decreases |ds|
  {
    if ds == [] then seen else MarkAll(Marked(seen, ds[0], limit), ds[1..], limit)
  }

  /** The marks that added something, oldest first. */
  function Added(seen: seq<Id>, ds: seq<Id>, limit: nat): seq<Id>
    decreases |ds|
  {
    if ds == [] then []
    else (if ds[0] in seen then [] else [ds[0]]) + Added(Marked(seen, ds[0], limit), ds[1..], limit)
  }

  lemma DropTwice(s: seq<Id>, t: seq<Id>, k: nat)
    requires k <= |s|
    ensures (s[k..] + t)[|t|..] == (s + t)[k + |t|..]
  {
    assert s[k..] + t == (s + t)[k..];
  }

  lemma LastNDrops(s: seq<Id>, k: nat, n: nat)
    requires |s| == n + k
    ensures LastN(s, n) == s[k..]
  {
    assert s[0..] == s;
  }

  lemma LastNOfLastN(s: seq<Id>, t: seq<Id>, n: nat)
    ensures LastN(LastN(s, n) + t, n) == LastN(s + t, n)
  {
    if |s| > n {
      hide LastN;
      var k := |s| - n;
      LastNDrops(s, k, n);
      LastNDrops(s[k..] + t, |t|, n);
      LastNDrops(s + t, k + |t|, n);
      DropTwice(s, t, k);
    }
  }

  lemma Regroup(seen: seq<Id>, d: Id, rest: seq<Id>)
    ensures seen + [d] + rest == seen + ([d] + rest)
  {
  }

  /** Membership means being among the last `limit` ids that were added. */
  lemma {:induction false} CacheIsTheLastAdded(seen: seq<Id>, ds: seq<Id>, limit: nat)
    requires CacheOk(seen, limit)
    ensures MarkAll(seen, ds, limit) == LastN(seen + Added(seen, ds, limit), limit)
    ensures CacheOk(MarkAll(seen, ds, limit), limit)
    decreases |ds|
  {
    if ds == [] {
      assert seen + [] == seen;
    } else {
      var next := Marked(seen, ds[0], limit);
      MarkKeepsCache(seen, ds[0], limit);
      CacheIsTheLastAdded(next, ds[1..], limit);
      var rest := Added(next, ds[1..], limit);
      if ds[0] in seen {
        assert Added(seen, ds, limit) == rest;
      } else {
        LastNOfLastN(seen + [ds[0]], rest, limit);
        Regroup(seen, ds[0], rest);
      }
    }
  }

  predicate Fresh(seen: seq<Id>, ds: seq<Id>) {
    Distinct(ds) && forall d :: d in ds ==> d !in seen
  }

  lemma {:induction false} FreshIdsAreAdded(seen: seq<Id>, ds: seq<Id>, limit: nat)
    requires Fresh(seen, ds)
    ensures Added(seen, ds, limit) == ds
    decreases |ds|
  {
    if ds != [] {
      assert forall d :: d in Marked(seen, ds[0], limit) ==> d in seen || d == ds[0];
      FreshIdsAreAdded(Marked(seen, ds[0], limit), ds[1..], limit);
    }
  }

  predicate IsNewest(seen: seq<Id>, d: Id) {
    seen != [] && seen[|seen| - 1] == d
  }

  lemma MarkedIsMember(seen: seq<Id>, d: Id, limit: nat)
    requires limit >= 1
    ensures d in Marked(seen, d, limit)
    ensures d !in seen ==> IsNewest(Marked(seen, d, limit), d)
    ensures forall x :: x in Marked(seen, d, limit) ==> x in seen || x == d
  {
    if d !in seen {
      var longer := seen + [d];
      var now := LastN(longer, limit);
      assert now[|now| - 1] == longer[|longer| - 1];
    }
  }

  lemma TailOfJoin(now: seq<Id>, later: seq<Id>, limit: nat)
    requires now != [] && |later| == limit - 1
    ensures LastN(now + later, limit) == [now[|now| - 1]] + later
  {
    var all := now + later;
    assert all[|all| - limit..] == [now[|now| - 1]] + later;
  }

  /** A mark keeps its id in the cache through the next limit - 1 new ids exactly
      if the id was not cached before or was the newest entry: marking an older
      entry again does not refresh it. */
  lemma MarkProtectsUnlessStale(seen: seq<Id>, d: Id, later: seq<Id>, limit: nat)
    requires limit >= 1 && CacheOk(seen, limit)
    requires Fresh(Marked(seen, d, limit), later) && |later| == limit - 1
    ensures d in MarkAll(Marked(seen, d, limit), later, limit) <==> d !in seen || IsNewest(seen, d)
  {
    var now := Marked(seen, d, limit);
    MarkKeepsCache(seen, d, limit);
    MarkedIsMember(seen, d, limit);
    CacheIsTheLastAdded(now, later, limit);
    FreshIdsAreAdded(now, later, limit);
    TailOfJoin(now, later, limit);
    NewestAfterMark(seen, d, limit);
    assert d !in later;
  }

  lemma NewestAfterMark(seen: seq<Id>, d: Id, limit: nat)
    requires limit >= 1
    ensures Marked(seen, d, limit) != []
    ensures d == Marked(seen, d, limit)[|Marked(seen, d, limit)| - 1] <==> d !in seen || IsNewest(seen, d)
  {
    MarkedIsMember(seen, d, limit);
  }

  // ------------------------------------------------- the order of handling

  /** Where `handle_delivery` is: after the look-up, after the message was sent or
      consumed, after the mark, after the save. */
  datatype Stage = Idle | Found(d: Id) | Handled(d: Id) | Remembered(d: Id) | OnDisk(d: Id)

  /** What loading the state file gives: the seen list, and the local endpoints
      with a binding or a pending link. */
  datatype File = File(seen: seq<Id>, bound: set<Id>, pending: set<Id>)

  /** A missing file, an empty one and one cut off in the middle all load as this. */
  const NO_FILE := File([], {}, {})

  /** Who is between emptying the file and having written it. */
  datatype Writer = Nobody | HandlerSave | CommandSave

  /** `torn` says that the file was emptied and not written since. The fields from
      `handled` on are history: `saved` holds what the file has listed at some
      time since it was last marked, `unwritten` what was marked since the last
      complete write. */
  datatype Bridge = Bridge(
    seen: seq<Id>, bound: set<Id>, pending: set<Id>, file: File, torn: bool, writer: Writer, stage: Stage,
    handled: map<Id, nat>, saved: set<Id>, unwritten: set<Id>, acked: set<Id>, dropped: set<Id>)

  const IDLE := Bridge([], {}, {}, NO_FILE, false, Nobody, Idle, map[], {}, {}, {}, {})

  datatype Move =
    | Repeat(d: Id)                    // seen before: ack at once
    | Find(d: Id, endpoint: Id)        // not seen, binding found or materialized
    | Leave(d: Id, endpoint: Id)       // no binding yet, link pending
    | Discard(d: Id, endpoint: Id)     // unknown endpoint: ack
    | Handle                           // forwarded to the user, or consumed
    | Remember
    | Truncate(who: Writer)            // a save opens the file
    | Write                            // and has written it
    | Acknowledge
    | Fail                             // an exception ends the save, the handler, or both
    | Crash                            // and a restart that loads the file
    | Relink(bound: set<Id>, pending: set<Id>)

  predicate CanDo(b: Bridge, m: Move) {
    match m
    case Write => b.writer != Nobody
    case Fail => b.writer != Nobody || b.stage != Idle
    case Crash => true
    case _ => b.writer == Nobody && CanHandle(b, m)
  }

  predicate CanHandle(b: Bridge, m: Move) {
    match m
    case Repeat(d) => b.stage == Idle && d in b.seen
    case Find(d, e) => b.stage == Idle && d !in b.seen && e in b.bound + b.pending
    case Leave(d, e) => b.stage == Idle && d !in b.seen && e !in b.bound && e in b.pending
    case Discard(d, e) => b.stage == Idle && d !in b.seen && e !in b.bound && e !in b.pending
    case Handle => b.stage.Found?
    case Remember => b.stage.Handled?
    case Truncate(who) => who == if b.stage.Remembered? then HandlerSave else CommandSave
    case Acknowledge => b.stage.OnDisk?
    case _ => true
  }

  function Count(m: map<Id, nat>, d: Id): nat {
    if d in m then m[d] else 0
  }

  function Next(b: Bridge, m: Move, limit: nat): Bridge
    requires CanDo(b, m)
  {
    match m
    case Repeat(d) => b.(acked := b.acked + {d})
    case Find(d, e) => b.(stage := Found(d), bound := b.bound + {e}, pending := b.pending - {e})
    case Leave(_, _) => b
    case Discard(d, _) => b.(dropped := b.dropped + {d})
    case Handle => b.(stage := Handled(b.stage.d), handled := b.handled[b.stage.d := Count(b.handled, b.stage.d) + 1])
    case Remember =>
      var d := b.stage.d;
      b.(stage := Remembered(d), seen := Marked(b.seen, d, limit), unwritten := b.unwritten + {d},
         saved := if d in b.file.seen then b.saved else b.saved - {d})
    case Truncate(who) => b.(writer := who, torn := true, file := NO_FILE)
    case Write =>
      b.(writer := Nobody, torn := false, file := File(LastN(b.seen, limit), b.bound, b.pending),
         saved := b.saved + Members(b.seen), unwritten := {},
         stage := if b.writer == HandlerSave && b.stage.Remembered? then OnDisk(b.stage.d) else b.stage)
    case Acknowledge => b.(stage := Idle, acked := b.acked + {b.stage.d})
    case Fail => b.(writer := Nobody, stage := if b.writer == CommandSave then b.stage else Idle)
    case Crash =>
      b.(writer := Nobody, stage := Idle, seen := b.file.seen, bound := b.file.bound, pending := b.file.pending,
         unwritten := {})
    case Relink(bound, pending) => b.(bound := bound, pending := pending)
  }

  predicate Legal(b: Bridge, run: seq<Move>, limit: nat)
    decreases |run|
  {
    run == [] || (CanDo(b, run[0]) && Legal(Next(b, run[0], limit), run[1..], limit))
  }

  function After(b: Bridge, run: seq<Move>, limit: nat): Bridge
    requires Legal(b, run, limit)
    decreases |run|
  {
    if run == [] then b else After(Next(b, run[0], limit), run[1..], limit)
  }

  /** Everything cached has been handled; while a delivery is being handled it is
      not cached; and what the file does not list is unwritten or the file is torn. */
  ghost predicate BridgeInv(b: Bridge, limit: nat) {
    && CacheOk(b.seen, limit) && CacheOk(b.file.seen, limit)
    && (forall d :: d in b.seen || d in b.file.seen || d in b.acked || d in b.saved ==> Count(b.handled, d) >= 1)
    && (forall d :: d in b.file.seen ==> d in b.saved)
    && (b.stage.Found? || b.stage.Handled? ==> b.stage.d !in b.seen)
    && (b.stage.Handled? || b.stage.Remembered? || b.stage.OnDisk? ==> Count(b.handled, b.stage.d) >= 1)
    && (b.stage.Remembered? ==> b.stage.d in b.seen)
    && (b.stage.OnDisk? ==> b.stage.d in b.saved && b.stage.d in b.seen)
    && (b.torn ==> b.file == NO_FILE) && (b.writer != Nobody ==> b.torn)
    && (b.writer == HandlerSave <==> b.writer != Nobody && b.stage.Remembered?)
    && (!b.torn ==> forall d :: d in b.seen ==> d in b.file.seen || d in b.unwritten)
  }

  lemma StepKeepsBridge(b: Bridge, m: Move, limit: nat)
    requires limit >= 1 && BridgeInv(b, limit) && CanDo(b, m)
    ensures BridgeInv(Next(b, m, limit), limit)
  {
    if m.Remember? {
      MarkKeepsCache(b.seen, b.stage.d, limit);
      MarkedIsMember(b.seen, b.stage.d, limit);
    }
  }

  lemma {:induction false} RunKeepsBridge(b: Bridge, run: seq<Move>, limit: nat)
    requires limit >= 1 && BridgeInv(b, limit) && Legal(b, run, limit)
    ensures BridgeInv(After(b, run, limit), limit)
    decreases |run|
  {
    if run != [] {
      StepKeepsBridge(b, run[0], limit);
      RunKeepsBridge(Next(b, run[0], limit), run[1..], limit);
    }
  }

  /** Over any run with failures and crashes, whatever was acknowledged as handled
      was forwarded or consumed. */
  lemma AckedMeansHandled(run: seq<Move>, limit: nat, d: Id)
    requires limit >= 1 && Legal(IDLE, run, limit) && d in After(IDLE, run, limit).acked
    ensures Count(After(IDLE, run, limit).handled, d) >= 1
  {
    RunKeepsBridge(IDLE, run, limit);
  }

  /** A delivery that is still in the cache is not handled again. */
  lemma CachedIsNotHandledAgain(run: seq<Move>, limit: nat)
    requires limit >= 1 && Legal(IDLE, run, limit) && CanDo(After(IDLE, run, limit), Handle)
    ensures After(IDLE, run, limit).stage.d !in After(IDLE, run, limit).seen
  {
    RunKeepsBridge(IDLE, run, limit);
  }

  // ------------------------------------------------------ acks of unsaved ids

  /** No save is completed, and the bridge is not restarted. */
  predicate NothingWritten(run: seq<Move>) {
    run == [] || (run[0] != Write && run[0] != Crash && NothingWritten(run[1..]))
  }

  /** The handler that has just marked `d` fails before its save is complete. */
  predicate HandlerFails(b: Bridge, run: seq<Move>, limit: nat, d: Id)
    requires Legal(b, run, limit)
    decreases |run|
  {
    run != [] &&
    ((run[0] == Fail && b.stage == Remembered(d)) || HandlerFails(Next(b, run[0], limit), run[1..], limit, d))
  }

  /** At some point of the run `d` is marked while the file does not list it, its
      handler then fails before its save, and nothing is written from the mark on. */
  predicate FailedUnsaved(b: Bridge, run: seq<Move>, limit: nat, d: Id)
    requires Legal(b, run, limit)
    decreases |run|
  {
    run != [] &&
    ((run[0] == Remember && b.stage == Handled(d) && d !in b.file.seen &&
      NothingWritten(run[1..]) && HandlerFails(Next(b, run[0], limit), run[1..], limit, d)) ||
     FailedUnsaved(Next(b, run[0], limit), run[1..], limit, d))
  }

  lemma {:induction false} UnwrittenMarkMustFail(b: Bridge, run: seq<Move>, limit: nat, d: Id)
    requires Legal(b, run, limit) && NothingWritten(run)
    requires b.stage == Remembered(d) && After(b, run, limit).stage == Idle
    requires b.writer != CommandSave
    ensures HandlerFails(b, run, limit, d)
    decreases |run|
  {
    if run != [] {
      if run[0] != Fail {
        UnwrittenMarkMustFail(Next(b, run[0], limit), run[1..], limit, d);
      }
    }
  }

  /** An id that is cached and unsaved got there through a mark of that kind. */
  lemma {:induction false} UnsavedHasAMark(b: Bridge, run: seq<Move>, limit: nat, d: Id)
    requires limit >= 1 && BridgeInv(b, limit) && Legal(b, run, limit)
    requires After(b, run, limit).stage == Idle
    requires d in After(b, run, limit).seen && d !in After(b, run, limit).saved
    ensures FailedUnsaved(b, run, limit, d) || (d in b.seen && d !in b.saved && NothingWritten(run))
    decreases |run|
  {
    if run != [] {
      var m := run[0];
      var next := Next(b, m, limit);
      StepKeepsBridge(b, m, limit);
      UnsavedHasAMark(next, run[1..], limit, d);
      if !FailedUnsaved(next, run[1..], limit, d) {
        if m == Remember && b.stage == Handled(d) {
          UnwrittenMarkMustFail(next, run[1..], limit, d);
        } else if m.Remember? {
          MarkedIsMember(b.seen, b.stage.d, limit);
        }
      }
    }
  }

  lemma {:induction false} NothingWrittenSavesNothing(b: Bridge, run: seq<Move>, limit: nat, d: Id)
    requires Legal(b, run, limit) && NothingWritten(run) && d !in b.saved
    ensures d !in After(b, run, limit).saved
    decreases |run|
  {
    if run != [] {
      NothingWrittenSavesNothing(Next(b, run[0], limit), run[1..], limit, d);
    }
  }

  lemma {:induction false} FailedUnsavedIsUnsaved(b: Bridge, run: seq<Move>, limit: nat, d: Id)
    requires Legal(b, run, limit) && FailedUnsaved(b, run, limit, d)
    ensures d !in After(b, run, limit).saved
    decreases |run|
  {
    var next := Next(b, run[0], limit);
    if FailedUnsaved(next, run[1..], limit, d) {
      FailedUnsavedIsUnsaved(next, run[1..], limit, d);
    } else {
      NothingWrittenSavesNothing(next, run[1..], limit, d);
    }
  }

  /** An ack of a cached delivery is an ack of something that was never saved since
      it was marked exactly if the handler that marked it failed before its save
      and nothing has been written since. */
  lemma RepeatAcksUnsavedIff(run: seq<Move>, limit: nat, d: Id)
    requires limit >= 1 && Legal(IDLE, run, limit) && CanDo(After(IDLE, run, limit), Repeat(d))
    ensures d !in After(IDLE, run, limit).saved <==> FailedUnsaved(IDLE, run, limit, d)
  {
    if FailedUnsaved(IDLE, run, limit, d) {
      FailedUnsavedIsUnsaved(IDLE, run, limit, d);
    }
    if d !in After(IDLE, run, limit).saved {
      UnsavedHasAMark(IDLE, run, limit, d);
    }
  }

  /** The handler's own ack always follows its save. */
  lemma HandlerAcksAreSaved(run: seq<Move>, limit: nat)
    requires limit >= 1 && Legal(IDLE, run, limit) && CanDo(After(IDLE, run, limit), Acknowledge)
    ensures After(IDLE, run, limit).stage.d in After(IDLE, run, limit).saved
  {
    RunKeepsBridge(IDLE, run, limit);
  }

  /** Some run of the bridge from its first start leads here. */
  ghost predicate Reachable(b: Bridge, limit: nat) {
    exists run :: Legal(IDLE, run, limit) && After(IDLE, run, limit) == b
  }

  lemma {:induction false} RunGrows(b: Bridge, run: seq<Move>, m: Move, limit: nat)
    requires Legal(b, run, limit) && CanDo(After(b, run, limit), m)
    ensures Legal(b, run + [m], limit) && After(b, run + [m], limit) == Next(After(b, run, limit), m, limit)
    decreases |run|
  {
    var longer := run + [m];
    if run == [] {
      assert longer[0] == m && longer[1..] == [];
    } else {
      assert longer[0] == run[0] && longer[1..] == run[1..] + [m];
      RunGrows(Next(b, run[0], limit), run[1..], m, limit);
    }
  }

  lemma StepIsReachable(b: Bridge, m: Move, limit: nat)
    requires Reachable(b, limit) && CanDo(b, m)
    ensures Reachable(Next(b, m, limit), limit)
  {
    var run :| Legal(IDLE, run, limit) && After(IDLE, run, limit) == b;
    RunGrows(IDLE, run, m, limit);
  }

  /** Forwarding, or consuming, and marking one delivery. */
  function HandledAndMarked(b: Bridge, d: Id, e: Id, limit: nat): Bridge
    requires b.writer == Nobody && b.stage == Idle && d !in b.seen && e in b.bound
  {
    Next(Next(Next(b, Find(d, e), limit), Handle, limit), Remember, limit)
  }

  lemma HandlingIsReachable(b: Bridge, d: Id, e: Id, limit: nat)
    requires b.writer == Nobody && b.stage == Idle && d !in b.seen && e in b.bound && Reachable(b, limit)
    ensures Reachable(HandledAndMarked(b, d, e, limit), limit)
  {
    StepIsReachable(b, Find(d, e), limit);
    StepIsReachable(Next(b, Find(d, e), limit), Handle, limit);
    StepIsReachable(Next(Next(b, Find(d, e), limit), Handle, limit), Remember, limit);
  }

  /** A bridge with one linked endpoint that has marked delivery 7. */
  function FirstMark(limit: nat): Bridge {
    HandledAndMarked(Next(IDLE, Relink({1}, {}), limit), 7, 1, limit)
  }

  lemma FirstMarkIsReachable(limit: nat)
    requires limit >= 1
    ensures Reachable(FirstMark(limit), limit)
    ensures var b := FirstMark(limit);
            b.seen == [7] && b.bound == {1} && b.pending == {} && b.stage == Remembered(7) &&
            b.writer == Nobody && b.saved == {} && b.file == NO_FILE
  {
    assert After(IDLE, [], limit) == IDLE;
    assert Reachable(IDLE, limit);
    StepIsReachable(IDLE, Relink({1}, {}), limit);
    HandlingIsReachable(Next(IDLE, Relink({1}, {}), limit), 7, 1, limit);
    assert [] + [7] == [7];
  }

  /** It happens: an ack of a delivery that no file lists. */
  lemma FailedSaveLosesTheRecord(limit: nat)
    requires limit >= 1
    ensures exists b :: Reachable(b, limit) && CanDo(b, Repeat(7)) && 7 !in b.saved && 7 !in b.file.seen
  {
    FirstMarkIsReachable(limit);
    StepIsReachable(FirstMark(limit), Fail, limit);
    assert CanDo(Next(FirstMark(limit), Fail, limit), Repeat(7));
  }

  // ---------------------------------------------------- a save that is cut off

  /** The handler's save and ack. */
  function SavedAndAcked(b: Bridge, limit: nat): Bridge
    requires b.writer == Nobody && b.stage.Remembered?
  {
    Next(Next(Next(b, Truncate(HandlerSave), limit), Write, limit), Acknowledge, limit)
  }

  lemma SavingIsReachable(b: Bridge, limit: nat)
    requires b.writer == Nobody && b.stage.Remembered? && Reachable(b, limit)
    ensures Reachable(SavedAndAcked(b, limit), limit)
  {
    StepIsReachable(b, Truncate(HandlerSave), limit);
    StepIsReachable(Next(b, Truncate(HandlerSave), limit), Write, limit);
    StepIsReachable(Next(Next(b, Truncate(HandlerSave), limit), Write, limit), Acknowledge, limit);
  }

  lemma SavingSaves(b: Bridge, limit: nat)
    requires b.writer == Nobody && b.stage.Remembered? && b.stage.d in b.seen
    ensures var b' := SavedAndAcked(b, limit);
            b'.writer == Nobody && b'.stage == Idle && b'.bound == b.bound && b.stage.d in b'.saved
  {
  }

  /** A crash during the next save forgets what was saved before, and the bindings
      with it: mail for a linked endpoint is then acked unread. */
  lemma CutOffSaveForgetsEverything(limit: nat)
    requires limit >= 1
    ensures exists b ::
              Reachable(b, limit) && 7 in b.saved && b.bound == {1} && b.writer == CommandSave &&
              Next(b, Crash, limit).seen == [] && CanDo(Next(b, Crash, limit), Discard(9, 1))
  {
    FirstMarkIsReachable(limit);
    var first := FirstMark(limit);
    SavingIsReachable(first, limit);
    SavingSaves(first, limit);
    var acked := SavedAndAcked(first, limit);
    StepIsReachable(acked, Truncate(CommandSave), limit);
    var b := Next(acked, Truncate(CommandSave), limit);
    assert Next(b, Crash, limit).seen == [];
  }

  /** The endpoints whose deliveries are not discarded. */
  function Linked(b: Bridge): set<Id> {
    b.bound + b.pending
  }

  /** A linked endpoint becomes unknown only by a command, or by a restart from a
      file that does not list it; a torn file lists none. */
  lemma UnlinkingHasACause(b: Bridge, m: Move, limit: nat, e: Id)
    requires limit >= 1 && BridgeInv(b, limit) && CanDo(b, m) && e in Linked(b)
    ensures e !in Linked(Next(b, m, limit)) <==>
            (m.Relink? && e !in m.bound + m.pending) || (m.Crash? && e !in b.file.bound + b.file.pending)
    ensures b.torn ==> b.file.bound + b.file.pending == {}
  {
  }

  predicate Lists(file: File, e: Id) {
    e in file.bound + file.pending
  }

  /** At some point of the run a command links `e` while the file does not list it, and
      no save is completed from then on. */
  predicate LinkedUnwritten(b: Bridge, run: seq<Move>, limit: nat, e: Id)
    requires Legal(b, run, limit)
    decreases |run|
  {
    run != [] &&
    ((run[0].Relink? && e !in Linked(b) && e in run[0].bound + run[0].pending && !Lists(b.file, e) &&
      NothingWritten(run[1..])) ||
     LinkedUnwritten(Next(b, run[0], limit), run[1..], limit, e))
  }

  lemma StepLinks(b: Bridge, m: Move, limit: nat, e: Id)
    requires limit >= 1 && BridgeInv(b, limit) && CanDo(b, m)
    requires var b' := Next(b, m, limit);
             e in Linked(b') && !Lists(b'.file, e) && !b'.torn
    ensures b.file == Next(b, m, limit).file && !b.torn && m != Write && m != Crash
    ensures e in Linked(b) || (m.Relink? && e in m.bound + m.pending)
  {
  }

  /** A linked endpoint that a whole file does not list was linked in that way. */
  lemma {:induction false} UnlistedHasALink(b: Bridge, run: seq<Move>, limit: nat, e: Id)
    requires limit >= 1 && BridgeInv(b, limit) && Legal(b, run, limit)
    requires var b' := After(b, run, limit);
             e in Linked(b') && !Lists(b'.file, e) && !b'.torn
    ensures LinkedUnwritten(b, run, limit, e) ||
            (e in Linked(b) && !Lists(b.file, e) && !b.torn && NothingWritten(run))
    decreases |run|
  {
    if run != [] {
      var next := Next(b, run[0], limit);
      StepKeepsBridge(b, run[0], limit);
      UnlistedHasALink(next, run[1..], limit, e);
      if !LinkedUnwritten(next, run[1..], limit, e) {
        StepLinks(b, run[0], limit, e);
      }
    }
  }

  lemma {:induction false} NothingWrittenListsNothing(b: Bridge, run: seq<Move>, limit: nat, e: Id)
    requires Legal(b, run, limit) && NothingWritten(run) && !Lists(b.file, e)
    ensures !Lists(After(b, run, limit).file, e)
    decreases |run|
  {
    if run != [] {
      NothingWrittenListsNothing(Next(b, run[0], limit), run[1..], limit, e);
    }
  }

  lemma {:induction false} LinkedUnwrittenIsUnlisted(b: Bridge, run: seq<Move>, limit: nat, e: Id)
    requires Legal(b, run, limit) && LinkedUnwritten(b, run, limit, e)
    ensures !Lists(After(b, run, limit).file, e)
    decreases |run|
  {
    var next := Next(b, run[0], limit);
    if LinkedUnwritten(next, run[1..], limit, e) {
      LinkedUnwrittenIsUnlisted(next, run[1..], limit, e);
    } else {
      NothingWrittenListsNothing(next, run[1..], limit, e);
    }
  }

  /** A restart forgets a linked endpoint, and then acks its unseen mail unread, exactly
      if the file is torn or the endpoint was linked while the file did not list it and
      no save was completed since. */
  lemma RestartUnlinksIff(run: seq<Move>, limit: nat, e: Id, d: Id)
    requires limit >= 1 && Legal(IDLE, run, limit) && e in Linked(After(IDLE, run, limit))
    requires d !in After(IDLE, run, limit).file.seen
    ensures var b := After(IDLE, run, limit);
            var lost := b.torn || LinkedUnwritten(IDLE, run, limit, e);
            (e !in Linked(Next(b, Crash, limit)) <==> lost) &&
            (CanDo(Next(b, Crash, limit), Discard(d, e)) <==> lost)
  {
    var b := After(IDLE, run, limit);
    RunKeepsBridge(IDLE, run, limit);
    UnlinkingHasACause(b, Crash, limit, e);
    if LinkedUnwritten(IDLE, run, limit, e) {
      LinkedUnwrittenIsUnlisted(IDLE, run, limit, e);
    }
    if !b.torn && !Lists(b.file, e) {
      UnlistedHasALink(IDLE, run, limit, e);
    }
  }

  // ------------------------------------------------ repeats and what pays for them

  /** Whether the bridge still knows that it handled `d`. */
  function Known(b: Bridge, d: Id): nat {
    if d in b.seen || (b.stage.Handled? && b.stage.d == d) then 1 else 0
  }

  /** A step after which it no longer does. */
  predicate Forgets(b: Bridge, m: Move, limit: nat, d: Id)
    requires CanDo(b, m)
  {
    Known(b, d) == 1 && Known(Next(b, m, limit), d) == 0
  }

  predicate Evicts(b: Bridge, m: Move, limit: nat, d: Id)
    requires CanDo(b, m)
  {
    m.Remember? && b.seen != [] && |b.seen| == limit && b.seen[0] == d
  }

  lemma EvictionTakesTheOldest(b: Bridge, limit: nat, d: Id)
    requires limit >= 1 && BridgeInv(b, limit) && CanDo(b, Remember) && d in b.seen
    ensures d !in Marked(b.seen, b.stage.d, limit) <==> Evicts(b, Remember, limit, d)
  {
    var longer := b.seen + [b.stage.d];
    if |longer| > limit {
      assert longer[|longer| - limit..] == b.seen[1..] + [b.stage.d];
      assert forall x :: x in b.seen ==> x == b.seen[0] || x in b.seen[1..];
    }
  }

  /** The bridge forgets exactly by a restart from a file that does not list the
      id, a failure right after handling, or the arrival of a new id in a full
      cache. The file does not list a cached id only because it is torn, by a save
      that was cut off or failed, or because nothing was written since the mark. */
  lemma ForgettingHasACause(b: Bridge, m: Move, limit: nat, d: Id)
    requires limit >= 1 && BridgeInv(b, limit) && CanDo(b, m) && Known(b, d) == 1
    ensures Forgets(b, m, limit, d) <==>
            (m.Crash? && d !in b.file.seen) ||
            (m.Fail? && b.writer == Nobody && b.stage == Handled(d)) ||
            Evicts(b, m, limit, d)
    ensures d !in b.file.seen ==> b.torn || d in b.unwritten || b.stage == Handled(d)
  {
    if m.Remember? {
      MarkedIsMember(b.seen, b.stage.d, limit);
      if d in b.seen {
        EvictionTakesTheOldest(b, limit, d);
      }
    }
  }

  function TimesForgotten(b: Bridge, run: seq<Move>, limit: nat, d: Id): nat
    requires Legal(b, run, limit)
    decreases |run|
  {
    if run == [] then 0
    else (if Forgets(b, run[0], limit, d) then 1 else 0) + TimesForgotten(Next(b, run[0], limit), run[1..], limit, d)
  }

  /** A crash can bring back an id that memory had evicted but the disk still
      lists. */
  predicate Recalls(b: Bridge, m: Move, limit: nat, d: Id)
    requires CanDo(b, m)
  {
    Known(b, d) == 0 && Known(Next(b, m, limit), d) == 1 && !(m.Handle? && b.stage.d == d)
  }

  function TimesRecalled(b: Bridge, run: seq<Move>, limit: nat, d: Id): nat
    requires Legal(b, run, limit)
    decreases |run|
  {
    if run == [] then 0
    else (if Recalls(b, run[0], limit, d) then 1 else 0) + TimesRecalled(Next(b, run[0], limit), run[1..], limit, d)
  }

  lemma StepBalance(b: Bridge, m: Move, limit: nat, d: Id)
    requires limit >= 1 && BridgeInv(b, limit) && CanDo(b, m)
    ensures var b' := Next(b, m, limit);
            Count(b'.handled, d) - Count(b.handled, d) ==
            Known(b', d) - Known(b, d) + (if Forgets(b, m, limit, d) then 1 else 0) -
            (if Recalls(b, m, limit, d) then 1 else 0)
  {
  }

  /** Each handling of one delivery after the first is paid for by a step that
      forgot it, in every run. */
  lemma {:induction false} RepeatsArePaidFor(b: Bridge, run: seq<Move>, limit: nat, d: Id)
    requires limit >= 1 && BridgeInv(b, limit) && Legal(b, run, limit)
    ensures Count(After(b, run, limit).handled, d) + TimesRecalled(b, run, limit, d) + Known(b, d) ==
            Count(b.handled, d) + TimesForgotten(b, run, limit, d) + Known(After(b, run, limit), d)
    decreases |run|
  {
    if run != [] {
      StepBalance(b, run[0], limit, d);
      StepKeepsBridge(b, run[0], limit);
      RepeatsArePaidFor(Next(b, run[0], limit), run[1..], limit, d);
    }
  }

  lemma HandledAtMostOnceMoreThanForgotten(run: seq<Move>, limit: nat, d: Id)
    requires limit >= 1 && Legal(IDLE, run, limit)
    ensures Count(After(IDLE, run, limit).handled, d) <= 1 + TimesForgotten(IDLE, run, limit, d)
  {
    RepeatsArePaidFor(IDLE, run, limit, d);
  }
}
