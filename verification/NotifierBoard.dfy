/** The inbox notifier: per-node versions and waiting futures, guarded by one
    lock, with wake-ups from other threads handed to the event loop. */
module NotifierBoard {
  import opened RelayTables

  datatype Slot = Slot(version: nat, waiters: seq<nat>)

  datatype Future = Pending | Resolved(version: nat) | Cancelled

  /** What the lock protects, plus the two things that live in the event loop:
      its futures and the callbacks handed to it but not yet run. */
  datatype Board = Board(
    loop: Option<nat>, thread: nat, slots: map<Id, Slot>, futures: map<nat, Future>, owed: seq<Id>)

  const NEW_BOARD := Board(None, 0, map[], map[], [])

  const NEW_SLOT := Slot(0, [])

  function SlotOf(b: Board, n: Id): Slot {
    if n in b.slots then b.slots[n] else NEW_SLOT
  }

  /** `setdefault`: reading a slot creates it. */
  function Touched(b: Board, n: Id): (r: Board)
    ensures forall m :: SlotOf(r, m) == SlotOf(b, m)
  {
    b.(slots := b.slots[n := SlotOf(b, n)])
  }

  function Bound(b: Board, closed: set<nat>, loop: nat, thread: nat): Board {
    if b.loop.None? || b.loop.value in closed then b.(loop := Some(loop), thread := thread) else b
  }

  predicate WrongLoop(b: Board, closed: set<nat>, loop: nat) {
    b.loop.Some? && b.loop.value !in closed && b.loop.value != loop
  }

  /** Registering a future, unless the version has moved on already. */
  function Registered(b: Board, n: Id, after: nat, f: nat): Board {
    if SlotOf(b, n).version != after then Touched(b, n)
    else b.(slots := b.slots[n := Slot(after, SlotOf(b, n).waiters + [f])], futures := b.futures[f := Pending])
  }

  function Settle(x: Future, version: nat): Future {
    if x == Pending then Resolved(version) else x
  }

  function SettleAll(futures: map<nat, Future>, waiters: seq<nat>, version: nat): map<nat, Future> {
    map f | f in futures :: if f in waiters then Settle(futures[f], version) else futures[f]
  }

  /** One wake-up: the version moves on and every waiter is resolved. */
  function Fired(b: Board, n: Id): Board {
    var slot := SlotOf(b, n);
    b.(slots := b.slots[n := Slot(slot.version + 1, [])],
       futures := SettleAll(b.futures, slot.waiters, slot.version + 1))
  }

  function Notified(b: Board, closed: set<nat>, n: Id, caller: nat): Board {
    if b.loop.None? || b.loop.value in closed then b
    else if caller == b.thread then Fired(b, n)
    else b.(owed := b.owed + [n])
  }

  function RemoveFirst(s: seq<nat>, f: nat): (r: seq<nat>)
    ensures f !in s ==> r == s
    ensures forall g :: g in r ==> g in s
    ensures forall g :: g in s && g != f ==> g in r
  {
    if s == [] then [] else if s[0] == f then s[1..] else [s[0]] + RemoveFirst(s[1..], f)
  }

  /** What a wait that timed out or was cancelled does under the lock. */
  function Withdrawn(b: Board, n: Id, f: nat): Board {
    if n !in b.slots then b
    else b.(slots := b.slots[n := b.slots[n].(waiters := RemoveFirst(b.slots[n].waiters, f))])
  }

  /** Every future on a waiting list belongs to the loop. */
  predicate WaitersKnown(b: Board) {
    forall n, f :: n in b.slots && f in b.slots[n].waiters ==> f in b.futures
  }

  datatype Wait = WrongLoopError | At(version: nat) | Asleep

  class InboxNotifier {
    var loop: Option<nat>
    var loopThread: nat
    var slots: map<Id, Slot>
    var futures: map<nat, Future>
    var callbacks: seq<Id>

    function State(): Board
      reads this
    {
      Board(loop, loopThread, slots, futures, callbacks)
    }

    constructor ()
      ensures State() == NEW_BOARD
    {
      loop, loopThread, slots, futures, callbacks := None, 0, map[], map[], [];
    }

    method BindRunningLoop(closed: set<nat>, running: nat, thread: nat) returns (ok: bool)
      modifies this
      ensures ok <==> !WrongLoop(old(State()), closed, running)
      ensures State() == if ok then Bound(old(State()), closed, running, thread) else old(State())
    {
      ok := true;
      if loop.None? || loop.value in closed {
        loop := Some(running);
        loopThread := thread;
      } else if loop.value != running {
        ok := false;
      }
    }

    method Snapshot(closed: set<nat>, running: nat, thread: nat, n: Id) returns (r: Wait)
      modifies this
      ensures WrongLoop(old(State()), closed, running) ==> r == WrongLoopError && State() == old(State())
      ensures !WrongLoop(old(State()), closed, running) ==>
                r == At(SlotOf(old(State()), n).version) &&
                State() == Touched(Bound(old(State()), closed, running, thread), n)
    {
      var ok := BindRunningLoop(closed, running, thread);
      if !ok {
        return WrongLoopError;
      }
      if n !in slots {
        slots := slots[n := NEW_SLOT];
      } else {
        assert slots[n := slots[n]] == slots;
      }
      r := At(slots[n].version);
    }

    /** The part of `wait_for_change` before it awaits. */
    method BeginWait(closed: set<nat>, running: nat, thread: nat, n: Id, after: nat, future: nat) returns (r: Wait)
      modifies this
      ensures WrongLoop(old(State()), closed, running) ==> r == WrongLoopError && State() == old(State())
      ensures !WrongLoop(old(State()), closed, running) ==>
                State() == Registered(Bound(old(State()), closed, running, thread), n, after, future) &&
                r == if SlotOf(old(State()), n).version != after then At(SlotOf(old(State()), n).version) else Asleep
    {
      var ok := BindRunningLoop(closed, running, thread);
      if !ok {
        return WrongLoopError;
      }
      if n !in slots {
        slots := slots[n := NEW_SLOT];
      } else {
        assert slots[n := slots[n]] == slots;
      }
      if slots[n].version != after {
        return At(slots[n].version);
      }
      futures := futures[future := Pending];
      slots := slots[n := slots[n].(waiters := slots[n].waiters + [future])];
      assert slots == old(slots)[n := slots[n]];
      r := Asleep;
    }

    /** The two exception handlers of `wait_for_change`. */
    method Withdraw(n: Id, future: nat)
      modifies this
      ensures State() == Withdrawn(old(State()), n, future)
    {
      if n in slots {
        slots := slots[n := slots[n].(waiters := RemoveFirst(slots[n].waiters, future))];
      }
    }

    method Notify(closed: set<nat>, caller: nat, n: Id)
      requires WaitersKnown(State())
      modifies this
      ensures State() == Notified(old(State()), closed, n, caller)
    {
      if loop.None? || loop.value in closed {
        return;
      }
      if caller == loopThread {
        NotifyInLoop(n);
        return;
      }
      callbacks := callbacks + [n];
    }

    method NotifyInLoop(n: Id)
      requires WaitersKnown(State())
      modifies this`slots, this`futures
      ensures State() == Fired(old(State()), n)
    {
      if n !in slots {
        slots := slots[n := NEW_SLOT];
      }
      var version := slots[n].version + 1;
      var waiters := slots[n].waiters;
      slots := slots[n := Slot(version, [])];
      var i := 0;
      while i < |waiters|
        invariant 0 <= i <= |waiters|
        invariant slots == old(slots)[n := Slot(version, [])]
        invariant futures == SettleAll(old(futures), waiters[..i], version)
      {
        var future := waiters[i];
        assert waiters[..i + 1] == waiters[..i] + [future];
        if futures[future] == Pending {
          futures := futures[future := Resolved(version)];
        }
        i := i + 1;
      }
      assert waiters[..i] == waiters;
    }
  }

  // --------------------------------------------- what one wake-up guarantees

  lemma FiringResolvesEveryWaiter(b: Board, n: Id, f: nat)
    requires WaitersKnown(b) && f in SlotOf(b, n).waiters
    ensures var b' := Fired(b, n);
            b'.futures[f] != Pending && SlotOf(b', n).waiters == [] &&
            (b.futures[f] == Pending ==> b'.futures[f] == Resolved(SlotOf(b, n).version + 1))
  {
  }

  // ------------------------------------------------- what a withdrawal undoes

  /** Registrations for the same node and version, one after the other. */
  function RegisteredAll(b: Board, n: Id, after: nat, fs: seq<nat>): Board
    decreases |fs|
  {
    if fs == [] then b else RegisteredAll(Registered(b, n, after, fs[0]), n, after, fs[1..])
  }

  lemma {:induction false} RegistrationsQueueUp(b: Board, n: Id, after: nat, fs: seq<nat>)
    requires n in b.slots && b.slots[n].version == after
    ensures RegisteredAll(b, n, after, fs).slots == b.slots[n := Slot(after, b.slots[n].waiters + fs)]
    decreases |fs|
  {
    if fs == [] {
      assert b.slots[n].waiters + fs == b.slots[n].waiters;
    } else {
      RegistrationsQueueUp(Registered(b, n, after, fs[0]), n, after, fs[1..]);
      assert b.slots[n].waiters + [fs[0]] + fs[1..] == b.slots[n].waiters + fs;
    }
  }

  lemma {:induction false} RemoveFirstTakesOne(before: seq<nat>, f: nat, rest: seq<nat>)
    requires f !in before
    ensures RemoveFirst(before + [f] + rest, f) == before + rest
  {
    var s := before + [f] + rest;
    if before == [] {
      assert s[1..] == rest && before + rest == rest;
    } else {
      assert s[0] == before[0] && s[1..] == before[1..] + [f] + rest;
      RemoveFirstTakesOne(before[1..], f, rest);
      assert [before[0]] + (before[1..] + rest) == before + rest;
    }
  }

  /** A withdrawn wait leaves the slots as if it had never registered: the waits
      before and after it keep their places. */
  lemma WithdrawUndoesRegistration(b: Board, n: Id, after: nat, f: nat, others: seq<nat>)
    requires SlotOf(b, n).version == after && f !in SlotOf(b, n).waiters
    ensures Withdrawn(RegisteredAll(Registered(b, n, after, f), n, after, others), n, f).slots ==
            RegisteredAll(Touched(b, n), n, after, others).slots
  {
    RegistrationsQueueUp(Registered(b, n, after, f), n, after, others);
    RegistrationsQueueUp(Touched(b, n), n, after, others);
    RemoveFirstTakesOne(SlotOf(b, n).waiters, f, others);
  }
}
