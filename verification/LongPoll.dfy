/** Long polling as a concurrent protocol: pollers that snapshot, fetch and wait,
    senders that commit and then notify, and callbacks that run later in the
    event loop, interleaved with every other transaction of the relay. */
module LongPoll {
  import opened RelayTables
  import opened RelaySpec
  import opened RelayInvariant
  import opened RelayRuns
  import opened RelayDelivery
  import opened NotifierBoard

  /** Where an inbox request is in its loop. */
  datatype Poller =
    | Top(node: Id)
    | Fetching(node: Id, version: nat)
    | Empty(node: Id, version: nat, upto: nat)
    | Waiting(node: Id, version: nat, upto: nat, future: nat)
    | Leaving(node: Id, future: nat, cancelled: bool)

  /** A sender whose packet is committed and whose notify has not finished. */
  datatype Sender = Unnotified(node: Id) | SawLoop(node: Id)

  /** `mail` lists the destination node of every committed packet, in commit
      order; a poller that has fetched remembers how long it was then. */
  datatype Net = Net(
    sys: Sys, mail: seq<Id>, clock: int, board: Board, pollers: map<nat, Poller>, senders: map<nat, Sender>)

  const FIRST := Net(START, [], 0, NEW_BOARD, map[], map[])

  /** The one event loop the server runs on, and its thread. */
  const LOOP: nat := 0
  const LOOP_THREAD: nat := 0

  datatype Step =
    | Transact(a: Action)
    | Accept(t: nat, a: Action)
    | Tick(now: int)
    | Arrive(p: nat, node: Id)
    | TakeSnapshot(p: nat)
    | Fetch(p: nat, now: int, over: bool)
    | Skip(p: nat)
    | StartWait(p: nat, future: nat)
    | Wake(p: nat)
    | GiveUp(p: nat, cancelled: bool)
    | Withdraw(p: nat)
    | ReadLoop(t: nat)
    | Hand(t: nat, caller: nat)
    | RunCallback

  ghost predicate CanStep(net: Net, step: Step) {
    match step
    case Transact(a) => Enabled(net.sys, a) && !ReplyTo(net.sys, a).Accepted?
    case Accept(t, a) => t !in net.senders && Enabled(net.sys, a) && ReplyTo(net.sys, a).Accepted?
    case Tick(now) => net.clock <= now
    case Arrive(p, _) => p !in net.pollers
    case TakeSnapshot(p) => p in net.pollers && net.pollers[p].Top?
    case Fetch(p, now, _) => p in net.pollers && net.pollers[p].Fetching? && net.clock <= now
    case Skip(p) => p in net.pollers && net.pollers[p].Empty?
    case StartWait(p, f) => p in net.pollers && net.pollers[p].Empty? && f !in net.board.futures
    case Wake(p) => p in net.pollers && net.pollers[p].Waiting? && FutureOf(net, p).Resolved?
    case GiveUp(p, _) => p in net.pollers && net.pollers[p].Waiting?
    case Withdraw(p) => p in net.pollers && net.pollers[p].Leaving?
    case ReadLoop(t) => t in net.senders && net.senders[t].Unnotified?
    case Hand(t, _) => t in net.senders && net.senders[t].SawLoop?
    case RunCallback => net.board.owed != []
  }

  function FutureOf(net: Net, p: nat): Future
    requires p in net.pollers && net.pollers[p].Waiting?
  {
    var f := net.pollers[p].future;
    if f in net.board.futures then net.board.futures[f] else Pending
  }

  function CancelPending(b: Board, f: nat): Board {
    if f in b.futures && b.futures[f] == Pending then b.(futures := b.futures[f := Cancelled]) else b
  }

  ghost function NextBoard(net: Net, step: Step): Board
    requires CanStep(net, step)
  {
    var b := net.board;
    match step
    case TakeSnapshot(p) => Touched(Bound(b, {}, LOOP, LOOP_THREAD), net.pollers[p].node)
    case StartWait(p, f) =>
      Registered(Bound(b, {}, LOOP, LOOP_THREAD), net.pollers[p].node, net.pollers[p].version, f)
    case GiveUp(p, _) => CancelPending(b, net.pollers[p].future)
    case Withdraw(p) => Withdrawn(b, net.pollers[p].node, net.pollers[p].future)
    case Hand(t, caller) => Notified(b, {}, net.senders[t].node, caller)
    case RunCallback => Fired(b.(owed := b.owed[1..]), b.owed[0])
    case _ => b
  }

  ghost function NextPollers(net: Net, step: Step): map<nat, Poller>
    requires CanStep(net, step)
  {
    var ps := net.pollers;
    match step
    case Arrive(p, n) => ps[p := Top(n)]
    case TakeSnapshot(p) => ps[p := Fetching(ps[p].node, SlotOf(net.board, ps[p].node).version)]
    case Fetch(p, now, over) =>
      if over || Queue(net.sys.db, OfNode(ps[p].node), now) != {} then ps - {p}
      else ps[p := Empty(ps[p].node, ps[p].version, |net.mail|)]
    case Skip(p) => ps[p := Top(ps[p].node)]
    case StartWait(p, f) =>
      if SlotOf(net.board, ps[p].node).version != ps[p].version then ps[p := Top(ps[p].node)]
      else ps[p := Waiting(ps[p].node, ps[p].version, ps[p].upto, f)]
    case Wake(p) => ps[p := Top(ps[p].node)]
    case GiveUp(p, cancelled) => ps[p := Leaving(ps[p].node, ps[p].future, cancelled)]
    case Withdraw(p) => if ps[p].cancelled then ps - {p} else ps[p := Top(ps[p].node)]
    case _ => ps
  }

  ghost function NextSenders(net: Net, step: Step): map<nat, Sender>
    requires CanStep(net, step)
  {
    var ts := net.senders;
    match step
    case Accept(t, a) => ts[t := Unnotified(TicketOf(net.sys, a).delivery.node)]
    case ReadLoop(t) => if net.board.loop.None? then ts - {t} else ts[t := SawLoop(ts[t].node)]
    case Hand(t, _) => ts - {t}
    case _ => ts
  }

  ghost function NextNet(net: Net, step: Step): Net
    requires CanStep(net, step)
  {
    Net(
      match step
      case Transact(a) => Next(net.sys, a)
      case Accept(_, a) => Next(net.sys, a)
      case _ => net.sys,
      match step
      case Accept(_, a) => net.mail + [TicketOf(net.sys, a).delivery.node]
      case _ => net.mail,
      match step
      case Tick(now) => now
      case Fetch(_, now, _) => now
      case _ => net.clock,
      NextBoard(net, step), NextPollers(net, step), NextSenders(net, step))
  }

  ghost predicate LegalSteps(net: Net, run: seq<Step>)
    decreases |run|
  {
    run == [] || (CanStep(net, run[0]) && LegalSteps(NextNet(net, run[0]), run[1..]))
  }

  ghost function AfterSteps(net: Net, run: seq<Step>): Net
    requires LegalSteps(net, run)
    decreases |run|
  {
    if run == [] then net else AfterSteps(NextNet(net, run[0]), run[1..])
  }

  // -------------------------------------------------------------- invariant

  /** The node has an unexpired delivery queued. */
  predicate HasMail(db: Db, n: Id, now: int) {
    Queue(db, OfNode(n), now) != {}
  }

  /** A wake-up for the node is still to come: a callback is waiting to run, or a
      sender has committed and not yet finished its notify. */
  ghost predicate Owed(net: Net, n: Id) {
    n in net.board.owed || exists t :: t in net.senders && net.senders[t].node == n
  }

  /** A packet for the poller's node was committed after the poller's fetch. */
  ghost predicate Missed(net: Net, x: Poller)
    requires x.Empty? || x.Waiting?
  {
    exists i :: x.upto <= i < |net.mail| && net.mail[i] == x.node
  }

  ghost predicate MissedIsOwed(net: Net, x: Poller)
    requires x.Empty? || x.Waiting?
  {
    Missed(net, x) ==> Owed(net, x.node)
  }

  /** Whatever is queued for the node now was committed after the fetch. */
  ghost predicate MailIsNew(net: Net, x: Poller) {
    (x.Empty? || x.Waiting?) && HasMail(net.sys.db, x.node, net.clock) ==> Missed(net, x)
  }

  ghost predicate UptoKnown(net: Net, x: Poller) {
    x.Empty? || x.Waiting? ==> x.upto <= |net.mail|
  }

  ghost predicate PollerOk(net: Net, x: Poller) {
    !x.Top? ==>
      && net.board.loop.Some? && MailIsNew(net, x) && UptoKnown(net, x)
      && match x
         case Fetching(n, v) => v <= SlotOf(net.board, n).version
         case Empty(n, v, _) =>
           v <= SlotOf(net.board, n).version && (v == SlotOf(net.board, n).version ==> MissedIsOwed(net, x))
         case Waiting(n, v, _, f) =>
           && f in net.board.futures
           && (net.board.futures[f] == Pending ==>
                 v == SlotOf(net.board, n).version && f in SlotOf(net.board, n).waiters && MissedIsOwed(net, x))
           && (net.board.futures[f].Resolved? ==> net.board.futures[f].version == v + 1)
           && net.board.futures[f] != Cancelled
         case _ => true
  }

  predicate HasFuture(x: Poller) {
    x.Waiting? || x.Leaving?
  }

  ghost predicate FuturesApart(pollers: map<nat, Poller>) {
    forall p, q :: p in pollers && q in pollers && p != q && HasFuture(pollers[p]) && HasFuture(pollers[q]) ==>
      pollers[p].future != pollers[q].future
  }

  /** A poller's future is on no list but that of its own node. */
  ghost predicate ListedAtHome(b: Board, x: Poller) {
    HasFuture(x) ==>
      x.future in b.futures && forall m :: m in b.slots && x.future in b.slots[m].waiters ==> m == x.node
  }

  ghost predicate NetInv(net: Net) {
    && SysInv(net.sys)
    && WaitersKnown(net.board)
    && (net.board.loop.Some? ==> net.board.thread == LOOP_THREAD)
    && FuturesApart(net.pollers)
    && (forall p :: p in net.pollers ==> ListedAtHome(net.board, net.pollers[p]))
    && (forall p :: p in net.pollers ==> PollerOk(net, net.pollers[p]))
    && (forall t :: t in net.senders && net.senders[t].SawLoop? ==> net.board.loop.Some?)
  }

  // ------------------------------------------------- the database side of it

  lemma RemovalBringsNoMail(db: Db, db': Db, n: Id, now: int, later: int)
    requires OnlyRemoves(db, db') && now <= later && HasMail(db', n, later)
    ensures HasMail(db, n, now)
  {
    var d :| d in Queue(db', OfNode(n), later);
    assert d in Queue(db, OfNode(n), now);
  }

  lemma CommitBringsMailToOneNode(db: Db, t: SendTicket, n: Id, now: int)
    requires CommitSucceeds(db, t) && t.delivery.node != n && HasMail(Committed(db, t), n, now)
    ensures HasMail(db, n, now)
  {
    var d :| d in Queue(Committed(db, t), OfNode(n), now);
    assert d in Queue(db, OfNode(n), now);
  }

  /** What a poller has newly missed comes with a sender that owes it a wake-up. */
  lemma MissComesWithASender(net: Net, step: Step, x: Poller)
    requires CanStep(net, step) && (x.Empty? || x.Waiting?) && Missed(NextNet(net, step), x)
    ensures Missed(net, x) || Owed(NextNet(net, step), x.node)
  {
    var net' := NextNet(net, step);
    var i :| x.upto <= i < |net'.mail| && net'.mail[i] == x.node;
    if i < |net.mail| {
      assert net.mail[i] == x.node;
    } else {
      assert step.t in net'.senders && net'.senders[step.t].node == x.node;
    }
  }

  lemma MissedStaysMissed(net: Net, step: Step, x: Poller)
    requires CanStep(net, step) && (x.Empty? || x.Waiting?) && Missed(net, x)
    ensures Missed(NextNet(net, step), x)
  {
    var i :| x.upto <= i < |net.mail| && net.mail[i] == x.node;
    assert NextNet(net, step).mail[i] == x.node;
  }

  lemma MailIsOldOrJustCommitted(net: Net, step: Step, n: Id)
    requires CanStep(net, step) && HasMail(NextNet(net, step).sys.db, n, NextNet(net, step).clock)
    ensures HasMail(net.sys.db, n, net.clock) ||
            (step.Accept? && TicketOf(net.sys, step.a).delivery.node == n)
  {
    var net' := NextNet(net, step);
    match step
    case Transact(a) =>
      QuietStepOnlyRemoves(net.sys, a);
      RemovalBringsNoMail(net.sys.db, net'.sys.db, n, net.clock, net'.clock);
    case Accept(t, a) =>
      if TicketOf(net.sys, a).delivery.node != n {
        CommitBringsMailToOneNode(net.sys.db, TicketOf(net.sys, a), n, net.clock);
      }
    case _ =>
      RemovalBringsNoMail(net.sys.db, net'.sys.db, n, net.clock, net'.clock);
  }

  lemma MailStaysNew(net: Net, step: Step, x: Poller)
    requires CanStep(net, step) && MailIsNew(net, x) && UptoKnown(net, x)
    ensures MailIsNew(NextNet(net, step), x)
  {
    var net' := NextNet(net, step);
    if (x.Empty? || x.Waiting?) && HasMail(net'.sys.db, x.node, net'.clock) {
      MailIsOldOrJustCommitted(net, step, x.node);
      if HasMail(net.sys.db, x.node, net.clock) {
        MissedStaysMissed(net, step, x);
      } else {
        assert net'.mail[|net.mail|] == x.node;
      }
    }
  }

  // ------------------------------------------------------ steps of the board

  /** The node whose waiters the step wakes, if any. */
  ghost function FiredNode(net: Net, step: Step): Option<Id>
    requires CanStep(net, step)
  {
    match step
    case Hand(t, caller) =>
      if net.board.loop.Some? && caller == net.board.thread then Some(net.senders[t].node) else None
    case RunCallback => Some(net.board.owed[0])
    case _ => None
  }

  /** A wake-up that is owed stays owed until it happens; the one sender that
      skips its notify does so before any poller has bound the loop. */
  lemma OwedStays(net: Net, step: Step, n: Id)
    requires CanStep(net, step) && Owed(net, n) && FiredNode(net, step) != Some(n)
    requires net.board.loop.Some?
    ensures Owed(NextNet(net, step), n)
  {
    var net' := NextNet(net, step);
    if n in net.board.owed {
      assert step.RunCallback? ==> net.board.owed == [net.board.owed[0]] + net.board.owed[1..];
      assert n in net'.board.owed;
    } else {
      var t :| t in net.senders && net.senders[t].node == n;
      if step.Hand? && step.t == t {
        assert n in net'.board.owed;
      } else {
        assert t in net'.senders && net'.senders[t].node == n;
      }
    }
  }

  lemma MissedStaysOwed(net: Net, step: Step, x: Poller)
    requires CanStep(net, step) && (x.Empty? || x.Waiting?) && MissedIsOwed(net, x)
    requires FiredNode(net, step) != Some(x.node) && net.board.loop.Some?
    ensures MissedIsOwed(NextNet(net, step), x)
  {
    if Missed(NextNet(net, step), x) {
      MissComesWithASender(net, step, x);
      if Owed(net, x.node) {
        OwedStays(net, step, x.node);
      }
    }
  }

  /** A wake-up resolves the node's own sleepers and touches nobody else's. */
  lemma FiringServesPoller(b: Board, n: Id, x: Poller)
    requires WaitersKnown(b) && ListedAtHome(b, x) && x.Waiting? && x.future in b.futures
    requires b.futures[x.future] == Pending ==>
               x.version == SlotOf(b, x.node).version && x.future in SlotOf(b, x.node).waiters
    ensures var b' := Fired(b, n);
            x.future in b'.futures &&
            b'.futures[x.future] ==
              if n == x.node && b.futures[x.future] == Pending then Resolved(x.version + 1)
              else b.futures[x.future]
    ensures n != x.node ==> SlotOf(Fired(b, n), x.node) == SlotOf(b, x.node)
  {
  }

  /** Steps other than wake-ups leave a bystander's slot and future as they were. */
  ghost predicate SameForPoller(b: Board, b': Board, x: Poller) {
    && SlotOf(b', x.node).version == SlotOf(b, x.node).version
    && (x.Waiting? && x.future in b.futures ==>
          x.future in b'.futures && b'.futures[x.future] == b.futures[x.future] &&
          (x.future in SlotOf(b, x.node).waiters ==> x.future in SlotOf(b', x.node).waiters))
  }

  lemma QuietBoardStep(net: Net, step: Step, p: nat)
    requires CanStep(net, step) && FiredNode(net, step).None? && FuturesApart(net.pollers)
    requires p in net.pollers && p in NextPollers(net, step) && NextPollers(net, step)[p] == net.pollers[p]
    ensures SameForPoller(net.board, NextBoard(net, step), net.pollers[p])
  {
  }

  lemma WokenPollerOk(net: Net, step: Step, p: nat)
    requires NetInv(net) && CanStep(net, step) && p in net.pollers
    requires FiredNode(net, step) == Some(net.pollers[p].node)
    ensures PollerOk(NextNet(net, step), net.pollers[p])
  {
    assert PollerOk(net, net.pollers[p]) && ListedAtHome(net.board, net.pollers[p]);
    MailStaysNew(net, step, net.pollers[p]);
    if net.pollers[p].Waiting? {
      FiringServesPoller(net.board, net.pollers[p].node, net.pollers[p]);
    }
  }

  lemma UnwokenBoardStep(net: Net, step: Step, p: nat)
    requires WaitersKnown(net.board) && FuturesApart(net.pollers) && CanStep(net, step)
    requires p in net.pollers && p in NextPollers(net, step) && NextPollers(net, step)[p] == net.pollers[p]
    requires FiredNode(net, step) != Some(net.pollers[p].node)
    requires PollerOk(net, net.pollers[p]) && ListedAtHome(net.board, net.pollers[p])
    ensures SameForPoller(net.board, NextBoard(net, step), net.pollers[p])
  {
    var fired := FiredNode(net, step);
    if fired.None? {
      QuietBoardStep(net, step, p);
    } else if net.pollers[p].Waiting? {
      FiringServesPoller(net.board, fired.value, net.pollers[p]);
    }
  }

  lemma LoopStaysBound(net: Net, step: Step)
    requires CanStep(net, step) && net.board.loop.Some?
    ensures NextBoard(net, step).loop == net.board.loop
  {
  }

  lemma SamePollerStaysOk(net: Net, net': Net, x: Poller)
    requires PollerOk(net, x) && SameForPoller(net.board, net'.board, x)
    requires net.board.loop.Some? ==> net'.board.loop.Some?
    requires MailIsNew(net', x) && |net.mail| <= |net'.mail|
    requires (x.Empty? || x.Waiting?) && net.board.loop.Some? && MissedIsOwed(net, x) ==> MissedIsOwed(net', x)
    ensures PollerOk(net', x)
  {
  }

  lemma UnwokenPollerOk(net: Net, step: Step, p: nat)
    requires NetInv(net) && CanStep(net, step)
    requires p in net.pollers && p in NextPollers(net, step) && NextPollers(net, step)[p] == net.pollers[p]
    requires FiredNode(net, step) != Some(net.pollers[p].node)
    ensures PollerOk(NextNet(net, step), net.pollers[p])
  {
    hide SysInv, MailIsNew, MissedIsOwed, SameForPoller, Enabled, NextBoard, NextSenders;
    var x := net.pollers[p];
    if net.board.loop.Some? {
      LoopStaysBound(net, step);
      if (x.Empty? || x.Waiting?) && MissedIsOwed(net, x) {
        MissedStaysOwed(net, step, x);
      }
    }
    MailStaysNew(net, step, x);
    UnwokenBoardStep(net, step, p);
    SamePollerStaysOk(net, NextNet(net, step), x);
  }

  /** The poller that the step itself moves. */
  lemma MovedPollerOk(net: Net, step: Step, p: nat)
    requires CanStep(net, step) && p in NextPollers(net, step)
    requires p !in net.pollers || NextPollers(net, step)[p] != net.pollers[p]
    requires p in net.pollers ==> PollerOk(net, net.pollers[p])
    ensures PollerOk(NextNet(net, step), NextPollers(net, step)[p])
  {
    hide Next, ReplyTo, SettleAll;
  }

  lemma StepKeepsPollers(net: Net, step: Step)
    requires NetInv(net) && CanStep(net, step)
    ensures forall p :: p in NextPollers(net, step) ==> PollerOk(NextNet(net, step), NextPollers(net, step)[p])
  {
    forall p | p in NextPollers(net, step)
      ensures PollerOk(NextNet(net, step), NextPollers(net, step)[p])
    {
      if p !in net.pollers || NextPollers(net, step)[p] != net.pollers[p] {
        MovedPollerOk(net, step, p);
      } else if FiredNode(net, step) == Some(net.pollers[p].node) {
        WokenPollerOk(net, step, p);
      } else {
        UnwokenPollerOk(net, step, p);
      }
    }
  }

  // --------------------------------------------------- futures and their lists

  lemma StepKeepsFuturesApart(net: Net, step: Step)
    requires NetInv(net) && CanStep(net, step)
    ensures FuturesApart(NextPollers(net, step))
  {
    hide SysInv, PollerOk, WaitersKnown, Enabled, Next, ReplyTo;
    forall p | p in net.pollers && HasFuture(net.pollers[p])
      ensures net.pollers[p].future in net.board.futures
    {
      assert ListedAtHome(net.board, net.pollers[p]);
    }
  }

  lemma StepKnowsItsWaiters(net: Net, step: Step)
    requires NetInv(net) && CanStep(net, step)
    ensures WaitersKnown(NextBoard(net, step))
  {
    hide SysInv, PollerOk, ListedAtHome, FuturesApart, Enabled, Next, ReplyTo;
  }

  lemma StepListsAtHome(net: Net, step: Step, p: nat)
    requires WaitersKnown(net.board) && FuturesApart(net.pollers) && CanStep(net, step)
    requires p in NextPollers(net, step) && (p in net.pollers ==> ListedAtHome(net.board, net.pollers[p]))
    ensures ListedAtHome(NextBoard(net, step), NextPollers(net, step)[p])
  {
    hide Enabled, Next, ReplyTo, NextSenders;
    if p in net.pollers {
      assert ListedAtHome(net.board, net.pollers[p]);
    }
  }

  lemma StepKeepsSenders(net: Net, step: Step)
    requires NetInv(net) && CanStep(net, step)
    ensures forall t :: t in NextSenders(net, step) && NextSenders(net, step)[t].SawLoop? ==>
                          NextBoard(net, step).loop.Some?
    ensures NextBoard(net, step).loop.Some? ==> NextBoard(net, step).thread == LOOP_THREAD
  {
  }

  lemma StepKeepsNetInv(net: Net, step: Step)
    requires NetInv(net) && CanStep(net, step)
    ensures NetInv(NextNet(net, step))
  {
    hide SysInv, PollerOk, ListedAtHome, FuturesApart, WaitersKnown, NextBoard, NextPollers, NextSenders, NextDb;
    StepKeepsPollers(net, step);
    StepKeepsFuturesApart(net, step);
    StepKnowsItsWaiters(net, step);
    StepKeepsSenders(net, step);
    forall p | p in NextPollers(net, step)
      ensures ListedAtHome(NextBoard(net, step), NextPollers(net, step)[p])
    {
      StepListsAtHome(net, step, p);
    }
    if step.Transact? || step.Accept? {
      StepKeepsInvariant(net.sys, step.a);
    }
  }

  lemma {:induction false} RunKeepsNetInv(net: Net, run: seq<Step>)
    requires NetInv(net) && LegalSteps(net, run)
    ensures NetInv(AfterSteps(net, run))
    decreases |run|
  {
    if run != [] {
      StepKeepsNetInv(net, run[0]);
      RunKeepsNetInv(NextNet(net, run[0]), run[1..]);
    }
  }

  // --------------------------------------------------------------- theorems

  /** The poller will look at its inbox again: its wait returns at once, its
      future is resolved, or a wake-up that resolves it is still owed. */
  ghost predicate WillLookAgain(net: Net, p: nat)
    requires p in net.pollers && (net.pollers[p].Empty? || net.pollers[p].Waiting?)
  {
    var x := net.pollers[p];
    || (x.Empty? && SlotOf(net.board, x.node).version != x.version)
    || (x.Waiting? && FutureOf(net, p).Resolved?)
    || Owed(net, x.node)
  }

  lemma SleeperWillLookAgain(net: Net, p: nat)
    requires NetInv(net) && p in net.pollers && (net.pollers[p].Empty? || net.pollers[p].Waiting?)
    ensures HasMail(net.sys.db, net.pollers[p].node, net.clock) ==> Missed(net, net.pollers[p])
    ensures Missed(net, net.pollers[p]) ==> WillLookAgain(net, p)
  {
    assert PollerOk(net, net.pollers[p]);
  }

  ghost predicate ReachableNet(net: Net) {
    exists run :: LegalSteps(FIRST, run) && AfterSteps(FIRST, run) == net
  }

  lemma ReachableNetInv(net: Net)
    requires ReachableNet(net)
    ensures NetInv(net)
  {
    hide NetInv;
    var run :| LegalSteps(FIRST, run) && AfterSteps(FIRST, run) == net;
    RunKeepsNetInv(FIRST, run);
  }

  /** No lost wake-up: in every interleaving, a poller that has found its inbox
      empty and gone on to wait cannot sleep through a packet committed since,
      and so not through anything that is queued for it now. */
  lemma NoLostWakeup(net: Net, p: nat)
    requires ReachableNet(net) && p in net.pollers && (net.pollers[p].Empty? || net.pollers[p].Waiting?)
    ensures Missed(net, net.pollers[p]) || HasMail(net.sys.db, net.pollers[p].node, net.clock) ==> WillLookAgain(net, p)
  {
    ReachableNetInv(net);
    SleeperWillLookAgain(net, p);
  }

  /** The run of every callback that has been handed to the loop. */
  ghost function RunAllCallbacks(net: Net): Net
    decreases |net.board.owed|
  {
    if net.board.owed == [] then net else RunAllCallbacks(NextNet(net, RunCallback))
  }

  lemma {:induction false} CallbacksOnlyWake(net: Net)
    requires NetInv(net)
    ensures var last := RunAllCallbacks(net);
            NetInv(last) && last.board.owed == [] && last.pollers == net.pollers && last.senders == net.senders &&
            last.sys == net.sys && last.clock == net.clock && last.mail == net.mail
    decreases |net.board.owed|
  {
    if net.board.owed != [] {
      StepKeepsNetInv(net, RunCallback);
      CallbacksOnlyWake(NextNet(net, RunCallback));
    }
  }

  /** Once the senders have finished and the loop has run its callbacks, every
      sleeper that missed a packet is awake, with the version after the one it waited for. */
  lemma OwedCallbacksWakeEverySleeper(net: Net, p: nat)
    requires NetInv(net) && net.senders == map[]
    requires p in net.pollers && net.pollers[p].Waiting? && Missed(net, net.pollers[p])
    ensures var last := RunAllCallbacks(net);
            p in last.pollers && last.pollers[p] == net.pollers[p] &&
            FutureOf(last, p) == Resolved(net.pollers[p].version + 1)
  {
    CallbacksOnlyWake(net);
    assert PollerOk(RunAllCallbacks(net), net.pollers[p]);
  }

  /** A poller that missed a packet and has not registered yet does not sleep. */
  lemma OvertakenPollerDoesNotSleep(net: Net, p: nat, f: nat)
    requires NetInv(net) && net.senders == map[] && net.board.owed == []
    requires p in net.pollers && net.pollers[p].Empty? && Missed(net, net.pollers[p])
    requires CanStep(net, StartWait(p, f))
    ensures NextPollers(net, StartWait(p, f))[p] == Top(net.pollers[p].node)
  {
    assert PollerOk(net, net.pollers[p]);
  }
}
