/** How far sends that interleave can overshoot a cap. With at most k of them between
    their checks and their commit at a time a queue exceeds its packet cap by at most
    k - 1 packets and its byte cap by at most k - 1 packets of the largest size. */
module RelayOvershoot {
  import opened RelayTables
  import opened RelaySpec
  import opened RelayInvariant
  import opened RelayRuns
  import opened RelayDelivery
  import opened RelayLimits

  /** Readings no earlier than `t` and the settings `cfg`, interleaved or not. */
  predicate Timely(a: Action, cfg: Settings, t: int) {
    match a
    case BeginSend(_, _, _, clock, settings, _, _) => settings == cfg && t <= clock.seen && ClockOrdered(clock)
    case CommitSend(_) => true
    case RetrySend(_, now) => t <= now
    case _ => Serial(a, cfg, t)
  }

  function TimeAfter(a: Action, t: int): int {
    if a.BeginSend? then a.clock.stamped else LatestReading(a, t)
  }

  function LastTime(run: seq<Action>, t: int): int
    decreases |run|
  {
    if run == [] then t else LastTime(run[1..], TimeAfter(run[0], t))
  }

  /** The sends that a limit is about: those into a queue, or those of a node. */
  datatype Flow = Into(scope: Scope) | From(node: Id)

  predicate Belongs(t: SendTicket, flow: Flow) {
    match flow
    case Into(scope) => InScope(t.delivery, scope)
    case From(n) => t.event.node == n
  }

  /** The sends of the flow that are checked and not committed. */
  function Held(s: Sys, flow: Flow): set<nat> {
    set i | i in s.sends && s.sends[i].Checked? && Belongs(s.sends[i].ticket, flow)
  }

  /** Never more than `k` sends of the flow at a time, a whole one included. */
  ghost predicate AtMost(s: Sys, run: seq<Action>, cfg: Settings, t: int, flow: Flow, k: nat)
    requires Legal(s, run)
    decreases |run|
  {
    run == [] ||
    (var s' := Next(s, run[0]);
     Timely(run[0], cfg, t) && |Held(s', flow)| + (if run[0].DoSend? then 1 else 0) <= k &&
     AtMost(s', run[1..], cfg, TimeAfter(run[0], t), flow, k))
  }

  // ------------------------------------------------------------ sums of sizes

  /** The payload sizes of the sends under way. */
  function HeldSizes(s: Sys): map<nat, nat> {
    map i | i in s.sends && s.sends[i].Checked? :: s.sends[i].ticket.packet.bytes
  }

  function SizeOf(sizes: map<nat, nat>, i: nat): nat {
    if i in sizes then sizes[i] else 0
  }

  ghost function SizeSum(sizes: map<nat, nat>, ds: set<nat>): nat {
    if i :| i in ds then SizeOf(sizes, i) + SizeSum(sizes, ds - {i}) else 0
  }

  lemma {:induction false} SizeSumRemove(sizes: map<nat, nat>, ds: set<nat>, i: nat)
    requires i in ds
    ensures SizeSum(sizes, ds) == SizeOf(sizes, i) + SizeSum(sizes, ds - {i})
    decreases |ds|
  {
    var x :| x in ds && SizeSum(sizes, ds) == SizeOf(sizes, x) + SizeSum(sizes, ds - {x});
    if x != i {
      SizeSumRemove(sizes, ds - {x}, i);
      SizeSumRemove(sizes, ds - {i}, x);
      assert ds - {x} - {i} == ds - {i} - {x};
    }
  }

  lemma {:induction false} SizeSumAgree(sizes: map<nat, nat>, sizes': map<nat, nat>, ds: set<nat>)
    requires forall i :: i in ds ==> SizeOf(sizes', i) == SizeOf(sizes, i)
    ensures SizeSum(sizes', ds) == SizeSum(sizes, ds)
    decreases |ds|
  {
    if i :| i in ds {
      SizeSumRemove(sizes, ds, i);
      SizeSumRemove(sizes', ds, i);
      SizeSumAgree(sizes, sizes', ds - {i});
    }
  }

  lemma {:induction false} SizeSumBounded(sizes: map<nat, nat>, ds: set<nat>, most: nat)
    requires forall i :: i in ds ==> SizeOf(sizes, i) <= most
    ensures SizeSum(sizes, ds) <= |ds| * most
    decreases |ds|
  {
    if i :| i in ds {
      SizeSumRemove(sizes, ds, i);
      SizeSumBounded(sizes, ds - {i}, most);
      assert |ds| * most == (|ds| - 1) * most + most;
    }
  }

  // ---------------------------------------------------------------- the bound

  function ByteCap(cfg: Settings, scope: Scope): nat {
    match scope
    case OfEndpoint(_) => cfg.maxEndpointBytes
    case OfNode(_) => cfg.maxNodeBytes
    case Everywhere => cfg.maxTotalBytes
  }

  /** The packet cap of a queue; the queue of a node has none. */
  function PacketCap(cfg: Settings, scope: Scope): Option<nat> {
    match scope
    case OfEndpoint(_) => Some(cfg.maxEndpointPackets)
    case OfNode(_) => None
    case Everywhere => Some(cfg.maxTotalPackets)
  }

  function UnderWay(s: Sys, scope: Scope): set<nat> {
    Held(s, Into(scope))
  }

  ghost predicate SmallTickets(s: Sys, scope: Scope, most: nat) {
    forall i :: i in UnderWay(s, scope) ==> SizeOf(HeldSizes(s), i) <= most
  }

  /** Packets and bytes queued and under way, against cap and overshoot. */
  ghost predicate Within(packets: nat, count: nat, bytes: nat, held: nat, cfg: Settings, scope: Scope, k: nat)
    requires k >= 1
  {
    && (PacketCap(cfg, scope).Some? ==> packets + count < PacketCap(cfg, scope).value + k)
    && bytes + held <= ByteCap(cfg, scope) + (k - 1) * cfg.maxPacketBytes
  }

  ghost predicate WithinOvershoot(s: Sys, cfg: Settings, t: int, scope: Scope, k: nat)
    requires k >= 1
  {
    && SmallTickets(s, scope, cfg.maxPacketBytes)
    && Within(|Queue(s.db, scope, t)|, |UnderWay(s, scope)|, TotalBytes(s.db, Queue(s.db, scope, t)),
              SizeSum(HeldSizes(s), UnderWay(s, scope)), cfg, scope, k)
  }

  lemma CommitGrowsQueue(db: Db, ticket: SendTicket, scope: Scope, t: int, later: int)
    requires CommitSucceeds(db, ticket) && ticket.delivery.packet == ticket.request.packet && t <= later
    ensures |Queue(Committed(db, ticket), scope, later)| <=
            |Queue(db, scope, t)| + if InScope(ticket.delivery, scope) then 1 else 0
    ensures TotalBytes(Committed(db, ticket), Queue(Committed(db, ticket), scope, later)) <=
            TotalBytes(db, Queue(db, scope, t)) + if InScope(ticket.delivery, scope) then ticket.packet.bytes else 0
  {
    var seen := Purged(db, ticket.request.packet, ticket.purge);
    QueueShrinks(db, seen, scope, t, t);
    InsertGrowsQueue(seen, ticket, scope, t, later);
  }

  /** A send passes its checks only below the caps of its destination, its own size
      included. */
  lemma PassedBelowCap(db: Db, a: Action, scope: Scope)
    requires (a.BeginSend? || a.DoSend?) && ClockOrdered(a.clock)
    requires CheckSend(db, a.node, a.request, a.clock, a.settings, a.storage, a.ids).Insert?
    requires InScope(CheckSend(db, a.node, a.request, a.clock, a.settings, a.storage, a.ids).ticket.delivery, scope)
    ensures PacketCap(a.settings, scope).Some? ==>
              |Queue(db, scope, a.clock.sized)| < PacketCap(a.settings, scope).value
    ensures TotalBytes(db, Queue(db, scope, a.clock.sized)) + a.request.bytes <= ByteCap(a.settings, scope)
  {
    hide SendGate, RateDenial;
    var p := a.request.packet;
    var seen := Purged(db, p, p in db.packets);
    assert Queue(seen, scope, a.clock.sized) == Queue(db, scope, a.clock.sized);
    TotalBytesAgree(db, seen, Queue(db, scope, a.clock.sized));
  }

  lemma PassedIsSmall(db: Db, a: Action)
    requires a.BeginSend? || a.DoSend?
    requires CheckSend(db, a.node, a.request, a.clock, a.settings, a.storage, a.ids).Insert?
    ensures var t := CheckSend(db, a.node, a.request, a.clock, a.settings, a.storage, a.ids).ticket;
            t.packet.bytes == a.request.bytes <= a.settings.maxPacketBytes
  {
    hide RateDenial, CapDenial;
  }

  /** The sends under way after a send has passed its checks. */
  lemma BeginHoldsOneMore(s: Sys, a: Action, flow: Flow)
    requires Enabled(s, a) && a.BeginSend? && DecisionOf(s, a).Insert?
    ensures var t := DecisionOf(s, a).ticket;
            a.task !in Held(s, flow) &&
            Held(Next(s, a), flow) == Held(s, flow) + if Belongs(t, flow) then {a.task} else {}
    ensures HeldSizes(Next(s, a)) == HeldSizes(s)[a.task := DecisionOf(s, a).ticket.packet.bytes]
  {
    hide CheckSend, NextDb;
  }

  lemma RefusedHoldsAsMany(s: Sys, a: Action)
    requires Enabled(s, a) && (a.BeginSend? ==> !DecisionOf(s, a).Insert?) && !a.CommitSend? && !a.RetrySend?
    ensures Next(s, a).sends == s.sends
  {
    hide CheckSend, NextDb;
  }

  lemma RetryHoldsAsMany(s: Sys, a: Action, flow: Flow)
    requires Enabled(s, a) && a.RetrySend?
    ensures Held(Next(s, a), flow) == Held(s, flow) && HeldSizes(Next(s, a)) == HeldSizes(s)
  {
    hide LookAgain, NextDb;
  }

  lemma CommitFreesItsSend(s: Sys, a: Action, flow: Flow)
    requires Enabled(s, a) && a.CommitSend?
    ensures Held(Next(s, a), flow) == Held(s, flow) - {a.task}
    ensures a.task in Held(s, flow) <==> Belongs(s.sends[a.task].ticket, flow)
    ensures HeldSizes(Next(s, a)) == HeldSizes(s) - {a.task}
    ensures SizeOf(HeldSizes(s), a.task) == s.sends[a.task].ticket.packet.bytes
  {
    hide CommitSucceeds, NextDb;
  }

  /** Fewer packets and bytes, at a later time. */
  lemma LessIsWithin(
    packets: nat, count: nat, bytes: nat, held: nat, packets': nat, count': nat, bytes': nat, held': nat,
    cfg: Settings, scope: Scope, k: nat)
    requires k >= 1 && Within(packets, count, bytes, held, cfg, scope, k)
    requires packets' + count' <= packets + count && bytes' + held' <= bytes + held
    ensures Within(packets', count', bytes', held', cfg, scope, k)
  {
  }

  /** Below the cap with the new packet's size included there is room for it beside
      k - 1 others. */
  lemma RoomForOthers(
    packets: nat, count: nat, bytes: nat, held: nat, size: nat, cfg: Settings, scope: Scope, k: nat)
    requires k >= 1 && (PacketCap(cfg, scope).Some? ==> packets < PacketCap(cfg, scope).value)
    requires bytes + size <= ByteCap(cfg, scope) && count < k && held <= count * cfg.maxPacketBytes
    ensures Within(packets, count + 1, bytes, held + size, cfg, scope, k)
    ensures Within(packets + 1, count, bytes + size, held, cfg, scope, k)
  {
    assert count * cfg.maxPacketBytes <= (k - 1) * cfg.maxPacketBytes;
  }

  lemma PassedStepOvershoot(s: Sys, a: Action, cfg: Settings, t: int, scope: Scope, k: nat)
    requires Enabled(s, a) && a.BeginSend? && Timely(a, cfg, t) && k >= 1 && DecisionOf(s, a).Insert?
    requires WithinOvershoot(s, cfg, t, scope, k) && |UnderWay(Next(s, a), scope)| <= k
    ensures WithinOvershoot(Next(s, a), cfg, TimeAfter(a, t), scope, k)
  {
    hide CheckSend, Queue, Next, HeldSizes, Held, ByteCap, PacketCap, Within;
    var ticket := DecisionOf(s, a).ticket;
    var before, sizes, sizes' := UnderWay(s, scope), HeldSizes(s), HeldSizes(Next(s, a));
    BeginHoldsOneMore(s, a, Into(scope));
    NextDbOfBegin(s, a);
    SizeSumAgree(sizes, sizes', before);
    SizeSumBounded(sizes, before, cfg.maxPacketBytes);
    PassedIsSmall(s.db, a);
    QueueShrinks(s.db, s.db, scope, t, a.clock.stamped);
    var q, q' := Queue(s.db, scope, t), Queue(s.db, scope, a.clock.stamped);
    if InScope(ticket.delivery, scope) {
      PassedBelowCap(s.db, a, scope);
      QueueShrinks(s.db, s.db, scope, a.clock.sized, a.clock.stamped);
      SizeSumRemove(sizes', before + {a.task}, a.task);
      assert before + {a.task} - {a.task} == before;
      RoomForOthers(|Queue(s.db, scope, a.clock.sized)|, |before|,
                    TotalBytes(s.db, Queue(s.db, scope, a.clock.sized)), SizeSum(sizes, before),
                    a.request.bytes, cfg, scope, k);
      LessIsWithin(|Queue(s.db, scope, a.clock.sized)|, |before| + 1,
                   TotalBytes(s.db, Queue(s.db, scope, a.clock.sized)), SizeSum(sizes, before) + a.request.bytes,
                   |q'|, |before| + 1, TotalBytes(s.db, q'), SizeSum(sizes, before) + a.request.bytes, cfg, scope, k);
    } else {
      LessIsWithin(|q|, |before|, TotalBytes(s.db, q), SizeSum(sizes, before),
                   |q'|, |before|, TotalBytes(s.db, q'), SizeSum(sizes, before), cfg, scope, k);
    }
  }

  lemma NextDbOfBegin(s: Sys, a: Action)
    requires Enabled(s, a) && a.BeginSend?
    ensures Next(s, a).db == s.db
  {
  }

  lemma CommitStepOvershoot(s: Sys, a: Action, cfg: Settings, t: int, scope: Scope, k: nat)
    requires SysInv(s) && Enabled(s, a) && a.CommitSend? && k >= 1
    requires WithinOvershoot(s, cfg, t, scope, k)
    ensures WithinOvershoot(Next(s, a), cfg, t, scope, k)
  {
    hide CommitSucceeds, Committed, Queue, Held, HeldSizes, NextSends, Within, ByteCap, PacketCap;
    assert SendTaskOk(s, s.sends[a.task]);
    var ticket := s.sends[a.task].ticket;
    var before, sizes, sizes' := UnderWay(s, scope), HeldSizes(s), HeldSizes(Next(s, a));
    CommitFreesItsSend(s, a, Into(scope));
    SizeSumAgree(sizes, sizes', before - {a.task});
    if a.task in before {
      SizeSumRemove(sizes, before, a.task);
    } else {
      assert before - {a.task} == before;
    }
    if CommitSucceeds(s.db, ticket) {
      CommitGrowsQueue(s.db, ticket, scope, t, t);
    }
    var q, q' := Queue(s.db, scope, t), Queue(Next(s, a).db, scope, t);
    LessIsWithin(|q|, |before|, TotalBytes(s.db, q), SizeSum(sizes, before),
                 |q'|, |UnderWay(Next(s, a), scope)|, TotalBytes(Next(s, a).db, q'),
                 SizeSum(sizes', before - {a.task}), cfg, scope, k);
  }

  lemma SameHeldIsWithin(s: Sys, s': Sys, cfg: Settings, t: int, later: int, scope: Scope, k: nat)
    requires k >= 1 && WithinOvershoot(s, cfg, t, scope, k) && t <= later && OnlyRemoves(s.db, s'.db)
    requires UnderWay(s', scope) == UnderWay(s, scope) && HeldSizes(s') == HeldSizes(s)
    ensures WithinOvershoot(s', cfg, later, scope, k)
  {
    hide Held, HeldSizes, OnlyRemoves, Queue, Within, ByteCap, PacketCap;
    QueueShrinks(s.db, s'.db, scope, t, later);
    LessIsWithin(|Queue(s.db, scope, t)|, |UnderWay(s, scope)|, TotalBytes(s.db, Queue(s.db, scope, t)),
                 SizeSum(HeldSizes(s), UnderWay(s, scope)), |Queue(s'.db, scope, later)|, |UnderWay(s', scope)|,
                 TotalBytes(s'.db, Queue(s'.db, scope, later)), SizeSum(HeldSizes(s'), UnderWay(s', scope)),
                 cfg, scope, k);
  }

  lemma AcceptedSendOvershoot(
    s: Sys, a: Action, ticket: SendTicket, s': Sys, cfg: Settings, t: int, scope: Scope, k: nat)
    requires a.DoSend? && Timely(a, cfg, t) && k >= 1 && DecisionOf(s, a) == Insert(ticket)
    requires CommitSucceeds(s.db, ticket) && s' == s.(db := Committed(s.db, ticket), minted := s'.minted)
    requires WithinOvershoot(s, cfg, t, scope, k) && |UnderWay(s, scope)| + 1 <= k
    ensures WithinOvershoot(s', cfg, a.clock.stamped, scope, k)
  {
    hide CheckSend, CommitSucceeds, Committed, Queue, Within, ByteCap, PacketCap;
    IssuedTicketFits(s.db, a.node, a.request, a.clock, a.settings, a.storage, a.ids);
    PassedIsSmall(s.db, a);
    CommitGrowsQueue(s.db, ticket, scope, a.clock.sized, a.clock.stamped);
    QueueShrinks(s.db, s.db, scope, t, a.clock.sized);
    var held := UnderWay(s, scope);
    assert UnderWay(s', scope) == held && HeldSizes(s') == HeldSizes(s);
    SizeSumBounded(HeldSizes(s), held, cfg.maxPacketBytes);
    var q, q' := Queue(s.db, scope, a.clock.sized), Queue(s'.db, scope, a.clock.stamped);
    if InScope(ticket.delivery, scope) {
      PassedBelowCap(s.db, a, scope);
      RoomForOthers(|q|, |held|, TotalBytes(s.db, q), SizeSum(HeldSizes(s), held), a.request.bytes, cfg, scope, k);
      LessIsWithin(|q| + 1, |held|, TotalBytes(s.db, q) + a.request.bytes, SizeSum(HeldSizes(s), held),
                   |q'|, |held|, TotalBytes(s'.db, q'), SizeSum(HeldSizes(s), held), cfg, scope, k);
    } else {
      LessIsWithin(|Queue(s.db, scope, t)|, |held|, TotalBytes(s.db, Queue(s.db, scope, t)),
                   SizeSum(HeldSizes(s), held), |q'|, |held|, TotalBytes(s'.db, q'), SizeSum(HeldSizes(s), held),
                   cfg, scope, k);
    }
  }

  lemma AcceptedWholeSend(s: Sys, a: Action)
    requires Enabled(s, a) && a.DoSend? && ReplyTo(s, a).Accepted?
    ensures DecisionOf(s, a) == Insert(TicketOf(s, a))
    ensures Next(s, a) == s.(db := Committed(s.db, TicketOf(s, a)), minted := Next(s, a).minted)
  {
    hide CheckSend, CommitSucceeds, Committed;
  }

  lemma QuietStepOvershoot(s: Sys, a: Action, cfg: Settings, t: int, scope: Scope, k: nat)
    requires Enabled(s, a) && Timely(a, cfg, t) && k >= 1 && !a.CommitSend? && !ReplyTo(s, a).Accepted?
    requires a.BeginSend? ==> !DecisionOf(s, a).Insert?
    requires WithinOvershoot(s, cfg, t, scope, k)
    ensures WithinOvershoot(Next(s, a), cfg, TimeAfter(a, t), scope, k)
  {
    hide NextDb, NextSends, OnlyRemoves, WithinOvershoot, CheckSend;
    if a.RetrySend? {
      RetryHoldsAsMany(s, a, Into(scope));
    } else {
      RefusedHoldsAsMany(s, a);
    }
    QuietStepOnlyRemoves(s, a);
    SameHeldIsWithin(s, Next(s, a), cfg, t, TimeAfter(a, t), scope, k);
  }

  lemma StepOvershoot(s: Sys, a: Action, cfg: Settings, t: int, scope: Scope, k: nat)
    requires SysInv(s) && Enabled(s, a) && Timely(a, cfg, t) && k >= 1
    requires WithinOvershoot(s, cfg, t, scope, k)
    requires |UnderWay(Next(s, a), scope)| + (if a.DoSend? then 1 else 0) <= k
    ensures WithinOvershoot(Next(s, a), cfg, TimeAfter(a, t), scope, k)
  {
    hide NextDb, NextSends, WithinOvershoot, CheckSend, ReplyTo;
    if a.CommitSend? {
      CommitStepOvershoot(s, a, cfg, t, scope, k);
    } else if ReplyTo(s, a).Accepted? {
      assert a.DoSend? by {
        var t := TicketOf(s, a);
      }
      AcceptedWholeSend(s, a);
      RefusedHoldsAsMany(s, a);
      AcceptedSendOvershoot(s, a, TicketOf(s, a), Next(s, a), cfg, t, scope, k);
    } else if a.BeginSend? && DecisionOf(s, a).Insert? {
      PassedStepOvershoot(s, a, cfg, t, scope, k);
    } else {
      QuietStepOvershoot(s, a, cfg, t, scope, k);
    }
  }

  lemma {:induction false} OvershootStaysBounded(
    s: Sys, run: seq<Action>, cfg: Settings, t: int, scope: Scope, k: nat)
    requires SysInv(s) && Legal(s, run) && k >= 1 && AtMost(s, run, cfg, t, Into(scope), k)
    requires WithinOvershoot(s, cfg, t, scope, k)
    ensures WithinOvershoot(After(s, run), cfg, LastTime(run, t), scope, k)
    decreases |run|
  {
    if run != [] {
      hide WithinOvershoot;
      StepKeepsInvariant(s, run[0]);
      StepOvershoot(s, run[0], cfg, t, scope, k);
      OvershootStaysBounded(Next(s, run[0]), run[1..], cfg, TimeAfter(run[0], t), scope, k);
    }
  }

  lemma StartIsWithin(cfg: Settings, t: int, scope: Scope, k: nat)
    requires k >= 1
    ensures WithinOvershoot(START, cfg, t, scope, k)
  {
    assert Queue(START.db, scope, t) == {} && UnderWay(START, scope) == {};
  }

  lemma StartInv()
    ensures SysInv(START)
  {
  }

  lemma WithinLater(s: Sys, cfg: Settings, t: int, later: int, scope: Scope, k: nat)
    requires k >= 1 && WithinOvershoot(s, cfg, t, scope, k) && t <= later
    ensures PacketCap(cfg, scope).Some? ==> |Queue(s.db, scope, later)| <= PacketCap(cfg, scope).value + k - 1
    ensures TotalBytes(s.db, Queue(s.db, scope, later)) <= ByteCap(cfg, scope) + (k - 1) * cfg.maxPacketBytes
  {
    hide Held, HeldSizes, SmallTickets, Queue, PacketCap, ByteCap;
    QueueShrinks(s.db, s.db, scope, t, later);
  }

  /** From the empty relay, with at most k >= 1 sends into a queue between their checks
      and their commit at a time: now and later the queue exceeds its packet cap by at
      most k - 1, and its byte cap by at most k - 1 packets of the largest size. */
  lemma InterleavedSendsOvershootByLessThanK(
    run: seq<Action>, cfg: Settings, t: int, scope: Scope, k: nat, later: int)
    requires Legal(START, run) && k >= 1 && AtMost(START, run, cfg, t, Into(scope), k)
    requires LastTime(run, t) <= later
    ensures var queue := Queue(After(START, run).db, scope, later);
            (PacketCap(cfg, scope).Some? ==> |queue| <= PacketCap(cfg, scope).value + k - 1) &&
            TotalBytes(After(START, run).db, queue) <= ByteCap(cfg, scope) + (k - 1) * cfg.maxPacketBytes
  {
    hide SysInv, WithinOvershoot, Legal, After, AtMost, LastTime, Queue, PacketCap, ByteCap;
    StartInv();
    StartIsWithin(cfg, t, scope, k);
    OvershootStaysBounded(START, run, cfg, t, scope, k);
    WithinLater(After(START, run), cfg, LastTime(run, t), later, scope, k);
  }
}
