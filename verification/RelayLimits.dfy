/** The sliding-window rate limiter and the queue caps, for sends taken one at
    a time under fixed settings and a clock that never runs backwards. */
module RelayLimits {
  import opened RelayTables
  import opened RelaySpec
  import opened RelayInvariant
  import opened RelayRuns
  import opened RelayDelivery

  // ------------------------------------------------------------- serial runs

  predicate ClockOrdered(c: SendClock) {
    c.seen <= c.rated <= c.sized <= c.stamped
  }

  /** The action takes its clock readings no earlier than `t`, uses the settings
      `cfg`, and is not half of an interleaved send. */
  predicate Serial(a: Action, cfg: Settings, t: int) {
    match a
    case BeginSend(_, _, _, _, _, _, _) => false
    case CommitSend(_) => false
    case RetrySend(_, _) => false
    case DoSend(_, _, clock, settings, _, _) => settings == cfg && t <= clock.seen && ClockOrdered(clock)
    case DoCleanup(now, settings) => settings == cfg && t <= now
    case _ => ReadingOf(a).Some? ==> t <= ReadingOf(a).value
  }

  function LatestReading(a: Action, t: int): int {
    if a.DoSend? then a.clock.stamped else if ReadingOf(a).Some? then ReadingOf(a).value else t
  }

  ghost predicate SerialRun(run: seq<Action>, cfg: Settings, t: int)
    decreases |run|
  {
    run == [] || (Serial(run[0], cfg, t) && SerialRun(run[1..], cfg, LatestReading(run[0], t)))
  }

  function EndTime(run: seq<Action>, t: int): int
    decreases |run|
  {
    if run == [] then t else EndTime(run[1..], LatestReading(run[0], t))
  }

  // --------------------------------------------------------------- queue sums

  lemma {:induction false} TotalBytesRemove(db: Db, ds: set<Id>, d: Id)
    requires d in ds
    ensures TotalBytes(db, ds) == Payload(db, d) + TotalBytes(db, ds - {d})
    decreases |ds|
  {
    var x :| x in ds && TotalBytes(db, ds) == Payload(db, x) + TotalBytes(db, ds - {x});
    if x != d {
      TotalBytesRemove(db, ds - {x}, d);
      TotalBytesRemove(db, ds - {d}, x);
      assert ds - {x} - {d} == ds - {d} - {x};
    }
  }

  lemma {:induction false} TotalBytesAgree(db: Db, db': Db, ds: set<Id>)
    requires forall d :: d in ds ==> Payload(db', d) == Payload(db, d)
    ensures TotalBytes(db', ds) == TotalBytes(db, ds)
    decreases |ds|
  {
    if d :| d in ds {
      TotalBytesRemove(db, ds, d);
      TotalBytesRemove(db', ds, d);
      TotalBytesAgree(db, db', ds - {d});
    }
  }

  lemma {:induction false} TotalBytesMonotone(db: Db, few: set<Id>, many: set<Id>)
    requires few <= many
    ensures TotalBytes(db, few) <= TotalBytes(db, many) && |few| <= |many|
    decreases |many|
  {
    if d :| d in many {
      TotalBytesRemove(db, many, d);
      if d in few {
        TotalBytesRemove(db, few, d);
        TotalBytesMonotone(db, few - {d}, many - {d});
      } else {
        TotalBytesMonotone(db, few, many - {d});
      }
    }
  }

  // ------------------------------------------------------------- rate limiter

  /** The send events of all accepted packets, never pruned. */
  ghost function ExtendHistory(s: Sys, a: Action, h: map<Id, Event>): map<Id, Event>
    requires Enabled(s, a)
  {
    if ReplyTo(s, a).Accepted? then h[TicketOf(s, a).eventId := TicketOf(s, a).event] else h
  }

  ghost function History(s: Sys, run: seq<Action>, h: map<Id, Event>): map<Id, Event>
    requires Legal(s, run)
    decreases |run|
  {
    if run == [] then h else History(Next(s, run[0]), run[1..], ExtendHistory(s, run[0], h))
  }

  /** The stored log is the full history as far as the limiter can see. */
  ghost predicate LogCoversHistory(s: Sys, h: map<Id, Event>, cfg: Settings, t: int) {
    && (forall e :: e in s.db.events ==> e in h && h[e] == s.db.events[e])
    && (forall e :: e in h ==> e in s.minted && h[e].node in s.minted && h[e].createdAt <= t)
    && (forall e :: e in h && h[e].node in s.db.nodes && h[e].createdAt >= t - cfg.windowSeconds ==> e in s.db.events)
  }

  lemma RecentSendsAgree(s: Sys, h: map<Id, Event>, cfg: Settings, t: int, n: Id, now: int)
    requires LogCoversHistory(s, h, cfg, t) && n in s.db.nodes && t <= now
    ensures RecentSends(s.db, n, now - cfg.windowSeconds) ==
            RecentSends(s.db.(events := h), n, now - cfg.windowSeconds)
  {
  }

  lemma TotalIgnoresEvents(db: Db, h: map<Id, Event>, ds: set<Id>)
    ensures TotalBytes(db.(events := h), ds) == TotalBytes(db, ds)
  {
    TotalBytesAgree(db, db.(events := h), ds);
  }

  lemma CapIgnoresEvents(db: Db, h: map<Id, Event>, e: Id, n: Id, bytes: nat, now: int, cfg: Settings, storage: nat)
    ensures CapDenial(db.(events := h), e, n, bytes, now, cfg, storage) == CapDenial(db, e, n, bytes, now, cfg, storage)
  {
    var full := db.(events := h);
    assert Queue(full, OfEndpoint(e), now) == Queue(db, OfEndpoint(e), now);
    assert Queue(full, OfNode(n), now) == Queue(db, OfNode(n), now);
    assert Queue(full, Everywhere, now) == Queue(db, Everywhere, now);
    TotalIgnoresEvents(db, h, Queue(db, OfEndpoint(e), now));
    TotalIgnoresEvents(db, h, Queue(db, OfNode(n), now));
    TotalIgnoresEvents(db, h, Queue(db, Everywhere, now));
  }

  lemma DeliveryOfIgnoresEvents(db: Db, h: map<Id, Event>, p: Id)
    requires Paired(db)
    ensures DeliveryOf(db.(events := h), p) == DeliveryOf(db, p)
  {
    var a, b := DeliveryOf(db.(events := h), p), DeliveryOf(db, p);
    assert a.Some? ==> IsDeliveryOf(db, a.value, p);
    assert b.Some? ==> IsDeliveryOf(db.(events := h), b.value, p);
  }

  lemma GateIgnoresEvents(db: Db, h: map<Id, Event>, n: Id, q: SendRequest, cfg: Settings)
    ensures SendGate(db.(events := h), n, q, cfg) == SendGate(db, n, q, cfg)
  {
  }

  lemma LimitsIgnoreEvents(s: Sys, h: map<Id, Event>, cfg: Settings, t: int, a: Action)
    requires LogCoversHistory(s, h, cfg, t) && a.DoSend? && Serial(a, cfg, t) && NodeActive(s.db, a.node)
    requires a.request.to in s.db.endpoints
    ensures var purge := a.request.packet in s.db.packets;
            var seen := Purged(s.db, a.request.packet, purge);
            var full := Purged(s.db.(events := h), a.request.packet, purge);
            var dest := s.db.endpoints[a.request.to].owner;
            RateDenial(full, a.node, a.clock.rated, cfg) == RateDenial(seen, a.node, a.clock.rated, cfg) &&
            CapDenial(full, a.request.to, dest, a.request.bytes, a.clock.sized, cfg, a.storage) ==
            CapDenial(seen, a.request.to, dest, a.request.bytes, a.clock.sized, cfg, a.storage)
  {
    var q := a.request;
    var purge := q.packet in s.db.packets;
    var seen := Purged(s.db, q.packet, purge);
    var full := Purged(s.db.(events := h), q.packet, purge);
    assert full == seen.(events := h);
    CapIgnoresEvents(seen, h, q.to, s.db.endpoints[q.to].owner, q.bytes, a.clock.sized, cfg, a.storage);
    RecentSendsAgree(s, h, cfg, t, a.node, a.clock.rated);
    var floor := a.clock.rated - cfg.windowSeconds;
    assert RecentSends(seen, a.node, floor) == RecentSends(s.db, a.node, floor);
    assert RecentSends(full, a.node, floor) == RecentSends(s.db.(events := h), a.node, floor);
  }

  /** A send is decided over the pruned log as over the full history. */
  lemma PrunedLogDecidesAlike(s: Sys, h: map<Id, Event>, cfg: Settings, t: int, a: Action)
    requires SysInv(s) && LogCoversHistory(s, h, cfg, t) && a.DoSend? && Serial(a, cfg, t)
    ensures CheckSend(s.db, a.node, a.request, a.clock, a.settings, a.storage, a.ids) ==
            CheckSend(s.db.(events := h), a.node, a.request, a.clock, a.settings, a.storage, a.ids)
  {
    hide RateDenial, CapDenial, LogCoversHistory, RefsOk, RoutesMatchLinks, CodesDistinct, IdsMinted, DistinctTickets;
    var q := a.request;
    GateIgnoresEvents(s.db, h, a.node, q, cfg);
    if SendGate(s.db, a.node, q, cfg).None? {
      if q.packet in s.db.packets && !IsExpired(s.db.packets[q.packet], a.clock.seen) {
        DeliveryOfIgnoresEvents(s.db, h, q.packet);
      } else {
        LimitsIgnoreEvents(s, h, cfg, t, a);
      }
    }
  }

  // ---------------------------------------------------- the limiter over runs

  lemma QuietStepKeepsCover(s: Sys, h: map<Id, Event>, cfg: Settings, t: int, a: Action)
    requires Enabled(s, a) && !ReplyTo(s, a).Accepted? && LogCoversHistory(s, h, cfg, t) && Serial(a, cfg, t)
    ensures LogCoversHistory(Next(s, a), h, cfg, LatestReading(a, t))
  {
    var s' := Next(s, a);
    var u := LatestReading(a, t);
    StepIsFramed(s, a);
    forall e | e in h && h[e].node in s'.db.nodes && h[e].createdAt >= u - cfg.windowSeconds
      ensures e in s'.db.events
    {
      assert h[e].node in s.db.nodes && e in s.db.events;
      QuietStepKeepsRecentEvent(s, cfg, t, a, e);
    }
    QuietStepAddsNoEvent(s, a);
  }

  /** Only deletes and clean-ups take events away, and only accepted sends add any. */
  predicate DropsEvents(a: Action) {
    DeletesOwners(a) || a.DoCleanup?
  }

  lemma OwnerStepKeepsEvents(s: Sys, a: Action)
    requires Enabled(s, a) && ChangesOwners(a) && !DropsEvents(a)
    ensures NextDb(s, a).events == s.db.events
  {
  }

  lemma QueueStepKeepsEvents(s: Sys, a: Action)
    requires Enabled(s, a) && ChangesQueue(a) && !a.DoCleanup? && !ReplyTo(s, a).Accepted?
    ensures NextDb(s, a).events == s.db.events
  {
    hide CheckSend, CommitSucceeds, Committed;
  }

  lemma QuietStepKeepsEvents(s: Sys, a: Action)
    requires Enabled(s, a) && !ReplyTo(s, a).Accepted? && !DropsEvents(a)
    ensures NextDb(s, a).events == s.db.events
  {
    hide NextDb;
    if ChangesOwners(a) {
      OwnerStepKeepsEvents(s, a);
    } else if ChangesLinks(a) {
      LinkStepStaysWithinLinks(s, a);
    } else if ChangesQueue(a) {
      QueueStepKeepsEvents(s, a);
    } else {
      OtherStepChangesNothing(s, a);
    }
  }

  lemma QuietStepAddsNoEvent(s: Sys, a: Action)
    requires Enabled(s, a) && !ReplyTo(s, a).Accepted?
    ensures forall e :: e in NextDb(s, a).events ==> e in s.db.events && NextDb(s, a).events[e] == s.db.events[e]
  {
    if !DropsEvents(a) {
      QuietStepKeepsEvents(s, a);
    }
  }

  lemma QuietStepKeepsRecentEvent(s: Sys, cfg: Settings, t: int, a: Action, e: Id)
    requires Enabled(s, a) && !ReplyTo(s, a).Accepted? && Serial(a, cfg, t)
    requires e in s.db.events && s.db.events[e].node in NextDb(s, a).nodes
    requires s.db.events[e].createdAt >= LatestReading(a, t) - cfg.windowSeconds
    ensures e in NextDb(s, a).events
  {
    if !DropsEvents(a) {
      QuietStepKeepsEvents(s, a);
    }
  }

  lemma AcceptedSendEffects(s: Sys, a: Action)
    requires Enabled(s, a) && a.DoSend? && ReplyTo(s, a).Accepted?
    ensures var t := TicketOf(s, a);
            t == DecisionOf(s, a).ticket && t.event == Event(a.node, a.clock.rated) && t.eventId == a.ids.1 &&
            a.node in s.db.nodes && NextDb(s, a).nodes == s.db.nodes &&
            NextDb(s, a).events == s.db.events[t.eventId := t.event]
  {
  }

  lemma AcceptStepKeepsCover(s: Sys, h: map<Id, Event>, cfg: Settings, t: int, a: Action)
    requires IdsMinted(s) && Enabled(s, a) && ReplyTo(s, a).Accepted?
    requires LogCoversHistory(s, h, cfg, t) && Serial(a, cfg, t)
    ensures LogCoversHistory(Next(s, a), ExtendHistory(s, a, h), cfg, LatestReading(a, t))
  {
    hide NextDb, DecisionOf, Committed, CommitSucceeds, SendGate;
    AcceptedSendEffects(s, a);
  }

  lemma StepKeepsCover(s: Sys, h: map<Id, Event>, cfg: Settings, t: int, a: Action)
    requires SysInv(s) && Enabled(s, a) && LogCoversHistory(s, h, cfg, t) && Serial(a, cfg, t)
    ensures LogCoversHistory(Next(s, a), ExtendHistory(s, a, h), cfg, LatestReading(a, t))
  {
    if ReplyTo(s, a).Accepted? {
      AcceptStepKeepsCover(s, h, cfg, t, a);
    } else {
      QuietStepKeepsCover(s, h, cfg, t, a);
    }
  }

  /** The committed sends of one node in the closed window [from, from + W]. */
  function SendsInWindow(h: map<Id, Event>, n: Id, from: int, width: nat): set<Id> {
    set e | e in h && h[e].node == n && from <= h[e].createdAt <= from + width
  }

  ghost predicate WindowsBounded(h: map<Id, Event>, cfg: Settings) {
    forall n: Id, from: int :: |SendsInWindow(h, n, from, cfg.windowSeconds)| <= cfg.maxSends
  }

  predicate IsSendStep(a: Action) {
    a.DoSend? || a.BeginSend? || a.CommitSend? || a.RetrySend?
  }

  /** A send that is refused, or answered as a duplicate, changes no table: in
      particular it leaves no event and undoes its early delete. */
  lemma UnacceptedSendIsInert(s: Sys, a: Action)
    requires Enabled(s, a) && IsSendStep(a)
    ensures ReplyTo(s, a).Accepted? || NextDb(s, a) == s.db
    ensures ReplyTo(s, a).Accepted? ==>
              NextDb(s, a).events == s.db.events[TicketOf(s, a).eventId := TicketOf(s, a).event]
  {
  }

  lemma WindowGrows(h: map<Id, Event>, id: Id, ev: Event, n: Id, from: int, width: nat)
    requires id !in h
    ensures SendsInWindow(h[id := ev], n, from, width) ==
            SendsInWindow(h, n, from, width) +
            if n == ev.node && from <= ev.createdAt <= from + width then {id} else {}
  {
  }

  /** A new event cannot overfill a window: all earlier events of a window that
      contains it are among those the limiter counted. */
  lemma NewEventKeepsWindow(db: Db, h: map<Id, Event>, id: Id, ev: Event, cfg: Settings, n: Id, from: int)
    requires WindowsBounded(h, cfg) && id !in h
    requires |RecentSends(db, ev.node, ev.createdAt - cfg.windowSeconds)| < cfg.maxSends
    requires forall e :: e in h && h[e].node == ev.node && h[e].createdAt >= ev.createdAt - cfg.windowSeconds ==>
                           e in db.events && db.events[e] == h[e]
    ensures |SendsInWindow(h[id := ev], n, from, cfg.windowSeconds)| <= cfg.maxSends
  {
    var w := cfg.windowSeconds;
    var before := SendsInWindow(h, n, from, w);
    WindowGrows(h, id, ev, n, from, w);
    if n == ev.node && from <= ev.createdAt <= from + w {
      TotalBytesMonotone(db, before, RecentSends(db, n, ev.createdAt - w));
      assert |before + {id}| <= |before| + 1;
    }
  }

  ghost predicate LogIsPast(events: map<Id, Event>, now: int) {
    forall e :: e in events ==> events[e].createdAt <= now
  }

  /** Over a log without later events the limiter refuses exactly the send whose
      event would overfill a window. */
  lemma DenialMeansOverfullWindow(db: Db, n: Id, now: int, cfg: Settings, id: Id)
    requires LogIsPast(db.events, now) && WindowsBounded(db.events, cfg) && id !in db.events
    ensures RateDenial(db, n, now, cfg).None? <==> WindowsBounded(db.events[id := Event(n, now)], cfg)
  {
    var w := cfg.windowSeconds;
    var grown := db.events[id := Event(n, now)];
    if RateDenial(db, n, now, cfg).None? {
      forall m: Id, from: int
        ensures |SendsInWindow(grown, m, from, w)| <= cfg.maxSends
      {
        NewEventKeepsWindow(db, db.events, id, Event(n, now), cfg, m, from);
      }
    } else {
      assert SendsInWindow(grown, n, now - w, w) == RecentSends(db, n, now - w) + {id};
    }
  }

  lemma AcceptStepKeepsWindows(s: Sys, h: map<Id, Event>, cfg: Settings, t: int, a: Action, n: Id, from: int)
    requires Enabled(s, a) && ReplyTo(s, a).Accepted?
    requires LogCoversHistory(s, h, cfg, t) && Serial(a, cfg, t) && WindowsBounded(h, cfg)
    ensures |SendsInWindow(ExtendHistory(s, a, h), n, from, cfg.windowSeconds)| <= cfg.maxSends
  {
    hide NextDb, DecisionOf, WindowsBounded;
    var ticket := TicketOf(s, a);
    AcceptedSendEffects(s, a);
    AcceptedSendWasUnderLimit(s, a, cfg);
    NewEventKeepsWindow(s.db, h, ticket.eventId, ticket.event, cfg, n, from);
  }

  lemma AcceptedSendWasUnderLimit(s: Sys, a: Action, cfg: Settings)
    requires Enabled(s, a) && a.DoSend? && a.settings == cfg && ReplyTo(s, a).Accepted?
    ensures |RecentSends(s.db, a.node, a.clock.rated - cfg.windowSeconds)| < cfg.maxSends
    ensures a.node in s.db.nodes
  {
    var purge := a.request.packet in s.db.packets;
    assert RecentSends(Purged(s.db, a.request.packet, purge), a.node, a.clock.rated - cfg.windowSeconds) ==
           RecentSends(s.db, a.node, a.clock.rated - cfg.windowSeconds);
  }

  /** In every run of sends taken one at a time, every closed window of the
      configured length holds at most `maxSends` accepted sends of each node,
      and the pruned log keeps covering the full history. */
  lemma {:induction false} EveryWindowIsBounded(
    s: Sys, run: seq<Action>, h: map<Id, Event>, cfg: Settings, t: int)
    requires SysInv(s) && Legal(s, run) && SerialRun(run, cfg, t)
    requires LogCoversHistory(s, h, cfg, t) && WindowsBounded(h, cfg)
    ensures WindowsBounded(History(s, run, h), cfg)
    ensures LogCoversHistory(After(s, run), History(s, run, h), cfg, EndTime(run, t))
    decreases |run|
  {
    if run != [] {
      var a := run[0];
      StepKeepsInvariant(s, a);
      StepKeepsCover(s, h, cfg, t, a);
      forall n: Id, from: int
        ensures |SendsInWindow(ExtendHistory(s, a, h), n, from, cfg.windowSeconds)| <= cfg.maxSends
      {
        if ReplyTo(s, a).Accepted? {
          AcceptStepKeepsWindows(s, h, cfg, t, a, n, from);
        } else {
          assert |SendsInWindow(h, n, from, cfg.windowSeconds)| <= cfg.maxSends;
        }
      }
      EveryWindowIsBounded(Next(s, a), run[1..], ExtendHistory(s, a, h), cfg, LatestReading(a, t));
    }
  }

  /** From the empty relay: no window is ever overfull, and the next send is
      decided over the pruned log as it would be over the full history. */
  lemma LimiterIsExactFromTheStart(run: seq<Action>, cfg: Settings, t: int, a: Action)
    requires Legal(START, run) && SerialRun(run, cfg, t)
    requires a.DoSend? && Serial(a, cfg, EndTime(run, t))
    ensures WindowsBounded(History(START, run, map[]), cfg)
    ensures var s := After(START, run);
            CheckSend(s.db, a.node, a.request, a.clock, a.settings, a.storage, a.ids) ==
            CheckSend(s.db.(events := History(START, run, map[])),
                      a.node, a.request, a.clock, a.settings, a.storage, a.ids)
  {
    hide CheckSend, SysInv;
    assert forall n: Id, from: int :: SendsInWindow(map[], n, from, cfg.windowSeconds) == {};
    EveryWindowIsBounded(START, run, map[], cfg, t);
    RunKeepsInvariant(START, run);
    PrunedLogDecidesAlike(After(START, run), History(START, run, map[]), cfg, EndTime(run, t), a);
  }

  // --------------------------------------------------------------- queue caps

  ghost predicate ScopeWithin(db: Db, scope: Scope, now: int, packets: nat, bytes: nat) {
    |Queue(db, scope, now)| <= packets && TotalBytes(db, Queue(db, scope, now)) <= bytes
  }

  /** Every cap of the settings, over the packets unexpired at `now`. */
  ghost predicate CapsHold(db: Db, cfg: Settings, now: int) {
    && (forall e :: ScopeWithin(db, OfEndpoint(e), now, cfg.maxEndpointPackets, cfg.maxEndpointBytes))
    && (forall n :: TotalBytes(db, Queue(db, OfNode(n), now)) <= cfg.maxNodeBytes)
    && ScopeWithin(db, Everywhere, now, cfg.maxTotalPackets, cfg.maxTotalBytes)
  }

  /** Time and removals only shrink a queue and its sums. */
  lemma QueueShrinks(db: Db, db': Db, scope: Scope, now: int, later: int)
    requires OnlyRemoves(db, db') && now <= later
    ensures Queue(db', scope, later) <= Queue(db, scope, now)
    ensures |Queue(db', scope, later)| <= |Queue(db, scope, now)|
    ensures TotalBytes(db', Queue(db', scope, later)) <= TotalBytes(db, Queue(db, scope, now))
  {
    var few, many := Queue(db', scope, later), Queue(db, scope, now);
    TotalBytesAgree(db, db', few);
    TotalBytesMonotone(db, few, many);
  }

  lemma RemovalKeepsCaps(db: Db, db': Db, cfg: Settings, now: int, later: int)
    requires OnlyRemoves(db, db') && now <= later && CapsHold(db, cfg, now)
    ensures CapsHold(db', cfg, later)
  {
    forall e
      ensures ScopeWithin(db', OfEndpoint(e), later, cfg.maxEndpointPackets, cfg.maxEndpointBytes)
    {
      assert ScopeWithin(db, OfEndpoint(e), now, cfg.maxEndpointPackets, cfg.maxEndpointBytes);
      QueueShrinks(db, db', OfEndpoint(e), now, later);
    }
    forall n
      ensures TotalBytes(db', Queue(db', OfNode(n), later)) <= cfg.maxNodeBytes
    {
      assert TotalBytes(db, Queue(db, OfNode(n), now)) <= cfg.maxNodeBytes;
      QueueShrinks(db, db', OfNode(n), now, later);
    }
    QueueShrinks(db, db', Everywhere, now, later);
  }

  /** Expiry alone never breaks a cap: they hold at every later time. */
  lemma CapsHoldLater(db: Db, cfg: Settings, now: int, later: int)
    requires CapsHold(db, cfg, now) && now <= later
    ensures CapsHold(db, cfg, later)
  {
    RemovalKeepsCaps(db, db, cfg, now, later);
  }

  /** Inserting one packet adds at most one delivery and its bytes to a queue,
      and only to a queue it belongs to. */
  lemma InsertGrowsQueue(db: Db, t: SendTicket, scope: Scope, now: int, later: int)
    requires now <= later && InsertOk(db, t) && t.delivery.packet == t.request.packet
    ensures var after := InsertPacket(db, t);
            |Queue(after, scope, later)| <= |Queue(db, scope, now)| + 1 &&
            TotalBytes(after, Queue(after, scope, later)) <=
              TotalBytes(db, Queue(db, scope, now)) + t.packet.bytes
    ensures var after := InsertPacket(db, t);
            !InScope(t.delivery, scope) ==>
              |Queue(after, scope, later)| <= |Queue(db, scope, now)| &&
              TotalBytes(after, Queue(after, scope, later)) <= TotalBytes(db, Queue(db, scope, now))
  {
    var after := InsertPacket(db, t);
    var grown := Queue(after, scope, later);
    var rest := grown - {t.deliveryId};
    assert rest <= Queue(db, scope, now);
    TotalBytesAgree(db, after, rest);
    TotalBytesMonotone(db, rest, Queue(db, scope, now));
    if t.deliveryId in grown {
      TotalBytesRemove(after, grown, t.deliveryId);
    } else {
      assert grown == rest;
    }
  }

  lemma InsertKeepsCaps(db: Db, t: SendTicket, cfg: Settings, storage: nat, before: int, now: int, later: int)
    requires before <= now <= later && CapsHold(db, cfg, before) && InsertOk(db, t)
    requires t.delivery.packet == t.request.packet
    requires CapDenial(db, t.delivery.endpoint, t.delivery.node, t.packet.bytes, now, cfg, storage).None?
    ensures CapsHold(InsertPacket(db, t), cfg, later)
  {
    var after := InsertPacket(db, t);
    CapsHoldLater(db, cfg, before, now);
    forall e
      ensures ScopeWithin(after, OfEndpoint(e), later, cfg.maxEndpointPackets, cfg.maxEndpointBytes)
    {
      assert ScopeWithin(db, OfEndpoint(e), now, cfg.maxEndpointPackets, cfg.maxEndpointBytes);
      InsertGrowsQueue(db, t, OfEndpoint(e), now, later);
    }
    forall n
      ensures TotalBytes(after, Queue(after, OfNode(n), later)) <= cfg.maxNodeBytes
    {
      assert TotalBytes(db, Queue(db, OfNode(n), now)) <= cfg.maxNodeBytes;
      InsertGrowsQueue(db, t, OfNode(n), now, later);
    }
    InsertGrowsQueue(db, t, Everywhere, now, later);
  }

  lemma StepKeepsCaps(s: Sys, cfg: Settings, t: int, a: Action)
    requires Enabled(s, a) && Serial(a, cfg, t) && CapsHold(s.db, cfg, t)
    ensures CapsHold(NextDb(s, a), cfg, LatestReading(a, t))
  {
    if ReplyTo(s, a).Accepted? {
      var ticket := TicketOf(s, a);
      assert ticket == DecisionOf(s, a).ticket;
      var seen := Purged(s.db, a.request.packet, ticket.purge);
      RemovalKeepsCaps(s.db, seen, cfg, t, t);
      AcceptedSendFits(s, a);
      InsertKeepsCaps(seen, ticket, cfg, a.storage, t, a.clock.sized, a.clock.stamped);
    } else {
      QuietStepOnlyRemoves(s, a);
      RemovalKeepsCaps(s.db, NextDb(s, a), cfg, t, LatestReading(a, t));
    }
  }

  lemma AcceptedSendFits(s: Sys, a: Action)
    requires Enabled(s, a) && a.DoSend? && ReplyTo(s, a).Accepted?
    ensures var t := DecisionOf(s, a).ticket;
            t.delivery.packet == t.request.packet && t.request == a.request &&
            CapDenial(Purged(s.db, a.request.packet, t.purge), t.delivery.endpoint, t.delivery.node,
                      t.packet.bytes, a.clock.sized, a.settings, a.storage).None?
  {
  }

  /** The caps hold after every run of sends taken one at a time, whatever
      expiry, acks, clean-ups and cascades do to the sums in between. */
  lemma {:induction false} CapsHoldThroughout(s: Sys, run: seq<Action>, cfg: Settings, t: int)
    requires Legal(s, run) && SerialRun(run, cfg, t) && CapsHold(s.db, cfg, t)
    ensures CapsHold(After(s, run).db, cfg, EndTime(run, t))
    decreases |run|
  {
    if run != [] {
      StepKeepsCaps(s, cfg, t, run[0]);
      CapsHoldThroughout(Next(s, run[0]), run[1..], cfg, LatestReading(run[0], t));
    }
  }

  lemma EmptyRelayIsWithinCaps(cfg: Settings, t: int)
    ensures CapsHold(EMPTY_DB, cfg, t)
  {
    forall scope
      ensures Queue(EMPTY_DB, scope, t) == {} && TotalBytes(EMPTY_DB, Queue(EMPTY_DB, scope, t)) == 0
    {
      assert Queue(EMPTY_DB, scope, t) == {};
    }
  }

  /** From the empty relay, now and at every later time. */
  lemma CapsHoldFromTheStart(run: seq<Action>, cfg: Settings, t: int, later: int)
    requires Legal(START, run) && SerialRun(run, cfg, t) && EndTime(run, t) <= later
    ensures CapsHold(After(START, run).db, cfg, later)
  {
    EmptyRelayIsWithinCaps(cfg, t);
    CapsHoldThroughout(START, run, cfg, t);
    CapsHoldLater(After(START, run).db, cfg, EndTime(run, t), later);
  }
}
