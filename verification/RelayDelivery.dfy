/** What can happen to a queued delivery, in every interleaving: what removes
    it, how a repeated send is answered, and the balance of acceptances and
    removals for one packet id. */
module RelayDelivery {
  import opened RelayTables
  import opened RelaySpec
  import opened RelayInvariant
  import opened RelayRuns

  /** The clock reading by which the action judges packets to be expired. */
  function ReadingOf(a: Action): Option<int> {
    match a
    case DoDeleteEndpoint(_, _, now) => Some(now)
    case BeginDeleteEndpoint(_, _, _, now) => Some(now)
    case BeginAck(_, _, _, _, now) => Some(now)
    case DoSend(_, _, clock, _, _, _) => Some(clock.seen)
    case BeginSend(_, _, _, clock, _, _, _) => Some(clock.seen)
    case RetrySend(_, now) => Some(now)
    case DoPoll(_, _, now) => Some(now)
    case DoAck(_, _, _, now) => Some(now)
    case DoCleanup(now, _) => Some(now)
    case _ => None
  }

  predicate UnexpiredFor(p: Packet, a: Action) {
    ReadingOf(a).Some? ==> !IsExpired(p, ReadingOf(a).value)
  }

  /** The complete list of actions that take an unexpired delivery out of the
      queue. The last two cases are writes decided on older reads: the stale
      purge, a commit whose session read an expired packet under this id before
      the present one was accepted; and an ack or an endpoint delete that read
      its rows earlier. */
  ghost predicate Removes(s: Sys, a: Action, d: Id)
    requires Enabled(s, a) && d in s.db.deliveries && s.db.deliveries[d].packet in s.db.packets
  {
    var row := s.db.deliveries[d];
    var packet := s.db.packets[row.packet];
    match a
    case DoAck(n, dn, pn, _) =>
      NodeActive(s.db, n) && row.node == n && (dn == Some(d) || (dn.None? && pn == Some(row.packet)))
    case DoDeleteEndpoint(n, e, now) => EndpointDeleteDenial(s.db, n, e, now).None? && e == packet.from
    case DoDeleteIdentity(n) => NodeActive(s.db, n) && (n == packet.sender || n == row.node)
    case CommitSend(task) =>
      var t := s.sends[task].ticket;
      t.purge && t.request.packet == row.packet && CommitSucceeds(s.db, t)
    case EndRemoval(task) =>
      (match s.removals[task]
       case DropEndpoint(e) => e == packet.from || e == packet.to
       case DropAcked(_, p) => p == row.packet)
    case _ => false
  }

  // ------------------------------------------------ the effect on the queue

  ghost predicate OnlyRemoves(db: Db, db': Db) {
    && (forall p :: p in db'.packets ==> p in db.packets && db'.packets[p] == db.packets[p])
    && (forall d :: d in db'.deliveries ==> d in db.deliveries && db'.deliveries[d] == db.deliveries[d])
  }

  /** The ticket whose commit the step performs, if it accepts a packet. */
  ghost function TicketOf(s: Sys, a: Action): (t: SendTicket)
    requires Enabled(s, a) && ReplyTo(s, a).Accepted?
    ensures CommitSucceeds(s.db, t) && NextDb(s, a) == Committed(s.db, t) && ReplyTo(s, a) == AcceptedReply(t)
    ensures a.CommitSend? ==> t == s.sends[a.task].ticket
    ensures a.DoSend? || a.CommitSend?
  {
    if a.CommitSend? then s.sends[a.task].ticket
    else DecisionOf(s, a).ticket
  }

  predicate TouchesQueue(a: Action) {
    a.DoDeleteIdentity? || a.DoDeleteEndpoint? || a.DoAck? || a.CommitSend? || a.DoSend? || a.DoCleanup? ||
    a.EndRemoval?
  }

  lemma OwnerActionsLeaveQueue(s: Sys, a: Action)
    requires Enabled(s, a) && ChangesOwners(a) && !TouchesQueue(a)
    ensures NextDb(s, a).packets == s.db.packets && NextDb(s, a).deliveries == s.db.deliveries
  {
  }

  lemma OtherActionsLeaveQueue(s: Sys, a: Action)
    requires Enabled(s, a) && !TouchesQueue(a)
    ensures NextDb(s, a).packets == s.db.packets && NextDb(s, a).deliveries == s.db.deliveries
  {
    if ChangesOwners(a) {
      OwnerActionsLeaveQueue(s, a);
    } else if ChangesLinks(a) {
      LinkStepStaysWithinLinks(s, a);
    } else {
      OtherStepChangesNothing(s, a);
    }
  }

  lemma DropOwnersOnlyRemoves(db: Db, ns: set<Id>, es: set<Id>)
    ensures OnlyRemoves(db, DropOwners(db, ns, es))
  {
  }

  lemma DropPacketsOnlyRemoves(db: Db, gone: set<Id>, dead: set<Id>)
    ensures OnlyRemoves(db, DropPackets(db.(deliveries := db.deliveries - gone), dead))
  {
  }

  lemma CleanupOnlyRemoves(db: Db, now: int, s: Settings)
    ensures OnlyRemoves(db, Cleanup(db, now, s))
  {
    DropPacketsOnlyRemoves(db, {}, ExpiredPackets(db, now));
  }

  lemma FinishedRemovalOnlyRemoves(db: Db, r: Removal)
    ensures OnlyRemoves(db, FinishRemoval(db, r))
  {
    hide OnlyRemoves, DropOwners, DropPackets;
    match r
    case DropEndpoint(e) => DropOwnersOnlyRemoves(db, {}, {e});
    case DropAcked(d, p) => DropPacketsOnlyRemoves(db, {d}, {p});
  }

  lemma TouchingStepOnlyRemoves(s: Sys, a: Action)
    requires Enabled(s, a) && TouchesQueue(a) && !ReplyTo(s, a).Accepted?
    ensures OnlyRemoves(s.db, NextDb(s, a))
  {
    hide DropOwners, DropPackets, Cleanup, FinishRemoval, CheckSend, CommitSucceeds, Committed, AckTarget,
      EndpointDeleteDenial, NodeActive;
    match a
    case DoDeleteIdentity(n) => DropOwnersOnlyRemoves(s.db, {n}, OwnedEndpoints(s.db, n));
    case DoDeleteEndpoint(_, e, _) => DropOwnersOnlyRemoves(s.db, {}, {e});
    case DoAck(_, d, p, now) =>
      var target := AckTarget(s.db, d, p, now);
      if target.Some? {
        DropPacketsOnlyRemoves(s.db, {target.value}, {s.db.deliveries[target.value].packet});
      }
    case DoCleanup(now, settings) => CleanupOnlyRemoves(s.db, now, settings);
    case EndRemoval(task) => FinishedRemovalOnlyRemoves(s.db, s.removals[task]);
    case DoSend(_, _, _, _, _, _) =>
    case CommitSend(_) =>
  }

  lemma QuietStepOnlyRemoves(s: Sys, a: Action)
    requires Enabled(s, a) && !ReplyTo(s, a).Accepted?
    ensures OnlyRemoves(s.db, NextDb(s, a))
  {
    if TouchesQueue(a) {
      TouchingStepOnlyRemoves(s, a);
    } else {
      OtherActionsLeaveQueue(s, a);
    }
  }

  lemma AcceptedDeliveryIsNew(s: Sys, a: Action)
    requires SysInv(s) && Enabled(s, a) && ReplyTo(s, a).Accepted?
    ensures TicketOf(s, a).deliveryId !in s.db.deliveries
  {
    hide RemovalOk, DistinctTickets, RefsOk, Paired, RoutesMatchLinks, TicketFits, PacketMatches;
    if a.CommitSend? {
      assert SendTaskOk(s, s.sends[a.task]);
    }
  }

  /** Under the invariant a surviving packet keeps its very delivery. */
  lemma SurvivorsStayPaired(db: Db, db': Db, d: Id)
    requires Paired(db) && Paired(db') && OnlyRemoves(db, db') && d in db.deliveries
    ensures d in db'.deliveries <==> db.deliveries[d].packet in db'.packets
  {
    var p := db.deliveries[d].packet;
    if p in db'.packets {
      var d' :| IsDeliveryOf(db', d', p);
      assert d' == d;
    }
    if d in db'.deliveries {
      assert DeliveryOk(db', db'.deliveries[d]);
    }
  }

  // ------------------------------------------------------- causes of removal

  lemma DropOwnersSurvival(db: Db, ns: set<Id>, es: set<Id>, d: Id)
    requires Inv(db) && d in db.deliveries
    requires forall e :: e in db.endpoints && db.endpoints[e].owner in ns ==> e in es
    ensures db.deliveries[d].packet in db.packets
    ensures var p := db.packets[db.deliveries[d].packet];
            d in DropOwners(db, ns, es).deliveries <==>
            p.from !in es && p.to !in es && p.sender !in ns
  {
    assert DeliveryOk(db, db.deliveries[d]);
  }

  lemma IdentityRemovalCause(db: Db, n: Id, d: Id)
    requires Inv(db) && d in db.deliveries && db.deliveries[d].packet in db.packets
    ensures d !in DeleteIdentity(db, n).db.deliveries <==>
            NodeActive(db, n) && (n == db.packets[db.deliveries[d].packet].sender || n == db.deliveries[d].node)
  {
    DropOwnersSurvival(db, {n}, OwnedEndpoints(db, n), d);
    assert DeliveryOk(db, db.deliveries[d]) && PacketOk(db, db.packets[db.deliveries[d].packet]);
  }

  lemma EndpointRemovalCause(db: Db, n: Id, e: Id, now: int, d: Id)
    requires Inv(db) && d in db.deliveries && db.deliveries[d].packet in db.packets
    requires !IsExpired(db.packets[db.deliveries[d].packet], now)
    ensures d !in DeleteEndpoint(db, n, e, now).db.deliveries <==>
            EndpointDeleteDenial(db, n, e, now).None? && e == db.packets[db.deliveries[d].packet].from
  {
    DropOwnersSurvival(db, {}, {e}, d);
    assert DeliveryOk(db, db.deliveries[d]);
    if db.deliveries[d].endpoint == e {
      assert d in Queue(db, OfEndpoint(e), now);
    }
  }

  lemma AckRemovalCause(db: Db, n: Id, dn: Option<Id>, pn: Option<Id>, now: int, d: Id)
    requires Paired(db) && d in db.deliveries && db.deliveries[d].packet in db.packets
    requires !IsExpired(db.packets[db.deliveries[d].packet], now)
    ensures d !in Ack(db, n, dn, pn, now).db.deliveries <==>
            NodeActive(db, n) && db.deliveries[d].node == n &&
            (dn == Some(d) || (dn.None? && pn == Some(db.deliveries[d].packet)))
  {
    hide DeliveryOk, PacketOk;
    var target := AckTarget(db, dn, pn, now);
    assert d in Queue(db, Everywhere, now);
    assert dn == Some(d) ==> target == Some(d);
    if dn.None? && pn == Some(db.deliveries[d].packet) {
      assert IsDeliveryOf(db, d, pn.value);
      assert target == Some(d);
    }
    if target.Some? {
      AckDropsOnePacket(db, target.value);
    }
  }

  lemma CommitRemovalCause(db: Db, t: SendTicket, d: Id)
    requires d in db.deliveries && t.deliveryId !in db.deliveries
    ensures d !in Committed(db, t).deliveries <==> t.purge && t.request.packet == db.deliveries[d].packet
    ensures d in Committed(db, t).deliveries ==> Committed(db, t).deliveries[d] == db.deliveries[d]
  {
  }

  lemma CleanupRemovalCause(db: Db, now: int, s: Settings, d: Id)
    requires d in db.deliveries && db.deliveries[d].packet in db.packets
    ensures d !in Cleanup(db, now, s).deliveries <==> IsExpired(db.packets[db.deliveries[d].packet], now)
  {
  }

  /** The step takes the delivery away exactly if it is on the list. */
  ghost predicate CauseIsExact(s: Sys, a: Action, d: Id)
    requires Enabled(s, a) && d in s.db.deliveries && s.db.deliveries[d].packet in s.db.packets
  {
    d !in NextDb(s, a).deliveries <==> Removes(s, a, d)
  }

  lemma DeleteStepCause(s: Sys, a: Action, d: Id)
    requires Inv(s.db) && Enabled(s, a) && d in s.db.deliveries
    requires s.db.deliveries[d].packet in s.db.packets && UnexpiredFor(s.db.packets[s.db.deliveries[d].packet], a)
    requires a.DoDeleteIdentity? || a.DoDeleteEndpoint?
    ensures CauseIsExact(s, a, d)
  {
    if a.DoDeleteIdentity? {
      IdentityRemovalCause(s.db, a.node, d);
    } else {
      EndpointRemovalCause(s.db, a.node, a.endpoint, a.now, d);
    }
  }

  lemma AckStepCause(s: Sys, a: Action, d: Id)
    requires Paired(s.db) && Enabled(s, a) && a.DoAck? && d in s.db.deliveries
    requires s.db.deliveries[d].packet in s.db.packets && UnexpiredFor(s.db.packets[s.db.deliveries[d].packet], a)
    ensures CauseIsExact(s, a, d)
  {
    hide Paired, Ack;
    AckRemovalCause(s.db, a.node, a.delivery, a.packet, a.now, d);
  }

  lemma CommitStepCause(s: Sys, a: Action, d: Id)
    requires Enabled(s, a) && a.CommitSend? && s.sends[a.task].ticket.deliveryId !in s.db.deliveries
    requires d in s.db.deliveries && s.db.deliveries[d].packet in s.db.packets
    ensures CauseIsExact(s, a, d)
  {
    CommitRemovalCause(s.db, s.sends[a.task].ticket, d);
  }

  lemma SendStepCause(s: Sys, a: Action, d: Id)
    requires Enabled(s, a) && a.DoSend? && d in s.db.deliveries && a.ids.0 !in s.db.deliveries
    requires s.db.deliveries[d].packet in s.db.packets && UnexpiredFor(s.db.packets[s.db.deliveries[d].packet], a)
    ensures CauseIsExact(s, a, d)
  {
    var r := DecisionOf(s, a);
    if r.Insert? {
      CommitRemovalCause(s.db, r.ticket, d);
    }
  }

  lemma CleanupStepCause(s: Sys, a: Action, d: Id)
    requires Enabled(s, a) && a.DoCleanup? && d in s.db.deliveries
    requires s.db.deliveries[d].packet in s.db.packets && UnexpiredFor(s.db.packets[s.db.deliveries[d].packet], a)
    ensures CauseIsExact(s, a, d)
  {
    CleanupRemovalCause(s.db, a.now, a.settings, d);
  }

  lemma RemovalStepCause(s: Sys, a: Action, d: Id)
    requires Inv(s.db) && Enabled(s, a) && a.EndRemoval? && RemovalOk(s, s.removals[a.task])
    requires d in s.db.deliveries && s.db.deliveries[d].packet in s.db.packets
    ensures CauseIsExact(s, a, d)
  {
    hide DropOwners, EndpointDeleteDenial, RefsOk, RoutesMatchLinks, CodesDistinct;
    if s.removals[a.task].DropEndpoint? {
      DropOwnersSurvival(s.db, {}, {s.removals[a.task].endpoint}, d);
    }
  }

  lemma OtherStepCause(s: Sys, a: Action, d: Id)
    requires Enabled(s, a) && !TouchesQueue(a)
    requires d in s.db.deliveries && s.db.deliveries[d].packet in s.db.packets
    ensures CauseIsExact(s, a, d)
  {
    OtherActionsLeaveQueue(s, a);
  }

  lemma SendIdsAreNew(s: Sys, a: Action)
    requires SysInv(s) && Enabled(s, a)
    ensures a.DoSend? ==> a.ids.0 !in s.db.deliveries
    ensures a.CommitSend? ==> s.sends[a.task].ticket.deliveryId !in s.db.deliveries
  {
    if a.CommitSend? {
      assert SendTaskOk(s, s.sends[a.task]);
    }
  }

  /** An unexpired delivery leaves the queue exactly through one of the listed
      causes: never through a poll, a link revocation, a key rotation or a
      cleanup, and never through the delete of its destination endpoint unless
      that delete was checked before the packet came. */
  lemma RemovalCauses(s: Sys, a: Action, d: Id)
    requires SysInv(s) && Enabled(s, a) && d in s.db.deliveries
    requires s.db.deliveries[d].packet in s.db.packets && UnexpiredFor(s.db.packets[s.db.deliveries[d].packet], a)
    ensures CauseIsExact(s, a, d)
  {
    hide Paired, RefsOk, RoutesMatchLinks, NextDb, Removes, IdsMinted, DistinctTickets;
    SendIdsAreNew(s, a);
    if a.DoDeleteIdentity? || a.DoDeleteEndpoint? {
      DeleteStepCause(s, a, d);
    } else if a.DoAck? {
      AckStepCause(s, a, d);
    } else if a.CommitSend? {
      CommitStepCause(s, a, d);
    } else if a.DoSend? {
      SendStepCause(s, a, d);
    } else if a.DoCleanup? {
      CleanupStepCause(s, a, d);
    } else if a.EndRemoval? {
      assert RemovalOk(s, s.removals[a.task]);
      RemovalStepCause(s, a, d);
    } else {
      OtherStepCause(s, a, d);
    }
  }

  lemma CommitKeepsSurvivors(db: Db, t: SendTicket, d: Id)
    requires Paired(db) && CommitSucceeds(db, t) && t.deliveryId !in db.deliveries
    requires d in db.deliveries && d in Committed(db, t).deliveries
    ensures var p := db.deliveries[d].packet;
            p in db.packets && p in Committed(db, t).packets && Committed(db, t).packets[p] == db.packets[p]
  {
    assert DeliveryOk(db, db.deliveries[d]);
  }

  /** A delivery that is not removed keeps its row and its packet. */
  lemma SurvivorKeepsRows(s: Sys, a: Action, d: Id)
    requires SysInv(s) && Enabled(s, a) && d in s.db.deliveries && d in NextDb(s, a).deliveries
    ensures var db' := NextDb(s, a);
            var p := s.db.deliveries[d].packet;
            db'.deliveries[d] == s.db.deliveries[d] && p in s.db.packets && p in db'.packets &&
            db'.packets[p] == s.db.packets[p]
  {
    assert DeliveryOk(s.db, s.db.deliveries[d]);
    if ReplyTo(s, a).Accepted? {
      AcceptedDeliveryIsNew(s, a);
      CommitRemovalCause(s.db, TicketOf(s, a), d);
      CommitKeepsSurvivors(s.db, TicketOf(s, a), d);
    } else {
      QuietStepOnlyRemoves(s, a);
      StepKeepsDbInv(s, a);
      assert DeliveryOk(NextDb(s, a), NextDb(s, a).deliveries[d]);
    }
  }

  // ------------------------------------------------------- survival over runs

  ghost predicate NothingRemoves(s: Sys, run: seq<Action>, d: Id)
    requires SysInv(s) && Legal(s, run) && d in s.db.deliveries
    decreases |run|
  {
    run == [] ||
    (s.db.deliveries[d].packet in s.db.packets &&
     UnexpiredFor(s.db.packets[s.db.deliveries[d].packet], run[0]) &&
     !Removes(s, run[0], d) &&
     (StepKeepsInvariant(s, run[0]);
      RemovalCauses(s, run[0], d);
      NothingRemoves(Next(s, run[0]), run[1..], d)))
  }

  /** Until an action on the list occurs, a delivery and its packet stay as they
      are, whatever else happens and however the requests interleave. */
  lemma {:induction false} DeliverySurvives(s: Sys, run: seq<Action>, d: Id)
    requires SysInv(s) && Legal(s, run) && d in s.db.deliveries && NothingRemoves(s, run, d)
    ensures var s' := After(s, run);
            var p := s.db.deliveries[d].packet;
            d in s'.db.deliveries && s'.db.deliveries[d] == s.db.deliveries[d] &&
            p in s.db.packets && p in s'.db.packets && s'.db.packets[p] == s.db.packets[p]
    decreases |run|
  {
    assert DeliveryOk(s.db, s.db.deliveries[d]);
    if run != [] {
      StepKeepsInvariant(s, run[0]);
      RemovalCauses(s, run[0], d);
      SurvivorKeepsRows(s, run[0], d);
      DeliverySurvives(Next(s, run[0]), run[1..], d);
    }
  }

  // ------------------------------------------------------- repeated sends

  /** The answer owed to a send of a packet id that is queued and unexpired. */
  function RepeatAnswer(db: Db, d: Id, n: Id, q: SendRequest): Reply
    requires d in db.deliveries && db.deliveries[d].packet in db.packets
  {
    var p := db.packets[db.deliveries[d].packet];
    if PacketMatches(p, n, q) then Duplicate(q.packet, Some(d), p.expiresAt) else Denied(PacketIdConflict)
  }

  /** A send that passes the earlier checks and finds its id queued is answered
      with the queued delivery if the content is equal and a conflict if not. */
  lemma RepeatedSendAnswer(
    db: Db, n: Id, q: SendRequest, clock: SendClock, s: Settings, storage: nat, ids: (Id, Id), d: Id)
    requires Paired(db) && IsDeliveryOf(db, d, q.packet)
    requires q.packet in db.packets && !IsExpired(db.packets[q.packet], clock.seen)
    ensures var r := CheckSend(db, n, q, clock, s, storage, ids);
            if SendGate(db, n, q, s).Some? then r == Refuse(SendGate(db, n, q, s).value)
            else !r.Insert? && DecisionReply(q, r) == RepeatAnswer(db, d, n, q)
  {
  }

  /** The concurrent-insert path: a commit whose session did not delete an expired
      row fails at the primary key, and the request goes on to its five lookups. */
  lemma LostRaceGoesToLookup(s: Sys, task: nat, d: Id)
    requires SysInv(s) && Enabled(s, CommitSend(task)) && !s.sends[task].ticket.purge
    requires IsDeliveryOf(s.db, d, s.sends[task].ticket.request.packet)
    ensures ReplyTo(s, CommitSend(task)) == InProgress && NextDb(s, CommitSend(task)) == s.db
    ensures var t := s.sends[task];
            NextSends(s, CommitSend(task)) == s.sends[task := Retrying(t.node, t.ticket.request, LOOKUP_TRIES)]
  {
    assert DeliveryOk(s.db, s.db.deliveries[d]);
  }

  /** A lookup that finds the row unexpired answers as a repeated send is answered. */
  lemma LookupAnswer(s: Sys, task: nat, now: int, d: Id)
    requires SysInv(s) && Enabled(s, RetrySend(task, now))
    requires IsDeliveryOf(s.db, d, s.sends[task].request.packet)
    ensures s.db.deliveries[d].packet in s.db.packets
    ensures !IsExpired(s.db.packets[s.db.deliveries[d].packet], now) ==>
              ReplyTo(s, RetrySend(task, now)) == RepeatAnswer(s.db, d, s.sends[task].node, s.sends[task].request)
  {
    assert DeliveryOk(s.db, s.db.deliveries[d]);
  }

  /** A step that answers a send of the id, with the request it serves and the
      reading by which it judges the row; a new send must pass the earlier checks. */
  predicate AnswersSend(s: Sys, a: Action, n: Id, q: SendRequest, now: int)
    requires Enabled(s, a)
  {
    match a
    case DoSend(node, request, clock, cfg, _, _) =>
      n == node && q == request && now == clock.seen && SendGate(s.db, n, q, cfg).None?
    case BeginSend(_, node, request, clock, cfg, _, _) =>
      n == node && q == request && now == clock.seen && SendGate(s.db, n, q, cfg).None?
    case RetrySend(task, reading) => n == s.sends[task].node && q == s.sends[task].request && now == reading
    case _ => false
  }

  lemma AnswerToQueuedId(s: Sys, a: Action, n: Id, q: SendRequest, now: int, d: Id)
    requires SysInv(s) && Enabled(s, a) && AnswersSend(s, a, n, q, now) && IsDeliveryOf(s.db, d, q.packet)
    requires q.packet in s.db.packets && !IsExpired(s.db.packets[q.packet], now)
    ensures ReplyTo(s, a) == RepeatAnswer(s.db, d, n, q) && NextDb(s, a) == s.db
  {
    if a.RetrySend? {
      LookupAnswer(s, a.task, now, d);
    } else {
      RepeatedSendAnswer(s.db, n, q, a.clock, a.settings, a.storage, a.ids, d);
    }
  }

  /** Once a packet is accepted it is queued as accepted. */
  lemma AcceptanceQueues(s: Sys, a: Action)
    requires SysInv(s) && Enabled(s, a) && ReplyTo(s, a).Accepted?
    ensures SysInv(Next(s, a))
    ensures var r := ReplyTo(s, a);
            IsDeliveryOf(NextDb(s, a), r.delivery, r.packet) && r.packet in NextDb(s, a).packets &&
            NextDb(s, a).packets[r.packet] == TicketOf(s, a).packet
  {
    StepKeepsInvariant(s, a);
    var t := TicketOf(s, a);
    if a.CommitSend? {
      assert SendTaskOk(s, s.sends[a.task]);
    } else {
      IssuedTicketFits(s.db, a.node, a.request, a.clock, a.settings, a.storage, a.ids);
    }
  }

  /** From the state in which (p, d) is queued, along any run without a removal of
      it: every send of p that passes the earlier checks, and every lookup after a
      lost race, that finds the row unexpired is answered "duplicate" with d if its
      content is equal, and a conflict if not; and it changes nothing. */
  lemma RepeatsAreAnsweredAlike(
    s: Sys, run: seq<Action>, d: Id, a: Action, n: Id, q: SendRequest, now: int)
    requires SysInv(s) && Legal(s, run) && IsDeliveryOf(s.db, d, q.packet) && NothingRemoves(s, run, d)
    requires Enabled(After(s, run), a) && AnswersSend(After(s, run), a, n, q, now)
    requires q.packet in s.db.packets && !IsExpired(s.db.packets[q.packet], now)
    ensures ReplyTo(After(s, run), a) == RepeatAnswer(s.db, d, n, q)
    ensures NextDb(After(s, run), a) == After(s, run).db
  {
    hide NothingRemoves, ReplyTo, NextDb, AnswersSend, Inv;
    DeliverySurvives(s, run, d);
    RunKeepsInvariant(s, run);
    AnswerToQueuedId(After(s, run), a, n, q, now, d);
  }

  // ------------------------------------------- acceptances against removals

  ghost predicate AcceptsId(s: Sys, a: Action, p: Id)
    requires Enabled(s, a)
  {
    ReplyTo(s, a).Accepted? && ReplyTo(s, a).packet == p
  }

  /** Some delivery of `p` was queued before the step and is not after it. */
  ghost predicate LosesDelivery(s: Sys, a: Action, p: Id)
    requires Enabled(s, a)
  {
    DeliveryLost(s.db, NextDb(s, a), p)
  }

  ghost function Acceptances(s: Sys, run: seq<Action>, p: Id): nat
    requires Legal(s, run)
    decreases |run|
  {
    if run == [] then 0
    else (if AcceptsId(s, run[0], p) then 1 else 0) + Acceptances(Next(s, run[0]), run[1..], p)
  }

  ghost function Removals(s: Sys, run: seq<Action>, p: Id): nat
    requires Legal(s, run)
    decreases |run|
  {
    if run == [] then 0
    else (if LosesDelivery(s, run[0], p) then 1 else 0) + Removals(Next(s, run[0]), run[1..], p)
  }

  function Queued(s: Sys, p: Id): nat {
    if p in s.db.packets then 1 else 0
  }

  ghost predicate DeliveryLost(db: Db, db': Db, p: Id) {
    exists d :: IsDeliveryOf(db, d, p) && !IsDeliveryOf(db', d, p)
  }

  lemma PacketGoesWithItsDelivery(db: Db, db': Db, p: Id)
    requires Paired(db) && Paired(db') && OnlyRemoves(db, db')
    ensures p in db.packets <==> p in db'.packets || DeliveryLost(db, db', p)
    ensures !(p in db'.packets && DeliveryLost(db, db', p))
  {
    if p in db.packets {
      var d :| IsDeliveryOf(db, d, p);
      SurvivorsStayPaired(db, db', d);
      assert d in db'.deliveries ==> IsDeliveryOf(db', d, p);
      assert forall d' :: IsDeliveryOf(db, d', p) ==> d' == d;
    } else {
      assert forall d :: d in db.deliveries ==> DeliveryOk(db, db.deliveries[d]);
    }
  }

  lemma QuietStepBalance(s: Sys, a: Action, p: Id)
    requires SysInv(s) && Enabled(s, a) && !ReplyTo(s, a).Accepted?
    ensures p in s.db.packets <==> p in NextDb(s, a).packets || LosesDelivery(s, a, p)
    ensures !(p in NextDb(s, a).packets && LosesDelivery(s, a, p))
  {
    QuietStepOnlyRemoves(s, a);
    StepKeepsDbInv(s, a);
    PacketGoesWithItsDelivery(s.db, NextDb(s, a), p);
  }

  lemma CommitBalance(db: Db, t: SendTicket, p: Id)
    requires Paired(db) && CommitSucceeds(db, t) && t.deliveryId !in db.deliveries
    ensures p == t.request.packet ==>
              (p in db.packets <==> DeliveryLost(db, Committed(db, t), p))
    ensures p != t.request.packet ==>
              (p in Committed(db, t).packets <==> p in db.packets) &&
              forall d :: IsDeliveryOf(db, d, p) ==> IsDeliveryOf(Committed(db, t), d, p)
  {
    assert forall d :: d in db.deliveries ==> DeliveryOk(db, db.deliveries[d]);
    if p == t.request.packet && p in db.packets {
      var d :| IsDeliveryOf(db, d, p);
      CommitRemovalCause(db, t, d);
    }
  }

  lemma AcceptStepBalance(s: Sys, a: Action, p: Id)
    requires SysInv(s) && Enabled(s, a) && ReplyTo(s, a).Accepted?
    ensures AcceptsId(s, a, p) ==> p in NextDb(s, a).packets && (p in s.db.packets <==> LosesDelivery(s, a, p))
    ensures !AcceptsId(s, a, p) ==>
              (p in NextDb(s, a).packets <==> p in s.db.packets) && !LosesDelivery(s, a, p)
  {
    AcceptedDeliveryIsNew(s, a);
    CommitBalance(s.db, TicketOf(s, a), p);
  }

  lemma StepBalance(s: Sys, a: Action, p: Id)
    requires SysInv(s) && Enabled(s, a)
    ensures Queued(s, p) + (if AcceptsId(s, a, p) then 1 else 0) ==
            Queued(Next(s, a), p) + (if LosesDelivery(s, a, p) then 1 else 0)
  {
    if ReplyTo(s, a).Accepted? {
      AcceptStepBalance(s, a, p);
    } else {
      QuietStepBalance(s, a, p);
    }
  }

  /** Conservation: what was queued plus what was accepted is what is queued
      plus what was removed, for every packet id and every interleaving. */
  lemma {:induction false} AcceptancesBalanceRemovals(s: Sys, run: seq<Action>, p: Id)
    requires SysInv(s) && Legal(s, run)
    ensures Queued(s, p) + Acceptances(s, run, p) == Queued(After(s, run), p) + Removals(s, run, p)
    decreases |run|
  {
    if run != [] {
      StepBalance(s, run[0], p);
      StepKeepsInvariant(s, run[0]);
      AcceptancesBalanceRemovals(Next(s, run[0]), run[1..], p);
    }
  }

  /** Between two acceptances of one packet id the packet was removed. */
  lemma SecondAcceptanceNeedsRemoval(s: Sys, first: Action, rest: seq<Action>, p: Id)
    requires SysInv(s) && Enabled(s, first) && Legal(Next(s, first), rest)
    requires AcceptsId(s, first, p) && Acceptances(Next(s, first), rest, p) > 0
    ensures Removals(Next(s, first), rest, p) > 0
  {
    hide Inv;
    StepKeepsInvariant(s, first);
    assert p in Next(s, first).db.packets by {
      var t := TicketOf(s, first);
    }
    AcceptancesBalanceRemovals(Next(s, first), rest, p);
  }

  /** k acceptances in a run of the relay imply at least k - 1 removals. */
  lemma AcceptancesExceedRemovalsByAtMostOne(run: seq<Action>, p: Id)
    requires Legal(START, run)
    ensures Removals(START, run, p) <= Acceptances(START, run, p) <= Removals(START, run, p) + 1
  {
    AcceptancesBalanceRemovals(START, run, p);
  }
}
