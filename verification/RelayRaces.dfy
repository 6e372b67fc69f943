/** Writes decided on older reads: what a send, an ack or an endpoint delete takes
    away beyond what it read is exactly what was accepted in between. */
module RelayRaces {
  import opened RelayTables
  import opened RelaySpec
  import opened RelayInvariant
  import opened RelayRuns
  import opened RelayDelivery
  import opened RelayOrigins

  // --------------------------------------------------------- exact conditions

  /** The checks of the send, on the tables as they are, issue this ticket. */
  ghost predicate JustChecked(m: Sys, a: Action, t: SendTicket) {
    a.BeginSend? && CheckSend(m.db, a.node, a.request, a.clock, a.settings, a.storage, a.ids) == Insert(t)
  }

  /** That is so after the first half of every send that passes. */
  lemma PassedSendIsJustChecked(s: Sys, a: Action)
    requires Enabled(s, a) && a.BeginSend? && ReplyTo(s, a).InProgress?
    ensures a.task in NextSends(s, a) && NextSends(s, a)[a.task].Checked?
    ensures JustChecked(Next(s, a), a, NextSends(s, a)[a.task].ticket)
  {
  }

  /** A send purges only what it read as expired. */
  lemma PurgeWasExpired(m: Sys, a: Action, t: SendTicket)
    requires JustChecked(m, a, t)
    ensures t.request == a.request
    ensures t.purge ==> a.request.packet in m.db.packets && IsExpired(m.db.packets[a.request.packet], a.clock.seen)
  {
  }

  lemma AcceptedCommitTakesItsId(s: Sys, task: nat, d: Id)
    requires SysInv(s) && Enabled(s, CommitSend(task)) && ReplyTo(s, CommitSend(task)).Accepted?
    requires d in s.db.deliveries
    ensures d !in NextDb(s, CommitSend(task)).deliveries <==>
            s.db.deliveries[d].packet == s.sends[task].ticket.request.packet
    ensures s.db.deliveries[d].packet == s.sends[task].ticket.request.packet ==> s.sends[task].ticket.purge
  {
    SendIdsAreNew(s, CommitSend(task));
    CommitRemovalCause(s.db, s.sends[task].ticket, d);
    assert DeliveryOk(s.db, s.db.deliveries[d]);
  }

  /** Between the checks of a send and its commit: of the deliveries that are live
      when it commits, an accepted commit takes away exactly those that were
      accepted in between under its packet id. */
  lemma CommitTakesWhatWasAcceptedSince(
    m: Sys, begin: Action, ticket: SendTicket, mid: seq<Action>, end: Sys, d: Id, now: int)
    requires SysInv(m) && JustChecked(m, begin, ticket) && Between(m, mid, end)
    requires Enabled(end, CommitSend(begin.task)) && end.sends[begin.task].ticket == ticket
    requires ReplyTo(end, CommitSend(begin.task)).Accepted?
    requires begin.clock.seen <= now && d in Queue(end.db, Everywhere, now)
    ensures d !in NextDb(end, CommitSend(begin.task)).deliveries <==> AcceptedIn(m, mid, begin.request.packet, d)
  {
    PurgeWasExpired(m, begin, ticket);
    AcceptedIffNew(m, mid, end, begin.request.packet, d);
    AcceptedCommitTakesItsId(end, begin.task, d);
  }

  lemma LateRemovalEffect(s: Sys, task: nat, d: Id)
    requires SysInv(s) && Enabled(s, EndRemoval(task)) && d in s.db.deliveries
    ensures s.db.deliveries[d].packet in s.db.packets
    ensures var row := s.db.deliveries[d];
            d !in NextDb(s, EndRemoval(task)).deliveries <==>
            match s.removals[task]
            case DropEndpoint(e) => e == s.db.packets[row.packet].from || e == s.db.packets[row.packet].to
            case DropAcked(_, p) => p == row.packet
  {
    assert DeliveryOk(s.db, s.db.deliveries[d]);
    RemovalCauses(s, EndRemoval(task), d);
  }

  /** The reads of the ack, on the tables as they are, lead to these deletes. */
  ghost predicate JustRead(m: Sys, a: Action, r: Removal) {
    && a.BeginAck? && r.DropAcked? && Ack(m.db, a.node, a.delivery, a.packet, a.now).reply == Done
    && AckTarget(m.db, a.delivery, a.packet, a.now) == Some(r.delivery)
    && r.packet == m.db.deliveries[r.delivery].packet
  }

  lemma PassedAckIsJustRead(s: Sys, a: Action)
    requires Enabled(s, a) && a.BeginAck? && ReplyTo(s, a).InProgress?
    ensures a.task in NextRemovals(s, a) && JustRead(Next(s, a), a, NextRemovals(s, a)[a.task])
  {
  }

  lemma OneDeliveryPerPacket(m: Sys, a: Action, r: Removal)
    requires Paired(m.db) && JustRead(m, a, r)
    ensures forall d :: IsDeliveryOf(m.db, d, r.packet) <==> d == r.delivery
  {
  }

  lemma LateAckTakes(m: Sys, run: seq<Action>, end: Sys, task: nat, read: Removal, d: Id)
    requires SysInv(m) && Between(m, run, end) && d in end.db.deliveries
    requires task in end.removals && end.removals[task] == read && read.DropAcked?
    requires forall d' :: IsDeliveryOf(m.db, d', read.packet) <==> d' == read.delivery
    ensures d !in NextDb(end, EndRemoval(task)).deliveries <==>
            d == read.delivery || AcceptedIn(m, run, read.packet, d)
  {
    hide Inv, AcceptedIn, RemovalOk, NextDb, Queue;
    AcceptedIffNew(m, run, end, read.packet, d);
    LateRemovalEffect(end, task, d);
    AckedIdStays(end, task);
    assert IsDeliveryOf(m.db, read.delivery, read.packet);
    assert SameRows(m.db, end.db, d) ==>
             (IsDeliveryOf(m.db, d, read.packet) <==> end.db.deliveries[d].packet == read.packet);
  }

  /** Between the reads of an ack and its deletes: the ack takes away exactly the
      delivery it read and those accepted in between under the same packet id. */
  lemma AckTakesWhatWasAcceptedSince(m: Sys, begin: Action, read: Removal, mid: seq<Action>, end: Sys, d: Id)
    requires SysInv(m) && JustRead(m, begin, read) && Between(m, mid, end)
    requires Enabled(end, EndRemoval(begin.task)) && end.removals[begin.task] == read
    requires d in end.db.deliveries
    ensures d !in NextDb(end, EndRemoval(begin.task)).deliveries <==>
            d == read.delivery || AcceptedIn(m, mid, read.packet, d)
  {
    OneDeliveryPerPacket(m, begin, read);
    LateAckTakes(m, mid, end, begin.task, read, d);
  }

  lemma AckedIdStays(s: Sys, task: nat)
    requires SysInv(s) && task in s.removals && s.removals[task].DropAcked?
    ensures s.removals[task].delivery in s.db.deliveries ==>
              s.db.deliveries[s.removals[task].delivery].packet == s.removals[task].packet
  {
    assert RemovalOk(s, s.removals[task]);
  }

  /** The endpoint delete passes its checks on the tables as they are. */
  ghost predicate JustUnused(m: Sys, a: Action) {
    a.BeginDeleteEndpoint? && EndpointDeleteDenial(m.db, a.node, a.endpoint, a.now).None?
  }

  lemma PassedDeleteIsJustUnused(s: Sys, a: Action)
    requires Enabled(s, a) && a.BeginDeleteEndpoint? && ReplyTo(s, a).InProgress?
    ensures JustUnused(Next(s, a), a)
    ensures a.task in NextRemovals(s, a) && NextRemovals(s, a)[a.task] == DropEndpoint(a.endpoint)
  {
  }

  lemma LateDeleteTakes(m: Sys, run: seq<Action>, end: Sys, task: nat, e: Id, now: int, later: int, d: Id)
    requires SysInv(m) && Between(m, run, end) && task in end.removals && end.removals[task] == DropEndpoint(e)
    requires Queue(m.db, OfEndpoint(e), now) == {} && now <= later && d in Queue(end.db, OfEndpoint(e), later)
    ensures AcceptedIn(m, run, end.db.deliveries[d].packet, d)
    ensures d !in NextDb(end, EndRemoval(task)).deliveries
  {
    hide AcceptedIn, NextDb, IdsMinted, DistinctTickets;
    AcceptedIffNew(m, run, end, end.db.deliveries[d].packet, d);
    OnlyNewMail(m.db, end.db, e, now, later, d);
    LateRemovalEffect(end, task, d);
    assert DeliveryOk(end.db, end.db.deliveries[d]);
  }

  /** Between the checks of an endpoint delete and the delete: whatever live delivery
      is queued for the endpoint then was accepted in between, and is taken away. */
  lemma DeleteTakesWhatWasAcceptedSince(m: Sys, begin: Action, mid: seq<Action>, end: Sys, d: Id, now: int)
    requires SysInv(m) && JustUnused(m, begin) && Between(m, mid, end) && begin.now <= now
    requires Enabled(end, EndRemoval(begin.task)) && end.removals[begin.task] == DropEndpoint(begin.endpoint)
    requires d in Queue(end.db, OfEndpoint(begin.endpoint), now)
    ensures AcceptedIn(m, mid, end.db.deliveries[d].packet, d)
    ensures d !in NextDb(end, EndRemoval(begin.task)).deliveries
  {
    LateDeleteTakes(m, mid, end, begin.task, begin.endpoint, begin.now, now, d);
  }

  /** A queue that was empty has nothing old in it later. */
  lemma OnlyNewMail(db: Db, db': Db, e: Id, now: int, later: int, d: Id)
    requires Queue(db, OfEndpoint(e), now) == {} && now <= later && d in Queue(db', OfEndpoint(e), later)
    ensures !SameRows(db, db', d)
  {
    assert d !in Queue(db, OfEndpoint(e), now);
  }

  /** A send that no other transaction interleaves with takes nothing live away. */
  lemma SendAloneLosesNothing(s: Sys, a: Action, d: Id)
    requires SysInv(s) && Enabled(s, a) && a.DoSend? && d in s.db.deliveries
    requires s.db.deliveries[d].packet in s.db.packets
    requires !IsExpired(s.db.packets[s.db.deliveries[d].packet], a.clock.seen)
    ensures d in NextDb(s, a).deliveries
  {
    RemovalCauses(s, a, d);
  }
}
