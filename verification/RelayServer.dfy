/** The request handlers of the relay as methods that change its tables step by
    step, each proved to do what its transaction function says. */
module RelayServer {
  import opened RelayTables
  import opened RelaySpec
  import opened RelayInvariant
  import opened RelayCascade
  import opened RelayLimits
  import opened RelayRuns
  import opened RelayDrain
  import opened RelayRoutes
  import opened Paging

  /** A redeem that no other transaction interleaves with. */
  ghost function RedeemAlone(
    db: Db, n: Id, c: Option<Id>, dest: Id, now: int, link: Id, routeIds: (Id, Id)): Outcome
    requires c.Some? ==> c.value in db.codes
  {
    var read := ReadForRedeem(db, n, c, dest, now);
    if read.ReadDenied? then Outcome(db, Denied(read.why)) else FinishRedeem(db, read.ticket, link, routeIds)
  }

  function ChangedCodes(before: map<Id, Code>, after: map<Id, Code>): set<Id> {
    set c | c in before && c in after && before[c] != after[c]
  }

  function WithRoute(routes: map<Id, Route>, id: Id, pair: (Id, Id), link: Id): map<Id, Route> {
    routes[id := NewRoute(pair, link)]
  }

  lemma RedeemAloneKeepsInv(
    db: Db, n: Id, c: Option<Id>, dest: Id, now: int, link: Id, routeIds: (Id, Id))
    requires Inv(db) && (c.Some? ==> c.value in db.codes)
    ensures Inv(RedeemAlone(db, n, c, dest, now, link, routeIds).db)
  {
    var read := ReadForRedeem(db, n, c, dest, now);
    if read.Proceed? {
      FinishRedeemKeepsInv(db, read.ticket, link, routeIds);
    }
  }

  lemma AckedPacketHasOneDelivery(db: Db, d: Id, p: Id)
    requires Paired(db) && IsDeliveryOf(db, d, p)
    ensures DeliveryOf(db, p) == Some(d)
  {
  }

  lemma CleanupByTable(db: Db, now: int, s: Settings)
    ensures var fewer := DropPackets(db, ExpiredPackets(db, now));
            Cleanup(db, now, s) == db.(
              codes := ExpiredCodes(db.codes, now), packets := fewer.packets, deliveries := fewer.deliveries,
              events := map e | e in db.events && db.events[e].createdAt >= now - 2 * s.windowSeconds :: db.events[e])
  {
  }

  lemma ExpiryIgnoresCodes(db: Db, codes: map<Id, Code>, now: int)
    ensures var later := db.(codes := codes);
            var fewer, same := DropPackets(later, ExpiredPackets(later, now)), DropPackets(db, ExpiredPackets(db, now));
            fewer.packets == same.packets && fewer.deliveries == same.deliveries
  {
    assert ExpiredPackets(db.(codes := codes), now) == ExpiredPackets(db, now);
  }

  /** The routes of the link revoked, except for those still to do. */
  function SeveredBut(routes: map<Id, Route>, l: Id, todo: set<Id>): map<Id, Route> {
    map r | r in routes ::
      if routes[r].createdBy == Some(l) && r !in todo then routes[r].(status := Revoked) else routes[r]
  }

  /** The tables and the clock as one lookup meets them. */
  datatype Look = Look(db: Db, now: int)

  predicate Finds(look: Look, p: Id) {
    p in look.db.packets && !IsExpired(look.db.packets[p], look.now)
  }

  predicate FirstFinds(looks: seq<Look>, i: nat, p: Id)
    requires i < |looks|
  {
    Finds(looks[i], p) && forall j :: 0 <= j < i ==> !Finds(looks[j], p)
  }

  class Relay {
    var nodes: map<Id, Node>
    var endpoints: map<Id, Endpoint>
    var links: map<Id, Link>
    var routes: map<Id, Route>
    var codes: map<Id, Code>
    var packets: map<Id, Packet>
    var deliveries: map<Id, Delivery>
    var events: map<Id, Event>

    function State(): Db
      reads this
    {
      Db(nodes, endpoints, links, routes, codes, packets, deliveries, events)
    }

    ghost predicate Valid()
      reads this
    {
      Inv(State())
    }

    constructor ()
      ensures Valid() && State() == EMPTY_DB
    {
      nodes, endpoints, links, routes := map[], map[], map[], map[];
      codes, packets, deliveries, events := map[], map[], map[], map[];
    }

    // -------------------------------------------------------------- identity

    method Register(n: Id, e: Id, key: nat) returns (r: Reply)
      requires Valid()
      modifies this`nodes, this`endpoints
      ensures Valid() && State() == RelaySpec.Register(old(State()), n, e, key).db
      ensures r == RelaySpec.Register(old(State()), n, e, key).reply
    {
      RegisterKeepsInv(State(), n, e, key);
      if n in nodes || e in endpoints {
        return Denied(IntegrityFailure);
      }
      nodes := nodes[n := Node(key, Active)];
      endpoints := endpoints[e := Endpoint(n, Some("default"))];
      r := Done;
    }

    method RotateKey(n: Id, key: nat) returns (r: Reply)
      requires Valid()
      modifies this`nodes
      ensures Valid() && State() == RelaySpec.RotateKey(old(State()), n, key).db
      ensures r == RelaySpec.RotateKey(old(State()), n, key).reply
    {
      if !NodeActive(State(), n) {
        return Denied(NodeInactive);
      }
      NodeUpdateKeepsInv(State(), n, nodes[n].(key := key));
      nodes := nodes[n := nodes[n].(key := key)];
      r := Done;
    }

    method SetNodeStatus(n: Id, status: Status) returns (r: Reply)
      requires Valid()
      modifies this`nodes
      ensures Valid() && State() == RelaySpec.SetNodeStatus(old(State()), n, status).db
      ensures r == RelaySpec.SetNodeStatus(old(State()), n, status).reply
    {
      if n !in nodes {
        return Denied(NodeInactive);
      }
      NodeUpdateKeepsInv(State(), n, nodes[n].(status := status));
      nodes := nodes[n := nodes[n].(status := status)];
      r := Done;
    }

    /** `db.delete(node)`: the foreign keys do the rest. */
    method DropRows(ns: set<Id>, es: set<Id>)
      modifies this
      ensures State() == DropOwners(old(State()), ns, es)
    {
      var dropped := DropOwners(State(), ns, es);
      nodes := dropped.nodes;
      endpoints := dropped.endpoints;
      links := dropped.links;
      routes := dropped.routes;
      codes := dropped.codes;
      packets := dropped.packets;
      deliveries := dropped.deliveries;
      events := dropped.events;
    }

    /** The figures reported by a delete, counted before it. */
    method CountIdentity(n: Id) returns (counts: DeleteCounts)
      ensures counts == IdentityCounts(State(), n)
    {
      var es := OwnedEndpoints(State(), n);
      var linkCount, routeCount, codeCount, packetCount, deliveryCount := 0, 0, 0, 0, 0;
      if es != {} {
        linkCount := |LinksTouching(State(), es)|;
        routeCount := |RoutesTouching(State(), es)|;
        codeCount := |CodesFrom(State(), es)|;
        packetCount := |PacketsTouching(State(), n, es)|;
        deliveryCount := |DeliveriesInto(State(), n, es)|;
      } else {
        var sent := set p | p in packets && packets[p].sender == n;
        var received := set d | d in deliveries && deliveries[d].node == n;
        packetCount := |sent|;
        deliveryCount := |received|;
        assert LinksTouching(State(), es) == {} && RoutesTouching(State(), es) == {} && CodesFrom(State(), es) == {};
        assert sent == PacketsTouching(State(), n, es) && received == DeliveriesInto(State(), n, es);
      }
      var eventCount := |EventsOf(State(), n)|;
      counts := DeleteCounts(|es|, linkCount, routeCount, codeCount, packetCount, deliveryCount, eventCount);
    }

    method DeleteIdentity(n: Id) returns (r: Reply)
      requires Valid()
      modifies this
      ensures Valid() && State() == RelaySpec.DeleteIdentity(old(State()), n).db
      ensures r == RelaySpec.DeleteIdentity(old(State()), n).reply
    {
      DeleteIdentityKeepsInv(State(), n);
      if !NodeActive(State(), n) {
        return Denied(NodeInactive);
      }
      var counts := CountIdentity(n);
      DropRows({n}, OwnedEndpoints(State(), n));
      r := Removed(counts);
    }

    // ------------------------------------------------------------- endpoints

    method CreateEndpoint(n: Id, e: Id, name: Option<string>) returns (r: Reply)
      requires Valid()
      modifies this`endpoints
      ensures Valid() && State() == RelaySpec.CreateEndpoint(old(State()), n, e, name).db
      ensures r == RelaySpec.CreateEndpoint(old(State()), n, e, name).reply
    {
      CreateEndpointKeepsInv(State(), n, e, name);
      if !NodeActive(State(), n) {
        return Denied(NodeInactive);
      }
      if e in endpoints {
        return Denied(IntegrityFailure);
      }
      endpoints := endpoints[e := Endpoint(n, name)];
      r := Done;
    }

    method DeleteEndpoint(n: Id, e: Id, now: int) returns (r: Reply)
      requires Valid()
      modifies this
      ensures Valid() && State() == RelaySpec.DeleteEndpoint(old(State()), n, e, now).db
      ensures r == RelaySpec.DeleteEndpoint(old(State()), n, e, now).reply
    {
      DeleteEndpointKeepsInv(State(), n, e, now);
      if !NodeActive(State(), n) {
        return Denied(NodeInactive);
      }
      var owner := OwnershipDenial(State(), n, e);
      if owner.Some? {
        return Denied(owner.value);
      }
      if endpoints[e].name == Some("default") {
        return Denied(DefaultEndpoint);
      }
      var linked := HasActiveLink(State(), e);
      var queued := Queue(State(), OfEndpoint(e), now);
      if linked || queued != {} {
        return Denied(EndpointInUse);
      }
      DropRows({}, {e});
      r := Done;
    }

    // ----------------------------------------------------------------- links

    method RequestLinkCode(n: Id, source: Id, mode: Mode, c: Id, candidates: seq<string>, expiresAt: int)
      returns (r: Reply)
      requires Valid()
      modifies this`codes
      ensures Valid()
      ensures State() == RelaySpec.RequestLinkCode(old(State()), n, source, mode, c, candidates, expiresAt).db
      ensures r == RelaySpec.RequestLinkCode(old(State()), n, source, mode, c, candidates, expiresAt).reply
    {
      RequestLinkCodeKeepsInv(State(), n, source, mode, c, candidates, expiresAt);
      if !NodeActive(State(), n) {
        return Denied(NodeInactive);
      }
      var owner := OwnershipDenial(State(), n, source);
      if owner.Some? {
        return Denied(owner.value);
      }
      var text: Option<string> := None;
      var i := 0;
      while i < |candidates|
        invariant 0 <= i <= |candidates|
        invariant text.None? ==> FirstFreeCode(State(), candidates) == FirstFreeCode(State(), candidates[i..])
        invariant text.Some? ==> FirstFreeCode(State(), candidates) == text
        invariant State() == old(State())
      {
        if !CodeTextTaken(State(), candidates[i]) {
          text := Some(candidates[i]);
          break;
        }
        i := i + 1;
      }
      if text.None? {
        return Denied(CodeAllocationFailed);
      }
      if c in codes {
        return Denied(IntegrityFailure);
      }
      codes := codes[c := Code(text.value, source, mode, expiresAt, Open)];
      r := Done;
    }

    /** `c` is the row the lookup by code text returned. */
    method RedeemLinkCode(n: Id, c: Option<Id>, dest: Id, now: int, link: Id, routeIds: (Id, Id)) returns (r: Reply)
      requires c.Some? ==> c.value in codes
      modifies this`codes, this`links, this`routes
      ensures old(Valid()) ==> Valid()
      ensures State() == RedeemAlone(old(State()), n, c, dest, now, link, routeIds).db
      ensures r == RedeemAlone(old(State()), n, c, dest, now, link, routeIds).reply
    {
      if Valid() {
        RedeemAloneKeepsInv(State(), n, c, dest, now, link, routeIds);
      }
      if !NodeActive(State(), n) {
        return Denied(NodeInactive);
      }
      var owner := OwnershipDenial(State(), n, dest);
      if owner.Some? {
        return Denied(owner.value);
      }
      if c.None? {
        return Denied(CodeNotFound);
      }
      var row := codes[c.value];
      if row.expiresAt <= now {
        codes := codes[c.value := row.(status := Expired)];
        return Denied(CodeExpired);
      }
      if row.status != Open {
        return Denied(CodeNotActive);
      }
      if row.source == dest {
        return Denied(SelfLink);
      }
      r := ClaimCode(c.value, row.source, row.mode, dest, link, routeIds);
    }

    /** The claiming transaction: mark the code used, check, insert, or roll back. */
    method ClaimCode(c: Id, source: Id, mode: Mode, dest: Id, link: Id, routeIds: (Id, Id)) returns (r: Reply)
      modifies this`codes, this`links, this`routes
      ensures State() == FinishRedeem(old(State()), Claim(c, source, mode, dest), link, routeIds).db
      ensures r == FinishRedeem(old(State()), Claim(c, source, mode, dest), link, routeIds).reply
    {
      if c !in codes || codes[c].status != Open {
        return Denied(CodeNotActive);
      }
      var saved := codes;
      codes := codes[c := codes[c].(status := Used)];
      var denial := LinkDenial(source, mode, dest, link, routeIds);
      assert denial == ClaimDenial(old(State()), Claim(c, source, mode, dest), link, routeIds);
      if denial.Some? {
        codes := saved;
        return Denied(denial.value);
      }
      links := links[link := Link(source, dest, mode, Active)];
      InsertRoutes(ResolveRedeemRoutes(source, dest, mode), link, routeIds);
      r := Linked(link);
    }

    /** Every reason not to insert the link of a claimed code. */
    method LinkDenial(source: Id, mode: Mode, dest: Id, link: Id, routeIds: (Id, Id)) returns (denial: Option<Denial>)
      ensures denial == LinkDenialOf(State(), source, mode, dest, link, routeIds)
    {
      if source !in endpoints {
        return Some(SourceUnavailable);
      }
      if ExactActiveLinkExists(State(), source, dest, mode) {
        return Some(DuplicateLink);
      }
      var pairs := ResolveRedeemRoutes(source, dest, mode);
      var i := 0;
      while i < |pairs|
        invariant 0 <= i <= |pairs|
        invariant forall j :: 0 <= j < i ==> !ActiveRouteExists(State(), pairs[j].0, pairs[j].1)
      {
        if ActiveRouteExists(State(), pairs[i].0, pairs[i].1) {
          return Some(RouteExists);
        }
        i := i + 1;
      }
      if dest !in endpoints || link in links || routeIds.0 in routes ||
         (|pairs| == 2 && (routeIds.1 in routes || routeIds.1 == routeIds.0))
      {
        return Some(IntegrityFailure);
      }
      denial := None;
    }

    method InsertRoutes(pairs: seq<(Id, Id)>, link: Id, routeIds: (Id, Id))
      requires 1 <= |pairs| <= 2
      modifies this`routes
      ensures routes == var one := WithRoute(old(routes), routeIds.0, pairs[0], link);
                        if |pairs| == 1 then one else WithRoute(one, routeIds.1, pairs[1], link)
    {
      var i := 0;
      while i < |pairs|
        invariant 0 <= i <= |pairs|
        invariant i == 0 ==> routes == old(routes)
        invariant i == 1 ==> routes == WithRoute(old(routes), routeIds.0, pairs[0], link)
        invariant i == 2 ==>
                    routes == WithRoute(WithRoute(old(routes), routeIds.0, pairs[0], link), routeIds.1, pairs[1], link)
      {
        var id := if i == 0 then routeIds.0 else routeIds.1;
        routes := routes[id := Route(pairs[i].0, pairs[i].1, Active, Some(link))];
        i := i + 1;
      }
    }

    /** Marks the link and, row by row, the routes it created as revoked. */
    method SeverRows(l: Id)
      requires l in links
      modifies this`links, this`routes
      ensures State() == SeverLink(old(State()), l)
    {
      var todo := set r | r in routes && routes[r].createdBy == Some(l);
      links := links[l := links[l].(status := Revoked)];
      while todo != {}
        invariant forall r :: r in todo ==> r in old(routes) && old(routes)[r].createdBy == Some(l)
        invariant links == old(links)[l := old(links)[l].(status := Revoked)]
        invariant routes == SeveredBut(old(routes), l, todo)
        decreases |todo|
      {
        var r :| r in todo;
        routes := routes[r := routes[r].(status := Revoked)];
        todo := todo - {r};
        assert routes == SeveredBut(old(routes), l, todo);
      }
    }

    method RevokeLink(n: Id, l: Id) returns (r: Reply)
      requires Valid()
      modifies this`links, this`routes
      ensures Valid() && State() == RelaySpec.RevokeLink(old(State()), n, l).db
      ensures r == RelaySpec.RevokeLink(old(State()), n, l).reply
    {
      if !NodeActive(State(), n) {
        return Denied(NodeInactive);
      }
      if l !in links {
        return Denied(LinkNotFound);
      }
      var mine := OwnedEndpoints(State(), n);
      if links[l].a !in mine && links[l].b !in mine {
        return Denied(LinkNotVisible);
      }
      SeverLinkKeepsInv(State(), l);
      SeverRows(l);
      r := Done;
    }

    method AdminRevokeLink(l: Id) returns (r: Reply)
      modifies this`links, this`routes
      ensures old(Valid()) ==> Valid()
      ensures State() == RelaySpec.AdminRevokeLink(old(State()), l).db
      ensures r == RelaySpec.AdminRevokeLink(old(State()), l).reply
    {
      if l !in links {
        return Denied(LinkNotFound);
      }
      if Valid() {
        SeverLinkKeepsInv(State(), l);
      }
      SeverRows(l);
      r := Done;
    }

    // --------------------------------------------------------------- sending

    /** `SUM(payload_bytes)` over the deliveries a query selects. */
    method SumPayloads(ds: set<Id>) returns (total: nat)
      ensures total == TotalBytes(State(), ds)
    {
      total := 0;
      var rest := ds;
      while rest != {}
        invariant rest <= ds && total + TotalBytes(State(), rest) == TotalBytes(State(), ds)
        decreases |rest|
      {
        var d :| d in rest;
        TotalBytesRemove(State(), rest, d);
        total := total + Payload(State(), d);
        rest := rest - {d};
      }
    }

    method EnforceSendRateLimit(n: Id, now: int, s: Settings) returns (denial: Option<Denial>)
      ensures denial == RateDenial(State(), n, now, s)
      ensures LogIsPast(events, now) && WindowsBounded(events, s) ==>
                forall id: Id :: id !in events ==> (denial.None? <==> WindowsBounded(events[id := Event(n, now)], s))
    {
      if LogIsPast(events, now) && WindowsBounded(events, s) {
        forall id: Id | id !in events
          ensures RateDenial(State(), n, now, s).None? <==> WindowsBounded(events[id := Event(n, now)], s)
        {
          DenialMeansOverfullWindow(State(), n, now, s, id);
        }
      }
      var floor := now - s.windowSeconds;
      var count := |RecentSends(State(), n, floor)|;
      denial := if count >= s.maxSends then Some(RateLimited) else None;
    }

    method EnforceQueueLimits(e: Id, n: Id, bytes: nat, now: int, s: Settings, storage: nat)
      returns (denial: Option<Denial>)
      ensures denial == CapDenial(State(), e, n, bytes, now, s, storage)
    {
      var endpointQueue := Queue(State(), OfEndpoint(e), now);
      var endpointBytes := SumPayloads(endpointQueue);
      if |endpointQueue| >= s.maxEndpointPackets {
        return Some(EndpointPacketCap);
      }
      if endpointBytes + bytes > s.maxEndpointBytes {
        return Some(EndpointByteCap);
      }
      var nodeBytes := SumPayloads(Queue(State(), OfNode(n), now));
      if nodeBytes + bytes > s.maxNodeBytes {
        return Some(NodeByteCap);
      }
      var all := Queue(State(), Everywhere, now);
      var totalBytes := SumPayloads(all);
      if |all| >= s.maxTotalPackets {
        return Some(TotalPacketCap);
      }
      if totalBytes + bytes > s.maxTotalBytes {
        return Some(TotalByteCap);
      }
      if storage >= s.maxStorageBytes || storage + bytes > s.maxStorageBytes {
        return Some(StorageCap);
      }
      denial := None;
    }

    /** `SELECT ... FROM deliveries WHERE packet_id = ?`. */
    static method FindDelivery(db: Db, p: Id) returns (d: Option<Id>)
      requires Paired(db)
      ensures d == DeliveryOf(db, p)
    {
      var found := set x | x in db.deliveries && db.deliveries[x].packet == p;
      if found == {} {
        assert forall x :: IsDeliveryOf(db, x, p) ==> x in found;
        return None;
      }
      var x :| x in found;
      AckedPacketHasOneDelivery(db, x, p);
      d := Some(x);
    }

    /** The reads of `send_packet` up to the packet lookup. */
    method CheckSender(n: Id, q: SendRequest, s: Settings) returns (denial: Option<Denial>)
      ensures denial == SendGate(State(), n, q, s)
      ensures Valid() ==> (denial.None? <==> MaySend(State(), n, q, s))
      ensures Valid() && denial == Some(NoActiveRoute) ==> !exists l :: ActiveLinkGrants(State(), l, q.from, q.to)
    {
      if Valid() {
        GateFollowsLinks(State(), n, q, s);
      }
      if !NodeActive(State(), n) {
        return Some(NodeInactive);
      }
      denial := OwnershipDenial(State(), n, q.from);
      if denial.Some? {
        return;
      }
      if q.to !in endpoints {
        return Some(DestinationNotFound);
      }
      if !NodeActive(State(), endpoints[q.to].owner) {
        return Some(DestinationNodeInactive);
      }
      if !ActiveRouteExists(State(), q.from, q.to) {
        return Some(NoActiveRoute);
      }
      if q.bytes > s.maxPacketBytes {
        return Some(PacketTooLarge);
      }
    }

    method DeletePackets(dead: set<Id>)
      modifies this`packets, this`deliveries
      ensures State() == DropPackets(old(State()), dead)
    {
      packets := packets - dead;
      deliveries := map d | d in deliveries && deliveries[d].packet !in dead :: deliveries[d];
    }

    /** `send_packet` with no other transaction in between. */
    method SendPacket(n: Id, q: SendRequest, clock: SendClock, s: Settings, storage: nat, ids: (Id, Id))
      returns (r: Reply)
      requires Valid()
      modifies this`packets, this`deliveries, this`events
      ensures Valid()
      ensures State() == SendAlone(old(State()), n, q, clock, s, storage, ids).db
      ensures r == SendAlone(old(State()), n, q, clock, s, storage, ids).reply
    {
      SendAloneKeepsInv(State(), n, q, clock, s, storage, ids);
      var gate := CheckSender(n, q, s);
      if gate.Some? {
        return Denied(gate.value);
      }
      if q.packet in packets && !IsExpired(packets[q.packet], clock.seen) {
        if PacketMatches(packets[q.packet], n, q) {
          var d := FindDelivery(State(), q.packet);
          return Duplicate(q.packet, d, packets[q.packet].expiresAt);
        }
        return Denied(PacketIdConflict);
      }
      var inserted := InsertChecked(n, q, clock, s, storage, ids);
      if inserted.Some? {
        return inserted.value;
      }
      r := LookUpAlone(n, q, clock.stamped);
    }

    /** The rest of the session: delete an expired packet of this id, check the
        limits, insert. Whatever is not committed is rolled back: the tables are
        put back as they were. None is an integrity error. */
    method InsertChecked(n: Id, q: SendRequest, clock: SendClock, s: Settings, storage: nat, ids: (Id, Id))
      returns (r: Option<Reply>)
      requires SendGate(State(), n, q, s).None?
      requires q.packet in packets ==> IsExpired(packets[q.packet], clock.seen)
      modifies this`packets, this`deliveries, this`events
      ensures var decision := CheckSend(old(State()), n, q, clock, s, storage, ids);
              match decision
              case Refuse(why) => r == Some(Denied(why)) && State() == old(State())
              case AlreadyQueued(_, _) => false
              case Insert(t) =>
                if CommitSucceeds(old(State()), t)
                then r == Some(AcceptedReply(t)) && State() == Committed(old(State()), t)
                else r == None && State() == old(State())
    {
      var oldPackets, oldDeliveries := packets, deliveries;
      var purge := q.packet in packets;
      if purge {
        DeletePackets({q.packet});
      }
      assert State() == Purged(old(State()), q.packet, purge);
      var rate := EnforceSendRateLimit(n, clock.rated, s);
      if rate.Some? {
        packets, deliveries := oldPackets, oldDeliveries;
        return Some(Denied(rate.value));
      }
      var cap := EnforceQueueLimits(q.to, endpoints[q.to].owner, q.bytes, clock.sized, s, storage);
      if cap.Some? {
        packets, deliveries := oldPackets, oldDeliveries;
        return Some(Denied(cap.value));
      }
      var t := MakeTicket(State(), n, q, clock, s, ids, purge);
      if InsertOk(State(), t) {
        packets := packets[q.packet := t.packet];
        deliveries := deliveries[ids.0 := t.delivery];
        events := events[ids.1 := t.event];
        return Some(AcceptedReply(t));
      }
      packets, deliveries := oldPackets, oldDeliveries;
      r := None;
    }

    /** The five lookups after an integrity error. Other sessions commit while the
        handler sleeps, so each lookup meets its own tables and clock. */
    static method LookUpAfterCollision(n: Id, q: SendRequest, looks: seq<Look>) returns (r: Reply)
      requires forall i :: 0 <= i < |looks| ==> Paired(looks[i].db)
      ensures forall i :: 0 <= i < |looks| && FirstFinds(looks, i, q.packet) ==>
                LookAgain(looks[i].db, n, q, looks[i].now) == Some(r)
      ensures (forall i :: 0 <= i < |looks| ==> !Finds(looks[i], q.packet)) ==> r == Denied(PacketIdCollision)
    {
      var i := 0;
      while i < |looks|
        invariant 0 <= i <= |looks|
        invariant forall j :: 0 <= j < i ==> !Finds(looks[j], q.packet)
      {
        if Finds(looks[i], q.packet) {
          var packet := looks[i].db.packets[q.packet];
          if PacketMatches(packet, n, q) {
            var d := FindDelivery(looks[i].db, q.packet);
            return Duplicate(q.packet, d, packet.expiresAt);
          }
          return Denied(PacketIdConflict);
        }
        i := i + 1;
      }
      r := Denied(PacketIdCollision);
    }

    /** When nothing is committed in between, the five lookups meet the same tables. */
    method LookUpAlone(n: Id, q: SendRequest, now: int) returns (r: Reply)
      requires Valid()
      ensures var again := LookAgain(State(), n, q, now);
              r == if again.Some? then again.value else Denied(PacketIdCollision)
    {
      var here := Look(State(), now);
      var looks := seq(LOOKUP_TRIES, _ => here);
      r := LookUpAfterCollision(n, q, looks);
      assert Finds(here, q.packet) ==> FirstFinds(looks, 0, q.packet);
    }

    // ---------------------------------------------------------- inbox, upkeep

    method FetchInboxDeliveries(n: Id, limit: nat, now: int) returns (page: seq<Id>)
      ensures IsInboxPage(State(), n, limit, now, page)
    {
      page := Select(InboxKeys(State(), n, now), limit);
    }

    method AckPacket(n: Id, delivery: Option<Id>, packet: Option<Id>, now: int) returns (r: Reply)
      requires Valid()
      modifies this`packets, this`deliveries
      ensures Valid() && State() == Ack(old(State()), n, delivery, packet, now).db
      ensures r == Ack(old(State()), n, delivery, packet, now).reply
    {
      hide RefsOk, RoutesMatchLinks, CodesDistinct, DropPackets;
      AckKeepsInv(State(), n, delivery, packet, now);
      if !NodeActive(State(), n) {
        return Denied(NodeInactive);
      }
      var named: Option<Id> := None;
      if delivery.Some? {
        named := delivery;
      } else if packet.Some? {
        named := FindDelivery(State(), packet.value);
      }
      if named.None? || named.value !in Queue(State(), Everywhere, now) {
        return Denied(DeliveryNotFound);
      }
      if deliveries[named.value].node != n {
        return Denied(DeliveryNotOwned);
      }
      var p := deliveries[named.value].packet;
      deliveries := deliveries - {named.value};
      DeletePackets({p});
      r := Done;
    }

    method ExpireCodes(now: int) returns (count: nat)
      modifies this`codes
      ensures codes == ExpiredCodes(old(codes), now)
      ensures count == |ChangedCodes(old(codes), codes)|
    {
      var stale := set c | c in codes && codes[c].status == Open && codes[c].expiresAt <= now;
      codes := map c | c in codes :: if c in stale then codes[c].(status := Expired) else codes[c];
      assert stale == ChangedCodes(old(codes), codes);
      count := |stale|;
    }

    method DeleteExpiredPackets(now: int) returns (count: nat)
      modifies this`packets, this`deliveries
      ensures packets == DropPackets(old(State()), ExpiredPackets(old(State()), now)).packets
      ensures deliveries == DropPackets(old(State()), ExpiredPackets(old(State()), now)).deliveries
      ensures count == |old(packets)| - |packets|
    {
      var dead := ExpiredPackets(State(), now);
      DeletePackets(dead);
      RemovedSize(old(packets), packets, dead);
      count := |dead|;
    }

    method PruneEvents(floor: int) returns (count: nat)
      modifies this`events
      ensures events == map e | e in old(events) && old(events)[e].createdAt >= floor :: old(events)[e]
      ensures count == |old(events)| - |events|
    {
      var pruned := set e | e in events && events[e].createdAt < floor;
      events := map e | e in events && e !in pruned :: events[e];
      RemovedSize(old(events), events, pruned);
      count := |pruned|;
    }

    method CleanupExpired(now: int, s: Settings) returns (expiredCodes: nat, expiredPackets: nat, oldEvents: nat)
      modifies this`codes, this`packets, this`deliveries, this`events
      ensures old(Valid()) ==> Valid()
      ensures State() == Cleanup(old(State()), now, s)
      ensures expiredPackets == |old(packets)| - |packets| && oldEvents == |old(events)| - |events|
      ensures expiredCodes == |ChangedCodes(old(codes), codes)|
    {
      hide Cleanup, DropPackets, ExpiredCodes, RefsOk, CodesDistinct, Paired, RoutesMatchLinks;
      if Valid() {
        CleanupKeepsInv(State(), now, s);
      }
      CleanupByTable(State(), now, s);
      expiredCodes := ExpireCodes(now);
      ExpiryIgnoresCodes(old(State()), codes, now);
      expiredPackets := DeleteExpiredPackets(now);
      oldEvents := PruneEvents(now - 2 * s.windowSeconds);
      assert State() == Cleanup(old(State()), now, s);
    }
  }
}
