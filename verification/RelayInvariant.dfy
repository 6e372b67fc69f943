/** The inductive invariant that ties the tables together, and its
    preservation by every transaction. */
module RelayInvariant {
  import opened RelayTables
  import opened RelaySpec

  // ------------------------------------------------------------ the invariant

  ghost predicate RefsOk(db: Db) {
    && (forall e :: e in db.endpoints ==> db.endpoints[e].owner in db.nodes)
    && (forall c :: c in db.codes ==> db.codes[c].source in db.endpoints)
    && (forall e :: e in db.events ==> db.events[e].node in db.nodes)
  }

  ghost predicate CodesDistinct(db: Db) {
    forall c, c' :: c in db.codes && c' in db.codes && db.codes[c].text == db.codes[c'].text ==> c == c'
  }

  ghost predicate PacketOk(db: Db, p: Packet) {
    p.from in db.endpoints && p.to in db.endpoints && db.endpoints[p.from].owner == p.sender
  }

  ghost predicate DeliveryOk(db: Db, d: Delivery) {
    && d.packet in db.packets && d.endpoint == db.packets[d.packet].to
    && d.endpoint in db.endpoints && db.endpoints[d.endpoint].owner == d.node
  }

  /** Packets and deliveries are in bijection and the derived columns are right. */
  ghost predicate Paired(db: Db) {
    && (forall p :: p in db.packets ==> PacketOk(db, db.packets[p]))
    && (forall d :: d in db.deliveries ==> DeliveryOk(db, db.deliveries[d]))
    && (forall p :: p in db.packets ==> exists d :: IsDeliveryOf(db, d, p))
    && (forall d, d' :: d in db.deliveries && d' in db.deliveries ==>
          db.deliveries[d].packet == db.deliveries[d'].packet ==> d == d')
  }

  ghost predicate LinkOk(db: Db, l: Link) {
    l.a in db.endpoints && l.b in db.endpoints && l.a != l.b
  }

  ghost predicate RouteOk(db: Db, r: Route) {
    && r.createdBy.Some? && r.createdBy.value in db.links
    && Grants(db.links[r.createdBy.value], r.from, r.to)
    && r.status == db.links[r.createdBy.value].status
  }

  ghost predicate IsRouteOf(db: Db, r: Id, l: Id, from: Id, to: Id) {
    r in db.routes && db.routes[r].createdBy == Some(l) && db.routes[r].from == from && db.routes[r].to == to
  }

  /** Routes are exactly what their links grant, and no two active ones coincide. */
  ghost predicate RoutesMatchLinks(db: Db) {
    && (forall l :: l in db.links ==> LinkOk(db, db.links[l]))
    && (forall r :: r in db.routes ==> RouteOk(db, db.routes[r]))
    && (forall l: Id, from: Id, to: Id :: l in db.links && Grants(db.links[l], from, to) ==>
          exists r :: IsRouteOf(db, r, l, from, to))
    && (forall r: Id, r': Id, from: Id, to: Id ::
          IsActiveRoute(db, r, from, to) && IsActiveRoute(db, r', from, to) ==> r == r')
  }

  ghost predicate Inv(db: Db) {
    RefsOk(db) && CodesDistinct(db) && Paired(db) && RoutesMatchLinks(db)
  }

  lemma GrantsWithinLink(l: Link, from: Id, to: Id)
    requires Grants(l, from, to)
    ensures (from == l.a && to == l.b) || (from == l.b && to == l.a)
  {
  }

  // ------------------------------------------------------- cascading deletes

  lemma DropOwnersKeepsRefs(db: Db, ns: set<Id>, es: set<Id>)
    requires RefsOk(db)
    requires forall e :: e in db.endpoints && db.endpoints[e].owner in ns ==> e in es
    ensures RefsOk(DropOwners(db, ns, es))
  {
  }

  lemma DropOwnersKeepsPairing(db: Db, ns: set<Id>, es: set<Id>)
    requires Paired(db)
    requires forall e :: e in db.endpoints && db.endpoints[e].owner in ns ==> e in es
    ensures Paired(DropOwners(db, ns, es))
  {
    var db' := DropOwners(db, ns, es);
    forall p | p in db'.packets
      ensures exists d :: IsDeliveryOf(db', d, p)
    {
      var d :| IsDeliveryOf(db, d, p);
      assert DeliveryOk(db, db.deliveries[d]) && PacketOk(db, db.packets[p]);
      assert IsDeliveryOf(db', d, p);
    }
    forall d | d in db'.deliveries
      ensures DeliveryOk(db', db'.deliveries[d])
    {
      assert DeliveryOk(db, db.deliveries[d]);
    }
    forall p | p in db'.packets
      ensures PacketOk(db', db'.packets[p])
    {
      assert PacketOk(db, db.packets[p]);
    }
  }

  /** ON DELETE SET NULL never fires on a surviving route: a link goes only with
      one of its endpoints, and its routes go with that endpoint too. */
  lemma SetNullNeverOrphans(db: Db, ns: set<Id>, es: set<Id>, r: Id)
    requires RoutesMatchLinks(db)
    requires r in DropOwners(db, ns, es).routes
    ensures DropOwners(db, ns, es).routes[r] == db.routes[r]
    ensures RouteOk(DropOwners(db, ns, es), db.routes[r])
  {
    assert RouteOk(db, db.routes[r]);
    GrantsWithinLink(db.links[db.routes[r].createdBy.value], db.routes[r].from, db.routes[r].to);
  }

  lemma DropOwnersKeepsRoutes(db: Db, ns: set<Id>, es: set<Id>)
    requires RoutesMatchLinks(db)
    ensures RoutesMatchLinks(DropOwners(db, ns, es))
  {
    var db' := DropOwners(db, ns, es);
    forall r | r in db'.routes
      ensures RouteOk(db', db'.routes[r]) && db'.routes[r] == db.routes[r]
    {
      SetNullNeverOrphans(db, ns, es, r);
    }
    forall l | l in db'.links
      ensures LinkOk(db', db'.links[l])
    {
      assert LinkOk(db, db.links[l]);
    }
    forall l: Id, from: Id, to: Id | l in db'.links && Grants(db'.links[l], from, to)
      ensures exists r :: IsRouteOf(db', r, l, from, to)
    {
      var r :| IsRouteOf(db, r, l, from, to);
      GrantsWithinLink(db.links[l], from, to);
      assert IsRouteOf(db', r, l, from, to);
    }
    forall r: Id, r': Id, from: Id, to: Id | IsActiveRoute(db', r, from, to) && IsActiveRoute(db', r', from, to)
      ensures r == r'
    {
      assert IsActiveRoute(db, r, from, to) && IsActiveRoute(db, r', from, to);
    }
  }

  lemma DropOwnersKeepsInv(db: Db, ns: set<Id>, es: set<Id>)
    requires Inv(db)
    requires forall e :: e in db.endpoints && db.endpoints[e].owner in ns ==> e in es
    ensures Inv(DropOwners(db, ns, es))
  {
    DropOwnersKeepsRefs(db, ns, es);
    DropOwnersKeepsPairing(db, ns, es);
    DropOwnersKeepsRoutes(db, ns, es);
  }

  lemma DropPacketsKeepsPairing(db: Db, dead: set<Id>)
    requires Paired(db)
    ensures Paired(DropPackets(db, dead))
  {
    var db' := DropPackets(db, dead);
    forall p | p in db'.packets
      ensures exists d :: IsDeliveryOf(db', d, p)
    {
      var d :| IsDeliveryOf(db, d, p);
      assert IsDeliveryOf(db', d, p);
    }
    forall d | d in db'.deliveries
      ensures DeliveryOk(db', db'.deliveries[d])
    {
      assert DeliveryOk(db, db.deliveries[d]);
    }
    assert forall p :: p in db'.packets ==> PacketOk(db, db.packets[p]);
  }

  /** Tables that routes and links do not mention can change freely. */
  lemma RoutesDependOnFewTables(db: Db, db': Db)
    requires RoutesMatchLinks(db)
    requires db'.links == db.links && db'.routes == db.routes
    requires db.endpoints.Keys <= db'.endpoints.Keys
    ensures RoutesMatchLinks(db')
  {
    forall l | l in db'.links
      ensures LinkOk(db', db'.links[l])
    {
      assert LinkOk(db, db.links[l]);
    }
    forall r | r in db'.routes
      ensures RouteOk(db', db'.routes[r])
    {
      assert RouteOk(db, db.routes[r]);
    }
    forall l: Id, from: Id, to: Id | l in db'.links && Grants(db'.links[l], from, to)
      ensures exists r :: IsRouteOf(db', r, l, from, to)
    {
      var r :| IsRouteOf(db, r, l, from, to);
      assert IsRouteOf(db', r, l, from, to);
    }
    forall r: Id, r': Id, from: Id, to: Id | IsActiveRoute(db', r, from, to) && IsActiveRoute(db', r', from, to)
      ensures r == r'
    {
      assert IsActiveRoute(db, r, from, to) && IsActiveRoute(db, r', from, to);
    }
  }

  /** Pairing survives when endpoints are only added. */
  lemma PairingDependsOnFewTables(db: Db, db': Db)
    requires Paired(db)
    requires db'.packets == db.packets && db'.deliveries == db.deliveries
    requires forall e :: e in db.endpoints ==> e in db'.endpoints && db'.endpoints[e] == db.endpoints[e]
    ensures Paired(db')
  {
    forall p | p in db'.packets
      ensures PacketOk(db', db'.packets[p]) && exists d :: IsDeliveryOf(db', d, p)
    {
      assert PacketOk(db, db.packets[p]);
      var d :| IsDeliveryOf(db, d, p);
      assert IsDeliveryOf(db', d, p);
    }
    forall d | d in db'.deliveries
      ensures DeliveryOk(db', db'.deliveries[d])
    {
      assert DeliveryOk(db, db.deliveries[d]);
    }
  }

  lemma DropPacketsKeepsInv(db: Db, dead: set<Id>)
    requires Inv(db)
    ensures Inv(DropPackets(db, dead))
  {
    DropPacketsKeepsPairing(db, dead);
    RoutesDependOnFewTables(db, DropPackets(db, dead));
  }

  ghost predicate OwnersGrow(db: Db, db': Db) {
    && db'.links == db.links && db'.routes == db.routes && db'.codes == db.codes
    && db'.packets == db.packets && db'.deliveries == db.deliveries && db'.events == db.events
    && db.nodes.Keys <= db'.nodes.Keys
    && (forall e :: e in db.endpoints ==> e in db'.endpoints && db'.endpoints[e] == db.endpoints[e])
    && (forall e :: e in db'.endpoints && e !in db.endpoints ==> db'.endpoints[e].owner in db'.nodes)
  }

  lemma GrowingOwnersKeepsRefs(db: Db, db': Db)
    requires RefsOk(db) && OwnersGrow(db, db')
    ensures RefsOk(db')
  {
  }

  /** New nodes and endpoints, and node updates, leave the invariant alone. */
  lemma GrowingOwnersKeepsInv(db: Db, db': Db)
    requires Inv(db) && OwnersGrow(db, db')
    ensures Inv(db')
  {
    PairingDependsOnFewTables(db, db');
    RoutesDependOnFewTables(db, db');
    GrowingOwnersKeepsRefs(db, db');
  }

  lemma NewRowsGrow(db: Db, nodes: map<Id, Node>, endpoints: map<Id, Endpoint>)
    requires db.nodes.Keys <= nodes.Keys
    requires forall e :: e in db.endpoints ==> e in endpoints && endpoints[e] == db.endpoints[e]
    requires forall e :: e in endpoints && e !in db.endpoints ==> endpoints[e].owner in nodes
    ensures OwnersGrow(db, db.(nodes := nodes, endpoints := endpoints))
  {
  }

  // ------------------------------------------------------------ transactions

  lemma RegisterKeepsInv(db: Db, n: Id, e: Id, key: nat)
    requires Inv(db)
    ensures Inv(Register(db, n, e, key).db)
  {
    var o := Register(db, n, e, key);
    if o.reply == Done {
      NewRowsGrow(db, o.db.nodes, o.db.endpoints);
      GrowingOwnersKeepsInv(db, o.db);
    }
  }

  lemma NodeUpdateKeepsInv(db: Db, n: Id, row: Node)
    requires Inv(db) && n in db.nodes
    ensures Inv(db.(nodes := db.nodes[n := row]))
  {
    GrowingOwnersKeepsInv(db, db.(nodes := db.nodes[n := row]));
  }

  lemma DeleteIdentityKeepsInv(db: Db, n: Id)
    requires Inv(db)
    ensures Inv(DeleteIdentity(db, n).db)
  {
    DropOwnersKeepsInv(db, {n}, OwnedEndpoints(db, n));
  }

  lemma CreateEndpointKeepsInv(db: Db, n: Id, e: Id, name: Option<string>)
    requires Inv(db)
    ensures Inv(CreateEndpoint(db, n, e, name).db)
  {
    var o := CreateEndpoint(db, n, e, name);
    if o.reply == Done {
      NewRowsGrow(db, db.nodes, o.db.endpoints);
      GrowingOwnersKeepsInv(db, o.db);
    }
  }

  lemma DeleteEndpointKeepsInv(db: Db, n: Id, e: Id, now: int)
    requires Inv(db)
    ensures Inv(DeleteEndpoint(db, n, e, now).db)
  {
    DropOwnersKeepsInv(db, {}, {e});
  }

  lemma FirstFreeCodeIsFree(db: Db, candidates: seq<string>)
    ensures var r := FirstFreeCode(db, candidates);
            r.Some? ==> r.value in candidates && !CodeTextTaken(db, r.value)
  {
  }

  lemma NewCodeKeepsRefs(db: Db, c: Id, row: Code)
    requires RefsOk(db) && CodesDistinct(db)
    requires c !in db.codes && row.source in db.endpoints && !CodeTextTaken(db, row.text)
    ensures RefsOk(db.(codes := db.codes[c := row])) && CodesDistinct(db.(codes := db.codes[c := row]))
  {
  }

  lemma RequestLinkCodeKeepsInv(
    db: Db, n: Id, source: Id, mode: Mode, c: Id, candidates: seq<string>, expiresAt: int)
    requires Inv(db)
    ensures Inv(RequestLinkCode(db, n, source, mode, c, candidates, expiresAt).db)
  {
    var o := RequestLinkCode(db, n, source, mode, c, candidates, expiresAt);
    FirstFreeCodeIsFree(db, candidates);
    if o.reply == Done {
      NewCodeKeepsRefs(db, c, o.db.codes[c]);
      PairingDependsOnFewTables(db, o.db);
      RoutesDependOnFewTables(db, o.db);
    }
  }

  lemma CodeUpdateKeepsInv(db: Db, codes: map<Id, Code>)
    requires Inv(db)
    requires codes.Keys == db.codes.Keys
    requires forall c :: c in codes ==> codes[c].text == db.codes[c].text && codes[c].source == db.codes[c].source
    ensures Inv(db.(codes := codes))
  {
    PairingDependsOnFewTables(db, db.(codes := codes));
    RoutesDependOnFewTables(db, db.(codes := codes));
  }

  ghost predicate TicketSane(t: RedeemTicket) {
    t.Claim? ==> t.source != t.dest
  }

  lemma InsertLinkRowsOk(db: Db, t: RedeemTicket, link: Id, ids: (Id, Id))
    requires RoutesMatchLinks(db)
    requires t.Claim? && TicketSane(t) && ClaimDenial(db, t, link, ids).None?
    ensures var db' := InsertLink(db, t, link, ids);
            (forall l :: l in db'.links ==> LinkOk(db', db'.links[l])) &&
            (forall r :: r in db'.routes ==> RouteOk(db', db'.routes[r]))
  {
    var db' := InsertLink(db, t, link, ids);
    forall r | r in db'.routes
      ensures RouteOk(db', db'.routes[r])
    {
      if r in db.routes {
        assert RouteOk(db, db.routes[r]);
      }
    }
    forall l | l in db'.links
      ensures LinkOk(db', db'.links[l])
    {
      if l in db.links {
        assert LinkOk(db, db.links[l]);
      }
    }
  }

  lemma InsertLinkCoversGrants(db: Db, t: RedeemTicket, link: Id, ids: (Id, Id), l: Id, from: Id, to: Id)
    requires RoutesMatchLinks(db)
    requires t.Claim? && TicketSane(t) && ClaimDenial(db, t, link, ids).None?
    requires l in InsertLink(db, t, link, ids).links && Grants(InsertLink(db, t, link, ids).links[l], from, to)
    ensures exists r :: IsRouteOf(InsertLink(db, t, link, ids), r, l, from, to)
  {
    var db' := InsertLink(db, t, link, ids);
    if l != link {
      var r :| IsRouteOf(db, r, l, from, to);
      assert IsRouteOf(db', r, l, from, to);
    } else if (from, to) == ResolveRedeemRoutes(t.source, t.dest, t.mode)[0] {
      assert IsRouteOf(db', ids.0, l, from, to);
    } else {
      assert IsRouteOf(db', ids.1, l, from, to);
    }
  }

  lemma InsertLinkKeepsRoutes(db: Db, t: RedeemTicket, link: Id, ids: (Id, Id))
    requires RoutesMatchLinks(db)
    requires t.Claim? && TicketSane(t) && ClaimDenial(db, t, link, ids).None?
    ensures RoutesMatchLinks(InsertLink(db, t, link, ids))
  {
    var db' := InsertLink(db, t, link, ids);
    InsertLinkRowsOk(db, t, link, ids);
    forall l: Id, from: Id, to: Id | l in db'.links && Grants(db'.links[l], from, to)
      ensures exists r :: IsRouteOf(db', r, l, from, to)
    {
      InsertLinkCoversGrants(db, t, link, ids, l, from, to);
    }
    forall r: Id, r': Id, from: Id, to: Id | IsActiveRoute(db', r, from, to) && IsActiveRoute(db', r', from, to)
      ensures r == r'
    {
      InsertLinkKeepsUnique(db, t, link, ids, r, r', from, to);
    }
  }

  lemma InsertLinkKeepsUnique(
    db: Db, t: RedeemTicket, link: Id, ids: (Id, Id), r: Id, r': Id, from: Id, to: Id)
    requires RoutesMatchLinks(db)
    requires t.Claim? && TicketSane(t) && ClaimDenial(db, t, link, ids).None?
    requires var db' := InsertLink(db, t, link, ids);
             IsActiveRoute(db', r, from, to) && IsActiveRoute(db', r', from, to)
    ensures r == r'
  {
    hide LinkOk, RouteOk, Grants;
    var pairs := ResolveRedeemRoutes(t.source, t.dest, t.mode);
    assert forall i :: 0 <= i < |pairs| ==> !ActiveRouteExists(db, pairs[i].0, pairs[i].1);
    assert r in db.routes ==> IsActiveRoute(db, r, from, to);
    assert r' in db.routes ==> IsActiveRoute(db, r', from, to);
    if r in db.routes || r' in db.routes {
      assert ActiveRouteExists(db, from, to);
    }
  }

  lemma InsertLinkKeepsRefs(db: Db, t: RedeemTicket, link: Id, ids: (Id, Id))
    requires RefsOk(db) && CodesDistinct(db) && t.Claim? && t.code in db.codes
    ensures RefsOk(InsertLink(db, t, link, ids)) && CodesDistinct(InsertLink(db, t, link, ids))
  {
    var db' := InsertLink(db, t, link, ids);
    assert db'.codes.Keys == db.codes.Keys;
    assert forall c :: c in db.codes ==>
             db'.codes[c].text == db.codes[c].text && db'.codes[c].source == db.codes[c].source;
  }

  lemma FinishRedeemKeepsInv(db: Db, t: RedeemTicket, link: Id, ids: (Id, Id))
    requires Inv(db) && TicketSane(t)
    ensures Inv(FinishRedeem(db, t, link, ids).db)
  {
    var db' := FinishRedeem(db, t, link, ids).db;
    if t.Claim? && ClaimDenial(db, t, link, ids).None? {
      PairingDependsOnFewTables(db, db');
      InsertLinkKeepsRoutes(db, t, link, ids);
      InsertLinkKeepsRefs(db, t, link, ids);
    } else if t.Expire? && t.code in db.codes {
      CodeUpdateKeepsInv(db, db'.codes);
    }
  }

  lemma SeverLinkKeepsRoutes(db: Db, l: Id)
    requires RoutesMatchLinks(db) && l in db.links
    ensures RoutesMatchLinks(SeverLink(db, l))
  {
    var db' := SeverLink(db, l);
    forall r | r in db'.routes
      ensures RouteOk(db', db'.routes[r])
    {
      assert RouteOk(db, db.routes[r]);
    }
    forall k | k in db'.links
      ensures LinkOk(db', db'.links[k])
    {
      assert LinkOk(db, db.links[k]);
    }
    forall k: Id, from: Id, to: Id | k in db'.links && Grants(db'.links[k], from, to)
      ensures exists r :: IsRouteOf(db', r, k, from, to)
    {
      assert Grants(db.links[k], from, to);
      var r :| IsRouteOf(db, r, k, from, to);
      assert IsRouteOf(db', r, k, from, to);
    }
    forall r: Id, r': Id, from: Id, to: Id | IsActiveRoute(db', r, from, to) && IsActiveRoute(db', r', from, to)
      ensures r == r'
    {
      assert IsActiveRoute(db, r, from, to) && IsActiveRoute(db, r', from, to);
    }
  }

  lemma SeverLinkKeepsInv(db: Db, l: Id)
    requires Inv(db) && l in db.links
    ensures Inv(SeverLink(db, l))
  {
    hide Paired, RoutesMatchLinks;
    PairingDependsOnFewTables(db, SeverLink(db, l));
    SeverLinkKeepsRoutes(db, l);
  }

  /** What a send ticket must still satisfy when it commits. */
  ghost predicate TicketFits(db: Db, t: SendTicket) {
    && t.delivery.packet == t.request.packet && t.delivery.endpoint == t.packet.to == t.request.to
    && t.packet.from == t.request.from && t.event.node == t.packet.sender
    && t.packet.expiresAt == PacketExpiry(t.packet.createdAt, t.settings, t.request.ttl)
    && (t.packet.from in db.endpoints ==> db.endpoints[t.packet.from].owner == t.packet.sender)
    && (t.packet.to in db.endpoints ==> db.endpoints[t.packet.to].owner == t.delivery.node)
  }

  lemma InsertPacketKeepsPairing(db: Db, t: SendTicket)
    requires Paired(db) && TicketFits(db, t) && InsertOk(db, t)
    ensures Paired(InsertPacket(db, t))
  {
    var db' := InsertPacket(db, t);
    forall p | p in db'.packets
      ensures PacketOk(db', db'.packets[p]) && exists d :: IsDeliveryOf(db', d, p)
    {
      if p == t.request.packet {
        assert IsDeliveryOf(db', t.deliveryId, p);
      } else {
        assert PacketOk(db, db.packets[p]);
        var d :| IsDeliveryOf(db, d, p);
        assert IsDeliveryOf(db', d, p);
      }
    }
    forall d | d in db'.deliveries
      ensures DeliveryOk(db', db'.deliveries[d])
    {
      if d != t.deliveryId {
        assert DeliveryOk(db, db.deliveries[d]);
      }
    }
  }

  lemma InsertPacketKeepsInv(db: Db, t: SendTicket)
    requires Inv(db) && TicketFits(db, t) && InsertOk(db, t)
    ensures Inv(InsertPacket(db, t))
  {
    hide Paired, RoutesMatchLinks;
    InsertPacketKeepsPairing(db, t);
    RoutesDependOnFewTables(db, InsertPacket(db, t));
  }

  lemma CommitKeepsInv(db: Db, t: SendTicket)
    requires Inv(db) && TicketFits(db, t) && CommitSucceeds(db, t)
    ensures Inv(Committed(db, t))
  {
    if t.purge {
      DropPacketsKeepsInv(db, {t.request.packet});
    }
    InsertPacketKeepsInv(Purged(db, t.request.packet, t.purge), t);
  }

  /** A ticket that a check has just issued fits the tables it was issued from. */
  lemma IssuedTicketFits(
    db: Db, n: Id, q: SendRequest, clock: SendClock, s: Settings, storage: nat, ids: (Id, Id))
    requires CheckSend(db, n, q, clock, s, storage, ids).Insert?
    ensures TicketFits(db, CheckSend(db, n, q, clock, s, storage, ids).ticket)
  {
  }

  lemma SendAloneKeepsInv(
    db: Db, n: Id, q: SendRequest, clock: SendClock, s: Settings, storage: nat, ids: (Id, Id))
    requires Inv(db)
    ensures Inv(SendAlone(db, n, q, clock, s, storage, ids).db)
  {
    var r := CheckSend(db, n, q, clock, s, storage, ids);
    if r.Insert? && CommitSucceeds(db, r.ticket) {
      IssuedTicketFits(db, n, q, clock, s, storage, ids);
      CommitKeepsInv(db, r.ticket);
    }
  }

  /** Under the invariant the explicit delete of the acked delivery and the
      cascade from its packet remove the same row. */
  lemma AckDropsOnePacket(db: Db, d: Id)
    requires Paired(db) && d in db.deliveries
    ensures var p := db.deliveries[d].packet;
            DropPackets(db.(deliveries := db.deliveries - {d}), {p}) == DropPackets(db, {p})
  {
    var p := db.deliveries[d].packet;
    assert DropPackets(db.(deliveries := db.deliveries - {d}), {p}).deliveries == DropPackets(db, {p}).deliveries;
  }

  lemma AckKeepsInv(db: Db, n: Id, delivery: Option<Id>, packet: Option<Id>, now: int)
    requires Inv(db)
    ensures Inv(Ack(db, n, delivery, packet, now).db)
  {
    var target := AckTarget(db, delivery, packet, now);
    if target.Some? {
      AckDropsOnePacket(db, target.value);
      DropPacketsKeepsInv(db, {db.deliveries[target.value].packet});
    }
  }

  lemma RemovalKeepsInv(db: Db, r: Removal)
    requires Inv(db)
    requires r.DropAcked? && r.delivery in db.deliveries ==> db.deliveries[r.delivery].packet == r.packet
    ensures Inv(FinishRemoval(db, r))
  {
    match r
    case DropEndpoint(e) => DropOwnersKeepsInv(db, {}, {e});
    case DropAcked(d, p) =>
      if d in db.deliveries {
        AckDropsOnePacket(db, d);
      } else {
        assert db.deliveries - {d} == db.deliveries;
      }
      DropPacketsKeepsInv(db, {p});
  }

  lemma CleanupKeepsInv(db: Db, now: int, s: Settings)
    requires Inv(db)
    ensures Inv(Cleanup(db, now, s))
  {
    var db1 := DropPackets(db, ExpiredPackets(db, now));
    DropPacketsKeepsInv(db, ExpiredPackets(db, now));
    var db' := Cleanup(db, now, s);
    CodeUpdateKeepsInv(db1, db'.codes);
    PairingDependsOnFewTables(db1, db');
    RoutesDependOnFewTables(db1, db');
  }
}
