/** What each database transaction of the request handlers does, as functions
    from the old tables to the new tables and the reply. A handler that reads
    first and writes later is two functions, with a ticket carrying what it read. */
module RelaySpec {
  import opened RelayTables

  datatype Settings = Settings(
    windowSeconds: nat, maxSends: nat, maxPacketBytes: nat,
    maxEndpointPackets: nat, maxEndpointBytes: nat, maxNodeBytes: nat,
    maxTotalPackets: nat, maxTotalBytes: nat, maxStorageBytes: nat,
    noExpiry: bool, defaultTtl: nat)

  datatype Denial =
    | NodeInactive | EndpointNotFound | EndpointNotOwned | DestinationNotFound | DestinationNodeInactive
    | NoActiveRoute | PacketTooLarge | PacketIdConflict | RateLimited | EndpointPacketCap | EndpointByteCap
    | NodeByteCap | TotalPacketCap | TotalByteCap | StorageCap | PacketIdCollision | DeliveryNotFound
    | DeliveryNotOwned | DefaultEndpoint | EndpointInUse | CodeAllocationFailed | CodeNotFound | CodeExpired
    | CodeNotActive | SelfLink | SourceUnavailable | DuplicateLink | RouteExists | LinkNotFound | LinkNotVisible
    | IntegrityFailure

  datatype DeleteCounts = DeleteCounts(
    endpoints: nat, links: nat, routes: nat, codes: nat, packets: nat, deliveries: nat, events: nat)

  datatype Reply =
    | Done
    | Denied(why: Denial)
    | Accepted(packet: Id, delivery: Id, expiresAt: Option<int>)
    | Duplicate(packet: Id, queued: Option<Id>, expiresAt: Option<int>)
    | Linked(link: Id)
    | Removed(counts: DeleteCounts)
    | InProgress

  datatype Outcome = Outcome(db: Db, reply: Reply)

  // ---------------------------------------------------------------- identity

  function Register(db: Db, n: Id, e: Id, key: nat): (o: Outcome) {
    if n in db.nodes || e in db.endpoints then Outcome(db, Denied(IntegrityFailure))
    else Outcome(db.(nodes := db.nodes[n := Node(key, Active)],
                     endpoints := db.endpoints[e := Endpoint(n, Some("default"))]), Done)
  }

  function RotateKey(db: Db, n: Id, key: nat): (o: Outcome) {
    if !NodeActive(db, n) then Outcome(db, Denied(NodeInactive))
    else Outcome(db.(nodes := db.nodes[n := db.nodes[n].(key := key)]), Done)
  }

  function SetNodeStatus(db: Db, n: Id, status: Status): (o: Outcome) {
    if n !in db.nodes then Outcome(db, Denied(NodeInactive))
    else Outcome(db.(nodes := db.nodes[n := db.nodes[n].(status := status)]), Done)
  }

  function LinksTouching(db: Db, es: set<Id>): set<Id> {
    set l | l in db.links && (db.links[l].a in es || db.links[l].b in es)
  }

  function RoutesTouching(db: Db, es: set<Id>): set<Id> {
    set r | r in db.routes && (db.routes[r].from in es || db.routes[r].to in es)
  }

  function CodesFrom(db: Db, es: set<Id>): set<Id> {
    set c | c in db.codes && db.codes[c].source in es
  }

  function PacketsTouching(db: Db, n: Id, es: set<Id>): set<Id> {
    set p | p in db.packets && (db.packets[p].sender == n || db.packets[p].from in es || db.packets[p].to in es)
  }

  function DeliveriesInto(db: Db, n: Id, es: set<Id>): set<Id> {
    set d | d in db.deliveries && (db.deliveries[d].node == n || db.deliveries[d].endpoint in es)
  }

  function EventsOf(db: Db, n: Id): set<Id> {
    set e | e in db.events && db.events[e].node == n
  }

  /** The figures `delete_identity` reports, read before the delete. */
  function IdentityCounts(db: Db, n: Id): DeleteCounts {
    var es := OwnedEndpoints(db, n);
    DeleteCounts(
      |es|, |LinksTouching(db, es)|, |RoutesTouching(db, es)|, |CodesFrom(db, es)|,
      |PacketsTouching(db, n, es)|, |DeliveriesInto(db, n, es)|, |EventsOf(db, n)|)
  }

  function DeleteIdentity(db: Db, n: Id): (o: Outcome) {
    if !NodeActive(db, n) then Outcome(db, Denied(NodeInactive))
    else Outcome(DropOwners(db, {n}, OwnedEndpoints(db, n)), Removed(IdentityCounts(db, n)))
  }

  // --------------------------------------------------------------- endpoints

  /** The two 4xx answers of `ensure_node_owns_endpoint`. */
  function OwnershipDenial(db: Db, n: Id, e: Id): Option<Denial> {
    if e !in db.endpoints then Some(EndpointNotFound)
    else if db.endpoints[e].owner != n then Some(EndpointNotOwned)
    else None
  }

  function CreateEndpoint(db: Db, n: Id, e: Id, name: Option<string>): (o: Outcome) {
    if !NodeActive(db, n) then Outcome(db, Denied(NodeInactive))
    else if e in db.endpoints then Outcome(db, Denied(IntegrityFailure))
    else Outcome(db.(endpoints := db.endpoints[e := Endpoint(n, name)]), Done)
  }

  predicate HasActiveLink(db: Db, e: Id) {
    exists l :: l in db.links && db.links[l].status == Active && (db.links[l].a == e || db.links[l].b == e)
  }

  function EndpointDeleteDenial(db: Db, n: Id, e: Id, now: int): Option<Denial> {
    if !NodeActive(db, n) then Some(NodeInactive)
    else if OwnershipDenial(db, n, e).Some? then OwnershipDenial(db, n, e)
    else if db.endpoints[e].name == Some("default") then Some(DefaultEndpoint)
    else if HasActiveLink(db, e) || Queue(db, OfEndpoint(e), now) != {} then Some(EndpointInUse)
    else None
  }

  function DeleteEndpoint(db: Db, n: Id, e: Id, now: int): (o: Outcome) {
    var denial := EndpointDeleteDenial(db, n, e, now);
    if denial.Some? then Outcome(db, Denied(denial.value)) else Outcome(DropOwners(db, {}, {e}), Done)
  }

  // ------------------------------------------------------------------- links

  predicate CodeTextTaken(db: Db, text: string) {
    exists c :: c in db.codes && db.codes[c].text == text
  }

  /** The first of at most twenty random candidates that is not in use. */
  function FirstFreeCode(db: Db, candidates: seq<string>): Option<string> {
    if candidates == [] then None
    else if !CodeTextTaken(db, candidates[0]) then Some(candidates[0])
    else FirstFreeCode(db, candidates[1..])
  }

  function RequestLinkCode(
    db: Db, n: Id, source: Id, mode: Mode, c: Id, candidates: seq<string>, expiresAt: int): (o: Outcome)
  {
    if !NodeActive(db, n) then Outcome(db, Denied(NodeInactive))
    else if OwnershipDenial(db, n, source).Some? then Outcome(db, Denied(OwnershipDenial(db, n, source).value))
    else
      var text := FirstFreeCode(db, candidates);
      if text.None? then Outcome(db, Denied(CodeAllocationFailed))
      else if c in db.codes then Outcome(db, Denied(IntegrityFailure))
      else Outcome(db.(codes := db.codes[c := Code(text.value, source, mode, expiresAt, Open)]), Done)
  }

  datatype RedeemTicket = Claim(code: Id, source: Id, mode: Mode, dest: Id) | Expire(code: Id, readAt: int)

  datatype RedeemRead = ReadDenied(why: Denial) | Proceed(ticket: RedeemTicket)

  predicate IsCodeWithText(db: Db, c: Id, text: string) {
    c in db.codes && db.codes[c].text == text
  }

  /** The reads of `redeem_link_code` before its first write, given the row `c`
      that the lookup by code text returned. */
  function ReadForRedeem(db: Db, n: Id, c: Option<Id>, dest: Id, now: int): (r: RedeemRead)
    requires c.Some? ==> c.value in db.codes
  {
    if !NodeActive(db, n) then ReadDenied(NodeInactive)
    else if OwnershipDenial(db, n, dest).Some? then ReadDenied(OwnershipDenial(db, n, dest).value)
    else if c.None? then ReadDenied(CodeNotFound)
    else
      var row := db.codes[c.value];
      if row.expiresAt <= now then Proceed(Expire(c.value, now))
      else if row.status != Open then ReadDenied(CodeNotActive)
      else if row.source == dest then ReadDenied(SelfLink)
      else Proceed(Claim(c.value, row.source, row.mode, dest))
  }

  /** Why the link of a claimed code cannot be inserted, checked in this order. */
  function LinkDenialOf(db: Db, source: Id, mode: Mode, dest: Id, link: Id, routeIds: (Id, Id)): Option<Denial> {
    var pairs := ResolveRedeemRoutes(source, dest, mode);
    if source !in db.endpoints then Some(SourceUnavailable)
    else if ExactActiveLinkExists(db, source, dest, mode) then Some(DuplicateLink)
    else if exists i :: 0 <= i < |pairs| && ActiveRouteExists(db, pairs[i].0, pairs[i].1) then Some(RouteExists)
    else if dest !in db.endpoints || link in db.links || routeIds.0 in db.routes ||
            (|pairs| == 2 && (routeIds.1 in db.routes || routeIds.1 == routeIds.0)) then Some(IntegrityFailure)
    else None
  }

  function ClaimDenial(db: Db, t: RedeemTicket, link: Id, routeIds: (Id, Id)): Option<Denial>
    requires t.Claim?
  {
    if t.code !in db.codes || db.codes[t.code].status != Open then Some(CodeNotActive)
    else LinkDenialOf(db, t.source, t.mode, t.dest, link, routeIds)
  }

  function NewRoute(pair: (Id, Id), link: Id): Route {
    Route(pair.0, pair.1, Active, Some(link))
  }

  function InsertLink(db: Db, t: RedeemTicket, link: Id, routeIds: (Id, Id)): Db
    requires t.Claim? && t.code in db.codes
  {
    var pairs := ResolveRedeemRoutes(t.source, t.dest, t.mode);
    var routes := db.routes[routeIds.0 := NewRoute(pairs[0], link)];
    db.(codes := db.codes[t.code := db.codes[t.code].(status := Used)],
        links := db.links[link := Link(t.source, t.dest, t.mode, Active)],
        routes := if |pairs| == 1 then routes else routes[routeIds.1 := NewRoute(pairs[1], link)])
  }

  /** The single writing transaction of a redeem: either the code is marked
      expired, or it is claimed, checked and turned into a link. */
  function FinishRedeem(db: Db, t: RedeemTicket, link: Id, routeIds: (Id, Id)): (o: Outcome) {
    match t
    case Expire(c, _) =>
      if c !in db.codes then Outcome(db, Denied(IntegrityFailure))
      else Outcome(db.(codes := db.codes[c := db.codes[c].(status := Expired)]), Denied(CodeExpired))
    case Claim(_, _, _, _) =>
      var denial := ClaimDenial(db, t, link, routeIds);
      if denial.Some? then Outcome(db, Denied(denial.value))
      else Outcome(InsertLink(db, t, link, routeIds), Linked(link))
  }

  function SeverLink(db: Db, l: Id): Db
    requires l in db.links
  {
    db.(links := db.links[l := db.links[l].(status := Revoked)],
        routes := map r | r in db.routes ::
          if db.routes[r].createdBy == Some(l) then db.routes[r].(status := Revoked) else db.routes[r])
  }

  function RevokeLink(db: Db, n: Id, l: Id): (o: Outcome) {
    if !NodeActive(db, n) then Outcome(db, Denied(NodeInactive))
    else if l !in db.links then Outcome(db, Denied(LinkNotFound))
    else if !Owns(db, n, db.links[l].a) && !Owns(db, n, db.links[l].b) then Outcome(db, Denied(LinkNotVisible))
    else Outcome(SeverLink(db, l), Done)
  }

  function AdminRevokeLink(db: Db, l: Id): (o: Outcome) {
    if l !in db.links then Outcome(db, Denied(LinkNotFound)) else Outcome(SeverLink(db, l), Done)
  }

  // ----------------------------------------------------------------- sending

  datatype SendRequest = SendRequest(packet: Id, from: Id, to: Id, content: Content, bytes: nat, ttl: Option<nat>)

  /** The four clock readings of one send, in the order they are taken. */
  datatype SendClock = SendClock(seen: int, rated: int, sized: int, stamped: int)

  /** What a session carries from its checks to its commit; `settings` are those it
      read, kept to say what the sender was promised. */
  datatype SendTicket = SendTicket(
    request: SendRequest, packet: Packet, deliveryId: Id, delivery: Delivery, eventId: Id, event: Event, purge: bool,
    settings: Settings)

  datatype SendDecision =
    | Refuse(why: Denial)
    | AlreadyQueued(queued: Option<Id>, expiresAt: Option<int>)
    | Insert(ticket: SendTicket)

  function PacketExpiry(now: int, s: Settings, ttl: Option<nat>): Option<int> {
    if s.noExpiry && ttl.None? then None
    else Some(now + if ttl.Some? then ttl.value else s.defaultTtl)
  }

  /** The checks of `send_packet` before it looks the packet id up. */
  function SendGate(db: Db, n: Id, q: SendRequest, s: Settings): Option<Denial> {
    if !NodeActive(db, n) then Some(NodeInactive)
    else if OwnershipDenial(db, n, q.from).Some? then OwnershipDenial(db, n, q.from)
    else if q.to !in db.endpoints then Some(DestinationNotFound)
    else if !NodeActive(db, db.endpoints[q.to].owner) then Some(DestinationNodeInactive)
    else if !ActiveRouteExists(db, q.from, q.to) then Some(NoActiveRoute)
    else if q.bytes > s.maxPacketBytes then Some(PacketTooLarge)
    else None
  }

  predicate PacketMatches(p: Packet, n: Id, q: SendRequest) {
    p.sender == n && p.from == q.from && p.to == q.to && p.content == q.content
  }

  ghost function DeliveryOf(db: Db, p: Id): (d: Option<Id>)
    ensures d.Some? ==> IsDeliveryOf(db, d.value, p)
    ensures d.None? ==> forall d' :: !IsDeliveryOf(db, d', p)
  {
    if d' :| IsDeliveryOf(db, d', p) then Some(d') else None
  }

  function Payload(db: Db, d: Id): nat {
    if d in db.deliveries && db.deliveries[d].packet in db.packets
    then db.packets[db.deliveries[d].packet].bytes else 0
  }

  ghost function TotalBytes(db: Db, ds: set<Id>): nat {
    if d :| d in ds then Payload(db, d) + TotalBytes(db, ds - {d}) else 0
  }

  function RecentSends(db: Db, n: Id, floor: int): set<Id> {
    set e | e in db.events && db.events[e].node == n && db.events[e].createdAt >= floor
  }

  ghost function RateDenial(db: Db, n: Id, now: int, s: Settings): Option<Denial> {
    if |RecentSends(db, n, now - s.windowSeconds)| >= s.maxSends then Some(RateLimited) else None
  }

  ghost function CapDenial(db: Db, e: Id, n: Id, bytes: nat, now: int, s: Settings, storage: nat): Option<Denial> {
    if |Queue(db, OfEndpoint(e), now)| >= s.maxEndpointPackets then Some(EndpointPacketCap)
    else if TotalBytes(db, Queue(db, OfEndpoint(e), now)) + bytes > s.maxEndpointBytes then Some(EndpointByteCap)
    else if TotalBytes(db, Queue(db, OfNode(n), now)) + bytes > s.maxNodeBytes then Some(NodeByteCap)
    else if |Queue(db, Everywhere, now)| >= s.maxTotalPackets then Some(TotalPacketCap)
    else if TotalBytes(db, Queue(db, Everywhere, now)) + bytes > s.maxTotalBytes then Some(TotalByteCap)
    else if storage >= s.maxStorageBytes || storage + bytes > s.maxStorageBytes then Some(StorageCap)
    else None
  }

  /** The tables as the sending session sees them after its early delete of an
      expired packet with the same id. */
  function Purged(db: Db, p: Id, purge: bool): Db {
    if purge then DropPackets(db, {p}) else db
  }

  function MakeTicket(
    db: Db, n: Id, q: SendRequest, clock: SendClock, s: Settings, ids: (Id, Id), purge: bool): SendTicket
    requires q.to in db.endpoints
  {
    SendTicket(
      q,
      Packet(n, q.from, q.to, q.content, clock.stamped, PacketExpiry(clock.stamped, s, q.ttl), q.bytes),
      ids.0, Delivery(q.packet, db.endpoints[q.to].owner, q.to, clock.stamped),
      ids.1, Event(n, clock.rated), purge, s)
  }

  /** Everything `send_packet` decides before it writes. */
  ghost function CheckSend(
    db: Db, n: Id, q: SendRequest, clock: SendClock, s: Settings, storage: nat, ids: (Id, Id)): (r: SendDecision)
  {
    var gate := SendGate(db, n, q, s);
    if gate.Some? then Refuse(gate.value)
    else if q.packet in db.packets && !IsExpired(db.packets[q.packet], clock.seen) then
      if PacketMatches(db.packets[q.packet], n, q)
      then AlreadyQueued(DeliveryOf(db, q.packet), db.packets[q.packet].expiresAt)
      else Refuse(PacketIdConflict)
    else
      var purge := q.packet in db.packets;
      var seen := Purged(db, q.packet, purge);
      var rate := RateDenial(seen, n, clock.rated, s);
      var cap := CapDenial(seen, q.to, db.endpoints[q.to].owner, q.bytes, clock.sized, s, storage);
      if rate.Some? then Refuse(rate.value)
      else if cap.Some? then Refuse(cap.value)
      else Insert(MakeTicket(db, n, q, clock, s, ids, purge))
  }

  /** Primary keys, the unique delivery per packet, and foreign keys. */
  predicate InsertOk(db: Db, t: SendTicket) {
    && t.request.packet !in db.packets
    && t.deliveryId !in db.deliveries
    && t.eventId !in db.events
    && (forall d :: d in db.deliveries ==> db.deliveries[d].packet != t.request.packet)
    && t.packet.sender in db.nodes && t.packet.from in db.endpoints && t.packet.to in db.endpoints
    && t.delivery.node in db.nodes && t.delivery.endpoint in db.endpoints && t.event.node in db.nodes
  }

  function InsertPacket(db: Db, t: SendTicket): Db {
    db.(packets := db.packets[t.request.packet := t.packet],
        deliveries := db.deliveries[t.deliveryId := t.delivery],
        events := db.events[t.eventId := t.event])
  }

  predicate CommitSucceeds(db: Db, t: SendTicket) {
    InsertOk(Purged(db, t.request.packet, t.purge), t)
  }

  function Committed(db: Db, t: SendTicket): Db {
    InsertPacket(Purged(db, t.request.packet, t.purge), t)
  }

  function AcceptedReply(t: SendTicket): Reply {
    Accepted(t.request.packet, t.deliveryId, t.packet.expiresAt)
  }

  /** One lookup of the loop that follows an integrity error; None means the
      handler sleeps and looks again. */
  ghost function LookAgain(db: Db, n: Id, q: SendRequest, now: int): (r: Option<Reply>) {
    if q.packet !in db.packets || IsExpired(db.packets[q.packet], now) then None
    else if PacketMatches(db.packets[q.packet], n, q)
    then Some(Duplicate(q.packet, DeliveryOf(db, q.packet), db.packets[q.packet].expiresAt))
    else Some(Denied(PacketIdConflict))
  }

  function DecisionReply(q: SendRequest, r: SendDecision): Reply {
    match r
    case Refuse(why) => Denied(why)
    case AlreadyQueued(d, expiresAt) => Duplicate(q.packet, d, expiresAt)
    case Insert(t) => AcceptedReply(t)
  }

  /** A send that no other transaction interleaves with. */
  ghost function SendAlone(
    db: Db, n: Id, q: SendRequest, clock: SendClock, s: Settings, storage: nat, ids: (Id, Id)): (o: Outcome)
  {
    var r := CheckSend(db, n, q, clock, s, storage, ids);
    if !r.Insert? then Outcome(db, DecisionReply(q, r))
    else if CommitSucceeds(db, r.ticket) then Outcome(Committed(db, r.ticket), AcceptedReply(r.ticket))
    else
      var again := LookAgain(db, n, q, clock.stamped);
      Outcome(db, if again.Some? then again.value else Denied(PacketIdCollision))
  }

  // ---------------------------------------------------------- inbox and upkeep

  /** The delivery an ack names: by delivery id if given, else by packet id. */
  ghost function AckTarget(db: Db, delivery: Option<Id>, packet: Option<Id>, now: int): (d: Option<Id>)
    ensures d.Some? ==> d.value in Queue(db, Everywhere, now)
  {
    var named := if delivery.Some? then delivery else if packet.Some? then DeliveryOf(db, packet.value) else None;
    if named.Some? && named.value in Queue(db, Everywhere, now) then named else None
  }

  ghost function Ack(db: Db, n: Id, delivery: Option<Id>, packet: Option<Id>, now: int): (o: Outcome) {
    var target := AckTarget(db, delivery, packet, now);
    if !NodeActive(db, n) then Outcome(db, Denied(NodeInactive))
    else if target.None? then Outcome(db, Denied(DeliveryNotFound))
    else if db.deliveries[target.value].node != n then Outcome(db, Denied(DeliveryNotOwned))
    else
      var p := db.deliveries[target.value].packet;
      Outcome(DropPackets(db.(deliveries := db.deliveries - {target.value}), {p}), Done)
  }

  /** What a delete of an endpoint or an ack is about to write when its reads are
      done: the endpoint row, or the acked delivery and its packet. */
  datatype Removal = DropEndpoint(endpoint: Id) | DropAcked(delivery: Id, packet: Id)

  function FinishRemoval(db: Db, r: Removal): Db {
    match r
    case DropEndpoint(e) => DropOwners(db, {}, {e})
    case DropAcked(d, p) => DropPackets(db.(deliveries := db.deliveries - {d}), {p})
  }

  function ExpiredPackets(db: Db, now: int): set<Id> {
    set p | p in db.packets && IsExpired(db.packets[p], now)
  }

  function ExpiredCodes(codes: map<Id, Code>, now: int): map<Id, Code> {
    map c | c in codes ::
      if codes[c].status == Open && codes[c].expiresAt <= now then codes[c].(status := Expired) else codes[c]
  }

  function Cleanup(db: Db, now: int, s: Settings): Db {
    var fewer := DropPackets(db, ExpiredPackets(db, now));
    fewer.(
      codes := ExpiredCodes(db.codes, now),
      events := map e | e in db.events && db.events[e].createdAt >= now - 2 * s.windowSeconds :: db.events[e])
  }
}
