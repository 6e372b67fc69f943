/** The relay's database: one map per table, keyed by primary key, and the
    row-level reads that the request handlers share. Columns that hold the same
    value in every row (endpoint status, delivery state) are not modelled. */
module RelayTables {

  type Id = nat

  datatype Option<+T> = None | Some(value: T)

  datatype Status = Active | Disabled | Revoked

  datatype CodeStatus = Open | Used | Expired

  datatype Mode = Bidirectional | AToB | BToA

  datatype Node = Node(key: nat, status: Status)

  datatype Endpoint = Endpoint(owner: Id, name: Option<string>)

  datatype Link = Link(a: Id, b: Id, mode: Mode, status: Status)

  datatype Route = Route(from: Id, to: Id, status: Status, createdBy: Option<Id>)

  datatype Code = Code(text: string, source: Id, mode: Mode, expiresAt: int, status: CodeStatus)

  /** What `packet_matches` compares besides the addressing columns. */
  datatype Content = Content(version: int, headers: string, body: Option<string>, data: string, meta: string)

  datatype Packet = Packet(
    sender: Id, from: Id, to: Id, content: Content, createdAt: int, expiresAt: Option<int>, bytes: nat)

  datatype Delivery = Delivery(packet: Id, node: Id, endpoint: Id, queuedAt: int)

  datatype Event = Event(node: Id, createdAt: int)

  datatype Db = Db(
    nodes: map<Id, Node>,
    endpoints: map<Id, Endpoint>,
    links: map<Id, Link>,
    routes: map<Id, Route>,
    codes: map<Id, Code>,
    packets: map<Id, Packet>,
    deliveries: map<Id, Delivery>,
    events: map<Id, Event>)

  const EMPTY_DB := Db(map[], map[], map[], map[], map[], map[], map[], map[])

  predicate NodeActive(db: Db, n: Id) {
    n in db.nodes && db.nodes[n].status == Active
  }

  predicate Owns(db: Db, n: Id, e: Id) {
    e in db.endpoints && db.endpoints[e].owner == n
  }

  function OwnedEndpoints(db: Db, n: Id): set<Id> {
    set e | e in db.endpoints && db.endpoints[e].owner == n
  }

  predicate IsExpired(p: Packet, now: int) {
    p.expiresAt.Some? && p.expiresAt.value <= now
  }

  /** The directed permissions a link of this mode grants. */
  function ResolveRedeemRoutes(source: Id, dest: Id, mode: Mode): (pairs: seq<(Id, Id)>)
    ensures 1 <= |pairs| <= 2
  {
    match mode
    case Bidirectional => [(source, dest), (dest, source)]
    case AToB => [(source, dest)]
    case BToA => [(dest, source)]
  }

  predicate Grants(l: Link, from: Id, to: Id) {
    (from, to) in ResolveRedeemRoutes(l.a, l.b, l.mode)
  }

  predicate IsActiveRoute(db: Db, r: Id, from: Id, to: Id) {
    r in db.routes && db.routes[r].from == from && db.routes[r].to == to && db.routes[r].status == Active
  }

  predicate ActiveRouteExists(db: Db, from: Id, to: Id) {
    exists r :: r in db.routes && IsActiveRoute(db, r, from, to)
  }

  predicate ExactActiveLinkExists(db: Db, source: Id, dest: Id, mode: Mode) {
    exists l :: l in db.links && db.links[l].status == Active && db.links[l].mode == mode &&
      ((db.links[l].a == source && db.links[l].b == dest) ||
       (mode == Bidirectional && db.links[l].a == dest && db.links[l].b == source))
  }

  predicate IsDeliveryOf(db: Db, d: Id, p: Id) {
    d in db.deliveries && db.deliveries[d].packet == p
  }

  /** Which queue of deliveries a cap or a poll speaks about. */
  datatype Scope = OfEndpoint(endpoint: Id) | OfNode(node: Id) | Everywhere

  predicate InScope(d: Delivery, scope: Scope) {
    match scope
    case OfEndpoint(e) => d.endpoint == e
    case OfNode(n) => d.node == n
    case Everywhere => true
  }

  /** Deliveries joined with their packets, restricted to unexpired packets. */
  function Queue(db: Db, scope: Scope, now: int): set<Id> {
    set d | d in db.deliveries && InScope(db.deliveries[d], scope) &&
            db.deliveries[d].packet in db.packets && !IsExpired(db.packets[db.deliveries[d].packet], now)
  }

  /** ON DELETE CASCADE from packets to deliveries. */
  function DropPackets(db: Db, dead: set<Id>): Db {
    db.(packets := db.packets - dead,
        deliveries := map d | d in db.deliveries && db.deliveries[d].packet !in dead :: db.deliveries[d])
  }

  /** Deleting the node rows `ns` and the endpoint rows `es` with every
      ON DELETE CASCADE and ON DELETE SET NULL rule of the schema applied. */
  function DropOwners(db: Db, ns: set<Id>, es: set<Id>): Db {
    var links := map l | l in db.links && db.links[l].a !in es && db.links[l].b !in es :: db.links[l];
    var packets := map p | p in db.packets && db.packets[p].sender !in ns &&
                           db.packets[p].from !in es && db.packets[p].to !in es :: db.packets[p];
    Db(db.nodes - ns,
       db.endpoints - es,
       links,
       map r | r in db.routes && db.routes[r].from !in es && db.routes[r].to !in es ::
         SetNullIfGone(db.routes[r], links.Keys),
       map c | c in db.codes && db.codes[c].source !in es :: db.codes[c],
       packets,
       map d | d in db.deliveries && db.deliveries[d].packet in packets &&
               db.deliveries[d].node !in ns && db.deliveries[d].endpoint !in es :: db.deliveries[d],
       map e | e in db.events && db.events[e].node !in ns :: db.events[e])
  }

  function SetNullIfGone(r: Route, links: set<Id>): Route {
    if r.createdBy.Some? && r.createdBy.value !in links then r.(createdBy := None) else r
  }
}
