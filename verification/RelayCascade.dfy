/** ON DELETE CASCADE as a closure over rows, and the proof that the explicit
    delete steps remove exactly that closure. */
module RelayCascade {
  import opened RelayTables
  import opened RelaySpec
  import opened RelayInvariant

  datatype Row =
    | NodeRow(id: Id) | EndpointRow(id: Id) | LinkRow(id: Id) | RouteRow(id: Id)
    | CodeRow(id: Id) | PacketRow(id: Id) | DeliveryRow(id: Id) | EventRow(id: Id)

  predicate InDb(db: Db, row: Row) {
    match row
    case NodeRow(i) => i in db.nodes
    case EndpointRow(i) => i in db.endpoints
    case LinkRow(i) => i in db.links
    case RouteRow(i) => i in db.routes
    case CodeRow(i) => i in db.codes
    case PacketRow(i) => i in db.packets
    case DeliveryRow(i) => i in db.deliveries
    case EventRow(i) => i in db.events
  }

  /** The rows that `row` references through an ON DELETE CASCADE key. */
  function CascadeParents(db: Db, row: Row): set<Row>
    requires InDb(db, row)
  {
    match row
    case NodeRow(_) => {}
    case EndpointRow(i) => {NodeRow(db.endpoints[i].owner)}
    case LinkRow(i) => {EndpointRow(db.links[i].a), EndpointRow(db.links[i].b)}
    case RouteRow(i) => {EndpointRow(db.routes[i].from), EndpointRow(db.routes[i].to)}
    case CodeRow(i) => {EndpointRow(db.codes[i].source)}
    case PacketRow(i) =>
      {NodeRow(db.packets[i].sender), EndpointRow(db.packets[i].from), EndpointRow(db.packets[i].to)}
    case DeliveryRow(i) =>
      {PacketRow(db.deliveries[i].packet), NodeRow(db.deliveries[i].node), EndpointRow(db.deliveries[i].endpoint)}
    case EventRow(i) => {NodeRow(db.events[i].node)}
  }

  /** A chain of rows, each referencing the one before it. */
  ghost predicate CascadePath(db: Db, path: seq<Row>) {
    && path != []
    && (forall i :: 0 <= i < |path| ==> InDb(db, path[i]))
    && (forall i :: 0 < i < |path| ==> path[i - 1] in CascadeParents(db, path[i]))
  }

  ghost predicate DoomedVia(db: Db, root: Row, row: Row, path: seq<Row>) {
    CascadePath(db, path) && path[0] == root && path[|path| - 1] == row
  }

  /** Deleting `root` must delete `row`: the transitive closure. */
  ghost predicate Doomed(db: Db, root: Row, row: Row) {
    exists path :: DoomedVia(db, root, row, path)
  }

  ghost predicate DeliveriesRefer(db: Db) {
    forall d :: d in db.deliveries ==> db.deliveries[d].packet in db.packets
  }

  ghost predicate Gone(db: Db, db': Db, row: Row) {
    InDb(db, row) && !InDb(db', row)
  }

  /** A cascading delete is closed: the children of a removed row are removed. */
  lemma DropIsClosed(db: Db, ns: set<Id>, es: set<Id>, parent: Row, child: Row)
    requires forall e :: e in db.endpoints && db.endpoints[e].owner in ns ==> e in es
    requires ns <= db.nodes.Keys && es <= db.endpoints.Keys
    requires InDb(db, child) && parent in CascadeParents(db, child)
    requires Gone(db, DropOwners(db, ns, es), parent)
    ensures Gone(db, DropOwners(db, ns, es), child)
  {
  }

  lemma {:induction false} DoomedRowsGo(db: Db, ns: set<Id>, es: set<Id>, path: seq<Row>)
    requires forall e :: e in db.endpoints && db.endpoints[e].owner in ns ==> e in es
    requires ns <= db.nodes.Keys && es <= db.endpoints.Keys
    requires CascadePath(db, path) && Gone(db, DropOwners(db, ns, es), path[0])
    ensures Gone(db, DropOwners(db, ns, es), path[|path| - 1])
  {
    if |path| > 1 {
      var shorter := path[..|path| - 1];
      DoomedRowsGo(db, ns, es, shorter);
      DropIsClosed(db, ns, es, shorter[|shorter| - 1], path[|path| - 1]);
    }
  }

  lemma ExtendPath(db: Db, root: Row, parent: Row, child: Row)
    requires Doomed(db, root, parent) && InDb(db, child) && parent in CascadeParents(db, child)
    ensures Doomed(db, root, child)
  {
    var path :| DoomedVia(db, root, parent, path);
    assert DoomedVia(db, root, child, path + [child]);
  }

  lemma RootIsDoomed(db: Db, root: Row)
    requires InDb(db, root)
    ensures Doomed(db, root, root)
  {
    assert DoomedVia(db, root, root, [root]);
  }

  /** A removed row is one of the deleted owners or references a removed row. */
  lemma RemovedRowHasRemovedParent(db: Db, ns: set<Id>, es: set<Id>, row: Row) returns (parent: Row)
    requires DeliveriesRefer(db) && ns <= db.nodes.Keys && es <= db.endpoints.Keys
    requires Gone(db, DropOwners(db, ns, es), row) && !row.NodeRow? && !row.EndpointRow?
    ensures parent in CascadeParents(db, row) && Gone(db, DropOwners(db, ns, es), parent)
    ensures parent.NodeRow? || parent.EndpointRow? || (parent.PacketRow? && row.DeliveryRow?)
  {
    parent :| parent in CascadeParents(db, row) && Gone(db, DropOwners(db, ns, es), parent);
  }

  lemma {:induction false} RemovedRowIsDoomed(db: Db, root: Row, ns: set<Id>, es: set<Id>, row: Row)
    requires DeliveriesRefer(db) && ns <= db.nodes.Keys && es <= db.endpoints.Keys
    requires forall n :: n in ns ==> Doomed(db, root, NodeRow(n))
    requires forall e :: e in es ==> Doomed(db, root, EndpointRow(e))
    requires Gone(db, DropOwners(db, ns, es), row)
    ensures Doomed(db, root, row)
    decreases if row.DeliveryRow? then 2 else if row.NodeRow? || row.EndpointRow? then 0 else 1
  {
    if !row.NodeRow? && !row.EndpointRow? {
      var parent := RemovedRowHasRemovedParent(db, ns, es, row);
      RemovedRowIsDoomed(db, root, ns, es, parent);
      ExtendPath(db, root, parent, row);
    }
  }

  /** `DELETE FROM nodes` removes a row exactly when the foreign keys doom it. */
  lemma IdentityDeleteIsTheClosure(db: Db, n: Id, row: Row)
    requires DeliveriesRefer(db) && NodeActive(db, n) && InDb(db, row)
    ensures Gone(db, DeleteIdentity(db, n).db, row) <==> Doomed(db, NodeRow(n), row)
  {
    var es := OwnedEndpoints(db, n);
    if path :| DoomedVia(db, NodeRow(n), row, path) {
      DoomedRowsGo(db, {n}, es, path);
    }
    if Gone(db, DeleteIdentity(db, n).db, row) {
      RootIsDoomed(db, NodeRow(n));
      forall e | e in es
        ensures Doomed(db, NodeRow(n), EndpointRow(e))
      {
        ExtendPath(db, NodeRow(n), NodeRow(n), EndpointRow(e));
      }
      RemovedRowIsDoomed(db, NodeRow(n), {n}, es, row);
    }
  }

  /** `DELETE FROM endpoints` likewise. */
  lemma EndpointDeleteIsTheClosure(db: Db, n: Id, e: Id, now: int, row: Row)
    requires DeliveriesRefer(db) && RefsOk(db) && EndpointDeleteDenial(db, n, e, now).None? && InDb(db, row)
    ensures Gone(db, DeleteEndpoint(db, n, e, now).db, row) <==> Doomed(db, EndpointRow(e), row)
  {
    if path :| DoomedVia(db, EndpointRow(e), row, path) {
      DoomedRowsGo(db, {}, {e}, path);
    }
    if Gone(db, DeleteEndpoint(db, n, e, now).db, row) {
      RootIsDoomed(db, EndpointRow(e));
      RemovedRowIsDoomed(db, EndpointRow(e), {}, {e}, row);
    }
  }

  // ------------------------------------------------------------------- counts

  lemma {:induction false} InjectiveImageSize(s: set<Id>, f: map<Id, Id>)
    requires s <= f.Keys
    requires forall x, y :: x in s && y in s && f[x] == f[y] ==> x == y
    ensures |set x | x in s :: f[x]| == |s|
  {
    var image := set x | x in s :: f[x];
    if s == {} {
      assert image == {};
    } else {
      var x :| x in s;
      InjectiveImageSize(s - {x}, f);
      assert image == (set y | y in s - {x} :: f[y]) + {f[x]};
    }
  }

  lemma DeliveredPackets(db: Db, f: map<Id, Id>)
    requires Paired(db) && f.Keys == db.deliveries.Keys
    requires forall d :: d in f ==> f[d] == db.deliveries[d].packet
    ensures (set d | d in db.deliveries.Keys :: f[d]) == db.packets.Keys
  {
    var image := set d | d in db.deliveries.Keys :: f[d];
    forall p | p in db.packets
      ensures p in image
    {
      var d :| IsDeliveryOf(db, d, p);
      assert f[d] == p;
    }
    forall p | p in image
      ensures p in db.packets
    {
      var d :| d in db.deliveries && f[d] == p;
      assert DeliveryOk(db, db.deliveries[d]);
    }
  }

  /** One delivery per packet, so the two tables have the same size. */
  lemma PairedTablesHaveEqualSize(db: Db)
    requires Paired(db)
    ensures |db.deliveries| == |db.packets|
  {
    var f := map d | d in db.deliveries :: db.deliveries[d].packet;
    DeliveredPackets(db, f);
    InjectiveImageSize(db.deliveries.Keys, f);
  }

  lemma RemovedSize<T>(before: map<Id, T>, after: map<Id, T>, gone: set<Id>)
    requires gone <= before.Keys && after.Keys == before.Keys - gone
    ensures |before| - |after| == |gone|
  {
    assert before.Keys == after.Keys + gone;
    assert |before.Keys| == |after.Keys| + |gone|;
  }

  /** What the cascade removes from each table, by the sets that are counted. */
  ghost predicate DropsCounted(db: Db, db': Db, n: Id, es: set<Id>) {
    && db'.endpoints.Keys == db.endpoints.Keys - es
    && db'.events.Keys == db.events.Keys - EventsOf(db, n)
    && db'.codes.Keys == db.codes.Keys - CodesFrom(db, es)
    && db'.links.Keys == db.links.Keys - LinksTouching(db, es)
    && db'.routes.Keys == db.routes.Keys - RoutesTouching(db, es)
    && db'.packets.Keys == db.packets.Keys - PacketsTouching(db, n, es)
  }

  lemma EndpointsDropped(db: Db, n: Id, es: set<Id>)
    ensures DropOwners(db, {n}, es).endpoints.Keys == db.endpoints.Keys - es
  {
  }

  lemma EventsDropped(db: Db, n: Id, es: set<Id>)
    ensures DropOwners(db, {n}, es).events.Keys == db.events.Keys - EventsOf(db, n)
  {
  }

  lemma CodesDropped(db: Db, n: Id, es: set<Id>)
    ensures DropOwners(db, {n}, es).codes.Keys == db.codes.Keys - CodesFrom(db, es)
  {
  }

  lemma LinksDropped(db: Db, n: Id, es: set<Id>)
    ensures DropOwners(db, {n}, es).links.Keys == db.links.Keys - LinksTouching(db, es)
  {
  }

  lemma RoutesDropped(db: Db, n: Id, es: set<Id>)
    ensures DropOwners(db, {n}, es).routes.Keys == db.routes.Keys - RoutesTouching(db, es)
  {
  }

  lemma PacketsDropped(db: Db, n: Id, es: set<Id>)
    ensures DropOwners(db, {n}, es).packets.Keys == db.packets.Keys - PacketsTouching(db, n, es)
  {
  }

  lemma CascadeDropsCounted(db: Db, n: Id, es: set<Id>)
    ensures DropsCounted(db, DropOwners(db, {n}, es), n, es)
  {
    hide DropOwners, EventsOf, CodesFrom, LinksTouching, RoutesTouching, PacketsTouching;
    EndpointsDropped(db, n, es);
    EventsDropped(db, n, es);
    CodesDropped(db, n, es);
    LinksDropped(db, n, es);
    RoutesDropped(db, n, es);
    PacketsDropped(db, n, es);
  }

  lemma CountedSizes(db: Db, db': Db, n: Id, es: set<Id>)
    requires DropsCounted(db, db', n, es) && es <= db.endpoints.Keys
    ensures |db.endpoints| - |db'.endpoints| == |es| && |db.events| - |db'.events| == |EventsOf(db, n)|
    ensures |db.codes| - |db'.codes| == |CodesFrom(db, es)| && |db.links| - |db'.links| == |LinksTouching(db, es)|
    ensures |db.routes| - |db'.routes| == |RoutesTouching(db, es)|
    ensures |db.packets| - |db'.packets| == |PacketsTouching(db, n, es)|
  {
    RemovedSize(db.endpoints, db'.endpoints, es);
    RemovedSize(db.events, db'.events, EventsOf(db, n));
    RemovedSize(db.codes, db'.codes, CodesFrom(db, es));
    RemovedSize(db.links, db'.links, LinksTouching(db, es));
    RemovedSize(db.routes, db'.routes, RoutesTouching(db, es));
    RemovedSize(db.packets, db'.packets, PacketsTouching(db, n, es));
  }

  /** The delivery figure is the size of the deleted node's own inbox, because a
      delivery to one of its endpoints is a delivery to it. */
  lemma DeliveryFigureIsInbound(db: Db, n: Id)
    requires Inv(db)
    ensures IdentityCounts(db, n).deliveries == |DeliveriesInto(db, n, {})|
  {
    var es := OwnedEndpoints(db, n);
    assert forall d :: d in db.deliveries ==> DeliveryOk(db, db.deliveries[d]);
    assert DeliveriesInto(db, n, es) == DeliveriesInto(db, n, {});
  }

  /** Every figure `delete_identity` reports is the number of rows its cascade
      removes, except that the packet figure is also the number of deliveries
      removed while the delivery figure covers only the node's own inbox. */
  lemma IdentityCountsAreExact(db: Db, n: Id)
    requires Inv(db) && NodeActive(db, n)
    ensures var db' := DeleteIdentity(db, n).db;
            var counts := DeleteIdentity(db, n).reply.counts;
            |db.endpoints| - |db'.endpoints| == counts.endpoints && |db.links| - |db'.links| == counts.links &&
            |db.routes| - |db'.routes| == counts.routes && |db.codes| - |db'.codes| == counts.codes &&
            |db.events| - |db'.events| == counts.events && |db.packets| - |db'.packets| == counts.packets &&
            |db.deliveries| - |db'.deliveries| == counts.packets &&
            counts.deliveries == |DeliveriesInto(db, n, {})|
  {
    CascadeDropsCounted(db, n, OwnedEndpoints(db, n));
    CountedSizes(db, DeleteIdentity(db, n).db, n, OwnedEndpoints(db, n));
    DeliveryFigureIsInbound(db, n);
    DeleteIdentityKeepsInv(db, n);
    PairedTablesHaveEqualSize(db);
    PairedTablesHaveEqualSize(DeleteIdentity(db, n).db);
  }
}
