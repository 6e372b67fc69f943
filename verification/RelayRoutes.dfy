/** What the invariant says about permissions: the active routes are the
    disjoint union, over the active links, of what each link grants. */
module RelayRoutes {
  import opened RelayTables
  import opened RelaySpec
  import opened RelayInvariant

  ghost predicate ActiveLinkGrants(db: Db, l: Id, from: Id, to: Id) {
    l in db.links && db.links[l].status == Active && Grants(db.links[l], from, to)
  }

  lemma ActiveRoutesAreGrants(db: Db, from: Id, to: Id)
    requires Inv(db)
    ensures ActiveRouteExists(db, from, to) <==> exists l :: ActiveLinkGrants(db, l, from, to)
  {
    if ActiveRouteExists(db, from, to) {
      var r :| r in db.routes && IsActiveRoute(db, r, from, to);
      assert RouteOk(db, db.routes[r]);
      assert ActiveLinkGrants(db, db.routes[r].createdBy.value, from, to);
    }
    if l :| ActiveLinkGrants(db, l, from, to) {
      GrantHasActiveRoute(db, l, from, to);
    }
  }

  lemma GrantHasActiveRoute(db: Db, l: Id, from: Id, to: Id)
    requires Inv(db) && ActiveLinkGrants(db, l, from, to)
    ensures exists r :: IsRouteOf(db, r, l, from, to) && IsActiveRoute(db, r, from, to)
    ensures ActiveRouteExists(db, from, to)
  {
    var r :| IsRouteOf(db, r, l, from, to);
    assert RouteOk(db, db.routes[r]);
    assert IsActiveRoute(db, r, from, to);
  }

  /** What a send needs before its packet id is looked at, in terms of links. */
  ghost predicate MaySend(db: Db, n: Id, q: SendRequest, s: Settings) {
    && NodeActive(db, n) && Owns(db, n, q.from)
    && q.to in db.endpoints && NodeActive(db, db.endpoints[q.to].owner)
    && (exists l :: ActiveLinkGrants(db, l, q.from, q.to))
    && q.bytes <= s.maxPacketBytes
  }

  /** The route table never lets a send pass, or refuses one, against the links. */
  lemma GateFollowsLinks(db: Db, n: Id, q: SendRequest, s: Settings)
    requires Inv(db)
    ensures SendGate(db, n, q, s).None? <==> MaySend(db, n, q, s)
    ensures SendGate(db, n, q, s) == Some(NoActiveRoute) ==> !exists l :: ActiveLinkGrants(db, l, q.from, q.to)
  {
    ActiveRoutesAreGrants(db, q.from, q.to);
  }

  /** The union is disjoint: no ordered pair is granted by two active links. */
  lemma GrantsAreDisjoint(db: Db, l: Id, l': Id, from: Id, to: Id)
    requires Inv(db)
    requires ActiveLinkGrants(db, l, from, to) && ActiveLinkGrants(db, l', from, to)
    ensures l == l'
  {
    GrantHasActiveRoute(db, l, from, to);
    GrantHasActiveRoute(db, l', from, to);
    var r :| IsRouteOf(db, r, l, from, to) && IsActiveRoute(db, r, from, to);
    var r' :| IsRouteOf(db, r', l', from, to) && IsActiveRoute(db, r', from, to);
    assert r == r';
  }

  /** The duplicate-link check of a redeem never refuses anything that the
      route checks would let through. */
  lemma ExactLinkImpliesRoute(db: Db, source: Id, dest: Id, mode: Mode)
    requires Inv(db) && ExactActiveLinkExists(db, source, dest, mode)
    ensures var pairs := ResolveRedeemRoutes(source, dest, mode);
            exists i :: 0 <= i < |pairs| && ActiveRouteExists(db, pairs[i].0, pairs[i].1)
  {
    var l :| l in db.links && db.links[l].status == Active && db.links[l].mode == mode &&
      ((db.links[l].a == source && db.links[l].b == dest) ||
       (mode == Bidirectional && db.links[l].a == dest && db.links[l].b == source));
    var pairs := ResolveRedeemRoutes(source, dest, mode);
    assert ActiveLinkGrants(db, l, pairs[0].0, pairs[0].1);
    GrantHasActiveRoute(db, l, pairs[0].0, pairs[0].1);
  }

  lemma SeverRemovesGrants(db: Db, l: Id, k: Id, from: Id, to: Id)
    requires l in db.links
    ensures ActiveLinkGrants(SeverLink(db, l), k, from, to) <==> ActiveLinkGrants(db, k, from, to) && k != l
  {
  }

  /** Revoking a link takes away exactly its own permissions. */
  lemma SeverRemovesExactlyItsGrants(db: Db, l: Id, from: Id, to: Id)
    requires Inv(db) && l in db.links
    ensures ActiveRouteExists(SeverLink(db, l), from, to) <==>
            ActiveRouteExists(db, from, to) && !ActiveLinkGrants(db, l, from, to)
  {
    var db' := SeverLink(db, l);
    SeverLinkKeepsInv(db, l);
    ActiveRoutesAreGrants(db, from, to);
    ActiveRoutesAreGrants(db', from, to);
    if k :| ActiveLinkGrants(db', k, from, to) {
      SeverRemovesGrants(db, l, k, from, to);
      if ActiveLinkGrants(db, l, from, to) {
        GrantsAreDisjoint(db, k, l, from, to);
      }
    }
    if k :| ActiveLinkGrants(db, k, from, to) && k != l {
      SeverRemovesGrants(db, l, k, from, to);
    }
  }

  /** The adapter's view of a link from one of its two endpoints. */
  function CalculateDirection(l: Link, local: Id): (dir: (bool, bool)) {
    match l.mode
    case Bidirectional => (true, true)
    case AToB => (local == l.a, local == l.b)
    case BToA => (local == l.b, local == l.a)
  }

  function ResolveRemoteEndpoint(l: Link, local: Id): Id {
    if l.a == local then l.b else l.a
  }

  /** `can_send` and `can_receive` hold exactly when the server has an active
      route of that very link in that direction. */
  lemma DirectionMatchesRoutes(db: Db, l: Id, local: Id)
    requires Inv(db) && l in db.links && db.links[l].status == Active
    requires local == db.links[l].a || local == db.links[l].b
    ensures var remote := ResolveRemoteEndpoint(db.links[l], local);
            var dir := CalculateDirection(db.links[l], local);
            (dir.0 <==> exists r :: IsRouteOf(db, r, l, local, remote) && IsActiveRoute(db, r, local, remote)) &&
            (dir.1 <==> exists r :: IsRouteOf(db, r, l, remote, local) && IsActiveRoute(db, r, remote, local))
  {
    var remote := ResolveRemoteEndpoint(db.links[l], local);
    OneDirection(db, l, local, remote);
    OneDirection(db, l, remote, local);
  }

  lemma OneDirection(db: Db, l: Id, from: Id, to: Id)
    requires Inv(db) && l in db.links && db.links[l].status == Active
    ensures Grants(db.links[l], from, to) <==>
            exists r :: IsRouteOf(db, r, l, from, to) && IsActiveRoute(db, r, from, to)
  {
    if Grants(db.links[l], from, to) {
      GrantHasActiveRoute(db, l, from, to);
    }
    if r :| IsRouteOf(db, r, l, from, to) && IsActiveRoute(db, r, from, to) {
      assert RouteOk(db, db.routes[r]);
    }
  }
}
