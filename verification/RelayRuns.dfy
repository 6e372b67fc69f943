/** The relay as a state machine: the tables, the ids handed out so far, and
    the requests that are between their reads and their write. Every
    interleaving of requests is a run. */
module RelayRuns {
  import opened RelayTables
  import opened RelaySpec
  import opened RelayInvariant

  datatype SendTask =
    | Checked(node: Id, ticket: SendTicket)
    | Retrying(node: Id, request: SendRequest, left: nat)

  datatype Sys = Sys(
    db: Db, minted: set<Id>, sends: map<nat, SendTask>, redeems: map<nat, RedeemTicket>, removals: map<nat, Removal>)

  const START := Sys(EMPTY_DB, {}, map[], map[], map[])

  const LOOKUP_TRIES: nat := 5

  datatype Action =
    | DoRegister(node: Id, endpoint: Id, key: nat)
    | DoRotateKey(node: Id, key: nat)
    | DoSetNodeStatus(node: Id, status: Status)
    | DoDeleteIdentity(node: Id)
    | DoCreateEndpoint(node: Id, endpoint: Id, name: Option<string>)
    | DoDeleteEndpoint(node: Id, endpoint: Id, now: int)
    | BeginDeleteEndpoint(task: nat, node: Id, endpoint: Id, now: int)
    | DoRequestCode(node: Id, endpoint: Id, mode: Mode, code: Id, candidates: seq<string>, expiresAt: int)
    | BeginRedeem(task: nat, node: Id, text: string, endpoint: Id, now: int)
    | EndRedeem(task: nat, link: Id, routeIds: (Id, Id))
    | DoRevokeLink(node: Id, link: Id)
    | DoAdminRevokeLink(link: Id)
    | DoSend(node: Id, request: SendRequest, clock: SendClock, settings: Settings, storage: nat, ids: (Id, Id))
    | BeginSend(task: nat, node: Id, request: SendRequest, clock: SendClock, settings: Settings, storage: nat,
                ids: (Id, Id))
    | CommitSend(task: nat)
    | RetrySend(task: nat, now: int)
    | DoPoll(node: Id, limit: nat, now: int)
    | DoAck(node: Id, delivery: Option<Id>, packet: Option<Id>, now: int)
    | BeginAck(task: nat, node: Id, delivery: Option<Id>, packet: Option<Id>, now: int)
    | EndRemoval(task: nat)
    | DoCleanup(now: int, settings: Settings)

  /** The uuids an action generates. */
  function FreshIds(a: Action): set<Id> {
    match a
    case DoRegister(n, e, _) => {n, e}
    case DoCreateEndpoint(_, e, _) => {e}
    case DoRequestCode(_, _, _, c, _, _) => {c}
    case EndRedeem(_, l, ids) => {l, ids.0, ids.1}
    case DoSend(_, _, _, _, _, ids) => {ids.0, ids.1}
    case BeginSend(_, _, _, _, _, _, ids) => {ids.0, ids.1}
    case _ => {}
  }

  predicate DistinctIds(a: Action) {
    match a
    case DoRegister(n, e, _) => n != e
    case EndRedeem(_, l, ids) => l != ids.0 && l != ids.1 && ids.0 != ids.1
    case DoSend(_, _, _, _, _, ids) => ids.0 != ids.1
    case BeginSend(_, _, _, _, _, _, ids) => ids.0 != ids.1
    case _ => true
  }

  predicate Enabled(s: Sys, a: Action) {
    && FreshIds(a) !! s.minted && DistinctIds(a)
    && match a
       case BeginRedeem(task, _, _, _, _) => task !in s.redeems
       case EndRedeem(task, _, _) => task in s.redeems
       case BeginSend(task, _, _, _, _, _, _) => task !in s.sends
       case CommitSend(task) => task in s.sends && s.sends[task].Checked?
       case RetrySend(task, _) => task in s.sends && s.sends[task].Retrying?
       case BeginDeleteEndpoint(task, _, _, _) => task !in s.removals
       case BeginAck(task, _, _, _, _) => task !in s.removals
       case EndRemoval(task) => task in s.removals
       case _ => true
  }

  ghost function FindCode(db: Db, text: string): (c: Option<Id>)
    ensures c.Some? ==> IsCodeWithText(db, c.value, text)
    ensures c.None? ==> !CodeTextTaken(db, text)
  {
    if c' :| IsCodeWithText(db, c', text) then Some(c') else
      assert forall c :: c in db.codes ==> !IsCodeWithText(db, c, text);
      None
  }

  ghost function RedeemReadOf(s: Sys, a: Action): RedeemRead
    requires a.BeginRedeem?
  {
    ReadForRedeem(s.db, a.node, FindCode(s.db, a.text), a.endpoint, a.now)
  }

  ghost function DecisionOf(s: Sys, a: Action): SendDecision
    requires a.BeginSend? || a.DoSend?
  {
    CheckSend(s.db, a.node, a.request, a.clock, a.settings, a.storage, a.ids)
  }

  ghost function NextDb(s: Sys, a: Action): Db
    requires Enabled(s, a)
  {
    match a
    case DoRegister(n, e, key) => Register(s.db, n, e, key).db
    case DoRotateKey(n, key) => RotateKey(s.db, n, key).db
    case DoSetNodeStatus(n, status) => SetNodeStatus(s.db, n, status).db
    case DoDeleteIdentity(n) => DeleteIdentity(s.db, n).db
    case DoCreateEndpoint(n, e, name) => CreateEndpoint(s.db, n, e, name).db
    case DoDeleteEndpoint(n, e, now) => DeleteEndpoint(s.db, n, e, now).db
    case DoRequestCode(n, e, mode, c, candidates, expiresAt) =>
      RequestLinkCode(s.db, n, e, mode, c, candidates, expiresAt).db
    case EndRedeem(task, l, ids) => FinishRedeem(s.db, s.redeems[task], l, ids).db
    case DoRevokeLink(n, l) => RevokeLink(s.db, n, l).db
    case DoAdminRevokeLink(l) => AdminRevokeLink(s.db, l).db
    case DoSend(n, q, clock, settings, storage, ids) => SendAlone(s.db, n, q, clock, settings, storage, ids).db
    case CommitSend(task) =>
      var t := s.sends[task].ticket;
      if CommitSucceeds(s.db, t) then Committed(s.db, t) else s.db
    case DoAck(n, d, p, now) => Ack(s.db, n, d, p, now).db
    case EndRemoval(task) => FinishRemoval(s.db, s.removals[task])
    case DoCleanup(now, settings) => Cleanup(s.db, now, settings)
    case _ => s.db
  }

  ghost function NextSends(s: Sys, a: Action): map<nat, SendTask>
    requires Enabled(s, a)
  {
    match a
    case BeginSend(task, n, _, _, _, _, _) =>
      var r := DecisionOf(s, a);
      if r.Insert? then s.sends[task := Checked(n, r.ticket)] else s.sends
    case CommitSend(task) =>
      var t := s.sends[task];
      if CommitSucceeds(s.db, t.ticket) then s.sends - {task}
      else s.sends[task := Retrying(t.node, t.ticket.request, LOOKUP_TRIES)]
    case RetrySend(task, now) =>
      var t := s.sends[task];
      if LookAgain(s.db, t.node, t.request, now).Some? || t.left <= 1 then s.sends - {task}
      else s.sends[task := t.(left := t.left - 1)]
    case _ => s.sends
  }

  ghost function NextRedeems(s: Sys, a: Action): map<nat, RedeemTicket>
    requires Enabled(s, a)
  {
    match a
    case BeginRedeem(task, _, _, _, _) =>
      var r := RedeemReadOf(s, a);
      if r.Proceed? then s.redeems[task := r.ticket] else s.redeems
    case EndRedeem(task, _, _) => s.redeems - {task}
    case _ => s.redeems
  }

  ghost function NextRemovals(s: Sys, a: Action): map<nat, Removal>
    requires Enabled(s, a)
  {
    match a
    case BeginDeleteEndpoint(task, n, e, now) =>
      if EndpointDeleteDenial(s.db, n, e, now).None? then s.removals[task := DropEndpoint(e)] else s.removals
    case BeginAck(task, n, d, p, now) =>
      var target := AckTarget(s.db, d, p, now);
      if Ack(s.db, n, d, p, now).reply == Done
      then s.removals[task := DropAcked(target.value, s.db.deliveries[target.value].packet)]
      else s.removals
    case EndRemoval(task) => s.removals - {task}
    case _ => s.removals
  }

  ghost function Next(s: Sys, a: Action): Sys
    requires Enabled(s, a)
  {
    Sys(NextDb(s, a), s.minted + FreshIds(a), NextSends(s, a), NextRedeems(s, a), NextRemovals(s, a))
  }

  /** The answer a client gets from the step; `InProgress` when the request has
      not finished, `Done` for actions whose answer nothing below refers to. */
  ghost function ReplyTo(s: Sys, a: Action): Reply
    requires Enabled(s, a)
  {
    match a
    case DoDeleteIdentity(n) => DeleteIdentity(s.db, n).reply
    case BeginRedeem(_, _, _, _, _) =>
      var r := RedeemReadOf(s, a);
      if r.ReadDenied? then Denied(r.why) else InProgress
    case EndRedeem(task, l, ids) => FinishRedeem(s.db, s.redeems[task], l, ids).reply
    case DoSend(n, q, clock, settings, storage, ids) => SendAlone(s.db, n, q, clock, settings, storage, ids).reply
    case BeginSend(_, _, q, _, _, _, _) =>
      var r := DecisionOf(s, a);
      if r.Insert? then InProgress else DecisionReply(q, r)
    case CommitSend(task) =>
      if CommitSucceeds(s.db, s.sends[task].ticket) then AcceptedReply(s.sends[task].ticket) else InProgress
    case RetrySend(task, now) =>
      var t := s.sends[task];
      var again := LookAgain(s.db, t.node, t.request, now);
      if again.Some? then again.value else if t.left <= 1 then Denied(PacketIdCollision) else InProgress
    case DoAck(n, d, p, now) => Ack(s.db, n, d, p, now).reply
    case BeginDeleteEndpoint(_, n, e, now) =>
      var denial := EndpointDeleteDenial(s.db, n, e, now);
      if denial.Some? then Denied(denial.value) else InProgress
    case BeginAck(_, n, d, p, now) =>
      var reply := Ack(s.db, n, d, p, now).reply;
      if reply == Done then InProgress else reply
    case _ => Done
  }

  // --------------------------------------------------------------------- runs

  ghost predicate Legal(s: Sys, run: seq<Action>)
    decreases |run|
  {
    run == [] || (Enabled(s, run[0]) && Legal(Next(s, run[0]), run[1..]))
  }

  ghost function After(s: Sys, run: seq<Action>): Sys
    requires Legal(s, run)
    decreases |run|
  {
    if run == [] then s else After(Next(s, run[0]), run[1..])
  }

  // ------------------------------------------------------- system invariant

  ghost predicate IdsMinted(s: Sys) {
    && s.db.nodes.Keys <= s.minted && s.db.endpoints.Keys <= s.minted && s.db.links.Keys <= s.minted
    && s.db.routes.Keys <= s.minted && s.db.codes.Keys <= s.minted
    && s.db.deliveries.Keys <= s.minted && s.db.events.Keys <= s.minted
  }

  ghost predicate SendTaskOk(s: Sys, t: SendTask) {
    t.Checked? ==>
      && TicketFits(s.db, t.ticket) && t.node == t.ticket.packet.sender
      && {t.ticket.packet.sender, t.ticket.packet.from, t.ticket.packet.to, t.ticket.delivery.node,
          t.ticket.deliveryId, t.ticket.eventId} <= s.minted
      && PacketMatches(t.ticket.packet, t.node, t.ticket.request)
      && t.ticket.deliveryId !in s.db.deliveries && t.ticket.eventId !in s.db.events
  }

  ghost predicate DistinctTickets(sends: map<nat, SendTask>) {
    forall i, j :: i in sends && j in sends && i != j && sends[i].Checked? && sends[j].Checked? ==>
      sends[i].ticket.deliveryId != sends[j].ticket.deliveryId &&
      sends[i].ticket.eventId != sends[j].ticket.eventId
  }

  ghost predicate RedeemTicketOk(s: Sys, t: RedeemTicket) {
    && t.code in s.minted
    && (t.Claim? ==>
          && t.source != t.dest
          && (t.code in s.db.codes ==> s.db.codes[t.code].source == t.source && s.db.codes[t.code].mode == t.mode))
    && (t.Expire? && t.code in s.db.codes ==> s.db.codes[t.code].expiresAt <= t.readAt)
  }

  /** A delivery that is about to be acked is still the one that was read. */
  ghost predicate RemovalOk(s: Sys, r: Removal) {
    r.DropAcked? ==>
      && r.delivery in s.minted
      && (r.delivery in s.db.deliveries ==> s.db.deliveries[r.delivery].packet == r.packet)
      && forall i :: i in s.sends && s.sends[i].Checked? ==> s.sends[i].ticket.deliveryId != r.delivery
  }

  ghost predicate SysInv(s: Sys) {
    && Inv(s.db) && IdsMinted(s) && DistinctTickets(s.sends)
    && (forall i :: i in s.removals ==> RemovalOk(s, s.removals[i]))
    && (forall i :: i in s.sends ==> SendTaskOk(s, s.sends[i]))
    && (forall i :: i in s.redeems ==> RedeemTicketOk(s, s.redeems[i]))
  }

  lemma StepKeepsDbInv(s: Sys, a: Action)
    requires SysInv(s) && Enabled(s, a)
    ensures Inv(NextDb(s, a))
  {
    hide Inv, CommitSucceeds, Committed, SendAlone, Cleanup, FinishRemoval, FinishRedeem, SeverLink, DropOwners, Ack;
    match a
    case DoRegister(n, e, key) => RegisterKeepsInv(s.db, n, e, key);
    case DoRotateKey(n, key) =>
      if NodeActive(s.db, n) { NodeUpdateKeepsInv(s.db, n, s.db.nodes[n].(key := key)); }
    case DoSetNodeStatus(n, status) =>
      if n in s.db.nodes { NodeUpdateKeepsInv(s.db, n, s.db.nodes[n].(status := status)); }
    case DoDeleteIdentity(n) => DeleteIdentityKeepsInv(s.db, n);
    case DoCreateEndpoint(n, e, name) => CreateEndpointKeepsInv(s.db, n, e, name);
    case DoDeleteEndpoint(n, e, now) => DeleteEndpointKeepsInv(s.db, n, e, now);
    case DoRequestCode(n, e, mode, c, candidates, expiresAt) =>
      RequestLinkCodeKeepsInv(s.db, n, e, mode, c, candidates, expiresAt);
    case EndRedeem(task, l, ids) =>
      assert RedeemTicketOk(s, s.redeems[task]);
      FinishRedeemKeepsInv(s.db, s.redeems[task], l, ids);
    case DoRevokeLink(n, l) => if l in s.db.links { SeverLinkKeepsInv(s.db, l); }
    case DoAdminRevokeLink(l) => if l in s.db.links { SeverLinkKeepsInv(s.db, l); }
    case DoSend(n, q, clock, settings, storage, ids) =>
      SendAloneKeepsInv(s.db, n, q, clock, settings, storage, ids);
    case CommitSend(task) =>
      assert SendTaskOk(s, s.sends[task]);
      if CommitSucceeds(s.db, s.sends[task].ticket) { CommitKeepsInv(s.db, s.sends[task].ticket); }
    case DoAck(n, d, p, now) => AckKeepsInv(s.db, n, d, p, now);
    case EndRemoval(task) =>
      assert RemovalOk(s, s.removals[task]);
      RemovalKeepsInv(s.db, s.removals[task]);
    case DoCleanup(now, settings) => CleanupKeepsInv(s.db, now, settings);
    case _ =>
  }

  ghost function NewDeliveryIds(s: Sys, a: Action): set<Id>
    requires Enabled(s, a)
  {
    if a.CommitSend? then {s.sends[a.task].ticket.deliveryId} else FreshIds(a)
  }

  ghost function NewEventIds(s: Sys, a: Action): set<Id>
    requires Enabled(s, a)
  {
    if a.CommitSend? then {s.sends[a.task].ticket.eventId} else FreshIds(a)
  }

  /** Primary keys only enter a table when they are minted, or reserved by a ticket. */
  ghost predicate KeysGrow(db: Db, db': Db, ids: set<Id>, ds: set<Id>, es: set<Id>) {
    && db'.nodes.Keys <= db.nodes.Keys + ids && db'.endpoints.Keys <= db.endpoints.Keys + ids
    && db'.links.Keys <= db.links.Keys + ids && db'.routes.Keys <= db.routes.Keys + ids
    && db'.codes.Keys <= db.codes.Keys + ids
    && db'.deliveries.Keys <= db.deliveries.Keys + ds && db'.events.Keys <= db.events.Keys + es
  }

  ghost predicate OwnersFixed(db: Db, db': Db) {
    forall e :: e in db'.endpoints && e in db.endpoints ==> db'.endpoints[e].owner == db.endpoints[e].owner
  }

  ghost predicate CodesFixed(db: Db, db': Db) {
    forall c :: c in db'.codes && c in db.codes ==>
      db'.codes[c].source == db.codes[c].source && db'.codes[c].mode == db.codes[c].mode &&
      db'.codes[c].expiresAt == db.codes[c].expiresAt
  }

  ghost predicate DeliveriesFixed(db: Db, db': Db, ds: set<Id>) {
    forall d :: d in db'.deliveries && d !in ds ==> d in db.deliveries && db'.deliveries[d] == db.deliveries[d]
  }

  /** What no transaction ever changes, given the ids it may add. */
  ghost predicate Frames(db: Db, db': Db, ids: set<Id>, ds: set<Id>, es: set<Id>) {
    KeysGrow(db, db', ids, ds, es) && OwnersFixed(db, db') && CodesFixed(db, db') && DeliveriesFixed(db, db', ds)
  }

  lemma FramesWiden(db: Db, db': Db, ids: set<Id>, ds: set<Id>, es: set<Id>, more: set<Id>)
    requires Frames(db, db', ids, ds, es) && ids <= more && ds <= more && es <= more
    ensures Frames(db, db', more, more, more)
  {
  }

  lemma NothingFrames(db: Db, ids: set<Id>, ds: set<Id>, es: set<Id>)
    ensures Frames(db, db, ids, ds, es)
  {
  }

  lemma NodeUpdateFrames(db: Db, nodes: map<Id, Node>)
    requires nodes.Keys == db.nodes.Keys
    ensures Frames(db, db.(nodes := nodes), {}, {}, {})
  {
  }

  lemma NewOwnerFrames(db: Db, nodes: map<Id, Node>, e: Id, row: Endpoint, ids: set<Id>)
    requires e !in db.endpoints && e in ids && nodes.Keys <= db.nodes.Keys + ids
    ensures Frames(db, db.(nodes := nodes, endpoints := db.endpoints[e := row]), ids, ids, ids)
  {
  }

  lemma RegisterFrames(db: Db, n: Id, e: Id, key: nat)
    ensures Frames(db, Register(db, n, e, key).db, {n, e}, {n, e}, {n, e})
  {
    hide Frames;
    NothingFrames(db, {n, e}, {n, e}, {n, e});
    if e !in db.endpoints {
      NewOwnerFrames(db, db.nodes[n := Node(key, Active)], e, Endpoint(n, Some("default")), {n, e});
    }
  }

  lemma CreateEndpointFrames(db: Db, n: Id, e: Id, name: Option<string>)
    ensures Frames(db, CreateEndpoint(db, n, e, name).db, {e}, {e}, {e})
  {
    hide Frames;
    NothingFrames(db, {e}, {e}, {e});
    if e !in db.endpoints {
      NewOwnerFrames(db, db.nodes, e, Endpoint(n, name), {e});
    }
  }

  lemma DropOwnersFrames(db: Db, ns: set<Id>, es: set<Id>)
    ensures Frames(db, DropOwners(db, ns, es), {}, {}, {})
  {
  }

  lemma NewCodeFrames(db: Db, c: Id, row: Code)
    requires c !in db.codes
    ensures Frames(db, db.(codes := db.codes[c := row]), {c}, {c}, {c})
  {
  }

  lemma RequestCodeFrames(db: Db, n: Id, source: Id, mode: Mode, c: Id, candidates: seq<string>, expiresAt: int)
    ensures Frames(db, RequestLinkCode(db, n, source, mode, c, candidates, expiresAt).db, {c}, {c}, {c})
  {
    hide Frames, FirstFreeCode, OwnershipDenial, NodeActive;
    NothingFrames(db, {c}, {c}, {c});
    var text := FirstFreeCode(db, candidates);
    if c !in db.codes && text.Some? {
      NewCodeFrames(db, c, Code(text.value, source, mode, expiresAt, Open));
    }
  }

  lemma InsertLinkFrames(db: Db, t: RedeemTicket, l: Id, ids: (Id, Id))
    requires t.Claim? && t.code in db.codes
    ensures var made := {l, ids.0, ids.1};
            Frames(db, InsertLink(db, t, l, ids), made, made, made)
  {
  }

  lemma ExpireFrames(db: Db, c: Id, ids: set<Id>)
    requires c in db.codes
    ensures Frames(db, db.(codes := db.codes[c := db.codes[c].(status := Expired)]), ids, ids, ids)
  {
  }

  lemma RedeemFrames(db: Db, t: RedeemTicket, l: Id, ids: (Id, Id))
    ensures var made := {l, ids.0, ids.1};
            Frames(db, FinishRedeem(db, t, l, ids).db, made, made, made)
  {
    hide Frames, InsertLink, LinkDenialOf;
    var made := {l, ids.0, ids.1};
    NothingFrames(db, made, made, made);
    if t.code in db.codes {
      ExpireFrames(db, t.code, made);
      if t.Claim? {
        InsertLinkFrames(db, t, l, ids);
      }
    }
  }

  lemma SeverFrames(db: Db, l: Id)
    requires l in db.links
    ensures Frames(db, SeverLink(db, l), {}, {}, {})
  {
  }

  lemma CommitFrames(db: Db, t: SendTicket)
    ensures Frames(db, Committed(db, t), {}, {t.deliveryId}, {t.eventId})
  {
  }

  lemma DropPacketsFrames(db: Db, gone: set<Id>, dead: set<Id>)
    ensures Frames(db, DropPackets(db.(deliveries := db.deliveries - gone), dead), {}, {}, {})
  {
  }

  lemma CleanupFrames(db: Db, now: int, s: Settings)
    ensures Frames(db, Cleanup(db, now, s), {}, {}, {})
  {
  }

  lemma RemovalFrames(db: Db, r: Removal)
    ensures Frames(db, FinishRemoval(db, r), {}, {}, {})
  {
    match r
    case DropEndpoint(e) => DropOwnersFrames(db, {}, {e});
    case DropAcked(d, p) => DropPacketsFrames(db, {d}, {p});
  }

  predicate ChangesOwners(a: Action) {
    a.DoRegister? || a.DoRotateKey? || a.DoSetNodeStatus? || a.DoDeleteIdentity? || a.DoCreateEndpoint? ||
    a.DoDeleteEndpoint? || a.EndRemoval?
  }

  predicate ChangesLinks(a: Action) {
    a.DoRequestCode? || a.EndRedeem? || a.DoRevokeLink? || a.DoAdminRevokeLink?
  }

  predicate ChangesQueue(a: Action) {
    a.DoSend? || a.CommitSend? || a.DoAck? || a.DoCleanup?
  }

  predicate DeletesOwners(a: Action) {
    a.DoDeleteIdentity? || a.DoDeleteEndpoint? || a.EndRemoval?
  }

  ghost predicate StepFrames(s: Sys, a: Action)
    requires Enabled(s, a)
  {
    Frames(s.db, NextDb(s, a), FreshIds(a), NewDeliveryIds(s, a), NewEventIds(s, a))
  }

  lemma OwnerStepFrames(s: Sys, a: Action)
    requires Enabled(s, a) && ChangesOwners(a)
    ensures StepFrames(s, a)
  {
    hide Frames, Register, CreateEndpoint, DropOwners, FinishRemoval, EndpointDeleteDenial;
    match a
    case DoRegister(n, e, key) => RegisterFrames(s.db, n, e, key);
    case DoCreateEndpoint(n, e, name) => CreateEndpointFrames(s.db, n, e, name);
    case DoDeleteIdentity(n) =>
      NothingFrames(s.db, {}, {}, {});
      DropOwnersFrames(s.db, {n}, OwnedEndpoints(s.db, n));
    case DoDeleteEndpoint(n, e, _) =>
      NothingFrames(s.db, {}, {}, {});
      DropOwnersFrames(s.db, {}, {e});
    case EndRemoval(task) => RemovalFrames(s.db, s.removals[task]);
    case DoRotateKey(n, key) => NodeUpdateFrames(s.db, RotateKey(s.db, n, key).db.nodes);
    case DoSetNodeStatus(n, status) => NodeUpdateFrames(s.db, SetNodeStatus(s.db, n, status).db.nodes);
  }

  lemma LinkStepFrames(s: Sys, a: Action)
    requires Enabled(s, a) && ChangesLinks(a)
    ensures StepFrames(s, a)
  {
    hide Frames, RequestLinkCode, FinishRedeem, SeverLink;
    match a
    case DoRequestCode(n, e, mode, c, candidates, expiresAt) =>
      RequestCodeFrames(s.db, n, e, mode, c, candidates, expiresAt);
    case EndRedeem(task, l, ids) => RedeemFrames(s.db, s.redeems[task], l, ids);
    case DoRevokeLink(_, l) =>
      NothingFrames(s.db, {}, {}, {});
      if l in s.db.links { SeverFrames(s.db, l); }
    case DoAdminRevokeLink(l) =>
      NothingFrames(s.db, {}, {}, {});
      if l in s.db.links { SeverFrames(s.db, l); }
  }

  lemma SendStepFrames(s: Sys, a: Action)
    requires Enabled(s, a) && a.DoSend?
    ensures StepFrames(s, a)
  {
    hide Frames, CommitSucceeds, Committed, RateDenial, CapDenial;
    NothingFrames(s.db, FreshIds(a), FreshIds(a), FreshIds(a));
    if DecisionOf(s, a).Insert? {
      var t := DecisionOf(s, a).ticket;
      CommitFrames(s.db, t);
      FramesWiden(s.db, Committed(s.db, t), {}, {t.deliveryId}, {t.eventId}, FreshIds(a));
    }
  }

  lemma QueueStepFrames(s: Sys, a: Action)
    requires Enabled(s, a) && ChangesQueue(a) && !a.DoSend?
    ensures StepFrames(s, a)
  {
    hide Frames, CommitSucceeds, Committed, DropPackets, Cleanup, AckTarget;
    NothingFrames(s.db, {}, NewDeliveryIds(s, a), NewEventIds(s, a));
    match a
    case CommitSend(task) => CommitFrames(s.db, s.sends[task].ticket);
    case DoAck(n, d, p, now) =>
      var target := AckTarget(s.db, d, p, now);
      if target.Some? { DropPacketsFrames(s.db, {target.value}, {s.db.deliveries[target.value].packet}); }
    case DoCleanup(now, settings) => CleanupFrames(s.db, now, settings);
  }

  ghost predicate SameOutsideLinks(db: Db, db': Db) {
    && db'.nodes == db.nodes && db'.endpoints == db.endpoints
    && db'.packets == db.packets && db'.deliveries == db.deliveries && db'.events == db.events
  }

  lemma RedeemStaysWithinLinks(db: Db, t: RedeemTicket, l: Id, ids: (Id, Id))
    ensures SameOutsideLinks(db, FinishRedeem(db, t, l, ids).db)
  {
    hide LinkDenialOf;
  }

  /** Link codes, links and routes are all that the link handlers change. */
  lemma LinkStepStaysWithinLinks(s: Sys, a: Action)
    requires Enabled(s, a) && ChangesLinks(a)
    ensures SameOutsideLinks(s.db, NextDb(s, a))
  {
    hide FinishRedeem, FirstFreeCode, OwnershipDenial, NodeActive, SameOutsideLinks;
    match a
    case EndRedeem(task, l, ids) => RedeemStaysWithinLinks(s.db, s.redeems[task], l, ids);
    case _ => RestStaysWithinLinks(s, a);
  }

  lemma RestStaysWithinLinks(s: Sys, a: Action)
    requires Enabled(s, a) && ChangesLinks(a) && !a.EndRedeem?
    ensures SameOutsideLinks(s.db, NextDb(s, a))
  {
    hide FirstFreeCode, OwnershipDenial, NodeActive;
  }

  lemma OtherStepChangesNothing(s: Sys, a: Action)
    requires Enabled(s, a) && !ChangesOwners(a) && !ChangesLinks(a) && !ChangesQueue(a)
    ensures NextDb(s, a) == s.db
  {
  }

  lemma StepIsFramed(s: Sys, a: Action)
    requires Enabled(s, a)
    ensures StepFrames(s, a)
  {
    hide StepFrames, NextDb;
    if ChangesOwners(a) {
      OwnerStepFrames(s, a);
    } else if ChangesLinks(a) {
      LinkStepFrames(s, a);
    } else if a.DoSend? {
      SendStepFrames(s, a);
    } else if ChangesQueue(a) {
      QueueStepFrames(s, a);
    } else {
      OtherStepFrames(s, a);
    }
  }

  lemma OtherStepFrames(s: Sys, a: Action)
    requires Enabled(s, a) && !ChangesOwners(a) && !ChangesLinks(a) && !ChangesQueue(a)
    ensures StepFrames(s, a)
  {
    hide NextDb, Frames;
    OtherStepChangesNothing(s, a);
    NothingFrames(s.db, FreshIds(a), FreshIds(a), FreshIds(a));
  }

  predicate TouchesCodes(a: Action) {
    a.DoRequestCode? || a.EndRedeem? || a.DoCleanup? || a.DoDeleteIdentity? || a.DoDeleteEndpoint? || a.EndRemoval?
  }

  lemma OtherActionsLeaveCodes(s: Sys, a: Action)
    requires Enabled(s, a) && !TouchesCodes(a)
    ensures NextDb(s, a).codes == s.db.codes
  {
  }

  lemma StepKeepsIdsMinted(s: Sys, a: Action)
    requires SysInv(s) && Enabled(s, a)
    ensures IdsMinted(Next(s, a))
  {
    hide Inv, NextDb, NextSends, NextRemovals, NextRedeems;
    StepIsFramed(s, a);
    if a.CommitSend? {
      assert SendTaskOk(s, s.sends[a.task]);
    }
  }

  lemma StepKeepsSendTask(s: Sys, a: Action, i: nat)
    requires SysInv(s) && Enabled(s, a) && i in s.sends && i in Next(s, a).sends && s.sends[i] == Next(s, a).sends[i]
    ensures SendTaskOk(Next(s, a), s.sends[i])
  {
    StepIsFramed(s, a);
    assert SendTaskOk(s, s.sends[i]);
  }

  lemma NewSendTaskOk(s: Sys, s': Sys, n: Id, t: SendTicket)
    requires s'.db == s.db && s.minted <= s'.minted && IdsMinted(s) && TicketFits(s.db, t) && n == t.packet.sender
    requires t.packet.sender in s.minted && t.packet.from in s.minted && t.packet.to in s.minted
    requires t.delivery.node in s.minted && t.deliveryId !in s.minted && t.eventId !in s.minted
    requires t.deliveryId in s'.minted && t.eventId in s'.minted && PacketMatches(t.packet, n, t.request)
    ensures SendTaskOk(s', Checked(n, t))
  {
  }

  lemma IssuedTicketIds(s: Sys, a: Action)
    requires Inv(s.db) && IdsMinted(s) && Enabled(s, a) && a.BeginSend? && DecisionOf(s, a).Insert?
    ensures var t := DecisionOf(s, a).ticket;
            t.packet.sender in s.minted && t.packet.from in s.minted && t.packet.to in s.minted &&
            t.delivery.node in s.minted &&
            a.node == t.packet.sender && t.deliveryId == a.ids.0 && t.eventId == a.ids.1 &&
            PacketMatches(t.packet, a.node, t.request)
  {
    assert s.db.endpoints[a.request.to].owner in s.db.nodes;
  }

  lemma StepKeepsSendTasks(s: Sys, a: Action)
    requires SysInv(s) && Enabled(s, a)
    ensures forall i :: i in Next(s, a).sends ==> SendTaskOk(Next(s, a), Next(s, a).sends[i])
  {
    var s' := Next(s, a);
    forall i | i in s'.sends
      ensures SendTaskOk(s', s'.sends[i])
    {
      if i in s.sends && s.sends[i] == s'.sends[i] {
        StepKeepsSendTask(s, a, i);
      } else if a.BeginSend? {
        IssuedTicketFits(s.db, a.node, a.request, a.clock, a.settings, a.storage, a.ids);
        IssuedTicketIds(s, a);
        NewSendTaskOk(s, s', a.node, DecisionOf(s, a).ticket);
      }
    }
  }

  lemma NewTicketStaysDistinct(sends: map<nat, SendTask>, task: nat, n: Id, t: SendTicket)
    requires DistinctTickets(sends)
    requires forall i :: i in sends && sends[i].Checked? ==>
               sends[i].ticket.deliveryId != t.deliveryId && sends[i].ticket.eventId != t.eventId
    ensures DistinctTickets(sends[task := Checked(n, t)])
  {
  }

  lemma TicketIdsAreMinted(s: Sys, i: nat)
    requires SysInv(s) && i in s.sends && s.sends[i].Checked?
    ensures s.sends[i].ticket.deliveryId in s.minted && s.sends[i].ticket.eventId in s.minted
  {
    assert SendTaskOk(s, s.sends[i]);
  }

  lemma StepKeepsTicketsDistinct(s: Sys, a: Action)
    requires SysInv(s) && Enabled(s, a)
    ensures DistinctTickets(NextSends(s, a))
  {
    if a.BeginSend? && DecisionOf(s, a).Insert? {
      IssuedTicketIds(s, a);
      forall i | i in s.sends && s.sends[i].Checked?
        ensures s.sends[i].ticket.deliveryId != a.ids.0 && s.sends[i].ticket.eventId != a.ids.1
      {
        TicketIdsAreMinted(s, i);
      }
      NewTicketStaysDistinct(s.sends, a.task, a.node, DecisionOf(s, a).ticket);
    }
  }

  lemma StepKeepsRedeemTickets(s: Sys, a: Action)
    requires SysInv(s) && Enabled(s, a)
    ensures forall i :: i in Next(s, a).redeems ==> RedeemTicketOk(Next(s, a), Next(s, a).redeems[i])
  {
    hide Inv, NextDb, NextSends, NextRemovals;
    var s' := Next(s, a);
    StepIsFramed(s, a);
    forall i | i in s'.redeems
      ensures RedeemTicketOk(s', s'.redeems[i])
    {
      if i in s.redeems {
        assert RedeemTicketOk(s, s.redeems[i]);
      }
    }
  }

  lemma StepKeepsRemoval(s: Sys, a: Action, r: Removal)
    requires SysInv(s) && Enabled(s, a) && RemovalOk(s, r)
    ensures RemovalOk(Next(s, a), r)
  {
    StepIsFramed(s, a);
    if r.DropAcked? {
      NewTicketsAreFresh(s, a);
    }
  }

  lemma NewTicketsAreFresh(s: Sys, a: Action)
    requires Enabled(s, a)
    ensures forall i :: i in NextSends(s, a) && NextSends(s, a)[i].Checked? ==>
              (i in s.sends && NextSends(s, a)[i] == s.sends[i]) || NextSends(s, a)[i].ticket.deliveryId in FreshIds(a)
  {
  }

  lemma BegunAckOk(s: Sys, a: Action)
    requires SysInv(s) && Enabled(s, a) && a.BeginAck? && Ack(s.db, a.node, a.delivery, a.packet, a.now).reply == Done
    ensures var d := AckTarget(s.db, a.delivery, a.packet, a.now).value;
            RemovalOk(Next(s, a), DropAcked(d, s.db.deliveries[d].packet))
  {
    hide Inv, NextRedeems;
    var d := AckTarget(s.db, a.delivery, a.packet, a.now).value;
    forall i | i in s.sends && s.sends[i].Checked?
      ensures s.sends[i].ticket.deliveryId != d
    {
      assert SendTaskOk(s, s.sends[i]);
    }
  }

  lemma StepKeepsRemovals(s: Sys, a: Action)
    requires SysInv(s) && Enabled(s, a)
    ensures forall i :: i in Next(s, a).removals ==> RemovalOk(Next(s, a), Next(s, a).removals[i])
  {
    var s' := Next(s, a);
    forall i | i in s'.removals
      ensures RemovalOk(s', s'.removals[i])
    {
      if i in s.removals && s'.removals[i] == s.removals[i] {
        StepKeepsRemoval(s, a, s.removals[i]);
      } else if a.BeginAck? {
        BegunAckOk(s, a);
      }
    }
  }

  /** Every transaction, in every interleaving, keeps the whole invariant. */
  lemma StepKeepsInvariant(s: Sys, a: Action)
    requires SysInv(s) && Enabled(s, a)
    ensures SysInv(Next(s, a))
  {
    StepKeepsDbInv(s, a);
    StepKeepsIdsMinted(s, a);
    StepKeepsSendTasks(s, a);
    StepKeepsTicketsDistinct(s, a);
    StepKeepsRedeemTickets(s, a);
    StepKeepsRemovals(s, a);
  }

  lemma {:induction false} RunKeepsInvariant(s: Sys, run: seq<Action>)
    requires SysInv(s) && Legal(s, run)
    ensures SysInv(After(s, run))
    decreases |run|
  {
    if run != [] {
      StepKeepsInvariant(s, run[0]);
      RunKeepsInvariant(Next(s, run[0]), run[1..]);
    }
  }

  /** Some run from the empty relay leads here. */
  ghost predicate Reachable(s: Sys) {
    exists run :: Legal(START, run) && After(START, run) == s
  }

  /** Every reachable state satisfies the invariant. */
  lemma ReachableInvariant(s: Sys)
    requires Reachable(s)
    ensures SysInv(s)
  {
    hide SysInv, Inv;
    var run :| Legal(START, run) && After(START, run) == s;
    RunKeepsInvariant(START, run);
  }

  lemma {:induction false} RunExtends(s: Sys, run: seq<Action>, a: Action)
    requires Legal(s, run) && Enabled(After(s, run), a)
    ensures Legal(s, run + [a]) && After(s, run + [a]) == Next(After(s, run), a)
    decreases |run|
  {
    var longer := run + [a];
    if run == [] {
      assert longer == [a] && longer[1..] == [];
      assert Legal(Next(s, a), []);
    } else {
      assert longer[0] == run[0] && longer[1..] == run[1..] + [a];
      RunExtends(Next(s, run[0]), run[1..], a);
    }
  }
}
