/** Every registered node keeps a default endpoint of its own for as long as it
    exists, and every accepted packet lives exactly as long as it was promised. */
module RelayIdentity {
  import opened RelayTables
  import opened RelaySpec
  import opened RelayInvariant
  import opened RelayRuns
  import opened RelayDelivery

  ghost predicate IsHome(db: Db, n: Id, e: Id) {
    e in db.endpoints && db.endpoints[e].owner == n && db.endpoints[e].name == Some("default")
  }

  ghost predicate EveryNodeHasAHome(db: Db) {
    forall n :: n in db.nodes ==> exists e :: IsHome(db, n, e)
  }

  /** A delete that is under way was checked not to be of a default endpoint. */
  ghost predicate NoHomeIsDoomed(s: Sys) {
    forall i :: i in s.removals && s.removals[i].DropEndpoint? ==>
      s.removals[i].endpoint in s.minted &&
      (s.removals[i].endpoint in s.db.endpoints ==>
         s.db.endpoints[s.removals[i].endpoint].name != Some("default"))
  }

  ghost predicate HomeInv(s: Sys) {
    EveryNodeHasAHome(s.db) && NoHomeIsDoomed(s)
  }

  /** The step keeps the endpoint row, or the row was not a protected one. */
  lemma HomeStays(s: Sys, a: Action, n: Id, e: Id)
    requires Enabled(s, a) && NoHomeIsDoomed(s) && IsHome(s.db, n, e) && n in NextDb(s, a).nodes
    ensures IsHome(NextDb(s, a), n, e)
  {
    if DeletesOwners(a) {
      DeleteKeepsHome(s, a, n, e);
    } else if ChangesOwners(a) {
      OwnerStepKeepsHome(s, a, n, e);
    } else if ChangesLinks(a) {
      LinkStepStaysWithinLinks(s, a);
    } else if ChangesQueue(a) {
      QueueStepKeepsEndpoints(s, a);
    } else {
      OtherStepChangesNothing(s, a);
    }
  }

  lemma DeleteKeepsHome(s: Sys, a: Action, n: Id, e: Id)
    requires Enabled(s, a) && DeletesOwners(a)
    requires NoHomeIsDoomed(s) && IsHome(s.db, n, e) && n in NextDb(s, a).nodes
    ensures IsHome(NextDb(s, a), n, e)
  {
  }

  lemma OwnerStepKeepsHome(s: Sys, a: Action, n: Id, e: Id)
    requires Enabled(s, a) && ChangesOwners(a) && !DeletesOwners(a) && IsHome(s.db, n, e)
    ensures IsHome(NextDb(s, a), n, e)
  {
  }

  ghost predicate SameOwners(db: Db, db': Db) {
    db'.endpoints == db.endpoints && db'.nodes == db.nodes
  }

  lemma CommitKeepsOwners(db: Db, ticket: SendTicket)
    ensures SameOwners(db, Committed(db, ticket))
  {
  }

  lemma SendKeepsOwners(
    db: Db, n: Id, q: SendRequest, clock: SendClock, s: Settings, storage: nat, ids: (Id, Id))
    ensures SameOwners(db, SendAlone(db, n, q, clock, s, storage, ids).db)
  {
    hide CheckSend, CommitSucceeds, Committed;
    var r := CheckSend(db, n, q, clock, s, storage, ids);
    if r.Insert? {
      CommitKeepsOwners(db, r.ticket);
    }
  }

  lemma AckKeepsOwners(db: Db, n: Id, d: Option<Id>, p: Option<Id>, now: int)
    ensures SameOwners(db, Ack(db, n, d, p, now).db)
  {
    hide AckTarget, NodeActive;
  }

  lemma QueueStepKeepsEndpoints(s: Sys, a: Action)
    requires Enabled(s, a) && ChangesQueue(a)
    ensures SameOwners(s.db, NextDb(s, a))
  {
    hide SendAlone, Committed, CommitSucceeds, Ack;
    match a
    case DoSend(n, q, clock, settings, storage, ids) => SendKeepsOwners(s.db, n, q, clock, settings, storage, ids);
    case CommitSend(task) => CommitKeepsOwners(s.db, s.sends[task].ticket);
    case DoAck(n, d, p, now) => AckKeepsOwners(s.db, n, d, p, now);
    case DoCleanup(_, _) =>
  }

  lemma NewNodesComeWithAHome(s: Sys, a: Action, n: Id)
    requires Enabled(s, a) && n in NextDb(s, a).nodes && n !in s.db.nodes
    ensures a.DoRegister? && IsHome(NextDb(s, a), n, a.endpoint)
  {
    if DeletesOwners(a) {
      DeleteAddsNoNode(s, a);
    } else if ChangesLinks(a) {
      LinkStepStaysWithinLinks(s, a);
    } else if ChangesQueue(a) {
      QueueStepKeepsEndpoints(s, a);
    } else if !ChangesOwners(a) {
      OtherStepChangesNothing(s, a);
    }
  }

  lemma DeleteAddsNoNode(s: Sys, a: Action)
    requires Enabled(s, a) && DeletesOwners(a)
    ensures NextDb(s, a).nodes.Keys <= s.db.nodes.Keys
  {
  }

  /** Endpoint names never change, and new endpoints get new ids. */
  lemma NamesAreFixed(s: Sys, a: Action, e: Id)
    requires Enabled(s, a) && e in NextDb(s, a).endpoints && e !in FreshIds(a)
    ensures e in s.db.endpoints && NextDb(s, a).endpoints[e].name == s.db.endpoints[e].name
  {
    if ChangesLinks(a) {
      LinkStepStaysWithinLinks(s, a);
    } else if ChangesQueue(a) {
      QueueStepKeepsEndpoints(s, a);
    } else if !ChangesOwners(a) {
      OtherStepChangesNothing(s, a);
    }
  }

  lemma BegunDeleteSparesHomes(s: Sys, a: Action)
    requires SysInv(s) && Enabled(s, a) && a.BeginDeleteEndpoint?
    requires EndpointDeleteDenial(s.db, a.node, a.endpoint, a.now).None?
    ensures a.endpoint in s.minted && a.endpoint in s.db.endpoints
    ensures s.db.endpoints[a.endpoint].name != Some("default")
  {
  }

  lemma StepSparesHomes(s: Sys, a: Action)
    requires SysInv(s) && Enabled(s, a) && NoHomeIsDoomed(s)
    ensures NoHomeIsDoomed(Next(s, a))
  {
    var s' := Next(s, a);
    forall i | i in s'.removals && s'.removals[i].DropEndpoint?
      ensures s'.removals[i].endpoint in s'.minted
      ensures s'.removals[i].endpoint in s'.db.endpoints ==>
                s'.db.endpoints[s'.removals[i].endpoint].name != Some("default")
    {
      var e := s'.removals[i].endpoint;
      if !(i in s.removals && s.removals[i] == s'.removals[i]) {
        BegunDeleteSparesHomes(s, a);
      }
      if e in s'.db.endpoints {
        NamesAreFixed(s, a, e);
      }
    }
  }

  lemma StepKeepsHomes(s: Sys, a: Action)
    requires SysInv(s) && Enabled(s, a) && HomeInv(s)
    ensures HomeInv(Next(s, a))
  {
    forall n | n in NextDb(s, a).nodes
      ensures exists e :: IsHome(NextDb(s, a), n, e)
    {
      if n in s.db.nodes {
        var e :| IsHome(s.db, n, e);
        HomeStays(s, a, n, e);
      } else {
        NewNodesComeWithAHome(s, a, n);
      }
    }
    StepSparesHomes(s, a);
  }

  lemma {:induction false} RunKeepsHomes(s: Sys, run: seq<Action>)
    requires SysInv(s) && HomeInv(s) && Legal(s, run)
    ensures HomeInv(After(s, run))
    decreases |run|
  {
    if run != [] {
      StepKeepsHomes(s, run[0]);
      StepKeepsInvariant(s, run[0]);
      RunKeepsHomes(Next(s, run[0]), run[1..]);
    }
  }

  /** In every reachable state every node owns an endpoint named "default". */
  lemma DefaultEndpointsSurvive(s: Sys, n: Id)
    requires Reachable(s) && n in s.db.nodes
    ensures exists e :: IsHome(s.db, n, e)
  {
    hide SysInv, Inv, IsHome;
    var run :| Legal(START, run) && After(START, run) == s;
    RunKeepsHomes(START, run);
  }

  // ----------------------------------------------------------- packet lifetime

  /** What a sender is promised: forever, or until the ttl after the commit stamp. */
  predicate Promised(s: Settings, ttl: Option<nat>, stamped: int, now: int) {
    (s.noExpiry && ttl.None?) || now < stamped + (if ttl.Some? then ttl.value else s.defaultTtl)
  }

  /** The answer of a send step that accepts a packet, interleaved or not: the
      packet is then unexpired at a time exactly if that was promised. */
  lemma AcceptedPacketsKeepTheirPromise(s: Sys, a: Action, now: int)
    requires SysInv(s) && Enabled(s, a) && ReplyTo(s, a).Accepted?
    ensures var t := TicketOf(s, a);
            ReplyTo(s, a).packet == t.request.packet && t.request.packet in NextDb(s, a).packets &&
            ReplyTo(s, a).expiresAt == NextDb(s, a).packets[t.request.packet].expiresAt &&
            (IsExpired(NextDb(s, a).packets[t.request.packet], now) <==>
             !Promised(t.settings, t.request.ttl, t.packet.createdAt, now))
  {
    hide Inv, IdsMinted, DistinctTickets;
    if a.CommitSend? {
      assert SendTaskOk(s, s.sends[a.task]);
    } else {
      IssuedTicketFits(s.db, a.node, a.request, a.clock, a.settings, a.storage, a.ids);
    }
  }
}
