/** Where a queued delivery comes from: it was there before the run, or the run
    accepted it, and never both. */
module RelayOrigins {
  import opened RelayTables
  import opened RelaySpec
  import opened RelayInvariant
  import opened RelayRuns
  import opened RelayDelivery

  ghost predicate AcceptsAs(s: Sys, a: Action, p: Id, d: Id)
    requires Enabled(s, a)
  {
    ReplyTo(s, a).Accepted? && ReplyTo(s, a).packet == p && ReplyTo(s, a).delivery == d
  }

  /** Some step of the run answers "accepted" for packet id `p` and delivery `d`. */
  ghost predicate AcceptedIn(s: Sys, run: seq<Action>, p: Id, d: Id)
    requires Legal(s, run)
    decreases |run|
  {
    run != [] && (AcceptsAs(s, run[0], p, d) || AcceptedIn(Next(s, run[0]), run[1..], p, d))
  }

  /** The delivery id has been handed out, and no send under way holds it. */
  ghost predicate Retired(s: Sys, d: Id) {
    d in s.minted && forall i :: i in s.sends && s.sends[i].Checked? ==> s.sends[i].ticket.deliveryId != d
  }

  lemma QueuedIsRetired(s: Sys, d: Id)
    requires SysInv(s) && d in s.db.deliveries
    ensures Retired(s, d)
  {
    forall i | i in s.sends && s.sends[i].Checked?
      ensures s.sends[i].ticket.deliveryId != d
    {
      assert SendTaskOk(s, s.sends[i]);
    }
  }

  lemma RetiredStays(s: Sys, a: Action, d: Id)
    requires Enabled(s, a) && Retired(s, d)
    ensures Retired(Next(s, a), d)
  {
    NewTicketsAreFresh(s, a);
  }

  lemma RetiredIsNotAccepted(s: Sys, a: Action, p: Id, d: Id)
    requires Enabled(s, a) && Retired(s, d)
    ensures !AcceptsAs(s, a, p, d)
  {
    if ReplyTo(s, a).Accepted? {
      var t := TicketOf(s, a);
    }
  }

  lemma {:induction false} RetiredIsNeverAccepted(s: Sys, run: seq<Action>, p: Id, d: Id)
    requires Legal(s, run) && Retired(s, d)
    ensures !AcceptedIn(s, run, p, d)
    decreases |run|
  {
    if run != [] {
      RetiredIsNotAccepted(s, run[0], p, d);
      RetiredStays(s, run[0], d);
      RetiredIsNeverAccepted(Next(s, run[0]), run[1..], p, d);
    }
  }

  lemma TicketsNameTheirPacket(s: Sys, a: Action)
    requires SysInv(s) && Enabled(s, a) && ReplyTo(s, a).Accepted?
    ensures TicketOf(s, a).delivery.packet == TicketOf(s, a).request.packet
  {
    if a.CommitSend? {
      assert SendTaskOk(s, s.sends[a.task]);
    } else {
      IssuedTicketFits(s.db, a.node, a.request, a.clock, a.settings, a.storage, a.ids);
    }
  }

  lemma StepOrigin(s: Sys, a: Action, d: Id)
    requires SysInv(s) && Enabled(s, a) && d in NextDb(s, a).deliveries
    ensures d in s.db.deliveries || AcceptsAs(s, a, NextDb(s, a).deliveries[d].packet, d)
  {
    if ReplyTo(s, a).Accepted? {
      TicketsNameTheirPacket(s, a);
    } else {
      QuietStepOnlyRemoves(s, a);
    }
  }

  /** The delivery and its packet have the same rows in both states. */
  ghost predicate SameRows(db: Db, db': Db, d: Id) {
    && d in db.deliveries && d in db'.deliveries && db'.deliveries[d] == db.deliveries[d]
    && db.deliveries[d].packet in db.packets && db.deliveries[d].packet in db'.packets
    && db'.packets[db.deliveries[d].packet] == db.packets[db.deliveries[d].packet]
  }

  lemma SameRowsTransitive(a: Db, b: Db, c: Db, d: Id)
    requires SameRows(a, b, d) && SameRows(b, c, d)
    ensures SameRows(a, c, d)
  {
  }

  /** A delivery in the queue after a run was in it before, unchanged, or was
      accepted on the way. */
  lemma {:induction false} DeliveryOrigin(s: Sys, run: seq<Action>, d: Id)
    requires SysInv(s) && Legal(s, run) && d in After(s, run).db.deliveries
    ensures SameRows(s.db, After(s, run).db, d) || AcceptedIn(s, run, After(s, run).db.deliveries[d].packet, d)
    decreases |run|
  {
    if run == [] {
      assert DeliveryOk(s.db, s.db.deliveries[d]);
    } else {
      var a := run[0];
      StepKeepsInvariant(s, a);
      DeliveryOrigin(Next(s, a), run[1..], d);
      if SameRows(Next(s, a).db, After(s, run).db, d) {
        if d in s.db.deliveries {
          SurvivorKeepsRows(s, a, d);
          SameRowsTransitive(s.db, Next(s, a).db, After(s, run).db, d);
        } else {
          StepOrigin(s, a, d);
        }
      }
    }
  }

  /** Not both: what was queued before a run is not among what it accepts. */
  lemma QueuedIsNotAcceptedAgain(s: Sys, run: seq<Action>, p: Id, d: Id)
    requires SysInv(s) && Legal(s, run) && d in s.db.deliveries
    ensures !AcceptedIn(s, run, p, d)
  {
    QueuedIsRetired(s, d);
    RetiredIsNeverAccepted(s, run, p, d);
  }

  /** An accepted delivery that is still queued is the delivery of that packet id. */
  lemma {:induction false} AcceptedKeepsItsPacket(s: Sys, run: seq<Action>, p: Id, d: Id)
    requires SysInv(s) && Legal(s, run) && AcceptedIn(s, run, p, d) && d in After(s, run).db.deliveries
    ensures After(s, run).db.deliveries[d].packet == p
    decreases |run|
  {
    var a := run[0];
    StepKeepsInvariant(s, a);
    if AcceptedIn(Next(s, a), run[1..], p, d) {
      AcceptedKeepsItsPacket(Next(s, a), run[1..], p, d);
    } else {
      TicketsNameTheirPacket(s, a);
      assert d in NextDb(s, a).deliveries && NextDb(s, a).deliveries[d].packet == p by {
        var t := TicketOf(s, a);
      }
      DeliveryOrigin(Next(s, a), run[1..], d);
      QueuedIsNotAcceptedAgain(Next(s, a), run[1..], After(s, run).db.deliveries[d].packet, d);
    }
  }

  ghost predicate Between(s: Sys, run: seq<Action>, end: Sys) {
    Legal(s, run) && end == After(s, run)
  }

  /** Of what is queued at the end of a run, the deliveries accepted on the way under
      an id are exactly those with that id that the start did not have. */
  lemma AcceptedIffNew(s: Sys, run: seq<Action>, end: Sys, p: Id, d: Id)
    requires SysInv(s) && Between(s, run, end) && d in end.db.deliveries
    ensures SysInv(end)
    ensures AcceptedIn(s, run, p, d) <==> end.db.deliveries[d].packet == p && !SameRows(s.db, end.db, d)
  {
    RunKeepsInvariant(s, run);
    DeliveryOrigin(s, run, d);
    if AcceptedIn(s, run, p, d) {
      AcceptedKeepsItsPacket(s, run, p, d);
    }
    if d in s.db.deliveries {
      QueuedIsNotAcceptedAgain(s, run, p, d);
    }
  }
}
