/** The bounds for interleaved sends cannot be improved: for every k there is a run of
    the relay, with k sends under way at a time and every limit at 1, that reaches all
    of them. The k sends are checked one after the other, and then commit. */
module RelayBurst {
  import opened RelayTables
  import opened RelaySpec
  import opened RelayInvariant
  import opened RelayRuns
  import opened RelayDelivery
  import opened RelayLimits
  import opened RelayLosses
  import opened RelayOvershoot
  import opened RelayWindows

  const ONES := Settings(60, 1, 1, 1, 1, 1, 1, 1, 9, false, 100)

  const SETUP := [REGISTER_A, REGISTER_B, CREATE] + LINKING

  function Letter(i: nat): SendRequest {
    REQUEST.(packet := 100 + i)
  }

  function DeliveryId(i: nat): Id {
    1000 + 2 * i
  }

  function EventId(i: nat): Id {
    1001 + 2 * i
  }

  function Begin(i: nat): Action {
    BeginSend(i, 1, Letter(i), EARLY, ONES, 0, (DeliveryId(i), EventId(i)))
  }

  const LETTER := Packet(1, 11, 13, REQUEST.content, 0, Some(10), 1)

  function BurstTicket(i: nat): SendTicket {
    SendTicket(Letter(i), LETTER, DeliveryId(i), Delivery(100 + i, 2, 13, 0), EventId(i), Event(1, 0), false, ONES)
  }

  /** The set-up and then the checks of `j` sends. */
  function BeginRun(j: nat): seq<Action> {
    if j == 0 then SETUP else BeginRun(j - 1) + [Begin(j - 1)]
  }

  /** The set-up, the checks of `k` sends, and then `j` commits. */
  function CommitRun(j: nat, k: nat): seq<Action> {
    if j == 0 then BeginRun(k) else CommitRun(j - 1, k) + [CommitSend(j - 1)]
  }

  function Burst(k: nat): seq<Action> {
    CommitRun(k, k)
  }

  function BurstIds(k: nat): (ids: set<Id>)
    ensures forall x :: x in ids ==> 1000 <= x < 1000 + 2 * k
  {
    if k == 0 then {} else BurstIds(k - 1) + {DeliveryId(k - 1), EventId(k - 1)}
  }

  /** The sends of the burst from `j` on. */
  function Pending(j: nat, k: nat): map<nat, SendTask> {
    map i: nat | j <= i < k :: Checked(1, BurstTicket(i))
  }

  /** The tables after `j` of the commits. */
  function Arrived(j: nat): Db {
    if j == 0 then LINKED else InsertPacket(Arrived(j - 1), BurstTicket(j - 1))
  }

  function Burning(db: Db, j: nat, k: nat, minted: nat): Sys {
    Sys(db, MINTED + BurstIds(minted), Pending(j, k), map[], map[])
  }

  // ------------------------------------------------------------- the tables

  ghost predicate PacketsArrived(packets: map<Id, Packet>, j: nat) {
    && (forall p :: p in packets <==> 100 <= p < 100 + j)
    && (forall p :: p in packets ==> packets[p] == LETTER)
  }

  ghost predicate DeliveriesArrived(deliveries: map<Id, Delivery>, j: nat) {
    && (forall d :: d in deliveries ==> d < DeliveryId(j) && 100 <= deliveries[d].packet < 100 + j)
    && (forall d :: d in deliveries ==> deliveries[d].node == 2 && deliveries[d].endpoint == 13)
    && |deliveries| == j
  }

  ghost predicate EventsArrived(events: map<Id, Event>, j: nat) {
    (forall e :: e in events ==> e < EventId(j) && events[e] == Event(1, 0)) && |events| == j
  }

  ghost predicate ArrivedOk(db: Db, j: nat) {
    && db.nodes == LINKED.nodes && db.endpoints == LINKED.endpoints && db.routes == LINKED.routes
    && PacketsArrived(db.packets, j) && DeliveriesArrived(db.deliveries, j) && EventsArrived(db.events, j)
  }

  lemma NothingArrived()
    ensures ArrivedOk(LINKED, 0)
  {
  }

  lemma {:induction false} ArrivedIsOk(j: nat)
    ensures ArrivedOk(Arrived(j), j)
  {
    hide ArrivedOk, InsertOk, InsertPacket;
    if j == 0 {
      NothingArrived();
    } else {
      ArrivedIsOk(j - 1);
      OneMoreArrives(Arrived(j - 1), j - 1);
    }
  }

  lemma PacketArrives(packets: map<Id, Packet>, j: nat)
    requires PacketsArrived(packets, j)
    ensures 100 + j !in packets && PacketsArrived(packets[100 + j := LETTER], j + 1)
  {
  }

  lemma DeliveryArrives(deliveries: map<Id, Delivery>, j: nat)
    requires DeliveriesArrived(deliveries, j)
    ensures DeliveryId(j) !in deliveries
    ensures DeliveriesArrived(deliveries[DeliveryId(j) := Delivery(100 + j, 2, 13, 0)], j + 1)
  {
  }

  lemma EventArrives(events: map<Id, Event>, j: nat)
    requires EventsArrived(events, j)
    ensures EventId(j) !in events && EventsArrived(events[EventId(j) := Event(1, 0)], j + 1)
  {
  }

  lemma NextFits(db: Db, j: nat)
    requires ArrivedOk(db, j)
    ensures InsertOk(db, BurstTicket(j))
  {
    hide EventsArrived;
    EventArrives(db.events, j);
  }

  lemma OneMoreArrives(db: Db, j: nat)
    requires ArrivedOk(db, j)
    ensures InsertOk(db, BurstTicket(j)) && ArrivedOk(InsertPacket(db, BurstTicket(j)), j + 1)
  {
    hide PacketsArrived, DeliveriesArrived, EventsArrived, InsertOk;
    NextFits(db, j);
    PacketArrives(db.packets, j);
    DeliveryArrives(db.deliveries, j);
    EventArrives(db.events, j);
  }

  // ---------------------------------------------------------- the run as a run

  lemma {:induction false} AtMostAppend(s: Sys, run: seq<Action>, a: Action, cfg: Settings, t: int, flow: Flow, k: nat)
    requires Legal(s, run) && Legal(s, run + [a]) && AtMost(s, run, cfg, t, flow, k)
    requires Timely(a, cfg, LastTime(run, t)) && !a.DoSend? && |Held(After(s, run + [a]), flow)| <= k
    ensures AtMost(s, run + [a], cfg, t, flow, k)
    ensures LastTime(run + [a], t) == TimeAfter(a, LastTime(run, t))
    decreases |run|
  {
    hide Timely, TimeAfter, Held, Enabled, Next;
    var longer := run + [a];
    if run == [] {
      assert longer[0] == a && longer[1..] == [] && longer == [a];
      assert LastTime(longer[1..], TimeAfter(a, t)) == TimeAfter(a, t);
      assert After(s, longer) == After(Next(s, a), []) == Next(s, a);
    } else {
      assert longer[0] == run[0] && longer[1..] == run[1..] + [a];
      AtMostAppend(Next(s, run[0]), run[1..], a, cfg, TimeAfter(run[0], t), flow, k);
    }
  }

  /** The run leads here at time 0, with at most k sends of any flow at a time. */
  ghost predicate Busy(run: seq<Action>, s: Sys, k: nat) {
    Leads(run, s) && LastTime(run, 0) == 0 && forall flow :: AtMost(START, run, ONES, 0, flow, k)
  }

  lemma HeldAreSends(s: Sys, flow: Flow)
    ensures |Held(s, flow)| <= |s.sends|
  {
    assert |s.sends.Keys| == |s.sends|;
    SizeAtMost(Held(s, flow), s.sends.Keys);
  }

  lemma BusyOn(run: seq<Action>, s: Sys, a: Action, s': Sys, k: nat)
    requires Busy(run, s, k) && Leads(run + [a], s') && |s'.sends| <= k
    requires Timely(a, ONES, 0) && TimeAfter(a, 0) == 0 && !a.DoSend?
    ensures Busy(run + [a], s', k)
  {
    hide Timely, TimeAfter, Held, Legal, After, AtMost;
    forall flow
      ensures AtMost(START, run + [a], ONES, 0, flow, k) && LastTime(run + [a], 0) == 0
    {
      HeldAreSends(s', flow);
      assert AtMost(START, run, ONES, 0, flow, k);
      AtMostAppend(START, run, a, ONES, 0, flow, k);
    }
    assert AtMost(START, run + [a], ONES, 0, From(0), k);
  }

  lemma SetupIsBusy(k: nat)
    ensures Busy(SETUP, Quiet(LINKED, MINTED, map[]), k)
  {
    RegistrationSteps();
    LinkingSteps([REGISTER_A, REGISTER_B, CREATE], map[]);
    forall flow
      ensures AtMost(START, SETUP, ONES, 0, flow, k) && LastTime(SETUP, 0) == 0
    {
      UnclockedIsQuiet(START, SETUP, ONES, 0, flow, k);
    }
    assert AtMost(START, SETUP, ONES, 0, From(0), k);
  }

  predicate Unclocked(a: Action) {
    ReadingOf(a).None? && !a.CommitSend?
  }

  lemma UnclockedKeepsSends(s: Sys, a: Action, t: int)
    requires Enabled(s, a) && Unclocked(a)
    ensures Next(s, a).sends == s.sends && Timely(a, ONES, t) && TimeAfter(a, t) == t
  {
    hide NextDb;
  }

  lemma {:induction false} UnclockedIsQuiet(s: Sys, run: seq<Action>, cfg: Settings, t: int, flow: Flow, k: nat)
    requires Legal(s, run) && s.sends == map[] && cfg == ONES
    requires forall i :: 0 <= i < |run| ==> Unclocked(run[i])
    ensures AtMost(s, run, cfg, t, flow, k) && LastTime(run, t) == t
    decreases |run|
  {
    if run != [] {
      hide NextDb, NextSends, Timely, TimeAfter, Unclocked;
      UnclockedKeepsSends(s, run[0], t);
      assert Held(Next(s, run[0]), flow) == {};
      UnclockedIsQuiet(Next(s, run[0]), run[1..], cfg, t, flow, k);
    }
  }

  // -------------------------------------------------------------- the burst

  lemma BurstPasses(i: nat)
    ensures CheckSend(LINKED, 1, Letter(i), EARLY, ONES, 0, (DeliveryId(i), EventId(i))) == Insert(BurstTicket(i))
  {
    assert IsActiveRoute(LINKED, 31, 11, 13);
    assert RecentSends(LINKED, 1, -60) == {};
    assert Queue(LINKED, OfEndpoint(13), 0) == {} && Queue(LINKED, OfNode(2), 0) == {};
    assert Queue(LINKED, Everywhere, 0) == {};
  }

  lemma NothingBurns(k: nat)
    ensures Busy(BeginRun(0), Burning(LINKED, 0, 0, 0), k)
  {
    hide Busy;
    SetupIsBusy(k);
    assert Pending(0, 0) == map[] && MINTED + BurstIds(0) == MINTED;
  }

  lemma {:induction false} BeginsAreBusy(j: nat, k: nat)
    requires j <= k
    ensures Busy(BeginRun(j), Burning(LINKED, 0, j, j), k)
  {
    hide Busy, CheckSend, Pending, BurstIds, FreshIds;
    if j == 0 {
      NothingBurns(k);
    } else {
      BeginsAreBusy(j - 1, k);
      BurstPasses(j - 1);
      MintOne(j - 1);
      OneMoreBegin(BeginRun(j - 1), LINKED, MINTED + BurstIds(j - 1), j - 1, k);
    }
  }

  lemma PendingSize(j: nat, k: nat)
    requires j <= k
    ensures |Pending(j, k)| == k - j
    decreases k - j
  {
    if j < k {
      PendingSize(j + 1, k);
      assert Pending(j, k) == Pending(j + 1, k)[j := Checked(1, BurstTicket(j))];
    }
  }

  lemma MintOne(j: nat)
    ensures MINTED + BurstIds(j) + FreshIds(Begin(j)) == MINTED + BurstIds(j + 1)
    ensures FreshIds(Begin(j)) !! MINTED + BurstIds(j)
  {
  }

  lemma PendingGrows(j: nat)
    ensures j !in Pending(0, j) && Pending(0, j)[j := Checked(1, BurstTicket(j))] == Pending(0, j + 1)
  {
  }

  lemma PendingShrinks(j: nat, k: nat)
    requires j < k
    ensures j in Pending(j, k) && Pending(j, k)[j] == Checked(1, BurstTicket(j))
    ensures Pending(j, k) - {j} == Pending(j + 1, k)
  {
  }

  lemma OneMoreBegin(run: seq<Action>, db: Db, ids: set<Id>, j: nat, k: nat)
    requires j < k && Busy(run, Sys(db, ids, Pending(0, j), map[], map[]), k)
    requires CheckSend(db, 1, Letter(j), EARLY, ONES, 0, (DeliveryId(j), EventId(j))) == Insert(BurstTicket(j))
    requires FreshIds(Begin(j)) !! ids
    ensures Busy(run + [Begin(j)], Sys(db, ids + FreshIds(Begin(j)), Pending(0, j + 1), map[], map[]), k)
  {
    hide CheckSend, AtMost, Legal, After, Pending, BurstTicket, Letter;
    var s := Sys(db, ids, Pending(0, j), map[], map[]);
    PendingGrows(j);
    LeadsByBegin(run, s, Begin(j), BurstTicket(j));
    PendingSize(0, j + 1);
    BusyOn(run, s, Begin(j), Sys(db, ids + FreshIds(Begin(j)), Pending(0, j + 1), map[], map[]), k);
  }

  lemma {:induction false} CommitsAreBusy(j: nat, k: nat)
    requires j <= k
    ensures Busy(CommitRun(j, k), Burning(Arrived(j), j, k, k), k)
  {
    hide Busy, InsertOk, InsertPacket, ArrivedOk, Pending, BurstIds, BurstTicket;
    if j == 0 {
      BeginsAreBusy(k, k);
    } else {
      CommitsAreBusy(j - 1, k);
      ArrivedIsOk(j - 1);
      OneMoreArrives(Arrived(j - 1), j - 1);
      OneMoreCommit(CommitRun(j - 1, k), Arrived(j - 1), Arrived(j), MINTED + BurstIds(k), j - 1, k);
    }
  }

  lemma CommitsUnpurged(db: Db, ticket: SendTicket)
    requires !ticket.purge
    ensures CommitSucceeds(db, ticket) <==> InsertOk(db, ticket)
    ensures Committed(db, ticket) == InsertPacket(db, ticket)
  {
  }

  lemma OneMoreCommit(run: seq<Action>, db: Db, db': Db, ids: set<Id>, j: nat, k: nat)
    requires j < k && Busy(run, Sys(db, ids, Pending(j, k), map[], map[]), k)
    requires InsertOk(db, BurstTicket(j)) && db' == InsertPacket(db, BurstTicket(j))
    ensures Busy(run + [CommitSend(j)], Sys(db', ids, Pending(j + 1, k), map[], map[]), k)
  {
    hide InsertOk, InsertPacket, CommitSucceeds, Committed, AtMost, Legal, After, Pending;
    var s := Sys(db, ids, Pending(j, k), map[], map[]);
    PendingShrinks(j, k);
    CommitsUnpurged(db, BurstTicket(j));
    LeadsByCommit(run, s, j, db');
    PendingSize(j + 1, k);
    BusyOn(run, s, CommitSend(j), Sys(db', ids, Pending(j + 1, k), map[], map[]), k);
  }

  // --------------------------------------------------------- what it reaches

  lemma {:induction false} OneByteEach(db: Db, ds: set<Id>)
    requires forall d :: d in ds ==> Payload(db, d) == 1
    ensures TotalBytes(db, ds) == |ds|
    decreases |ds|
  {
    if d :| d in ds {
      TotalBytesRemove(db, ds, d);
      OneByteEach(db, ds - {d});
    }
  }

  lemma ArrivedQueue(k: nat, scope: Scope)
    requires scope in {OfEndpoint(13), OfNode(2), Everywhere}
    ensures |Queue(Arrived(k), scope, 0)| == k && TotalBytes(Arrived(k), Queue(Arrived(k), scope, 0)) == k
  {
    ArrivedIsOk(k);
    var db := Arrived(k);
    assert Queue(db, scope, 0) == db.deliveries.Keys;
    assert |db.deliveries.Keys| == |db.deliveries|;
    OneByteEach(db, Queue(db, scope, 0));
  }

  /** Every bound for interleaved sends is reached, for every number of them. */
  lemma EveryOvershootIsReached(k: nat, scope: Scope)
    requires k >= 1 && scope in {OfEndpoint(13), OfNode(2), Everywhere}
    ensures Legal(START, Burst(k)) && forall flow :: AtMost(START, Burst(k), ONES, 0, flow, k)
    ensures var queue := Queue(After(START, Burst(k)).db, scope, 0);
            (PacketCap(ONES, scope).Some? ==> |queue| == PacketCap(ONES, scope).value + k - 1) &&
            TotalBytes(After(START, Burst(k)).db, queue) == ByteCap(ONES, scope) + (k - 1) * ONES.maxPacketBytes
    ensures |SendsInWindow(History(START, Burst(k), map[]), 1, 0, ONES.windowSeconds)| == ONES.maxSends + k - 1
  {
    hide Legal, After, AtMost, History;
    CommitsAreBusy(k, k);
    ArrivedQueue(k, scope);
    assert AtMost(START, Burst(k), ONES, 0, From(1), k);
    ArrivedWindow(Burst(k), Burning(Arrived(k), k, k, k), k);
  }

  lemma EventsAreInWindow(s: Sys, h: map<Id, Event>, k: nat)
    requires LogCoversHistory(s, h, ONES, 0) && EventsArrived(s.db.events, k)
    ensures |SendsInWindow(h, 1, 0, ONES.windowSeconds)| >= k
  {
    assert |s.db.events.Keys| == |s.db.events|;
    SizeAtMost(s.db.events.Keys, SendsInWindow(h, 1, 0, ONES.windowSeconds));
  }

  lemma ArrivedWindow(run: seq<Action>, s: Sys, k: nat)
    requires k >= 1 && Busy(run, s, k) && s.db == Arrived(k)
    ensures |SendsInWindow(History(START, run, map[]), 1, 0, ONES.windowSeconds)| == ONES.maxSends + k - 1
  {
    hide AtMost, WindowsOk, LogCoversHistory, EventsArrived, SendsInWindow, Held;
    assert AtMost(START, run, ONES, 0, From(1), k);
    StartHasRoom(ONES, 0, 1, k);
    StartInv();
    WindowsStayBounded(START, run, map[], ONES, 0, 1, k);
    InterleavedWindowsOvershootByLessThanK(run, ONES, 0, 1, 0, k);
    ArrivedIsOk(k);
    EventsAreInWindow(s, History(START, run, map[]), k);
  }
}
