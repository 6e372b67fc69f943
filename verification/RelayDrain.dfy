/** Draining an inbox: rounds of polling a page and acking all of it, each round a
    run of the relay in which anything but an acceptance may happen besides. */
module RelayDrain {
  import opened RelayTables
  import opened RelaySpec
  import opened RelayInvariant
  import opened RelayRuns
  import opened RelayDelivery
  import opened Paging

  /** What the inbox query sorts: the node's unexpired deliveries by queue time. */
  function InboxKeys(db: Db, n: Id, now: int): map<Id, int> {
    map d | d in Queue(db, OfNode(n), now) :: db.deliveries[d].queuedAt
  }

  ghost predicate IsInboxPage(db: Db, n: Id, limit: nat, now: int, page: seq<Id>) {
    IsPage(InboxKeys(db, n, now), limit, page)
  }

  ghost predicate NothingAccepted(s: Sys, run: seq<Action>)
    requires Legal(s, run)
    decreases |run|
  {
    run == [] || (!ReplyTo(s, run[0]).Accepted? && NothingAccepted(Next(s, run[0]), run[1..]))
  }

  lemma {:induction false} QuietRunOnlyRemoves(s: Sys, run: seq<Action>)
    requires Legal(s, run) && NothingAccepted(s, run)
    ensures OnlyRemoves(s.db, After(s, run).db)
    decreases |run|
  {
    if run != [] {
      QuietStepOnlyRemoves(s, run[0]);
      QuietRunOnlyRemoves(Next(s, run[0]), run[1..]);
    }
  }

  /** The step is an ack of the delivery by its node: whole, by delivery id, before
      `until`; or the deletes of an ack that read its rows earlier. */
  predicate AcksDelivery(s: Sys, a: Action, n: Id, d: Id, until: int)
    requires Enabled(s, a)
  {
    match a
    case DoAck(m, dn, _, t) => m == n && dn == Some(d) && t <= until && NodeActive(s.db, n)
    case EndRemoval(task) => s.removals[task].DropAcked? && s.removals[task].delivery == d
    case _ => false
  }

  ghost predicate AckedIn(s: Sys, run: seq<Action>, n: Id, d: Id, until: int)
    requires Legal(s, run)
    decreases |run|
  {
    run != [] && (AcksDelivery(s, run[0], n, d, until) || AckedIn(Next(s, run[0]), run[1..], n, d, until))
  }

  /** An ack takes its delivery out of the inbox for good, even when the packet
      expired in between and the ack is answered "not found". */
  lemma AckLeavesInbox(db: Db, n: Id, d: Id, packet: Option<Id>, now: int, later: int)
    requires NodeActive(db, n) && now <= later
    ensures d !in Queue(Ack(db, n, Some(d), packet, now).db, OfNode(n), later)
  {
  }

  lemma AckStepLeavesInbox(s: Sys, a: Action, n: Id, d: Id, until: int)
    requires Enabled(s, a) && AcksDelivery(s, a, n, d, until)
    ensures d !in Queue(NextDb(s, a), OfNode(n), until)
  {
    if a.DoAck? {
      AckLeavesInbox(s.db, n, d, a.packet, a.now, until);
    }
  }

  lemma RemovalShrinksQueue(db: Db, db': Db, scope: Scope, now: int, later: int)
    requires OnlyRemoves(db, db') && now <= later
    ensures Queue(db', scope, later) <= Queue(db, scope, now)
  {
  }

  lemma {:induction false} AckedIsGone(s: Sys, run: seq<Action>, n: Id, d: Id, until: int)
    requires Legal(s, run) && NothingAccepted(s, run) && AckedIn(s, run, n, d, until)
    ensures d !in Queue(After(s, run).db, OfNode(n), until)
    decreases |run|
  {
    var next := Next(s, run[0]);
    if AcksDelivery(s, run[0], n, d, until) {
      AckStepLeavesInbox(s, run[0], n, d, until);
      QuietRunOnlyRemoves(next, run[1..]);
      RemovalShrinksQueue(next.db, After(next, run[1..]).db, OfNode(n), until, until);
    } else {
      AckedIsGone(next, run[1..], n, d, until);
    }
  }

  /** One round: the poll at `now` of the state `sys`, and what happens until the
      next poll. */
  datatype Round = Round(sys: Sys, now: int, page: seq<Id>, run: seq<Action>)

  ghost predicate IsRound(n: Id, limit: nat, r: Round) {
    && IsInboxPage(r.sys.db, n, limit, r.now, r.page)
    && Legal(r.sys, r.run) && r.run != [] && r.run[0] == DoPoll(n, limit, r.now)
  }

  /** The next round comes later and starts where this one ends; in between the page
      is acked and no send is accepted. */
  ghost predicate Follows(n: Id, r: Round, next: Round) {
    && Legal(r.sys, r.run) && next.sys == After(r.sys, r.run) && r.now <= next.now
    && NothingAccepted(r.sys, r.run)
    && forall d :: d in r.page ==> AckedIn(r.sys, r.run, n, d, next.now)
  }

  ghost predicate FollowsAt(n: Id, rounds: seq<Round>, i: nat) {
    i + 1 < |rounds| ==> Follows(n, rounds[i], rounds[i + 1])
  }

  ghost predicate Draining(n: Id, limit: nat, rounds: seq<Round>) {
    && (forall r :: r in rounds ==> IsRound(n, limit, r))
    && (forall i: nat :: FollowsAt(n, rounds, i))
  }

  function Inbox(n: Id, r: Round): set<Id> {
    Queue(r.sys.db, OfNode(n), r.now)
  }

  function Elements(page: seq<Id>): set<Id> {
    set d | d in page
  }

  /** The later round finds only what the earlier one had and left. */
  ghost predicate SeesLess(n: Id, r: Round, later: Round) {
    OnlyRemoves(r.sys.db, later.sys.db) && Inbox(n, later) <= Inbox(n, r) - Elements(r.page)
  }

  lemma SeesLessTransitive(n: Id, a: Round, b: Round, c: Round)
    requires SeesLess(n, a, b) && SeesLess(n, b, c)
    ensures SeesLess(n, a, c)
  {
  }

  lemma RoundTakesItsPage(n: Id, r: Round, next: Round)
    requires Follows(n, r, next)
    ensures SeesLess(n, r, next)
  {
    QuietRunOnlyRemoves(r.sys, r.run);
    RemovalShrinksQueue(r.sys.db, next.sys.db, OfNode(n), r.now, next.now);
    forall d | d in r.page
      ensures d !in Inbox(n, next)
    {
      AckedIsGone(r.sys, r.run, n, d, next.now);
    }
  }

  lemma RoundShrinksInbox(n: Id, limit: nat, r: Round, next: Round)
    requires IsRound(n, limit, r) && Follows(n, r, next)
    ensures |Inbox(n, next)| <= |Inbox(n, r)| - Min(limit, |Inbox(n, r)|)
  {
    RoundTakesItsPage(n, r, next);
    var keys := InboxKeys(r.sys.db, n, r.now);
    assert keys.Keys == Inbox(n, r);
    DistinctSize(r.page, Inbox(n, r));
    SubsetSize(Inbox(n, next), Inbox(n, r) - Elements(r.page));
  }

  /** After k rounds at least k * limit of the deliveries are gone. */
  lemma {:induction false} RoundsShrinkInbox(n: Id, limit: nat, rounds: seq<Round>, k: nat)
    requires Draining(n, limit, rounds) && k < |rounds|
    ensures |Inbox(n, rounds[k])| == 0 || |Inbox(n, rounds[k])| + k * limit <= |Inbox(n, rounds[0])|
  {
    if k > 0 {
      RoundsShrinkInbox(n, limit, rounds, k - 1);
      assert FollowsAt(n, rounds, k - 1);
      RoundShrinksInbox(n, limit, rounds[k - 1], rounds[k]);
      assert k * limit == (k - 1) * limit + limit;
    }
  }

  function RoundsNeeded(n: nat, limit: nat): nat
    requires limit >= 1
  {
    (n + limit - 1) / limit
  }

  lemma RoundsNeededSuffice(n: nat, limit: nat)
    requires limit >= 1
    ensures RoundsNeeded(n, limit) * limit >= n
  {
    assert n + limit - 1 == limit * ((n + limit - 1) / limit) + (n + limit - 1) % limit;
  }

  /** An inbox of n deliveries is empty after ceil(n / limit) rounds. */
  lemma InboxIsDrained(n: Id, limit: nat, rounds: seq<Round>)
    requires limit >= 1 && rounds != [] && Draining(n, limit, rounds)
    requires RoundsNeeded(|Inbox(n, rounds[0])|, limit) < |rounds|
    ensures Inbox(n, rounds[RoundsNeeded(|Inbox(n, rounds[0])|, limit)]) == {}
  {
    var size := |Inbox(n, rounds[0])|;
    var k := RoundsNeeded(size, limit);
    RoundsShrinkInbox(n, limit, rounds, k);
    RoundsNeededSuffice(size, limit);
  }

  lemma NextRoundSeesLess(n: Id, limit: nat, rounds: seq<Round>, i: nat)
    requires Draining(n, limit, rounds) && i + 1 < |rounds|
    ensures SeesLess(n, rounds[i], rounds[i + 1])
  {
    assert FollowsAt(n, rounds, i);
    RoundTakesItsPage(n, rounds[i], rounds[i + 1]);
  }

  lemma {:induction false} LaterRoundsSeeLess(n: Id, limit: nat, rounds: seq<Round>, i: nat, j: nat)
    requires Draining(n, limit, rounds) && i < j < |rounds|
    ensures SeesLess(n, rounds[i], rounds[j])
    decreases j
  {
    NextRoundSeesLess(n, limit, rounds, j - 1);
    if i < j - 1 {
      LaterRoundsSeeLess(n, limit, rounds, i, j - 1);
      SeesLessTransitive(n, rounds[i], rounds[j - 1], rounds[j]);
    }
  }

  lemma PageComesFirst(db: Db, n: Id, limit: nat, now: int, page: seq<Id>, x: Id, y: Id)
    requires IsInboxPage(db, n, limit, now, page) && x in page && y in Queue(db, OfNode(n), now) - Elements(page)
    ensures x in db.deliveries && db.deliveries[x].queuedAt <= db.deliveries[y].queuedAt && y !in page
  {
    var keys := InboxKeys(db, n, now);
    assert x in keys && y in keys;
  }

  /** First in, first out across rounds: what an earlier round hands over was
      queued no later than what a later round hands over, and nothing is handed
      over twice. */
  lemma DrainIsFifo(n: Id, limit: nat, rounds: seq<Round>, i: nat, j: nat, x: Id, y: Id)
    requires Draining(n, limit, rounds) && i < j < |rounds|
    requires x in rounds[i].page && y in rounds[j].page
    ensures x != y && x in rounds[i].sys.db.deliveries && y in rounds[i].sys.db.deliveries
    ensures y in rounds[j].sys.db.deliveries
    ensures rounds[i].sys.db.deliveries[x].queuedAt <= rounds[j].sys.db.deliveries[y].queuedAt
  {
    LaterRoundsSeeLess(n, limit, rounds, i, j);
    assert rounds[i] in rounds && rounds[j] in rounds;
    assert y in InboxKeys(rounds[j].sys.db, n, rounds[j].now);
    PageComesFirst(rounds[i].sys.db, n, limit, rounds[i].now, rounds[i].page, x, y);
  }
}
