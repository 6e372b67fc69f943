/** Three runs of the relay, each from the empty relay, that end with a live packet
    being taken away by a write decided on an older read. `RelayRaces` says for all
    runs when this happens. */
module RelayLosses {
  import opened RelayTables
  import opened RelaySpec
  import opened RelayInvariant
  import opened RelayRuns

  ghost predicate Leads(run: seq<Action>, s: Sys) {
    Legal(START, run) && After(START, run) == s
  }

  lemma LeadsOn(run: seq<Action>, s: Sys, a: Action, s': Sys)
    requires Leads(run, s) && Enabled(s, a) && Next(s, a) == s'
    ensures Leads(run + [a], s')
  {
    RunExtends(START, run, a);
  }

  /** A send that passes its checks waits with its ticket. */
  lemma LeadsByBegin(run: seq<Action>, s: Sys, a: Action, t: SendTicket)
    requires Leads(run, s) && a.BeginSend? && FreshIds(a) !! s.minted && a.ids.0 != a.ids.1 && a.task !in s.sends
    requires CheckSend(s.db, a.node, a.request, a.clock, a.settings, a.storage, a.ids) == Insert(t)
    ensures Leads(run + [a], s.(minted := s.minted + FreshIds(a), sends := s.sends[a.task := Checked(a.node, t)]))
  {
    LeadsOn(run, s, a, s.(minted := s.minted + FreshIds(a), sends := s.sends[a.task := Checked(a.node, t)]));
  }

  lemma LeadsByCommit(run: seq<Action>, s: Sys, task: nat, db: Db)
    requires Leads(run, s) && task in s.sends && s.sends[task].Checked?
    requires CommitSucceeds(s.db, s.sends[task].ticket) && Committed(s.db, s.sends[task].ticket) == db
    ensures Leads(run + [CommitSend(task)], s.(db := db, sends := s.sends - {task}))
  {
    assert s.minted + FreshIds(CommitSend(task)) == s.minted;
    LeadsOn(run, s, CommitSend(task), s.(db := db, sends := s.sends - {task}));
  }

  lemma LeadsBySend(run: seq<Action>, s: Sys, a: Action, t: SendTicket, db: Db)
    requires Leads(run, s) && a.DoSend? && FreshIds(a) !! s.minted && a.ids.0 != a.ids.1
    requires CheckSend(s.db, a.node, a.request, a.clock, a.settings, a.storage, a.ids) == Insert(t)
    requires CommitSucceeds(s.db, t) && Committed(s.db, t) == db
    ensures Leads(run + [a], s.(db := db, minted := s.minted + FreshIds(a)))
  {
    assert SendAlone(s.db, a.node, a.request, a.clock, a.settings, a.storage, a.ids).db == db;
    LeadsOn(run, s, a, s.(db := db, minted := s.minted + FreshIds(a)));
  }

  lemma LeadsByAck(run: seq<Action>, s: Sys, a: Action, db: Db)
    requires Leads(run, s) && a.DoAck? && Ack(s.db, a.node, a.delivery, a.packet, a.now).db == db
    ensures Leads(run + [a], s.(db := db))
  {
    assert s.minted + FreshIds(a) == s.minted;
    LeadsOn(run, s, a, s.(db := db));
  }

  lemma LeadsByBeginAck(run: seq<Action>, s: Sys, a: Action, d: Id)
    requires Leads(run, s) && a.BeginAck? && a.task !in s.removals
    requires Ack(s.db, a.node, a.delivery, a.packet, a.now).reply == Done
    requires AckTarget(s.db, a.delivery, a.packet, a.now) == Some(d)
    ensures d in s.db.deliveries
    ensures Leads(run + [a], s.(removals := s.removals[a.task := DropAcked(d, s.db.deliveries[d].packet)]))
  {
    assert s.minted + FreshIds(a) == s.minted;
    LeadsOn(run, s, a, s.(removals := s.removals[a.task := DropAcked(d, s.db.deliveries[d].packet)]));
  }

  /** After the run a delivery of the node is queued and unexpired, and the next
      step drops it. */
  ghost predicate LosesLivePacket(run: seq<Action>, last: Action, d: Id, node: Id, now: int) {
    && Legal(START, run) && Enabled(After(START, run), last)
    && d in Queue(After(START, run).db, OfNode(node), now)
    && d !in NextDb(After(START, run), last).deliveries
  }

  lemma LosesByCommit(run: seq<Action>, s: Sys, task: nat, d: Id, node: Id, now: int)
    requires Leads(run, s) && task in s.sends && s.sends[task].Checked? && CommitSucceeds(s.db, s.sends[task].ticket)
    requires d in Queue(s.db, OfNode(node), now) && d !in Committed(s.db, s.sends[task].ticket).deliveries
    ensures LosesLivePacket(run, CommitSend(task), d, node, now)
    ensures ReplyTo(After(START, run), CommitSend(task)).Accepted?
  {
  }

  lemma LosesByRemoval(run: seq<Action>, s: Sys, task: nat, d: Id, node: Id, now: int)
    requires Leads(run, s) && task in s.removals && d in Queue(s.db, OfNode(node), now)
    requires d !in FinishRemoval(s.db, s.removals[task]).deliveries
    ensures LosesLivePacket(run, EndRemoval(task), d, node, now)
    ensures task in After(START, run).removals && After(START, run).removals[task] == s.removals[task]
  {
    hide DropOwners, DropPackets;
  }

  // ------------------------------------------------- two nodes and a link

  const REGISTER_A := DoRegister(1, 11, 0)

  const REGISTER_B := DoRegister(2, 12, 0)

  const CREATE := DoCreateEndpoint(2, 13, None)

  const REQUEST_CODE := DoRequestCode(1, 11, AToB, 61, ["A"], 1000)

  const BEGIN_REDEEM := BeginRedeem(0, 2, "A", 13, 1)

  const END_REDEEM := EndRedeem(0, 21, (31, 32))

  const ONE := EMPTY_DB.(nodes := map[1 := Node(0, Active)], endpoints := map[11 := Endpoint(1, Some("default"))])

  const TWO := ONE.(nodes := ONE.nodes[2 := Node(0, Active)],
                    endpoints := ONE.endpoints[12 := Endpoint(2, Some("default"))])

  const THREE := TWO.(endpoints := TWO.endpoints[13 := Endpoint(2, None)])

  const CODE := Code("A", 11, AToB, 1000, Open)

  const CODED := THREE.(codes := map[61 := CODE])

  const LINKED := THREE.(codes := map[61 := CODE.(status := Used)],
                         links := map[21 := Link(11, 13, AToB, Active)],
                         routes := map[31 := Route(11, 13, Active, Some(21))])

  const CLAIM := Claim(61, 11, AToB, 13)

  const PEOPLE: set<Id> := {1, 11, 2, 12, 13}

  const MINTED: set<Id> := PEOPLE + {61, 21, 31, 32}

  /** A state in which nothing but removals is under way. */
  function Quiet(db: Db, minted: set<Id>, r: map<nat, Removal>): Sys {
    Sys(db, minted, map[], map[], r)
  }

  lemma RegistrationSteps()
    ensures Leads([REGISTER_A, REGISTER_B, CREATE], Quiet(THREE, PEOPLE, map[]))
  {
    var a := Quiet(ONE, {1, 11}, map[]);
    var b := Quiet(TWO, {1, 11, 2, 12}, map[]);
    assert Next(START, REGISTER_A) == a;
    assert Next(a, REGISTER_B) == b;
    assert Next(b, CREATE) == Quiet(THREE, PEOPLE, map[]);
    LeadsOn([], START, REGISTER_A, a);
    LeadsOn([REGISTER_A], a, REGISTER_B, b);
    LeadsOn([REGISTER_A, REGISTER_B], b, CREATE, Quiet(THREE, PEOPLE, map[]));
    assert [] + [REGISTER_A] == [REGISTER_A];
    assert [REGISTER_A] + [REGISTER_B] == [REGISTER_A, REGISTER_B];
    assert [REGISTER_A, REGISTER_B] + [CREATE] == [REGISTER_A, REGISTER_B, CREATE];
  }

  lemma RequestStep(r: map<nat, Removal>)
    ensures Enabled(Quiet(THREE, PEOPLE, r), REQUEST_CODE)
    ensures Next(Quiet(THREE, PEOPLE, r), REQUEST_CODE) == Quiet(CODED, PEOPLE + {61}, r)
  {
    assert !CodeTextTaken(THREE, "A");
    assert FirstFreeCode(THREE, ["A"]) == Some("A");
  }

  lemma CodeIsFound()
    ensures FindCode(CODED, "A") == Some(61)
  {
    assert IsCodeWithText(CODED, 61, "A");
  }

  lemma BeginRedeemStep(r: map<nat, Removal>)
    ensures Enabled(Quiet(CODED, PEOPLE + {61}, r), BEGIN_REDEEM)
    ensures Next(Quiet(CODED, PEOPLE + {61}, r), BEGIN_REDEEM) ==
            Sys(CODED, PEOPLE + {61}, map[], map[0 := CLAIM], r)
  {
    CodeIsFound();
  }

  lemma ClaimSucceeds()
    ensures FinishRedeem(CODED, CLAIM, 21, (31, 32)).db == LINKED
  {
    assert ResolveRedeemRoutes(11, 13, AToB) == [(11, 13)];
    assert LinkDenialOf(CODED, 11, AToB, 13, 21, (31, 32)).None?;
  }

  lemma EndRedeemStep(r: map<nat, Removal>)
    ensures var s := Sys(CODED, PEOPLE + {61}, map[], map[0 := CLAIM], r);
            Enabled(s, END_REDEEM) && Next(s, END_REDEEM) == Quiet(LINKED, MINTED, r)
  {
    ClaimSucceeds();
    assert map[0 := CLAIM] - {0} == map[];
    assert PEOPLE + {61} + {21, 31, 32} == MINTED;
  }

  const LINKING := [REQUEST_CODE, BEGIN_REDEEM, END_REDEEM]

  lemma LinkingSteps(run: seq<Action>, r: map<nat, Removal>)
    requires Leads(run, Quiet(THREE, PEOPLE, r))
    ensures Leads(run + LINKING, Quiet(LINKED, MINTED, r))
  {
    RequestStep(r);
    BeginRedeemStep(r);
    EndRedeemStep(r);
    var coded := Quiet(CODED, PEOPLE + {61}, r);
    var claiming := Sys(CODED, PEOPLE + {61}, map[], map[0 := CLAIM], r);
    LeadsOn(run, Quiet(THREE, PEOPLE, r), REQUEST_CODE, coded);
    LeadsOn(run + [REQUEST_CODE], coded, BEGIN_REDEEM, claiming);
    LeadsOn(run + [REQUEST_CODE] + [BEGIN_REDEEM], claiming, END_REDEEM, Quiet(LINKED, MINTED, r));
    assert run + [REQUEST_CODE] + [BEGIN_REDEEM] + [END_REDEEM] == run + LINKING;
  }

  // ------------------------------------------------------------ the first send

  const LIMITS := Settings(60, 9, 9, 9, 9, 9, 9, 9, 9, false, 100)

  const REQUEST := SendRequest(5, 11, 13, Content(1, "{}", None, "{}", "{}"), 1, Some(10))

  const EARLY := SendClock(0, 0, 0, 0)

  const LATE := SendClock(20, 20, 20, 20)

  const SEND := DoSend(1, REQUEST, EARLY, LIMITS, 0, (41, 42))

  const RESEND := DoSend(1, REQUEST, LATE, LIMITS, 0, (51, 52))

  const SENT := LINKED.(
    packets := map[5 := Packet(1, 11, 13, REQUEST.content, 0, Some(10), 1)],
    deliveries := map[41 := Delivery(5, 2, 13, 0)],
    events := map[42 := Event(1, 0)])

  const HELD: set<Id> := MINTED + {41, 42}

  function Ticket(clock: SendClock, ids: (Id, Id), purge: bool): SendTicket {
    MakeTicket(LINKED, 1, REQUEST, clock, LIMITS, ids, purge)
  }

  /** The linked tables without packets; at most one send is on record. */
  predicate Idle(db: Db) {
    && db.nodes == LINKED.nodes && db.endpoints == LINKED.endpoints && db.routes == LINKED.routes
    && db.packets == map[] && db.deliveries == map[] && (forall e :: e in db.events ==> e == 42)
  }

  lemma IdleHasRoom(db: Db, clock: SendClock)
    requires Idle(db)
    ensures RateDenial(db, 1, clock.rated, LIMITS).None?
    ensures CapDenial(db, 13, 2, 1, clock.sized, LIMITS, 0).None?
  {
    var sends := RecentSends(db, 1, clock.rated - LIMITS.windowSeconds);
    assert sends <= {42};
    assert sends == {} || sends == {42};
    assert Queue(db, OfEndpoint(13), clock.sized) == {} && Queue(db, OfNode(2), clock.sized) == {};
    assert Queue(db, Everywhere, clock.sized) == {};
  }

  lemma GateIsOpen(db: Db)
    requires db.nodes == LINKED.nodes && db.endpoints == LINKED.endpoints && db.routes == LINKED.routes
    ensures SendGate(db, 1, REQUEST, LIMITS).None?
  {
    assert IsActiveRoute(db, 31, 11, 13);
  }

  lemma SendPasses()
    ensures CheckSend(LINKED, 1, REQUEST, EARLY, LIMITS, 0, (41, 42)) == Insert(Ticket(EARLY, (41, 42), false))
  {
    GateIsOpen(LINKED);
    IdleHasRoom(LINKED, EARLY);
  }

  lemma SendCommits()
    ensures CommitSucceeds(LINKED, Ticket(EARLY, (41, 42), false))
    ensures Committed(LINKED, Ticket(EARLY, (41, 42), false)) == SENT
  {
  }

  lemma LeadsByFirstSend(run: seq<Action>, r: map<nat, Removal>)
    requires Leads(run, Quiet(LINKED, MINTED, r))
    ensures Leads(run + [SEND], Quiet(SENT, HELD, r))
  {
    hide CheckSend, CommitSucceeds, Committed, Legal, After;
    SendPasses();
    SendCommits();
    LeadsBySend(run, Quiet(LINKED, MINTED, r), SEND, Ticket(EARLY, (41, 42), false), SENT);
  }

  // ------------------------------------------------------------ a stale purge

  const FIRST := BeginSend(0, 1, REQUEST, LATE, LIMITS, 0, (51, 52))

  const SECOND := BeginSend(1, 1, REQUEST, LATE, LIMITS, 0, (53, 54))

  const STALE_PURGE_RUN := [REGISTER_A, REGISTER_B, CREATE] + LINKING + [SEND] + [FIRST] + [SECOND] + [CommitSend(0)]

  lemma BothSendsPass(ids: (Id, Id))
    ensures CheckSend(SENT, 1, REQUEST, LATE, LIMITS, 0, ids) == Insert(Ticket(LATE, ids, true))
  {
    GateIsOpen(SENT);
    assert Purged(SENT, 5, true).deliveries == map[];
    IdleHasRoom(Purged(SENT, 5, true), LATE);
  }

  const RESENT := SENT.(
    packets := map[5 := Packet(1, 11, 13, REQUEST.content, 20, Some(30), 1)],
    deliveries := map[51 := Delivery(5, 2, 13, 20)],
    events := map[42 := Event(1, 0), 52 := Event(1, 20)])

  lemma FirstCommits()
    ensures CommitSucceeds(SENT, Ticket(LATE, (51, 52), true))
    ensures Committed(SENT, Ticket(LATE, (51, 52), true)) == RESENT
  {
    assert Purged(SENT, 5, true).deliveries == map[];
    assert Purged(SENT, 5, true).packets == map[];
  }

  const ONE_CHECKED: map<nat, SendTask> := map[0 := Checked(1, Ticket(LATE, (51, 52), true))]

  const BOTH_CHECKED := ONE_CHECKED[1 := Checked(1, Ticket(LATE, (53, 54), true))]

  const ONE_HELD := Sys(SENT, HELD + {51, 52}, ONE_CHECKED, map[], map[])

  const BOTH_HELD := Sys(SENT, HELD + {51, 52} + {53, 54}, BOTH_CHECKED, map[], map[])

  const ONE_LEFT := Sys(RESENT, HELD + {51, 52} + {53, 54}, BOTH_CHECKED - {0}, map[], map[])

  lemma SecondCommits()
    ensures CommitSucceeds(RESENT, Ticket(LATE, (53, 54), true))
    ensures 51 !in Committed(RESENT, Ticket(LATE, (53, 54), true)).deliveries
  {
    assert Purged(RESENT, 5, true).deliveries == map[];
    assert Purged(RESENT, 5, true).packets == map[];
  }

  lemma SentRun()
    ensures Leads([REGISTER_A, REGISTER_B, CREATE] + LINKING + [SEND], Quiet(SENT, HELD, map[]))
  {
    RegistrationSteps();
    LinkingSteps([REGISTER_A, REGISTER_B, CREATE], map[]);
    LeadsByFirstSend([REGISTER_A, REGISTER_B, CREATE] + LINKING, map[]);
  }

  lemma BothBegin(run: seq<Action>)
    requires Leads(run, Quiet(SENT, HELD, map[]))
    ensures Leads(run + [FIRST] + [SECOND], BOTH_HELD)
  {
    hide CheckSend, CommitSucceeds, Committed, Legal, After;
    BothSendsPass((51, 52));
    LeadsByBegin(run, Quiet(SENT, HELD, map[]), FIRST, Ticket(LATE, (51, 52), true));
    BothSendsPass((53, 54));
    LeadsByBegin(run + [FIRST], ONE_HELD, SECOND, Ticket(LATE, (53, 54), true));
  }

  /** Two sends of one id are both accepted, and the second acceptance takes the
      live delivery of the first out of the queue. */
  lemma StalePurgeLosesALivePacket()
    ensures LosesLivePacket(STALE_PURGE_RUN, CommitSend(1), 51, 2, 20)
    ensures ReplyTo(After(START, STALE_PURGE_RUN), CommitSend(1)).Accepted?
  {
    SentRun();
    BothBegin([REGISTER_A, REGISTER_B, CREATE] + LINKING + [SEND]);
    FirstCommits();
    LeadsByCommit([REGISTER_A, REGISTER_B, CREATE] + LINKING + [SEND] + [FIRST] + [SECOND], BOTH_HELD, 0, RESENT);
    SecondCommits();
    LosesByCommit(STALE_PURGE_RUN, ONE_LEFT, 1, 51, 2, 20);
  }

  // ------------------------------------------------------------ a late ack

  const BEGIN_ACK := BeginAck(0, 2, Some(41), None, 5)

  const ACK := DoAck(2, Some(41), None, 5)

  const LATE_ACK_RUN := [REGISTER_A, REGISTER_B, CREATE] + LINKING + [SEND] + [BEGIN_ACK] + [ACK] + [RESEND]

  const ACKED: map<nat, Removal> := map[0 := DropAcked(41, 5)]

  const DRAINED := SENT.(packets := map[], deliveries := map[])

  lemma TargetIsFound()
    ensures AckTarget(SENT, Some(41), None, 5) == Some(41)
  {
  }

  lemma AckDrains()
    ensures Ack(SENT, 2, Some(41), None, 5) == Outcome(DRAINED, Done)
  {
    TargetIsFound();
    assert DropPackets(SENT.(deliveries := SENT.deliveries - {41}), {5}) == DRAINED;
  }

  lemma ResendPasses()
    ensures CheckSend(DRAINED, 1, REQUEST, LATE, LIMITS, 0, (51, 52)) == Insert(Ticket(LATE, (51, 52), false))
  {
    GateIsOpen(DRAINED);
    IdleHasRoom(DRAINED, LATE);
  }

  lemma ResendCommits()
    ensures CommitSucceeds(DRAINED, Ticket(LATE, (51, 52), false))
    ensures Committed(DRAINED, Ticket(LATE, (51, 52), false)) == RESENT
  {
  }

  lemma AckedTwice(run: seq<Action>)
    requires Leads(run, Quiet(SENT, HELD, map[]))
    ensures Leads(run + [BEGIN_ACK] + [ACK], Quiet(DRAINED, HELD, ACKED))
  {
    hide Ack, AckTarget, Legal, After;
    TargetIsFound();
    AckDrains();
    LeadsByBeginAck(run, Quiet(SENT, HELD, map[]), BEGIN_ACK, 41);
    LeadsByAck(run + [BEGIN_ACK], Quiet(SENT, HELD, ACKED), ACK, DRAINED);
  }

  lemma ResentAfterAck(run: seq<Action>)
    requires Leads(run, Quiet(DRAINED, HELD, ACKED))
    ensures Leads(run + [RESEND], Quiet(RESENT, HELD + {51, 52}, ACKED))
  {
    hide CheckSend, CommitSucceeds, Committed, Legal, After;
    ResendPasses();
    ResendCommits();
    LeadsBySend(run, Quiet(DRAINED, HELD, ACKED), RESEND, Ticket(LATE, (51, 52), false), RESENT);
  }

  lemma LateAckTakesIt()
    ensures 51 in Queue(RESENT, OfNode(2), 20) && 51 !in FinishRemoval(RESENT, DropAcked(41, 5)).deliveries
  {
  }

  /** Two acks of delivery 41, with a new send of its packet id in between: the
      slower ack takes the new, unacked delivery 51. */
  lemma LateAckLosesALivePacket()
    ensures LosesLivePacket(LATE_ACK_RUN, EndRemoval(0), 51, 2, 20)
    ensures After(START, LATE_ACK_RUN).removals[0] == DropAcked(41, 5)
  {
    SentRun();
    AckedTwice([REGISTER_A, REGISTER_B, CREATE] + LINKING + [SEND]);
    ResentAfterAck([REGISTER_A, REGISTER_B, CREATE] + LINKING + [SEND] + [BEGIN_ACK] + [ACK]);
    LateAckTakesIt();
    LosesByRemoval(LATE_ACK_RUN, Quiet(RESENT, HELD + {51, 52}, ACKED), 0, 51, 2, 20);
  }

  // ------------------------------------------------------------ a late delete

  const BEGIN_DELETE := BeginDeleteEndpoint(0, 2, 13, 0)

  const LATE_DELETE_RUN := [REGISTER_A, REGISTER_B, CREATE] + [BEGIN_DELETE] + LINKING + [SEND]

  const DOOMED: map<nat, Removal> := map[0 := DropEndpoint(13)]

  lemma BeginDeleteStep()
    ensures Enabled(Quiet(THREE, PEOPLE, map[]), BEGIN_DELETE)
    ensures Next(Quiet(THREE, PEOPLE, map[]), BEGIN_DELETE) == Quiet(THREE, PEOPLE, DOOMED)
  {
    assert Queue(THREE, OfEndpoint(13), 0) == {};
  }

  lemma LateDeleteTakesIt()
    ensures 41 in Queue(SENT, OfNode(2), 0) && 41 !in FinishRemoval(SENT, DropEndpoint(13)).deliveries
  {
  }

  lemma LateDeleteRun()
    ensures Leads(LATE_DELETE_RUN, Quiet(SENT, HELD, DOOMED))
  {
    RegistrationSteps();
    BeginDeleteStep();
    var run := [REGISTER_A, REGISTER_B, CREATE];
    LeadsOn(run, Quiet(THREE, PEOPLE, map[]), BEGIN_DELETE, Quiet(THREE, PEOPLE, DOOMED));
    LinkingSteps(run + [BEGIN_DELETE], DOOMED);
    LeadsByFirstSend(run + [BEGIN_DELETE] + LINKING, DOOMED);
  }

  /** An endpoint is checked to be unused, then linked and sent to, and then deleted
      with the packet that came. */
  lemma LateDeleteLosesALivePacket()
    ensures LosesLivePacket(LATE_DELETE_RUN, EndRemoval(0), 41, 2, 0)
    ensures After(START, LATE_DELETE_RUN).removals[0] == DropEndpoint(13)
  {
    LateDeleteRun();
    LateDeleteTakesIt();
    LosesByRemoval(LATE_DELETE_RUN, Quiet(SENT, HELD, DOOMED), 0, 41, 2, 0);
  }
}
