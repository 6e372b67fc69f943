/** The outbox against the relay: requests and answers that may be lost or
    delayed, crashes of the sending process, and every other user of the relay. */
module EndToEnd {
  import opened RelayTables
  import opened RelaySpec
  import opened RelayInvariant
  import opened RelayRuns
  import opened RelayDelivery
  import opened Outbox
  import opened OutboxRuns

  /** The sending node, and the packet ids its outbox draws from; nobody else
      sends under these ids. */
  datatype Client = Client(node: Id, ids: set<Id>)

  /** `wire` holds requests sent and not yet served (or lost), `tasks` the relay's
      unfinished sends that serve one of them, `replies` the answers given. A
      reply may never reach the client. */
  datatype World = World(
    box: Box, sys: Sys, trace: seq<Action>, wire: map<nat, SendRequest>, sentFor: map<nat, Id>,
    tasks: map<nat, nat>, replies: map<nat, Reply>, awaited: Option<nat>)

  const ORIGIN := World(EMPTY_BOX, START, [], map[], map[], map[], map[], None)

  datatype Move =
    | Local(step: BoxStep, msg: nat, bytes: nat)
    | Serve(msg: nat, a: Action)
    | Continue(a: Action)
    | Foreign(a: Action)

  function RequestFor(e: Entry, bytes: nat): SendRequest {
    SendRequest(e.packet, e.from, e.to, e.content, bytes, None)
  }

  predicate Delivered(r: Reply) {
    r.Accepted? || r.Duplicate?
  }

  predicate SendsFirst(a: Action) {
    a.DoSend? || a.BeginSend?
  }

  predicate SendsLater(a: Action) {
    a.CommitSend? || a.RetrySend?
  }

  ghost predicate CanMove(c: Client, w: World, move: Move) {
    match move
    case Local(step, msg, _) =>
      && CanDo(w.box, step) && msg !in w.sentFor
      && (step.Add? ==> step.entry.packet in c.ids &&
                        forall o :: o in w.box.born ==> w.box.born[o].packet != step.entry.packet)
      && (step.End? && step.outcome.Answered? ==>
            w.awaited.Some? && w.awaited.value in w.replies && Delivered(w.replies[w.awaited.value]))
    case Serve(msg, a) =>
      Enabled(w.sys, a) && SendsFirst(a) && a.node == c.node && msg in w.wire && a.request == w.wire[msg]
    case Continue(a) => Enabled(w.sys, a) && SendsLater(a) && a.task in w.tasks
    case Foreign(a) =>
      && Enabled(w.sys, a) && (SendsFirst(a) ==> a.request.packet !in c.ids)
      && (SendsLater(a) ==> a.task !in w.tasks)
  }

  ghost function AfterServing(w: World, a: Action, msg: nat): World
    requires Enabled(w.sys, a)
  {
    var reply := ReplyTo(w.sys, a);
    var served := w.(sys := Next(w.sys, a), trace := w.trace + [a]);
    if !reply.InProgress? then served.(replies := w.replies[msg := reply],
                                       tasks := if SendsLater(a) then w.tasks - {a.task} else w.tasks)
    else if a.BeginSend? then served.(tasks := w.tasks[a.task := msg])
    else served
  }

  ghost function NextWorld(c: Client, w: World, move: Move): World
    requires CanMove(c, w, move)
  {
    match move
    case Local(step, msg, bytes) =>
      var box := NextBox(w.box, step);
      if Starts(w.box, step).Some? then
        var q := RequestFor(w.box.batch[0].1, bytes);
        w.(box := box, wire := w.wire[msg := q], sentFor := w.sentFor[msg := q.packet], awaited := Some(msg))
      else w.(box := box, awaited := if box.flight.Some? then w.awaited else None)
    case Serve(msg, a) => AfterServing(w.(wire := w.wire - {msg}), a, msg)
    case Continue(a) => AfterServing(w, a, w.tasks[a.task])
    case Foreign(a) => w.(sys := Next(w.sys, a), trace := w.trace + [a])
  }

  ghost predicate LegalMoves(c: Client, w: World, run: seq<Move>)
    decreases |run|
  {
    run == [] || (CanMove(c, w, run[0]) && LegalMoves(c, NextWorld(c, w, run[0]), run[1..]))
  }

  ghost function AfterMoves(c: Client, w: World, run: seq<Move>): World
    requires LegalMoves(c, w, run)
    decreases |run|
  {
    if run == [] then w else AfterMoves(c, NextWorld(c, w, run[0]), run[1..])
  }

  // -------------------------------------------------------------- invariant

  /** The entry `o` is the letter with this packet id. */
  predicate IsLetter(b: Box, o: Id, p: Id, from: Id, to: Id, content: Content) {
    && o in b.born && b.born[o].packet == p
    && b.born[o].from == from && b.born[o].to == to && b.born[o].content == content
  }

  ghost predicate RequestOk(b: Box, q: SendRequest) {
    exists o :: IsLetter(b, o, q.packet, q.from, q.to, q.content)
  }

  ghost predicate PacketIsOurs(c: Client, b: Box, p: Id, row: Packet) {
    row.sender == c.node && exists o :: IsLetter(b, o, p, row.from, row.to, row.content)
  }

  ghost predicate LettersOk(c: Client, b: Box) {
    && (forall o :: o in b.born ==> b.born[o].packet in c.ids)
    && (forall o, o' :: o in b.born && o' in b.born && b.born[o].packet == b.born[o'].packet ==> o == o')
  }

  /** Whatever the relay holds under our ids is our letter. */
  ghost predicate TablesOk(c: Client, b: Box, db: Db) {
    forall p :: p in db.packets && p in c.ids ==> PacketIsOurs(c, b, p, db.packets[p])
  }

  ghost predicate TicketsOk(c: Client, b: Box, sends: map<nat, SendTask>) {
    forall i :: i in sends && sends[i].Checked? && sends[i].ticket.request.packet in c.ids ==>
      PacketIsOurs(c, b, sends[i].ticket.request.packet, sends[i].ticket.packet)
  }

  function TaskRequest(t: SendTask): SendRequest {
    match t
    case Checked(_, ticket) => ticket.request
    case Retrying(_, q, _) => q
  }

  ghost predicate TaskOk(c: Client, w: World, i: nat)
    requires i in w.tasks
  {
    && i in w.sys.sends && w.sys.sends[i].node == c.node
    && RequestOk(w.box, TaskRequest(w.sys.sends[i]))
    && w.tasks[i] in w.sentFor && w.sentFor[w.tasks[i]] == TaskRequest(w.sys.sends[i]).packet
  }

  ghost predicate WireOk(w: World) {
    forall m :: m in w.wire ==>
      m in w.sentFor && w.sentFor[m] == w.wire[m].packet && RequestOk(w.box, w.wire[m])
  }

  ghost function TimesAccepted(w: World, p: Id): nat {
    if Legal(START, w.trace) then Acceptances(START, w.trace, p) else 0
  }

  ghost predicate ReplyOk(w: World, m: nat)
    requires m in w.replies
  {
    && m in w.sentFor && w.replies[m] != Denied(PacketIdConflict)
    && (Delivered(w.replies[m]) ==> TimesAccepted(w, w.sentFor[m]) >= 1)
  }

  /** The entry is still in the outbox, or the relay has accepted it. */
  ghost predicate NotLost(w: World, o: Id)
    requires o in w.box.born
  {
    o in w.box.rows || TimesAccepted(w, w.box.born[o].packet) >= 1
  }

  ghost predicate TraceOk(w: World) {
    Legal(START, w.trace) && w.sys == After(START, w.trace)
  }

  ghost predicate AwaitOk(w: World) {
    w.box.flight.Some? ==>
      w.awaited.Some? && w.awaited.value in w.sentFor && w.sentFor[w.awaited.value] == w.box.flight.value.1.packet
  }

  ghost predicate WorldInv(c: Client, w: World) {
    && TraceOk(w) && BoxInv(w.box) && LettersOk(c, w.box)
    && TablesOk(c, w.box, w.sys.db) && TicketsOk(c, w.box, w.sys.sends)
    && (forall i :: i in w.tasks ==> TaskOk(c, w, i))
    && WireOk(w) && AwaitOk(w)
    && (forall m :: m in w.replies ==> ReplyOk(w, m))
    && (forall o :: o in w.box.born ==> NotLost(w, o))
  }

  // ----------------------------------------------------------- the relay side

  /** A run of the relay grows by one action at its end. */
  lemma {:induction false} RunGrows(s: Sys, run: seq<Action>, a: Action, p: Id)
    requires Legal(s, run) && Enabled(After(s, run), a)
    ensures Legal(s, run + [a]) && After(s, run + [a]) == Next(After(s, run), a)
    ensures Acceptances(s, run + [a], p) ==
            Acceptances(s, run, p) + if AcceptsId(After(s, run), a, p) then 1 else 0
    decreases |run|
  {
    var longer := run + [a];
    if run == [] {
      assert longer == [a] && longer[1..] == [];
      assert Legal(Next(s, a), []);
    } else {
      assert longer[0] == run[0] && longer[1..] == run[1..] + [a];
      RunGrows(Next(s, run[0]), run[1..], a, p);
    }
  }

  /** The packet id an action of a send is about. */
  function PacketOf(s: Sys, a: Action): Id
    requires Enabled(s, a) && (SendsFirst(a) || SendsLater(a))
  {
    if SendsFirst(a) then a.request.packet else TaskRequest(s.sends[a.task]).packet
  }

  lemma AnswerNamesItsPacket(s: Sys, a: Action)
    requires Enabled(s, a) && (SendsFirst(a) || SendsLater(a))
    ensures ReplyTo(s, a).Accepted? ==> ReplyTo(s, a).packet == PacketOf(s, a)
    ensures ReplyTo(s, a).Duplicate? ==> PacketOf(s, a) in s.db.packets
  {
  }

  /** What a conflict means: the id is queued under different content. */
  lemma ConflictMeansMismatch(s: Sys, a: Action)
    requires Enabled(s, a) && (SendsFirst(a) || SendsLater(a)) && ReplyTo(s, a) == Denied(PacketIdConflict)
    ensures var q := if SendsFirst(a) then a.request else TaskRequest(s.sends[a.task]);
            var n := if SendsFirst(a) then a.node else s.sends[a.task].node;
            PacketOf(s, a) in s.db.packets && !PacketMatches(s.db.packets[PacketOf(s, a)], n, q)
  {
  }

  /** A row the step puts into the packet table comes from an accepted ticket. */
  lemma NewPacketsComeFromTickets(s: Sys, a: Action, p: Id)
    requires Enabled(s, a) && p in NextDb(s, a).packets
    ensures (p in s.db.packets && NextDb(s, a).packets[p] == s.db.packets[p]) ||
            (ReplyTo(s, a).Accepted? && p == TicketOf(s, a).request.packet &&
             NextDb(s, a).packets[p] == TicketOf(s, a).packet)
  {
    if !ReplyTo(s, a).Accepted? {
      QuietStepOnlyRemoves(s, a);
    }
  }

  lemma NewTicketsCopyTheirRequest(s: Sys, a: Action)
    requires Enabled(s, a) && SendsFirst(a) && DecisionOf(s, a).Insert?
    ensures var t := DecisionOf(s, a).ticket;
            t.request == a.request && t.packet.sender == a.node && t.packet.from == a.request.from &&
            t.packet.to == a.request.to && t.packet.content == a.request.content
  {
  }

  /** Sends under our ids carry our letters. */
  ghost predicate OursOk(c: Client, b: Box, a: Action) {
    SendsFirst(a) && a.request.packet in c.ids ==> a.node == c.node && RequestOk(b, a.request)
  }

  lemma AcceptedTicketIsOurs(c: Client, b: Box, s: Sys, a: Action)
    requires Enabled(s, a) && TicketsOk(c, b, s.sends) && OursOk(c, b, a) && ReplyTo(s, a).Accepted?
    requires TicketOf(s, a).request.packet in c.ids
    ensures PacketIsOurs(c, b, TicketOf(s, a).request.packet, TicketOf(s, a).packet)
  {
    if a.DoSend? {
      NewTicketsCopyTheirRequest(s, a);
    }
  }

  lemma StepKeepsTables(c: Client, b: Box, s: Sys, a: Action)
    requires Enabled(s, a) && OursOk(c, b, a)
    requires TablesOk(c, b, s.db) && TicketsOk(c, b, s.sends)
    ensures TablesOk(c, b, NextDb(s, a))
  {
    forall p | p in NextDb(s, a).packets && p in c.ids
      ensures PacketIsOurs(c, b, p, NextDb(s, a).packets[p])
    {
      NewPacketsComeFromTickets(s, a, p);
      if !(p in s.db.packets && NextDb(s, a).packets[p] == s.db.packets[p]) {
        AcceptedTicketIsOurs(c, b, s, a);
      }
    }
  }

  lemma StepKeepsTickets(c: Client, b: Box, s: Sys, a: Action)
    requires Enabled(s, a) && OursOk(c, b, a) && TicketsOk(c, b, s.sends)
    ensures TicketsOk(c, b, NextSends(s, a))
  {
    if a.BeginSend? && DecisionOf(s, a).Insert? {
      NewTicketsCopyTheirRequest(s, a);
    }
  }

  /** What the relay has queued under the id of one of our requests is that request. */
  lemma QueuedLetterMatches(c: Client, b: Box, db: Db, q: SendRequest)
    requires LettersOk(c, b) && TablesOk(c, b, db) && RequestOk(b, q) && q.packet in db.packets
    ensures PacketMatches(db.packets[q.packet], c.node, q)
  {
    var row := db.packets[q.packet];
    var o :| IsLetter(b, o, q.packet, q.from, q.to, q.content);
    assert PacketIsOurs(c, b, q.packet, row);
    var o' :| IsLetter(b, o', q.packet, row.from, row.to, row.content);
    assert o == o';
  }

  /** No answer to one of our requests is the "different packet" conflict. */
  lemma NoConflictForUs(c: Client, b: Box, s: Sys, a: Action, q: SendRequest, n: Id)
    requires Enabled(s, a) && (SendsFirst(a) || SendsLater(a)) && LettersOk(c, b) && TablesOk(c, b, s.db)
    requires q == if SendsFirst(a) then a.request else TaskRequest(s.sends[a.task])
    requires n == if SendsFirst(a) then a.node else s.sends[a.task].node
    requires n == c.node && RequestOk(b, q)
    ensures ReplyTo(s, a) != Denied(PacketIdConflict)
  {
    if q.packet in s.db.packets {
      QueuedLetterMatches(c, b, s.db, q);
    }
    if ReplyTo(s, a) == Denied(PacketIdConflict) {
      ConflictMeansMismatch(s, a);
    }
  }

  /** An answer "accepted" or "duplicate" means the relay has accepted the id. */
  lemma DeliveredMeansAccepted(trace: seq<Action>, a: Action)
    requires Legal(START, trace) && Enabled(After(START, trace), a) && (SendsFirst(a) || SendsLater(a))
    requires Delivered(ReplyTo(After(START, trace), a))
    ensures Legal(START, trace + [a])
    ensures Acceptances(START, trace + [a], PacketOf(After(START, trace), a)) >= 1
  {
    var s := After(START, trace);
    var p := PacketOf(s, a);
    RunGrows(START, trace, a, p);
    AnswerNamesItsPacket(s, a);
    AcceptancesBalanceRemovals(START, trace, p);
  }

  // ------------------------------------------------------- steps of the relay

  function ActionOf(move: Move): Action
    requires !move.Local?
  {
    move.a
  }

  lemma RelayMoveIsOurs(c: Client, w: World, move: Move)
    requires WorldInv(c, w) && CanMove(c, w, move) && !move.Local?
    ensures OursOk(c, w.box, ActionOf(move))
  {
  }

  ghost predicate AcceptedGrows(w: World, w': World) {
    forall p :: TimesAccepted(w', p) >= TimesAccepted(w, p)
  }

  lemma LongerTraceAcceptsMore(w: World, w': World, a: Action)
    requires TraceOk(w) && Enabled(w.sys, a) && w'.trace == w.trace + [a] && w'.sys == Next(w.sys, a)
    ensures TraceOk(w') && AcceptedGrows(w, w')
  {
    RunGrows(START, w.trace, a, 0);
    forall p
      ensures TimesAccepted(w', p) >= TimesAccepted(w, p)
    {
      RunGrows(START, w.trace, a, p);
    }
  }

  ghost predicate SameBut(w: World, w': World, a: Action) {
    && Enabled(w.sys, a) && w'.trace == w.trace + [a] && w'.sys == Next(w.sys, a)
    && w'.box == w.box && w'.sentFor == w.sentFor && w'.awaited == w.awaited
  }

  lemma RelayMoveShape(c: Client, w: World, move: Move)
    requires CanMove(c, w, move) && !move.Local?
    ensures SameBut(w, NextWorld(c, w, move), ActionOf(move))
  {
  }

  lemma RelayMoveGrowsTrace(c: Client, w: World, move: Move)
    requires TraceOk(w) && CanMove(c, w, move) && !move.Local?
    ensures var w' := NextWorld(c, w, move);
            TraceOk(w') && SameBut(w, w', ActionOf(move)) && AcceptedGrows(w, w')
  {
    RelayMoveShape(c, w, move);
    LongerTraceAcceptsMore(w, NextWorld(c, w, move), ActionOf(move));
  }

  lemma OtherTasksKeepTheirSend(s: Sys, a: Action, i: nat)
    requires Enabled(s, a) && i in s.sends && !(SendsLater(a) && a.task == i)
    ensures i in NextSends(s, a) && NextSends(s, a)[i] == s.sends[i]
  {
  }

  lemma UnfinishedTaskKeepsItsRequest(s: Sys, a: Action)
    requires Enabled(s, a) && (SendsLater(a) || a.BeginSend?) && ReplyTo(s, a).InProgress?
    ensures a.task in NextSends(s, a)
    ensures a.BeginSend? ==> NextSends(s, a)[a.task].node == a.node && TaskRequest(NextSends(s, a)[a.task]) == a.request
    ensures SendsLater(a) ==>
              NextSends(s, a)[a.task].node == s.sends[a.task].node &&
              TaskRequest(NextSends(s, a)[a.task]) == TaskRequest(s.sends[a.task])
  {
  }

  lemma TaskFrame(c: Client, w: World, w': World, i: nat)
    requires i in w.tasks && TaskOk(c, w, i) && i in w'.tasks && w'.tasks[i] == w.tasks[i]
    requires w'.box == w.box && w'.sentFor == w.sentFor && i in w'.sys.sends && w'.sys.sends[i] == w.sys.sends[i]
    ensures TaskOk(c, w', i)
  {
  }

  lemma MovedTaskOk(c: Client, w: World, move: Move)
    requires WireOk(w) && (forall i :: i in w.tasks ==> TaskOk(c, w, i)) && CanMove(c, w, move) && !move.Local?
    requires ActionOf(move).BeginSend? || SendsLater(ActionOf(move))
    requires ActionOf(move).task in NextWorld(c, w, move).tasks
    ensures TaskOk(c, NextWorld(c, w, move), ActionOf(move).task)
  {
    hide RequestOk, NextDb, CanDo;
    var a := ActionOf(move);
    if a.task in w.tasks {
      assert TaskOk(c, w, a.task);
    }
    UnfinishedTaskKeepsItsRequest(w.sys, a);
  }

  lemma OtherTasksStay(c: Client, w: World, move: Move, i: nat)
    requires CanMove(c, w, move) && !move.Local? && i in NextWorld(c, w, move).tasks
    requires !((ActionOf(move).BeginSend? || SendsLater(ActionOf(move))) && ActionOf(move).task == i)
    ensures i in w.tasks && NextWorld(c, w, move).tasks[i] == w.tasks[i]
  {
  }

  lemma RelayMoveKeepsTask(c: Client, w: World, move: Move, i: nat)
    requires WorldInv(c, w) && CanMove(c, w, move) && !move.Local? && i in NextWorld(c, w, move).tasks
    ensures TaskOk(c, NextWorld(c, w, move), i)
  {
    var a := ActionOf(move);
    if (a.BeginSend? || SendsLater(a)) && a.task == i {
      MovedTaskOk(c, w, move);
    } else {
      OtherTasksStay(c, w, move, i);
      assert TaskOk(c, w, i);
      RelayMoveShape(c, w, move);
      OtherTasksKeepTheirSend(w.sys, a, i);
      TaskFrame(c, w, NextWorld(c, w, move), i);
    }
  }

  lemma NewReplyOk(c: Client, w: World, move: Move, m: nat)
    requires WorldInv(c, w) && CanMove(c, w, move) && (move.Serve? || move.Continue?)
    requires m == if move.Serve? then move.msg else w.tasks[move.a.task]
    ensures ReplyTo(w.sys, ActionOf(move)) != Denied(PacketIdConflict) && m in w.sentFor
    ensures Delivered(ReplyTo(w.sys, ActionOf(move))) ==> TimesAccepted(NextWorld(c, w, move), w.sentFor[m]) >= 1
  {
    var a := ActionOf(move);
    RelayMoveGrowsTrace(c, w, move);
    if move.Continue? {
      assert TaskOk(c, w, a.task);
    }
    var q := if SendsFirst(a) then a.request else TaskRequest(w.sys.sends[a.task]);
    NoConflictForUs(c, w.box, w.sys, a, q, c.node);
    if Delivered(ReplyTo(w.sys, a)) {
      DeliveredMeansAccepted(w.trace, a);
    }
  }

  lemma ReplyFrame(w: World, w': World, m: nat)
    requires m in w.replies && ReplyOk(w, m) && m in w'.replies && w'.replies[m] == w.replies[m]
    requires w'.sentFor == w.sentFor && AcceptedGrows(w, w')
    ensures ReplyOk(w', m)
  {
  }

  lemma RepliesOnlyGrow(c: Client, w: World, move: Move, m: nat)
    requires CanMove(c, w, move) && !move.Local? && m in NextWorld(c, w, move).replies
    ensures (m in w.replies && NextWorld(c, w, move).replies[m] == w.replies[m]) ||
            ((move.Serve? || move.Continue?) &&
             m == (if move.Serve? then move.msg else w.tasks[move.a.task]) &&
             NextWorld(c, w, move).replies[m] == ReplyTo(w.sys, move.a))
  {
  }

  lemma RelayMoveKeepsReply(c: Client, w: World, move: Move, m: nat)
    requires WorldInv(c, w) && CanMove(c, w, move) && !move.Local? && m in NextWorld(c, w, move).replies
    ensures ReplyOk(NextWorld(c, w, move), m)
  {
    RelayMoveGrowsTrace(c, w, move);
    RepliesOnlyGrow(c, w, move, m);
    if m in w.replies && NextWorld(c, w, move).replies[m] == w.replies[m] {
      ReplyFrame(w, NextWorld(c, w, move), m);
    } else {
      NewReplyOk(c, w, move, m);
    }
  }

  lemma RelayMoveKeepsWire(c: Client, w: World, move: Move)
    requires WireOk(w) && CanMove(c, w, move) && !move.Local?
    ensures WireOk(NextWorld(c, w, move))
  {
  }

  lemma RelayMoveKeepsInv(c: Client, w: World, move: Move)
    requires WorldInv(c, w) && CanMove(c, w, move) && !move.Local?
    ensures WorldInv(c, NextWorld(c, w, move))
  {
    hide BoxInv, LettersOk, TablesOk, TicketsOk, TaskOk, ReplyOk, WireOk;
    var w' := NextWorld(c, w, move);
    RelayMoveGrowsTrace(c, w, move);
    RelayMoveIsOurs(c, w, move);
    StepKeepsTables(c, w.box, w.sys, ActionOf(move));
    StepKeepsTickets(c, w.box, w.sys, ActionOf(move));
    RelayMoveKeepsWire(c, w, move);
    forall i | i in w'.tasks
      ensures TaskOk(c, w', i)
    {
      RelayMoveKeepsTask(c, w, move, i);
    }
    forall m | m in w'.replies
      ensures ReplyOk(w', m)
    {
      RelayMoveKeepsReply(c, w, move, m);
    }
    forall o | o in w'.box.born
      ensures NotLost(w', o)
    {
      assert NotLost(w, o);
    }
  }

  // ------------------------------------------------------ steps of the outbox

  lemma BornGrows(b: Box, step: BoxStep)
    requires CanDo(b, step)
    ensures forall o :: o in b.born ==> o in NextBox(b, step).born && NextBox(b, step).born[o] == b.born[o]
  {
  }

  lemma LettersStay(c: Client, b: Box, b': Box)
    requires forall o :: o in b.born ==> o in b'.born && b'.born[o] == b.born[o]
    ensures forall q :: RequestOk(b, q) ==> RequestOk(b', q)
    ensures forall p, row :: PacketIsOurs(c, b, p, row) ==> PacketIsOurs(c, b', p, row)
  {
    forall q | RequestOk(b, q)
      ensures RequestOk(b', q)
    {
      var o :| IsLetter(b, o, q.packet, q.from, q.to, q.content);
      assert IsLetter(b', o, q.packet, q.from, q.to, q.content);
    }
    forall p, row | PacketIsOurs(c, b, p, row)
      ensures PacketIsOurs(c, b', p, row)
    {
      var o :| IsLetter(b, o, p, row.from, row.to, row.content);
      assert IsLetter(b', o, p, row.from, row.to, row.content);
    }
  }

  lemma StepKeepsLetters(c: Client, b: Box, step: BoxStep)
    requires LettersOk(c, b) && CanDo(b, step)
    requires step.Add? ==> step.entry.packet in c.ids &&
                           forall o :: o in b.born ==> b.born[o].packet != step.entry.packet
    ensures LettersOk(c, NextBox(b, step))
  {
  }

  lemma LocalMoveKeepsLetters(c: Client, w: World, move: Move)
    requires LettersOk(c, w.box) && CanMove(c, w, move) && move.Local?
    ensures LettersOk(c, NextWorld(c, w, move).box)
  {
    StepKeepsLetters(c, w.box, move.step);
    LocalMoveShape(c, w, move);
  }

  lemma StartedLetterIsOurs(b: Box, step: BoxStep, bytes: nat)
    requires BoxInv(b) && CanDo(b, step) && Starts(b, step).Some?
    ensures RequestOk(b, RequestFor(b.batch[0].1, bytes))
  {
    var (o, e) := b.batch[0];
    assert SnapshotOk(b, o, e) && RowOk(b, o);
    assert IsLetter(b, o, e.packet, e.from, e.to, e.content);
  }

  lemma LocalMoveShape(c: Client, w: World, move: Move)
    requires CanMove(c, w, move) && move.Local?
    ensures var w' := NextWorld(c, w, move);
            w'.box == NextBox(w.box, move.step) && w'.sys == w.sys && w'.trace == w.trace &&
            w'.tasks == w.tasks && w'.replies == w.replies &&
            forall m :: m in w.sentFor ==> m in w'.sentFor && w'.sentFor[m] == w.sentFor[m]
  {
  }

  lemma LocalMoveKeepsWire(c: Client, w: World, move: Move)
    requires WireOk(w) && BoxInv(w.box) && CanMove(c, w, move) && move.Local?
    ensures WireOk(NextWorld(c, w, move))
  {
    hide BoxInv, RequestOk, PacketIsOurs, NextBox;
    BornGrows(w.box, move.step);
    LettersStay(c, w.box, NextBox(w.box, move.step));
    if Starts(w.box, move.step).Some? {
      StartedLetterIsOurs(w.box, move.step, move.bytes);
    }
  }

  lemma LocalMoveKeepsAwait(c: Client, w: World, move: Move)
    requires AwaitOk(w) && CanMove(c, w, move) && move.Local?
    ensures AwaitOk(NextWorld(c, w, move))
  {
  }

  /** An entry leaves the table only when the answer said it was delivered. */
  lemma RowsLeaveWhenAnswered(b: Box, step: BoxStep, o: Id)
    requires CanDo(b, step) && o in b.rows && o !in NextBox(b, step).rows
    ensures step.End? && step.outcome.Answered? && b.flight.Some? && b.flight.value.0 == o
  {
  }

  lemma LocalMoveLosesNothing(c: Client, w: World, move: Move, o: Id)
    requires WorldInv(c, w) && CanMove(c, w, move) && move.Local? && o in NextWorld(c, w, move).box.born
    ensures NotLost(NextWorld(c, w, move), o)
  {
    LocalMoveShape(c, w, move);
    BornGrows(w.box, move.step);
    if o in w.box.born {
      assert NotLost(w, o);
      if o in w.box.rows && o !in NextBox(w.box, move.step).rows {
        RowsLeaveWhenAnswered(w.box, move.step, o);
        assert RowOk(w.box, o);
        assert ReplyOk(w, w.awaited.value);
      }
    }
  }

  lemma LocalMoveKeepsRelaySide(c: Client, w: World, move: Move)
    requires WorldInv(c, w) && CanMove(c, w, move) && move.Local?
    ensures var w' := NextWorld(c, w, move);
            TraceOk(w') && TablesOk(c, w'.box, w'.sys.db) && TicketsOk(c, w'.box, w'.sys.sends) &&
            (forall i :: i in w'.tasks ==> TaskOk(c, w', i)) && (forall m :: m in w'.replies ==> ReplyOk(w', m))
  {
    var w' := NextWorld(c, w, move);
    LocalMoveShape(c, w, move);
    BornGrows(w.box, move.step);
    LettersStay(c, w.box, w'.box);
    forall i | i in w'.tasks
      ensures TaskOk(c, w', i)
    {
      assert TaskOk(c, w, i);
    }
    forall m | m in w'.replies
      ensures ReplyOk(w', m)
    {
      assert ReplyOk(w, m);
    }
  }

  lemma LocalMoveKeepsInv(c: Client, w: World, move: Move)
    requires WorldInv(c, w) && CanMove(c, w, move) && move.Local?
    ensures WorldInv(c, NextWorld(c, w, move))
  {
    LocalMoveShape(c, w, move);
    StepKeepsBoxInv(w.box, move.step);
    LocalMoveKeepsLetters(c, w, move);
    LocalMoveKeepsRelaySide(c, w, move);
    LocalMoveKeepsWire(c, w, move);
    LocalMoveKeepsAwait(c, w, move);
    forall o | o in NextWorld(c, w, move).box.born
      ensures NotLost(NextWorld(c, w, move), o)
    {
      LocalMoveLosesNothing(c, w, move, o);
    }
  }

  // ------------------------------------------- refusals seen from the outbox

  /** The HTTP status of each refusal of a send. */
  function StatusOf(why: Denial): int
    requires IsSendDenial(why)
  {
    match why
    case EndpointNotFound => 404
    case DestinationNotFound => 404
    case PacketTooLarge => 400
    case RateLimited => 429
    case NodeInactive => 403
    case EndpointNotOwned => 403
    case DestinationNodeInactive => 403
    case NoActiveRoute => 403
    case _ => 409
  }

  predicate IsSendDenial(why: Denial) {
    why in {NodeInactive, EndpointNotFound, EndpointNotOwned, DestinationNotFound, DestinationNodeInactive,
            NoActiveRoute, PacketTooLarge, PacketIdConflict, RateLimited, EndpointPacketCap, EndpointByteCap,
            NodeByteCap, TotalPacketCap, TotalByteCap, StorageCap, PacketIdCollision}
  }

  lemma CheckRefusesWithSendDenials(
    db: Db, n: Id, q: SendRequest, clock: SendClock, s: Settings, storage: nat, ids: (Id, Id))
    requires CheckSend(db, n, q, clock, s, storage, ids).Refuse?
    ensures IsSendDenial(CheckSend(db, n, q, clock, s, storage, ids).why)
  {
  }

  lemma SendsAreRefusedWithSendDenials(s: Sys, a: Action)
    requires Enabled(s, a) && (SendsFirst(a) || SendsLater(a)) && ReplyTo(s, a).Denied?
    ensures IsSendDenial(ReplyTo(s, a).why)
  {
    if SendsFirst(a) && DecisionOf(s, a).Refuse? {
      CheckRefusesWithSendDenials(s.db, a.node, a.request, a.clock, a.settings, a.storage, a.ids);
    }
  }

  lemma RetriedStatus(why: Denial)
    requires IsSendDenial(why)
    ensures ClassifySendError(HttpError(StatusOf(why))) == Retryable <==> why == RateLimited
  {
  }

  /** Of all the relay's refusals of a send the outbox retries only the rate
      limit; a full queue makes it give the entry up like a missing route does. */
  lemma OnlyTheRateLimitIsRetried(s: Sys, a: Action, e: Entry, now: int)
    requires Enabled(s, a) && (SendsFirst(a) || SendsLater(a)) && ReplyTo(s, a).Denied?
    ensures IsSendDenial(ReplyTo(s, a).why)
    ensures WillRetry(e, HttpError(StatusOf(ReplyTo(s, a).why)), now) <==>
            ReplyTo(s, a).why == RateLimited && CanRetry(e, e.attempts + 1, now)
  {
    SendsAreRefusedWithSendDenials(s, a);
    RetriedStatus(ReplyTo(s, a).why);
  }

  // --------------------------------------------------------------- theorems

  lemma {:induction false} MovesKeepInv(c: Client, w: World, run: seq<Move>)
    requires WorldInv(c, w) && LegalMoves(c, w, run)
    ensures WorldInv(c, AfterMoves(c, w, run))
    decreases |run|
  {
    if run != [] {
      if run[0].Local? {
        LocalMoveKeepsInv(c, w, run[0]);
      } else {
        RelayMoveKeepsInv(c, w, run[0]);
      }
      MovesKeepInv(c, NextWorld(c, w, run[0]), run[1..]);
    }
  }

  lemma OriginIsSound(c: Client)
    ensures WorldInv(c, ORIGIN)
  {
  }

  /** Some run of moves from the beginning leads here. */
  ghost predicate Reachable(c: Client, w: World) {
    exists run :: LegalMoves(c, ORIGIN, run) && AfterMoves(c, ORIGIN, run) == w
  }

  lemma ReachableIsSound(c: Client, w: World)
    requires Reachable(c, w)
    ensures WorldInv(c, w)
  {
    var run :| LegalMoves(c, ORIGIN, run) && AfterMoves(c, ORIGIN, run) == w;
    OriginIsSound(c);
    MovesKeepInv(c, ORIGIN, run);
  }

  /** End to end: whatever is lost, delayed, retried or crashes, every entry ever
      enqueued is still in the outbox or was accepted by the relay. */
  lemma NothingEnqueuedIsLost(c: Client, w: World, o: Id)
    requires Reachable(c, w) && o in w.box.born
    ensures o in w.box.rows || TimesAccepted(w, w.box.born[o].packet) >= 1
  {
    ReachableIsSound(c, w);
    assert NotLost(w, o);
  }

  /** Retries never meet the "different packet" conflict. */
  lemma RetriesNeverConflict(c: Client, w: World, m: nat)
    requires Reachable(c, w) && m in w.replies
    ensures w.replies[m] != Denied(PacketIdConflict)
  {
    ReachableIsSound(c, w);
    assert ReplyOk(w, m);
  }

  ghost function TimesRemoved(w: World, p: Id): nat {
    if Legal(START, w.trace) then Removals(START, w.trace, p) else 0
  }

  /** However often an entry was retried, k acceptances of its packet imply at
      least k - 1 removals in between. */
  lemma RetriesAreDeduplicated(c: Client, w: World, o: Id)
    requires Reachable(c, w) && o in w.box.born
    ensures Legal(START, w.trace) && w.sys == After(START, w.trace)
    ensures TimesAccepted(w, w.box.born[o].packet) <= TimesRemoved(w, w.box.born[o].packet) + 1
  {
    ReachableIsSound(c, w);
    AcceptancesExceedRemovalsByAtMostOne(w.trace, w.box.born[o].packet);
  }
}
