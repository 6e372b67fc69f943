/** The rate limiter when sends interleave: with at most k sends of a node between their
    checks and their commit at a time, every window of the configured length holds at
    most k - 1 accepted sends of the node too many. */
module RelayWindows {
  import opened RelayTables
  import opened RelaySpec
  import opened RelayInvariant
  import opened RelayRuns
  import opened RelayDelivery
  import opened RelayLimits
  import opened RelayOvershoot

  /** The events of sends under way are not in the history yet, and not in the future. */
  ghost predicate HeldOk(s: Sys, h: map<Id, Event>, t: int) {
    forall i :: i in s.sends && s.sends[i].Checked? ==>
      s.sends[i].ticket.eventId !in h && s.sends[i].ticket.event.createdAt <= t
  }

  /** The sends of the node under way whose event falls into [from, from + width]. */
  function HeldInWindow(s: Sys, n: Id, from: int, width: nat): set<nat> {
    set i | i in Held(s, From(n)) && from <= s.sends[i].ticket.event.createdAt <= from + width
  }

  ghost predicate WindowOk(s: Sys, h: map<Id, Event>, cfg: Settings, n: Id, from: int, k: nat) {
    |SendsInWindow(h, n, from, cfg.windowSeconds)| + |HeldInWindow(s, n, from, cfg.windowSeconds)| <
    cfg.maxSends + k
  }

  ghost predicate Covered(s: Sys, h: map<Id, Event>, cfg: Settings, t: int) {
    LogCoversHistory(s, h, cfg, t) && HeldOk(s, h, t)
  }

  ghost predicate WindowsOk(s: Sys, h: map<Id, Event>, cfg: Settings, n: Id, k: nat) {
    forall from: int :: WindowOk(s, h, cfg, n, from, k)
  }

  lemma SizeAtMost<T>(few: set<T>, many: set<T>)
    requires few <= many
    ensures |few| <= |many|
    decreases |many|
  {
    if x :| x in many {
      if x in few {
        SizeAtMost(few - {x}, many - {x});
      } else {
        SizeAtMost(few, many - {x});
      }
    }
  }

  // ------------------------------------------- the log against the full history

  lemma CoverLater(s: Sys, s': Sys, h: map<Id, Event>, cfg: Settings, t: int, later: int)
    requires LogCoversHistory(s, h, cfg, t) && t <= later
    requires s'.db == s.db && s.minted <= s'.minted
    ensures LogCoversHistory(s', h, cfg, later)
  {
  }

  lemma CommitCovers(s: Sys, s': Sys, ticket: SendTicket, h: map<Id, Event>, cfg: Settings, t: int)
    requires LogCoversHistory(s, h, cfg, t) && ticket.event.createdAt <= t
    requires CommitSucceeds(s.db, ticket) && s'.db == Committed(s.db, ticket) && s'.minted == s.minted
    requires ticket.eventId !in h && ticket.eventId in s.minted && ticket.event.node in s.minted
    ensures LogCoversHistory(s', h[ticket.eventId := ticket.event], cfg, t)
  {
  }

  lemma CommitStepCovers(s: Sys, a: Action, h: map<Id, Event>, cfg: Settings, t: int)
    requires SysInv(s) && Enabled(s, a) && a.CommitSend? && Covered(s, h, cfg, t)
    ensures LogCoversHistory(Next(s, a), ExtendHistory(s, a, h), cfg, t)
  {
    hide CommitSucceeds, Committed, LogCoversHistory, Inv, IdsMinted, DistinctTickets;
    assert SendTaskOk(s, s.sends[a.task]);
    assert s.minted + FreshIds(a) == s.minted;
    var ticket := s.sends[a.task].ticket;
    if CommitSucceeds(s.db, ticket) {
      CommitCovers(s, Next(s, a), ticket, h, cfg, t);
    } else {
      CoverLater(s, Next(s, a), h, cfg, t, t);
    }
  }

  lemma OtherSendCovers(s: Sys, a: Action, h: map<Id, Event>, cfg: Settings, t: int)
    requires Enabled(s, a) && (a.BeginSend? || a.RetrySend?) && Timely(a, cfg, t) && LogCoversHistory(s, h, cfg, t)
    ensures LogCoversHistory(Next(s, a), ExtendHistory(s, a, h), cfg, TimeAfter(a, t))
  {
    hide CheckSend, LogCoversHistory, NextSends, LookAgain;
    assert !ReplyTo(s, a).Accepted? by {
      if ReplyTo(s, a).Accepted? {
        var ticket := TicketOf(s, a);
      }
    }
    CoverLater(s, Next(s, a), h, cfg, t, TimeAfter(a, t));
  }

  lemma StepCovers(s: Sys, a: Action, h: map<Id, Event>, cfg: Settings, t: int)
    requires SysInv(s) && Enabled(s, a) && Timely(a, cfg, t) && Covered(s, h, cfg, t)
    ensures LogCoversHistory(Next(s, a), ExtendHistory(s, a, h), cfg, TimeAfter(a, t))
  {
    hide NextDb, NextSends, LogCoversHistory, ExtendHistory, Inv;
    if a.CommitSend? {
      CommitStepCovers(s, a, h, cfg, t);
    } else if a.BeginSend? || a.RetrySend? {
      OtherSendCovers(s, a, h, cfg, t);
    } else {
      StepKeepsCover(s, h, cfg, t, a);
    }
  }

  /** Tickets of the next state are old ones, or the one the step issues. */
  lemma NewTicket(s: Sys, a: Action, i: nat)
    requires Enabled(s, a) && i in NextSends(s, a) && NextSends(s, a)[i].Checked?
    ensures (i in s.sends && s.sends[i] == NextSends(s, a)[i] && !(a.CommitSend? && a.task == i)) ||
            (a.BeginSend? && DecisionOf(s, a).Insert? && NextSends(s, a)[i].ticket == DecisionOf(s, a).ticket)
  {
    hide CheckSend, CommitSucceeds, LookAgain;
  }

  lemma TimeMovesOn(a: Action, cfg: Settings, t: int)
    requires Timely(a, cfg, t)
    ensures t <= TimeAfter(a, t)
  {
  }

  lemma IssuedEvent(s: Sys, a: Action)
    requires (a.BeginSend? || a.DoSend?) && DecisionOf(s, a).Insert?
    ensures var t := DecisionOf(s, a).ticket;
            t.event == Event(a.node, a.clock.rated) && t.eventId == a.ids.1
  {
    hide SendGate, RateDenial, CapDenial;
  }

  lemma AcceptedEventIsNew(s: Sys, a: Action, h: map<Id, Event>, i: nat)
    requires SysInv(s) && Enabled(s, a) && ReplyTo(s, a).Accepted?
    requires i in s.sends && s.sends[i].Checked? && !(a.CommitSend? && a.task == i)
    ensures TicketOf(s, a).eventId != s.sends[i].ticket.eventId
  {
    hide Inv, CheckSend, CommitSucceeds, Committed;
    assert SendTaskOk(s, s.sends[i]);
    if a.DoSend? {
      IssuedEvent(s, a);
    }
  }

  lemma HistoryGrows(s: Sys, a: Action, h: map<Id, Event>, id: Id)
    requires Enabled(s, a) && id in ExtendHistory(s, a, h)
    ensures id in h || (ReplyTo(s, a).Accepted? && id == TicketOf(s, a).eventId)
  {
  }

  lemma HeldTicketOk(s: Sys, a: Action, h: map<Id, Event>, cfg: Settings, t: int, i: nat)
    requires SysInv(s) && Enabled(s, a) && Timely(a, cfg, t) && Covered(s, h, cfg, t)
    requires i in NextSends(s, a) && NextSends(s, a)[i].Checked?
    ensures var ticket := NextSends(s, a)[i].ticket;
            ticket.eventId !in ExtendHistory(s, a, h) && ticket.event.createdAt <= TimeAfter(a, t)
  {
    hide Inv, IdsMinted, NextDb, ReplyTo, CheckSend, NextSends, ExtendHistory;
    NewTicket(s, a, i);
    TimeMovesOn(a, cfg, t);
    var ticket := NextSends(s, a)[i].ticket;
    if i in s.sends && s.sends[i] == NextSends(s, a)[i] && !(a.CommitSend? && a.task == i) {
      if ticket.eventId in ExtendHistory(s, a, h) {
        HistoryGrows(s, a, h, ticket.eventId);
        AcceptedEventIsNew(s, a, h, i);
      }
    } else {
      IssuedEvent(s, a);
      if ticket.eventId in ExtendHistory(s, a, h) {
        HistoryGrows(s, a, h, ticket.eventId);
      }
    }
  }

  lemma StepKeepsCovered(s: Sys, a: Action, h: map<Id, Event>, cfg: Settings, t: int)
    requires SysInv(s) && Enabled(s, a) && Timely(a, cfg, t) && Covered(s, h, cfg, t)
    ensures Covered(Next(s, a), ExtendHistory(s, a, h), cfg, TimeAfter(a, t))
  {
    hide Inv, NextDb, ExtendHistory, LogCoversHistory, NextSends;
    StepCovers(s, a, h, cfg, t);
    var s' := Next(s, a);
    forall i | i in s'.sends && s'.sends[i].Checked?
      ensures s'.sends[i].ticket.eventId !in ExtendHistory(s, a, h)
      ensures s'.sends[i].ticket.event.createdAt <= TimeAfter(a, t)
    {
      HeldTicketOk(s, a, h, cfg, t, i);
    }
  }

  // ------------------------------------------------------- windows, step by step

  /** A send passes only if a window around it has room left among the committed. */
  lemma PassedHasRoom(s: Sys, a: Action, h: map<Id, Event>, cfg: Settings, t: int, from: int)
    requires (a.BeginSend? || a.DoSend?) && Timely(a, cfg, t) && LogCoversHistory(s, h, cfg, t)
    requires DecisionOf(s, a).Insert? && from <= a.clock.rated <= from + cfg.windowSeconds
    ensures |SendsInWindow(h, a.node, from, cfg.windowSeconds)| < cfg.maxSends
  {
    hide CapDenial;
    var seen := Purged(s.db, a.request.packet, a.request.packet in s.db.packets);
    var floor := a.clock.rated - cfg.windowSeconds;
    assert RecentSends(seen, a.node, floor) == RecentSends(s.db, a.node, floor);
    SizeAtMost(SendsInWindow(h, a.node, from, cfg.windowSeconds), RecentSends(s.db, a.node, floor));
  }

  lemma PassedOutsideWindow(s: Sys, a: Action, n: Id, from: int, width: nat)
    requires Enabled(s, a) && a.BeginSend? && DecisionOf(s, a).Insert?
    requires a.node != n || !(from <= a.clock.rated <= from + width)
    ensures HeldInWindow(Next(s, a), n, from, width) == HeldInWindow(s, n, from, width)
  {
    hide CheckSend, NextDb;
    IssuedEvent(s, a);
    BeginHoldsOneMore(s, a, From(n));
  }

  lemma CommitLeavesWindow(s: Sys, a: Action, n: Id, from: int, width: nat)
    requires Enabled(s, a) && a.CommitSend?
    ensures HeldInWindow(Next(s, a), n, from, width) == HeldInWindow(s, n, from, width) - {a.task}
    ensures var e := s.sends[a.task].ticket.event;
            a.task in HeldInWindow(s, n, from, width) <==> e.node == n && from <= e.createdAt <= from + width
  {
    hide CommitSucceeds, NextDb;
    CommitFreesItsSend(s, a, From(n));
  }

  lemma PassedStepKeepsWindow(
    s: Sys, a: Action, h: map<Id, Event>, cfg: Settings, t: int, n: Id, from: int, k: nat)
    requires Enabled(s, a) && a.BeginSend? && Timely(a, cfg, t) && LogCoversHistory(s, h, cfg, t)
    requires DecisionOf(s, a).Insert? && |Held(Next(s, a), From(n))| <= k && WindowOk(s, h, cfg, n, from, k)
    ensures WindowOk(Next(s, a), h, cfg, n, from, k)
  {
    hide CheckSend, Next, Held, SendsInWindow, LogCoversHistory, Timely;
    var w := cfg.windowSeconds;
    if a.node == n && from <= a.clock.rated <= from + w {
      PassedHasRoom(s, a, h, cfg, t, from);
      SizeAtMost(HeldInWindow(Next(s, a), n, from, w), Held(Next(s, a), From(n)));
    } else {
      PassedOutsideWindow(s, a, n, from, w);
    }
  }

  lemma CommitStepKeepsWindow(s: Sys, a: Action, h: map<Id, Event>, cfg: Settings, t: int, n: Id, from: int, k: nat)
    requires Enabled(s, a) && a.CommitSend? && HeldOk(s, h, t) && WindowOk(s, h, cfg, n, from, k)
    ensures WindowOk(Next(s, a), ExtendHistory(s, a, h), cfg, n, from, k)
  {
    hide CommitSucceeds, Next, HeldInWindow, SendsInWindow;
    var ticket := s.sends[a.task].ticket;
    var w := cfg.windowSeconds;
    CommitLeavesWindow(s, a, n, from, w);
    WindowGrows(h, ticket.eventId, ticket.event, n, from, w);
    var grown := SendsInWindow(h[ticket.eventId := ticket.event], n, from, w);
    assert |grown| <= |SendsInWindow(h, n, from, w)| + if a.task in HeldInWindow(s, n, from, w) then 1 else 0;
  }

  lemma WholeSendKeepsWindow(s: Sys, a: Action, h: map<Id, Event>, cfg: Settings, t: int, n: Id, from: int, k: nat)
    requires SysInv(s) && Enabled(s, a) && a.DoSend? && Timely(a, cfg, t) && Covered(s, h, cfg, t)
    requires ReplyTo(s, a).Accepted? && |Held(s, From(n))| + 1 <= k && WindowOk(s, h, cfg, n, from, k)
    ensures WindowOk(Next(s, a), ExtendHistory(s, a, h), cfg, n, from, k)
  {
    hide CheckSend, CommitSucceeds, Committed, Inv;
    AcceptedWholeSend(s, a);
    RefusedHoldsAsMany(s, a);
    IssuedEvent(s, a);
    var ticket := TicketOf(s, a);
    var w := cfg.windowSeconds;
    WindowGrows(h, ticket.eventId, ticket.event, n, from, w);
    assert HeldInWindow(Next(s, a), n, from, w) == HeldInWindow(s, n, from, w);
    if a.node == n && from <= a.clock.rated <= from + w {
      PassedHasRoom(s, a, h, cfg, t, from);
      SizeAtMost(HeldInWindow(s, n, from, w), Held(s, From(n)));
    }
  }

  lemma QuietStepKeepsWindow(s: Sys, a: Action, h: map<Id, Event>, cfg: Settings, n: Id, from: int, k: nat)
    requires Enabled(s, a) && !a.CommitSend? && !ReplyTo(s, a).Accepted? && WindowOk(s, h, cfg, n, from, k)
    requires a.BeginSend? ==> !DecisionOf(s, a).Insert?
    ensures WindowOk(Next(s, a), ExtendHistory(s, a, h), cfg, n, from, k)
  {
    hide CheckSend, NextDb, LookAgain;
    var w := cfg.windowSeconds;
    if !a.RetrySend? {
      RefusedHoldsAsMany(s, a);
    }
    assert HeldInWindow(Next(s, a), n, from, w) == HeldInWindow(s, n, from, w);
  }

  lemma PassedIsNotAccepted(s: Sys, a: Action, h: map<Id, Event>)
    requires Enabled(s, a) && a.BeginSend?
    ensures !ReplyTo(s, a).Accepted? && ExtendHistory(s, a, h) == h
  {
    hide CheckSend;
    if ReplyTo(s, a).Accepted? {
      var t := TicketOf(s, a);
    }
  }

  lemma StepKeepsWindow(s: Sys, a: Action, h: map<Id, Event>, cfg: Settings, t: int, n: Id, from: int, k: nat)
    requires SysInv(s) && Enabled(s, a) && Timely(a, cfg, t) && Covered(s, h, cfg, t)
    requires |Held(Next(s, a), From(n))| + (if a.DoSend? then 1 else 0) <= k && WindowOk(s, h, cfg, n, from, k)
    ensures WindowOk(Next(s, a), ExtendHistory(s, a, h), cfg, n, from, k)
  {
    hide Inv, NextDb, NextSends, WindowOk, ReplyTo, ExtendHistory, CheckSend;
    if a.CommitSend? {
      CommitStepKeepsWindow(s, a, h, cfg, t, n, from, k);
    } else if a.BeginSend? && DecisionOf(s, a).Insert? {
      PassedIsNotAccepted(s, a, h);
      PassedStepKeepsWindow(s, a, h, cfg, t, n, from, k);
    } else if ReplyTo(s, a).Accepted? {
      assert a.DoSend? by {
        var t := TicketOf(s, a);
      }
      RefusedHoldsAsMany(s, a);
      WholeSendKeepsWindow(s, a, h, cfg, t, n, from, k);
    } else {
      QuietStepKeepsWindow(s, a, h, cfg, n, from, k);
    }
  }

  lemma StepKeepsWindows(s: Sys, a: Action, h: map<Id, Event>, cfg: Settings, t: int, n: Id, k: nat)
    requires SysInv(s) && Enabled(s, a) && Timely(a, cfg, t) && Covered(s, h, cfg, t)
    requires |Held(Next(s, a), From(n))| + (if a.DoSend? then 1 else 0) <= k && WindowsOk(s, h, cfg, n, k)
    ensures WindowsOk(Next(s, a), ExtendHistory(s, a, h), cfg, n, k)
  {
    hide Inv, NextDb, NextSends, WindowOk, ExtendHistory, Covered;
    forall from: int
      ensures WindowOk(Next(s, a), ExtendHistory(s, a, h), cfg, n, from, k)
    {
      assert WindowOk(s, h, cfg, n, from, k);
      StepKeepsWindow(s, a, h, cfg, t, n, from, k);
    }
  }

  lemma {:induction false} WindowsStayBounded(
    s: Sys, run: seq<Action>, h: map<Id, Event>, cfg: Settings, t: int, n: Id, k: nat)
    requires SysInv(s) && Legal(s, run) && AtMost(s, run, cfg, t, From(n), k)
    requires Covered(s, h, cfg, t) && WindowsOk(s, h, cfg, n, k)
    ensures WindowsOk(After(s, run), History(s, run, h), cfg, n, k)
    ensures Covered(After(s, run), History(s, run, h), cfg, LastTime(run, t))
    decreases |run|
  {
    if run != [] {
      hide Covered, WindowsOk, ExtendHistory;
      StepKeepsInvariant(s, run[0]);
      StepKeepsCovered(s, run[0], h, cfg, t);
      StepKeepsWindows(s, run[0], h, cfg, t, n, k);
      WindowsStayBounded(Next(s, run[0]), run[1..], ExtendHistory(s, run[0], h), cfg, TimeAfter(run[0], t), n, k);
    }
  }

  lemma StartHasRoom(cfg: Settings, t: int, n: Id, k: nat)
    requires k >= 1
    ensures Covered(START, map[], cfg, t) && WindowsOk(START, map[], cfg, n, k)
  {
    forall from: int
      ensures WindowOk(START, map[], cfg, n, from, k)
    {
      assert SendsInWindow(map[], n, from, cfg.windowSeconds) == {};
      assert HeldInWindow(START, n, from, cfg.windowSeconds) == {};
    }
  }

  /** From the empty relay, with at most k >= 1 sends of a node between their checks and
      their commit at a time: every closed window holds at most k - 1 accepted sends of
      the node more than the limit. */
  lemma InterleavedWindowsOvershootByLessThanK(
    run: seq<Action>, cfg: Settings, t: int, n: Id, from: int, k: nat)
    requires Legal(START, run) && k >= 1 && AtMost(START, run, cfg, t, From(n), k)
    ensures |SendsInWindow(History(START, run, map[]), n, from, cfg.windowSeconds)| <= cfg.maxSends + k - 1
  {
    hide SysInv, Covered, AtMost, Legal, After, History;
    StartInv();
    StartHasRoom(cfg, t, n, k);
    WindowsStayBounded(START, run, map[], cfg, t, n, k);
    assert WindowOk(After(START, run), History(START, run, map[]), cfg, n, from, k);
  }
}
