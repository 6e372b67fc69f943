/** The emoji the bot shows on one of its users' messages: one per active
    reaction of the other side, or a read mark when there is none. */
module BridgeReactions {

  /** What a reaction packet carries: a glyph, the numeric id of a custom emoji,
      or both or neither, and a name. */
  datatype Payload = Payload(glyph: string, id: Id, name: string)

  datatype Id = NoId | CustomId(n: nat)

  datatype DisplayKey = NoKey | ById(n: nat) | ByGlyph(glyph: string) | ByName(name: string)

  /** An emoji as Discord puts it on a message. */
  datatype Emoji = Glyph(glyph: string) | Custom(n: nat)

  const READ_MARK := Glyph("\U{2705}")

  function ReactionDisplayKey(p: Payload): DisplayKey {
    if p.id != NoId then ById(p.id.n)
    else if p.glyph != "" then ByGlyph(p.glyph)
    else if p.name != "" then ByName(p.name)
    else NoKey
  }

  predicate ReactionMatches(a: Payload, b: Payload) {
    ReactionDisplayKey(a) != NoKey && ReactionDisplayKey(b) != NoKey && ReactionDisplayKey(a) == ReactionDisplayKey(b)
  }

  /** Exactly one of glyph and numeric id. */
  predicate WellFormed(p: Payload) {
    (p.glyph != "") != (p.id != NoId)
  }

  /** The emoji shown for a well-formed payload: the glyph wins over the id. */
  function EmojiOf(p: Payload): Emoji
    requires WellFormed(p)
  {
    if p.glyph != "" then Glyph(p.glyph) else Custom(p.id.n)
  }

  /** Comparing display keys is comparing emoji. */
  lemma MatchingIsSameEmoji(a: Payload, b: Payload)
    requires WellFormed(a) && WellFormed(b)
    ensures ReactionMatches(a, b) <==> EmojiOf(a) == EmojiOf(b)
  {
  }

  type Key = string

  /** The stored state of one outbound message, and the bot's emoji on it. */
  datatype Mark = Mark(active: map<Key, Payload>, read: bool, shown: set<Emoji>)

  const FRESH := Mark(map[], false, {})

  datatype Event = SetReaction(key: Key, payload: Payload) | RemoveReaction(key: Key, payload: Payload) | ReadReceipt

  predicate GoodEvent(e: Event) {
    !e.ReadReceipt? ==> WellFormed(e.payload)
  }

  predicate GoodMark(m: Mark) {
    forall k :: k in m.active ==> WellFormed(m.active[k])
  }

  /** The simple specification of what should be shown. */
  function Expected(active: map<Key, Payload>, read: bool): set<Emoji>
    requires forall k :: k in active ==> WellFormed(active[k])
  {
    if active != map[] then set k | k in active :: EmojiOf(active[k])
    else if read then {READ_MARK}
    else {}
  }

  predicate Shows(m: Mark) {
    GoodMark(m) && m.shown == Expected(m.active, m.read)
  }

  class OutboundMessage {
    var active: map<Key, Payload>
    var read: bool
    var shown: set<Emoji>

    function State(): Mark
      reads this
    {
      Mark(active, read, shown)
    }

    constructor ()
      ensures State() == FRESH
    {
      active, read, shown := map[], false, {};
    }

    /** `try_remove_display_reaction`: removing what is not there does nothing. */
    method RemoveDisplayed(p: Payload)
      requires WellFormed(p)
      modifies this`shown
      ensures shown == old(shown) - {EmojiOf(p)}
    {
      shown := shown - {EmojiOf(p)};
    }

    method SetExplicitReaction(p: Payload, previous: seq<Payload>, suppressReadMark: bool)
      requires WellFormed(p) && |previous| <= 1 && forall q :: q in previous ==> WellFormed(q)
      modifies this`shown
      ensures shown == old(shown)
                       - (if |previous| == 1 && EmojiOf(previous[0]) != EmojiOf(p) then {EmojiOf(previous[0])} else {})
                       - (if suppressReadMark && read && EmojiOf(p) != READ_MARK then {READ_MARK} else {})
                       + {EmojiOf(p)}
    {
      if |previous| == 1 {
        MatchingIsSameEmoji(previous[0], p);
        if !ReactionMatches(previous[0], p) {
          RemoveDisplayed(previous[0]);
        }
      }
      if suppressReadMark && read && EmojiOf(p) != READ_MARK {
        shown := shown - {READ_MARK};
      }
      shown := shown + {EmojiOf(p)};
    }

    method AddReadMark()
      modifies this`shown
      ensures shown == if active != map[] then old(shown) else old(shown) + {READ_MARK}
    {
      if active != map[] {
        return;
      }
      shown := shown + {READ_MARK};
    }

    method HandleSet(key: Key, p: Payload)
      requires GoodMark(State()) && WellFormed(p)
      modifies this
      ensures State() == Step(old(State()), SetReaction(key, p))
    {
      var previous := if key in active then [active[key]] else [];
      var hadExplicit := active != map[];
      active := active[key := p];
      SetExplicitReaction(p, previous, !hadExplicit);
    }

    method HandleRemove(key: Key, p: Payload)
      requires GoodMark(State()) && WellFormed(p)
      modifies this
      ensures State() == Step(old(State()), RemoveReaction(key, p))
    {
      var removed := if key in active then active[key] else p;
      active := active - {key};
      if !(exists k :: k in active && ReactionMatches(active[k], removed)) {
        RemoveDisplayed(removed);
      }
      if active == map[] && read {
        AddReadMark();
      }
    }

    method HandleRead()
      requires GoodMark(State())
      modifies this
      ensures State() == Step(old(State()), ReadReceipt)
    {
      read := true;
      AddReadMark();
    }
  }

  /** One event, as the handlers above process it. */
  function Step(m: Mark, e: Event): Mark
    requires GoodMark(m) && GoodEvent(e)
  {
    match e
    case SetReaction(key, p) =>
      var dropped := if key in m.active && EmojiOf(m.active[key]) != EmojiOf(p) then {EmojiOf(m.active[key])} else {};
      var mark := if m.active == map[] && m.read && EmojiOf(p) != READ_MARK then {READ_MARK} else {};
      m.(active := m.active[key := p], shown := m.shown - dropped - mark + {EmojiOf(p)})
    case RemoveReaction(key, p) =>
      var removed := if key in m.active then m.active[key] else p;
      var rest := m.active - {key};
      var kept := if exists k :: k in rest && ReactionMatches(rest[k], removed) then m.shown
                  else m.shown - {EmojiOf(removed)};
      m.(active := rest, shown := if rest == map[] && m.read then kept + {READ_MARK} else kept)
    case ReadReceipt =>
      m.(read := true, shown := if m.active != map[] then m.shown else m.shown + {READ_MARK})
  }

  // ------------------------------------------------------------- refinement

  /** The one case the handlers do not track: a key changes its emoji while
      another key still shows the old one. */
  predicate LosesAnEmoji(m: Mark, e: Event)
    requires GoodMark(m) && GoodEvent(e)
  {
    && e.SetReaction? && e.key in m.active && EmojiOf(m.active[e.key]) != EmojiOf(e.payload)
    && exists k :: k in m.active && k != e.key && EmojiOf(m.active[k]) == EmojiOf(m.active[e.key])
  }

  lemma StepStaysGood(m: Mark, e: Event)
    requires GoodMark(m) && GoodEvent(e)
    ensures GoodMark(Step(m, e))
  {
  }

  lemma SetShows(m: Mark, key: Key, p: Payload)
    requires Shows(m) && WellFormed(p)
    ensures Shows(Step(m, SetReaction(key, p))) <==> !LosesAnEmoji(m, SetReaction(key, p))
  {
    var e := SetReaction(key, p);
    var m' := Step(m, e);
    StepStaysGood(m, e);
    if LosesAnEmoji(m, e) {
      var k :| k in m.active && k != key && EmojiOf(m.active[k]) == EmojiOf(m.active[key]);
      assert m'.active[k] == m.active[k];
      assert EmojiOf(m'.active[k]) in Expected(m'.active, m'.read);
    } else {
      forall x | x in Expected(m'.active, m'.read)
        ensures x in m'.shown
      {
        var k :| k in m'.active && EmojiOf(m'.active[k]) == x;
        if k != key {
          assert m.active[k] == m'.active[k];
          assert EmojiOf(m.active[k]) in Expected(m.active, m.read);
        }
      }
      forall x | x in m'.shown
        ensures x in Expected(m'.active, m'.read)
      {
        SetShowsNothingElse(m, key, p, x);
      }
    }
  }

  lemma SetShowsNothingElse(m: Mark, key: Key, p: Payload, x: Emoji)
    requires Shows(m) && WellFormed(p) && x in Step(m, SetReaction(key, p)).shown
    ensures GoodMark(Step(m, SetReaction(key, p)))
    ensures x in Expected(Step(m, SetReaction(key, p)).active, Step(m, SetReaction(key, p)).read)
  {
    var m' := Step(m, SetReaction(key, p));
    StepStaysGood(m, SetReaction(key, p));
    assert m'.active[key] == p;
    if x != EmojiOf(p) {
      assert m.active != map[];
      var k :| k in m.active && EmojiOf(m.active[k]) == x;
      assert k != key && m'.active[k] == m.active[k];
    }
  }

  lemma OnlyKey(active: map<Key, Payload>, key: Key)
    requires active - {key} == map[]
    ensures active.Keys <= {key}
  {
    forall k | k in active
      ensures k in {key}
    {
      assert k in active - {key} <==> k != key;
    }
  }

  lemma RemoveShows(m: Mark, key: Key, p: Payload)
    requires Shows(m) && WellFormed(p)
    ensures Shows(Step(m, RemoveReaction(key, p)))
  {
    var e := RemoveReaction(key, p);
    var m' := Step(m, e);
    StepStaysGood(m, e);
    var removed := if key in m.active then m.active[key] else p;
    forall k | k in m'.active
      ensures ReactionMatches(m'.active[k], removed) <==> EmojiOf(m'.active[k]) == EmojiOf(removed)
    {
      MatchingIsSameEmoji(m'.active[k], removed);
    }
    if m'.active != map[] {
      forall x | x in m.shown && x != EmojiOf(removed)
        ensures x in Expected(m'.active, m'.read)
      {
        var k :| k in m.active && EmojiOf(m.active[k]) == x;
        assert k in m'.active;
      }
      forall k | k in m'.active
        ensures EmojiOf(m'.active[k]) in m.shown
      {
        assert k in m.active;
      }
    } else {
      OnlyKey(m.active, key);
    }
  }

  lemma ReadShows(m: Mark)
    requires Shows(m)
    ensures Shows(Step(m, ReadReceipt))
  {
  }

  /** Each event keeps the display equal to its specification, except exactly
      the one that makes a key drop an emoji another key still shows. */
  lemma StepRefinesSpecification(m: Mark, e: Event)
    requires Shows(m) && GoodEvent(e)
    ensures Shows(Step(m, e)) <==> !LosesAnEmoji(m, e)
  {
    match e
    case SetReaction(key, p) => SetShows(m, key, p);
    case RemoveReaction(key, p) => RemoveShows(m, key, p);
    case ReadReceipt => ReadShows(m);
  }

  predicate GoodEvents(events: seq<Event>) {
    forall e :: e in events ==> GoodEvent(e)
  }

  function Replay(m: Mark, events: seq<Event>): (r: Mark)
    requires GoodMark(m) && GoodEvents(events)
    ensures GoodMark(r)
    decreases |events|
  {
    if events == [] then m else Replay(Step(m, events[0]), events[1..])
  }

  /** A reaction key stands for one emoji. */
  ghost predicate KeysFixEmoji(events: seq<Event>, f: Key -> Emoji) {
    forall e :: e in events && GoodEvent(e) && !e.ReadReceipt? ==> EmojiOf(e.payload) == f(e.key)
  }

  lemma {:induction false} ReplayRefines(m: Mark, events: seq<Event>, f: Key -> Emoji)
    requires Shows(m) && GoodEvents(events) && KeysFixEmoji(events, f)
    requires forall k :: k in m.active ==> EmojiOf(m.active[k]) == f(k)
    ensures Shows(Replay(m, events))
    decreases |events|
  {
    if events != [] {
      var e := events[0];
      StepRefinesSpecification(m, e);
      assert e in events && GoodEvent(e);
      StepKeepsKeys(m, e, f);
      ReplayRefines(Step(m, e), events[1..], f);
    }
  }

  lemma StepKeepsKeys(m: Mark, e: Event, f: Key -> Emoji)
    requires GoodMark(m) && GoodEvent(e) && (!e.ReadReceipt? ==> EmojiOf(e.payload) == f(e.key))
    requires forall k :: k in m.active ==> EmojiOf(m.active[k]) == f(k)
    ensures GoodMark(Step(m, e)) && forall k :: k in Step(m, e).active ==> EmojiOf(Step(m, e).active[k]) == f(k)
  {
  }

  /** Over every sequence of set, remove and read events, with duplicates and
      removals of unknown keys, the bot shows exactly the image of the active
      reactions, or the read mark, or nothing. */
  lemma DisplayMeetsSpecification(events: seq<Event>, f: Key -> Emoji)
    requires GoodEvents(events) && KeysFixEmoji(events, f)
    ensures var m := Replay(FRESH, events);
            m.shown == Expected(m.active, m.read)
  {
    ReplayRefines(FRESH, events, f);
  }

  /** When a key does change its emoji the display can go wrong: two people react
      with one emoji, one changes theirs, and the other's disappears too. */
  lemma ChangingKeyLosesAnEmoji()
    ensures var thumb, heart := Payload("T", NoId, ""), Payload("H", NoId, "");
            var events := [SetReaction("a", thumb), SetReaction("b", thumb), SetReaction("a", heart)];
            GoodEvents(events) &&
            Replay(FRESH, events).shown == {Glyph("H")} &&
            Expected(Replay(FRESH, events).active, false) == {Glyph("T"), Glyph("H")}
  {
    var thumb, heart := Payload("T", NoId, ""), Payload("H", NoId, "");
    var e1, e2, e3 := SetReaction("a", thumb), SetReaction("b", thumb), SetReaction("a", heart);
    var events := [e1, e2, e3];
    assert GoodEvents(events);
    assert events[1..] == [e2, e3] && [e2, e3][1..] == [e3] && [e3][1..] == [];
    var m1 := Step(FRESH, e1);
    var m2 := Step(m1, e2);
    var m3 := Step(m2, e3);
    assert Replay(FRESH, events) == Replay(m1, [e2, e3]) == Replay(m2, [e3]) == Replay(m3, []) == m3;
    assert m3.active == map["a" := heart, "b" := thumb];
    assert m3.active["a"] == heart && m3.active["b"] == thumb;
    forall x
      ensures x in Expected(m3.active, false) <==> x in {Glyph("T"), Glyph("H")}
    {
      assert x == Glyph("T") ==> EmojiOf(m3.active["b"]) == x;
      assert x == Glyph("H") ==> EmojiOf(m3.active["a"]) == x;
    }
  }
}
