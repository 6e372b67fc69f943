/** The IP access rules of the admin tables, and the in-memory snapshot that
    answers for them on every request. */
module AccessCache {
  import opened RelayTables

  datatype Policy = Allow | Deny

  datatype AccessMode = Off | Config | Dynamic

  /** The rule table, keyed by address text, and the settings row if there is one. */
  datatype Store = Store(rules: map<string, Policy>, policy: Option<Policy>)

  datatype AdminError = InvalidIp | RuleNotFound | NoAllowRule

  /** Address normalization, taken as a parameter: None for text that is no address. */
  type Norm = string -> Option<string>

  ghost predicate Canonical(norm: Norm) {
    forall s :: norm(s).Some? ==> norm(norm(s).value) == norm(s)
  }

  /** Rules are stored under canonical addresses. */
  ghost predicate StoreOk(store: Store, norm: Norm) {
    forall ip :: ip in store.rules ==> norm(ip) == Some(ip)
  }

  function DefaultPolicy(store: Store): Policy {
    if store.policy.Some? then store.policy.value else Allow
  }

  predicate StaticDenied(blacklist: seq<string>, norm: Norm, ip: Option<string>) {
    ip.Some? && exists i :: 0 <= i < |blacklist| && norm(blacklist[i]) == ip
  }

  /** `is_ip_allowed`: the answer the database gives. */
  function IsIpAllowed(store: Store, norm: Norm, mode: AccessMode, blacklist: seq<string>, ip: string): bool {
    var address := norm(ip);
    match mode
    case Off => true
    case Config => !StaticDenied(blacklist, norm, address)
    case Dynamic =>
      if address.Some? && address.value in store.rules then store.rules[address.value] == Allow
      else if StaticDenied(blacklist, norm, address) then false
      else DefaultPolicy(store) == Allow
  }

  // ------------------------------------------------------------ admin commands

  datatype AdminCommand = SetRule(ip: string, action: Policy) | RemoveRule(ip: string) | SetPolicy(policy: Policy)

  function CommandError(store: Store, norm: Norm, c: AdminCommand): Option<AdminError> {
    match c
    case SetRule(ip, _) => if norm(ip).None? then Some(InvalidIp) else None
    case RemoveRule(ip) =>
      if norm(ip).None? then Some(InvalidIp)
      else if norm(ip).value !in store.rules then Some(RuleNotFound)
      else None
    case SetPolicy(policy) =>
      if policy == Deny && !(exists ip :: ip in store.rules && store.rules[ip] == Allow) then Some(NoAllowRule)
      else None
  }

  /** What the write of a command needs. The policy is checked against the rules
      before it is written, and the rules may have changed since. */
  predicate CanCommit(store: Store, norm: Norm, c: AdminCommand) {
    c.SetPolicy? || CommandError(store, norm, c).None?
  }

  function Commanded(store: Store, norm: Norm, c: AdminCommand): Store
    requires CanCommit(store, norm, c)
  {
    match c
    case SetRule(ip, action) => store.(rules := store.rules[norm(ip).value := action])
    case RemoveRule(ip) => store.(rules := store.rules - {norm(ip).value})
    case SetPolicy(policy) => store.(policy := Some(policy))
  }

  class AdminTables {
    var rules: map<string, Policy>
    var policy: Option<Policy>

    function State(): Store
      reads this
    {
      Store(rules, policy)
    }

    constructor ()
      ensures State() == Store(map[], Some(Allow))
    {
      rules, policy := map[], Some(Allow);
    }

    method SetIpRule(norm: Norm, ip: string, action: Policy) returns (error: Option<AdminError>)
      modifies this`rules
      ensures error == CommandError(old(State()), norm, SetRule(ip, action))
      ensures State() == if error.Some? then old(State()) else Commanded(old(State()), norm, SetRule(ip, action))
    {
      var address := norm(ip);
      if address.None? {
        return Some(InvalidIp);
      }
      rules := rules[address.value := action];
      error := None;
    }

    method RemoveIpRule(norm: Norm, ip: string) returns (error: Option<AdminError>)
      modifies this`rules
      ensures error == CommandError(old(State()), norm, RemoveRule(ip))
      ensures State() == if error.Some? then old(State()) else Commanded(old(State()), norm, RemoveRule(ip))
    {
      var address := norm(ip);
      if address.None? {
        return Some(InvalidIp);
      }
      var before := |rules|;
      rules := rules - {address.value};
      RemovalCounts(old(rules), address.value);
      if before - |rules| == 0 {
        assert rules == old(rules);
        return Some(RuleNotFound);
      }
      error := None;
    }

    method UpdateDefaultPolicy(norm: Norm, wanted: Policy) returns (error: Option<AdminError>)
      modifies this`policy
      ensures error == CommandError(old(State()), norm, SetPolicy(wanted))
      ensures State() == if error.Some? then old(State()) else Commanded(old(State()), norm, SetPolicy(wanted))
    {
      var allowing := set ip | ip in rules && rules[ip] == Allow;
      if wanted == Deny && |allowing| == 0 {
        assert forall ip :: ip in rules && rules[ip] == Allow ==> ip in allowing;
        return Some(NoAllowRule);
      }
      if wanted == Deny {
        var ip :| ip in allowing;
      }
      policy := Some(wanted);
      error := None;
    }
  }

  lemma RemovalCounts(rules: map<string, Policy>, ip: string)
    ensures |rules| - |rules - {ip}| == if ip in rules then 1 else 0
  {
    assert (rules - {ip}).Keys == rules.Keys - {ip};
    assert |rules.Keys| == |rules| && |(rules - {ip}).Keys| == |rules - {ip}|;
  }

  lemma CommandsKeepStore(store: Store, norm: Norm, c: AdminCommand)
    requires StoreOk(store, norm) && Canonical(norm) && CanCommit(store, norm, c)
    ensures StoreOk(Commanded(store, norm, c), norm)
  {
  }

  // -------------------------------------------------------------- the snapshot

  datatype Snapshot = Snapshot(mode: AccessMode, policy: Policy, allowed: set<string>, denied: set<string>)

  /** The rows of the rule table, each once, in any order. */
  predicate RowsOf(rows: seq<(string, Policy)>, store: Store) {
    && (forall i :: 0 <= i < |rows| ==> rows[i].0 in store.rules && store.rules[rows[i].0] == rows[i].1)
    && (forall ip :: ip in store.rules ==> exists i :: 0 <= i < |rows| && rows[i].0 == ip)
    && (forall i, j :: 0 <= i < j < |rows| ==> rows[i].0 != rows[j].0)
  }

  /** Row i is the last one that names the address. */
  predicate LastWord(rows: seq<(string, Policy)>, norm: Norm, ip: string, i: nat) {
    && i < |rows| && norm(rows[i].0) == Some(ip)
    && forall j :: i < j < |rows| ==> norm(rows[j].0) != Some(ip)
  }

  ghost predicate Says(rows: seq<(string, Policy)>, norm: Norm, ip: string, action: Policy) {
    exists i: nat :: LastWord(rows, norm, ip, i) && rows[i].1 == action
  }

  lemma SaysAppend(rows: seq<(string, Policy)>, row: (string, Policy), norm: Norm, ip: string, action: Policy)
    ensures Says(rows + [row], norm, ip, action) <==>
            if norm(row.0) == Some(ip) then row.1 == action else Says(rows, norm, ip, action)
  {
    var all := rows + [row];
    assert all[|rows|] == row && forall j :: 0 <= j < |rows| ==> all[j] == rows[j];
    if norm(row.0) == Some(ip) {
      assert LastWord(all, norm, ip, |rows|);
      assert forall i: nat :: LastWord(all, norm, ip, i) ==> i == |rows|;
    } else {
      if i: nat :| LastWord(rows, norm, ip, i) && rows[i].1 == action {
        assert LastWord(all, norm, ip, i);
      }
      if i: nat :| LastWord(all, norm, ip, i) && all[i].1 == action {
        assert LastWord(rows, norm, ip, i);
      }
    }
  }

  /** The loop of `_load_snapshot_from_db`. The settings row and the rule rows come
      from two queries, and so perhaps from two states of the tables. */
  method LoadSnapshot(settings: Store, rows: seq<(string, Policy)>, norm: Norm, mode: AccessMode)
    returns (snapshot: Snapshot)
    ensures snapshot.mode == mode && snapshot.policy == DefaultPolicy(settings)
    ensures mode == Dynamic ==>
              forall ip :: (ip in snapshot.allowed <==> Says(rows, norm, ip, Allow)) &&
                           (ip in snapshot.denied <==> Says(rows, norm, ip, Deny))
    ensures mode != Dynamic ==> snapshot.allowed == {} && snapshot.denied == {}
  {
    var allowed: set<string>, denied: set<string> := {}, {};
    if mode == Dynamic {
      var i := 0;
      while i < |rows|
        invariant 0 <= i <= |rows|
        invariant forall ip :: ip in allowed <==> Says(rows[..i], norm, ip, Allow)
        invariant forall ip :: ip in denied <==> Says(rows[..i], norm, ip, Deny)
      {
        assert rows[..i + 1] == rows[..i] + [rows[i]];
        forall ip, action
          ensures Says(rows[..i + 1], norm, ip, action) <==>
                  if norm(rows[i].0) == Some(ip) then rows[i].1 == action else Says(rows[..i], norm, ip, action)
        {
          SaysAppend(rows[..i], rows[i], norm, ip, action);
        }
        var address := norm(rows[i].0);
        if address.Some? {
          if rows[i].1 == Allow {
            allowed := allowed + {address.value};
            denied := denied - {address.value};
          } else {
            denied := denied + {address.value};
            allowed := allowed - {address.value};
          }
        }
        i := i + 1;
      }
      assert rows[..i] == rows;
    }
    snapshot := Snapshot(mode, DefaultPolicy(settings), allowed, denied);
  }

  /** What a snapshot holds whose policy and rules were read apart. */
  function SnapshotFrom(policy: Policy, rules: map<string, Policy>, mode: AccessMode): Snapshot {
    if mode == Dynamic then
      Snapshot(mode, policy,
               set ip | ip in rules && rules[ip] == Allow,
               set ip | ip in rules && rules[ip] == Deny)
    else Snapshot(mode, policy, {}, {})
  }

  /** What a snapshot taken at one moment holds. */
  function SnapshotOf(store: Store, mode: AccessMode): Snapshot {
    SnapshotFrom(DefaultPolicy(store), store.rules, mode)
  }

  lemma CanonicalRulesSayThemselves(
    rows: seq<(string, Policy)>, store: Store, norm: Norm, ip: string, action: Policy)
    requires StoreOk(store, norm) && RowsOf(rows, store)
    ensures Says(rows, norm, ip, action) <==> ip in store.rules && store.rules[ip] == action
  {
    if ip in store.rules {
      var i :| 0 <= i < |rows| && rows[i].0 == ip;
      assert LastWord(rows, norm, ip, i);
    }
  }

  /** Over canonical rules the loop computes exactly the rule table. */
  lemma LoadedIsTheTable(
    rows: seq<(string, Policy)>, store: Store, norm: Norm, mode: AccessMode, snapshot: Snapshot)
    requires StoreOk(store, norm) && RowsOf(rows, store) && snapshot.mode == mode
    requires mode == Dynamic ==>
               forall ip :: (ip in snapshot.allowed <==> Says(rows, norm, ip, Allow)) &&
                            (ip in snapshot.denied <==> Says(rows, norm, ip, Deny))
    requires mode != Dynamic ==> snapshot.allowed == {} && snapshot.denied == {}
    ensures snapshot == SnapshotFrom(snapshot.policy, store.rules, mode)
  {
    var table := SnapshotFrom(snapshot.policy, store.rules, mode);
    forall ip
      ensures mode == Dynamic ==>
                (ip in snapshot.allowed <==> ip in table.allowed) && (ip in snapshot.denied <==> ip in table.denied)
    {
      CanonicalRulesSayThemselves(rows, store, norm, ip, Allow);
      CanonicalRulesSayThemselves(rows, store, norm, ip, Deny);
    }
  }

  /** `is_ip_allowed_cached`. */
  function IsIpAllowedCached(
    snapshot: Option<Snapshot>, norm: Norm, mode: AccessMode, blacklist: seq<string>, ip: string): bool
  {
    var address := norm(ip);
    match snapshot
    case None => mode == Off || !StaticDenied(blacklist, norm, address)
    case Some(s) =>
      match s.mode
      case Off => true
      case Config => !StaticDenied(blacklist, norm, address)
      case Dynamic =>
        if address.Some? && address.value in s.allowed then true
        else if address.Some? && address.value in s.denied then false
        else if StaticDenied(blacklist, norm, address) then false
        else s.policy == Allow
  }

  /** What the tables and the blacklist say about an address. */
  predicate Verdict(rule: Option<Policy>, policy: Policy, listed: bool) {
    if rule.Some? then rule.value == Allow else !listed && policy == Allow
  }

  function RuleIn(rules: map<string, Policy>, address: Option<string>): Option<Policy> {
    if address.Some? && address.value in rules then Some(rules[address.value]) else None
  }

  /** Under dynamic rules a snapshot gives the verdict of what was read. */
  lemma SnapshotAnswers(
    policy: Policy, rules: map<string, Policy>, norm: Norm, mode: AccessMode, blacklist: seq<string>, ip: string)
    ensures var listed := StaticDenied(blacklist, norm, norm(ip));
            IsIpAllowedCached(Some(SnapshotFrom(policy, rules, mode)), norm, mode, blacklist, ip) ==
            match mode
            case Off => true
            case Config => !listed
            case Dynamic => Verdict(RuleIn(rules, norm(ip)), policy, listed)
  {
    var address := norm(ip);
    if mode == Dynamic && address.Some? && address.value in rules {
      assert address.value in SnapshotFrom(policy, rules, mode).allowed <==> rules[address.value] == Allow;
      assert address.value in SnapshotFrom(policy, rules, mode).denied <==> rules[address.value] == Deny;
    }
  }

  /** A current snapshot answers as the database does, for every text. */
  lemma CurrentSnapshotAnswersAlike(
    store: Store, norm: Norm, mode: AccessMode, blacklist: seq<string>, ip: string)
    ensures IsIpAllowedCached(Some(SnapshotOf(store, mode)), norm, mode, blacklist, ip) ==
            IsIpAllowed(store, norm, mode, blacklist, ip)
  {
    SnapshotAnswers(DefaultPolicy(store), store.rules, norm, mode, blacklist, ip);
  }

  class RuntimeAccessCache {
    var snapshot: Option<Snapshot>
    var lastMarkerToken: Option<nat>

    constructor ()
      ensures snapshot == None && lastMarkerToken == None
    {
      snapshot, lastMarkerToken := None, None;
    }

    /** `settings` and `rules` are the tables as the two queries met them, `rows` what
        the second returned; `marker` is read after the load. */
    method Refresh(
      settings: Store, rules: Store, rows: seq<(string, Policy)>, norm: Norm, mode: AccessMode, marker: Option<nat>)
      requires StoreOk(rules, norm) && RowsOf(rows, rules)
      modifies this
      ensures snapshot == Some(SnapshotFrom(DefaultPolicy(settings), rules.rules, mode)) && lastMarkerToken == marker
      ensures settings == rules ==> snapshot == Some(SnapshotOf(rules, mode))
    {
      var loaded := LoadSnapshot(settings, rows, norm, mode);
      LoadedIsTheTable(rows, rules, norm, mode, loaded);
      snapshot := Some(loaded);
      lastMarkerToken := marker;
    }

    /** One round of the watcher: `seen` is the marker it reads first. */
    method WatcherRound(
      seen: Option<nat>, settings: Store, rules: Store, rows: seq<(string, Policy)>, norm: Norm, mode: AccessMode,
      marker: Option<nat>)
      requires StoreOk(rules, norm) && RowsOf(rows, rules)
      modifies this
      ensures seen == old(lastMarkerToken) ==> snapshot == old(snapshot) && lastMarkerToken == old(lastMarkerToken)
      ensures seen != old(lastMarkerToken) ==>
                snapshot == Some(SnapshotFrom(DefaultPolicy(settings), rules.rules, mode)) && lastMarkerToken == marker
    {
      if seen == lastMarkerToken {
        return;
      }
      Refresh(settings, rules, rows, norm, mode, marker);
    }

    method Allows(norm: Norm, mode: AccessMode, blacklist: seq<string>, ip: string) returns (r: bool)
      ensures r == IsIpAllowedCached(snapshot, norm, mode, blacklist, ip)
      ensures forall store :: snapshot == Some(SnapshotOf(store, mode)) ==>
                r == IsIpAllowed(store, norm, mode, blacklist, ip)
    {
      r := IsIpAllowedCached(snapshot, norm, mode, blacklist, ip);
      forall store | snapshot == Some(SnapshotOf(store, mode))
        ensures r == IsIpAllowed(store, norm, mode, blacklist, ip)
      {
        CurrentSnapshotAnswersAlike(store, norm, mode, blacklist, ip);
      }
    }
  }

  // ------------------------------------------------------------------- history

  /** A refresh reads the settings, then the rules, then the marker, and stores what it
      read; `settings`, `loading` and `seen` are what it has so far. The marker file was
      written `writes` times and is empty while `torn`. `token` is the content that was
      stored with the cached snapshot. */
  datatype World = World(
    store: Store, writes: nat, torn: bool, settings: Option<Policy>, loading: Option<Snapshot>,
    seen: Option<Option<nat>>, cached: Option<Snapshot>, token: Option<nat>)

  /** `Empty` and `Write` are the two halves of touching the marker. */
  datatype Step = Commit(c: AdminCommand) | Empty | Write | ReadSettings | ReadRules | ReadToken | Keep

  /** What reading the marker file gives: nothing, or a content no other write gave. */
  function Marker(w: World): Option<nat> {
    if w.torn then None else Some(w.writes)
  }

  predicate CanStep(w: World, norm: Norm, step: Step) {
    match step
    case Commit(c) => CanCommit(w.store, norm, c)
    case ReadRules => w.settings.Some?
    case ReadToken => w.loading.Some? && w.seen.None?
    case Keep => w.loading.Some? && w.seen.Some?
    case _ => true
  }

  function Next(w: World, norm: Norm, mode: AccessMode, step: Step): World
    requires CanStep(w, norm, step)
  {
    match step
    case Commit(c) => w.(store := Commanded(w.store, norm, c))
    case Empty => w.(torn := true)
    case Write => w.(writes := w.writes + 1, torn := false)
    case ReadSettings => w.(settings := Some(DefaultPolicy(w.store)), loading := None, seen := None)
    case ReadRules => w.(loading := Some(SnapshotFrom(w.settings.value, w.store.rules, mode)), settings := None)
    case ReadToken => w.(seen := Some(Marker(w)))
    case Keep => w.(cached := w.loading, token := w.seen.value, loading := None, seen := None)
  }

  predicate Legal(w: World, norm: Norm, mode: AccessMode, run: seq<Step>)
    decreases |run|
  {
    run == [] || (CanStep(w, norm, run[0]) && Legal(Next(w, norm, mode, run[0]), norm, mode, run[1..]))
  }

  function After(w: World, norm: Norm, mode: AccessMode, run: seq<Step>): World
    requires Legal(w, norm, mode, run)
    decreases |run|
  {
    if run == [] then w else After(Next(w, norm, mode, run[0]), norm, mode, run[1..])
  }

  predicate NoCommit(run: seq<Step>) {
    forall s :: s in run ==> !s.Commit?
  }

  lemma {:induction false} HistoryKeepsStore(w: World, norm: Norm, mode: AccessMode, run: seq<Step>)
    requires StoreOk(w.store, norm) && Canonical(norm) && Legal(w, norm, mode, run)
    ensures StoreOk(After(w, norm, mode, run).store, norm)
    decreases |run|
  {
    if run != [] {
      if run[0].Commit? {
        CommandsKeepStore(w.store, norm, run[0].c);
      }
      HistoryKeepsStore(Next(w, norm, mode, run[0]), norm, mode, run[1..]);
    }
  }

  predicate Current(w: World, mode: AccessMode) {
    w.cached == Some(SnapshotOf(w.store, mode))
  }

  predicate LoadingCurrent(w: World, mode: AccessMode) {
    && (w.settings.Some? ==> w.settings == Some(DefaultPolicy(w.store)))
    && (w.loading.Some? ==> w.loading == Some(SnapshotOf(w.store, mode)))
  }

  lemma {:induction false} QuietRunKeepsCurrent(w: World, norm: Norm, mode: AccessMode, run: seq<Step>)
    requires Legal(w, norm, mode, run) && NoCommit(run) && LoadingCurrent(w, mode)
    ensures LoadingCurrent(After(w, norm, mode, run), mode) && After(w, norm, mode, run).store == w.store
    ensures Current(w, mode) ==> Current(After(w, norm, mode, run), mode)
    decreases |run|
  {
    if run != [] {
      hide SnapshotFrom;
      assert run[0] in run;
      QuietRunKeepsCurrent(Next(w, norm, mode, run[0]), norm, mode, run[1..]);
    }
  }

  lemma {:induction false} LegalJoin(w: World, norm: Norm, mode: AccessMode, first: seq<Step>, rest: seq<Step>)
    requires Legal(w, norm, mode, first + rest)
    ensures Legal(w, norm, mode, first) && Legal(After(w, norm, mode, first), norm, mode, rest)
    ensures After(w, norm, mode, first + rest) == After(After(w, norm, mode, first), norm, mode, rest)
    decreases |first|
  {
    if first == [] {
      assert first + rest == rest;
    } else {
      assert (first + rest)[0] == first[0] && (first + rest)[1..] == first[1..] + rest;
      LegalJoin(Next(w, norm, mode, first[0]), norm, mode, first[1..], rest);
    }
  }

  /** After a refresh that no commit overlaps, and until the next commit, the
      cache answers every request as the database would, whatever came before. */
  lemma RefreshedCacheAnswersAlike(
    w: World, norm: Norm, mode: AccessMode, blacklist: seq<string>,
    past: seq<Step>, between: seq<Step>, later: seq<Step>, ip: string)
    requires Legal(w, norm, mode, past + ([ReadSettings] + between + [Keep] + later))
    requires NoCommit(between) && NoCommit(later)
    ensures var now := After(w, norm, mode, past + ([ReadSettings] + between + [Keep] + later));
            IsIpAllowedCached(now.cached, norm, mode, blacklist, ip) ==
            IsIpAllowed(now.store, norm, mode, blacklist, ip)
  {
    hide SnapshotOf, IsIpAllowedCached, IsIpAllowed;
    LegalJoin(w, norm, mode, past, [ReadSettings] + between + [Keep] + later);
    var w0 := After(w, norm, mode, past);
    LegalJoin(w0, norm, mode, [ReadSettings] + between + [Keep], later);
    LegalJoin(w0, norm, mode, [ReadSettings] + between, [Keep]);
    LegalJoin(w0, norm, mode, [ReadSettings], between);
    var w1 := After(w0, norm, mode, [ReadSettings]);
    assert [ReadSettings][1..] == [] && w1 == Next(w0, norm, mode, ReadSettings);
    var w2 := After(w1, norm, mode, between);
    QuietRunKeepsCurrent(w1, norm, mode, between);
    var w3 := After(w2, norm, mode, [Keep]);
    assert [Keep][1..] == [] && w3 == Next(w2, norm, mode, Keep);
    QuietRunKeepsCurrent(w3, norm, mode, later);
    CurrentSnapshotAnswersAlike(w3.store, norm, mode, blacklist, ip);
  }

  // -------------------------------------------------- when the cache is wrong

  function RuleOf(store: Store, address: Option<string>): Option<Policy> {
    RuleIn(store.rules, address)
  }

  function Commands(run: seq<Step>): seq<AdminCommand> {
    if run == [] then []
    else if run[|run| - 1].Commit? then Commands(run[..|run| - 1]) + [run[|run| - 1].c]
    else Commands(run[..|run| - 1])
  }

  predicate Names(c: AdminCommand, norm: Norm, address: Option<string>) {
    !c.SetPolicy? && address.Some? && norm(c.ip) == address
  }

  /** The rule of an address after some commands: the last one that names it decides. */
  function RuleAfter(rule: Option<Policy>, cs: seq<AdminCommand>, norm: Norm, address: Option<string>): Option<Policy> {
    if cs == [] then rule
    else
      var last := cs[|cs| - 1];
      if !Names(last, norm, address) then RuleAfter(rule, cs[..|cs| - 1], norm, address)
      else if last.SetRule? then Some(last.action)
      else None
  }

  function PolicyAfter(policy: Policy, cs: seq<AdminCommand>): Policy {
    if cs == [] then policy
    else if cs[|cs| - 1].SetPolicy? then cs[|cs| - 1].policy
    else PolicyAfter(policy, cs[..|cs| - 1])
  }

  lemma CommandDecides(store: Store, norm: Norm, c: AdminCommand, address: Option<string>)
    requires CanCommit(store, norm, c)
    ensures var store' := Commanded(store, norm, c);
            RuleOf(store', address) == (if !Names(c, norm, address) then RuleOf(store, address)
                                        else if c.SetRule? then Some(c.action) else None) &&
            DefaultPolicy(store') == if c.SetPolicy? then c.policy else DefaultPolicy(store)
  {
  }

  lemma OneMoreCommand(
    rule: Option<Policy>, policy: Policy, cs: seq<AdminCommand>, c: AdminCommand, norm: Norm, address: Option<string>)
    ensures RuleAfter(rule, cs + [c], norm, address) ==
            if !Names(c, norm, address) then RuleAfter(rule, cs, norm, address)
            else if c.SetRule? then Some(c.action)
            else None
    ensures PolicyAfter(policy, cs + [c]) == if c.SetPolicy? then c.policy else PolicyAfter(policy, cs)
  {
    assert (cs + [c])[..|cs|] == cs;
  }

  lemma OneMoreStep(init: seq<Step>, last: Step)
    ensures Commands(init + [last]) == if last.Commit? then Commands(init) + [last.c] else Commands(init)
  {
    assert (init + [last])[..|init|] == init;
  }

  /** The tables after a run say about an address what its commands say. */
  ghost predicate Decided(
    store: Store, cs: seq<AdminCommand>, now: Store, norm: Norm, address: Option<string>)
  {
    && RuleOf(now, address) == RuleAfter(RuleOf(store, address), cs, norm, address)
    && DefaultPolicy(now) == PolicyAfter(DefaultPolicy(store), cs)
  }

  lemma StepDecides(
    store: Store, cs: seq<AdminCommand>, w: World, norm: Norm, mode: AccessMode, last: Step, address: Option<string>)
    requires CanStep(w, norm, last) && Decided(store, cs, w.store, norm, address)
    ensures Decided(store, if last.Commit? then cs + [last.c] else cs, Next(w, norm, mode, last).store, norm, address)
  {
    hide RuleAfter, PolicyAfter, RuleOf, DefaultPolicy, SnapshotFrom, Commanded, CanCommit, Names;
    if last.Commit? {
      CommandDecides(w.store, norm, last.c, address);
      OneMoreCommand(RuleOf(store, address), DefaultPolicy(store), cs, last.c, norm, address);
    }
  }

  lemma LastStep(w: World, norm: Norm, mode: AccessMode, init: seq<Step>, last: Step)
    requires Legal(w, norm, mode, init + [last])
    ensures Legal(w, norm, mode, init) && CanStep(After(w, norm, mode, init), norm, last)
    ensures After(w, norm, mode, init + [last]) == Next(After(w, norm, mode, init), norm, mode, last)
  {
    hide CanStep, Next;
    LegalJoin(w, norm, mode, init, [last]);
    assert [last][0] == last && [last][1..] == [];
  }

  lemma {:induction false} CommandsDecide(
    w: World, norm: Norm, mode: AccessMode, run: seq<Step>, address: Option<string>)
    requires Legal(w, norm, mode, run)
    ensures Decided(w.store, Commands(run), After(w, norm, mode, run).store, norm, address)
    decreases |run|
  {
    if run != [] {
      hide Decided, Commands, CanStep, Next, Legal, After;
      var init, last := run[..|run| - 1], run[|run| - 1];
      assert run == init + [last];
      LastStep(w, norm, mode, init, last);
      CommandsDecide(w, norm, mode, init, address);
      OneMoreStep(init, last);
      StepDecides(w.store, Commands(init), After(w, norm, mode, init), norm, mode, last, address);
    }
  }

  /** What was read says something else about the address than the tables say now.
      `store` are the tables when the settings were read, `first` the commands between
      the two reads, `rest` those since the rules were read: the policy that was read
      misses both, the rule only the latter. */
  predicate ChangesVerdict(
    store: Store, norm: Norm, blacklist: seq<string>, first: seq<AdminCommand>, rest: seq<AdminCommand>, ip: string)
  {
    var address := norm(ip);
    var listed := StaticDenied(blacklist, norm, address);
    var rule := RuleAfter(RuleOf(store, address), first, norm, address);
    var policy := DefaultPolicy(store);
    Verdict(rule, policy, listed) !=
    Verdict(RuleAfter(rule, rest, norm, address), PolicyAfter(PolicyAfter(policy, first), rest), listed)
  }

  /** The settings were read and nothing after them. */
  predicate JustReadSettings(w: World) {
    w.settings == Some(DefaultPolicy(w.store)) && w.loading.None? && w.seen.None?
  }

  predicate Restarts(run: seq<Step>) {
    ReadSettings in run || ReadRules in run
  }

  lemma {:induction false} SettingsStayAside(w: World, norm: Norm, mode: AccessMode, run: seq<Step>)
    requires Legal(w, norm, mode, run) && w.loading.None? && !Restarts(run)
    ensures var w' := After(w, norm, mode, run);
            w'.settings == w.settings && w'.loading.None?
    decreases |run|
  {
    if run != [] {
      SettingsStayAside(Next(w, norm, mode, run[0]), norm, mode, run[1..]);
    }
  }

  lemma {:induction false} LoadedIsKept(w: World, norm: Norm, mode: AccessMode, run: seq<Step>, s: Snapshot)
    requires Legal(w, norm, mode, run) && !Restarts(run)
    requires w.loading == Some(s) || (w.loading.None? && w.cached == Some(s))
    ensures var w' := After(w, norm, mode, run);
            w'.loading == Some(s) || (w'.loading.None? && w'.cached == Some(s))
    ensures Keep in run || w.loading.None? ==> After(w, norm, mode, run).loading.None?
    decreases |run|
  {
    if run != [] {
      LoadedIsKept(Next(w, norm, mode, run[0]), norm, mode, run[1..], s);
    }
  }

  /** What is cached once the refresh has stored its snapshot. */
  lemma CachedIsWhatWasRead(
    w: World, norm: Norm, mode: AccessMode, first: seq<Step>, rest: seq<Step>)
    requires JustReadSettings(w) && Legal(w, norm, mode, first + ([ReadRules] + rest))
    requires !Restarts(first) && !Restarts(rest) && Keep in rest
    ensures Legal(w, norm, mode, first)
    ensures After(w, norm, mode, first + ([ReadRules] + rest)).cached ==
            Some(SnapshotFrom(DefaultPolicy(w.store), After(w, norm, mode, first).store.rules, mode))
  {
    hide SnapshotFrom, DefaultPolicy;
    LegalJoin(w, norm, mode, first, [ReadRules] + rest);
    SettingsStayAside(w, norm, mode, first);
    var w1 := After(w, norm, mode, first);
    assert ([ReadRules] + rest)[0] == ReadRules && ([ReadRules] + rest)[1..] == rest;
    LoadedIsKept(Next(w1, norm, mode, ReadRules), norm, mode, rest,
                 SnapshotFrom(DefaultPolicy(w.store), w1.store.rules, mode));
  }

  lemma DecidedInTwo(
    w: World, norm: Norm, mode: AccessMode, first: seq<Step>, rest: seq<Step>, address: Option<string>)
    requires Legal(w, norm, mode, first + ([ReadRules] + rest))
    ensures Legal(w, norm, mode, first)
    ensures var w1 := After(w, norm, mode, first);
            var now := After(w, norm, mode, first + ([ReadRules] + rest));
            Decided(w.store, Commands(first), w1.store, norm, address) &&
            Decided(w1.store, Commands(rest), now.store, norm, address)
  {
    hide Decided, Commands, SnapshotFrom;
    LegalJoin(w, norm, mode, first, [ReadRules] + rest);
    CommandsDecide(w, norm, mode, first, address);
    var w1 := After(w, norm, mode, first);
    assert ([ReadRules] + rest)[0] == ReadRules && ([ReadRules] + rest)[1..] == rest;
    CommandsDecide(Next(w1, norm, mode, ReadRules), norm, mode, rest, address);
  }

  /** From the first read of a refresh on, once its snapshot is stored and until the
      next refresh: the cache answers a text differently from the database exactly if
      the rules are dynamic and the verdict on its address from the policy of the first
      read and the rule of the second is not the verdict now. */
  lemma AnswersDifferIff(
    w: World, norm: Norm, mode: AccessMode, blacklist: seq<string>, first: seq<Step>, rest: seq<Step>, ip: string)
    requires JustReadSettings(w) && Legal(w, norm, mode, first + ([ReadRules] + rest))
    requires !Restarts(first) && !Restarts(rest) && Keep in rest
    ensures var now := After(w, norm, mode, first + ([ReadRules] + rest));
            IsIpAllowedCached(now.cached, norm, mode, blacklist, ip) !=
            IsIpAllowed(now.store, norm, mode, blacklist, ip)
            <==> mode == Dynamic && ChangesVerdict(w.store, norm, blacklist, Commands(first), Commands(rest), ip)
  {
    hide Legal, After, SnapshotFrom, Commands, RuleAfter, PolicyAfter, StaticDenied, Verdict, DefaultPolicy;
    CachedIsWhatWasRead(w, norm, mode, first, rest);
    DecidedInTwo(w, norm, mode, first, rest, norm(ip));
    var w1 := After(w, norm, mode, first);
    var now := After(w, norm, mode, first + ([ReadRules] + rest));
    SnapshotAnswers(DefaultPolicy(w.store), w1.store.rules, norm, mode, blacklist, ip);
    DatabaseAnswers(now.store, norm, mode, blacklist, ip);
  }

  lemma DatabaseAnswers(store: Store, norm: Norm, mode: AccessMode, blacklist: seq<string>, ip: string)
    ensures var listed := StaticDenied(blacklist, norm, norm(ip));
            IsIpAllowed(store, norm, mode, blacklist, ip) ==
            match mode
            case Off => true
            case Config => !listed
            case Dynamic => Verdict(RuleOf(store, norm(ip)), DefaultPolicy(store), listed)
  {
  }

  // ------------------------------------------------- when the watcher notices

  /** The watcher reloads when the marker differs from the token it last saw. */
  predicate WatcherWillReload(w: World) {
    Marker(w) != w.token
  }

  predicate Touched(run: seq<Step>) {
    Empty in run || Write in run
  }

  /** A marker that is whole after a touch has a content it never had before. */
  lemma {:induction false} TouchMovesMarker(w: World, norm: Norm, mode: AccessMode, run: seq<Step>)
    requires Legal(w, norm, mode, run)
    ensures var w' := After(w, norm, mode, run);
            w.writes <= w'.writes && (!Touched(run) ==> Marker(w') == Marker(w)) &&
            (Touched(run) && !w'.torn ==> w'.writes > w.writes)
    decreases |run|
  {
    if run != [] {
      hide SnapshotFrom, Commanded, CanCommit;
      TouchMovesMarker(Next(w, norm, mode, run[0]), norm, mode, run[1..]);
      assert Touched(run) <==> run[0] == Empty || run[0] == Write || Touched(run[1..]);
    }
  }

  lemma {:induction false} TokensStay(w: World, norm: Norm, mode: AccessMode, run: seq<Step>)
    requires Legal(w, norm, mode, run) && Keep !in run
    ensures After(w, norm, mode, run).token == w.token
    ensures !Restarts(run) && w.seen.Some? ==> After(w, norm, mode, run).seen == w.seen
    decreases |run|
  {
    if run != [] {
      hide SnapshotFrom, Commanded, CanCommit;
      TokensStay(Next(w, norm, mode, run[0]), norm, mode, run[1..]);
    }
  }

  /** After a refresh and until the next one is stored the watcher will reload exactly
      if the marker was touched after the refresh read its token, unless the file was
      empty when it was read and is empty again. */
  lemma WatcherWillReloadIff(w: World, norm: Norm, mode: AccessMode, mid: seq<Step>, rest: seq<Step>)
    requires Legal(w, norm, mode, [ReadToken] + mid + [Keep] + rest)
    requires !Restarts(mid) && Keep !in mid && Keep !in rest
    ensures var now := After(w, norm, mode, [ReadToken] + mid + [Keep] + rest);
            WatcherWillReload(now) <==> Touched(mid + rest) && !(w.torn && now.torn)
  {
    hide SnapshotFrom;
    LegalJoin(w, norm, mode, [ReadToken] + mid + [Keep], rest);
    LegalJoin(w, norm, mode, [ReadToken] + mid, [Keep]);
    LegalJoin(w, norm, mode, [ReadToken], mid);
    assert [ReadToken][1..] == [] && [Keep][1..] == [];
    var w1 := Next(w, norm, mode, ReadToken);
    var w2 := After(w1, norm, mode, mid);
    var w3 := Next(w2, norm, mode, Keep);
    TouchMovesMarker(w1, norm, mode, mid);
    TokensStay(w1, norm, mode, mid);
    TouchMovesMarker(w3, norm, mode, rest);
    TokensStay(w3, norm, mode, rest);
    assert Touched(mid + rest) <==> Touched(mid) || Touched(rest);
  }

  /** The commit hook touches the marker after every commit. */
  ghost predicate EveryCommitTouches(run: seq<Step>) {
    forall i :: 0 <= i < |run| && run[i].Commit? ==> Write in run[i..]
  }

  lemma UntouchedTailHasNoCommit(before: seq<Step>, tail: seq<Step>)
    requires EveryCommitTouches(before + tail) && !Touched(tail)
    ensures NoCommit(tail)
  {
    forall s | s in tail
      ensures !s.Commit?
    {
      var i :| 0 <= i < |tail| && tail[i] == s;
      var j := |before| + i;
      assert (before + tail)[j] == s && (before + tail)[j..] == tail[i..];
    }
  }

  lemma {:induction false} QuietTailAddsNoCommand(before: seq<Step>, tail: seq<Step>)
    requires NoCommit(tail)
    ensures Commands(before + tail) == Commands(before)
    decreases |tail|
  {
    if tail == [] {
      assert before + tail == before;
    } else {
      var n := |tail| - 1;
      assert (before + tail)[..|before| + n] == before + tail[..n] && tail[n] in tail;
      QuietTailAddsNoCommand(before, tail[..n]);
    }
  }

  /** When every commit touches the marker, and no touch is under way: the cache is
      wrong about a text and the watcher does not notice exactly if nothing was touched
      since the token was read and the commands that fell between the two reads, and
      between the second and the reading of the token, change the verdict. */
  lemma OverlookedIff(
    w: World, norm: Norm, mode: AccessMode, blacklist: seq<string>,
    first: seq<Step>, before: seq<Step>, mid: seq<Step>, rest: seq<Step>, ip: string)
    requires JustReadSettings(w)
    requires Legal(w, norm, mode, first + ([ReadRules] + (before + ([ReadToken] + mid + [Keep] + rest))))
    requires !Restarts(first + before + mid + rest) && Keep !in before + mid + rest
    requires EveryCommitTouches(before + ([ReadToken] + mid + [Keep] + rest))
    requires !After(w, norm, mode, first + ([ReadRules] + (before + ([ReadToken] + mid + [Keep] + rest)))).torn
    ensures var now := After(w, norm, mode, first + ([ReadRules] + (before + ([ReadToken] + mid + [Keep] + rest))));
            (!WatcherWillReload(now) && IsIpAllowedCached(now.cached, norm, mode, blacklist, ip) !=
                                        IsIpAllowed(now.store, norm, mode, blacklist, ip))
            <==> !Touched(mid + rest) && mode == Dynamic &&
                 ChangesVerdict(w.store, norm, blacklist, Commands(first), Commands(before), ip)
  {
    hide IsIpAllowedCached, IsIpAllowed, ChangesVerdict, WatcherWillReload, After, Legal, Commands, Next, CanStep;
    var tail := [ReadToken] + mid + [Keep] + rest;
    assert forall s :: s in tail <==> s == ReadToken || s in mid || s == Keep || s in rest;
    assert forall s :: s in first + before + mid + rest <==> s in first || s in before || s in mid || s in rest;
    AnswersDifferIff(w, norm, mode, blacklist, first, before + tail, ip);
    ReadyForToken(w, norm, mode, first, before, tail);
    var w1 := After(w, norm, mode, first + [ReadRules] + before);
    WatcherWillReloadIff(w1, norm, mode, mid, rest);
    if !Touched(mid + rest) {
      assert !Touched(tail);
      UntouchedTailHasNoCommit(before, tail);
      QuietTailAddsNoCommand(before, tail);
    }
  }

  lemma ReadyForToken(
    w: World, norm: Norm, mode: AccessMode, first: seq<Step>, before: seq<Step>, tail: seq<Step>)
    requires Legal(w, norm, mode, first + ([ReadRules] + (before + tail)))
    ensures Legal(w, norm, mode, first + [ReadRules] + before)
    ensures var w1 := After(w, norm, mode, first + [ReadRules] + before);
            Legal(w1, norm, mode, tail) &&
            After(w1, norm, mode, tail) == After(w, norm, mode, first + ([ReadRules] + (before + tail)))
  {
    hide CanStep, Next, Legal, After;
    assert first + ([ReadRules] + (before + tail)) == first + [ReadRules] + before + tail;
    LegalJoin(w, norm, mode, first + [ReadRules] + before, tail);
  }

  const FIRST_WORLD := World(Store(map[], Some(Allow)), 0, false, None, None, None, None, None)

  lemma Prepend(w: World, norm: Norm, mode: AccessMode, step: Step, run: seq<Step>, end: World)
    requires CanStep(w, norm, step) && Legal(Next(w, norm, mode, step), norm, mode, run)
    requires After(Next(w, norm, mode, step), norm, mode, run) == end
    ensures Legal(w, norm, mode, [step] + run) && After(w, norm, mode, [step] + run) == end
  {
    assert ([step] + run)[0] == step && ([step] + run)[1..] == run;
  }

  /** Such runs exist. A rule committed after the rules were read and before the token
      was is missed by the snapshot and taken as seen. */
  lemma OverlappedRefreshStaysStale(norm: Norm, ip: string)
    requires norm(ip) == Some(ip)
    ensures var w := FIRST_WORLD;
            var run := [ReadSettings, ReadRules, Commit(SetRule(ip, Deny)), Empty, Write, ReadToken, Keep];
            Legal(w, norm, Dynamic, run) && !WatcherWillReload(After(w, norm, Dynamic, run)) &&
            IsIpAllowedCached(After(w, norm, Dynamic, run).cached, norm, Dynamic, [], ip) &&
            !IsIpAllowed(After(w, norm, Dynamic, run).store, norm, Dynamic, [], ip)
  {
    var w1 := Next(FIRST_WORLD, norm, Dynamic, ReadSettings);
    var w2 := Next(w1, norm, Dynamic, ReadRules);
    var w3 := Next(w2, norm, Dynamic, Commit(SetRule(ip, Deny)));
    var w5 := Next(Next(w3, norm, Dynamic, Empty), norm, Dynamic, Write);
    var w7 := Next(Next(w5, norm, Dynamic, ReadToken), norm, Dynamic, Keep);
    TouchReadAndKeep(w3, norm, w7);
    Prepend(w2, norm, Dynamic, Commit(SetRule(ip, Deny)), [Empty, Write, ReadToken, Keep], w7);
    Prepend(w1, norm, Dynamic, ReadRules, [Commit(SetRule(ip, Deny)), Empty, Write, ReadToken, Keep], w7);
    Prepend(FIRST_WORLD, norm, Dynamic, ReadSettings,
            [ReadRules, Commit(SetRule(ip, Deny)), Empty, Write, ReadToken, Keep], w7);
    assert [ReadSettings, ReadRules, Commit(SetRule(ip, Deny)), Empty, Write, ReadToken, Keep] ==
           [ReadSettings] + [ReadRules, Commit(SetRule(ip, Deny)), Empty, Write, ReadToken, Keep];
  }

  function BefriendedWorld(friend: string): World {
    var rules := map[friend := Allow];
    World(Store(rules, Some(Deny)), 1, false, None, None, None, Some(SnapshotFrom(Allow, rules, Dynamic)), Some(1))
  }

  function PolicyBetweenReads(friend: string): seq<Step> {
    [Commit(SetRule(friend, Allow)), ReadSettings, Commit(SetPolicy(Deny)), ReadRules, Empty, Write, ReadToken, Keep]
  }

  lemma PolicyBetweenReadsRun(norm: Norm, friend: string)
    requires norm(friend) == Some(friend)
    ensures Legal(FIRST_WORLD, norm, Dynamic, PolicyBetweenReads(friend))
    ensures After(FIRST_WORLD, norm, Dynamic, PolicyBetweenReads(friend)) == BefriendedWorld(friend)
  {
    hide SnapshotFrom;
    var befriend, refuse := Commit(SetRule(friend, Allow)), Commit(SetPolicy(Deny));
    var w1 := Next(FIRST_WORLD, norm, Dynamic, befriend);
    var w2 := Next(w1, norm, Dynamic, ReadSettings);
    var w3 := Next(w2, norm, Dynamic, refuse);
    var w4 := Next(w3, norm, Dynamic, ReadRules);
    TouchReadAndKeep(w4, norm, BefriendedWorld(friend));
    Prepend(w3, norm, Dynamic, ReadRules, [Empty, Write, ReadToken, Keep], BefriendedWorld(friend));
    Prepend(w2, norm, Dynamic, refuse, [ReadRules, Empty, Write, ReadToken, Keep], BefriendedWorld(friend));
    Prepend(w1, norm, Dynamic, ReadSettings, [refuse, ReadRules, Empty, Write, ReadToken, Keep],
            BefriendedWorld(friend));
    Prepend(FIRST_WORLD, norm, Dynamic, befriend,
            [ReadSettings, refuse, ReadRules, Empty, Write, ReadToken, Keep], BefriendedWorld(friend));
    assert PolicyBetweenReads(friend) ==
           [befriend] + [ReadSettings, refuse, ReadRules, Empty, Write, ReadToken, Keep];
  }

  /** A policy committed between the two reads is missed and taken as seen. */
  lemma PolicyBetweenReadsIsOverlooked(norm: Norm, friend: string, ip: string)
    requires norm(friend) == Some(friend) && norm(ip) == Some(ip) && ip != friend
    ensures Legal(FIRST_WORLD, norm, Dynamic, PolicyBetweenReads(friend))
    ensures var w := After(FIRST_WORLD, norm, Dynamic, PolicyBetweenReads(friend));
            !WatcherWillReload(w) && IsIpAllowedCached(w.cached, norm, Dynamic, [], ip) &&
            !IsIpAllowed(w.store, norm, Dynamic, [], ip)
  {
    hide Legal, After;
    PolicyBetweenReadsRun(norm, friend);
    SnapshotAnswers(Allow, map[friend := Allow], norm, Dynamic, [], ip);
  }

  /** Of what is committed between the two reads only the policy is missed, and it
      matters only for an address without a rule. */
  lemma BetweenReadsOnlyThePolicyIsMissed(
    store: Store, norm: Norm, blacklist: seq<string>, first: seq<AdminCommand>, ip: string)
    ensures var address := norm(ip);
            ChangesVerdict(store, norm, blacklist, first, [], ip) <==>
            RuleAfter(RuleOf(store, address), first, norm, address).None? &&
            !StaticDenied(blacklist, norm, address) && PolicyAfter(DefaultPolicy(store), first) != DefaultPolicy(store)
  {
    var rule := RuleAfter(RuleOf(store, norm(ip)), first, norm, norm(ip));
    assert RuleAfter(rule, [], norm, norm(ip)) == rule;
  }

  lemma TouchReadAndKeep(w: World, norm: Norm, end: World)
    requires w.loading.Some? && w.seen.None?
    requires end == w.(writes := w.writes + 1, torn := false, cached := w.loading, token := Some(w.writes + 1),
                       loading := None)
    ensures Legal(w, norm, Dynamic, [Empty, Write, ReadToken, Keep])
    ensures After(w, norm, Dynamic, [Empty, Write, ReadToken, Keep]) == end
  {
    var w1 := Next(w, norm, Dynamic, Empty);
    var w2 := Next(w1, norm, Dynamic, Write);
    var w3 := Next(w2, norm, Dynamic, ReadToken);
    Prepend(w3, norm, Dynamic, Keep, [], end);
    Prepend(w2, norm, Dynamic, ReadToken, [Keep], end);
    Prepend(w1, norm, Dynamic, Write, [ReadToken, Keep], end);
    Prepend(w, norm, Dynamic, Empty, [Write, ReadToken, Keep], end);
    assert [Empty, Write, ReadToken, Keep] == [Empty] + [Write, ReadToken, Keep];
  }
}
