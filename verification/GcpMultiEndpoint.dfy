/**
 gcp_multiendpoint.go: named MultiEndpoints over a shared set of connection pools, reconfigured in
 phases while pickConn reads the maps without taking the lock.
 */
module GcpMultiEndpoints {
  import opened Options
  import opened FailoverSpec
  import opened FailoverProofs
  import opened FailoverTheorems
  import opened MultiEndpoints

  // ----- one MultiEndpoint as its owner sees it

  /** What FailoverProofs and FailoverTheorems show every reachable MultiEndpoint to satisfy. */
  ghost predicate Healthy(me: MultiEndpoint)
    reads me, me.objs
  {
    && me.Valid() && Inv(me.View()) && NotStuck(me.View())
    && (me.switchingDelay == 0 ==> BestChoice(me.View()))
  }

  ghost function AvailableOf<E>(s: State<E>): set<string>
    requires s.Linked()
  {
    set k | k in s.endpoints && s.IsAvailable(k)
  }

  /** The listed endpoints with their priorities. */
  ghost function RanksOf<E>(s: State<E>): map<string, nat>
    requires s.Linked()
  {
    map k | k in s.endpoints :: s.At(k).priority
  }

  /** The priorities a list asks for: the last position of each name. */
  ghost function Ranks(list: seq<string>): map<string, nat> {
    map k | k in list :: LastIndex(list, k)
  }

  /**
   What a reader can learn about one MultiEndpoint, including the list it was last given. It is patient if its recovery
   timeout is not negative, so that late callbacks spare its available endpoints.
   */
  datatype MeSnapshot = MeSnapshot(ranks: map<string, nat>, available: set<string>, current: string, patient: bool)

  ghost function SnapshotOf<E>(s: State<E>): MeSnapshot
    requires s.Linked()
  {
    MeSnapshot(RanksOf(s), AvailableOf(s), s.current, s.recoveryTimeout >= 0)
  }

  ghost function Look(me: MultiEndpoint): MeSnapshot
    reads me, me.objs
    requires me.Valid()
  {
    SnapshotOf(me.View())
  }

  lemma UpdateIsHealthy<E>(m: State<E>)
    requires MidInv(m) && m.DistinctPriorities() && m.endpoints != map[]
    ensures var r := MaybeUpdateCurrent(m);
      && Inv(r) && NotStuck(r) && r.endpoints == m.endpoints && r.objs == m.objs
      && r.switchingDelay == m.switchingDelay && r.now == m.now
      && RanksOf(r) == RanksOf(m) && AvailableOf(r) == AvailableOf(m)
      && (r.switchingDelay == 0 ==> BestChoice(r))
  {
    MaybeUpdateCurrentKeeps(m);
    MaybeUpdateCurrentShape(m);
    UpdateUnsticks(m);
    UpdateKeepsEndpoints(m);
    if m.switchingDelay == 0 {
      UpdatePicksBest(m);
    }
  }

  lemma LaterIsSame<E>(s: State<E>, at: int)
    requires s.Linked()
    ensures Tick(s, at).Linked() && SnapshotOf(Tick(s, at)) == SnapshotOf(s)
    ensures forall k :: s.IsAvailable(k) <==> Tick(s, at).IsAvailable(k)
    ensures forall k, a :: s.IsTop(k, a) <==> Tick(s, at).IsTop(k, a)
  {
    assert forall k | k in s.endpoints :: Tick(s, at).At(k) == s.At(k);
  }

  lemma LaterIsHealthy<E>(s: State<E>, at: int)
    requires Inv(s) && NotStuck(s) && s.now <= at
    ensures Inv(Tick(s, at)) && NotStuck(Tick(s, at)) && Tick(s, at).DistinctPriorities()
    ensures BestChoice(s) ==> BestChoice(Tick(s, at))
    ensures SnapshotOf(Tick(s, at)) == SnapshotOf(s)
  {
    TickKeeps(s, at);
    LaterIsSame(s, at);
    hide Timed, Handles, State.IsAvailable, State.IsTop;
  }

  lemma CreatedIsHealthy<E>(run: Run<E>)
    requires run.Legal() && run.steps == []
    ensures var s := run.Final();
      && Inv(s) && NotStuck(s) && BestChoice(s) && s.now == run.start
      && SnapshotOf(s) == MeSnapshot(Ranks(run.list), {}, run.list[0], run.recoveryTimeout >= 0)
  {
    RunKeeps(run);
    InitialState(run);
    var s0: State<E> := State(run.recoveryTimeout, run.switchingDelay, map[], map[], run.list[0], "", map[], 0,
                              run.start);
    CreateAllCreates(s0, run.list, run.news);
    assert run.list[..|run.news|] == run.list;
    assert RanksOf(run.Final()) == Ranks(run.list);
  }

  /** me is healthy and looks like x, which is all its owner has to know. */
  ghost predicate MeOk(me: MultiEndpoint, x: MeSnapshot, now: int)
    reads me, me.objs
  {
    Healthy(me) && Look(me) == x && me.now <= now
  }

  ghost predicate Owned(me: MultiEndpoint)
    reads me
  {
    forall o | o in me.objs :: o.owner == me
  }

  /** Time passes before the next call of me. */
  method Wait(me: MultiEndpoint, now: int)
    requires me.Valid()
    modifies me`now
    ensures me.Valid() && me.View() == Tick(old(me.View()), now)
  {
    me.now := now;
  }

  method NewMe(list: seq<string>, recoveryTimeout: int, switchingDelay: int, at: int)
    returns (me: Option<MultiEndpoint>)
    requires at > 0
    ensures me.None? <==> list == []
    ensures me.Some? ==> fresh(me.value) && fresh(me.value.objs) && Owned(me.value)
    ensures me.Some? ==> MeOk(me.value, MeSnapshot(Ranks(list), {}, list[0], recoveryTimeout >= 0), at)
    ensures me.Some? ==> me.value.recoveryTimeout == recoveryTimeout && me.value.switchingDelay == switchingDelay
  {
    ghost var news;
    me, news := MultiEndpoint.NewMultiEndpoint(list, recoveryTimeout, switchingDelay, at);
    if me.Some? {
      ghost var run := Run(recoveryTimeout, switchingDelay, list, news, at, []);
      CreatedIsHealthy(run);
      RunKeeps(run);
      assert me.value.View() == run.Final();
    }
  }

  lemma RelistedRanks<E>(s: State<E>, list: seq<string>, m: State<E>)
    requires s.Linked() && m.Linked() && Relisted(s, list, m) && s.endpoints.Keys <= (set k | k in list)
    ensures RanksOf(m) == Ranks(list) && SameSettings(s, m)
  {
  }

  lemma RelistedIsHealthy<E>(s: State<E>, list: seq<string>, news: seq<E>)
    requires Inv(s) && list != [] && |news| == |list| && CanAddAll(RemoveObsolete(s, list), list, news)
    ensures var r := FailoverSpec.SetEndpoints(s, list, news);
      && Inv(r) && NotStuck(r) && r.now == s.now && (s.switchingDelay == 0 ==> BestChoice(r))
      && RanksOf(r) == Ranks(list)
  {
    hide Handles, Timed, BestChoice, NotStuck, MaybeUpdateCurrent, Relisted, AddAll;
    var m := AddAll(RemoveObsolete(s, list), list, news);
    RelistKeeps(s, list, news);
    UpdateIsHealthy(m);
    RelistedRanks(RemoveObsolete(s, list), list, m);
  }

  method Relist(me: MultiEndpoint, list: seq<string>, now: int, ghost x: MeSnapshot) returns (ghost y: MeSnapshot)
    requires MeOk(me, x, now)
    modifies me, me.objs
    ensures MeOk(me, y, now) && old(me.objs) <= me.objs && fresh(me.objs - old(me.objs)) && Owned(me)
    ensures y.current in y.ranks
    ensures if list == [] then y == x else y.ranks == Ranks(list)
  {
    hide Inv, NotStuck, BestChoice, RanksOf, AvailableOf;
    ghost var s := me.View();
    LaterIsHealthy(s, now);
    Wait(me, now);
    var ok, news := me.SetEndpoints(list);
    if list != [] {
      RelistedIsHealthy(Tick(s, now), list, news);
    }
    y := Look(me);
    IsOk(me, now);
  }

  lemma Patience(me: MultiEndpoint)
    requires me.Valid()
    ensures Look(me).patient <==> me.recoveryTimeout >= 0
  {
  }

  lemma IsLinked(me: MultiEndpoint, x: MeSnapshot, now: int)
    requires MeOk(me, x, now)
    ensures me.View().Linked()
  {
    hide Inv, NotStuck, BestChoice;
  }

  lemma PatienceIsSeen(me: MultiEndpoint, x: MeSnapshot, now: int)
    requires MeOk(me, x, now)
    ensures x.patient <==> me.recoveryTimeout >= 0
  {
  }

  lemma IsOk(me: MultiEndpoint, now: int)
    requires me.Valid() && Inv(me.View()) && NotStuck(me.View()) && me.View().now <= now
    requires me.View().switchingDelay == 0 ==> BestChoice(me.View())
    ensures MeOk(me, Look(me), now) && Look(me).current in Look(me).ranks
  {
    hide Handles, Timed, NotStuck, BestChoice, me.Valid;
  }

  /** What a report on one endpoint does to the set of available ones. */
  ghost function Marked(available: set<string>, listed: set<string>, e: string, ready: bool): set<string> {
    if ready then available + {e} * listed else available - {e}
  }

  lemma MarkTouchesOne<E>(s: State<E>, e: string, ready: bool)
    requires s.Linked()
    ensures var m := SetEndpointAvailability(s, e, ready);
      && m.Linked() && m.endpoints == s.endpoints
      && (forall k | k in s.endpoints && k != e :: m.At(k) == s.At(k))
      && (e in s.endpoints ==> m.At(e).priority == s.At(e).priority && (m.At(e).status == Available <==> ready))
  {
    if e in s.endpoints {
      assert forall k | k in s.endpoints && k != e :: s.endpoints[k] != s.endpoints[e];
    }
  }

  lemma MarkRanks<E>(s: State<E>, e: string, ready: bool)
    requires s.Linked()
    ensures var m := SetEndpointAvailability(s, e, ready);
      && m.Linked() && RanksOf(m) == RanksOf(s)
      && AvailableOf(m) == Marked(AvailableOf(s), s.endpoints.Keys, e, ready)
  {
    hide SetEndpointAvailability;
    MarkTouchesOne(s, e, ready);
  }

  lemma ReportMarks<E>(s: State<E>, e: string, ready: bool)
    requires Inv(s)
    ensures var r := MaybeUpdateCurrent(SetEndpointAvailability(s, e, ready));
      && Inv(r) && NotStuck(r) && r.now == s.now && (s.switchingDelay == 0 ==> BestChoice(r))
      && RanksOf(r) == RanksOf(s)
      && AvailableOf(r) == Marked(AvailableOf(s), s.endpoints.Keys, e, ready)
  {
    hide Handles, Timed, BestChoice, NotStuck, MaybeUpdateCurrent, RanksOf, AvailableOf;
    MarkKeeps(s, e, ready);
    MarkRanks(s, e, ready);
    UpdateIsHealthy(SetEndpointAvailability(s, e, ready));
  }

  lemma ReportLooks<E>(s: State<E>, e: string, ready: bool)
    requires Inv(s)
    ensures var r := MaybeUpdateCurrent(SetEndpointAvailability(s, e, ready));
      && Inv(r) && NotStuck(r) && r.now == s.now && (s.switchingDelay == 0 ==> BestChoice(r))
      && SnapshotOf(r).ranks == SnapshotOf(s).ranks
      && SnapshotOf(r).available == Marked(SnapshotOf(s).available, SnapshotOf(s).ranks.Keys, e, ready)
  {
    ReportMarks(s, e, ready);
    assert RanksOf(s).Keys == s.endpoints.Keys;
    hide Inv, NotStuck, BestChoice, MaybeUpdateCurrent, SetEndpointAvailability, Marked, AvailableOf;
  }

  method Report(me: MultiEndpoint, e: string, ready: bool, now: int, ghost x: MeSnapshot) returns (ghost y: MeSnapshot)
    requires MeOk(me, x, now)
    modifies me, me.objs
    ensures MeOk(me, y, now) && me.objs == old(me.objs)
    ensures y.current in y.ranks
    ensures y.ranks == x.ranks && y.patient == x.patient
    ensures y.available == Marked(x.available, x.ranks.Keys, e, ready)
  {
    ghost var s := me.View();
    hide Inv, NotStuck, BestChoice, SetEndpointAvailability, MaybeUpdateCurrent, SnapshotOf, Marked;
    LaterIsHealthy(s, now);
    Wait(me, now);
    ReportLooks(Tick(s, now), e, ready);
    Patience(me);
    me.SetEndpointAvailability(e, ready);
    y := Look(me);
    Patience(me);
    IsOk(me, now);
  }

  /** A timer of a MultiEndpoint, its goroutine or its callback. */
  lemma TimerKeepsRanks<E>(s: State<E>, step: Step<E>)
    requires Inv(s) && Enabled(s, step) && (step.action.DoFire? || step.action.DoRun?)
    ensures var r := Apply(s, step);
      && r.Linked() && RanksOf(r) == RanksOf(s) && r.now == step.at
  {
    hide Timed, Handles, MaybeUpdateCurrent;
    var s1 := Tick(s, step.at);
    if step.action.DoRun? && s.timers[step.action.t].action.MarkUnavailable? {
      var e := s.timers[step.action.t].action.e;
      var m := SetState(s1.(timers := s1.timers - {step.action.t}), e, Unavailable);
      MaybeUpdateCurrentShape(m);
      UpdateKeepsEndpoints(m);
    }
  }

  /** Unless the recovery timeout is negative, a callback marks only endpoints that are recovering. */
  lemma TimerSparesAvailable<E>(s: State<E>, step: Step<E>)
    requires Inv(s) && Enabled(s, step) && (step.action.DoFire? || step.action.DoRun?) && s.recoveryTimeout >= 0
    ensures Apply(s, step).Linked() && AvailableOf(Apply(s, step)) == AvailableOf(s)
  {
    var s1 := Tick(s, step.at);
    if step.action.DoRun? {
      var t := step.action.t;
      assert TimerTimed(s, t);
      if s.timers[t].action.MarkUnavailable? {
        var m := SetState(s1.(timers := s1.timers - {t}), s.timers[t].action.e, Unavailable);
        MaybeUpdateCurrentShape(m);
        UpdateKeepsEndpoints(m);
      }
    }
    hide Timed, Handles, MaybeUpdateCurrent;
  }

  lemma TimerIsHealthy<E>(s: State<E>, step: Step<E>)
    requires Inv(s) && NotStuck(s) && (s.switchingDelay == 0 ==> BestChoice(s))
    requires Enabled(s, step) && (step.action.DoFire? || step.action.DoRun?)
    ensures var r := Apply(s, step);
      && Inv(r) && NotStuck(r) && r.switchingDelay == s.switchingDelay && (r.switchingDelay == 0 ==> BestChoice(r))
      && RanksOf(r) == RanksOf(s) && (s.recoveryTimeout >= 0 ==> AvailableOf(r) == AvailableOf(s)) && r.now == step.at
  {
    if s.recoveryTimeout >= 0 {
      TimerSparesAvailable(s, step);
    }
    StepNotStuck(s, step);
    StepKeeps(s, step);
    TimerKeepsRanks(s, step);
    if s.switchingDelay == 0 {
      StepKeepsBest(s, step);
    }
  }

  /** Timers may have moved current; the list is the same, and so are the available endpoints of a patient one. */
  predicate Spared(x: MeSnapshot, y: MeSnapshot) {
    y.ranks == x.ranks && y.patient == x.patient && (x.patient ==> y.available == x.available)
  }

  method FireTimer(me: MultiEndpoint, t: nat, now: int, ghost x: MeSnapshot) returns (ghost y: MeSnapshot)
    requires MeOk(me, x, now) && t in me.timers && !me.timers[t].fired && me.timers[t].due <= now
    modifies me, me.objs
    ensures MeOk(me, y, now) && me.objs == old(me.objs)
    ensures y.current in y.ranks && Spared(x, y)
    ensures me.View() == FailoverSpec.Fire(Tick(old(me.View()), now), t)
  {
    hide Inv, NotStuck, BestChoice, RanksOf, AvailableOf;
    ghost var s := me.View();
    LaterIsHealthy(s, now);
    TimerIsHealthy(s, Step(DoFire(t), now));
    Wait(me, now);
    Patience(me);
    me.Fire(t);
    y := Look(me);
    Patience(me);
    IsOk(me, now);
  }

  method RunTimer(me: MultiEndpoint, t: nat, now: int, ghost x: MeSnapshot) returns (ghost y: MeSnapshot)
    requires MeOk(me, x, now) && t in me.timers && me.timers[t].fired
    modifies me, me.objs
    ensures MeOk(me, y, now) && me.objs == old(me.objs)
    ensures y.current in y.ranks && Spared(x, y)
    ensures me.View() == FailoverSpec.RunCallback(Tick(old(me.View()), now), t)
  {
    hide Inv, NotStuck, BestChoice, RanksOf, AvailableOf;
    ghost var s := me.View();
    LaterIsHealthy(s, now);
    TimerIsHealthy(s, Step(DoRun(t), now));
    Wait(me, now);
    Patience(me);
    me.RunCallback(t);
    y := Look(me);
    Patience(me);
    IsOk(me, now);
  }

  /** Without delays the current endpoint is an available one that no available one precedes, if there is any. */
  lemma BestIsAvailable(me: MultiEndpoint, x: MeSnapshot, now: int, k: string)
    requires MeOk(me, x, now) && me.switchingDelay == 0 && me.recoveryTimeout == 0 && k in x.available && k in x.ranks
    ensures x.current in x.ranks && x.current in x.available && x.ranks[x.current] <= x.ranks[k]
  {
    var s := me.View();
    TopExists(s, k, true);
    assert ObjectTimed(s, s.endpoints[s.current]);
  }

  /**
   A timer of a MultiEndpoint goes on, some time after what came before: its goroutine starts, or its callback runs.
   */
  datatype Timing = Timing(after: nat, name: string, timer: nat)

  datatype Phase = Dialing | Updating | Renaming | DroppingMes | Closing | Reporting(e: string)

  /** The timers that go on before each store of an update. */
  type Schedule = (Phase, string) -> seq<Timing>

  // ----- what a lock-free reader can see, and what pickConn makes of it

  datatype Snapshot = Snapshot(
    defaultName: string, mes: map<string, MeSnapshot>, pools: map<string, nat>, open: set<nat>)
  {
    /** gcp_multiendpoint.go:138-145; None stands for the nil dereference. */
    function PickConn(name: Option<string>): Option<nat> {
      var n := if name.Some? && name.value in mes then name.value else defaultName;
      if n in mes && mes[n].current in pools then Some(pools[mes[n].current]) else None
    }

    ghost predicate Pooled(e: string) {
      e in pools && pools[e] in open
    }

    /** Whatever endpoint a MultiEndpoint moves to, there is an open pool for it. */
    ghost predicate Safe() {
      && defaultName in mes
      && forall n | n in mes :: mes[n].current in mes[n].ranks && forall e | e in mes[n].ranks :: Pooled(e)
    }
  }

  /** One store: the default name, one map entry, or the opening or closing of one connection. */
  ghost predicate OneChange(a: Snapshot, b: Snapshot) {
    || b == a.(defaultName := b.defaultName)
    || (exists n :: ChangesMe(a, b, n))
    || (exists e :: ChangesPool(a, b, e))
    || (exists c :: ChangesConn(a, b, c))
  }

  ghost predicate ChangesMe(a: Snapshot, b: Snapshot, n: string) {
    b == a.(mes := b.mes) && b.mes - {n} == a.mes - {n}
  }

  ghost predicate ChangesPool(a: Snapshot, b: Snapshot, e: string) {
    b == a.(pools := b.pools) && b.pools - {e} == a.pools - {e}
  }

  ghost predicate ChangesConn(a: Snapshot, b: Snapshot, c: nat) {
    b == a.(open := b.open) && b.open - {c} == a.open - {c}
  }

  /**
   What a history promises: whether all its states are safe, and which endpoints keep their pools once they have one.
   */
  datatype Pledge = Pledge(safe: bool, kept: set<string>)

  /** The states readers saw, store by store. */
  ghost predicate Story(h: seq<Snapshot>, pledge: Pledge, last: Snapshot) {
    && |h| > 0 && h[|h| - 1] == last
    && (pledge.safe ==> AllSafe(h))
    && Stepwise(h) && KeptThroughout(h, pledge.kept)
  }

  ghost predicate AllSafe(h: seq<Snapshot>) {
    forall i | 0 <= i < |h| :: h[i].Safe()
  }

  ghost predicate Stepwise(h: seq<Snapshot>) {
    forall i | 0 <= i < |h| - 1 :: OneChange(h[i], h[i + 1])
  }

  ghost predicate Keeps(a: Snapshot, b: Snapshot, kept: set<string>) {
    forall e | e in kept && a.Pooled(e) :: b.Pooled(e) && b.pools[e] == a.pools[e]
  }

  ghost predicate KeptThroughout(h: seq<Snapshot>, kept: set<string>) {
    forall i | 0 <= i < |h| - 1 :: Keeps(h[i], h[i + 1], kept)
  }

  lemma Continue(h: seq<Snapshot>, pledge: Pledge, a: Snapshot, b: Snapshot)
    requires Story(h, pledge, a) && OneChange(a, b) && Keeps(a, b, pledge.kept) && (pledge.safe ==> b.Safe())
    ensures Story(h + [b], pledge, b)
  {
  }

  lemma ContinueDial(h: seq<Snapshot>, pledge: Pledge, a: Snapshot, e: string, conn: nat)
    requires Story(h, pledge, a) && e !in a.pools
    ensures var b := a.(open := a.open + {conn});
      Story(h + [b] + [b.(pools := b.pools[e := conn])], pledge, b.(pools := b.pools[e := conn]))
  {
    var b := a.(open := a.open + {conn});
    var c := b.(pools := b.pools[e := conn]);
    assert ChangesConn(a, b, conn) && ChangesPool(b, c, e);
    if pledge.safe {
      forall n, x | n in a.mes && x in a.mes[n].ranks ensures b.Pooled(x) && c.Pooled(x) { assert a.Pooled(x); }
    }
    Continue(h, pledge, a, b);
    Continue(h + [b], pledge, b, c);
  }

  lemma StartStory(a: Snapshot, pledge: Pledge)
    requires pledge.safe ==> a.Safe()
    ensures Story([a], pledge, a)
  {
  }

  lemma LastIsSafe(h: seq<Snapshot>, pledge: Pledge, last: Snapshot)
    requires Story(h, pledge, last) && pledge.safe
    ensures last.Safe()
  {
  }

  /** One MultiEndpoint is added or changes, and stays within the pools. */
  lemma ContinueMe(h: seq<Snapshot>, pledge: Pledge, a: Snapshot, n: string, x: MeSnapshot)
    requires Story(h, pledge, a) && x.current in x.ranks
    requires pledge.safe ==> forall e | e in x.ranks :: a.Pooled(e)
    ensures var b := a.(mes := a.mes[n := x]); Story(h + [b], pledge, b)
  {
    var b := a.(mes := a.mes[n := x]);
    assert ChangesMe(a, b, n);
    assert forall e :: a.Pooled(e) <==> b.Pooled(e);
    Continue(h, pledge, a, b);
  }

  lemma ContinueDropMe(h: seq<Snapshot>, pledge: Pledge, a: Snapshot, n: string)
    requires Story(h, pledge, a) && (pledge.safe ==> n != a.defaultName)
    ensures var b := a.(mes := a.mes - {n}); Story(h + [b], pledge, b)
  {
    var b := a.(mes := a.mes - {n});
    assert ChangesMe(a, b, n);
    assert forall e :: a.Pooled(e) <==> b.Pooled(e);
    Continue(h, pledge, a, b);
  }

  lemma ContinueDefault(h: seq<Snapshot>, pledge: Pledge, a: Snapshot, defaultName: string)
    requires Story(h, pledge, a) && defaultName in a.mes
    ensures var b := a.(defaultName := defaultName); Story(h + [b], pledge, b)
  {
    var b := a.(defaultName := defaultName);
    assert forall e :: a.Pooled(e) <==> b.Pooled(e);
    Continue(h, pledge, a, b);
  }

  /** A pool no MultiEndpoint needs is closed and dropped; no other pool shares its connection. */
  lemma ContinueClose(h: seq<Snapshot>, pledge: Pledge, a: Snapshot, e: string)
    requires Story(h, pledge, a) && e in a.pools
    requires e !in pledge.kept && forall d | d in a.pools && d != e :: a.pools[d] != a.pools[e]
    requires pledge.safe ==> forall n | n in a.mes :: e !in a.mes[n].ranks
    ensures var b := a.(open := a.open - {a.pools[e]});
      Story(h + [b] + [b.(pools := b.pools - {e})], pledge, b.(pools := b.pools - {e}))
  {
    var b := a.(open := a.open - {a.pools[e]});
    var c := b.(pools := b.pools - {e});
    assert ChangesConn(a, b, a.pools[e]) && ChangesPool(b, c, e);
    if pledge.safe {
      forall n, x | n in a.mes && x in a.mes[n].ranks ensures b.Pooled(x) && c.Pooled(x) { assert a.Pooled(x); }
    }
    Continue(h, pledge, a, b);
    Continue(h + [b], pledge, b, c);
  }

  /** gcp_multiendpoint.go:138-145: under Safe, every context name resolves to an open connection. */
  lemma SafeResolves(h: Snapshot, name: Option<string>)
    requires h.Safe()
    ensures h.PickConn(name).Some? && h.PickConn(name).value in h.open
    ensures name.Some? && name.value in h.mes ==> h.PickConn(name) == Some(h.pools[h.mes[name.value].current])
    ensures name.None? || name.value !in h.mes ==> h.PickConn(name) == Some(h.pools[h.mes[h.defaultName].current])
  {
    assert forall m | m in h.mes :: h.Pooled(h.mes[m].current);
    var n := if name.Some? && name.value in h.mes then name.value else h.defaultName;
    assert h.Pooled(h.mes[n].current);
  }

  /** Endpoints in `kept` keep their connections from any store to any later one. */
  lemma {:induction false} KeptLater(h: seq<Snapshot>, kept: set<string>, i: nat, j: nat, e: string)
    requires KeptThroughout(h, kept) && i <= j < |h| && e in kept && h[i].Pooled(e)
    ensures h[j].Pooled(e) && h[j].pools[e] == h[i].pools[e]
    decreases j
  {
    if i < j {
      KeptLater(h, kept, i, j - 1, e);
      assert Keeps(h[j - 1], h[j], kept);
    }
  }

  // ----- configuration

  datatype MeOptions = MeOptions(endpoints: seq<string>, recoveryTimeout: int, switchingDelay: int)

  datatype UpdateError = MissingDefault | DialFailed(endpoint: string) | EmptyEndpoints(name: string)

  ghost function Wanted(opts: map<string, MeOptions>): set<string> {
    set n, e | n in opts && e in opts[n].endpoints :: e
  }

  /** An empty list given for an existing name is rejected silently, so its old endpoints must be wanted anyway. */
  ghost predicate Covered(opts: map<string, MeOptions>, mes: map<string, MeSnapshot>) {
    forall n | n in opts && n in mes && opts[n].endpoints == [] :: mes[n].ranks.Keys <= Wanted(opts)
  }

  lemma NothingToCover(opts: map<string, MeOptions>)
    ensures Covered(opts, map[])
  {
  }

  /**
   pickConn reads the current endpoint and the pools at different moments. During a successful update, a current
   endpoint that was read at store j resolves to its open connection at every later store exactly if the update wants
   it; otherwise its pool is dropped before the end.
   */
  lemma SplitReadsResolveIff(h: seq<Snapshot>, opts: map<string, MeOptions>, j: nat, n: string)
    requires |h| > 0 && Story(h, Pledge(true, Wanted(opts)), h[|h| - 1]) && h[|h| - 1].pools.Keys == Wanted(opts)
    requires j < |h| && n in h[j].mes
    ensures var c := h[j].mes[n].current;
      && h[j].Pooled(c)
      && ((forall k | j <= k < |h| :: h[k].Pooled(c) && h[k].pools[c] == h[j].pools[c]) <==> c in Wanted(opts))
  {
    var c := h[j].mes[n].current;
    assert h[j].Safe();
    assert h[j].Pooled(c);
    if c in Wanted(opts) {
      forall k | j <= k < |h| ensures h[k].Pooled(c) && h[k].pools[c] == h[j].pools[c] {
        KeptLater(h, Wanted(opts), j, k, c);
      }
    } else {
      assert !h[|h| - 1].Pooled(c);
    }
  }

  ghost predicate Match(pools: map<string, nat>, open: set<nat>, dials: nat, closes: nat) {
    && open == pools.Values
    && (forall c | c in open :: c < dials)
    && (forall d, e | d in pools && e in pools && d != e :: pools[d] != pools[e])
    && |pools| + closes == dials
  }

  lemma DialKeepsMatch(pools: map<string, nat>, open: set<nat>, dials: nat, closes: nat, e: string)
    requires Match(pools, open, dials, closes) && e !in pools
    ensures Match(pools[e := dials], open + {dials}, dials + 1, closes)
  {
    var r := pools[e := dials];
    forall d | d in pools ensures r[d] in r.Values { assert d in r; }
    assert r[e] in r.Values;
  }

  lemma CloseKeepsMatch(pools: map<string, nat>, open: set<nat>, dials: nat, closes: nat, e: string)
    requires Match(pools, open, dials, closes) && e in pools
    ensures Match(pools - {e}, open - {pools[e]}, dials, closes + 1)
  {
    var r := pools - {e};
    forall d | d in r ensures r[d] == pools[d] && r[d] in r.Values { }
    assert pools == r[e := pools[e]];
  }

  /** The list a name ends up with: an empty one given for an existing name is rejected and changes nothing. */
  ghost function NewRanks(opts: map<string, MeOptions>, before: map<string, MeSnapshot>, n: string): map<string, nat>
    requires n in opts && (opts[n].endpoints == [] ==> n in before)
  {
    if opts[n].endpoints == [] then before[n].ranks else Ranks(opts[n].endpoints)
  }

  /** The names in `names` still to be looked at in a loop are `rest`; only the others have their new lists. */
  ghost predicate PartlyUpdated(opts: map<string, MeOptions>, rest: set<string>,
                                before: map<string, MeSnapshot>, after: map<string, MeSnapshot>) {
    && after.Keys == before.Keys + (opts.Keys - rest)
    && (forall n | n in opts && n !in rest ::
          (opts[n].endpoints == [] ==> n in before) && after[n].ranks == NewRanks(opts, before, n))
    && (forall n | n in before && (n !in opts || n in rest) :: after[n].ranks == before[n].ranks)
  }

  ghost predicate ReportedMe(x: MeSnapshot, y: MeSnapshot, e: string, ready: bool) {
    && y.ranks == x.ranks && y.patient == x.patient
    && (x.patient ==> y.available == Marked(x.available, x.ranks.Keys, e, ready))
  }

  /** All MultiEndpoints have been told of the state of endpoint e. */
  ghost predicate Reported(before: map<string, MeSnapshot>, after: map<string, MeSnapshot>, e: string, ready: bool) {
    after.Keys == before.Keys && forall n | n in before :: ReportedMe(before[n], after[n], e, ready)
  }

  /** Timers have run. */
  ghost predicate Later(before: map<string, MeSnapshot>, after: map<string, MeSnapshot>) {
    after.Keys == before.Keys && forall n | n in before :: Spared(before[n], after[n])
  }

  /** The states of the endpoints in `done` have been sampled: those in `ready` are available, the others not. */
  ghost predicate Sampled(before: map<string, MeSnapshot>, after: map<string, MeSnapshot>,
                          done: set<string>, ready: set<string>) {
    after.Keys == before.Keys && forall n | n in before ::
      && after[n].ranks == before[n].ranks && after[n].patient == before[n].patient
      && (before[n].patient ==>
            forall k | k in before[n].ranks ::
              k in after[n].available <==> if k in done then k in ready else k in before[n].available)
  }

  lemma NobodyLater(names: map<string, MeSnapshot>)
    ensures Later(names, names)
  {
  }

  lemma OneLater(before: map<string, MeSnapshot>, n: string, y: MeSnapshot)
    requires n in before && Spared(before[n], y)
    ensures Later(before, before[n := y])
  {
  }

  lemma EvenLater(a: map<string, MeSnapshot>, b: map<string, MeSnapshot>, c: map<string, MeSnapshot>)
    requires Later(a, b) && Later(b, c)
    ensures Later(a, c)
  {
  }

  ghost function Restricted<V>(m: map<string, V>, keep: set<string>): map<string, V> {
    map n | n in m && n in keep :: m[n]
  }

  lemma AllRestricted<V>(m: map<string, V>, keep: set<string>)
    requires m.Keys <= keep
    ensures Restricted(m, keep) == m
  {
  }

  lemma RestrictedLess<V>(m: map<string, V>, rest: set<string>, keep: set<string>, n: string)
    requires n in rest
    ensures Restricted(m, rest - {n} + keep)
      == if n in keep then Restricted(m, rest + keep) else Restricted(m, rest + keep) - {n}
  {
    if n in keep {
      assert rest - {n} + keep == rest + keep;
    }
  }

  lemma LaterLess(a: map<string, MeSnapshot>, b: map<string, MeSnapshot>, n: string)
    requires Later(a, b)
    ensures Later(a - {n}, b - {n})
  {
  }

  lemma RestrictedIs<V>(m: map<string, V>, keep: set<string>)
    ensures Restricted(m, keep).Keys == m.Keys * keep
    ensures forall n | n in m && n in keep :: Restricted(m, keep)[n] == m[n]
  {
  }

  lemma LaterRanks(before: map<string, MeSnapshot>, after: map<string, MeSnapshot>)
    requires Later(before, after)
    ensures after.Keys == before.Keys && forall n | n in before :: after[n].ranks == before[n].ranks
  {
  }

  /** Only the MultiEndpoints in `rest` have not been told yet. */
  ghost predicate PartlyReported(before: map<string, MeSnapshot>, rest: set<string>, after: map<string, MeSnapshot>,
                                 e: string, ready: bool) {
    after.Keys == before.Keys && forall n | n in before ::
      if n in rest then Spared(before[n], after[n]) else ReportedMe(before[n], after[n], e, ready)
  }

  lemma NoneReported(names: map<string, MeSnapshot>, e: string, ready: bool)
    ensures PartlyReported(names, names.Keys, names, e, ready)
  {
  }

  lemma LaterReported(before: map<string, MeSnapshot>, rest: set<string>, a: map<string, MeSnapshot>,
                      b: map<string, MeSnapshot>, e: string, ready: bool)
    requires PartlyReported(before, rest, a, e, ready) && Later(a, b)
    ensures PartlyReported(before, rest, b, e, ready)
  {
  }

  lemma ReportOneMore(before: map<string, MeSnapshot>, rest: set<string>, a: map<string, MeSnapshot>, n: string,
                      y: MeSnapshot, e: string, ready: bool)
    requires PartlyReported(before, rest, a, e, ready) && n in rest && n in a
    requires y.ranks == a[n].ranks && y.patient == a[n].patient
    requires y.available == Marked(a[n].available, y.ranks.Keys, e, ready)
    ensures PartlyReported(before, rest - {n}, a[n := y], e, ready)
  {
  }

  lemma AllReported(before: map<string, MeSnapshot>, after: map<string, MeSnapshot>, e: string, ready: bool)
    requires PartlyReported(before, {}, after, e, ready)
    ensures Reported(before, after, e, ready)
  {
  }

  lemma SampleOneMore(before: map<string, MeSnapshot>, mid: map<string, MeSnapshot>, after: map<string, MeSnapshot>,
                      done: set<string>, e: string, ready: set<string>)
    requires Sampled(before, mid, done, ready) && Reported(mid, after, e, e in ready)
    ensures Sampled(before, after, done + {e}, ready)
  {
  }

  /** The outcome of a successful update, gcp_multiendpoint.go:279-295. */
  ghost predicate UpdatedTo(opts: map<string, MeOptions>, defaultName: string, ready: set<string>, a: Snapshot,
                            b: Snapshot) {
    && b.defaultName == defaultName
    && b.mes.Keys == opts.Keys
    && (forall n | n in opts :: (opts[n].endpoints == [] ==> n in a.mes) && b.mes[n].ranks == NewRanks(opts, a.mes, n))
    && b.pools.Keys == Wanted(opts)
    && (forall e | e in a.pools && e in b.pools :: b.pools[e] == a.pools[e])
    && b.open == b.pools.Values
    && (forall n, e | n in opts && b.mes[n].patient && e in b.mes[n].ranks && e in b.pools ::
          e in b.mes[n].available <==> e in ready)
  }

  lemma PooledIffWanted(opts: map<string, MeOptions>, b: Snapshot, n: string)
    requires b.pools.Keys == Wanted(opts) && b.open == b.pools.Values && n in b.mes
    ensures (forall e | e in b.mes[n].ranks :: b.Pooled(e)) <==> b.mes[n].ranks.Keys <= Wanted(opts)
  {
    assert forall e | e in b.pools :: b.pools[e] in b.pools.Values;
  }

  /** After a successful update, readers are safe exactly if no rejected list kept an endpoint nobody else wants. */
  lemma SafeIffCovered(opts: map<string, MeOptions>, defaultName: string, ready: set<string>, a: Snapshot, b: Snapshot)
    requires UpdatedTo(opts, defaultName, ready, a, b) && defaultName in opts
    requires forall n | n in b.mes :: b.mes[n].current in b.mes[n].ranks
    ensures b.Safe() <==> Covered(opts, a.mes)
  {
    hide Snapshot.Pooled;
    forall n | n in opts
      ensures (forall e | e in b.mes[n].ranks :: b.Pooled(e)) <==>
              (opts[n].endpoints == [] ==> a.mes[n].ranks.Keys <= Wanted(opts))
    {
      PooledIffWanted(opts, b, n);
      if opts[n].endpoints != [] {
        assert forall k | k in opts[n].endpoints :: k in Wanted(opts);
      }
    }
  }

  /** Up to the last phase: the names are those of opts with their new lists, the pools the wanted ones. */
  /** The names are those of opts, with their new lists. */
  ghost predicate HasLists(opts: map<string, MeOptions>, before: map<string, MeSnapshot>,
                           after: map<string, MeSnapshot>) {
    && after.Keys == opts.Keys
    && forall n | n in opts ::
         (opts[n].endpoints == [] ==> n in before) && after[n].ranks == NewRanks(opts, before, n)
  }

  ghost predicate ListsWithin(names: map<string, MeSnapshot>, wanted: set<string>) {
    forall n | n in names :: names[n].ranks.Keys <= wanted
  }

  lemma LaterHasLists(opts: map<string, MeOptions>, before: map<string, MeSnapshot>, a: map<string, MeSnapshot>,
                      b: map<string, MeSnapshot>)
    requires HasLists(opts, before, a) && Later(a, b)
    ensures HasLists(opts, before, b)
  {
  }

  lemma RestrictedUpdate(opts: map<string, MeOptions>, before: map<string, MeSnapshot>,
                         updated: map<string, MeSnapshot>, kept: map<string, MeSnapshot>)
    requires PartlyUpdated(opts, {}, before, updated)
    requires Later(Restricted(updated, opts.Keys), kept)
    ensures HasLists(opts, before, kept)
    ensures Covered(opts, before) ==> ListsWithin(kept, Wanted(opts))
  {
    forall n | n in opts && (opts[n].endpoints == [] ==> n in before) && Covered(opts, before)
      ensures NewRanks(opts, before, n).Keys <= Wanted(opts)
    {
      assert forall k | k in opts[n].endpoints :: k in Wanted(opts);
    }
  }

  lemma WantedArePooled(opts: map<string, MeOptions>, b: Snapshot)
    requires Wanted(opts) <= b.pools.Keys && b.open == b.pools.Values
    ensures forall e | e in Wanted(opts) :: b.Pooled(e)
  {
    assert forall e | e in b.pools :: b.pools[e] in b.pools.Values;
  }

  lemma SampledIsUpdated(opts: map<string, MeOptions>, defaultName: string, ready: set<string>, a: Snapshot,
                         kept: map<string, MeSnapshot>, b: Snapshot)
    requires b.defaultName == defaultName && HasLists(opts, a.mes, kept)
    requires Sampled(kept, b.mes, b.pools.Keys, ready)
    requires b.pools.Keys == Wanted(opts) && b.open == b.pools.Values
    requires forall e | e in a.pools && e in b.pools :: b.pools[e] == a.pools[e]
    ensures UpdatedTo(opts, defaultName, ready, a, b)
  {
  }

  lemma StartUpdate(opts: map<string, MeOptions>, names: map<string, MeSnapshot>)
    ensures PartlyUpdated(opts, opts.Keys, names, names)
  {
  }

  lemma ListIsWanted(opts: map<string, MeOptions>, n: string)
    requires n in opts
    ensures forall e | e in opts[n].endpoints :: e in Wanted(opts)
  {
  }

  lemma LaterIsUpdated(opts: map<string, MeOptions>, rest: set<string>, before: map<string, MeSnapshot>,
                       a: map<string, MeSnapshot>, b: map<string, MeSnapshot>)
    requires PartlyUpdated(opts, rest, before, a) && Later(a, b)
    ensures PartlyUpdated(opts, rest, before, b)
  {
  }

  /** Timers that ran before the update do not matter to it. */
  lemma UpdatedFrom(opts: map<string, MeOptions>, a: map<string, MeSnapshot>, b: map<string, MeSnapshot>,
                    after: map<string, MeSnapshot>)
    requires Later(a, b) && PartlyUpdated(opts, {}, b, after)
    ensures PartlyUpdated(opts, {}, a, after)
  {
  }

  lemma UpdateOneMore(opts: map<string, MeOptions>, rest: set<string>, n: string, x: MeSnapshot,
                      before: map<string, MeSnapshot>, after: map<string, MeSnapshot>)
    requires PartlyUpdated(opts, rest, before, after) && n in rest && n in opts
    requires opts[n].endpoints == [] ==> n in after
    requires x.ranks == if opts[n].endpoints == [] then after[n].ranks else Ranks(opts[n].endpoints)
    ensures PartlyUpdated(opts, rest - {n}, before, after[n := x])
  {
  }

  /** Every MultiEndpoint entered by an update was given the options of its name. */
  ghost predicate NewSettings(opts: map<string, MeOptions>, before: map<string, MultiEndpoint>,
                              after: map<string, MultiEndpoint>) {
    forall n | n in after && n !in before ::
      n in opts && after[n].recoveryTimeout == opts[n].recoveryTimeout &&
      after[n].switchingDelay == opts[n].switchingDelay
  }

  ghost predicate Retained(before: map<string, MultiEndpoint>, after: map<string, MultiEndpoint>) {
    forall n | n in before :: n in after && after[n] == before[n]
  }

  lemma RetainMore(opts: map<string, MeOptions>, a: map<string, MultiEndpoint>, b: map<string, MultiEndpoint>,
                   c: map<string, MultiEndpoint>, n: string)
    requires Retained(a, b) && NewSettings(opts, a, b) && Retained(b, c) && c.Keys <= b.Keys + {n} && n in opts
    requires n in c && n !in b ==>
               c[n].recoveryTimeout == opts[n].recoveryTimeout && c[n].switchingDelay == opts[n].switchingDelay
    ensures Retained(a, c) && NewSettings(opts, a, c)
  {
  }

  lemma NoneRetained(opts: map<string, MeOptions>, mes: map<string, MultiEndpoint>)
    ensures Retained(mes, mes) && NewSettings(opts, mes, mes)
  {
  }

  class GcpMultiEndpoint {
    var defaultName: string
    var mes: map<string, MultiEndpoint>
    var pools: map<string, nat>

    // The network: connections dialed and not closed, and how often each was done.
    var open: set<nat>
    var dials: nat
    var closes: nat

    // The clock, as read while the lock is held.
    var now: int

    // What readers can see of the MultiEndpoints, and the objects these are made of.
    ghost var names: map<string, MeSnapshot>
    ghost var repr: set<object>

    ghost predicate MesOk()
      reads this`mes, this`names, this`now, this`repr, repr
    {
      && now > 0 && names.Keys == mes.Keys && this !in repr
      && (forall n | n in mes :: mes[n] in repr && forall o | o in mes[n].objs :: o in repr && o.owner == mes[n])
      && (forall n | n in mes :: MeOk(mes[n], names[n], now))
      && (forall m, n | m in mes && n in mes && m != n :: mes[m] != mes[n])
    }

    /** Open connections are exactly those of the pools, one each: dials minus closes is the number of pools. */
    ghost predicate PoolsOk()
      reads this`pools, this`open, this`dials, this`closes
    {
      Match(pools, open, dials, closes)
    }

    ghost predicate Valid()
      reads this, repr
    {
      MesOk() && PoolsOk()
    }

    ghost function Snap(): Snapshot
      reads this
    {
      Snapshot(defaultName, names, pools, open)
    }

    constructor (defaultName: string, now: int)
      requires now > 0
      ensures Valid() && mes == map[] && pools == map[] && this.defaultName == defaultName
      ensures repr == {} && Snap() == Snapshot(defaultName, map[], map[], {})
    {
      this.defaultName := defaultName;
      mes := map[];
      pools := map[];
      open := {};
      dials := 0;
      closes := 0;
      this.now := now;
      names := map[];
      repr := {};
    }

    method PickConn(name: Option<string>) returns (c: Option<nat>)
      requires MesOk()
      ensures c == Snap().PickConn(name)
    {
      hide Inv, NotStuck, BestChoice;
      var n := if name.Some? && name.value in mes then name.value else defaultName;
      if n in mes {
        var current := mes[n].Current();
        c := if current in pools then Some(pools[current]) else None;
      } else {
        c := None;
      }
    }

    // ----- gcp_multiendpoint.go:310-323

    method AddPool(e: string, ghost h0: seq<Snapshot>, ghost pledge: Pledge) returns (ghost h: seq<Snapshot>)
      requires Valid() && e !in pools && Story(h0, pledge, Snap())
      modifies this`pools, this`open, this`dials
      ensures Valid() && h0 <= h && Story(h, pledge, Snap())
      ensures pools == old(pools)[e := old(dials)]
    {
      hide Story, Match, MeOk;
      ghost var a := Snap();
      ContinueDial(h0, pledge, a, e, dials);
      DialKeepsMatch(pools, open, dials, closes, e);
      var conn := dials;
      dials := dials + 1;
      open := open + {conn};
      pools := pools[e := conn];
      h := h0 + [a.(open := open)] + [Snap()];
    }

    method AddPools(wanted: set<string>, refused: set<string>, timers: Schedule, ghost h0: seq<Snapshot>,
                    ghost pledge: Pledge)
      returns (err: Option<UpdateError>, ghost h: seq<Snapshot>)
      requires Valid() && Story(h0, pledge, Snap())
      modifies this`pools, this`open, this`dials, this`names, this`now, repr
      ensures Valid() && h0 <= h && Story(h, pledge, Snap()) && Later(old(names), names)
      ensures forall e | e in old(pools) :: e in pools && pools[e] == old(pools)[e]
      ensures pools.Keys <= old(pools).Keys + wanted
      ensures err.None? ==> pools.Keys == old(pools).Keys + wanted
      ensures err.Some? ==> err.value.DialFailed? && err.value.endpoint in refused * wanted - old(pools).Keys
      ensures err.None? ==> refused * wanted <= old(pools).Keys
    {
      hide Story, Match, Later, MeOk, GcpMultiEndpoint.MesOk;
      h := h0;
      NobodyLater(names);
      MesNames();
      var rest := wanted;
      while rest != {}
        invariant rest <= wanted && Valid() && h0 <= h && Story(h, pledge, Snap()) && Later(old(names), names)
        invariant repr == old(repr)
        invariant forall e | e in old(pools) :: e in pools && pools[e] == old(pools)[e]
        invariant pools.Keys == old(pools).Keys + (wanted - rest)
        invariant refused * (wanted - rest) <= old(pools).Keys
        decreases rest
      {
        var e :| e in rest;
        ghost var mid := names;
        h := LetTimersRun(timers(Dialing, e), h, pledge);
        EvenLater(old(names), mid, names);
        if e !in pools {
          if e in refused {
            return Some(DialFailed(e)), h;
          }
          h := AddPool(e, h, pledge);
        }
        rest := rest - {e};
      }
      err := None;
    }

    // ----- gcp_multiendpoint.go:326-342

    method RelistMe(n: string, list: seq<string>)
      requires MesOk() && n in mes
      modifies this`names, this`repr, mes[n], mes[n].objs
      ensures MesOk() && fresh(repr - old(repr)) && old(repr) <= repr
      ensures names == old(names)[n := names[n]] && names[n].current in names[n].ranks
      ensures if list == [] then names[n] == old(names)[n] else names[n].ranks == Ranks(list)
    {
      hide MeOk;
      ghost var y := Relist(mes[n], list, now, names[n]);
      repr := repr + mes[n].objs;
      Note(n, y);
    }

    method EnterMe(n: string, meo: MeOptions) returns (ok: bool)
      requires MesOk() && n !in mes
      modifies this`mes, this`names, this`repr
      ensures MesOk() && fresh(repr - old(repr)) && old(repr) <= repr
      ensures ok <==> meo.endpoints != []
      ensures !ok ==> mes == old(mes) && names == old(names)
      ensures ok ==> mes.Keys == old(mes).Keys + {n}
      ensures ok ==> mes == old(mes)[n := mes[n]] && names == old(names)[n := names[n]]
      ensures ok ==> names[n] == MeSnapshot(Ranks(meo.endpoints), {}, meo.endpoints[0], meo.recoveryTimeout >= 0)
      ensures ok ==> mes[n].recoveryTimeout == meo.recoveryTimeout && mes[n].switchingDelay == meo.switchingDelay
    {
      hide MeOk, GcpMultiEndpoint.MesOk;
      Clock();
      var me := NewMe(meo.endpoints, meo.recoveryTimeout, meo.switchingDelay, now);
      if me.None? {
        return false;
      }
      Admit(me.value);
      Store(n, me.value, MeSnapshot(Ranks(meo.endpoints), {}, meo.endpoints[0], meo.recoveryTimeout >= 0));
      ok := true;
    }

    lemma Clock()
      requires MesOk()
      ensures now > 0
    {
    }

    ghost method Admit(me: MultiEndpoint)
      requires MesOk()
      modifies this`repr
      ensures MesOk() && old(repr) <= repr && me in repr && forall o | o in me.objs :: o in repr
      ensures forall o | o in repr :: o in old(repr) || o == me || o in me.objs
    {
      hide MeOk;
      repr := repr + {me} + me.objs;
    }

    method Store(n: string, me: MultiEndpoint, ghost x: MeSnapshot)
      requires MesOk() && n !in mes && MeOk(me, x, now) && Owned(me)
      requires me in repr && forall o | o in me.objs :: o in repr
      requires forall m | m in mes :: mes[m] != me
      modifies this`mes, this`names
      ensures MesOk()
      ensures mes == old(mes)[n := me] && names == old(names)[n := x]
    {
      hide MeOk;
      mes := mes[n := me];
      names := names[n := x];
    }

    /** All but the MultiEndpoint called n are as `names` says. */
    ghost predicate OthersOk(n: string)
      reads this`mes, this`names, this`now, this`repr, repr
    {
      && now > 0 && names.Keys == mes.Keys && this !in repr && n in mes
      && (forall m | m in mes :: mes[m] in repr && forall o | o in mes[m].objs :: o in repr && o.owner == mes[m])
      && (forall m | m in mes && m != n :: MeOk(mes[m], names[m], now))
      && (forall l, m | l in mes && m in mes && l != m :: mes[l] != mes[m])
    }

    /** ... and so is that one from now on. */
    ghost method Note(n: string, y: MeSnapshot)
      requires OthersOk(n) && MeOk(mes[n], y, now)
      modifies this`names
      ensures MesOk() && names == old(names)[n := y]
    {
      hide MeOk;
      names := names[n := y];
    }

    /** One iteration: an existing name is relisted, errors ignored; a new name gets a new MultiEndpoint. */
    method UpdateMe(n: string, meo: MeOptions, ghost h0: seq<Snapshot>, ghost pledge: Pledge)
      returns (ok: bool, ghost h: seq<Snapshot>)
      requires MesOk() && Story(h0, pledge, Snap())
      requires pledge.safe ==> forall e | e in meo.endpoints :: Snap().Pooled(e)
      modifies this`mes, this`names, this`repr, repr
      ensures MesOk() && fresh(repr - old(repr)) && old(repr) <= repr
      ensures ok <==> n in old(mes) || meo.endpoints != []
      ensures !ok ==> mes == old(mes) && names == old(names)
      ensures ok ==> n in names && names == old(names)[n := names[n]]
      ensures ok ==> names[n].ranks == if meo.endpoints == [] then old(names)[n].ranks else Ranks(meo.endpoints)
      ensures forall m | m in old(mes) :: m in mes && mes[m] == old(mes)[m]
      ensures n in mes && n !in old(mes) ==>
                mes[n].recoveryTimeout == meo.recoveryTimeout && mes[n].switchingDelay == meo.switchingDelay
      ensures h0 <= h && Story(h, pledge, Snap())
    {
      hide Story, MeOk, GcpMultiEndpoint.MesOk;
      ghost var a := Snap();
      assert names.Keys == mes.Keys by { MesNames(); }
      assert n in mes ==> mes[n] in repr && forall o | o in mes[n].objs :: o in repr by { MesNames(); }
      if n in mes {
        RelistMe(n, meo.endpoints);
        ok := true;
      } else {
        ok := EnterMe(n, meo);
        if !ok {
          return false, h0;
        }
      }
      if pledge.safe { LastIsSafe(h0, pledge, a); }
      ContinueMe(h0, pledge, a, n, names[n]);
      h := h0 + [Snap()];
    }

    lemma MesNames()
      requires MesOk()
      ensures names.Keys == mes.Keys && this !in repr
      ensures forall n | n in mes :: mes[n] in repr && forall o | o in mes[n].objs :: o in repr
    {
    }

    method UpdateNext(n: string, meo: MeOptions, timings: seq<Timing>, ghost h0: seq<Snapshot>, ghost pledge: Pledge)
      returns (ok: bool, ghost mid: map<string, MeSnapshot>, ghost h: seq<Snapshot>)
      requires MesOk() && Story(h0, pledge, Snap())
      requires pledge.safe ==> forall e | e in meo.endpoints :: Snap().Pooled(e)
      modifies this`mes, this`names, this`repr, this`now, repr
      ensures MesOk() && fresh(repr - old(repr)) && old(repr) <= repr && names.Keys == mes.Keys
      ensures h0 <= h && Story(h, pledge, Snap()) && Later(old(names), mid)
      ensures ok <==> n in old(mes) || meo.endpoints != []
      ensures ok ==> n in names && names == mid[n := names[n]] && (n !in old(mes) ==> meo.endpoints != [])
      ensures ok ==> names[n].ranks == if meo.endpoints == [] then mid[n].ranks else Ranks(meo.endpoints)
      ensures Retained(old(mes), mes)
      ensures mes.Keys == old(mes).Keys + if ok then {n} else {}
      ensures n in mes && n !in old(mes) ==>
                mes[n].recoveryTimeout == meo.recoveryTimeout && mes[n].switchingDelay == meo.switchingDelay
    {
      hide Story, MeOk, GcpMultiEndpoint.MesOk, Later, Ranks;
      MesNames();
      h := LetTimersRun(timings, h0, pledge);
      MesNames();
      LaterRanks(old(names), names);
      mid := names;
      ok, h := UpdateMe(n, meo, h, pledge);
      MesNames();
    }

    method UpdateMes(opts: map<string, MeOptions>, timers: Schedule, ghost h0: seq<Snapshot>, ghost pledge: Pledge)
      returns (err: Option<UpdateError>, ghost h: seq<Snapshot>)
      requires MesOk() && Story(h0, pledge, Snap())
      requires pledge.safe ==> forall e | e in Wanted(opts) :: Snap().Pooled(e)
      modifies this`mes, this`names, this`repr, this`now, repr
      ensures MesOk() && fresh(repr - old(repr)) && old(repr) <= repr
      ensures h0 <= h && Story(h, pledge, Snap())
      ensures err.None? ==> PartlyUpdated(opts, {}, old(names), names)
      ensures err.Some? ==> err.value.EmptyEndpoints? && err.value.name in opts.Keys - old(names).Keys
                              && opts[err.value.name].endpoints == []
      ensures Retained(old(mes), mes) && NewSettings(opts, old(mes), mes)
    {
      hide Story, MeOk, GcpMultiEndpoint.MesOk, PartlyUpdated, Later, Wanted, Retained, NewSettings;
      NoneRetained(opts, mes);
      h := h0;
      var rest := opts.Keys;
      StartUpdate(opts, names);
      MesNames();
      while rest != {}
        invariant rest <= opts.Keys && MesOk() && fresh(repr - old(repr)) && old(repr) <= repr
        invariant h0 <= h && Story(h, pledge, Snap()) && PartlyUpdated(opts, rest, old(names), names)
        invariant names.Keys == mes.Keys && old(names).Keys <= names.Keys
        invariant pools == old(pools) && open == old(open)
        invariant pledge.safe ==> forall e | e in Wanted(opts) :: Snap().Pooled(e)
        invariant Retained(old(mes), mes) && NewSettings(opts, old(mes), mes)
        decreases rest
      {
        var n :| n in rest;
        ghost var was, wasMes := names, mes;
        ListIsWanted(opts, n);
        var ok;
        ghost var mid;
        ok, mid, h := UpdateNext(n, opts[n], timers(Updating, n), h, pledge);
        RetainMore(opts, old(mes), wasMes, mes, n);
        if !ok {
          return Some(EmptyEndpoints(n)), h;
        }
        LaterIsUpdated(opts, rest, old(names), was, mid);
        LaterRanks(was, mid);
        UpdateOneMore(opts, rest, n, names[n], old(names), mid);
        rest := rest - {n};
      }
      err := None;
    }

    // ----- gcp_multiendpoint.go:345-367

    method DropMe(n: string, ghost h0: seq<Snapshot>, ghost pledge: Pledge) returns (ghost h: seq<Snapshot>)
      requires MesOk() && Story(h0, pledge, Snap()) && defaultName != n
      modifies this`mes, this`names
      ensures MesOk() && h0 <= h && Story(h, pledge, Snap())
      ensures mes == old(mes) - {n} && names == old(names) - {n}
    {
      hide Story, MeOk;
      ContinueDropMe(h0, pledge, Snap(), n);
      mes := mes - {n};
      names := names - {n};
      h := h0 + [Snap()];
    }

    method DropMes(keep: set<string>, timers: Schedule, ghost h0: seq<Snapshot>, ghost pledge: Pledge)
      returns (ghost h: seq<Snapshot>)
      requires MesOk() && Story(h0, pledge, Snap()) && defaultName in keep
      modifies this`mes, this`names, this`now, repr
      ensures MesOk() && h0 <= h && Story(h, pledge, Snap())
      ensures mes == Restricted(old(mes), keep) && Later(Restricted(old(names), keep), names)
    {
      hide Story, MeOk, GcpMultiEndpoint.MesOk, Later, Restricted;
      AllRestricted(names, names.Keys + keep);
      AllRestricted(mes, mes.Keys + keep);
      NobodyLater(names);
      MesNames();
      h := h0;
      var rest := mes.Keys;
      while rest != {}
        invariant MesOk() && h0 <= h && Story(h, pledge, Snap()) && repr == old(repr)
        invariant mes == Restricted(old(mes), rest + keep) && Later(Restricted(old(names), rest + keep), names)
        decreases rest
      {
        var n :| n in rest;
        ghost var mid := names;
        h := LetTimersRun(timers(DroppingMes, n), h, pledge);
        EvenLater(Restricted(old(names), rest + keep), mid, names);
        RestrictedLess(old(mes), rest, keep, n);
        RestrictedLess(old(names), rest, keep, n);
        LaterLess(Restricted(old(names), rest + keep), names, n);
        rest := rest - {n};
        if n !in keep {
          h := DropMe(n, h, pledge);
        }
      }
      assert rest + keep == keep;
    }

    method DropPool(e: string, ghost h0: seq<Snapshot>, ghost pledge: Pledge) returns (ghost h: seq<Snapshot>)
      requires Valid() && e in pools && e !in pledge.kept && Story(h0, pledge, Snap())
      requires pledge.safe ==> forall n | n in names :: e !in names[n].ranks
      modifies this`pools, this`open, this`closes
      ensures Valid() && h0 <= h && Story(h, pledge, Snap())
      ensures pools == old(pools) - {e}
    {
      hide Story, MeOk, GcpMultiEndpoint.MesOk, Match;
      MesNames();
      PoolsDiffer(e);
      ghost var a := Snap();
      ContinueClose(h0, pledge, a, e);
      CloseKeepsMatch(pools, open, dials, closes, e);
      open := open - {pools[e]};
      closes := closes + 1;
      pools := pools - {e};
      h := h0 + [a.(open := open)] + [Snap()];
    }

    lemma PoolsDiffer(e: string)
      requires PoolsOk() && e in pools
      ensures forall d | d in pools && d != e :: pools[d] != pools[e]
    {
    }

    method DropPools(wanted: set<string>, timers: Schedule, ghost h0: seq<Snapshot>, ghost pledge: Pledge)
      returns (ghost h: seq<Snapshot>)
      requires Valid() && Story(h0, pledge, Snap()) && pledge.kept <= wanted
      requires pledge.safe ==> ListsWithin(names, wanted)
      modifies this`pools, this`open, this`closes, this`names, this`now, repr
      ensures Valid() && h0 <= h && Story(h, pledge, Snap()) && Later(old(names), names)
      ensures pools == Restricted(old(pools), wanted)
    {
      hide Story, Match, MeOk, GcpMultiEndpoint.MesOk, Later, Restricted;
      h := h0;
      NobodyLater(names);
      MesNames();
      AllRestricted(pools, pools.Keys + wanted);
      var rest := pools.Keys;
      while rest != {}
        invariant rest <= old(pools).Keys && Valid() && h0 <= h && Story(h, pledge, Snap())
        invariant Later(old(names), names) && repr == old(repr)
        invariant pools == Restricted(old(pools), rest + wanted)
        decreases rest
      {
        var e :| e in rest;
        ghost var mid := names;
        h := LetTimersRun(timers(Closing, e), h, pledge);
        EvenLater(old(names), mid, names);
        LaterRanks(old(names), names);
        RestrictedLess(old(pools), rest, wanted, e);
        RestrictedIs(old(pools), rest + wanted);
        rest := rest - {e};
        if e !in wanted {
          h := DropPool(e, h, pledge);
        }
      }
      assert rest + wanted == wanted;
    }

    // ----- gcp_multiendpoint.go:253-263, 370-375

    method ReportIn(n: string, e: string, ready: bool)
      requires MesOk() && n in mes
      modifies this`names, mes[n], mes[n].objs
      ensures MesOk() && names == old(names)[n := names[n]] && names[n].current in names[n].ranks
      ensures names[n].ranks == old(names)[n].ranks && names[n].patient == old(names)[n].patient
      ensures names[n].available == Marked(old(names)[n].available, names[n].ranks.Keys, e, ready)
    {
      hide MeOk, Marked;
      ghost var y := Report(mes[n], e, ready, now, names[n]);
      Note(n, y);
    }

    method ReportTo(n: string, e: string, ready: bool, ghost h0: seq<Snapshot>, ghost pledge: Pledge)
      returns (ghost h: seq<Snapshot>)
      requires MesOk() && n in mes && Story(h0, pledge, Snap())
      modifies this`names, repr
      ensures MesOk() && h0 <= h && Story(h, pledge, Snap())
      ensures names == old(names)[n := names[n]]
      ensures names[n].ranks == old(names)[n].ranks && names[n].patient == old(names)[n].patient
      ensures names[n].available == Marked(old(names)[n].available, names[n].ranks.Keys, e, ready)
    {
      hide Story, MeOk, Marked, GcpMultiEndpoint.MesOk;
      MesNames();
      ghost var a := Snap();
      ReportIn(n, e, ready);
      if pledge.safe { LastIsSafe(h0, pledge, a); }
      ContinueMe(h0, pledge, a, n, names[n]);
      h := h0 + [Snap()];
    }

    /** monitoredConn.notify: every MultiEndpoint hears of the state of one endpoint. */
    method Notify(e: string, ready: bool, timers: Schedule, ghost h0: seq<Snapshot>, ghost pledge: Pledge)
      returns (ghost h: seq<Snapshot>)
      requires MesOk() && Story(h0, pledge, Snap())
      modifies this`names, this`now, repr
      ensures MesOk() && h0 <= h && Story(h, pledge, Snap())
      ensures Reported(old(names), names, e, ready)
    {
      hide Story, MeOk, Marked, GcpMultiEndpoint.MesOk, PartlyReported, Later;
      MesNames();
      h := h0;
      var rest := mes.Keys;
      NoneReported(names, e, ready);
      while rest != {}
        invariant rest <= mes.Keys && MesOk() && h0 <= h && Story(h, pledge, Snap()) && names.Keys == mes.Keys
        invariant PartlyReported(old(names), rest, names, e, ready)
        decreases rest
      {
        var n :| n in rest;
        ghost var mid := names;
        h := LetTimersRun(timers(Reporting(e), n), h, pledge);
        LaterReported(old(names), rest, mid, names, e, ready);
        LaterRanks(mid, names);
        ghost var a := names;
        h := ReportTo(n, e, ready, h, pledge);
        ReportOneMore(old(names), rest, a, n, names[n], e, ready);
        rest := rest - {n};
      }
      AllReported(old(names), names, e, ready);
    }

    lemma OkLater(at: int)
      requires MesOk() && now <= at
      ensures forall n | n in mes :: MeOk(mes[n], names[n], at)
    {
      hide Healthy;
      forall n | n in mes ensures MeOk(mes[n], names[n], at) {
        assert MeOk(mes[n], names[n], now);
      }
    }

    /** Time passes. */
    method Advance(at: int)
      requires MesOk() && now <= at
      modifies this`now
      ensures MesOk() && now == at
    {
      hide MeOk;
      OkLater(at);
      now := at;
    }

    // ----- recovery and switch timers of the MultiEndpoints, whenever they run

    method FireIn(n: string, t: nat)
      requires MesOk() && n in mes && t in mes[n].timers && !mes[n].timers[t].fired && mes[n].timers[t].due <= now
      modifies this`names, mes[n], mes[n].objs
      ensures MesOk() && names == old(names)[n := names[n]] && names[n].current in names[n].ranks
      ensures Spared(old(names)[n], names[n])
      ensures mes[n].View() == FailoverSpec.Fire(Tick(old(mes[n].View()), now), t)
    {
      hide MeOk;
      ghost var y := FireTimer(mes[n], t, now, names[n]);
      Note(n, y);
    }

    method RunIn(n: string, t: nat)
      requires MesOk() && n in mes && t in mes[n].timers && mes[n].timers[t].fired
      modifies this`names, mes[n], mes[n].objs
      ensures MesOk() && names == old(names)[n := names[n]] && names[n].current in names[n].ranks
      ensures Spared(old(names)[n], names[n]) && old(mes[n].View()).Linked()
      ensures mes[n].View() == FailoverSpec.RunCallback(Tick(old(mes[n].View()), now), t)
    {
      hide MeOk, FailoverSpec.RunCallback, State.Linked, Spared;
      assert MeOk(mes[n], names[n], now);
      IsLinked(mes[n], names[n], now);
      ghost var y := RunTimer(mes[n], t, now, names[n]);
      Note(n, y);
    }

    /** A timer of a MultiEndpoint is due: its goroutine starts. */
    method Fire(n: string, t: nat, ghost h0: seq<Snapshot>, ghost pledge: Pledge) returns (ghost h: seq<Snapshot>)
      requires MesOk() && n in mes && t in mes[n].timers && !mes[n].timers[t].fired && mes[n].timers[t].due <= now
      requires Story(h0, pledge, Snap())
      modifies this`names, repr
      ensures MesOk() && h0 <= h && Story(h, pledge, Snap())
      ensures names == old(names)[n := names[n]] && Spared(old(names)[n], names[n])
      ensures mes[n].View() == FailoverSpec.Fire(Tick(old(mes[n].View()), now), t)
    {
      hide Story, MeOk, GcpMultiEndpoint.MesOk;
      MesNames();
      ghost var a := Snap();
      FireIn(n, t);
      if pledge.safe { LastIsSafe(h0, pledge, a); }
      ContinueMe(h0, pledge, a, n, names[n]);
      h := h0 + [Snap()];
    }

    /** Its callback runs, in time or late: an endpoint becomes unavailable, or current switches; readers stay safe. */
    method RunCallback(n: string, t: nat, ghost h0: seq<Snapshot>, ghost pledge: Pledge)
      returns (ghost h: seq<Snapshot>)
      requires MesOk() && n in mes && t in mes[n].timers && mes[n].timers[t].fired && Story(h0, pledge, Snap())
      modifies this`names, repr
      ensures MesOk() && h0 <= h && Story(h, pledge, Snap())
      ensures names == old(names)[n := names[n]] && Spared(old(names)[n], names[n])
      ensures old(mes[n].View()).Linked()
      ensures mes[n].View() == FailoverSpec.RunCallback(Tick(old(mes[n].View()), now), t)
    {
      hide Story, MeOk, GcpMultiEndpoint.MesOk;
      MesNames();
      ghost var a := Snap();
      RunIn(n, t);
      if pledge.safe { LastIsSafe(h0, pledge, a); }
      ContinueMe(h0, pledge, a, n, names[n]);
      h := h0 + [Snap()];
    }

    method GoOn(n: string, t: nat, ghost h0: seq<Snapshot>, ghost pledge: Pledge) returns (ghost h: seq<Snapshot>)
      requires MesOk() && Story(h0, pledge, Snap())
      modifies this`names, repr
      ensures MesOk() && h0 <= h && Story(h, pledge, Snap()) && Later(old(names), names)
      ensures n in mes && t in old(mes[n].timers) && old(mes[n].timers)[t].fired ==>
                && old(mes[n].View()).Linked()
                && mes[n].View() == FailoverSpec.RunCallback(Tick(old(mes[n].View()), now), t)
      ensures n in mes && t in old(mes[n].timers) && !old(mes[n].timers)[t].fired ==>
                old(mes[n].timers)[t].due <= now ==>
                  mes[n].View() == FailoverSpec.Fire(Tick(old(mes[n].View()), now), t)
    {
      hide Story, MeOk, GcpMultiEndpoint.MesOk, Spared;
      NobodyLater(names);
      MesNames();
      h := h0;
      if n in mes && t in mes[n].timers {
        if mes[n].timers[t].fired {
          h := RunCallback(n, t, h, pledge);
          OneLater(old(names), n, names[n]);
        } else if mes[n].timers[t].due <= now {
          h := Fire(n, t, h, pledge);
          OneLater(old(names), n, names[n]);
        }
      }
    }

    /** Timers take the locks of their MultiEndpoints only, so they can run at any time. */
    method LetTimersRun(timings: seq<Timing>, ghost h0: seq<Snapshot>, ghost pledge: Pledge)
      returns (ghost h: seq<Snapshot>)
      requires MesOk() && Story(h0, pledge, Snap())
      modifies this`names, this`now, repr
      ensures MesOk() && h0 <= h && Story(h, pledge, Snap()) && Later(old(names), names)
    {
      hide Story, MeOk, GcpMultiEndpoint.MesOk, Later;
      h := h0;
      NobodyLater(names);
      MesNames();
      for i := 0 to |timings|
        invariant MesOk() && h0 <= h && Story(h, pledge, Snap()) && Later(old(names), names) && repr == old(repr)
      {
        ghost var mid := names;
        Advance(now + timings[i].after);
        h := GoOn(timings[i].name, timings[i].timer, h, pledge);
        EvenLater(old(names), mid, names);
      }
    }

    /** gcp_multiendpoint.go:370-375: sample every pool's state and tell every MultiEndpoint. */
    method TriggerStatus(ready: set<string>, timers: Schedule, ghost h0: seq<Snapshot>, ghost pledge: Pledge)
      returns (ghost h: seq<Snapshot>)
      requires MesOk() && Story(h0, pledge, Snap())
      modifies this`names, this`now, repr
      ensures MesOk() && h0 <= h && Story(h, pledge, Snap())
      ensures Sampled(old(names), names, pools.Keys, ready)
    {
      hide Story, MeOk, GcpMultiEndpoint.MesOk;
      MesNames();
      h := h0;
      var rest := pools.Keys;
      while rest != {}
        invariant rest <= pools.Keys && MesOk() && h0 <= h && Story(h, pledge, Snap())
        invariant Sampled(old(names), names, pools.Keys - rest, ready)
        decreases rest
      {
        var e :| e in rest;
        ghost var mid := names;
        h := Notify(e, e in ready, timers, h, pledge);
        SampleOneMore(old(names), mid, names, pools.Keys - rest, e, ready);
        assert pools.Keys - (rest - {e}) == pools.Keys - rest + {e};
        rest := rest - {e};
      }
    }

    /** What pickConn reads of a MultiEndpoint. */
    method CurrentAt(n: string) returns (current: string)
      requires Valid() && n in names
      ensures current == names[n].current && current in names[n].ranks
    {
      CurrentsAreRanked();
      hide Inv, NotStuck, BestChoice;
      assert MeOk(mes[n], names[n], now);
      current := mes[n].Current();
    }

    lemma CurrentsAreRanked()
      requires MesOk()
      ensures forall n | n in names :: names[n].current in names[n].ranks
    {
      forall n | n in names ensures names[n].current in names[n].ranks {
        assert MeOk(mes[n], names[n], now);
        IsOk(mes[n], now);
      }
    }

    /**
     gcp_multiendpoint.go:296-377. `h` is the history of what lock-free readers could see, store by store; it is safe
     throughout, early returns included, if the start is safe and the options are covered. `timers` says which timers of
     the MultiEndpoints go on before each store.
     */
    method UpdateMultiEndpoints(opts: map<string, MeOptions>, defaultName: string, refused: set<string>,
                                ready: set<string>, timers: Schedule)
      returns (err: Option<UpdateError>, ghost h: seq<Snapshot>)
      requires Valid()
      modifies this, repr
      ensures Valid() && fresh(repr - old(repr))
      ensures |h| > 0 && h[0] == old(Snap())
      ensures Story(h, Pledge(old(Snap().Safe()) && Covered(opts, old(names)), Wanted(opts)), Snap())
      ensures err == Some(MissingDefault) <==> defaultName !in opts
      ensures err.None? <==>
        && defaultName in opts
        && refused * Wanted(opts) <= old(pools).Keys
        && forall n | n in opts && opts[n].endpoints == [] :: n in old(names)
      ensures err.None? ==> UpdatedTo(opts, defaultName, ready, old(Snap()), Snap())
      ensures err.None? ==> (Snap().Safe() <==> Covered(opts, old(names)))
      ensures err == Some(MissingDefault) ==> Snap() == old(Snap())
      ensures err.Some? ==>
        && this.defaultName == old(this.defaultName) && Retained(old(mes), mes)
        && forall e | e in old(pools) :: e in pools && pools[e] == old(pools)[e]
      ensures forall n | n in mes && n in old(mes) :: mes[n] == old(mes)[n]
      ensures NewSettings(opts, old(mes), mes)
    {
      hide Story, Match, MeOk, GcpMultiEndpoint.MesOk, PartlyUpdated, Covered, Snapshot.Safe, Snapshot.Pooled;
      MesNames();
      ghost var before := Snap();
      ghost var pledge := Pledge(before.Safe() && Covered(opts, before.mes), Wanted(opts));
      h := [before];
      StartStory(before, pledge);
      if defaultName !in opts {
        return Some(MissingDefault), h;
      }
      var validPools := WantedPools(opts);
      err, h := AddPools(validPools, refused, timers, h, pledge);
      if err.Some? {
        return;
      }
      OpenAreValues();
      WantedArePooled(opts, Snap());
      ghost var dialed := names;
      err, h := UpdateMes(opts, timers, h, pledge);
      if err.Some? {
        return;
      }
      UpdatedFrom(opts, before.mes, dialed, names);
      h := FinishUpdate(opts, defaultName, validPools, ready, timers, h, pledge, before);
    }

    method FirstUpdate(opts: map<string, MeOptions>, defaultName: string, refused: set<string>, ready: set<string>,
                       timers: Schedule)
      returns (err: Option<UpdateError>)
      requires Valid() && names == map[] && pools == map[]
      modifies this, repr
      ensures Valid() && fresh(repr - old(repr))
      ensures err.None? <==>
        defaultName in opts && refused * Wanted(opts) == {} && forall n | n in opts :: opts[n].endpoints != []
      ensures err.None? ==> Snap().Safe() && UpdatedTo(opts, defaultName, ready, old(Snap()), Snap())
    {
      NothingToCover(opts);
      hide UpdatedTo, Covered, Wanted, Story, Snapshot.Safe, GcpMultiEndpoint.Valid, NewSettings;
      ghost var h;
      err, h := UpdateMultiEndpoints(opts, defaultName, refused, ready, timers);
    }

    /**
     gcp_multiendpoint.go:192-216: a new GCPMultiEndpoint is safe from its first update on, or is not returned at all.
     */
    static method New(opts: map<string, MeOptions>, defaultName: string, refused: set<string>, ready: set<string>,
                      timers: Schedule, now: int)
      returns (gme: Option<GcpMultiEndpoint>, err: Option<UpdateError>)
      requires now > 0
      ensures gme.Some? <==> err.None?
      ensures err.None? <==>
        defaultName in opts && refused * Wanted(opts) == {} && forall n | n in opts :: opts[n].endpoints != []
      ensures gme.Some? ==> fresh(gme.value) && fresh(gme.value.repr) && gme.value.Valid() && gme.value.Snap().Safe()
      ensures gme.Some? ==> UpdatedTo(opts, defaultName, ready, Snapshot(defaultName, map[], map[], {}),
                                      gme.value.Snap())
    {
      hide UpdatedTo, Wanted, Snapshot.Safe;
      var g := new GcpMultiEndpoint(defaultName, now);
      g.NamesAreSeen();
      hide GcpMultiEndpoint.Valid, GcpMultiEndpoint.Snap;
      err := g.FirstUpdate(opts, defaultName, refused, ready, timers);
      gme := if err.None? then Some(g) else None;
    }

    lemma NamesAreSeen()
      ensures Snap().mes == names && Snap().pools == pools
    {
    }

    method FinishUpdate(opts: map<string, MeOptions>, defaultName: string, validPools: set<string>, ready: set<string>,
                        timers: Schedule, ghost h0: seq<Snapshot>, ghost pledge: Pledge, ghost before: Snapshot)
      returns (ghost h: seq<Snapshot>)
      requires Valid() && Story(h0, pledge, Snap())
      requires defaultName in opts && validPools == Wanted(opts) && pledge.kept <= validPools
      requires PartlyUpdated(opts, {}, before.mes, names)
      requires pledge.safe ==> Covered(opts, before.mes)
      requires pools.Keys == before.pools.Keys + validPools
      requires forall e | e in before.pools :: e in pools && pools[e] == before.pools[e]
      modifies this, repr
      ensures Valid() && repr == old(repr)
      ensures h0 <= h && Story(h, pledge, Snap())
      ensures UpdatedTo(opts, defaultName, ready, before, Snap())
      ensures Snap().Safe() <==> Covered(opts, before.mes)
      ensures mes == Restricted(old(mes), opts.Keys)
    {
      hide Restricted, HasLists, Story, Match, MeOk, GcpMultiEndpoint.MesOk, PartlyUpdated, Sampled, UpdatedTo, Covered,
        Snapshot.Safe, Wanted, NewRanks, Snapshot.Pooled;
      MesNames();
      RestrictedIs(pools, validPools);
      h := DropObsolete(opts, defaultName, validPools, timers, h0, pledge, before);
      ghost var kept := names;
      MesNames();
      h := TriggerStatus(ready, timers, h, pledge);
      OpenAreValues();
      SampledIsUpdated(opts, defaultName, ready, before, kept, Snap());
      CurrentsAreRanked();
      SafeIffCovered(opts, defaultName, ready, before, Snap());
    }

    /** gcp_multiendpoint.go:343-367 */
    method DropObsolete(opts: map<string, MeOptions>, defaultName: string, validPools: set<string>, timers: Schedule,
                        ghost h0: seq<Snapshot>, ghost pledge: Pledge, ghost before: Snapshot)
      returns (ghost h: seq<Snapshot>)
      requires Valid() && Story(h0, pledge, Snap())
      requires defaultName in opts && validPools == Wanted(opts) && pledge.kept <= validPools
      requires PartlyUpdated(opts, {}, before.mes, names)
      requires pledge.safe ==> Covered(opts, before.mes)
      modifies this`defaultName, this`mes, this`names, this`pools, this`open, this`closes, this`now, repr
      ensures Valid() && this.defaultName == defaultName
      ensures h0 <= h && Story(h, pledge, Snap())
      ensures mes == Restricted(old(mes), opts.Keys) && HasLists(opts, before.mes, names)
      ensures pools == Restricted(old(pools), validPools)
    {
      hide Story, Match, MeOk, GcpMultiEndpoint.MesOk, PartlyUpdated, Covered, Snapshot.Safe, Later, Restricted,
        HasLists, ListsWithin, Wanted;
      MesNames();
      h := Rename(opts, defaultName, timers, h0, pledge, before);
      ghost var updated := names;
      MesNames();
      h := DropMes(opts.Keys, timers, h, pledge);
      RestrictedUpdate(opts, before.mes, updated, names);
      ghost var restricted := names;
      h := DropPools(validPools, timers, h, pledge);
      LaterHasLists(opts, before.mes, restricted, names);
    }

    /** gcp_multiendpoint.go:343 */
    method Rename(opts: map<string, MeOptions>, defaultName: string, timers: Schedule, ghost h0: seq<Snapshot>,
                  ghost pledge: Pledge, ghost before: Snapshot) returns (ghost h: seq<Snapshot>)
      requires Valid() && Story(h0, pledge, Snap()) && defaultName in opts && PartlyUpdated(opts, {}, before.mes, names)
      modifies this`defaultName, this`names, this`now, repr
      ensures Valid() && this.defaultName == defaultName && h0 <= h && Story(h, pledge, Snap())
      ensures PartlyUpdated(opts, {}, before.mes, names)
    {
      hide Story, Match, MeOk, GcpMultiEndpoint.MesOk, PartlyUpdated, Later;
      MesNames();
      ghost var mid := names;
      h := LetTimersRun(timers(Renaming, defaultName), h0, pledge);
      MesNames();
      LaterIsUpdated(opts, {}, before.mes, mid, names);
      DefaultIsUpdated(opts, before.mes, names, defaultName);
      ContinueDefault(h, pledge, Snap(), defaultName);
      this.defaultName := defaultName;
      h := h + [Snap()];
    }

    /**
     With no delays, a pick by name after a successful update gets the pool of a ready endpoint that
     no ready endpoint of the name precedes, whenever the name has a ready endpoint k.
     */
    lemma PickAfterUpdate(opts: map<string, MeOptions>, ready: set<string>, a: Snapshot, n: string, k: string)
      requires Valid() && UpdatedTo(opts, defaultName, ready, a, Snap()) && Covered(opts, a.mes) && defaultName in opts
      requires n in mes && mes[n].recoveryTimeout == 0 && mes[n].switchingDelay == 0
      requires k in ready && k in names[n].ranks
      ensures var c := names[n].current;
        && c in ready && names[n].ranks[c] <= names[n].ranks[k]
        && c in pools && Snap().PickConn(Some(n)) == Some(pools[c])
    {
      hide Match, UpdatedTo, Covered, Snapshot.Safe, MeOk;
      CurrentsAreRanked();
      assert n in names && MeOk(mes[n], names[n], now);
      PatienceIsSeen(mes[n], names[n], now);
      hide GcpMultiEndpoint.MesOk;
      SafeIffCovered(opts, defaultName, ready, a, Snap());
      SafePools(Snap(), n, k);
      SafePools(Snap(), n, names[n].current);
      UpdatedAvailability(opts, ready, a, Snap(), n, k);
      UpdatedAvailability(opts, ready, a, Snap(), n, names[n].current);
      BestIsAvailable(mes[n], names[n], now, k);
    }

    lemma OpenAreValues()
      requires PoolsOk()
      ensures open == pools.Values
    {
    }
  }

  lemma WantedOfOne(n: string, e: string)
    ensures Wanted(map[n := MeOptions([e], 0, 0)]) == {e}
  {
    var opts := map[n := MeOptions([e], 0, 0)];
    assert n in opts && e in opts[n].endpoints;
  }

  lemma UpdatedToOne(n: string, e: string, ready: set<string>, a: Snapshot, b: Snapshot)
    requires UpdatedTo(map[n := MeOptions([e], 0, 0)], n, ready, a, b)
    ensures n in b.mes && b.mes[n].ranks.Keys == {e} && b.pools.Keys == {e}
  {
    WantedOfOne(n, e);
  }

  /**
   pickConn under an update that replaces the only endpoint: it reads the current endpoint before the update and finds
   no pool for it after, whichever timers run.
   */
  method ReadAcrossUpdate(timers: Schedule) returns (current: string, found: bool)
    ensures current == "a" && !found
  {
    hide Wanted, UpdatedTo, Covered, Story, Snapshot.Safe, GcpMultiEndpoint.Valid, NewSettings;
    var first, second := map["d" := MeOptions(["a"], 0, 0)], map["d" := MeOptions(["b"], 0, 0)];
    WantedOfOne("d", "a");
    WantedOfOne("d", "b");
    var gme, err := GcpMultiEndpoint.New(first, "d", {}, {"a"}, timers, 1);
    var g := gme.value;
    UpdatedToOne("d", "a", {"a"}, Snapshot("d", map[], map[], {}), g.Snap());
    current := g.CurrentAt("d");
    ghost var before := g.Snap();
    ghost var h;
    err, h := g.UpdateMultiEndpoints(second, "d", {}, {"b"}, timers);
    UpdatedToOne("d", "b", {"b"}, before, g.Snap());
    found := current in g.pools;
  }

  lemma SafePools(h: Snapshot, n: string, e: string)
    requires h.Safe() && n in h.mes && e in h.mes[n].ranks
    ensures h.Pooled(e)
  {
  }

  lemma UpdatedAvailability(opts: map<string, MeOptions>, ready: set<string>, a: Snapshot, b: Snapshot, n: string,
                            e: string)
    requires UpdatedTo(opts, b.defaultName, ready, a, b) && n in b.mes && b.mes[n].patient
    requires e in b.mes[n].ranks && e in b.pools
    ensures e in b.mes[n].available <==> e in ready
  {
  }

  lemma DefaultIsUpdated(opts: map<string, MeOptions>, before: map<string, MeSnapshot>,
                         updated: map<string, MeSnapshot>, n: string)
    requires PartlyUpdated(opts, {}, before, updated) && n in opts
    ensures n in updated
  {
  }

  /** gcp_multiendpoint.go:303-308 */
  method WantedPools(opts: map<string, MeOptions>) returns (valid: set<string>)
    ensures valid == Wanted(opts)
  {
    valid := {};
    var rest := opts.Keys;
    while rest != {}
      invariant rest <= opts.Keys
      invariant valid == set n, e | n in opts && n !in rest && e in opts[n].endpoints :: e
      decreases rest
    {
      var n :| n in rest;
      rest := rest - {n};
      ghost var before := valid;
      var list := opts[n].endpoints;
      for i := 0 to |list|
        invariant valid == before + set k | k in list[..i]
      {
        valid := valid + {list[i]};
        assert list[..i + 1] == list[..i] + [list[i]];
      }
      assert list[..|list|] == list;
    }
  }
}
