/** When affinity outlives a refresh, and runs in which it does not. */
module PoolLimits {
  import opened Options
  import opened PoolSpec
  import opened PoolPublication
  import opened PoolCounters
  import opened PoolFallback
  import opened PoolSize
  import opened PoolConfig
  import opened PoolStages

  // ----- a refresh leaves keys behind

  /** The run has configured the pool with c, and no live subconn has been shut down. */
  ghost predicate Plain<R>(run: Run<R>, c: Config) {
    run.Legal() && Asked(run) == Some(c) && Shutdowns(run) == 0
  }

  ghost predicate MappedLive<R>(s: Pool<R>) {
    forall k | k in s.affinityMap :: s.affinityMap[k] in s.scRefs
  }

  lemma ThenPlain(run: Run<nat>, step: Step<nat>, c: Config)
    requires Plain(run, c) && Enabled(run.Final(), step) && !step.action.DoConfigure?
    requires step.action.DoStateChange? ==> step.action.st != Shutdown
    ensures Plain(Then(run, step), c)
  {
    hide Enabled, Apply;
    var longer := Then(run, step);
    assert longer.steps[|longer.steps| - 1] == step;
  }

  lemma StartIsPlain(c: Config)
    ensures Plain(StartRun(c), c)
  {
    hide Enabled, Apply;
    var run := StartRun(c);
    assert run.Front() == Run(0, []);
    assert Asked(run) == Some(c);
    assert Shutdowns(run.Front()) == 0;
  }

  /** A subconn becomes ready, and a call on it binds a key. */
  lemma BoundRun(c: Config) returns (run: Run<nat>)
    ensures Plain(run, c) && run.Final() == OneBound(c, WithDefaults(c).minSize)
  {
    var n := WithDefaults(c).minSize;
    StartIsPlain(c);
    StepToOneReady(c, n);
    StepsOfCall(c, n);
    StepToOneBound(c, n);
    StagesKeepTime(c, n);
    hide Possible, Perform, Started, OneReady, OneBound, FirstRefs, Plain, Tick;
    run := ThenStep(StartRun(c), DoStateChange(0, Ready, [0]), c);
    run := ThenStep(run, DoOpen(7, 0), c);
    run := ThenStep(run, DoClose(7, false, true), c);
    run := ThenStep(run, DoBind("k", 0), c);
  }

  lemma ThenStep(run: Run<nat>, action: Action<nat>, c: Config) returns (longer: Run<nat>)
    requires Plain(run, c) && run.Final().now <= 0 && Possible(Tick(run.Final(), 0), action) && !action.DoConfigure?
    requires action.DoStateChange? ==> action.st != Shutdown
    ensures Plain(longer, c) && longer.Final() == Perform(Tick(run.Final(), 0), action)
  {
    hide Possible, Perform;
    ThenPlain(run, Step(action, 0), c);
    longer := Then(run, Step(action, 0));
  }

  /** When the first subconn has been silent for just longer than the window. */
  function Late(c: Config): nat {
    c.unresponsiveMs * MILLISECOND + 1
  }

  /** k calls on it have timed out by then. */
  ghost function Silent(c: Config, n: nat, k: uint32): Pool<nat>
    requires n > 0
  {
    var s := OneBound(c, n);
    s.(now := if k == 0 then 0 else Late(c), objs := s.objs[0 := Ref(0, 0, 1, 0, 0, k, false, 0)])
  }

  ghost function Calling(c: Config, n: nat, k: uint32): Pool<nat>
    requires n > 0
  {
    var s := Silent(c, n, k);
    s.(now := Late(c), calls := map[7 := Call(0, Late(c))], objs := s.objs[0 := Ref(0, 0, 1, 1, 0, k, false, 0)])
  }

  lemma StepToCalling(c: Config, n: nat, k: uint32)
    requires n > 0
    ensures Possible(Tick(Silent(c, n, k), Late(c)), DoOpen(7, 0)) && Silent(c, n, k).now <= Late(c)
    ensures Perform(Tick(Silent(c, n, k), Late(c)), DoOpen(7, 0)) == Calling(c, n, k)
  {
    hide WithDefaults;
  }

  /** The last timeout has made the balancer ask for a replacement. */
  ghost function Refreshing(c: Config, n: nat): Pool<nat>
    requires n > 0
  {
    var s := OneBound(c, n);
    s.(now := Late(c), issued := n + 1, owner := s.owner[n := 0], refreshingScRefs := map[n := 0],
       objs := s.objs[0 := Ref(0, n, 1, 0, 0, c.unresponsiveCalls, true, 0)])
  }

  lemma WindowAtStart(ms: uint32)
    ensures Window(ms, 0) == ms
  {
    assert Pow2(0) == 1;
  }

  /** What the k-th timeout leads to. */
  ghost function AfterTimeout(c: Config, n: nat, k: uint32): Pool<nat>
    requires n > 0 && k < c.unresponsiveCalls
  {
    if k + 1 < c.unresponsiveCalls then Silent(c, n, k + 1) else Refreshing(c, n)
  }

  ghost function Ended(c: Config, n: nat, k: uint32): Pool<nat>
    requires n > 0
  {
    var s := Calling(c, n, k);
    s.(calls := map[], objs := s.objs[0 := Ref(0, 0, 1, 0, 0, k, false, 0)])
  }

  ghost function Counted(c: Config, n: nat, k: uint32): Pool<nat>
    requires n > 0 && k < c.unresponsiveCalls
  {
    var s := Ended(c, n, k);
    s.(objs := s.objs[0 := Ref(0, 0, 1, 0, 0, k + 1, false, 0)])
  }

  lemma DetectCounts<R>(s: Pool<R>, r: R, started: int, ok: bool)
    requires r in s.objs && s.cfg.Some? && s.cfg.value.Detects() && started >= s.objs[r].lastResp
    ensures var t := s.(objs := s.objs[r := CountedTimeout(s.objs[r])]);
      DetectUnresponsive(s, r, started, true, ok) ==
      if Unresponsive(s.cfg.value, CountedTimeout(s.objs[r]), s.now) then Refresh(t, r, ok) else t
  {
    hide Unresponsive, Refresh, CountedTimeout;
  }

  lemma EndedFields(c: Config, n: nat, k: uint32)
    requires n > 0
    ensures var s := Ended(c, n, k);
      s.cfg == Some(WithDefaults(c)) && s.now == Late(c) && 0 in s.objs && s.objs[0] == Ref(0, 0, 1, 0, 0, k, false, 0)
  {
  }

  lemma SilenceIsLong(c: Config, k: uint32)
    requires c.Detects() && k < c.unresponsiveCalls
    ensures WithDefaults(c).Detects()
    ensures CountedTimeout(Ref(0, 0, 1, 0, 0, k, false, 0)) == Ref(0, 0, 1, 0, 0, k + 1, false, 0)
    ensures Unresponsive(WithDefaults(c), Ref(0, 0, 1, 0, 0, k + 1, false, 0), Late(c)) <==>
              k + 1 == c.unresponsiveCalls
  {
    WindowAtStart(c.unresponsiveMs);
    hide Window;
  }

  lemma TimeoutIsCounted(c: Config, n: nat, k: uint32)
    requires n > 0 && c.Detects() && k < c.unresponsiveCalls
    ensures DetectUnresponsive(Ended(c, n, k), 0, Late(c), true, true) ==
            if k + 1 == c.unresponsiveCalls then Refresh(Counted(c, n, k), 0, true) else Counted(c, n, k)
  {
    EndedFields(c, n, k);
    SilenceIsLong(c, k);
    hide Ended, Late, DetectUnresponsive, Unresponsive, Refresh, WithDefaults, CountedTimeout;
    DetectCounts(Ended(c, n, k), 0, Late(c), true);
  }

  lemma CountedIsSilent(c: Config, n: nat, k: uint32)
    requires n > 0 && k < c.unresponsiveCalls
    ensures Counted(c, n, k) == Silent(c, n, k + 1)
  {
    hide IdleStates, Ids, FreshRefs, WithDefaults;
    assert Counted(c, n, k).objs == Silent(c, n, k + 1).objs;
  }

  lemma LastRefreshes(c: Config, n: nat, k: uint32)
    requires n > 0 && k + 1 == c.unresponsiveCalls
    ensures Refresh(Counted(c, n, k), 0, true) == Refreshing(c, n)
  {
    var s := Counted(c, n, k);
    assert s.issued == n && s.refreshingScRefs == map[];
    var ref := Ref(0, n, 1, 0, 0, k + 1, true, 0);
    assert s.objs[0 := ref] == OneBound(c, n).objs[0 := ref];
    hide Started, WithDefaults;
  }

  lemma TimeoutCounts(c: Config, n: nat, k: uint32)
    requires n > 0 && c.Detects() && k < c.unresponsiveCalls
    ensures DetectUnresponsive(Ended(c, n, k), 0, Late(c), true, true) == AfterTimeout(c, n, k)
  {
    TimeoutIsCounted(c, n, k);
    hide DetectUnresponsive, Counted, Refresh, Silent, Refreshing;
    if k + 1 == c.unresponsiveCalls {
      LastRefreshes(c, n, k);
    } else {
      CountedIsSilent(c, n, k);
    }
  }

  lemma StepToTimeout(c: Config, n: nat, k: uint32)
    requires 0 < n < TWO_32 && c.Detects() && k < c.unresponsiveCalls
    ensures Possible(Calling(c, n, k), DoClose(7, true, true)) && Tick(Calling(c, n, k), Late(c)) == Calling(c, n, k)
    ensures Perform(Calling(c, n, k), DoClose(7, true, true)) == AfterTimeout(c, n, k)
  {
    TimeoutCounts(c, n, k);
    assert Close(Calling(c, n, k), 7) == Ended(c, n, k);
    hide DetectUnresponsive, AfterTimeout, WithDefaults;
  }

  /** The replacement has taken over; the key is still mapped to the subconn it replaced. */
  ghost function Refreshed(c: Config, n: nat): Pool<nat>
    requires n > 0
  {
    var s := Refreshing(c, n);
    s.(scStates := s.scStates[n := Ready] - {0}, scRefs := (s.scRefs - {0})[n := 0], refreshingScRefs := map[],
       objs := s.objs[0 := Ref(n, n, 1, 0, Late(c), 0, false, 1)])
  }

  lemma TakenOver(c: Config, n: nat)
    requires n > 0
    ensures n in Refreshing(c, n).refreshingScRefs && Refreshing(c, n).refreshingScRefs[n] in Refreshing(c, n).objs
    ensures Replace(Refreshing(c, n), n) == Refreshed(c, n)
  {
    BelowSize(n);
    var s := Refreshing(c, n);
    assert s.StateOf(0) == Ready;
    assert map[n := 0] - {n} == map[];
    hide WithDefaults;
  }

  lemma StaysPublished(c: Config, n: nat)
    requires n > 0
    ensures n in Refreshed(c, n).scStates && Transition(Refreshed(c, n), n, Ready, [0]) == Refreshed(c, n)
    ensures Lists([0], Refreshed(c, n).ReadyRefs())
  {
    BelowSize(n);
    var s := Refreshed(c, n);
    assert s.scStates[n := Ready] == s.scStates && Recorded(s.evaluator, Ready, Ready) == s.evaluator;
    hide Recorded, WithDefaults, Lists;
    ReadyRefsAre(s, n, 0);
    assert Entered(s, n, Ready) == s;
  }

  lemma StepToRefreshed(c: Config, n: nat)
    requires n > 0
    ensures Possible(Refreshing(c, n), DoStateChange(n, Ready, [0]))
      && Tick(Refreshing(c, n), Late(c)) == Refreshing(c, n)
    ensures Perform(Refreshing(c, n), DoStateChange(n, Ready, [0])) == Refreshed(c, n)
  {
    TakenOver(c, n);
    StaysPublished(c, n);
    hide Replace, Transition, Lists, Refreshed, WithDefaults, Started;
  }

  /** k timeouts, one after the other. */
  lemma {:induction false} SilentRun(c: Config, k: uint32) returns (run: Run<nat>)
    requires c.Detects() && k < c.unresponsiveCalls
    ensures Plain(run, c) && run.Final() == Silent(c, WithDefaults(c).minSize, k)
    decreases k
  {
    var n := WithDefaults(c).minSize;
    if k == 0 {
      run := BoundRun(c);
      SilentAtFirst(c, n);
    } else {
      run := SilentRun(c, k - 1);
      run := TimeoutRun(c, k - 1, run);
    }
  }

  lemma SilentAtFirst(c: Config, n: nat)
    requires n > 0
    ensures Silent(c, n, 0) == OneBound(c, n)
  {
    assert OneBound(c, n).objs[0 := Ref(0, 0, 1, 0, 0, 0, false, 0)] == OneBound(c, n).objs;
    hide Started, WithDefaults;
  }

  lemma TimeoutRun(c: Config, k: uint32, was: Run<nat>) returns (run: Run<nat>)
    requires c.Detects() && k < c.unresponsiveCalls
    requires Plain(was, c) && was.Final() == Silent(c, WithDefaults(c).minSize, k)
    ensures Plain(run, c) && run.Final() == AfterTimeout(c, WithDefaults(c).minSize, k)
  {
    var n := WithDefaults(c).minSize;
    StepToCalling(c, n, k);
    StepToTimeout(c, n, k);
    hide Possible, Perform, Silent, Calling, AfterTimeout, WithDefaults, Tick;
    PlainIsLegal(was, c);
    var open, end := Step(DoOpen(7, 0), Late(c)), Step(DoClose(7, true, true), Late(c));
    CallingTime(c, n, k);
    ThenPlain(was, open, c);
    run := Then(was, open);
    PlainIsLegal(run, c);
    ThenPlain(run, end, c);
    run := Then(run, end);
  }

  lemma PlainIsLegal<R>(run: Run<R>, c: Config)
    requires Plain(run, c)
    ensures run.Legal()
  {
  }

  lemma CallingTime(c: Config, n: nat, k: uint32)
    requires n > 0
    ensures Calling(c, n, k).now == Late(c)
  {
  }

  lemma LastTimeout(c: Config, n: nat)
    requires n > 0 && c.unresponsiveCalls > 0
    ensures AfterTimeout(c, n, c.unresponsiveCalls - 1) == Refreshing(c, n) && Refreshing(c, n).now == Late(c)
  {
    hide OneBound;
  }

  /**
   For every configuration that detects unresponsive connections: a run that leaves a key mapped to a replaced subconn.
   */
  lemma RefreshLeavesKeyBehind(c: Config) returns (run: Run<nat>)
    requires c.Detects()
    ensures Plain(run, c) && run.Final() == Refreshed(c, WithDefaults(c).minSize)
  {
    var n := WithDefaults(c).minSize;
    StepToRefreshed(c, n);
    LastTimeout(c, n);
    hide Possible, Perform, Refreshing, Refreshed, AfterTimeout, Silent, WithDefaults, Tick, Plain;
    run := SilentRun(c, c.unresponsiveCalls - 1);
    run := TimeoutRun(c, c.unresponsiveCalls - 1, run);
    PlainIsLegal(run, c);
    var last := Step(DoStateChange(n, Ready, [0]), Late(c));
    ThenPlain(run, last, c);
    run := Then(run, last);
    PlainIsLegal(run, c);
  }

  lemma KeyIsLeftBehind(c: Config, n: nat)
    requires n > 0
    ensures var s := Refreshed(c, n);
      && "k" in s.affinityMap && s.affinityMap["k"] !in s.scRefs && s.ReadyRefs() == {0} && Unbind(s, "k") == Crash
  {
    StaysPublished(c, n);
    assert (set q | q in [0]) == {0};
  }

  /** Affinity does not survive a refresh: all ready refs are ready, but unbinding the bound key dereferences nil. */
  lemma UnbindAfterRefreshCrashes(c: Config) returns (run: Run<nat>)
    requires c.Detects()
    ensures Plain(run, c) && run.Legal()
    ensures "k" in run.Final().affinityMap && Unbind(run.Final(), "k") == Crash && run.Final().ReadyRefs() == {0}
  {
    run := RefreshLeavesKeyBehind(c);
    KeyIsLeftBehind(c, WithDefaults(c).minSize);
    hide Refreshed;
    PlainIsLegal(run, c);
  }

  // ----- without detection nothing is left behind

  lemma {:induction false} AddAllKeepsLive<R>(s: Pool<R>, news: seq<R>)
    ensures s.scRefs.Keys <= AddAll(s, news).scRefs.Keys
    decreases |news|
  {
    if |news| > 0 {
      AddAllKeepsLive(s, news[..|news| - 1]);
    }
  }

  lemma ChangeKeepsLive<R>(s: Pool<R>, sc: SubConn, st: ConnState, order: seq<R>)
    requires sc !in s.refreshingScRefs && (st == Shutdown ==> sc !in s.scStates)
    ensures UpdateSubConnState(s, sc, st, order).scRefs == s.scRefs
  {
    hide UpdatedFallback, Recorded, Evaluated, MustPublish;
  }

  lemma NewSubConnKeepsLive<R>(s: Pool<R>, r: R, ok: bool)
    ensures s.scRefs.Keys <= NewSubConn(s, r, ok).scRefs.Keys
  {
    hide SomePending;
  }

  lemma ActionKeepsLive<R>(s: Pool<R>, action: Action<R>)
    requires Possible(s, action) && s.refreshingScRefs == map[] && !ShutsDown(s, action)
    ensures s.scRefs.Keys <= Perform(s, action).scRefs.Keys
  {
    hide NewSubConn, DetectUnresponsive, UpdateSubConnState, LeastBusy, GetReadySubConnRef, KnownPicker, Lists, AddAll,
      Distinct, WithDefaults, Open, Bind, Unbind, AfterLookup, Close, CanChange;
    match action {
      case DoConfigure(c, news) => AddAllKeepsLive(s.(cfg := Some(WithDefaults(c))), news);
      case DoGrowFirst(r, ok) => NewSubConnKeepsLive(s, r, ok);
      case DoGrow(id, r, ok) => NewSubConnKeepsLive(s.(admitted := s.admitted - {id}), r, ok);
      case DoStateChange(sc, st, order) => ChangeKeepsLive(s, sc, st, order);
      case _ => PickKeepsStates(s, action);
    }
  }

  lemma StepKeepsMapped<R>(s: Pool<R>, step: Step<R>)
    requires Enabled(s, step) && MappedLive(s) && s.refreshingScRefs == map[]
      && !ShutsDown(Tick(s, step.at), step.action)
    ensures MappedLive(Apply(s, step))
  {
    var t := Apply(s, step);
    ActionKeepsLive(Tick(s, step.at), step.action);
    forall k | k in t.affinityMap ensures t.affinityMap[k] in t.scRefs {
      AffinityIsSticky(s, step, k);
    }
  }

  lemma {:induction false} MappedStayLive<R>(run: Run<R>, c: Config)
    requires run.Legal() && Shutdowns(run) == 0 && !c.Detects() && (Asked(run).Some? ==> Asked(run).value == c)
    ensures MappedLive(run.Final())
    decreases |run.steps|
  {
    hide MappedLive, Enabled, Apply, Steady, FallbackOk;
    if |run.steps| > 0 {
      RunGoesOn(run);
      var front := run.Front();
      AskedOnce(run);
      MappedStayLive(front, c);
      RunKeepsFallback(front);
      ConfigIsAsked(front);
      NothingReplaced(front.Final());
      StepKeepsMapped(front.Final(), run.steps[|run.steps| - 1]);
    } else {
      StartIsMapped(run);
    }
  }

  lemma StartIsMapped<R>(run: Run<R>)
    requires run.Legal() && run.steps == []
    ensures MappedLive(run.Final())
  {
    assert run.Final() == Build(run.start);
  }

  lemma NothingReplaced<R>(s: Pool<R>)
    requires FallbackOk(s) && DetectionOff(s)
    ensures s.refreshingScRefs == map[]
  {
  }

  /** The balancer is configured once. */
  lemma AskedOnce<R>(run: Run<R>)
    requires run.Legal() && |run.steps| > 0
    ensures Asked(run.Front()).Some? ==> Asked(run) == Asked(run.Front())
  {
    ConfigIsAsked(run.Front());
    hide WithDefaults;
  }

  ghost predicate HandlesOutliveRuns(c: Config) {
    forall run: Run<nat> | Plain(run, c) :: MappedLive(run.Final())
  }

  /**
   Without shutdowns, every handle a key is mapped to stays live in all runs of a configuration exactly if that
   configuration does not ask for the detection of unresponsive connections, for which both settings have to be
   positive.
   */
  lemma AffinityOutlivesRunsIff(c: Config)
    ensures HandlesOutliveRuns(c) <==> c.unresponsiveCalls == 0 || c.unresponsiveMs == 0
  {
    if c.Detects() {
      var run := RefreshLeavesKeyBehind(c);
      KeyIsLeftBehind(c, WithDefaults(c).minSize);
      assert !MappedLive(run.Final());
    } else {
      forall run: Run<nat> | Plain(run, c) ensures MappedLive(run.Final()) {
        MappedStayLive(run, c);
      }
    }
  }
}
