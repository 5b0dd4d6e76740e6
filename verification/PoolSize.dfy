/** The size of the pool, when picks are split between their size check and the creation of a subconn. */
module PoolSize {
  import opened Options
  import opened PoolSpec
  import opened PoolIndex
  import opened PoolPublication
  import opened PoolRefs

  function Max(a: nat, b: nat): nat {
    if a < b then b else a
  }

  /** A live subconn is shut down. */
  predicate ShutsDown<R(==)>(s: Pool<R>, action: Action<R>) {
    action.DoStateChange? && action.st == Shutdown && action.sc !in s.refreshingScRefs && action.sc in s.scStates
  }

  /** A replacement becomes ready after the subconn it was to replace has been shut down. */
  predicate Revives<R(==)>(s: Pool<R>, action: Action<R>) {
    && action.DoStateChange? && action.st == Ready && action.sc in s.refreshingScRefs
    && s.refreshingScRefs[action.sc] in s.objs && s.objs[s.refreshingScRefs[action.sc]].subConn !in s.scRefs
  }

  ghost function Shutdowns<R>(run: Run<R>): nat
    requires run.Legal()
    decreases |run.steps|
  {
    if |run.steps| == 0 then 0
    else
      var step := run.steps[|run.steps| - 1];
      Shutdowns(run.Front()) + if ShutsDown(Tick(run.Front().Final(), step.at), step.action) then 1 else 0
  }

  ghost function Revivals<R>(run: Run<R>): nat
    requires run.Legal()
    decreases |run.steps|
  {
    if |run.steps| == 0 then 0
    else
      var step := run.steps[|run.steps| - 1];
      Revivals(run.Front()) + if Revives(Tick(run.Front().Final(), step.at), step.action) then 1 else 0
  }

  /** Never more than n picks at once are between their size check and the creation. */
  ghost predicate InProgress<R>(run: Run<R>, n: nat)
    requires run.Legal()
    decreases |run.steps|
  {
    |run.Final().admitted| <= n && (|run.steps| > 0 ==> InProgress(run.Front(), n))
  }

  // ----- how each step changes the sizes

  lemma RemovedSize<V>(m: map<SubConn, V>, sc: SubConn)
    requires sc in m
    ensures |m - {sc}| == |m| - 1
  {
    assert (m - {sc}).Keys == m.Keys - {sc};
    assert |(m - {sc}).Keys| == |m - {sc}| && |m.Keys| == |m|;
  }

  lemma AddedSize<K, V>(m: map<K, V>, k: K, v: V)
    ensures |m[k := v]| == |m| + if k in m then 0 else 1
  {
    assert m[k := v].Keys == m.Keys + {k};
    assert |m[k := v].Keys| == |m[k := v]| && |m.Keys| == |m|;
  }

  lemma RenamedSize<V>(m: map<SubConn, V>, was: SubConn, sc: SubConn, v: V)
    requires sc !in m && sc != was
    ensures |(m - {was})[sc := v]| == |m| + if was in m then 0 else 1
  {
    AddedSize(m - {was}, sc, v);
    if was in m {
      RemovedSize(m, was);
    } else {
      assert m - {was} == m;
    }
  }

  /** What the bound depends on. */
  ghost predicate Sizes<R>(s: Pool<R>, t: Pool<R>, refs: int, objs: int) {
    && t.cfg == s.cfg && t.admitted == s.admitted && |t.scRefs| == |s.scRefs| + refs && |t.objs| == |s.objs| + objs
    && |t.scRefList| == |s.scRefList| + objs
  }

  lemma AddSizes<R>(s: Pool<R>, r: R)
    requires Indexed(s) && r !in s.objs
    ensures Sizes(s, AddSubConn(s, r), 1, 1)
  {
    HandlesAreFew(s);
    hide Handles, Pending, Listed;
    AddedSize(s.scRefs, s.issued, r);
    AddedSize(s.objs, r, AddSubConn(s, r).objs[r]);
  }

  lemma SizesAddUp<R>(s: Pool<R>, m: Pool<R>, t: Pool<R>, n: nat)
    requires Sizes(s, m, n, n) && Sizes(m, t, 1, 1)
    ensures Sizes(s, t, n + 1, n + 1)
  {
  }

  lemma {:induction false} AddAllSizes<R>(s: Pool<R>, news: seq<R>)
    requires Indexed(s) && Distinct(news) && forall r | r in news :: r !in s.objs
    ensures Sizes(s, AddAll(s, news), |news|, |news|)
    decreases |news|
  {
    if |news| > 0 {
      var n := |news| - 1;
      var m := AddAll(s, news[..n]);
      assert AddAll(s, news) == AddSubConn(m, news[n]);
      hide Indexed, AddSubConn, Sizes, AddAll;
      AddAllSizes(s, news[..n]);
      AddAllKeepsIndex(s, news[..n]);
      AddSizes(m, news[n]);
      SizesAddUp(s, m, AddSubConn(m, news[n]), n);
    }
  }

  lemma TransitionSizes<R>(s: Pool<R>, sc: SubConn, st: ConnState, order: seq<R>)
    requires Live(s) && sc in s.scStates
    ensures Sizes(s, Transition(s, sc, st, order), if st == Shutdown then -1 else 0, 0)
  {
    hide UpdatedFallback, Recorded, Evaluated, MustPublish;
    if st == Shutdown {
      RemovedSize(s.scRefs, sc);
    }
  }

  lemma ReplaceSizes<R>(s: Pool<R>, sc: SubConn)
    requires Indexed(s) && sc in s.refreshingScRefs && s.refreshingScRefs[sc] in s.objs
    ensures Sizes(s, Replace(s, sc), if s.objs[s.refreshingScRefs[sc]].subConn in s.scRefs then 0 else 1, 0)
  {
    PendingIsNew(s, sc);
    hide Handles, Pending, Listed;
    var r := s.refreshingScRefs[sc];
    RenamedSize(s.scRefs, s.objs[r].subConn, sc, r);
    AddedSize(s.objs, r, Replaced(s.objs[r], sc, s.now));
  }

  lemma ChangeSizes<R>(s: Pool<R>, action: Action<R>)
    requires Indexed(s) && Possible(s, action) && action.DoStateChange?
    ensures Sizes(s, Perform(s, action),
                  (if Revives(s, action) then 1 else 0) - (if ShutsDown(s, action) then 1 else 0), 0)
  {
    hide Indexed, Lists, Transition, Replace;
    var sc, st, order := action.sc, action.st, action.order;
    if sc in s.refreshingScRefs && st == Ready {
      ReplaceKeepsIndex(s, sc);
      ReplaceSizes(s, sc);
      IndexedIsLive(Replace(s, sc));
      TransitionSizes(Replace(s, sc), sc, st, order);
    } else if sc !in s.refreshingScRefs && sc in s.scStates {
      IndexedIsLive(s);
      TransitionSizes(s, sc, st, order);
    }
  }

  lemma IndexedIsLive<R>(s: Pool<R>)
    requires Indexed(s)
    ensures Live(s)
  {
    hide Live, Handles, Pending, Listed;
  }

  lemma PlainActionLists<R>(s: Pool<R>, action: Action<R>)
    requires Possible(s, action)
    requires action.DoLookup? || action.DoTicket? || action.DoOpen? || action.DoBind? || action.DoUnbind?
    ensures var t := Perform(s, action);
      t.admitted == s.admitted && t.scRefs == s.scRefs && t.scRefList == s.scRefList
  {
    hide GetReadySubConnRef, KnownPicker;
  }

  /** Picks and affinity commands create nothing. */
  lemma PickSizes<R>(s: Pool<R>, action: Action<R>)
    requires Possible(s, action)
    requires action.DoLookup? || action.DoTicket? || action.DoOpen? || action.DoClose? || action.DoBind?
      || action.DoUnbind?
    ensures Sizes(s, Perform(s, action), 0, 0)
  {
    hide DetectUnresponsive, GetReadySubConnRef, Unresponsive, Close, Bind, Unbind, Open, AfterLookup, KnownPicker;
    if action.DoClose? {
      CloseSizes(s, action.id, action.timedOut, action.ok);
    } else {
      PlainActionOnRefs(s, action);
      PlainActionLists(s, action);
      SameSizes(s, Perform(s, action));
    }
  }

  lemma SameSizes<R>(s: Pool<R>, t: Pool<R>)
    requires t.cfg == s.cfg && t.admitted == s.admitted && t.scRefs == s.scRefs && t.objs.Keys == s.objs.Keys
    requires t.scRefList == s.scRefList
    ensures Sizes(s, t, 0, 0)
  {
    assert |t.objs| == |t.objs.Keys| && |s.objs| == |s.objs.Keys|;
  }

  lemma RefreshSizes<R>(s: Pool<R>, r: R, ok: bool)
    requires r in s.objs
    ensures var t := Refresh(s, r, ok);
      && t.cfg == s.cfg && t.admitted == s.admitted && t.scRefs == s.scRefs && t.objs.Keys == s.objs.Keys
      && t.scRefList == s.scRefList
  {
  }

  lemma CloseSizes<R>(s: Pool<R>, id: nat, timedOut: bool, ok: bool)
    requires s.cfg.Some? && id in s.calls && s.calls[id].ref in s.objs
    ensures Sizes(s, DetectUnresponsive(Close(s, id), s.calls[id].ref, s.calls[id].started, timedOut, ok), 0, 0)
  {
    hide DetectUnresponsive, Unresponsive, Refresh, GotResp, CountedTimeout, Sizes;
    var r := s.calls[id].ref;
    var ref, refreshes := DetectShape(Close(s, id), r, s.calls[id].started, timedOut, ok);
    var m := Close(s, id).(objs := Close(s, id).objs[r := ref]);
    RefreshSizes(m, r, ok);
    assert m.objs.Keys == s.objs.Keys;
    SameSizes(s, DetectUnresponsive(Close(s, id), r, s.calls[id].started, timedOut, ok));
  }

  // ----- the bound

  ghost predicate Unused<R>(s: Pool<R>) {
    && s.objs == map[] && s.scRefs == map[] && s.scStates == map[] && s.refreshingScRefs == map[]
    && s.admitted == {} && s.scRefList == [] && s.calls == map[] && s.affinityMap == map[]
  }

  /** rev revivals and downs shutdowns have happened so far. */
  ghost predicate Bounded<R>(s: Pool<R>, n: nat, rev: nat, downs: nat) {
    && |s.objs| + rev == |s.scRefs| + downs
    && (if s.cfg.None? then Unused(s)
        else
          && s.scRefList != [] && s.cfg.value.maxSize > 0
          && |s.scRefs| + |s.admitted| <= Max(s.cfg.value.minSize, s.cfg.value.maxSize) + n - 1 + rev)
  }

  /** Nothing happens before the first UpdateClientConnState. */
  lemma UnusedStays<R>(s: Pool<R>, action: Action<R>)
    requires s.cfg.None? && Unused(s) && Possible(s, action) && !action.DoConfigure?
    ensures Perform(s, action) == s && !Revives(s, action) && !ShutsDown(s, action)
  {
    hide GetReadySubConnRef, LeastBusy, DetectUnresponsive, Lists;
  }

  lemma NewSubConnSizes<R>(s: Pool<R>, r: R, ok: bool)
    requires Indexed(s) && r !in s.objs
    ensures Sizes(s, NewSubConn(s, r, ok), 0, 0) || Sizes(s, NewSubConn(s, r, ok), 1, 1)
  {
    hide Indexed, AddSubConn, SomePending;
    AddSizes(s, r);
  }

  lemma ConfiguredBound<R>(s: Pool<R>, c: Config, news: seq<R>, n: nat)
    requires Indexed(s) && Unused(s) && n > 0 && Possible(s, DoConfigure(c, news))
    ensures var t := Configure(s, c, news);
      && t.cfg.Some? && t.cfg.value.maxSize > 0 && t.scRefList != [] && t.admitted == {} && |t.objs| == |t.scRefs|
      && |t.scRefs| <= Max(t.cfg.value.minSize, t.cfg.value.maxSize) + n - 1
  {
    hide Indexed, AddAll, Distinct;
    var t := s.(cfg := Some(WithDefaults(c)));
    SameIndexKeeps(s, t);
    AddAllSizes(t, news);
  }

  lemma ActionKeepsBound<R>(s: Pool<R>, action: Action<R>, n: nat, rev: nat, downs: nat)
    requires Indexed(s) && Possible(s, action) && n > 0 && |Perform(s, action).admitted| <= n
    requires |s.objs| + rev == |s.scRefs| + downs && s.cfg.Some? && s.cfg.value.maxSize > 0 && s.scRefList != []
    requires |s.scRefs| + |s.admitted| <= Max(s.cfg.value.minSize, s.cfg.value.maxSize) + n - 1 + rev
    ensures Bounded(Perform(s, action), n, rev + (if Revives(s, action) then 1 else 0),
                    downs + (if ShutsDown(s, action) then 1 else 0))
  {
    hide Indexed, UpdateSubConnState, DetectUnresponsive, NewSubConn, GetReadySubConnRef, Lists, Close, Open, Bind,
      Unbind, AddAll, Distinct, KnownPicker, AfterLookup, Configure, WithDefaults;
    match action {
      case DoStateChange(sc, st, order) => ChangeSizes(s, action);
      case DoAdmit(id, refs) => AdmitFindsRoom(s, id, refs);
      case DoGrow(id, r, ok) =>
        SideFieldsKeepIndex(s, 0, 0, s.admitted - {id});
        NewSubConnSizes(s.(admitted := s.admitted - {id}), r, ok);
      case _ => PickSizes(s, action);
    }
  }

  lemma AdmitFindsRoom<R>(s: Pool<R>, id: nat, refs: seq<R>)
    requires Possible(s, DoAdmit(id, refs)) && s.cfg.value.maxSize > 0
    ensures |s.scRefs| < s.cfg.value.maxSize && |s.admitted + {id}| == |s.admitted| + 1
  {
    hide LeastIndex, ToInt32;
  }

  /** The bounds after an action, whatever it is. */
  ghost predicate BoundedAfter<R>(s: Pool<R>, action: Action<R>, n: nat, rev: nat, downs: nat)
    requires Possible(s, action)
  {
    Bounded(Perform(s, action), n, rev + (if Revives(s, action) then 1 else 0),
            downs + (if ShutsDown(s, action) then 1 else 0))
  }

  lemma RunningKeepsBound<R>(s: Pool<R>, action: Action<R>, n: nat, rev: nat, downs: nat)
    requires Indexed(s) && Bounded(s, n, rev, downs) && Possible(s, action) && s.cfg.Some?
    requires n > 0 && |Perform(s, action).admitted| <= n
    ensures BoundedAfter(s, action, n, rev, downs)
  {
    hide Indexed, Perform, Possible, Revives, ShutsDown;
    ActionKeepsBound(s, action, n, rev, downs);
  }

  lemma ConfigureKeepsBound<R>(s: Pool<R>, action: Action<R>, n: nat, rev: nat, downs: nat)
    requires Indexed(s) && Bounded(s, n, rev, downs) && Possible(s, action) && s.cfg.None? && action.DoConfigure?
      && n > 0
    ensures BoundedAfter(s, action, n, rev, downs)
  {
    hide Indexed, Perform, Possible, Configure;
    ConfiguredBound(s, action.c, action.news, n);
    Configures(s, action);
  }

  lemma NothingKeepsBound<R>(s: Pool<R>, action: Action<R>, n: nat, rev: nat, downs: nat)
    requires Bounded(s, n, rev, downs) && Possible(s, action) && s.cfg.None? && !action.DoConfigure?
    ensures BoundedAfter(s, action, n, rev, downs)
  {
    hide Perform, Possible, Revives, ShutsDown;
    UnusedStays(s, action);
  }

  lemma TickKeepsBound<R>(s: Pool<R>, at: int, n: nat, rev: nat, downs: nat)
    requires Bounded(s, n, rev, downs)
    ensures Bounded(Tick(s, at), n, rev, downs)
  {
  }

  lemma StepKeepsBound<R>(was: Pool<R>, step: Step<R>, n: nat, rev: nat, downs: nat)
    requires Steady(was) && Bounded(was, n, rev, downs) && Enabled(was, step) && n > 0
    requires |Apply(was, step).admitted| <= n
    ensures BoundedAfter(Tick(was, step.at), step.action, n, rev, downs)
  {
    var s := Tick(was, step.at);
    StepKeepsSteady(was, step);
    TickKeepsBound(was, step.at, n, rev, downs);
    hide Indexed, Counted, UpToDate, Perform, Possible, Bounded, BoundedAfter;
    if s.cfg.Some? {
      RunningKeepsBound(s, step.action, n, rev, downs);
    } else if step.action.DoConfigure? {
      ConfigureKeepsBound(s, step.action, n, rev, downs);
    } else {
      NothingKeepsBound(s, step.action, n, rev, downs);
    }
  }

  lemma RunGoesOn<R>(run: Run<R>)
    requires run.Legal() && |run.steps| > 0
    ensures var was := run.Front().Final();
      var step := run.steps[|run.steps| - 1];
      var s := Tick(was, step.at);
      && Enabled(was, step) && run.Final() == Apply(was, step)
      && Revivals(run) == Revivals(run.Front()) + (if Revives(s, step.action) then 1 else 0)
      && Shutdowns(run) == Shutdowns(run.Front()) + (if ShutsDown(s, step.action) then 1 else 0)
  {
    hide Enabled, Apply, Revives, ShutsDown;
  }

  lemma ProgressGoesOn<R>(run: Run<R>, n: nat)
    requires run.Legal() && InProgress(run, n)
    ensures |run.Final().admitted| <= n && (|run.steps| > 0 ==> InProgress(run.Front(), n))
  {
    hide Enabled, Apply;
  }

  lemma OneMoreIsBounded<R>(run: Run<R>, n: nat)
    requires run.Legal() && |run.steps| > 0 && n > 0 && |run.Final().admitted| <= n
    requires Bounded(run.Front().Final(), n, Revivals(run.Front()), Shutdowns(run.Front()))
    ensures Bounded(run.Final(), n, Revivals(run), Shutdowns(run))
  {
    hide Steady, Bounded, Enabled, Perform, Possible, Revives, ShutsDown, Revivals, Shutdowns;
    RunGoesOn(run);
    RunIsSteady(run.Front());
    var was, rev, downs := run.Front().Final(), Revivals(run.Front()), Shutdowns(run.Front());
    StepKeepsBound(was, run.steps[|run.steps| - 1], n, rev, downs);
  }

  lemma {:induction false} RunIsBounded<R>(run: Run<R>, n: nat)
    requires run.Legal() && InProgress(run, n) && n > 0
    ensures Bounded(run.Final(), n, Revivals(run), Shutdowns(run))
    decreases |run.steps|
  {
    if |run.steps| > 0 {
      ProgressGoesOn(run, n);
      hide Bounded, Enabled, Apply, Revives, ShutsDown, Revivals, Shutdowns, Tick, InProgress;
      RunIsBounded(run.Front(), n);
      OneMoreIsBounded(run, n);
    } else {
      StartIsBounded(run, n);
    }
  }

  lemma StartIsBounded<R>(run: Run<R>, n: nat)
    requires run.Legal() && |run.steps| == 0
    ensures Bounded(run.Final(), n, Revivals(run), Shutdowns(run))
  {
    assert run.Final() == Build(run.start);
  }

  lemma Configures<R>(s: Pool<R>, action: Action<R>)
    requires Possible(s, action) && action.DoConfigure?
    ensures Perform(s, action) == Configure(s, action.c, action.news)
  {
    hide Configure, Distinct;
  }

  // ----- the promises

  /**
   With at most n picks in progress between size check and creation, live subconns plus admitted creations
   never exceed max(MinSize, MaxSize) + n - 1, plus one for every replacement that revived a ref after its
   subconn had been shut down.
   */
  lemma PoolIsBounded<R>(run: Run<R>, n: nat)
    requires run.Legal() && InProgress(run, n) && n > 0 && run.Final().cfg.Some?
    ensures var s := run.Final();
      |s.scRefs| + |s.admitted| <= Max(s.cfg.value.minSize, s.cfg.value.maxSize) + n - 1 + Revivals(run)
  {
    hide Enabled, Apply, InProgress;
    RunIsBounded(run, n);
  }

  /** A revival needs a shutdown before it; the refs without a live subconn are the shutdowns not yet made up for. */
  lemma RevivalsNeedShutdowns<R>(run: Run<R>)
    requires run.Legal()
    ensures Revivals(run) + |run.Final().objs| - |run.Final().scRefs| == Shutdowns(run)
    ensures Revivals(run) <= Shutdowns(run)
  {
    hide Enabled, Apply;
    var n := Peak(run);
    RunIsBounded(run, n);
    RunIsSteady(run);
    LiveRefsAreRefs(run.Final());
  }

  ghost function Peak<R>(run: Run<R>): (n: nat)
    requires run.Legal()
    ensures n > 0 && InProgress(run, n)
    decreases |run.steps|
  {
    if |run.steps| == 0 then 1
    else
      var n := Max(Peak(run.Front()), |run.Final().admitted|);
      Monotone(run.Front(), Peak(run.Front()), n);
      n
  }

  lemma {:induction false} Monotone<R>(run: Run<R>, m: nat, n: nat)
    requires run.Legal() && InProgress(run, m) && m <= n
    ensures InProgress(run, n)
    decreases |run.steps|
  {
    if |run.steps| > 0 {
      Monotone(run.Front(), m, n);
    }
  }

  lemma LiveRefsAreRefs<R>(s: Pool<R>)
    requires Live(s)
    ensures |s.scRefs| <= |s.objs|
  {
    var handles := set r | r in s.objs :: s.objs[r].subConn;
    ImageIsSmall(s.objs, s.objs.Keys);
    assert s.scRefs.Keys <= handles by {
      forall sc | sc in s.scRefs ensures sc in handles {
        assert s.objs[s.scRefs[sc]].subConn == sc;
      }
    }
    assert handles == set r | r in s.objs.Keys :: s.objs[r].subConn;
    SubsetSize(s.scRefs.Keys, handles);
    assert |s.scRefs| == |s.scRefs.Keys| && |s.objs| == |s.objs.Keys|;
  }

  lemma {:induction false} ImageIsSmall<R>(objs: map<R, Ref>, keys: set<R>)
    requires keys <= objs.Keys
    ensures |set r | r in keys :: objs[r].subConn| <= |keys|
    decreases |keys|
  {
    if keys != {} {
      var q :| q in keys;
      var rest := keys - {q};
      ImageIsSmall(objs, rest);
      assert (set r | r in keys :: objs[r].subConn) == (set r | r in rest :: objs[r].subConn) + {objs[q].subConn};
    }
  }

  /** When picks are atomic and no live subconn is shut down, the pool stays within max(MinSize, MaxSize). */
  lemma AtomicPicksRespectTheLimit<R>(run: Run<R>)
    requires run.Legal() && InProgress(run, 1) && Shutdowns(run) == 0 && run.Final().cfg.Some?
    ensures |run.Final().scRefs| + |run.Final().admitted|
      <= Max(run.Final().cfg.value.minSize, run.Final().cfg.value.maxSize)
  {
    hide Enabled, Apply, InProgress;
    PoolIsBounded(run, 1);
    RevivalsNeedShutdowns(run);
  }

  /** The round-robin pick always finds a ref once the balancer is configured. */
  lemma RoundRobinFindsARef<R>(run: Run<R>)
    requires run.Legal()
    ensures run.Final().cfg.Some? <==> run.Final().scRefList != []
  {
    hide Enabled, Apply;
    RunIsBounded(run, Peak(run));
  }

  predicate Settling(m: map<SubConn, ConnState>, sc: SubConn) {
    sc in m && (m[sc] == Idle || m[sc] == Connecting)
  }

  predicate AddsOne<R(==)>(action: Action<R>) {
    action.DoGrow? || action.DoGrowFirst?
  }

  /** The subconns created by picks that have never been anything but idle or connecting since. */
  ghost function Unsettled<R>(run: Run<R>): set<SubConn>
    requires run.Legal()
    decreases |run.steps|
  {
    if |run.steps| == 0 then {}
    else
      var was, t := run.Front().Final(), run.Final();
      (set sc | sc in Unsettled(run.Front()) && Settling(t.scStates, sc))
      + if AddsOne(run.steps[|run.steps| - 1].action) then t.scStates.Keys - was.scStates.Keys else {}
  }

  lemma NewSubConnWaits<R>(s: Pool<R>, r: R, ok: bool)
    ensures var t := NewSubConn(s, r, ok);
      || t.scStates == s.scStates
      || (t.scStates == s.scStates[s.issued := Idle] && forall sc | sc in s.scStates :: !Settling(s.scStates, sc))
  {
  }

  lemma GrowthWaits<R>(s: Pool<R>, step: Step<R>)
    requires Enabled(s, step) && AddsOne(step.action)
    ensures var t := Apply(s, step);
      || t.scStates == s.scStates
      || (t.scStates == s.scStates[s.issued := Idle] && forall sc | sc in s.scStates :: !Settling(s.scStates, sc))
  {
    hide NewSubConn, Settling;
    var u := Tick(s, step.at);
    match step.action {
      case DoGrowFirst(r, ok) => NewSubConnWaits(u, r, ok);
      case DoGrow(id, r, ok) => NewSubConnWaits(u.(admitted := u.admitted - {id}), r, ok);
    }
  }

  lemma NoneUnsettled(was: map<SubConn, ConnState>, unsettled: set<SubConn>)
    requires forall sc | sc in unsettled :: Settling(was, sc)
    requires forall sc | sc in was :: !Settling(was, sc)
    ensures unsettled == {}
  {
  }

  /**
   Subconns are added one at a time, in every run: among all those that picks have created there is never more than one
   that has not settled yet.
   */
  lemma {:induction false} GrowthIsOneAtATime<R>(run: Run<R>)
    requires run.Legal()
    ensures |Unsettled(run)| <= 1
    ensures forall sc | sc in Unsettled(run) :: Settling(run.Final().scStates, sc)
    decreases |run.steps|
  {
    if |run.steps| > 0 {
      GrowthIsOneAtATime(run.Front());
      var step := run.steps[|run.steps| - 1];
      var was, t := run.Front().Final(), run.Final();
      var before := Unsettled(run.Front());
      assert Enabled(was, step) && t == Apply(was, step);
      if AddsOne(step.action) {
        GrowthWaits(was, step);
      }
      hide Enabled, Apply;
      NextUnsettled(was.scStates, t.scStates, before, Unsettled(run), was.issued, AddsOne(step.action));
    }
  }

  lemma NextUnsettled(was: map<SubConn, ConnState>, t: map<SubConn, ConnState>, before: set<SubConn>,
                      after: set<SubConn>, issued: SubConn, adds: bool)
    requires |before| <= 1 && forall sc | sc in before :: Settling(was, sc)
    requires after == (set sc | sc in before && Settling(t, sc)) + if adds then t.Keys - was.Keys else {}
    requires adds ==> t == was || (t == was[issued := Idle] && forall sc | sc in was :: !Settling(was, sc))
    ensures |after| <= 1 && forall sc | sc in after :: Settling(t, sc)
  {
    if adds && t != was {
      NoneUnsettled(was, before);
      SubsetSize(after, {issued});
    } else {
      SubsetSize(after, before);
    }
  }
}
