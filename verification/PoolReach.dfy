/** How runs can go on: subconns change state, calls begin and end, the pool grows, is filled up, and is emptied. */
module PoolReach {
  import opened Options
  import opened PoolSpec
  import opened PoolIndex
  import opened PoolPublication
  import opened PoolSize
  import opened PoolConfig
  import opened PoolStages

  /** The same balancer, some steps later. */
  ghost predicate Extends<R>(run: Run<R>, longer: Run<R>) {
    && run.Legal() && longer.Legal() && longer.start == run.start && run.steps <= longer.steps
    && Asked(longer) == Asked(run)
  }

  lemma ThenExtends<R>(run: Run<R>, action: Action<R>) returns (longer: Run<R>)
    requires run.Legal() && Possible(run.Final(), action) && !action.DoConfigure?
    ensures Extends(run, longer) && longer.Final() == Perform(run.Final(), action)
  {
    hide Possible, Perform;
    var step := Step(action, run.Final().now);
    assert Tick(run.Final(), step.at) == run.Final();
    longer := Then(run, step);
    assert longer.steps[|longer.steps| - 1] == step;
  }

  // ----- state changes

  /** The picker may list the ready refs in any order. */
  lemma {:induction false} Listing<R>(refs: set<R>) returns (order: seq<R>)
    ensures Lists(order, refs)
    decreases |refs|
  {
    order := [];
    if r :| r in refs {
      var rest := Listing(refs - {r});
      assert r !in rest;
      order := rest + [r];
      assert refs == (set q | q in rest) + {r};
    }
  }

  /** Only sc has changed; the pool may have published, and dropped fallbacks. */
  ghost predicate Changed<R>(s: Pool<R>, t: Pool<R>, sc: SubConn, st: ConnState) {
    && t == s.(scStates := if st == Shutdown then s.scStates - {sc} else s.scStates[sc := st],
               scRefs := if st == Shutdown then s.scRefs - {sc} else s.scRefs,
               evaluator := t.evaluator, state := t.state, picker := t.picker, published := t.published,
               fallbackMap := t.fallbackMap)
    && t.fallbackMap.Keys <= s.fallbackMap.Keys && (s.published.Some? ==> t.published.Some?)
  }

  lemma ChangeIs<R>(s: Pool<R>, sc: SubConn, st: ConnState, order: seq<R>)
    requires sc in s.scStates && sc !in s.refreshingScRefs
    ensures Changed(s, UpdateSubConnState(s, sc, st, order), sc, st)
  {
    hide Recorded, Evaluated, MustPublish;
  }

  lemma LiveIsNotPending<R>(s: Pool<R>, sc: SubConn)
    requires Steady(s) && sc in s.scStates
    ensures sc !in s.refreshingScRefs && sc in s.scRefs && s.scRefs[sc] in s.objs && s.objs[s.scRefs[sc]].subConn == sc
  {
    hide Listed, Counted, UpToDate;
  }

  lemma Change<R>(run: Run<R>, sc: SubConn, st: ConnState) returns (longer: Run<R>)
    requires run.Legal() && sc in run.Final().scStates
    ensures Extends(run, longer) && Changed(run.Final(), longer.Final(), sc, st)
  {
    hide Possible, Perform, Steady, UpdateSubConnState;
    var s := run.Final();
    RunIsSteady(run);
    LiveIsNotPending(s, sc);
    ChangeIs(s, sc, st, []);
    var order := Listing(UpdateSubConnState(s, sc, st, []).ReadyRefs());
    ChangeIs(s, sc, st, order);
    ChangeIsPossible(s, sc, st, order);
    longer := ThenExtends(run, DoStateChange(sc, st, order));
  }

  lemma ChangeIsPossible<R>(s: Pool<R>, sc: SubConn, st: ConnState, order: seq<R>)
    requires sc !in s.refreshingScRefs
    requires Changed(s, UpdateSubConnState(s, sc, st, []), sc, st)
    requires Changed(s, UpdateSubConnState(s, sc, st, order), sc, st)
    requires Lists(order, UpdateSubConnState(s, sc, st, []).ReadyRefs())
    ensures Possible(s, DoStateChange(sc, st, order))
    ensures Perform(s, DoStateChange(sc, st, order)) == UpdateSubConnState(s, sc, st, order)
  {
    hide UpdateSubConnState, Lists;
    assert UpdateSubConnState(s, sc, st, order).ReadyRefs() == UpdateSubConnState(s, sc, st, []).ReadyRefs();
  }

  // ----- emptying the pool

  /** All subconns of s are gone; what does not speak of live subconns is as it was. */
  ghost predicate Emptied<R>(s: Pool<R>, t: Pool<R>) {
    && t == s.(scStates := map[], scRefs := map[], evaluator := t.evaluator, state := t.state, picker := t.picker,
               published := t.published, fallbackMap := t.fallbackMap)
    && t.fallbackMap.Keys <= s.fallbackMap.Keys
  }

  /** Whatever a balancer has done so far, all its subconns can be shut down. */
  lemma {:induction false} EveryPoolCanBeEmptied<R>(run: Run<R>) returns (longer: Run<R>)
    requires run.Legal()
    ensures Extends(run, longer) && Emptied(run.Final(), longer.Final())
    decreases |run.Final().scStates|
  {
    hide Changed, Steady;
    longer := run;
    RunIsSteady(run);
    StatesAreLive(run.Final());
    if sc :| sc in run.Final().scStates {
      var shorter := Change(run, sc, Shutdown);
      OneIsGone(run.Final(), shorter.Final(), sc);
      longer := EveryPoolCanBeEmptied(shorter);
      AllAreGone(run.Final(), shorter.Final(), longer.Final(), sc);
    } else {
      NoneAreLeft(run.Final());
    }
  }

  lemma StatesAreLive<R>(s: Pool<R>)
    requires Steady(s)
    ensures s.scRefs.Keys == s.scStates.Keys
  {
    hide Handles, Pending, Listed, Counted, UpToDate;
  }

  lemma NoneAreLeft<R>(s: Pool<R>)
    requires s.scRefs.Keys == s.scStates.Keys == {}
    ensures Emptied(s, s)
  {
    assert s.scStates == map[] && s.scRefs == map[];
  }

  lemma OneIsGone<R>(s: Pool<R>, t: Pool<R>, sc: SubConn)
    requires Changed(s, t, sc, Shutdown) && sc in s.scStates
    ensures |t.scStates| == |s.scStates| - 1
  {
    RemovedSize(s.scStates, sc);
  }

  lemma AllAreGone<R>(s: Pool<R>, m: Pool<R>, t: Pool<R>, sc: SubConn)
    requires Changed(s, m, sc, Shutdown) && Emptied(m, t)
    ensures Emptied(s, t)
  {
  }

  // ----- calls

  lemma {:induction false} FreshNumber(used: set<nat>) returns (n: nat)
    ensures forall u | u in used :: u < n
    decreases |used|
  {
    n := 0;
    if u :| u in used {
      n := FreshNumber(used - {u});
      n := if u < n then n else u + 1;
      assert forall v | v in used :: v == u || v in used - {u};
    }
  }

  /** k more calls are under way on r. */
  ghost predicate Loaded<R>(s: Pool<R>, t: Pool<R>, r: R, k: nat)
    requires r in s.objs
  {
    t == s.(calls := t.calls, objs := s.objs[r := s.objs[r].(streamsCnt := s.objs[r].streamsCnt + k)])
  }

  lemma {:induction false} Load<R>(run: Run<R>, r: R, k: nat) returns (longer: Run<R>)
    requires run.Legal() && run.Final().cfg.Some? && r in run.Final().objs
    ensures Extends(run, longer) && Loaded(run.Final(), longer.Final(), r, k)
    decreases k
  {
    hide Loaded, Possible, Perform;
    longer := run;
    if k > 0 {
      var before := Load(run, r, k - 1);
      var id := FreshNumber(before.Final().calls.Keys);
      LoadsOneMore(run.Final(), before.Final(), r, k - 1, id);
      longer := ThenExtends(before, DoOpen(id, r));
    } else {
      LoadsNone(run.Final(), r);
    }
  }

  lemma LoadsNone<R>(s: Pool<R>, r: R)
    requires r in s.objs
    ensures Loaded(s, s, r, 0)
  {
    assert s.objs == s.objs[r := s.objs[r]];
  }

  lemma LoadsOneMore<R>(s: Pool<R>, m: Pool<R>, r: R, k: nat, id: nat)
    requires s.cfg.Some? && r in s.objs && Loaded(s, m, r, k) && id !in m.calls
    ensures Possible(m, DoOpen(id, r)) && Loaded(s, Perform(m, DoOpen(id, r)), r, k + 1)
  {
  }

  /** A call on r has bound the key to its subconn. */
  ghost predicate Binds<R>(s: Pool<R>, t: Pool<R>, r: R, key: string)
    requires r in s.objs
  {
    && t == s.(affinityMap := s.affinityMap[key := s.objs[r].subConn], objs := t.objs)
    && t.objs.Keys == s.objs.Keys && t.objs[r].streamsCnt == s.objs[r].streamsCnt
  }

  lemma BindByCall<R>(run: Run<R>, r: R, key: string) returns (longer: Run<R>)
    requires run.Legal() && run.Final().cfg.Some? && r in run.Final().objs && key !in run.Final().affinityMap
    requires run.Final().objs[r].subConn in run.Final().scRefs && run.Final().scRefs[run.Final().objs[r].subConn] == r
    requires run.Final().issued + 1 < TWO_64
    ensures Extends(run, longer) && Binds(run.Final(), longer.Final(), r, key)
  {
    var s := run.Final();
    var id := FreshNumber(s.calls.Keys);
    var sc := s.objs[r].subConn;
    CallIsAnswered(s, id, r, key);
    hide Possible, Perform, Binds;
    longer := ThenExtends(run, DoOpen(id, r));
    longer := ThenExtends(longer, DoClose(id, false, true));
    longer := ThenExtends(longer, DoBind(key, sc));
  }

  lemma CallIsAnswered<R>(s: Pool<R>, id: nat, r: R, key: string)
    requires s.cfg.Some? && r in s.objs && id !in s.calls && key !in s.affinityMap && s.issued + 1 < TWO_64
    requires s.objs[r].subConn in s.scRefs && s.scRefs[s.objs[r].subConn] == r
    ensures Possible(s, DoOpen(id, r))
    ensures var m := Perform(s, DoOpen(id, r));
      && Possible(m, DoClose(id, false, true))
      && var u := Perform(m, DoClose(id, false, true));
      && Possible(u, DoBind(key, s.objs[r].subConn))
      && Binds(s, Perform(u, DoBind(key, s.objs[r].subConn)), r, key)
  {
    var m := Open(s, id, r);
    CloseUndoesOpen(s, id, r);
    AnswerIsHeard(s, r, s.now);
    hide Open, Close, DetectUnresponsive, GotResp;
  }

  lemma CloseUndoesOpen<R>(s: Pool<R>, id: nat, r: R)
    requires r in s.objs && id !in s.calls
    ensures var m := Open(s, id, r);
      m.cfg == s.cfg && m.issued == s.issued && id in m.calls && m.calls[id] == Call(r, s.now) && r in m.objs
    ensures Close(Open(s, id, r), id) == s
  {
    var m := Open(s, id, r);
    assert Close(m, id).calls == s.calls && Close(m, id).objs == s.objs;
  }

  lemma AnswerIsHeard<R>(s: Pool<R>, r: R, started: int)
    requires r in s.objs && s.cfg.Some?
    ensures var t := DetectUnresponsive(s, r, started, false, true);
      && t == s.(objs := t.objs) && t.objs.Keys == s.objs.Keys && t.objs[r].streamsCnt == s.objs[r].streamsCnt
      && forall q | q in s.objs :: t.objs[q].subConn == s.objs[q].subConn
  {
    hide Refresh, Unresponsive;
  }

  // ----- growing

  lemma Grow(run: Run<nat>, refs: seq<nat>) returns (longer: Run<nat>, r: nat)
    requires run.Legal() && run.Final().cfg.Some? && |refs| > 0 && forall q | q in refs :: q in run.Final().objs
    requires LeastBusy(run.Final(), refs) == Busy && !SomePending(run.Final()) && run.Final().issued + 1 < TWO_64
    ensures r !in run.Final().objs
    ensures Extends(run, longer) && longer.Final() == AddSubConn(run.Final(), r)
  {
    var s := run.Final();
    var id := FreshNumber(s.admitted);
    r := FreshNumber(s.objs.Keys);
    assert s.(admitted := s.admitted + {id} - {id}) == s;
    GrowthIsPossible(s, id, refs, r);
    hide Possible, Perform, LeastBusy, SomePending;
    longer := ThenExtends(run, DoAdmit(id, refs));
    longer := ThenExtends(longer, DoGrow(id, r, true));
  }

  lemma GrowthIsPossible<R>(s: Pool<R>, id: nat, refs: seq<R>, r: R)
    requires s.cfg.Some? && |refs| > 0 && (forall q | q in refs :: q in s.objs) && LeastBusy(s, refs) == Busy
    requires !SomePending(s) && s.issued + 1 < TWO_64 && id !in s.admitted && r !in s.objs
    ensures Possible(s, DoAdmit(id, refs)) && Possible(Perform(s, DoAdmit(id, refs)), DoGrow(id, r, true))
    ensures Perform(Perform(s, DoAdmit(id, refs)), DoGrow(id, r, true)) == AddSubConn(s, r)
  {
    assert s.admitted + {id} - {id} == s.admitted;
    hide LeastBusy;
  }

  // ----- filling up

  /** sc is ready, and its ref carries at least m calls. */
  predicate Served<R(==)>(s: Pool<R>, sc: SubConn, m: nat) {
    && sc in s.scStates && s.scStates[sc] == Ready
    && sc in s.scRefs && s.scRefs[sc] in s.objs && s.objs[s.scRefs[sc]].streamsCnt >= m
  }

  /** No subconn has come or gone, no key was bound, and no call has ended. */
  ghost predicate Kept<R>(s: Pool<R>, t: Pool<R>) {
    && t.scRefs == s.scRefs && t.scStates.Keys == s.scStates.Keys && t.objs.Keys == s.objs.Keys && t.issued == s.issued
    && t.cfg == s.cfg && t.affinityMap == s.affinityMap && t.fallbackMap.Keys <= s.fallbackMap.Keys
    && forall r | r in s.objs :: s.objs[r].streamsCnt <= t.objs[r].streamsCnt
  }

  ghost function Unserved<R>(s: Pool<R>, m: nat): set<SubConn> {
    set sc | sc in s.scStates && !Served(s, sc, m)
  }

  lemma Serve<R>(run: Run<R>, sc: SubConn, m: nat) returns (longer: Run<R>)
    requires run.Legal() && run.Final().cfg.Some? && sc in run.Final().scStates
    ensures Extends(run, longer) && Kept(run.Final(), longer.Final())
    ensures Unserved(longer.Final(), m) <= Unserved(run.Final(), m) - {sc}
  {
    var s := run.Final();
    RunIsSteady(run);
    LiveIsNotPending(s, sc);
    hide Steady;
    longer := Change(run, sc, Ready);
    var u := longer.Final();
    var r := s.scRefs[sc];
    var k := if s.objs[r].streamsCnt < m then m - s.objs[r].streamsCnt else 0;
    assert u.cfg == s.cfg && u.objs == s.objs;
    hide Changed, Loaded;
    longer := Load(longer, r, k);
    ServeIs(s, u, longer.Final(), sc, m, k);
  }

  lemma ServeIs<R>(s: Pool<R>, u: Pool<R>, t: Pool<R>, sc: SubConn, m: nat, k: nat)
    requires sc in s.scStates && sc in s.scRefs && s.scRefs[sc] in s.objs && Changed(s, u, sc, Ready)
    requires Loaded(u, t, s.scRefs[sc], k) && s.objs[s.scRefs[sc]].streamsCnt + k >= m
    ensures Kept(s, t) && Unserved(t, m) <= Unserved(s, m) - {sc}
  {
  }

  lemma {:induction false} ServeAll<R>(run: Run<R>, m: nat) returns (longer: Run<R>)
    requires run.Legal() && run.Final().cfg.Some?
    ensures Extends(run, longer) && Kept(run.Final(), longer.Final()) && Unserved(longer.Final(), m) == {}
    decreases |Unserved(run.Final(), m)|
  {
    hide Served, Unserved;
    longer := run;
    if sc :| sc in Unserved(run.Final(), m) {
      UnservedIsLive(run.Final(), sc, m);
      var better := Serve(run, sc, m);
      SubsetSize(Unserved(better.Final(), m), Unserved(run.Final(), m) - {sc});
      longer := ServeAll(better, m);
    }
  }

  lemma UnservedIsLive<R>(s: Pool<R>, sc: SubConn, m: nat)
    requires sc in Unserved(s, m)
    ensures sc in s.scStates
  {
  }

  /** All subconns are ready, and at the watermark. */
  ghost predicate Full<R>(s: Pool<R>, m: nat) {
    && s.scRefs != map[] && Unserved(s, m) == {}
    && s.cfg.Some? && ToInt32(s.cfg.value.watermark) <= m
  }

  /** So all refs of the picker carry m calls, and no subconn is pending. */
  lemma FullPicker<R>(s: Pool<R>, m: nat)
    requires Steady(s) && Full(s, m)
    ensures s.picker.Gcp? && s.picker.refs != [] && KnownPicker(s) && !SomePending(s)
    ensures forall r | r in s.picker.refs :: s.objs[r].streamsCnt >= m
    ensures forall r | r in s.scRefs.Values :: r in s.objs && s.objs[r].streamsCnt >= m
  {
    hide Handles, Pending, Listed, Counted;
    forall sc | sc in s.scStates ensures Served(s, sc, m) {
      assert sc !in Unserved(s, m);
    }
    var sc :| sc in s.scRefs;
    assert sc in Conns(s.scStates, Ready);
    assert s.scRefs[sc] in s.ReadyRefs();
    PickerIsKnown(s);
    forall r | r in s.picker.refs ensures s.objs[r].streamsCnt >= m {
      assert r in s.ReadyRefs();
    }
  }

  lemma FullIsBusy<R>(s: Pool<R>, m: nat)
    requires Steady(s) && Full(s, m) && |s.scRefs| < s.cfg.value.maxSize
    ensures s.picker.Gcp? && s.picker.refs != [] && KnownPicker(s) && !SomePending(s)
    ensures LeastBusy(s, s.picker.refs) == Busy
  {
    FullPicker(s, m);
    hide Steady, LeastBusy, ToInt32;
    BusyIff(s, s.picker.refs);
  }

  lemma GrownByOne(s: Pool<nat>, r: nat)
    requires Steady(s) && r !in s.objs
    ensures |AddSubConn(s, r).scRefs| == |s.scRefs| + 1
  {
    hide Pending, Listed, Counted, UpToDate;
    AddedSize(s.scRefs, s.issued, r);
  }

  /** A pool that has never lost a subconn can be filled up to its limit, with m calls on each subconn. */
  lemma {:induction false} FillUp(run: Run<nat>, m: nat) returns (longer: Run<nat>)
    requires run.Legal() && Full(run.Final(), m) && run.Final().issued == |run.Final().scRefs| < TWO_32
    ensures Extends(run, longer) && Full(longer.Final(), m) && longer.Final().cfg == run.Final().cfg
    ensures |longer.Final().scRefs| >= run.Final().cfg.value.maxSize
    decreases run.Final().cfg.value.maxSize - |run.Final().scRefs|
  {
    hide Steady, Unserved, SomePending, LeastBusy, ToInt32, Served, Run.Final, Run.Legal;
    longer := run;
    var s := run.Final();
    if |s.scRefs| < s.cfg.value.maxSize {
      RunIsSteady(run);
      FullIsBusy(s, m);
      var r;
      longer, r := Grow(run, s.picker.refs);
      GrownByOne(s, r);
      longer := ServeAll(longer, m);
      longer := FillUp(longer, m);
    }
  }

  lemma StartedSizes(c: Config, n: nat)
    ensures |Started(c, n).scRefs| == n && Started(c, n).issued == n && Started(c, n).cfg == Some(WithDefaults(c))
    ensures forall sc: SubConn :: sc in Started(c, n).scRefs <==> sc < n
  {
    BelowSize(n);
    assert Ids(n).Keys == Below(n);
    assert |Ids(n)| == |Ids(n).Keys|;
  }

  /** For every configuration, and for any m that is no less than the watermark. */
  lemma FullRun(c: Config, m: nat) returns (run: Run<nat>)
    requires ToInt32(WithDefaults(c).watermark) <= m
    ensures run.Legal() && Asked(run) == Some(c) && Full(run.Final(), m)
    ensures run.Final().cfg == Some(WithDefaults(c)) && |run.Final().scRefs| >= WithDefaults(c).maxSize
  {
    var n := WithDefaults(c).minSize;
    StartedSizes(c, n);
    hide Started, Unserved, Run.Final, Run.Legal, ToInt32;
    run := StartRun(c);
    run := ServeAll(run, m);
    run := FillUp(run, m);
  }
}
