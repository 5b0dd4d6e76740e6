/** What each step does to the calls, the affinity counts, and the list of refs. */
module PoolEffects {
  import opened Options
  import opened PoolSpec
  import opened PoolIndex
  import opened PoolPublication
  import opened PoolRefs
  import opened PoolSize
  import opened PoolWait

  // ----- calls

  lemma {:induction false} AddAllEffects<R>(s: Pool<R>, news: seq<R>)
    ensures AddAll(s, news).calls == s.calls && s.scRefList <= AddAll(s, news).scRefList
    decreases |news|
  {
    if |news| > 0 {
      AddAllEffects(s, news[..|news| - 1]);
    }
  }

  lemma NewSubConnEffects<R>(s: Pool<R>, r: R, ok: bool)
    ensures NewSubConn(s, r, ok).calls == s.calls && s.scRefList <= NewSubConn(s, r, ok).scRefList
  {
    hide SomePending;
  }

  lemma PlainEffects<R>(s: Pool<R>, action: Action<R>)
    requires Possible(s, action)
    requires action.DoAdmit? || action.DoLookup? || action.DoTicket? || action.DoOpen? || action.DoBind?
      || action.DoUnbind?
    ensures var t := Perform(s, action);
      && t.calls == (if action.DoOpen? then s.calls[action.id := Call(action.ref, s.now)] else s.calls)
      && t.scRefList == s.scRefList
  {
    hide LeastBusy, GetReadySubConnRef, KnownPicker;
  }

  lemma TransitionOnList<R>(s: Pool<R>, sc: SubConn, st: ConnState, order: seq<R>)
    requires sc in s.scStates
    ensures Transition(s, sc, st, order).scRefList == s.scRefList
  {
    hide UpdatedFallback, Recorded, Evaluated, MustPublish;
  }

  lemma ChangeOnList<R>(s: Pool<R>, sc: SubConn, st: ConnState, order: seq<R>)
    requires CanChange(s, sc, st, order)
    ensures UpdateSubConnState(s, sc, st, order).scRefList == s.scRefList
  {
    hide Lists, Transition, Replaced;
    if sc in s.refreshingScRefs && st == Ready {
      TransitionOnList(Replace(s, sc), sc, st, order);
    } else if sc !in s.refreshingScRefs && sc in s.scStates {
      TransitionOnList(s, sc, st, order);
    }
  }

  lemma CloseOnList<R>(s: Pool<R>, id: nat, timedOut: bool, ok: bool)
    requires s.cfg.Some? && id in s.calls && s.calls[id].ref in s.objs
    ensures DetectUnresponsive(Close(s, id), s.calls[id].ref, s.calls[id].started, timedOut, ok).scRefList
      == s.scRefList
  {
    hide Unresponsive, DetectUnresponsive, GotResp, CountedTimeout;
    var ref, refreshes := DetectShape(Close(s, id), s.calls[id].ref, s.calls[id].started, timedOut, ok);
  }

  /** A call begins with DoOpen, at that time, and ends with DoClose; the list of refs only grows at its end. */
  lemma ActionEffects<R>(s: Pool<R>, action: Action<R>)
    requires Possible(s, action)
    ensures Perform(s, action).calls ==
      if action.DoOpen? then s.calls[action.id := Call(action.ref, s.now)]
      else if action.DoClose? then s.calls - {action.id}
      else s.calls
    ensures s.scRefList <= Perform(s, action).scRefList
  {
    hide UpdateSubConnState, DetectUnresponsive, NewSubConn, AddAll, LeastBusy, GetReadySubConnRef, Lists, Unresponsive,
      Distinct, WithDefaults, KnownPicker, CanChange, Open, Bind, Unbind, AfterLookup, Close;
    match action {
      case DoConfigure(c, news) => AddAllEffects(s.(cfg := Some(WithDefaults(c))), news);
      case DoGrowFirst(r, ok) => NewSubConnEffects(s, r, ok);
      case DoGrow(id, r, ok) => NewSubConnEffects(s.(admitted := s.admitted - {id}), r, ok);
      case DoStateChange(sc, st, order) =>
        ChangeOnRefs(s, sc, st, order);
        ChangeOnList(s, sc, st, order);
      case DoClose(id, timedOut, ok) =>
        CloseOnRefs(s, id, timedOut, ok);
        CloseOnList(s, id, timedOut, ok);
      case _ => PlainEffects(s, action);
    }
  }

  /** Step i of the run began this call, and it has not ended since. */
  ghost predicate Began<R>(run: Run<R>, i: nat, id: nat, c: Call<R>) {
    && i < |run.steps| && run.steps[i] == Step(DoOpen(id, c.ref), c.started)
    && forall j | i < j < |run.steps| :: !(run.steps[j].action.DoClose? && run.steps[j].action.id == id)
  }

  /** Every call under way was begun by a pick, on its ref and at its start, and its Done has not run. */
  lemma {:induction false} CallsBegan<R>(run: Run<R>, id: nat)
    requires run.Legal() && id in run.Final().calls
    ensures exists i :: Began(run, i, id, run.Final().calls[id])
    decreases |run.steps|
  {
    hide Possible, Perform;
    if |run.steps| > 0 {
      var n := |run.steps| - 1;
      var step := run.steps[n];
      ActionEffects(Tick(run.Front().Final(), step.at), step.action);
      if step.action.DoOpen? && step.action.id == id {
        assert Began(run, n, id, run.Final().calls[id]);
      } else {
        CallsBegan(run.Front(), id);
        var i :| Began(run.Front(), i, id, run.Final().calls[id]);
        assert Began(run, i, id, run.Final().calls[id]);
      }
    }
  }

  /**
   A ref keeps its place in the list, and so the turns that stand for it, from any state of a run to any later one.
   */
  lemma {:induction false} ListOnlyGrows<R>(run: Run<R>, m: nat, n: nat)
    requires run.Legal() && m <= n <= |run.steps|
    ensures StateAt(run, m).scRefList <= StateAt(run, n).scRefList
    decreases n
  {
    hide StateAt, Possible, Perform, Steady;
    if m < n {
      ListOnlyGrows(run, m, n - 1);
      StateAfter(run, n - 1);
      ActionEffects(Tick(StateAt(run, n - 1), run.steps[n - 1].at), run.steps[n - 1].action);
    }
  }

  // ----- growth

  /** A pick's growth adds a subconn exactly if none is idle or connecting and creation succeeds. */
  lemma GrowsIff<R>(run: Run<R>, id: nat, r: R, ok: bool)
    requires run.Legal() && Possible(run.Final(), DoGrow(id, r, ok))
    ensures var s, t := run.Final(), Perform(run.Final(), DoGrow(id, r, ok));
      var grows := ok && forall sc | sc in s.scStates :: s.scStates[sc] in {Ready, TransientFailure};
      && |t.scRefs| == |s.scRefs| + (if grows then 1 else 0)
      && (grows ==> s.issued in t.scRefs && t.scRefs[s.issued] == r && t.scStates[s.issued] == Idle)
      && (!grows ==> t.scStates == s.scStates && t.objs == s.objs)
  {
    RunIsSteady(run);
    var s := run.Final();
    GrowsOrNot(s, id, r, ok);
  }

  lemma GrowsOrNot<R>(s: Pool<R>, id: nat, r: R, ok: bool)
    requires Steady(s) && Possible(s, DoGrow(id, r, ok))
    ensures var t := Perform(s, DoGrow(id, r, ok));
      var grows := ok && forall sc | sc in s.scStates :: s.scStates[sc] in {Ready, TransientFailure};
      && |t.scRefs| == |s.scRefs| + (if grows then 1 else 0)
      && (grows ==> s.issued in t.scRefs && t.scRefs[s.issued] == r && t.scStates[s.issued] == Idle)
      && (!grows ==> t.scStates == s.scStates && t.objs == s.objs)
  {
    hide Listed, Pending, Counted, UpToDate;
    AddedSize(s.scRefs, s.issued, r);
  }

  // ----- affinity counts

  /** A bind of a live subconn counts for its ref, the unbinding of a bound key counts back, and nothing else does. */
  lemma ActionOnAffinity<R>(s: Pool<R>, action: Action<R>, r: R)
    requires Possible(s, action) && r in s.objs
    ensures r in Perform(s, action).objs
    ensures Perform(s, action).objs[r].affinityCnt == s.objs[r].affinityCnt
      + (if action.DoBind? && s.scRefs[action.sc] == r then 1 else 0)
      - (if action.DoUnbind? && action.key in s.affinityMap && s.scRefs[s.affinityMap[action.key]] == r then 1 else 0)
  {
    hide NewSubConn, DetectUnresponsive, UpdateSubConnState, LeastBusy, GetReadySubConnRef, KnownPicker, Lists,
      Distinct,
      WithDefaults, AddAll, SomePending, Open, AfterLookup, Close, CanChange, Unresponsive;
    match action {
      case DoConfigure(c, news) => AddAllGrows(s.(cfg := Some(WithDefaults(c))), news);
      case DoGrowFirst(q, ok) => NewSubConnOnRef(s, q, ok, r);
      case DoGrow(id, q, ok) => NewSubConnOnRef(s.(admitted := s.admitted - {id}), q, ok, r);
      case DoStateChange(sc, st, order) => ChangeOnRefs(s, sc, st, order);
      case DoClose(id, timedOut, ok) => CloseOnRefs(s, id, timedOut, ok);
      case DoLookup(key) => LookupOnObjs(s, key);
      case DoOpen(id, q) => OpenOnAffinity(s, id, q, r);
      case _ =>
    }
  }

  lemma LookupOnObjs<R>(s: Pool<R>, key: string)
    requires s.cfg.Some? && KnownPicker(s)
    ensures AfterLookup(s, key).objs == s.objs
  {
    hide GetReadySubConnRef;
  }

  lemma OpenOnAffinity<R>(s: Pool<R>, id: nat, q: R, r: R)
    requires q in s.objs && r in s.objs
    ensures r in Open(s, id, q).objs && Open(s, id, q).objs[r].affinityCnt == s.objs[r].affinityCnt
  {
  }
}
