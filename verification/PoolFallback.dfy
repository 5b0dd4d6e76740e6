/** Lookups of bound keys: the bound ref, a ready fallback, or nothing; and when a lookup fails altogether. */
module PoolFallback {
  import opened Options
  import opened PoolSpec
  import opened PoolIndex
  import opened PoolPublication

  /** Fallback targets were in use when they were chosen; those that still are live are ready. */
  ghost predicate FallbackReady<R>(s: Pool<R>) {
    forall k | k in s.fallbackMap ::
      var sc := s.fallbackMap[k];
      && sc in s.owner && s.owner[sc] in s.objs && sc <= s.objs[s.owner[sc]].subConn
      && (sc in s.scStates ==> s.scStates[sc] == Ready)
  }

  predicate DetectionOff<R>(s: Pool<R>) {
    s.cfg.None? || !s.cfg.value.Detects()
  }

  /** Without detection nothing is ever replaced, so fallback targets stay live. */
  ghost predicate Unreplaced<R>(s: Pool<R>) {
    DetectionOff(s) ==>
      s.refreshingScRefs == map[] && forall k | k in s.fallbackMap :: s.fallbackMap[k] in s.scStates
  }

  ghost predicate FallbackOk<R>(s: Pool<R>) {
    FallbackReady(s) && Unreplaced(s)
  }

  /** The mapping and the states are as they were, except for new handles. */
  ghost predicate SameFallback<R>(s: Pool<R>, t: Pool<R>) {
    && t.fallbackMap == s.fallbackMap && s.objs.Keys <= t.objs.Keys
    && (forall sc | sc in s.owner :: sc in t.owner && t.owner[sc] == s.owner[sc])
    && (forall r | r in s.objs :: t.objs[r].subConn == s.objs[r].subConn)
    && s.scStates.Keys <= t.scStates.Keys
    && (forall sc | sc in t.scStates :: if sc in s.scStates then t.scStates[sc] == s.scStates[sc] else sc !in s.owner)
    && (DetectionOff(t) ==> DetectionOff(s) && t.refreshingScRefs == s.refreshingScRefs)
  }

  lemma SameFallbackOk<R>(s: Pool<R>, t: Pool<R>)
    requires FallbackOk(s) && SameFallback(s, t)
    ensures FallbackOk(t)
  {
  }

  lemma EnterKeepsFallback<R>(s: Pool<R>, sc: SubConn, st: ConnState)
    requires FallbackOk(s) && sc in s.scStates
    ensures FallbackOk(Entered(s, sc, st))
  {
    hide Recorded, Evaluated;
  }

  lemma ReplaceKeepsFallback<R>(s: Pool<R>, sc: SubConn)
    requires Pending(s) && FallbackOk(s) && sc in s.refreshingScRefs && s.refreshingScRefs[sc] in s.objs
    ensures FallbackOk(Replace(s, sc))
  {
  }

  lemma TransitionKeepsFallback<R>(s: Pool<R>, sc: SubConn, st: ConnState, order: seq<R>)
    requires FallbackOk(s) && sc in s.scStates
    ensures FallbackOk(Transition(s, sc, st, order))
  {
    hide MustPublish, Entered, FallbackOk;
    EnterKeepsFallback(s, sc, st);
    var e := Entered(s, sc, st);
    SameFallbackOk(e, Regenerated(e, order));
  }

  lemma ChangeKeepsFallback<R>(s: Pool<R>, sc: SubConn, st: ConnState, order: seq<R>)
    requires Indexed(s) && FallbackOk(s) && CanChange(s, sc, st, order)
    ensures FallbackOk(UpdateSubConnState(s, sc, st, order))
  {
    hide Live, Handles, Listed, Pending, Lists, Transition, Replace, FallbackOk;
    if sc in s.refreshingScRefs && st == Ready {
      ReplaceKeepsIndex(s, sc);
      ReplaceKeepsFallback(s, sc);
      TransitionKeepsFallback(Replace(s, sc), sc, st, order);
    } else if sc !in s.refreshingScRefs && sc in s.scStates {
      TransitionKeepsFallback(s, sc, st, order);
    }
  }

  lemma AddKeepsFallback<R>(s: Pool<R>, r: R)
    requires Indexed(s) && FallbackOk(s) && r !in s.objs
    ensures FallbackOk(AddSubConn(s, r))
  {
    hide FallbackOk, Live, Pending, Listed;
    HandlesAreFew(s);
    SameFallbackOk(s, AddSubConn(s, r));
  }

  lemma {:induction false} AddAllKeepsFallback<R>(s: Pool<R>, news: seq<R>)
    requires Indexed(s) && FallbackOk(s) && Distinct(news) && forall r | r in news :: r !in s.objs
    ensures FallbackOk(AddAll(s, news))
    decreases |news|
  {
    if |news| > 0 {
      hide FallbackOk, Indexed, AddSubConn;
      var n := |news| - 1;
      AddAllKeepsFallback(s, news[..n]);
      AddAllKeepsIndex(s, news[..n]);
      AddKeepsFallback(AddAll(s, news[..n]), news[n]);
    }
  }

  lemma NewSubConnKeepsFallback<R>(s: Pool<R>, r: R, ok: bool)
    requires Indexed(s) && FallbackOk(s) && r !in s.objs
    ensures FallbackOk(NewSubConn(s, r, ok))
  {
    hide FallbackOk, SomePending, AddSubConn, Indexed;
    AddKeepsFallback(s, r);
  }

  lemma ConfigureKeepsFallback<R>(s: Pool<R>, c: Config, news: seq<R>)
    requires s.cfg.None? && Indexed(s) && FallbackOk(s) && Distinct(news) && forall r | r in news :: r !in s.objs
    ensures FallbackOk(Configure(s, c, news))
  {
    hide FallbackOk, Indexed, AddAll, Distinct, WithDefaults;
    var t := s.(cfg := Some(WithDefaults(c)));
    SameFallbackOk(s, t);
    SameIndexKeeps(s, t);
    AddAllKeepsFallback(t, news);
  }

  lemma CloseKeepsFallback<R>(s: Pool<R>, id: nat, timedOut: bool, ok: bool)
    requires Handles(s) && FallbackOk(s) && s.cfg.Some? && id in s.calls && s.calls[id].ref in s.objs
    ensures FallbackOk(DetectUnresponsive(Close(s, id), s.calls[id].ref, s.calls[id].started, timedOut, ok))
  {
    var c := Close(s, id);
    assert SameFallback(s, c);
    hide Close, FallbackOk;
    SameFallbackOk(s, c);
    DetectKeepsFallback(c, s.calls[id].ref, s.calls[id].started, timedOut, ok);
  }

  lemma DetectKeepsFallback<R>(s: Pool<R>, r: R, started: int, timedOut: bool, ok: bool)
    requires (forall sc | sc in s.owner :: sc < s.issued) && FallbackOk(s) && r in s.objs && s.cfg.Some?
    ensures FallbackOk(DetectUnresponsive(s, r, started, timedOut, ok))
  {
    hide DetectUnresponsive, FallbackOk, Unresponsive;
    var t := DetectUnresponsive(s, r, started, timedOut, ok);
    var ref, refreshes := DetectShape(s, r, started, timedOut, ok);
    assert SameFallback(s, t);
    SameFallbackOk(s, t);
  }

  // ----- lookups

  lemma PickerIsReady<R>(s: Pool<R>, r: R)
    requires Indexed(s) && UpToDate(s) && s.picker.Gcp? && r in s.picker.refs
    ensures r in s.objs && s.StateOf(s.objs[r].subConn) == Ready && s.objs[r].subConn in s.scRefs
    ensures s.scRefs[s.objs[r].subConn] == r
  {
    hide Handles, Pending, Listed;
    assert r in s.ReadyRefs();
  }

  lemma LookupKeepsFallback<R>(s: Pool<R>, key: string)
    requires Steady(s) && FallbackOk(s) && s.cfg.Some? && KnownPicker(s)
    ensures FallbackOk(AfterLookup(s, key))
  {
    var l := GetReadySubConnRef(s, key);
    if l.NewFallback? {
      PickerIsReady(s, l.fallback);
      hide UpToDate, Counted, Pending, Live, Listed, GetReadySubConnRef;
    }
  }

  lemma CountersKeepFallback<R>(s: Pool<R>, action: Action<R>)
    requires FallbackOk(s) && Possible(s, action)
    requires action.DoAdmit? || action.DoTicket? || action.DoOpen? || action.DoBind? || action.DoUnbind?
    ensures FallbackOk(Perform(s, action))
  {
    hide FallbackOk, LeastBusy;
    SameFallbackOk(s, Perform(s, action));
  }

  lemma ActionKeepsFallback<R>(s: Pool<R>, action: Action<R>)
    requires Steady(s) && FallbackOk(s) && Possible(s, action)
    ensures FallbackOk(Perform(s, action))
  {
    hide FallbackOk, UpdateSubConnState, DetectUnresponsive, NewSubConn, Configure, LeastBusy, GetReadySubConnRef,
      Lists, CanChange, Close, Open, Bind, Unbind, Distinct, WithDefaults, KnownPicker, Live, Pending, Listed,
      AfterLookup, Counted, UpToDate;
    match action {
      case DoConfigure(c, news) => ConfigureKeepsFallback(s, c, news);
      case DoGrowFirst(r, ok) => NewSubConnKeepsFallback(s, r, ok);
      case DoStateChange(sc, st, order) => ChangeKeepsFallback(s, sc, st, order);
      case DoGrow(id, r, ok) =>
        var t := s.(admitted := s.admitted - {id});
        SameFallbackOk(s, t);
        SideFieldsKeepIndex(s, 0, 0, s.admitted - {id});
        NewSubConnKeepsFallback(t, r, ok);
      case DoLookup(key) => LookupKeepsFallback(s, key);
      case DoClose(id, timedOut, ok) => CloseKeepsFallback(s, id, timedOut, ok);
      case _ => CountersKeepFallback(s, action);
    }
  }

  lemma {:induction false} RunKeepsFallback<R>(run: Run<R>)
    requires run.Legal()
    ensures FallbackOk(run.Final())
    decreases |run.steps|
  {
    if |run.steps| > 0 {
      hide FallbackOk, Perform, Possible, Steady;
      var step := run.steps[|run.steps| - 1];
      var was := run.Front().Final();
      RunKeepsFallback(run.Front());
      RunIsSteady(run.Front());
      StepKeepsSteady(was, step);
      SameFallbackOk(was, Tick(was, step.at));
      ActionKeepsFallback(Tick(was, step.at), step.action);
    } else {
      assert run.Final() == Build(run.start);
    }
  }

  // ----- the promises

  /** With unresponsive detection off, every fallback target is a live, ready subconn. */
  lemma FallbackTargetsAreReady<R>(run: Run<R>, key: string)
    requires run.Legal() && key in run.Final().fallbackMap
    ensures var s := run.Final();
      var sc := s.fallbackMap[key];
      && (DetectionOff(s) ==> sc in s.scStates)
      && (sc in s.scStates ==> s.scStates[sc] == Ready && sc in s.scRefs)
  {
    hide Enabled, Apply;
    RunKeepsFallback(run);
    RunIsSteady(run);
    hide Counted, UpToDate, Handles, Pending, Listed;
  }

  lemma NoneReadyIff<R>(s: Pool<R>)
    requires Steady(s)
    ensures Conns(s.scStates, Ready) == {} <==> !s.picker.Gcp? || s.picker.refs == []
  {
    hide Handles, Pending, Listed, Counted;
    if sc :| sc in Conns(s.scStates, Ready) {
      assert s.scRefs[sc] in s.ReadyRefs();
      assert Aggregate(s.scStates) == Ready;
    }
    if s.picker.Gcp? && s.picker.refs != [] {
      var r := s.picker.refs[0];
      assert r in s.ReadyRefs();
      var sc :| sc in s.scStates && s.scStates[sc] == Ready && sc in s.scRefs && s.scRefs[sc] == r;
      assert sc in Conns(s.scStates, Ready);
    }
  }

  lemma LeastIsLeast<R>(s: Pool<R>)
    requires Steady(s) && s.picker.Gcp? && s.picker.refs != [] && KnownPicker(s)
    ensures var counts := Streams(s, s.picker.refs);
      var k := LeastIndex(counts);
      && s.picker.refs[k] in s.ReadyRefs() && s.objs[s.picker.refs[k]].streamsCnt == counts[k]
      && forall r | r in s.ReadyRefs() :: r in s.objs && counts[k] <= s.objs[r].streamsCnt
  {
    hide Indexed, Counted;
    var counts := Streams(s, s.picker.refs);
    var k := LeastIndex(counts);
    assert s.picker.refs[k] in s.ReadyRefs();
    forall r | r in s.ReadyRefs() ensures r in s.objs && s.objs[r].streamsCnt >= counts[k] {
      var i :| 0 <= i < |s.picker.refs| && s.picker.refs[i] == r;
      assert counts[i] == s.objs[r].streamsCnt;
    }
  }

  ghost predicate IsLeastBusyReady<R>(s: Pool<R>, ref: R) {
    && ref in s.ReadyRefs() && ref in s.objs
    && forall r | r in s.ReadyRefs() :: r in s.objs && s.objs[ref].streamsCnt <= s.objs[r].streamsCnt
  }

  /**
   What a lookup of a key does in any reachable state.
   The bound ref is returned whenever it is ready. Otherwise, with fallback enabled, the lookup returns the
   mapped fallback if that is still live (as it always is without detection), or else takes a least busy
   ready ref; it panics exactly when none is ready, and deadlocks exactly when all of those are at the watermark.
   */
  lemma LookupOutcome<R>(run: Run<R>, key: string)
    requires run.Legal() && run.Final().cfg.Some?
    ensures var s := run.Final();
      && KnownPicker(s)
      && var l := GetReadySubConnRef(s, key);
      && (l == NotBound <==> key !in s.affinityMap)
      && (key in s.affinityMap ==>
            var sc := s.affinityMap[key];
            if s.StateOf(sc) == Ready then sc in s.scRefs && l == Found(s.scRefs[sc])
            else if !s.cfg.value.fallbackToReady then l == NotReady
            else if key in s.fallbackMap then
              if s.fallbackMap[key] in s.scRefs then l == Found(s.scRefs[s.fallbackMap[key]])
              else l == NotReady && !DetectionOff(s)
            else
              && (l == Panics <==> forall c | c in s.scStates :: s.scStates[c] != Ready)
              && (l == Deadlocks <==>
                    && (exists c :: c in s.scStates && s.scStates[c] == Ready)
                    && forall r | r in s.ReadyRefs() :: r in s.objs ==>
                         s.objs[r].streamsCnt >= ToInt32(s.cfg.value.watermark))
              && (l != Panics && l != Deadlocks ==> l.NewFallback? && IsLeastBusyReady(s, l.fallback)))
  {
    hide Enabled, Apply;
    RunKeepsFallback(run);
    RunIsSteady(run);
    var s := run.Final();
    PickerIsKnown(s);
    NoneReadyIff(s);
    assert (forall c | c in s.scStates :: s.scStates[c] != Ready) <==> Conns(s.scStates, Ready) == {} by {
      if c :| c in s.scStates && s.scStates[c] == Ready {
        assert c in Conns(s.scStates, Ready);
      }
    }
    if s.picker.Gcp? && s.picker.refs != [] {
      LeastIsLeast(s);
    }
    hide Counted, UpToDate, Handles, Pending, Listed, Conns, ToInt32, LeastIndex;
  }

  /** Whatever ref a lookup returns is ready. */
  lemma LookupIsReady<R>(run: Run<R>, key: string, r: R)
    requires run.Legal() && run.Final().cfg.Some? && KnownPicker(run.Final())
    requires GetReadySubConnRef(run.Final(), key) in {Found(r), NewFallback(r)}
    ensures r in run.Final().objs && run.Final().StateOf(run.Final().objs[r].subConn) == Ready
  {
    hide Enabled, Apply;
    RunKeepsFallback(run);
    RunIsSteady(run);
    var s := run.Final();
    if GetReadySubConnRef(s, key).NewFallback? {
      PickerIsReady(s, r);
    }
    hide Counted, UpToDate, Handles, Pending, Listed;
  }

  /**
   A fallback is stable: across a step after which its target is still ready and the bound subconn still
   is not, the key keeps its fallback.
   */
  lemma FallbackIsStable<R>(s: Pool<R>, step: Step<R>, key: string)
    requires Enabled(s, step) && key in s.fallbackMap
    requires Apply(s, step).StateOf(s.fallbackMap[key]) == Ready
    requires key in s.affinityMap ==> Apply(s, step).StateOf(s.affinityMap[key]) != Ready
    ensures key in Apply(s, step).fallbackMap && Apply(s, step).fallbackMap[key] == s.fallbackMap[key]
  {
    hide Perform, Possible;
    ActionKeepsMapping(Tick(s, step.at), step.action, key);
  }

  lemma ActionKeepsMapping<R>(s: Pool<R>, action: Action<R>, key: string)
    requires Possible(s, action) && key in s.fallbackMap
    requires Perform(s, action).StateOf(s.fallbackMap[key]) == Ready
    requires key in s.affinityMap ==> Perform(s, action).StateOf(s.affinityMap[key]) != Ready
    ensures key in Perform(s, action).fallbackMap && Perform(s, action).fallbackMap[key] == s.fallbackMap[key]
  {
    hide DetectUnresponsive, NewSubConn, LeastBusy, GetReadySubConnRef, Lists, UpdateSubConnState, AddAll, Open, Bind,
      Unbind, CanChange, Close, Distinct, WithDefaults, KnownPicker, AfterLookup;
    match action {
      case DoConfigure(c, news) => AddAllKeepsMapping(s.(cfg := Some(WithDefaults(c))), news);
      case DoStateChange(sc, st, order) => ChangeKeepsMapping(s, sc, st, order, key);
      case DoLookup(k) => LookupKeepsMapping(s, k, key);
      case DoGrow(id, r, ok) => NewSubConnKeepsMapping(s.(admitted := s.admitted - {id}), r, ok);
      case DoGrowFirst(r, ok) => NewSubConnKeepsMapping(s, r, ok);
      case DoClose(id, timedOut, ok) => CloseKeepsMapping(s, id, timedOut, ok);
      case _ => CountersKeepMapping(s, action);
    }
  }

  lemma CountersKeepMapping<R>(s: Pool<R>, action: Action<R>)
    requires Possible(s, action)
    requires action.DoAdmit? || action.DoTicket? || action.DoOpen? || action.DoBind? || action.DoUnbind?
    ensures Perform(s, action).fallbackMap == s.fallbackMap
  {
    hide LeastBusy;
  }

  lemma {:induction false} AddAllKeepsMapping<R>(s: Pool<R>, news: seq<R>)
    ensures AddAll(s, news).fallbackMap == s.fallbackMap
    decreases |news|
  {
    if |news| > 0 {
      AddAllKeepsMapping(s, news[..|news| - 1]);
    }
  }

  lemma NewSubConnKeepsMapping<R>(s: Pool<R>, r: R, ok: bool)
    ensures NewSubConn(s, r, ok).fallbackMap == s.fallbackMap
  {
    hide SomePending;
  }

  lemma LookupKeepsMapping<R>(s: Pool<R>, k: string, key: string)
    requires s.cfg.Some? && KnownPicker(s) && key in s.fallbackMap
    ensures key in AfterLookup(s, k).fallbackMap && AfterLookup(s, k).fallbackMap[key] == s.fallbackMap[key]
  {
  }

  lemma CloseKeepsMapping<R>(s: Pool<R>, id: nat, timedOut: bool, ok: bool)
    requires s.cfg.Some? && id in s.calls && s.calls[id].ref in s.objs
    ensures DetectUnresponsive(Close(s, id), s.calls[id].ref, s.calls[id].started, timedOut, ok).fallbackMap
              == s.fallbackMap
  {
    hide DetectUnresponsive, Unresponsive;
    var c := s.calls[id];
    var ref, refreshes := DetectShape(Close(s, id), c.ref, c.started, timedOut, ok);
  }

  lemma TransitionKeepsMapping<R>(s: Pool<R>, sc: SubConn, st: ConnState, order: seq<R>, key: string)
    requires sc in s.scStates && key in s.fallbackMap
    requires Transition(s, sc, st, order).StateOf(s.fallbackMap[key]) == Ready
    requires key in s.affinityMap ==> Transition(s, sc, st, order).StateOf(s.affinityMap[key]) != Ready
    ensures var t := Transition(s, sc, st, order);
      key in t.fallbackMap && t.fallbackMap[key] == s.fallbackMap[key]
  {
    hide Recorded, Evaluated, MustPublish;
  }

  lemma ChangeKeepsMapping<R>(s: Pool<R>, sc: SubConn, st: ConnState, order: seq<R>, key: string)
    requires CanChange(s, sc, st, order) && key in s.fallbackMap
    requires UpdateSubConnState(s, sc, st, order).StateOf(s.fallbackMap[key]) == Ready
    requires key in s.affinityMap ==> UpdateSubConnState(s, sc, st, order).StateOf(s.affinityMap[key]) != Ready
    ensures var t := UpdateSubConnState(s, sc, st, order);
      key in t.fallbackMap && t.fallbackMap[key] == s.fallbackMap[key]
  {
    hide Transition, Lists, Replaced;
    if sc in s.refreshingScRefs && st == Ready {
      TransitionKeepsMapping(Replace(s, sc), sc, st, order, key);
    } else if sc !in s.refreshingScRefs && sc in s.scStates {
      TransitionKeepsMapping(s, sc, st, order, key);
    }
  }
}
