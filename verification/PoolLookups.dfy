/** What lookups remember: a key keeps the fallback that was found for it. */
module PoolLookups {
  import opened Options
  import opened PoolSpec
  import opened PoolIndex
  import opened PoolPublication
  import opened PoolRefs
  import opened PoolCounters
  import opened PoolFallback
  import opened PoolWait

  // ----- handles belong to one ref for ever

  ghost predicate Owns<R>(s: Pool<R>, t: Pool<R>) {
    forall sc | sc in s.owner :: sc in t.owner && t.owner[sc] == s.owner[sc]
  }

  lemma {:induction false} AddAllOwns<R>(s: Pool<R>, news: seq<R>)
    requires Handles(s) && Distinct(news) && forall r | r in news :: r !in s.objs
    ensures Owns(s, AddAll(s, news))
    decreases |news|
  {
    if |news| > 0 {
      hide Handles;
      var n := |news| - 1;
      AddAllOwns(s, news[..n]);
      AddAllIssues(s, news[..n]);
    }
  }

  lemma {:induction false} AddAllIssues<R>(s: Pool<R>, news: seq<R>)
    requires Handles(s)
    ensures AddAll(s, news).issued == s.issued + |news| && forall sc | sc in AddAll(s,
          news).owner :: sc < s.issued + |news|
    decreases |news|
  {
    if |news| > 0 {
      AddAllIssues(s, news[..|news| - 1]);
    }
  }

  lemma NewSubConnOwns<R>(s: Pool<R>, r: R, ok: bool)
    requires Handles(s)
    ensures Owns(s, NewSubConn(s, r, ok))
  {
    hide SomePending;
  }

  lemma CloseOwns<R>(s: Pool<R>, id: nat, timedOut: bool, ok: bool)
    requires Handles(s) && s.cfg.Some? && id in s.calls && s.calls[id].ref in s.objs
    ensures Owns(s, DetectUnresponsive(Close(s, id), s.calls[id].ref, s.calls[id].started, timedOut, ok))
  {
    hide DetectUnresponsive, Unresponsive, GotResp, CountedTimeout;
    var ref, refreshes := DetectShape(Close(s, id), s.calls[id].ref, s.calls[id].started, timedOut, ok);
  }

  lemma PlainOwns<R>(s: Pool<R>, action: Action<R>)
    requires Possible(s, action)
    requires action.DoAdmit? || action.DoLookup? || action.DoTicket? || action.DoOpen? || action.DoBind?
      || action.DoUnbind?
    ensures Perform(s, action).owner == s.owner
  {
    hide LeastBusy, GetReadySubConnRef, KnownPicker;
  }

  lemma ActionOwns<R>(s: Pool<R>, action: Action<R>)
    requires Handles(s) && Possible(s, action)
    ensures Owns(s, Perform(s, action))
  {
    hide Handles, UpdateSubConnState, DetectUnresponsive, NewSubConn, AddAll, LeastBusy, GetReadySubConnRef, Lists,
      Distinct, WithDefaults, KnownPicker, CanChange, Open, Bind, Unbind, AfterLookup, Close;
    match action {
      case DoConfigure(c, news) => ConfigureOwns(s, c, news);
      case DoGrowFirst(r, ok) => NewSubConnOwns(s, r, ok);
      case DoGrow(id, r, ok) => GrowOwns(s, s.admitted - {id}, r, ok);
      case DoStateChange(sc, st, order) => ChangeOnRefs(s, sc, st, order);
      case DoClose(id, timedOut, ok) => CloseOwns(s, id, timedOut, ok);
      case _ => PlainOwns(s, action);
    }
  }

  lemma ConfigureOwns<R>(s: Pool<R>, c: Config, news: seq<R>)
    requires Handles(s) && Distinct(news) && forall r | r in news :: r !in s.objs
    ensures Owns(s, Configure(s, c, news))
  {
    AddAllOwns(s.(cfg := Some(WithDefaults(c))), news);
  }

  lemma GrowOwns<R>(s: Pool<R>, admitted: set<nat>, r: R, ok: bool)
    requires Handles(s)
    ensures Owns(s, NewSubConn(s.(admitted := admitted), r, ok))
  {
    NewSubConnOwns(s.(admitted := admitted), r, ok);
  }

  lemma {:induction false} OwnersStay<R>(run: Run<R>, m: nat, n: nat, sc: SubConn)
    requires run.Legal() && m <= n <= |run.steps| && sc in StateAt(run, m).owner
    ensures sc in StateAt(run, n).owner && StateAt(run, n).owner[sc] == StateAt(run, m).owner[sc]
    decreases n
  {
    hide StateAt, Enabled, Apply, Steady, Owns;
    if m < n {
      OwnersStay(run, m, n - 1, sc);
      StateAfter(run, n - 1);
      StepOwns(StateAt(run, n - 1), run.steps[n - 1], sc);
    }
  }

  lemma StepOwns<R>(s: Pool<R>, step: Step<R>, sc: SubConn)
    requires Steady(s) && Enabled(s, step) && sc in s.owner
    ensures sc in Apply(s, step).owner && Apply(s, step).owner[sc] == s.owner[sc]
  {
    SteadyHandles(Tick(s, step.at), s);
    hide Possible, Perform, Steady, Handles;
    ActionOwns(Tick(s, step.at), step.action);
  }

  lemma SteadyHandles<R>(t: Pool<R>, s: Pool<R>)
    requires Steady(s) && t == Tick(s, t.now)
    ensures Handles(t)
  {
    hide Live, Pending, Listed, Counted, UpToDate;
  }

  // ----- what a lookup leaves behind

  /** A lookup that finds a new fallback maps the key to its subconn; no lookup touches any other key. */
  lemma LookupRemembers<R>(s: Pool<R>, key: string)
    requires Possible(s, DoLookup(key))
    ensures var l, t := GetReadySubConnRef(s, key), Perform(s, DoLookup(key));
      && t.fallbackMap.Keys == s.fallbackMap.Keys + (if l.NewFallback? then {key} else {})
      && (forall k | k in s.fallbackMap && k != key :: t.fallbackMap[k] == s.fallbackMap[k])
      && (key in s.fallbackMap ==> t.fallbackMap[key] == s.fallbackMap[key])
      && (l.NewFallback? ==> l.fallback in s.objs && t.fallbackMap[key] == s.objs[l.fallback].subConn)
      && t.scStates == s.scStates && t.scRefs == s.scRefs && t.affinityMap == s.affinityMap && t.objs == s.objs
      && t.cfg == s.cfg
  {
    hide LeastIndex;
  }

  /** The subconn the key is bound to is not ready. */
  predicate NeedsFallback<R(==)>(s: Pool<R>, key: string) {
    key in s.affinityMap && s.StateOf(s.affinityMap[key]) != Ready
  }

  /** The fallback of the key is f, by its current subconn sc. */
  predicate Remembers<R(==)>(s: Pool<R>, key: string, f: R, sc: SubConn) {
    key in s.fallbackMap && s.fallbackMap[key] == sc && sc in s.owner && s.owner[sc] == f
  }

  lemma LookupMaps<R>(s: Pool<R>, key: string, f: R)
    requires Steady(s) && Possible(s, DoLookup(key)) && NeedsFallback(s, key)
    requires GetReadySubConnRef(s, key) in {NewFallback(f), Found(f)}
    ensures f in s.objs && s.cfg.value.fallbackToReady
    ensures Remembers(Perform(s, DoLookup(key)), key, f, s.objs[f].subConn)
  {
    hide Steady, Perform, Possible, GetReadySubConnRef;
    LookupNeeds(s, key);
    FoundIsMapped(s, key, f);
    LookupRemembers(s, key);
    PlainOwns(s, DoLookup(key));
    OwnHandle(s, f);
  }

  lemma LookupNeeds<R>(s: Pool<R>, key: string)
    requires Possible(s, DoLookup(key))
    ensures s.cfg.Some? && KnownPicker(s)
  {
  }

  lemma FoundIsMapped<R>(s: Pool<R>, key: string, f: R)
    requires s.cfg.Some? && KnownPicker(s) && NeedsFallback(s, key)
    requires GetReadySubConnRef(s, key) in {NewFallback(f), Found(f)}
    ensures s.cfg.value.fallbackToReady && (GetReadySubConnRef(s, key) == NewFallback(f) ==> f in s.objs)
    ensures GetReadySubConnRef(s, key) == Found(f) ==>
      key in s.fallbackMap && s.fallbackMap[key] in s.scRefs && s.scRefs[s.fallbackMap[key]] == f
  {
    hide LeastIndex;
  }

  lemma OwnHandle<R>(s: Pool<R>, f: R)
    requires Steady(s)
    ensures f in s.objs ==> s.objs[f].subConn in s.owner && s.owner[s.objs[f].subConn] == f
    ensures forall sc | sc in s.scRefs :: s.scRefs[sc] in s.objs && s.objs[s.scRefs[sc]].subConn == sc
  {
    hide Pending, Listed, Counted, UpToDate;
  }

  lemma StepRemembers<R>(s: Pool<R>, step: Step<R>, key: string, f: R, sc: SubConn)
    requires Steady(s) && Enabled(s, step) && Remembers(s, key, f, sc)
    requires Apply(s, step).StateOf(sc) == Ready && NeedsFallback(Apply(s, step), key)
    ensures Remembers(Apply(s, step), key, f, sc)
  {
    var u := Tick(s, step.at);
    StepOwns(s, step, sc);
    hide Steady;
    if step.action.DoBind? || step.action.DoUnbind? {
      CountersKeepMapping(u, step.action);
      hide Possible, Perform;
    } else {
      hide Possible, Perform;
      OthersKeepAffinity(u, step.action);
      FallbackIsStable(s, step, key);
    }
  }

  lemma RememberedIsFound<R>(s: Pool<R>, key: string, f: R, sc: SubConn)
    requires Steady(s) && s.cfg.Some? && s.cfg.value.fallbackToReady && KnownPicker(s)
    requires Remembers(s, key, f, sc) && s.StateOf(sc) == Ready && NeedsFallback(s, key)
    ensures GetReadySubConnRef(s, key) == Found(f)
  {
    hide Pending, Listed, Counted, UpToDate, LeastIndex;
  }

  /** As long as the key needs a fallback and the subconn it was given is ready, that one stays mapped. */
  lemma {:induction false} StillRemembered<R>(run: Run<R>, m: nat, n: nat, key: string, f: R, sc: SubConn)
    requires run.Legal() && m <= n <= |run.steps| && Remembers(StateAt(run, m), key, f, sc)
    requires forall i | m < i <= n :: NeedsFallback(StateAt(run, i), key) && StateAt(run, i).StateOf(sc) == Ready
    ensures Remembers(StateAt(run, n), key, f, sc)
    decreases n
  {
    hide StateAt, Enabled, Apply, Steady, Remembers, NeedsFallback;
    if m < n {
      StillRemembered(run, m, n - 1, key, f, sc);
      StateAfter(run, n - 1);
      StepRemembers(StateAt(run, n - 1), run.steps[n - 1], key, f, sc);
    }
  }

  /**
   Two lookups of a key return the same ref: if step m looks up a key whose subconn is not ready and finds f, then a
   lookup after any steps finds f, provided that f's subconn of then stays ready and the key's does not become ready.
   */
  lemma LookupsAgree<R>(run: Run<R>, m: nat, n: nat, key: string, f: R)
    requires run.Legal() && m < n <= |run.steps| && run.steps[m].action == DoLookup(key)
    requires StateAt(run, m).cfg.Some? && KnownPicker(StateAt(run, m))
    requires NeedsFallback(StateAt(run, m), key) && f in StateAt(run, m).objs
    requires GetReadySubConnRef(StateAt(run, m), key) in {NewFallback(f), Found(f)}
    requires var sc := StateAt(run, m).objs[f].subConn;
      forall i | m < i <= n :: NeedsFallback(StateAt(run, i), key) && StateAt(run, i).StateOf(sc) == Ready
    ensures var t := StateAt(run, n);
      t.cfg.Some? && KnownPicker(t) && GetReadySubConnRef(t, key) == Found(f)
  {
    hide StateAt, Steady, Remembers, NeedsFallback;
    var s := StateAt(run, m);
    var sc := s.objs[f].subConn;
    StateAfter(run, m);
    TickLookups(s, run.steps[m].at, key);
    LookupMaps(Tick(s, run.steps[m].at), key, f);
    StillRemembered(run, m + 1, n, key, f, sc);
    ConfigStays(run, m, n);
    StateIsSteady(run, n);
    SteadyPicker(StateAt(run, n));
    RememberedIsFound(StateAt(run, n), key, f, sc);
  }

  lemma TickLookups<R>(s: Pool<R>, at: int, key: string)
    requires Steady(s) && s.cfg.Some? && KnownPicker(s)
    ensures Steady(Tick(s, at)) && KnownPicker(Tick(s, at))
    ensures GetReadySubConnRef(Tick(s, at), key) == GetReadySubConnRef(s, key)
    ensures NeedsFallback(Tick(s, at), key) <==> NeedsFallback(s, key)
  {
    TickIsSteady(s, at);
    TickKeepsStreams(s, at);
    hide Steady, LeastIndex, Streams;
  }

  lemma TickKeepsStreams<R>(s: Pool<R>, at: int)
    requires KnownPicker(s)
    ensures s.picker.Gcp? ==> Streams(Tick(s, at), s.picker.refs) == Streams(s, s.picker.refs)
  {
  }

  lemma TickIsSteady<R>(s: Pool<R>, at: int)
    requires Steady(s)
    ensures Steady(Tick(s, at))
  {
    hide Indexed, Counted, UpToDate;
    SideFieldsKeepIndex(s, at, 0, {});
    SameStatesStayUpToDate(s, Tick(s, at));
  }

  lemma SteadyPicker<R>(s: Pool<R>)
    requires Steady(s)
    ensures KnownPicker(s)
  {
    PickerIsKnown(s);
  }

  lemma {:induction false} ConfigStays<R>(run: Run<R>, m: nat, n: nat)
    requires run.Legal() && m <= n <= |run.steps| && StateAt(run, m).cfg.Some?
    ensures StateAt(run, n).cfg == StateAt(run, m).cfg
    decreases n
  {
    hide StateAt, Possible, Perform, Steady;
    if m < n {
      ConfigStays(run, m, n - 1);
      StateAfter(run, n - 1);
      ActionGrows(Tick(StateAt(run, n - 1), run.steps[n - 1].at), run.steps[n - 1].action);
    }
  }

  // ----- when a fallback is given up

  /** A live subconn stops being ready, or becomes so. */
  predicate StopsServing<R(==)>(s: Pool<R>, action: Action<R>, sc: SubConn) {
    action.DoStateChange? && action.sc == sc && sc in s.scStates && s.scStates[sc] == Ready && action.st != Ready
  }

  predicate Recovers<R(==)>(s: Pool<R>, action: Action<R>, sc: SubConn) {
    action.DoStateChange? && action.sc == sc && sc in s.scStates && s.scStates[sc] != Ready && action.st == Ready
  }

  ghost predicate GivesUp<R>(s: Pool<R>, action: Action<R>, key: string)
    requires key in s.fallbackMap
  {
    || StopsServing(s, action, s.fallbackMap[key])
    || (key in s.affinityMap && Recovers(s, action, s.affinityMap[key]))
  }

  lemma TransitionOnFallback<R>(s: Pool<R>, sc: SubConn, st: ConnState, order: seq<R>, key: string)
    requires sc in s.scStates && key in s.fallbackMap
    ensures var t := Transition(s, sc, st, order);
      if GivesUp(s, DoStateChange(sc, st, order), key) then key !in t.fallbackMap
      else key in t.fallbackMap && t.fallbackMap[key] == s.fallbackMap[key]
  {
    hide Recorded, Evaluated, MustPublish;
  }

  lemma ChangeOnFallback<R>(s: Pool<R>, sc: SubConn, st: ConnState, order: seq<R>, key: string)
    requires CanChange(s, sc, st, order) && key in s.fallbackMap && Indexed(s) && BoundToUsed(s)
    ensures var t := UpdateSubConnState(s, sc, st, order);
      if GivesUp(s, DoStateChange(sc, st, order), key) then key !in t.fallbackMap
      else key in t.fallbackMap && t.fallbackMap[key] == s.fallbackMap[key]
  {
    hide Transition, Lists, Replaced, Indexed, BoundToUsed;
    if sc in s.refreshingScRefs {
      PendingIsUnused(s, sc, key);
    }
    if sc in s.refreshingScRefs && st == Ready {
      TransitionOnFallback(Replace(s, sc), sc, st, order, key);
    } else if sc !in s.refreshingScRefs && sc in s.scStates {
      TransitionOnFallback(s, sc, st, order, key);
    }
  }

  lemma PendingIsUnused<R>(s: Pool<R>, sc: SubConn, key: string)
    requires Indexed(s) && BoundToUsed(s) && sc in s.refreshingScRefs
    ensures sc !in s.scStates && (key in s.affinityMap ==> s.affinityMap[key] != sc)
  {
    hide Listed;
  }

  lemma ActionOnFallback<R>(s: Pool<R>, action: Action<R>, key: string)
    requires Possible(s, action) && key in s.fallbackMap && Indexed(s) && BoundToUsed(s)
    ensures var t := Perform(s, action);
      if GivesUp(s, action, key) then key !in t.fallbackMap
      else key in t.fallbackMap && t.fallbackMap[key] == s.fallbackMap[key]
  {
    hide DetectUnresponsive, NewSubConn, LeastBusy, GetReadySubConnRef, Lists, UpdateSubConnState, AddAll, Open, Bind,
      Unbind, CanChange, Close, Distinct, WithDefaults, KnownPicker, AfterLookup, Indexed, BoundToUsed;
    match action {
      case DoConfigure(c, news) => AddAllKeepsMapping(s.(cfg := Some(WithDefaults(c))), news);
      case DoStateChange(sc, st, order) => ChangeOnFallback(s, sc, st, order, key);
      case DoLookup(k) => LookupKeepsMapping(s, k, key);
      case DoGrow(id, r, ok) => NewSubConnKeepsMapping(s.(admitted := s.admitted - {id}), r, ok);
      case DoGrowFirst(r, ok) => NewSubConnKeepsMapping(s, r, ok);
      case DoClose(id, timedOut, ok) => CloseKeepsMapping(s, id, timedOut, ok);
      case _ => CountersKeepMapping(s, action);
    }
  }

  /**
   In every run a key gives up its fallback exactly when the fallback's subconn stops being ready or the key's own
   subconn becomes ready, and until then keeps it unchanged.
   */
  lemma FallbackEndsIff<R>(run: Run<R>, key: string)
    requires run.Legal() && |run.steps| > 0 && key in run.Front().Final().fallbackMap
    ensures var s, t, action := run.Front().Final(), run.Final(), run.steps[|run.steps| - 1].action;
      && (key !in t.fallbackMap <==> GivesUp(s, action, key))
      && (key in t.fallbackMap ==> t.fallbackMap[key] == s.fallbackMap[key])
  {
    hide Perform, Possible, Steady, CountsHold;
    var s, step := run.Front().Final(), run.steps[|run.steps| - 1];
    RunIsSteady(run.Front());
    RunKeepsCounts(run.Front());
    FieldsOfTick(s, step.at);
    ActionOnFallback(Tick(s, step.at), step.action, key);
  }

  lemma FieldsOfTick<R>(s: Pool<R>, at: int)
    requires Steady(s) && CountsHold(s)
    ensures Indexed(Tick(s, at)) && BoundToUsed(Tick(s, at))
  {
    hide StreamsCounted, KeysCounted, Counted, UpToDate;
    SameIndexKeeps(s, Tick(s, at));
  }
}
