/** The stream and affinity counts of the refs are conserved, so neither ever goes negative. */
module PoolCounters {
  import opened Options
  import opened PoolSpec
  import opened PoolIndex
  import opened PoolPublication
  import opened PoolRefs

  // ----- streams

  ghost function CallsOn<R>(calls: map<nat, Call<R>>, r: R): set<nat> {
    set id | id in calls && calls[id].ref == r
  }

  ghost predicate StreamsCounted<R>(s: Pool<R>) {
    && (forall id | id in s.calls :: s.calls[id].ref in s.objs)
    && (forall r | r in s.objs :: s.objs[r].streamsCnt == |CallsOn(s.calls, r)|)
  }

  /** No call begins or ends, and new refs carry no streams. */
  ghost predicate SameStreams<R>(s: Pool<R>, t: Pool<R>) {
    && t.calls == s.calls && s.objs.Keys <= t.objs.Keys
    && (forall r | r in t.objs :: t.objs[r].streamsCnt == if r in s.objs then s.objs[r].streamsCnt else 0)
  }

  lemma SameStreamsCounted<R>(s: Pool<R>, t: Pool<R>)
    requires StreamsCounted(s) && SameStreams(s, t)
    ensures StreamsCounted(t)
  {
    forall r | r in t.objs && r !in s.objs ensures CallsOn(t.calls, r) == {} {
      assert forall id | id in s.calls :: s.calls[id].ref != r;
    }
  }

  lemma CallsOnUpdate<R>(calls: map<nat, Call<R>>, id: nat, c: Call<R>, r: R)
    requires id !in calls
    ensures |CallsOn(calls[id := c], r)| == |CallsOn(calls, r)| + if c.ref == r then 1 else 0
  {
    if c.ref == r {
      assert CallsOn(calls[id := c], r) == CallsOn(calls, r) + {id};
    } else {
      assert CallsOn(calls[id := c], r) == CallsOn(calls, r);
    }
  }

  lemma CallsOnRemoval<R>(calls: map<nat, Call<R>>, id: nat, r: R)
    requires id in calls
    ensures |CallsOn(calls - {id}, r)| == |CallsOn(calls, r)| - if calls[id].ref == r then 1 else 0
  {
    CallsOnUpdate(calls - {id}, id, calls[id], r);
    assert (calls - {id})[id := calls[id]] == calls;
  }

  lemma OpenIsCounted<R>(s: Pool<R>, id: nat, r: R)
    requires StreamsCounted(s) && r in s.objs && id !in s.calls
    ensures StreamsCounted(Open(s, id, r))
  {
    hide CallsOn;
    var t := Open(s, id, r);
    forall q | q in s.objs ensures t.objs[q].streamsCnt == |CallsOn(t.calls, q)| {
      CallsOnUpdate(s.calls, id, Call(r, s.now), q);
    }
  }

  lemma CloseIsCounted<R>(s: Pool<R>, id: nat)
    requires StreamsCounted(s) && id in s.calls && s.calls[id].ref in s.objs
    ensures StreamsCounted(Close(s, id))
  {
    hide CallsOn;
    var t := Close(s, id);
    forall q | q in s.objs ensures t.objs[q].streamsCnt == |CallsOn(t.calls, q)| {
      CallsOnRemoval(s.calls, id, q);
    }
  }

  // ----- affinity keys

  ghost function KeysOf(m: map<string, SubConn>, sc: SubConn): set<string> {
    set k | k in m && m[k] == sc
  }

  /** Keys are bound to handles that were in use; a pending replacement is newer than those. */
  ghost predicate BoundToUsed<R>(s: Pool<R>) {
    forall k | k in s.affinityMap ::
      var sc := s.affinityMap[k];
      sc in s.owner && s.owner[sc] in s.objs && sc <= s.objs[s.owner[sc]].subConn
  }

  ghost predicate KeysCounted<R>(s: Pool<R>) {
    forall r | r in s.objs :: s.objs[r].affinityCnt >= |KeysOf(s.affinityMap, s.objs[r].subConn)|
  }

  /** No key is bound or unbound, and new refs have fresh handles. */
  ghost predicate SameKeys<R>(s: Pool<R>, t: Pool<R>) {
    && t.affinityMap == s.affinityMap && s.objs.Keys <= t.objs.Keys
    && (forall sc | sc in s.owner :: sc in t.owner && t.owner[sc] == s.owner[sc])
    && (forall r | r in s.objs ::
          && t.objs[r].affinityCnt == s.objs[r].affinityCnt
          && t.objs[r].subConn >= s.objs[r].subConn
          && (t.objs[r].subConn > s.objs[r].subConn ==>
                t.objs[r].subConn in s.owner && s.owner[t.objs[r].subConn] == r))
    && (forall r | r in t.objs && r !in s.objs :: t.objs[r].affinityCnt == 0 && t.objs[r].subConn !in s.owner)
  }

  lemma FreshHandleHasNoKeys<R>(s: Pool<R>, sc: SubConn)
    requires BoundToUsed(s) && (sc in s.owner && s.owner[sc] in s.objs ==> sc > s.objs[s.owner[sc]].subConn)
    ensures KeysOf(s.affinityMap, sc) == {}
  {
    assert forall k | k in s.affinityMap :: s.affinityMap[k] != sc;
  }

  lemma SameKeysBound<R>(s: Pool<R>, t: Pool<R>)
    requires BoundToUsed(s) && SameKeys(s, t)
    ensures BoundToUsed(t)
  {
  }

  lemma SameKeysCounted<R>(s: Pool<R>, t: Pool<R>)
    requires BoundToUsed(s) && KeysCounted(s) && SameKeys(s, t)
    ensures BoundToUsed(t) && KeysCounted(t)
  {
    hide KeysOf;
    SameKeysBound(s, t);
    hide BoundToUsed;
    forall r | r in t.objs ensures t.objs[r].affinityCnt >= |KeysOf(t.affinityMap, t.objs[r].subConn)| {
      if r in s.objs {
        assert s.objs[r].affinityCnt >= |KeysOf(s.affinityMap, s.objs[r].subConn)|;
      }
      if r !in s.objs || t.objs[r].subConn > s.objs[r].subConn {
        FreshHandleHasNoKeys(s, t.objs[r].subConn);
      }
    }
  }

  lemma KeysOfUpdate(m: map<string, SubConn>, key: string, sc: SubConn, d: SubConn)
    requires key !in m
    ensures |KeysOf(m[key := sc], d)| == |KeysOf(m, d)| + if sc == d then 1 else 0
  {
    if sc == d {
      assert KeysOf(m[key := sc], d) == KeysOf(m, d) + {key};
    } else {
      assert KeysOf(m[key := sc], d) == KeysOf(m, d);
    }
  }

  lemma KeysOfRemoval(m: map<string, SubConn>, key: string, d: SubConn)
    requires key in m
    ensures |KeysOf(m - {key}, d)| == |KeysOf(m, d)| - if m[key] == d then 1 else 0
  {
    KeysOfUpdate(m - {key}, key, m[key], d);
    assert (m - {key})[key := m[key]] == m;
  }

  lemma BindIsCounted<R>(s: Pool<R>, key: string, sc: SubConn)
    requires Live(s) && Handles(s) && BoundToUsed(s) && KeysCounted(s) && Bind(s, key, sc).Done?
    ensures BoundToUsed(Bind(s, key, sc).pool) && KeysCounted(Bind(s, key, sc).pool)
  {
    hide KeysOf;
    var t := Bind(s, key, sc).pool;
    forall r | r in t.objs ensures t.objs[r].affinityCnt >= |KeysOf(t.affinityMap, t.objs[r].subConn)| {
      assert s.owner[s.objs[r].subConn] == r;
      if key !in s.affinityMap {
        KeysOfUpdate(s.affinityMap, key, sc, t.objs[r].subConn);
      }
    }
  }

  lemma UnbindIsCounted<R>(s: Pool<R>, key: string)
    requires Live(s) && Handles(s) && BoundToUsed(s) && KeysCounted(s) && Unbind(s, key).Done?
    ensures BoundToUsed(Unbind(s, key).pool) && KeysCounted(Unbind(s, key).pool)
  {
    hide KeysOf;
    var t := Unbind(s, key).pool;
    if key in s.affinityMap {
      forall r | r in t.objs ensures t.objs[r].affinityCnt >= |KeysOf(t.affinityMap, t.objs[r].subConn)| {
        assert s.owner[s.objs[r].subConn] == r;
        KeysOfRemoval(s.affinityMap, key, t.objs[r].subConn);
      }
    }
  }

  // ----- steps

  ghost predicate CountsHold<R>(s: Pool<R>) {
    StreamsCounted(s) && BoundToUsed(s) && KeysCounted(s)
  }

  lemma SameCountsHold<R>(s: Pool<R>, t: Pool<R>)
    requires CountsHold(s) && SameStreams(s, t) && SameKeys(s, t)
    ensures CountsHold(t)
  {
    SameStreamsCounted(s, t);
    SameKeysCounted(s, t);
  }

  lemma AddKeepsCounts<R>(s: Pool<R>, r: R)
    requires Handles(s) && CountsHold(s) && r !in s.objs
    ensures CountsHold(AddSubConn(s, r))
  {
    hide CountsHold;
    SameCountsHold(s, AddSubConn(s, r));
  }

  lemma {:induction false} AddAllKeepsCounts<R>(s: Pool<R>, news: seq<R>)
    requires Indexed(s) && CountsHold(s) && Distinct(news) && forall r | r in news :: r !in s.objs
    ensures CountsHold(AddAll(s, news))
    decreases |news|
  {
    if |news| > 0 {
      hide CountsHold, Live, Pending, Listed, AddSubConn;
      var n := |news| - 1;
      AddAllKeepsCounts(s, news[..n]);
      AddAllKeepsIndex(s, news[..n]);
      AddKeepsCounts(AddAll(s, news[..n]), news[n]);
    }
  }

  lemma ReplacedKeepsKeys<R>(s: Pool<R>, t: Pool<R>, sc: SubConn)
    requires Pending(s) && sc in s.refreshingScRefs && t.affinityMap == s.affinityMap && t.owner == s.owner
    requires t.calls == s.calls
    requires var r := s.refreshingScRefs[sc];
      r in s.objs && t.objs == s.objs[r := Replaced(s.objs[r], sc, s.now)]
    ensures SameKeys(s, t) && SameStreams(s, t)
  {
  }

  lemma ChangeKeepsCounts<R>(s: Pool<R>, sc: SubConn, st: ConnState, order: seq<R>)
    requires Indexed(s) && CountsHold(s) && CanChange(s, sc, st, order)
    ensures CountsHold(UpdateSubConnState(s, sc, st, order))
  {
    hide UpdateSubConnState, CountsHold, Lists, Live, Handles, Listed, Pending, SameKeys, SameStreams, Replaced;
    var t := UpdateSubConnState(s, sc, st, order);
    ChangeOnRefs(s, sc, st, order);
    if sc in s.refreshingScRefs && st == Ready {
      ReplacedKeepsKeys(s, t, sc);
    } else {
      SameRefsKeepKeys(s, t);
    }
    SameCountsHold(s, t);
  }

  lemma SameRefsKeepKeys<R>(s: Pool<R>, t: Pool<R>)
    requires t.affinityMap == s.affinityMap && t.owner == s.owner && t.calls == s.calls && t.objs == s.objs
    ensures SameKeys(s, t) && SameStreams(s, t)
  {
  }

  lemma CloseKeepsCounts<R>(s: Pool<R>, id: nat, timedOut: bool, ok: bool)
    requires Handles(s) && CountsHold(s) && s.cfg.Some? && id in s.calls && s.calls[id].ref in s.objs
    ensures CountsHold(DetectUnresponsive(Close(s, id), s.calls[id].ref, s.calls[id].started, timedOut, ok))
  {
    var c := Close(s, id);
    CloseIsCounted(s, id);
    assert SameKeys(s, c);
    SameKeysCounted(s, c);
    DetectKeepsCounts(c, s.calls[id].ref, s.calls[id].started, timedOut, ok);
  }

  lemma DetectKeepsCounts<R>(s: Pool<R>, r: R, started: int, timedOut: bool, ok: bool)
    requires (forall sc | sc in s.owner :: sc < s.issued) && CountsHold(s) && r in s.objs && s.cfg.Some?
    ensures CountsHold(DetectUnresponsive(s, r, started, timedOut, ok))
  {
    hide DetectUnresponsive, CountsHold, Unresponsive;
    var t := DetectUnresponsive(s, r, started, timedOut, ok);
    DetectOnRefs(s, r, started, timedOut, ok);
    var ref, refreshes := DetectShape(s, r, started, timedOut, ok);
    assert forall sc | sc in s.owner :: sc in t.owner && t.owner[sc] == s.owner[sc];
    SameCountsHold(s, t);
  }

  lemma NewSubConnKeepsCounts<R>(s: Pool<R>, r: R, ok: bool)
    requires Indexed(s) && CountsHold(s) && r !in s.objs
    ensures CountsHold(NewSubConn(s, r, ok))
  {
    hide CountsHold, SomePending, AddSubConn, Live, Pending, Listed;
    AddKeepsCounts(s, r);
  }

  lemma ConfigureKeepsCounts<R>(s: Pool<R>, c: Config, news: seq<R>)
    requires Indexed(s) && CountsHold(s) && Distinct(news) && forall r | r in news :: r !in s.objs
    ensures CountsHold(Configure(s, c, news))
  {
    hide CountsHold, Indexed, AddAll, Distinct, WithDefaults;
    var t := s.(cfg := Some(WithDefaults(c)));
    SameCountsHold(s, t);
    SameIndexKeeps(s, t);
    AddAllKeepsCounts(t, news);
  }

  /** Fields the counts do not depend on. */
  lemma SideFieldsKeepCounts<R>(s: Pool<R>, at: int, ticket: uint32, admitted: set<nat>, fallback: map<string, SubConn>)
    requires CountsHold(s)
    ensures CountsHold(s.(now := at)) && CountsHold(s.(rrRefId := ticket)) && CountsHold(s.(admitted := admitted))
      && CountsHold(s.(fallbackMap := fallback))
  {
    hide CountsHold;
    SameCountsHold(s, s.(now := at));
    SameCountsHold(s, s.(rrRefId := ticket));
    SameCountsHold(s, s.(admitted := admitted));
    SameCountsHold(s, s.(fallbackMap := fallback));
  }

  lemma OpenKeepsCounts<R>(s: Pool<R>, id: nat, r: R)
    requires CountsHold(s) && r in s.objs && id !in s.calls
    ensures CountsHold(Open(s, id, r))
  {
    hide StreamsCounted, KeysCounted, BoundToUsed;
    OpenIsCounted(s, id, r);
    SameKeysCounted(s, Open(s, id, r));
  }

  lemma BindKeepsCounts<R>(s: Pool<R>, key: string, sc: SubConn)
    requires Indexed(s) && CountsHold(s) && Bind(s, key, sc).Done?
    ensures CountsHold(Bind(s, key, sc).pool)
  {
    assert Live(s) && Handles(s) by { hide Live, Handles, Pending, Listed; }
    hide StreamsCounted, KeysCounted, BoundToUsed, Indexed, Live, Handles;
    SameStreamsCounted(s, Bind(s, key, sc).pool);
    BindIsCounted(s, key, sc);
  }

  lemma UnbindKeepsCounts<R>(s: Pool<R>, key: string)
    requires Indexed(s) && CountsHold(s) && Unbind(s, key).Done?
    ensures CountsHold(Unbind(s, key).pool)
  {
    assert Live(s) && Handles(s) by { hide Live, Handles, Pending, Listed; }
    hide StreamsCounted, KeysCounted, BoundToUsed, Indexed, Live, Handles;
    SameStreamsCounted(s, Unbind(s, key).pool);
    UnbindIsCounted(s, key);
  }

  lemma ActionKeepsCounts<R>(s: Pool<R>, action: Action<R>)
    requires Indexed(s) && CountsHold(s) && Possible(s, action)
    ensures CountsHold(Perform(s, action))
  {
    hide CountsHold, UpdateSubConnState, DetectUnresponsive, NewSubConn, Configure, LeastBusy, GetReadySubConnRef,
      Lists, CanChange, Open, Close, Bind, Unbind, Distinct, WithDefaults, KnownPicker, Live, Pending, Listed;
    match action {
      case DoConfigure(c, news) => ConfigureKeepsCounts(s, c, news);
      case DoGrowFirst(r, ok) => NewSubConnKeepsCounts(s, r, ok);
      case DoStateChange(sc, st, order) => ChangeKeepsCounts(s, sc, st, order);
      case DoAdmit(id, _) => SideFieldsKeepCounts(s, 0, 0, s.admitted + {id}, map[]);
      case DoGrow(id, r, ok) =>
        SideFieldsKeepCounts(s, 0, 0, s.admitted - {id}, map[]);
        SideFieldsKeepIndex(s, 0, 0, s.admitted - {id});
        NewSubConnKeepsCounts(s.(admitted := s.admitted - {id}), r, ok);
      case DoLookup(key) => SideFieldsKeepCounts(s, 0, 0, {}, AfterLookup(s, key).fallbackMap);
      case DoTicket => SideFieldsKeepCounts(s, 0, (s.rrRefId + 1) % TWO_32, {}, map[]);
      case DoOpen(id, ref) => OpenKeepsCounts(s, id, ref);
      case DoClose(id, timedOut, ok) => CloseKeepsCounts(s, id, timedOut, ok);
      case DoBind(key, sc) => BindKeepsCounts(s, key, sc);
      case DoUnbind(key) => UnbindKeepsCounts(s, key);
    }
  }

  lemma {:induction false} RunKeepsCounts<R>(run: Run<R>)
    requires run.Legal()
    ensures CountsHold(run.Final())
    decreases |run.steps|
  {
    if |run.steps| > 0 {
      hide CountsHold, Perform, Possible, Steady;
      var step := run.steps[|run.steps| - 1];
      var was := run.Front().Final();
      RunKeepsCounts(run.Front());
      RunIsSteady(run.Front());
      StepKeepsSteady(was, step);
      SideFieldsKeepCounts(was, step.at, 0, {}, map[]);
      assert Indexed(Tick(was, step.at)) by { SteadyIsIndexed(Tick(was, step.at)); }
      ActionKeepsCounts(Tick(was, step.at), step.action);
    } else {
      assert run.Final() == Build(run.start);
    }
  }

  lemma SteadyIsIndexed<R>(s: Pool<R>)
    requires Steady(s)
    ensures Indexed(s)
  {
    hide Indexed, Counted, UpToDate;
  }

  // ----- the promises

  /**
   Conservation: the stream count of a ref is the number of its calls whose Done has not run, whichever
   picker made the call and whatever subconn the ref had; its affinity count is no less than the
   number of keys mapped to its subconn.
   */
  lemma CountsAreConserved<R>(run: Run<R>, r: R)
    requires run.Legal() && r in run.Final().objs
    ensures var s := run.Final();
      && s.objs[r].streamsCnt == |CallsOn(s.calls, r)|
      && s.objs[r].affinityCnt >= |KeysOf(s.affinityMap, s.objs[r].subConn)|
  {
    hide Enabled, Apply;
    RunKeepsCounts(run);
  }

  /** A completed pick always finds a positive stream count to decrement. */
  lemma DoneFindsItsStream<R>(run: Run<R>, id: nat)
    requires run.Legal() && id in run.Final().calls
    ensures run.Final().calls[id].ref in run.Final().objs
    ensures run.Final().objs[run.Final().calls[id].ref].streamsCnt > 0
  {
    hide Enabled, Apply;
    RunKeepsCounts(run);
    var s := run.Final();
    assert id in CallsOn(s.calls, s.calls[id].ref);
  }

  /**
   bindSubConn succeeds exactly for live subconns, and unbindSubConn exactly for keys that are unbound or bound to
   live ones.
   */
  lemma CrashesOnlyOnDeadHandles<R>(run: Run<R>, key: string, sc: SubConn)
    requires run.Legal()
    ensures var s := run.Final();
      && (Bind(s, key, sc).Done? <==> sc in s.scRefs)
      && (Unbind(s, key).Done? <==> (key in s.affinityMap ==> s.affinityMap[key] in s.scRefs))
      && (Unbind(s, key).Done? ==> key !in Unbind(s, key).pool.affinityMap)
  {
    hide Enabled, Apply, Counted, UpToDate;
    RunIsSteady(run);
  }

  lemma {:induction false} AddAllKeepsAffinity<R>(s: Pool<R>, news: seq<R>)
    ensures AddAll(s, news).affinityMap == s.affinityMap
    decreases |news|
  {
    if |news| > 0 {
      AddAllKeepsAffinity(s, news[..|news| - 1]);
    }
  }

  /** Only the affinity commands touch the affinity map. */
  lemma OthersKeepAffinity<R>(s: Pool<R>, action: Action<R>)
    requires Possible(s, action) && !action.DoBind? && !action.DoUnbind?
    ensures Perform(s, action).affinityMap == s.affinityMap
  {
    hide DetectUnresponsive, UpdateSubConnState, LeastBusy, GetReadySubConnRef, Lists, Distinct, WithDefaults, AddAll,
      SomePending, Close, CanChange, KnownPicker, Replaced, AfterCall, Unresponsive;
    match action {
      case DoConfigure(c, news) => AddAllKeepsAffinity(s.(cfg := Some(WithDefaults(c))), news);
      case DoStateChange(sc, st, order) => ChangeOnRefs(s, sc, st, order);
      case DoClose(id, timedOut, ok) => CloseOnRefs(s, id, timedOut, ok);
      case _ =>
    }
  }

  /**
   A bound key stays bound to the same subconn across every step, refreshes and later binds included, until it is
   unbound; and a key that is not bound becomes so by a bind, to the live subconn the bind names, and by nothing else.
   */
  lemma AffinityIsSticky<R>(s: Pool<R>, step: Step<R>, key: string)
    requires Enabled(s, step)
    ensures var t := Apply(s, step);
      if step.action.DoUnbind? && step.action.key == key then key !in t.affinityMap
      else if key in s.affinityMap then key in t.affinityMap && t.affinityMap[key] == s.affinityMap[key]
      else if step.action.DoBind? && step.action.key == key then
        step.action.sc in s.scRefs && key in t.affinityMap && t.affinityMap[key] == step.action.sc
      else key !in t.affinityMap
  {
    hide UpdateSubConnState, DetectUnresponsive, Close, GetReadySubConnRef, LeastBusy, CanChange, NewSubConn, Configure;
    if !step.action.DoBind? && !step.action.DoUnbind? {
      hide Possible, Perform;
      OthersKeepAffinity(Tick(s, step.at), step.action);
    }
  }
}
