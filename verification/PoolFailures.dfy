/** Runs that end where the balancer panics, locks up, or departs from what grpc_gcp.proto promises. */
module PoolFailures {
  import opened Options
  import opened PoolSpec
  import opened PoolIndex
  import opened PoolPublication
  import opened PoolCounters
  import opened PoolFallback
  import opened PoolConfig
  import opened PoolStages
  import opened PoolReach

  // ----- lookups that never return, gcp_balancer.go:362-372

  /** Some run of the configuration ends in a state in which the lookup of a key comes to l. */
  ghost predicate CanComeTo(c: Config, l: Lookup<nat>) {
    exists run: Run<nat>, key: string :: ComesTo(run, key, c, l)
  }

  ghost predicate ComesTo<R>(run: Run<R>, key: string, c: Config, l: Lookup<R>) {
    && run.Legal() && Asked(run) == Some(c) && run.Final().cfg.Some? && KnownPicker(run.Final())
    && GetReadySubConnRef(run.Final(), key) == l
  }

  /** All subconns are idle, and no key is bound. */
  ghost predicate Fresh(s: Pool<nat>) {
    && 0 in s.objs && s.objs[0].subConn == 0 && 0 in s.scRefs && s.scRefs[0] == 0
    && s.scStates.Keys == s.scRefs.Keys && (forall sc | sc in s.scStates :: s.scStates[sc] == Idle)
    && s.affinityMap == map[] && s.fallbackMap == map[]
  }

  lemma StartedFresh(c: Config, n: nat)
    requires n > 0
    ensures Fresh(Started(c, n))
  {
    BelowSize(n);
  }

  /** The first subconn is ready, and a key is bound to it. */
  ghost predicate Keyed(s: Pool<nat>) {
    && s.published.Some? && 0 in s.objs
    && 0 in s.scStates && (forall sc | sc in s.scStates && sc != 0 :: s.scStates[sc] == Idle)
    && s.affinityMap == map["k" := 0] && s.fallbackMap == map[]
  }

  lemma KeyIsBound(s: Pool<nat>, m: Pool<nat>, t: Pool<nat>)
    requires Fresh(s) && Changed(s, m, 0, Ready) && 0 in m.objs && Binds(m, t, 0, "k") && m.published.Some?
    ensures Keyed(t) && t.cfg == s.cfg && t.issued == s.issued
  {
  }

  lemma KeyRun(c: Config) returns (run: Run<nat>)
    ensures run.Legal() && Asked(run) == Some(c) && run.Final().cfg == Some(WithDefaults(c))
    ensures Keyed(run.Final()) && run.Final().issued == WithDefaults(c).minSize
  {
    hide Started, Steady, Run.Final, Run.Legal, Keyed, Binds;
    var n := WithDefaults(c).minSize;
    StartedSizes(c, n);
    StartedFresh(c, n);
    var start := StartRun(c);
    var ready := Change(start, 0, Ready);
    RunIsSteady(ready);
    ReadyIsPublic(ready.Final(), 0);
    run := BindByCall(ready, 0, "k");
    KeyIsBound(start.Final(), ready.Final(), run.Final());
  }

  lemma ReadyIsPublic<R>(s: Pool<R>, sc: SubConn)
    requires Steady(s) && sc in s.scStates && s.scStates[sc] == Ready
    ensures s.published.Some?
  {
    hide Indexed, Counted;
    assert sc in Conns(s.scStates, Ready);
  }

  /**
   For every configuration with fallback: all subconns are shut down, and looking up a bound key takes the error picker,
   or none, for a gcpPicker.
   */
  lemma LookupCanFindErrorPicker(c: Config) returns (run: Run<nat>)
    requires c.fallbackToReady
    ensures ComesTo(run, "k", c, Panics) && !run.Final().picker.Gcp?
  {
    hide Run.Final, Run.Legal, Steady;
    run := KeyRun(c);
    run := EveryPoolCanBeEmptied(run);
    LookupOutcome(run, "k");
    RunIsSteady(run);
    EmptyHasNoPicker(run.Final());
  }

  lemma EmptyHasNoPicker<R>(s: Pool<R>)
    requires Steady(s) && s.scStates == map[]
    ensures !s.picker.Gcp?
  {
    hide Indexed, Counted;
    assert Aggregate(s.scStates) == TransientFailure;
  }

  /** ... or the only ready subconn reconnects, and looking up its key indexes the empty slice of a gcpPicker. */
  lemma LookupCanFindEmptyPicker(c: Config) returns (run: Run<nat>)
    requires c.fallbackToReady
    ensures ComesTo(run, "k", c, Panics) && run.Final().picker == Gcp([])
  {
    hide Run.Final, Run.Legal, Steady;
    run := KeyRun(c);
    run := Change(run, 0, Connecting);
    LookupOutcome(run, "k");
    RunIsSteady(run);
    ConnectingHasEmptyPicker(run.Final(), 0);
  }

  lemma {:induction false} ListedSize<R>(order: seq<R>)
    requires Distinct(order)
    ensures |RefsOf(order)| == |order|
    decreases |order|
  {
    if |order| > 0 {
      var n := |order| - 1;
      ListedSize(order[..n]);
      assert order == order[..n] + [order[n]];
      assert RefsOf(order) == RefsOf(order[..n]) + {order[n]};
    }
  }

  lemma ConnectingHasEmptyPicker<R>(s: Pool<R>, sc: SubConn)
    requires Steady(s) && s.published.Some? && sc in s.scStates && s.scStates[sc] == Connecting
    requires forall other | other in s.scStates :: s.scStates[other] != Ready
    ensures s.picker == Gcp([])
  {
    ConnectingHasPicker(s, sc);
    assert s.ReadyRefs() == {};
    ListedSize(s.picker.refs);
    assert RefsOf(s.picker.refs) == s.ReadyRefs();
    hide Steady;
  }

  /**
   For every configuration with fallback: the subconn of a key is shut down, the only other one is at the watermark, and
   looking up the key takes gb.mu for a second time.
   */
  lemma LookupCanDeadlock(c: Config) returns (run: Run<nat>)
    requires c.fallbackToReady
    ensures ComesTo(run, "k", c, Deadlocks)
  {
    var m: nat := WithDefaults(c).watermark;
    run := OtherRun(c, m);
    hide Run.Final, Run.Legal;
    ServedIsReady(run.Final(), m);
    LookupOutcome(run, "k");
  }

  /** ... up to the lookup. */
  lemma OtherRun(c: Config, m: nat) returns (run: Run<nat>)
    requires m == WithDefaults(c).watermark
    ensures run.Legal() && Asked(run) == Some(c)
    ensures var s := run.Final();
      && s.cfg == Some(WithDefaults(c)) && s.affinityMap == map["k" := 0] && s.fallbackMap == map[]
      && 0 !in s.scStates && s.scStates != map[] && Unserved(s, m) == {}
  {
    hide Run.Final, Run.Legal, LeastBusy, SomePending, CallsOn, KeysOf, Unserved, Steady;
    var keyed := KeyRun(c);
    CountsAreConserved(keyed, 0);
    var loaded := Load(keyed, 0, m);
    var empty := EveryPoolCanBeEmptied(loaded);
    NoSubConnIsBusy(empty.Final(), 0, m);
    var grown, r := Grow(empty, [0]);
    run := ServeAll(grown, m);
    assert empty.Final().issued in run.Final().scStates;
  }

  lemma NoSubConnIsBusy(s: Pool<nat>, r: nat, m: nat)
    requires s.scStates == map[] && s.scRefs == map[] && r in s.objs && s.objs[r].streamsCnt >= m
    requires s.cfg.Some? && s.cfg.value.maxSize > 0 && s.cfg.value.watermark <= m
    ensures LeastBusy(s, [r]) == Busy && !SomePending(s)
  {
    assert Streams(s, [r]) == [s.objs[r].streamsCnt];
  }

  lemma ServedIsReady<R>(s: Pool<R>, m: nat)
    requires Unserved(s, m) == {} && s.scStates != map[]
    ensures exists sc :: sc in s.scStates && s.scStates[sc] == Ready
    ensures forall r | r in s.ReadyRefs() :: r in s.objs && s.objs[r].streamsCnt >= m
  {
    forall sc | sc in s.scStates ensures Served(s, sc, m) {
      assert sc !in Unserved(s, m);
    }
    var sc :| sc in s.scStates;
    assert s.scStates[sc] == Ready;
  }

  /** So lookups panic, and deadlock, in some run of a configuration exactly if it asks for fallback. */
  lemma LookupsFailIff(c: Config)
    ensures CanComeTo(c, Panics) <==> c.fallbackToReady
    ensures CanComeTo(c, Deadlocks) <==> c.fallbackToReady
  {
    if c.fallbackToReady {
      var panics := LookupCanFindErrorPicker(c);
      var deadlocks := LookupCanDeadlock(c);
      assert ComesTo(panics, "k", c, Panics) && ComesTo(deadlocks, "k", c, Deadlocks);
    } else {
      forall run: Run<nat>, key: string, l | ComesTo(run, key, c, l) ensures l != Panics && l != Deadlocks {
        NoFallbackNoFailure(run, key, c, l);
      }
    }
  }

  lemma NoFallbackNoFailure<R>(run: Run<R>, key: string, c: Config, l: Lookup<R>)
    requires ComesTo(run, key, c, l) && !c.fallbackToReady
    ensures l != Panics && l != Deadlocks
  {
    ConfigIsAsked(run);
    hide Run.Final, Run.Legal;
  }

  /** For every configuration: all subconns are shut down, and the next UpdateClientConnState locks up. */
  lemma PoolCanBeEmptied(c: Config) returns (run: Run<nat>)
    ensures run.Legal() && Asked(run) == Some(c) && run.Final().cfg.Some? && run.Final().scRefs == map[]
  {
    run := KeyRun(c);
    hide Run.Final, Run.Legal;
    run := EveryPoolCanBeEmptied(run);
  }

  // ----- picks that are not as documented

  /** Every subconn carries at least as many calls as any watermark of c, and the pool has reached its limit. */
  lemma BusyRun(c: Config) returns (run: Run<nat>)
    ensures run.Legal() && Asked(run) == Some(c)
    ensures var s := run.Final();
      && s.cfg.Some? && s.picker.Gcp? && KnownPicker(s)
      && Actual(s, DocumentedWatermark(c)) == TakesBusy
      && Documented(c, s) == if c.maxSize == 0 then Creates else Waits
  {
    var m: nat := 100 + WithDefaults(c).watermark;
    run := FullRun(c, m);
    hide Run.Final, Run.Legal, Steady, Full;
    RunIsSteady(run);
    FullPickTakesBusy(c, run.Final(), m);
  }

  lemma FullPickTakesBusy<R>(c: Config, s: Pool<R>, m: nat)
    requires Steady(s) && Full(s, m) && s.cfg == Some(WithDefaults(c)) && |s.scRefs| >= WithDefaults(c).maxSize
    requires m >= 100
    ensures s.picker.Gcp? && KnownPicker(s) && Actual(s, DocumentedWatermark(c)) == TakesBusy
    ensures Documented(c, s) == if c.maxSize == 0 then Creates else Waits
  {
    hide Steady, Full, LeastBusy, SomeFree, ToInt32, SomePending;
    FullPicker(s, m);
    NoneFree(s, RefsOf(s.picker.refs), m, DocumentedWatermark(c));
    NoneFree(s, s.scRefs.Values, m, DocumentedWatermark(c));
    BusyIff(s, s.picker.refs);
    ChosenIsFreeIff(s, s.picker.refs, DocumentedWatermark(c));
  }

  lemma NoneFree<R>(s: Pool<R>, refs: set<R>, m: nat, watermark: int)
    requires (forall r | r in refs :: r in s.objs && s.objs[r].streamsCnt >= m) && watermark <= m
    ensures !SomeFree(s, refs, watermark)
  {
  }

  /** max_size 0 is not unlimited: all subconns are busy, another one should be created, and a busy ref is taken. */
  lemma UnlimitedIsLimited(c: Config) returns (run: Run<nat>)
    requires c.maxSize == 0
    ensures run.Legal() && Asked(run) == Some(c)
    ensures var s := run.Final();
      && s.cfg.Some? && s.picker.Gcp? && KnownPicker(s)
      && Actual(s, DocumentedWatermark(c)) == TakesBusy && Documented(c, s) == Creates
  {
    run := BusyRun(c);
  }

  /** A full and busy pool does not hang: all subconns are busy, the call should wait, and a busy ref is taken. */
  lemma FullDoesNotHang(c: Config) returns (run: Run<nat>)
    requires c.maxSize != 0
    ensures run.Legal() && Asked(run) == Some(c)
    ensures var s := run.Final();
      && s.cfg.Some? && s.picker.Gcp? && KnownPicker(s)
      && Actual(s, DocumentedWatermark(c)) == TakesBusy && Documented(c, s) == Waits
  {
    run := BusyRun(c);
  }

  /**
   Growth can stall: all subconns are busy, another one should be created, and the pick waits for one to reconnect.
   */
  lemma GrowthCanStall(c: Config) returns (run: Run<nat>)
    requires WithDefaults(c).minSize < Limit(c)
    ensures run.Legal() && Asked(run) == Some(c)
    ensures var s := run.Final();
      && s.cfg.Some? && s.picker.Gcp? && KnownPicker(s)
      && Actual(s, DocumentedWatermark(c)) == Waits && Documented(c, s) == Creates
  {
    hide Run.Final, Run.Legal, Started, Unserved, Steady, SomePending, ToInt32, Changed, Actual, Documented;
    var n := WithDefaults(c).minSize;
    var m: nat := 100 + WithDefaults(c).watermark;
    StartedSizes(c, n);
    StartedFresh(c, n);
    var start := StartRun(c);
    var served := ServeAll(start, m);
    run := Change(served, 0, Connecting);
    RunIsSteady(served);
    RunIsSteady(run);
    NoneFreeAfter(served.Final(), run.Final(), m);
    if run.Final().picker.Gcp? {
      PickerIsLive(run);
    }
    ReconnectingStalls(c, run.Final(), m);
  }

  lemma NoneFreeAfter(s: Pool<nat>, t: Pool<nat>, m: nat)
    requires Steady(s) && Full(s, m) && 0 in s.scStates && Changed(s, t, 0, Connecting)
    ensures t.cfg == s.cfg && |t.scRefs| == |s.scRefs| && t.published.Some?
    ensures 0 in t.scStates && t.scStates[0] == Connecting
    ensures forall r | r in t.scRefs.Values :: r in t.objs && t.objs[r].streamsCnt >= m
  {
    FullPicker(s, m);
    PickerIsPublic(s);
    hide Steady, Full, SomePending;
  }

  lemma ReconnectingStalls(c: Config, s: Pool<nat>, m: nat)
    requires Steady(s) && s.published.Some? && 0 in s.scStates && s.scStates[0] == Connecting
    requires forall r | r in s.scRefs.Values :: r in s.objs && s.objs[r].streamsCnt >= m
    requires s.cfg == Some(WithDefaults(c)) && |s.scRefs| < Limit(c) && m >= 100 && m >= WithDefaults(c).watermark
    requires s.picker.Gcp? ==> KnownPicker(s) && PickerRefs(s) <= s.scRefs.Values
    ensures s.picker.Gcp? && KnownPicker(s)
    ensures Actual(s, DocumentedWatermark(c)) == Waits && Documented(c, s) == Creates
  {
    hide Steady, SomePending, Lists, LeastBusy, SomeFree, ToInt32;
    ConnectingHasPicker(s, 0);
    ConnectingIsPending(s, 0);
    NoneFree(s, s.scRefs.Values, m, DocumentedWatermark(c));
    if s.picker.refs != [] {
      NoneFree(s, RefsOf(s.picker.refs), m, ToInt32(s.cfg.value.watermark));
      BusyIff(s, s.picker.refs);
    }
  }

  lemma ConnectingIsPending<R>(s: Pool<R>, sc: SubConn)
    requires sc in s.scStates && s.scStates[sc] == Connecting
    ensures SomePending(s)
  {
  }

  lemma PickerIsPublic<R>(s: Pool<R>)
    requires Steady(s) && s.picker.Gcp?
    ensures s.published.Some?
  {
    hide Indexed, Counted;
  }

  lemma ConnectingHasPicker<R>(s: Pool<R>, sc: SubConn)
    requires Steady(s) && s.published.Some? && sc in s.scStates && s.scStates[sc] == Connecting
    ensures s.picker.Gcp? && Lists(s.picker.refs, s.ReadyRefs())
  {
    hide Indexed, Counted, Lists;
    assert sc in Conns(s.scStates, Connecting);
  }
}
