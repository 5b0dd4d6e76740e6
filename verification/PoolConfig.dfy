/**
 The pool in terms of the configuration that was asked for, and where it departs from what grpc_gcp.proto promises.
 */
module PoolConfig {
  import opened Options
  import opened PoolSpec
  import opened PoolIndex
  import opened PoolPublication
  import opened PoolRefs
  import opened PoolSize

  /** The configuration passed to the first UpdateClientConnState of a run. */
  ghost function Asked<R>(run: Run<R>): Option<Config>
    decreases |run.steps|
  {
    if |run.steps| == 0 then None
    else if run.steps[|run.steps| - 1].action.DoConfigure? then Some(run.steps[|run.steps| - 1].action.c)
    else Asked(run.Front())
  }

  lemma AddAllKeepsConfig<R>(s: Pool<R>, c: Config, news: seq<R>)
    requires Distinct(news) && forall r | r in news :: r !in s.objs
    ensures Configure(s, c, news).cfg == Some(WithDefaults(c))
  {
    AddAllGrows(s.(cfg := Some(WithDefaults(c))), news);
  }

  lemma ActionKeepsConfig<R>(s: Pool<R>, action: Action<R>)
    requires Possible(s, action)
    ensures Perform(s, action).cfg == if action.DoConfigure? then Some(WithDefaults(action.c)) else s.cfg
  {
    hide Configure, NewSubConn, DetectUnresponsive, UpdateSubConnState, LeastBusy, GetReadySubConnRef, KnownPicker,
      Lists, Distinct, WithDefaults, Open, Bind, Unbind, AfterLookup, Close, CanChange, Replaced, AfterCall,
      Unresponsive;
    match action {
      case DoConfigure(c, news) => AddAllKeepsConfig(s, c, news);
      case DoGrowFirst(r, ok) => NewSubConnKeepsConfig(s, r, ok);
      case DoGrow(id, r, ok) => NewSubConnKeepsConfig(s.(admitted := s.admitted - {id}), r, ok);
      case DoStateChange(sc, st, order) => ChangeOnRefs(s, sc, st, order);
      case DoClose(id, timedOut, ok) => CloseOnRefs(s, id, timedOut, ok);
      case _ => PlainActionOnRefs(s, action);
    }
  }

  lemma NewSubConnKeepsConfig<R>(s: Pool<R>, r: R, ok: bool)
    ensures NewSubConn(s, r, ok).cfg == s.cfg
  {
    hide SomePending;
  }

  lemma {:induction false} ConfigIsAsked<R>(run: Run<R>)
    requires run.Legal()
    ensures run.Final().cfg == if Asked(run).Some? then Some(WithDefaults(Asked(run).value)) else None
    decreases |run.steps|
  {
    hide WithDefaults;
    if |run.steps| > 0 {
      var step := run.steps[|run.steps| - 1];
      ConfigIsAsked(run.Front());
      hide Possible, Perform;
      ActionKeepsConfig(Tick(run.Front().Final(), step.at), step.action);
    }
  }

  // ----- max_size

  /** The limit in force for a configuration: 0, documented as unlimited, stands for 4. */
  function Limit(c: Config): nat {
    if c.maxSize == 0 then 4 else c.maxSize
  }

  /** The limit asked for is kept exactly if it is not 0, and it is the only limit in force. */
  lemma LimitIsKeptIff(c: Config)
    ensures WithDefaults(c).maxSize == Limit(c)
    ensures WithDefaults(c).maxSize == c.maxSize <==> c.maxSize != 0
  {
  }

  /** A pool asked for without limit is bounded like any other: by 4, or by the minimum size asked for. */
  lemma AskedLimitHolds<R>(run: Run<R>, n: nat)
    requires run.Legal() && InProgress(run, n) && n > 0 && Asked(run).Some?
    ensures var c := Asked(run).value;
      |run.Final().scRefs| + |run.Final().admitted| <= Max(Max(c.minSize, 1), Limit(c)) + n - 1 + Revivals(run)
  {
    hide Enabled, Apply, InProgress;
    ConfigIsAsked(run);
    PoolIsBounded(run, n);
  }

  /**
   The first update brings the pool to the minimum that was asked for, or to one subconn, and puts everything else that
   was asked for in force, except for zeros.
   */
  lemma FirstUpdate<R>(run: Run<R>, c: Config, news: seq<R>)
    requires run.Legal() && |run.steps| > 0 && run.steps[|run.steps| - 1].action == DoConfigure(c, news)
    ensures var t := run.Final();
      && |t.scRefs| == Max(c.minSize, 1) && t.scRefList == news && t.cfg.Some?
      && t.cfg.value.minSize == Max(c.minSize, 1) && t.cfg.value.maxSize == Limit(c)
      && t.cfg.value.watermark == (if c.watermark == 0 then 100 else c.watermark)
      && t.cfg.value.fallbackToReady == c.fallbackToReady && t.cfg.value.roundRobinBind == c.roundRobinBind
      && t.cfg.value.unresponsiveMs == c.unresponsiveMs && t.cfg.value.unresponsiveCalls == c.unresponsiveCalls
  {
    hide Steady, Bounded, Possible, Perform;
    var was, at := run.Front().Final(), run.steps[|run.steps| - 1].at;
    RunIsBounded(run.Front(), Peak(run.Front()));
    RunIsSteady(run.Front());
    NothingConfigured(was, Peak(run.Front()), Revivals(run.Front()), Shutdowns(run.Front()), Tick(was, at), c, news);
    ConfiguredSizes(Tick(was, at), c, news);
  }

  lemma NothingConfigured<R>(s: Pool<R>, n: nat, rev: nat, downs: nat, t: Pool<R>, c: Config, news: seq<R>)
    requires Bounded(s, n, rev, downs) && Steady(s) && t == Tick(s, t.now) && Possible(t, DoConfigure(c, news))
    ensures Unused(t) && Indexed(t)
  {
    hide Counted, UpToDate;
    SameIndexKeeps(s, t);
  }

  lemma ConfiguredSizes<R>(s: Pool<R>, c: Config, news: seq<R>)
    requires Unused(s) && Indexed(s) && Possible(s, DoConfigure(c, news))
    ensures var t := Perform(s, DoConfigure(c, news));
      |t.scRefs| == |news| == WithDefaults(c).minSize && t.scRefList == news && t.cfg == Some(WithDefaults(c))
  {
    hide Indexed, AddAll, Distinct;
    var t := s.(cfg := Some(WithDefaults(c)));
    SameIndexKeeps(s, t);
    AddAllSizes(t, news);
    AddAllLists(t, news);
  }

  lemma {:induction false} AddAllLists<R>(s: Pool<R>, news: seq<R>)
    ensures AddAll(s, news).scRefList == s.scRefList + news
    decreases |news|
  {
    if |news| > 0 {
      AddAllLists(s, news[..|news| - 1]);
    } else {
      assert s.scRefList + news == s.scRefList;
    }
  }

  // ----- picks

  /**
   What a pick without a bound key does, and what grpc_gcp.proto says it does. It creates a subconn, or waits for one:
   in either case it is tried again with the next picker.
   */
  datatype Behaviour = TakesFree | TakesBusy | Creates | Waits

  /** Fewer than `watermark` calls are under way on some of the refs. */
  ghost predicate SomeFree<R>(s: Pool<R>, refs: set<R>, watermark: int) {
    exists r :: r in refs && r in s.objs && s.objs[r].streamsCnt < watermark
  }

  ghost function RefsOf<R>(refs: seq<R>): set<R> {
    set r | r in refs
  }

  ghost function PickerRefs<R>(s: Pool<R>): set<R> {
    if s.picker.Gcp? then RefsOf(s.picker.refs) else {}
  }

  /** The pick of the published picker, which is a gcpPicker; refs with fewer than `watermark` calls are free. */
  ghost function Actual<R>(s: Pool<R>, watermark: int): Behaviour
    requires s.cfg.Some? && s.picker.Gcp? && KnownPicker(s)
  {
    var refs := s.picker.refs;
    if refs == [] then Waits
    else
      match LeastBusy(s, refs)
      case Chosen(r) => if SomeFree(s, {r}, watermark) then TakesFree else TakesBusy
      case Busy => if SomePending(s) then Waits else Creates
  }

  /** Lines 29-34 of grpc_gcp.proto, which speak of all subconns; c is the configuration as it was asked for. */
  ghost function Documented<R>(c: Config, s: Pool<R>): Behaviour {
    if SomeFree(s, s.scRefs.Values, DocumentedWatermark(c)) then TakesFree
    else if c.maxSize == 0 || |s.scRefs| < c.maxSize then Creates
    else Waits
  }

  /** Valid watermarks are 1 to 100; any other value is to be ignored. */
  function DocumentedWatermark(c: Config): int {
    if 1 <= c.watermark <= 100 then c.watermark else 100
  }

  /** The code ignores 0 only. */
  lemma WatermarkIsDocumentedIff(c: Config)
    ensures ToInt32(WithDefaults(c).watermark) == DocumentedWatermark(c) <==> c.watermark <= 100
  {
  }

  /** Whether a pick does what is documented, by the watermarks that are documented and in force. */
  ghost predicate AsDocumented<R>(c: Config, s: Pool<R>, documented: int, inForce: int) {
    if PickerRefs(s) == {} then
      !SomeFree(s, s.scRefs.Values, documented) && c.maxSize != 0 && |s.scRefs| >= c.maxSize
    else if SomeFree(s, PickerRefs(s), documented) then
      SomeFree(s, PickerRefs(s), inForce) || |s.scRefs| >= Limit(c)
    else
      && !SomeFree(s, s.scRefs.Values, documented) && !SomeFree(s, PickerRefs(s), inForce)
      && |s.scRefs| < Limit(c) && !SomePending(s)
  }

  /**
   When a pick does what is documented, in every reachable state and for every configuration. For a watermark of at
   most 100 and a picker with refs that is exactly when one of those is free, or else when every subconn is at the
   watermark, the pool is below its limit, and no subconn is idle or connecting.
   */
  lemma PickIsDocumentedIff<R>(run: Run<R>)
    requires run.Legal() && Asked(run).Some? && run.Final().picker.Gcp?
    ensures run.Final().cfg == Some(WithDefaults(Asked(run).value)) && KnownPicker(run.Final())
    ensures var c, s := Asked(run).value, run.Final();
      Actual(s, DocumentedWatermark(c)) == Documented(c, s) <==>
      AsDocumented(c, s, DocumentedWatermark(c), ToInt32(s.cfg.value.watermark))
    ensures var c, s := Asked(run).value, run.Final();
      c.watermark <= 100 && s.picker.refs != [] ==>
        (Actual(s, DocumentedWatermark(c)) == Documented(c, s) <==>
         || SomeFree(s, PickerRefs(s), DocumentedWatermark(c))
         || (&& !SomeFree(s, s.scRefs.Values, DocumentedWatermark(c))
             && |s.scRefs| < Limit(c) && !SomePending(s)))
  {
    hide Enabled, Apply;
    var c, s := Asked(run).value, run.Final();
    ConfigIsAsked(run);
    WatermarkIsDocumentedIff(c);
    PickerIsLive(run);
    if s.picker.refs != [] {
      assert s.picker.refs[0] in PickerRefs(s);
      BusyIff(s, s.picker.refs);
      if LeastBusy(s, s.picker.refs).Chosen? {
        ChosenIsFreeIff(s, s.picker.refs, DocumentedWatermark(c));
      }
    }
    hide LeastBusy, ToInt32, SomeFree, PickerRefs, DocumentedWatermark, SomePending, Run.Final, Run.Legal, Asked;
  }

  /** The refs of the published picker are live, so one that is free is a free one of the pool. */
  lemma PickerIsLive<R>(run: Run<R>)
    requires run.Legal() && run.Final().picker.Gcp?
    ensures KnownPicker(run.Final()) && PickerRefs(run.Final()) <= run.Final().scRefs.Values
    ensures forall w :: SomeFree(run.Final(), PickerRefs(run.Final()), w) ==>
              SomeFree(run.Final(), run.Final().scRefs.Values, w)
  {
    hide Run.Final, Run.Legal, Indexed, Counted;
    RunIsSteady(run);
    PublicationIsCurrent(run);
    PickerIsKnown(run.Final());
  }

  lemma ChosenIsFreeIff<R>(s: Pool<R>, refs: seq<R>, watermark: int)
    requires |refs| > 0 && (forall r | r in refs :: r in s.objs) && s.cfg.Some? && LeastBusy(s, refs).Chosen?
    ensures SomeFree(s, {LeastBusy(s, refs).ref}, watermark) <==> SomeFree(s, RefsOf(refs), watermark)
  {
    var counts := Streams(s, refs);
    var k := LeastIndex(counts);
    assert LeastBusy(s, refs).ref == refs[k];
    if SomeFree(s, RefsOf(refs), watermark) {
      var r :| r in refs && s.objs[r].streamsCnt < watermark;
      var i :| 0 <= i < |refs| && refs[i] == r;
      assert counts[k] <= counts[i];
    }
  }

  lemma BusyIff<R>(s: Pool<R>, refs: seq<R>)
    requires |refs| > 0 && (forall r | r in refs :: r in s.objs) && s.cfg.Some?
    ensures LeastBusy(s, refs).Busy? <==>
      !SomeFree(s, RefsOf(refs), ToInt32(s.cfg.value.watermark)) &&
      (s.cfg.value.maxSize == 0 || |s.scRefs| < s.cfg.value.maxSize)
  {
    hide ToInt32;
    var counts := Streams(s, refs);
    var k := LeastIndex(counts);
    assert refs[k] in refs;
    if r :| r in refs && s.objs[r].streamsCnt < ToInt32(s.cfg.value.watermark) {
      var i :| 0 <= i < |refs| && refs[i] == r;
      assert counts[k] <= counts[i];
    }
  }
}
