/** A replacement that has been asked for stays pending until it is ready, and then takes over. */
module PoolPending {
  import opened Options
  import opened PoolSpec
  import opened PoolIndex
  import opened PoolPublication
  import opened PoolRefs
  import opened PoolWait

  /** The converse of Pending: a ref whose latest handle is not in use waits for it. */
  ghost predicate Awaits<R>(s: Pool<R>) {
    forall r | r in s.objs && s.objs[r].latest != s.objs[r].subConn ::
      s.objs[r].latest in s.refreshingScRefs && s.refreshingScRefs[s.objs[r].latest] == r
  }

  lemma SameIndexAwaits<R>(s: Pool<R>, t: Pool<R>)
    requires Awaits(s) && SameIndex(s, t)
    ensures Awaits(t)
  {
  }

  lemma AddAwaits<R>(s: Pool<R>, r: R)
    requires Awaits(s) && r !in s.objs
    ensures Awaits(AddSubConn(s, r))
  {
  }

  lemma {:induction false} AddAllAwaits<R>(s: Pool<R>, news: seq<R>)
    requires Awaits(s) && Distinct(news) && forall r | r in news :: r !in s.objs
    ensures Awaits(AddAll(s, news))
    decreases |news|
  {
    hide Awaits, AddSubConn;
    if |news| > 0 {
      var n := |news| - 1;
      AddAllAwaits(s, news[..n]);
      AddAllGrows(s, news[..n]);
      AddAwaits(AddAll(s, news[..n]), news[n]);
    }
  }

  lemma NewSubConnAwaits<R>(s: Pool<R>, r: R, ok: bool)
    requires Awaits(s) && r !in s.objs
    ensures Awaits(NewSubConn(s, r, ok))
  {
    hide SomePending, Awaits, AddSubConn;
    AddAwaits(s, r);
  }

  lemma ConfigureAwaits<R>(s: Pool<R>, c: Config, news: seq<R>)
    requires Awaits(s) && Distinct(news) && forall r | r in news :: r !in s.objs
    ensures Awaits(Configure(s, c, news))
  {
    hide AddAll, Awaits, Distinct, WithDefaults;
    var t := s.(cfg := Some(WithDefaults(c)));
    SameIndexAwaits(s, t);
    AddAllAwaits(t, news);
  }

  lemma TransitionOnPending<R>(s: Pool<R>, sc: SubConn, st: ConnState, order: seq<R>)
    requires sc in s.scStates
    ensures Transition(s, sc, st, order).refreshingScRefs == s.refreshingScRefs
  {
    hide UpdatedFallback, Recorded, Evaluated, MustPublish;
  }

  /** A state change takes sc off the pending replacements exactly when sc is one and is ready. */
  lemma ChangeOnPending<R>(s: Pool<R>, sc: SubConn, st: ConnState, order: seq<R>)
    requires CanChange(s, sc, st, order)
    ensures UpdateSubConnState(s, sc, st, order).refreshingScRefs
      == if sc in s.refreshingScRefs && st == Ready then s.refreshingScRefs - {sc} else s.refreshingScRefs
  {
    hide Lists, Transition, Replaced;
    if sc in s.refreshingScRefs && st == Ready {
      ReplaceOnRefs(s, sc);
      TransitionOnPending(Replace(s, sc), sc, st, order);
    } else if sc !in s.refreshingScRefs && sc in s.scStates {
      TransitionOnPending(s, sc, st, order);
    }
  }

  lemma ChangeAwaits<R>(s: Pool<R>, sc: SubConn, st: ConnState, order: seq<R>)
    requires Pending(s) && Awaits(s) && CanChange(s, sc, st, order)
    ensures Awaits(UpdateSubConnState(s, sc, st, order))
  {
    hide CanChange, UpdateSubConnState;
    ChangeOnRefs(s, sc, st, order);
    ChangeOnPending(s, sc, st, order);
  }

  lemma RefreshAwaits<R>(s: Pool<R>, r: R, ok: bool)
    requires Pending(s) && Awaits(s) && Handles(s) && r in s.objs
    ensures Awaits(Refresh(s, r, ok))
  {
  }

  lemma IndexedIsPending<R>(s: Pool<R>)
    requires Indexed(s)
    ensures Pending(s) && Handles(s)
  {
  }

  lemma CloseAwaits<R>(s: Pool<R>, id: nat, timedOut: bool, ok: bool)
    requires Indexed(s) && Awaits(s) && s.cfg.Some? && id in s.calls && s.calls[id].ref in s.objs
    ensures Awaits(DetectUnresponsive(Close(s, id), s.calls[id].ref, s.calls[id].started, timedOut, ok))
  {
    hide Indexed, Awaits, DetectUnresponsive, Refresh, Unresponsive;
    var r := s.calls[id].ref;
    var ref, refreshes := DetectShape(Close(s, id), r, s.calls[id].started, timedOut, ok);
    var m := Close(s, id).(objs := Close(s, id).objs[r := ref]);
    SameIndexKeeps(s, m);
    SameIndexAwaits(s, m);
    if refreshes {
      IndexedIsPending(m);
      RefreshAwaits(m, r, ok);
    }
  }

  lemma LookupSameIndex<R>(s: Pool<R>, key: string)
    requires s.cfg.Some? && KnownPicker(s)
    ensures SameIndex(s, AfterLookup(s, key))
  {
    hide GetReadySubConnRef;
  }

  lemma OpenSameIndex<R>(s: Pool<R>, id: nat, r: R)
    requires r in s.objs
    ensures SameIndex(s, Open(s, id, r))
  {
  }

  lemma BindSameIndex<R>(s: Pool<R>, key: string, sc: SubConn)
    requires Bind(s, key, sc).Done?
    ensures SameIndex(s, Bind(s, key, sc).pool)
  {
  }

  lemma UnbindSameIndex<R>(s: Pool<R>, key: string)
    requires Unbind(s, key).Done?
    ensures SameIndex(s, Unbind(s, key).pool)
  {
  }

  lemma PlainAwaits<R>(s: Pool<R>, action: Action<R>)
    requires Awaits(s) && Possible(s, action)
    requires action.DoAdmit? || action.DoLookup? || action.DoTicket? || action.DoOpen? || action.DoBind?
      || action.DoUnbind?
    ensures SameIndex(s, Perform(s, action)) && Awaits(Perform(s, action))
  {
    hide LeastBusy, GetReadySubConnRef, KnownPicker, Awaits, AfterLookup, Open, Bind, Unbind;
    match action {
      case DoLookup(key) => LookupSameIndex(s, key);
      case DoOpen(id, r) => OpenSameIndex(s, id, r);
      case DoBind(key, sc) => BindSameIndex(s, key, sc);
      case DoUnbind(key) => UnbindSameIndex(s, key);
      case _ =>
    }
    SameIndexAwaits(s, Perform(s, action));
  }

  lemma ActionAwaits<R>(s: Pool<R>, action: Action<R>)
    requires Indexed(s) && Awaits(s) && Possible(s, action)
    ensures Awaits(Perform(s, action))
  {
    assert Pending(s) && Handles(s);
    hide Indexed, Awaits, UpdateSubConnState, DetectUnresponsive, NewSubConn, Configure, LeastBusy, GetReadySubConnRef,
      Lists, Open, Close, Bind, Unbind, AfterLookup, Distinct, WithDefaults, KnownPicker, CanChange, Pending, Handles;
    match action {
      case DoConfigure(c, news) => ConfigureAwaits(s, c, news);
      case DoGrowFirst(r, ok) => NewSubConnAwaits(s, r, ok);
      case DoGrow(id, r, ok) =>
        SameIndexAwaits(s, s.(admitted := s.admitted - {id}));
        NewSubConnAwaits(s.(admitted := s.admitted - {id}), r, ok);
      case DoStateChange(sc, st, order) => ChangeAwaits(s, sc, st, order);
      case DoClose(id, timedOut, ok) => CloseAwaits(s, id, timedOut, ok);
      case _ => PlainAwaits(s, action);
    }
  }

  /** In every run a ref has asked for a replacement that it does not use yet exactly if that one is pending. */
  lemma {:induction false} PendingIsExact<R>(run: Run<R>)
    requires run.Legal()
    ensures Awaits(run.Final()) && Pending(run.Final())
    decreases |run.steps|
  {
    hide Perform, Possible, Awaits, Steady;
    RunIsSteady(run);
    SteadyIsPending(run.Final());
    if |run.steps| > 0 {
      var step := run.steps[|run.steps| - 1];
      var was := run.Front().Final();
      PendingIsExact(run.Front());
      RunIsSteady(run.Front());
      StepKeepsSteady(was, step);
      SteadyIsPending(Tick(was, step.at));
      SameIndexAwaits(was, Tick(was, step.at));
      ActionAwaits(Tick(was, step.at), step.action);
    } else {
      NothingAwaits<R>(run.start);
    }
  }

  lemma NothingAwaits<R>(start: int)
    ensures Awaits(Build<R>(start))
  {
  }

  lemma SteadyIsPending<R>(s: Pool<R>)
    requires Steady(s)
    ensures Indexed(s) && Pending(s) && Handles(s)
  {
  }

  // ----- what becomes of a pending replacement

  /** n has been asked for as the replacement of r's subconn, and is not ready yet. */
  ghost predicate Waits<R>(s: Pool<R>, n: SubConn, r: R) {
    && n in s.refreshingScRefs && s.refreshingScRefs[n] == r
    && r in s.objs && s.objs[r].refreshing && s.objs[r].subConn != n
  }

  /** n serves r, and is ready; r can be refreshed again. */
  ghost predicate TookOver<R>(s: Pool<R>, n: SubConn, r: R) {
    && r in s.objs && s.objs[r].subConn == n && !s.objs[r].refreshing
    && n !in s.refreshingScRefs && n in s.scRefs && s.scRefs[n] == r && s.StateOf(n) == Ready
  }

  predicate ReportsReady<R(==)>(action: Action<R>, n: SubConn) {
    action.DoStateChange? && action.sc == n && action.st == Ready
  }

  lemma DetectOnPending<R>(s: Pool<R>, r: R, started: int, timedOut: bool, ok: bool)
    requires r in s.objs && s.cfg.Some? && forall sc | sc in s.refreshingScRefs :: sc < s.issued
    ensures forall sc | sc in s.refreshingScRefs ::
      var t := DetectUnresponsive(s, r, started, timedOut, ok);
      sc in t.refreshingScRefs && t.refreshingScRefs[sc] == s.refreshingScRefs[sc]
  {
    hide Unresponsive, DetectUnresponsive, GotResp, CountedTimeout;
    var ref, refreshes := DetectShape(s, r, started, timedOut, ok);
  }

  lemma NewSubConnOnPending<R>(s: Pool<R>, r: R, ok: bool)
    ensures NewSubConn(s, r, ok).refreshingScRefs == s.refreshingScRefs
  {
    hide SomePending;
  }

  lemma {:induction false} AddAllOnPending<R>(s: Pool<R>, news: seq<R>)
    ensures AddAll(s, news).refreshingScRefs == s.refreshingScRefs
    decreases |news|
  {
    if |news| > 0 {
      AddAllOnPending(s, news[..|news| - 1]);
    }
  }

  lemma IssuedIsPending<R>(s: Pool<R>)
    requires Steady(s)
    ensures forall sc | sc in s.refreshingScRefs :: sc < s.issued
  {
    hide Live, Listed, Counted, UpToDate;
  }

  /** Nothing but the report that it is ready ends a wait. */
  lemma OthersLeavePending<R>(s: Pool<R>, action: Action<R>, n: SubConn)
    requires Steady(s) && Possible(s, action) && n in s.refreshingScRefs && !ReportsReady(action, n)
    ensures n in Perform(s, action).refreshingScRefs
    ensures Perform(s, action).refreshingScRefs[n] == s.refreshingScRefs[n]
  {
    hide Steady, UpdateSubConnState, DetectUnresponsive, NewSubConn, AddAll, LeastBusy, GetReadySubConnRef, Lists,
      Distinct, WithDefaults, KnownPicker, CanChange, Open, Bind, Unbind, AfterLookup, Close;
    IssuedIsPending(s);
    match action {
      case DoConfigure(c, news) => AddAllOnPending(s.(cfg := Some(WithDefaults(c))), news);
      case DoGrowFirst(r, ok) => NewSubConnOnPending(s, r, ok);
      case DoGrow(id, r, ok) => NewSubConnOnPending(s.(admitted := s.admitted - {id}), r, ok);
      case DoStateChange(sc, st, order) => ChangeOnPending(s, sc, st, order);
      case DoClose(id, timedOut, ok) =>
        CloseSame(s, id);
        DetectOnPending(Close(s, id), s.calls[id].ref, s.calls[id].started, timedOut, ok);
      case _ => PlainOnPending(s, action);
    }
  }

  lemma PlainOnPending<R>(s: Pool<R>, action: Action<R>)
    requires Possible(s, action)
    requires action.DoAdmit? || action.DoLookup? || action.DoTicket? || action.DoOpen? || action.DoBind?
      || action.DoUnbind?
    ensures Perform(s, action).refreshingScRefs == s.refreshingScRefs
  {
    hide LeastBusy, GetReadySubConnRef, KnownPicker;
  }

  lemma ReadyTakesOver<R>(s: Pool<R>, action: Action<R>, n: SubConn, r: R)
    requires Steady(s) && Possible(s, action) && Waits(s, n, r) && ReportsReady(action, n)
    requires Steady(Perform(s, action))
    ensures TookOver(Perform(s, action), n, r)
  {
    SteadyIsPending(s);
    hide Indexed, Possible, Perform, Pending, Handles;
    ReplacedIsReady(s, action, r);
    TakesHandle(s, action, r);
    ReadyIsLive(Perform(s, action), r);
  }

  lemma TakesHandle<R>(s: Pool<R>, action: Action<R>, r: R)
    requires Possible(s, action) && r in s.objs && Replaces(s, action, r)
    ensures var t := Perform(s, action);
      r in t.objs && t.objs[r].subConn == action.sc && !t.objs[r].refreshing && action.sc !in t.refreshingScRefs
  {
    hide UpdateSubConnState, Lists;
    ChangeOnRefs(s, action.sc, action.st, action.order);
    ChangeOnPending(s, action.sc, action.st, action.order);
  }

  lemma ReadyIsLive<R>(s: Pool<R>, r: R)
    requires Steady(s) && FoundReady(s, r)
    ensures s.objs[r].subConn in s.scRefs && s.scRefs[s.objs[r].subConn] == r
  {
    hide Pending, Listed, Counted, UpToDate;
  }

  /** A replacement waits across every step but the report that it is ready, and takes over with that. */
  lemma StepOnPending<R>(s: Pool<R>, step: Step<R>, n: SubConn, r: R)
    requires Steady(s) && Enabled(s, step) && Waits(s, n, r)
    ensures if ReportsReady(step.action, n) then TookOver(Apply(s, step), n, r) else Waits(Apply(s, step), n, r)
  {
    StepKeepsSteady(s, step);
    hide Steady, Possible, Perform;
    var u := Tick(s, step.at);
    if ReportsReady(step.action, n) {
      ReadyTakesOver(u, step.action, n, r);
    } else {
      OthersLeavePending(u, step.action, n);
      SteadyIsPending(Apply(s, step));
      hide Indexed, Handles;
    }
  }

  /**
   From the state in which a replacement is pending it stays pending for its ref until it is reported ready, and no
   longer: in every part of every run, whatever else happens.
   */
  lemma {:induction false} ReplacementStaysPending<R>(run: Run<R>, m: nat, k: nat, n: SubConn, r: R)
    requires run.Legal() && m <= k <= |run.steps| && Waits(StateAt(run, m), n, r)
    requires forall i | m <= i < k :: !ReportsReady(run.steps[i].action, n)
    ensures Waits(StateAt(run, k), n, r)
    ensures k < |run.steps| && ReportsReady(run.steps[k].action, n) ==> TookOver(StateAt(run, k + 1), n, r)
    decreases k
  {
    hide StateAt, Enabled, Apply, Steady, Waits, TookOver;
    if m < k {
      ReplacementStaysPending(run, m, k - 1, n, r);
      StateAfter(run, k - 1);
      StepOnPending(StateAt(run, k - 1), run.steps[k - 1], n, r);
    }
    if k < |run.steps| {
      StateAfter(run, k);
      StepOnPending(StateAt(run, k), run.steps[k], n, r);
    }
  }

  // ----- a replacement that could not be created

  /** r is marked as refreshing, and no replacement is pending for it. */
  ghost predicate Stuck<R>(s: Pool<R>, r: R) {
    r in s.objs && s.objs[r].refreshing && forall sc | sc in s.refreshingScRefs :: s.refreshingScRefs[sc] != r
  }

  lemma DetectAsksFor<R>(s: Pool<R>, r: R, started: int, timedOut: bool, ok: bool)
    requires r in s.objs && s.cfg.Some?
    ensures var t := DetectUnresponsive(s, r, started, timedOut, ok);
      t.refreshingScRefs == s.refreshingScRefs
      || (!s.objs[r].refreshing && t.refreshingScRefs == s.refreshingScRefs[s.issued := r])
  {
    hide Unresponsive, DetectUnresponsive, GotResp, CountedTimeout;
    var ref, refreshes := DetectShape(s, r, started, timedOut, ok);
    RecordKeepsHandle(s.objs[r], s.now);
  }

  /** Replacements are asked for on behalf of refs that are not marked yet. */
  lemma AskedForUnmarked<R>(s: Pool<R>, action: Action<R>, r: R)
    requires Possible(s, action) && Stuck(s, r)
    ensures forall sc | sc in Perform(s, action).refreshingScRefs :: Perform(s, action).refreshingScRefs[sc] != r
  {
    hide UpdateSubConnState, DetectUnresponsive, NewSubConn, AddAll, LeastBusy, GetReadySubConnRef, Lists,
      Distinct, WithDefaults, KnownPicker, CanChange, Open, Bind, Unbind, AfterLookup;
    match action {
      case DoConfigure(c, news) => AddAllOnPending(s.(cfg := Some(WithDefaults(c))), news);
      case DoGrowFirst(q, ok) => NewSubConnOnPending(s, q, ok);
      case DoGrow(id, q, ok) => NewSubConnOnPending(s.(admitted := s.admitted - {id}), q, ok);
      case DoStateChange(sc, st, order) => ChangeOnPending(s, sc, st, order);
      case DoClose(id, timedOut, ok) =>
        DetectAsksFor(Close(s, id), s.calls[id].ref, s.calls[id].started, timedOut, ok);
      case _ => PlainOnPending(s, action);
    }
  }

  lemma ActionLeavesStuck<R>(s: Pool<R>, action: Action<R>, r: R)
    requires Possible(s, action) && Stuck(s, r)
    ensures Stuck(Perform(s, action), r) && Perform(s, action).objs[r].subConn == s.objs[r].subConn
  {
    AskedForUnmarked(s, action, r);
    if Ends(s, action, r) {
      hide DetectUnresponsive, Close, Unresponsive;
      CloseOnRefs(s, action.id, action.timedOut, action.ok);
    } else {
      hide Perform, Possible;
      ActionOnRef(s, action, r);
    }
  }

  /** A ref whose replacement could not be created keeps its subconn and its mark for ever, so it is never replaced. */
  lemma {:induction false} StuckForGood<R>(run: Run<R>, m: nat, k: nat, r: R)
    requires run.Legal() && m <= k <= |run.steps| && Stuck(StateAt(run, m), r)
    ensures Stuck(StateAt(run, k), r) && StateAt(run, k).objs[r].subConn == StateAt(run, m).objs[r].subConn
    decreases k
  {
    hide StateAt, Enabled, Apply, Steady;
    if m < k {
      StuckForGood(run, m, k - 1, r);
      StateAfter(run, k - 1);
      StepLeavesStuck(StateAt(run, k - 1), run.steps[k - 1], r);
    }
  }

  lemma StepLeavesStuck<R>(s: Pool<R>, step: Step<R>, r: R)
    requires Enabled(s, step) && Stuck(s, r)
    ensures Stuck(Apply(s, step), r) && Apply(s, step).objs[r].subConn == s.objs[r].subConn
  {
    hide Possible, Perform;
    ActionLeavesStuck(Tick(s, step.at), step.action, r);
  }

  /** A call whose end marks a ref is a call on that ref, and a replacement is asked for. */
  lemma MarkAsks<R>(s: Pool<R>, id: nat, ok: bool, r: R)
    requires Handles(s) && Pending(s) && Possible(s, DoClose(id, true, ok)) && r in s.objs
    requires var t := Perform(s, DoClose(id, true, ok)); r in t.objs && !s.objs[r].refreshing && t.objs[r].refreshing
    ensures if ok then Waits(Perform(s, DoClose(id, true, ok)), s.issued, r)
            else Stuck(Perform(s, DoClose(id, true, ok)), r)
  {
    var c := Close(s, id);
    hide DetectUnresponsive, Unresponsive, Refresh, Waits, Stuck;
    CloseOnRefs(s, id, true, ok);
    CloseSame(s, id);
    var ref, refreshes := DetectShape(c, r, s.calls[id].started, true, ok);
    RecordKeepsHandle(c.objs[r], c.now);
    NoneIsPending(s, r);
    hide Pending, Handles, GotResp, CountedTimeout, Close;
    AsksOrSticks(c.(objs := c.objs[r := ref]), r, ok);
  }

  lemma NoneIsPending<R>(s: Pool<R>, r: R)
    requires Handles(s) && Pending(s) && r in s.objs && !s.objs[r].refreshing
    ensures s.objs[r].subConn < s.issued && forall sc | sc in s.refreshingScRefs :: s.refreshingScRefs[sc] != r
  {
  }

  lemma CloseSame<R>(s: Pool<R>, id: nat)
    requires id in s.calls && s.calls[id].ref in s.objs
    ensures var c := Close(s, id);
      && c.refreshingScRefs == s.refreshingScRefs && c.issued == s.issued && c.cfg == s.cfg
           && c.objs.Keys == s.objs.Keys
      && forall q | q in s.objs :: SameRecord(s.objs[q], c.objs[q])
  {
  }

  lemma AsksOrSticks<R>(s: Pool<R>, r: R, ok: bool)
    requires r in s.objs && !s.objs[r].refreshing && s.objs[r].subConn < s.issued
    requires forall sc | sc in s.refreshingScRefs :: s.refreshingScRefs[sc] != r
    ensures if ok then Waits(Refresh(s, r, ok), s.issued, r) else Stuck(Refresh(s, r, ok), r)
  {
  }

  lemma RecordKeepsHandle(ref: Ref, now: int)
    ensures GotResp(ref, now).subConn == ref.subConn && GotResp(ref, now).refreshing == ref.refreshing
    ensures CountedTimeout(ref).subConn == ref.subConn && CountedTimeout(ref).refreshing == ref.refreshing
  {
  }

  /**
   Every refresh asks for a replacement: if a subconn is created, it is the pending replacement from then on; if not,
   the ref is stuck.
   */
  lemma RefreshAsks<R>(run: Run<R>, id: nat, ok: bool, r: R)
    requires run.Legal() && |run.steps| > 0 && run.steps[|run.steps| - 1].action == DoClose(id, true, ok)
    requires r in run.Front().Final().objs && r in run.Final().objs
    requires !run.Front().Final().objs[r].refreshing && run.Final().objs[r].refreshing
    ensures if ok then Waits(run.Final(), run.Front().Final().issued, r) else Stuck(run.Final(), r)
  {
    hide Steady, Possible, Perform, Waits, Stuck, Pending, Handles, Indexed;
    var step := run.steps[|run.steps| - 1];
    var was := run.Front().Final();
    RunIsSteady(run.Front());
    StepKeepsSteady(was, step);
    SteadyIsPending(Tick(was, step.at));
    MarkAsks(Tick(was, step.at), id, ok, r);
  }
}
