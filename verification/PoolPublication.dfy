/** What the balancer has published is never out of date, although it publishes on selected events only. */
module PoolPublication {
  import opened Options
  import opened PoolSpec
  import opened PoolIndex

  // ----- the three counters

  ghost function Conns(m: map<SubConn, ConnState>, st: ConnState): set<SubConn> {
    set sc | sc in m && m[sc] == st
  }

  ghost function Below(n: nat): set<SubConn> {
    if n == 0 then {} else Below(n - 1) + {n - 1}
  }

  lemma {:induction false} BelowSize(n: nat)
    ensures |Below(n)| == n && forall sc: SubConn :: sc in Below(n) <==> sc < n
  {
    if n > 0 {
      BelowSize(n - 1);
    }
  }

  lemma ConnsAreFew(m: map<SubConn, ConnState>, st: ConnState, n: nat)
    requires forall sc | sc in m :: sc < n
    ensures |Conns(m, st)| <= n
  {
    BelowSize(n);
    SubsetSize(Conns(m, st), Below(n));
  }

  lemma {:induction false} SubsetSize(a: set<SubConn>, b: set<SubConn>)
    requires a <= b
    ensures |a| <= |b|
    decreases a
  {
    if x :| x in a {
      SubsetSize(a - {x}, b - {x});
    }
  }

  lemma ConnsOfUpdate(m: map<SubConn, ConnState>, sc: SubConn, st: ConnState, x: ConnState)
    ensures Conns(m[sc := st], x) == if st == x then Conns(m, x) + {sc} else Conns(m, x) - {sc}
    ensures Conns(m - {sc}, x) == Conns(m, x) - {sc}
  {
  }

  /** The counters are the numbers of live subconns in the three states. */
  ghost predicate Counted<R>(s: Pool<R>) {
    && s.evaluator.numReady == |Conns(s.scStates, Ready)|
    && s.evaluator.numConnecting == |Conns(s.scStates, Connecting)|
    && s.evaluator.numTransientFailure == |Conns(s.scStates, TransientFailure)|
  }

  lemma MoveCounts(m: map<SubConn, ConnState>, t: map<SubConn, ConnState>, sc: SubConn, st: ConnState, x: ConnState,
                   n: nat)
    requires sc in m && t == (if st == Shutdown then m - {sc} else m[sc := st]) && x != Shutdown
    requires forall c | c in m :: c < n
    requires n < TWO_64
    ensures |Conns(m, x)| < TWO_64 && |Conns(t, x)| < TWO_64
    ensures m[sc] == x ==> |Conns(m, x)| > 0
    ensures |Conns(t, x)| == |Conns(m, x)| - (if m[sc] == x then 1 else 0) + (if st == x then 1 else 0)
  {
    ConnsOfUpdate(m, sc, st, x);
    ConnsAreFew(m, x, n);
    ConnsAreFew(t, x, n);
    if m[sc] == x {
      assert sc in Conns(m, x);
      assert Conns(m, x) + {sc} == Conns(m, x);
    } else {
      assert Conns(m, x) - {sc} == Conns(m, x);
    }
  }

  lemma HandlesAreFew<R>(s: Pool<R>)
    requires Indexed(s)
    ensures forall sc | sc in s.scStates :: sc < s.issued
  {
    hide Pending, Listed;
    assert forall sc | sc in s.scStates :: s.scRefs[sc] in s.objs;
  }

  lemma EnterKeepsCounts<R>(s: Pool<R>, sc: SubConn, st: ConnState)
    requires Indexed(s) && Counted(s) && sc in s.scStates && s.issued < TWO_64
    ensures Counted(Entered(s, sc, st))
  {
    hide Live, Handles, Pending, Listed, Conns;
    HandlesAreFew(s);
    var t := Entered(s, sc, st);
    MoveCounts(s.scStates, t.scStates, sc, st, Ready, s.issued);
    MoveCounts(s.scStates, t.scStates, sc, st, Connecting, s.issued);
    MoveCounts(s.scStates, t.scStates, sc, st, TransientFailure, s.issued);
  }

  /** Only an Idle subconn can appear out of nothing; a replacement otherwise takes over the old state. */
  lemma RenamingKeepsConns(m: map<SubConn, ConnState>, was: SubConn, sc: SubConn, x: ConnState)
    requires sc !in m && sc != was && x != Idle
    ensures var t := m[sc := if was in m then m[was] else Idle] - {was};
      |Conns(t, x)| == |Conns(m, x)| && (Conns(t, x) == {} <==> Conns(m, x) == {})
  {
    var t := m[sc := if was in m then m[was] else Idle] - {was};
    if was in m && m[was] == x {
      assert was in Conns(m, x) && sc in Conns(t, x);
      assert Conns(t, x) == (Conns(m, x) - {was}) + {sc};
    } else {
      assert Conns(t, x) == Conns(m, x);
    }
  }

  lemma ReplaceKeepsConns<R>(s: Pool<R>, sc: SubConn, x: ConnState)
    requires Indexed(s) && sc in s.refreshingScRefs && s.refreshingScRefs[sc] in s.objs && x != Idle
    ensures |Conns(Replace(s, sc).scStates, x)| == |Conns(s.scStates, x)|
    ensures Conns(Replace(s, sc).scStates, x) == {} <==> Conns(s.scStates, x) == {}
  {
    hide Live, Handles, Pending, Listed, Conns;
    PendingIsNew(s, sc);
    RenamingKeepsConns(s.scStates, s.objs[s.refreshingScRefs[sc]].subConn, sc, x);
  }

  lemma PendingIsNew<R>(s: Pool<R>, sc: SubConn)
    requires Indexed(s) && sc in s.refreshingScRefs
    ensures sc !in s.scStates && s.refreshingScRefs[sc] in s.objs && s.objs[s.refreshingScRefs[sc]].subConn != sc
  {
    hide Listed;
  }

  // ----- the published state and picker

  /** The state of the pool recomputed from the states of its subconns. */
  ghost function Aggregate(m: map<SubConn, ConnState>): ConnState {
    if Conns(m, Ready) != {} then Ready
    else if Conns(m, Connecting) != {} then Connecting
    else TransientFailure
  }

  ghost predicate UpToDate<R>(s: Pool<R>) {
    match s.published
    case None =>
      && Conns(s.scStates, Ready) == {} && s.picker == NoSubConn
      && (s.state == Idle || (s.state == Connecting && Aggregate(s.scStates) == Connecting))
    case Some(p) =>
      && p == Published(s.state, s.picker)
      && s.state == Aggregate(s.scStates)
      && (if s.state == TransientFailure then s.picker == TransientFailurePicker
          else s.picker.Gcp? && Lists(s.picker.refs, s.ReadyRefs()))
  }

  lemma EvaluatedIsAggregate<R>(s: Pool<R>)
    requires Counted(s)
    ensures Evaluated(s.evaluator) == Aggregate(s.scStates)
  {
  }

  // ----- each way the pool can change

  lemma SameReadyRefs<R>(s: Pool<R>, t: Pool<R>)
    requires Conns(s.scStates, Ready) == Conns(t.scStates, Ready)
    requires forall c | c in Conns(s.scStates, Ready) :: c in s.scRefs && c in t.scRefs && t.scRefs[c] == s.scRefs[c]
    ensures s.ReadyRefs() == t.ReadyRefs()
  {
    forall r | r in s.ReadyRefs() ensures r in t.ReadyRefs() {
      var c :| c in s.scStates && s.scStates[c] == Ready && c in s.scRefs && s.scRefs[c] == r;
      assert c in Conns(t.scStates, Ready);
    }
    forall r | r in t.ReadyRefs() ensures r in s.ReadyRefs() {
      var c :| c in t.scStates && t.scStates[c] == Ready && c in t.scRefs && t.scRefs[c] == r;
      assert c in Conns(s.scStates, Ready);
    }
  }

  /** Nothing the published value depends on has changed. */
  lemma SamePublication<R>(s: Pool<R>, t: Pool<R>)
    requires Counted(s) && UpToDate(s)
    requires t.evaluator == s.evaluator && t.state == s.state && t.picker == s.picker && t.published == s.published
    requires |Conns(t.scStates, Ready)| == |Conns(s.scStates, Ready)|
    requires |Conns(t.scStates, Connecting)| == |Conns(s.scStates, Connecting)|
    requires |Conns(t.scStates, TransientFailure)| == |Conns(s.scStates, TransientFailure)|
    requires t.ReadyRefs() == s.ReadyRefs()
    ensures Counted(t) && UpToDate(t)
  {
    EvaluatedIsAggregate(s);
    EvaluatedIsAggregate(t);
  }

  lemma AddStaysUpToDate<R>(s: Pool<R>, r: R)
    requires Indexed(s) && Counted(s) && UpToDate(s) && r !in s.objs
    ensures Counted(AddSubConn(s, r)) && UpToDate(AddSubConn(s, r))
  {
    hide Handles, Pending, Listed, Counted, UpToDate;
    var t := AddSubConn(s, r);
    HandlesAreFew(s);
    forall x | x != Idle ensures Conns(t.scStates, x) == Conns(s.scStates, x) {
      ConnsOfUpdate(s.scStates, s.issued, Idle, x);
    }
    SameReadyRefs(s, t);
    SamePublication(s, t);
  }

  lemma ReplaceStaysUpToDate<R>(s: Pool<R>, sc: SubConn)
    requires Indexed(s) && Counted(s) && UpToDate(s) && sc in s.refreshingScRefs && s.refreshingScRefs[sc] in s.objs
    ensures Counted(Replace(s, sc)) && UpToDate(Replace(s, sc))
  {
    hide Indexed, Conns, Counted, UpToDate;
    ReplaceKeepsConns(s, sc, Ready);
    ReplaceKeepsConns(s, sc, Connecting);
    ReplaceKeepsConns(s, sc, TransientFailure);
    ReplaceKeepsReadyRefs(s, sc);
    SamePublication(s, Replace(s, sc));
  }

  lemma ReplaceKeepsReadyRefs<R>(s: Pool<R>, sc: SubConn)
    requires Indexed(s) && sc in s.refreshingScRefs && s.refreshingScRefs[sc] in s.objs
    ensures Replace(s, sc).ReadyRefs() == s.ReadyRefs()
  {
    hide Listed;
    PendingIsNew(s, sc);
    var t := Replace(s, sc);
    var was := s.objs[s.refreshingScRefs[sc]].subConn;
    hide Pending;
    forall r | r in s.ReadyRefs() ensures r in t.ReadyRefs() {
      var c :| c in s.scStates && s.scStates[c] == Ready && c in s.scRefs && s.scRefs[c] == r;
      assert s.owner[c] == r;
      var d := if c == was then sc else c;
      assert d in t.scStates && t.scStates[d] == Ready && t.scRefs[d] == r;
    }
    forall r | r in t.ReadyRefs() ensures r in s.ReadyRefs() {
      var d :| d in t.scStates && t.scStates[d] == Ready && d in t.scRefs && t.scRefs[d] == r;
      var c := if d == sc then was else d;
      assert c in s.scStates && s.scStates[c] == Ready && s.owner[c] == r;
    }
  }

  /** A transition that touches no ready subconn and not the failure status leaves what was published valid. */
  lemma QuietTransition<R>(s: Pool<R>, sc: SubConn, st: ConnState)
    requires Indexed(s) && Counted(s) && UpToDate(s) && sc in s.scStates && s.issued < TWO_64
    requires !MustPublish(s.scStates[sc], st, s.state, Entered(s, sc, st).state)
    ensures UpToDate(Entered(s, sc, st))
  {
    hide Handles, Pending, Listed;
    var t := Entered(s, sc, st);
    assert Conns(t.scStates, Ready) == Conns(s.scStates, Ready);
    SameReadyRefs(s, t);
    EnterKeepsCounts(s, sc, st);
    EvaluatedIsAggregate(s);
    EvaluatedIsAggregate(t);
  }

  lemma PublishedTransition<R>(s: Pool<R>, sc: SubConn, st: ConnState, order: seq<R>)
    requires Indexed(s) && Counted(s) && sc in s.scStates && s.issued < TWO_64
    requires Lists(order, Entered(s, sc, st).ReadyRefs())
    ensures UpToDate(Regenerated(Entered(s, sc, st), order)) && Counted(Regenerated(Entered(s, sc, st), order))
  {
    hide Indexed, Conns, Lists;
    EnterKeepsCounts(s, sc, st);
    EvaluatedIsAggregate(Entered(s, sc, st));
    assert Regenerated(Entered(s, sc, st), order).ReadyRefs() == Entered(s, sc, st).ReadyRefs();
  }

  lemma TransitionStaysUpToDate<R>(s: Pool<R>, sc: SubConn, st: ConnState, order: seq<R>)
    requires Indexed(s) && Counted(s) && UpToDate(s) && sc in s.scStates && s.issued < TWO_64
    requires Lists(order, Transition(s, sc, st, order).ReadyRefs())
    ensures Counted(Transition(s, sc, st, order)) && UpToDate(Transition(s, sc, st, order))
  {
    hide Indexed, Counted, UpToDate, Lists, Entered;
    var t := Entered(s, sc, st);
    if MustPublish(s.scStates[sc], st, s.state, t.state) {
      assert Regenerated(t, order).ReadyRefs() == t.ReadyRefs();
      PublishedTransition(s, sc, st, order);
    } else {
      QuietTransition(s, sc, st);
      EnterKeepsCounts(s, sc, st);
    }
  }

  lemma ChangeStaysUpToDate<R>(s: Pool<R>, sc: SubConn, st: ConnState, order: seq<R>)
    requires Indexed(s) && Counted(s) && UpToDate(s) && s.issued < TWO_64 && CanChange(s, sc, st, order)
    ensures Counted(UpdateSubConnState(s, sc, st, order)) && UpToDate(UpdateSubConnState(s, sc, st, order))
  {
    hide Indexed, Counted, UpToDate, Lists, Transition, Replace;
    if sc in s.refreshingScRefs && st == Ready {
      ReplaceKeepsIndex(s, sc);
      ReplaceStaysUpToDate(s, sc);
      assert Replace(s, sc).issued == s.issued by { IssuedByReplace(s, sc); }
      TransitionStaysUpToDate(Replace(s, sc), sc, st, order);
    } else if sc !in s.refreshingScRefs && sc in s.scStates {
      TransitionStaysUpToDate(s, sc, st, order);
    }
  }

  lemma IssuedByReplace<R>(s: Pool<R>, sc: SubConn)
    requires sc in s.refreshingScRefs && s.refreshingScRefs[sc] in s.objs
    ensures Replace(s, sc).issued == s.issued
  {
  }

  lemma {:induction false} AddAllStaysUpToDate<R>(s: Pool<R>, news: seq<R>)
    requires Indexed(s) && Counted(s) && UpToDate(s) && Distinct(news) && forall r | r in news :: r !in s.objs
    ensures Counted(AddAll(s, news)) && UpToDate(AddAll(s, news))
    decreases |news|
  {
    hide Indexed, Counted, UpToDate, AddSubConn;
    if |news| > 0 {
      var n := |news| - 1;
      AddAllStaysUpToDate(s, news[..n]);
      AddAllKeepsIndex(s, news[..n]);
      AddStaysUpToDate(AddAll(s, news[..n]), news[n]);
    }
  }

  /** All fields the publication depends on are as they were. */
  ghost predicate SameStates<R>(s: Pool<R>, t: Pool<R>) {
    && t.scStates == s.scStates && t.scRefs == s.scRefs && t.evaluator == s.evaluator
    && t.state == s.state && t.picker == s.picker && t.published == s.published
  }

  lemma SameStatesStayUpToDate<R>(s: Pool<R>, t: Pool<R>)
    requires Counted(s) && UpToDate(s) && SameStates(s, t)
    ensures Counted(t) && UpToDate(t)
  {
    hide Conns, Lists;
    assert t.ReadyRefs() == s.ReadyRefs();
  }

  lemma RefreshKeepsStates<R>(s: Pool<R>, r: R, ok: bool)
    requires r in s.objs
    ensures SameStates(s, Refresh(s, r, ok))
  {
  }

  lemma DetectKeepsStates<R>(s: Pool<R>, r: R, started: int, timedOut: bool, ok: bool)
    requires r in s.objs && s.cfg.Some?
    ensures SameStates(s, DetectUnresponsive(s, r, started, timedOut, ok))
  {
    hide DetectUnresponsive, Unresponsive, Refresh;
    var ref, refreshes := DetectShape(s, r, started, timedOut, ok);
    RefreshKeepsStates(s.(objs := s.objs[r := ref]), r, ok);
  }

  lemma NewSubConnStaysUpToDate<R>(s: Pool<R>, r: R, ok: bool)
    requires Indexed(s) && Counted(s) && UpToDate(s) && r !in s.objs
    ensures Counted(NewSubConn(s, r, ok)) && UpToDate(NewSubConn(s, r, ok))
  {
    hide Indexed, Counted, UpToDate, AddSubConn, SomePending;
    AddStaysUpToDate(s, r);
  }

  lemma ConfigureStaysUpToDate<R>(s: Pool<R>, c: Config, news: seq<R>)
    requires Indexed(s) && Counted(s) && UpToDate(s) && Distinct(news) && forall r | r in news :: r !in s.objs
    ensures Counted(Configure(s, c, news)) && UpToDate(Configure(s, c, news))
  {
    hide Indexed, Counted, UpToDate, AddAll, Distinct;
    var t := s.(cfg := Some(WithDefaults(c)));
    SameIndexKeeps(s, t);
    SameStatesStayUpToDate(s, t);
    AddAllStaysUpToDate(t, news);
  }

  /** The picks and the affinity commands publish nothing, and touch nothing that was published. */
  lemma PickKeepsStates<R>(s: Pool<R>, action: Action<R>)
    requires Possible(s, action)
    requires action.DoAdmit? || action.DoLookup? || action.DoTicket? || action.DoOpen? || action.DoClose?
      || action.DoBind? || action.DoUnbind?
    ensures SameStates(s, Perform(s, action)) && Perform(s, action).issued <= s.issued + 1
    ensures s.issued < TWO_64 ==> Perform(s, action).issued < TWO_64
  {
    hide DetectUnresponsive, LeastBusy, GetReadySubConnRef, KnownPicker, Unresponsive, CanChange, WithDefaults, Lists,
      Distinct, UpdateSubConnState, NewSubConn, Configure, Close;
    if action.DoClose? {
      CloseKeepsStates(s, action.id, action.timedOut, action.ok);
    }
  }

  lemma CloseKeepsStates<R>(s: Pool<R>, id: nat, timedOut: bool, ok: bool)
    requires s.cfg.Some? && id in s.calls && s.calls[id].ref in s.objs
    ensures var t := DetectUnresponsive(Close(s, id), s.calls[id].ref, s.calls[id].started, timedOut, ok);
      SameStates(s, t) && t.issued <= s.issued + 1
  {
    hide DetectUnresponsive, Unresponsive;
    var c := s.calls[id];
    DetectKeepsStates(Close(s, id), c.ref, c.started, timedOut, ok);
    var ref, refreshes := DetectShape(Close(s, id), c.ref, c.started, timedOut, ok);
  }

  lemma ChangeIssuesNothing<R>(s: Pool<R>, sc: SubConn, st: ConnState, order: seq<R>)
    requires CanChange(s, sc, st, order)
    ensures UpdateSubConnState(s, sc, st, order).issued == s.issued
  {
    hide Lists;
  }

  /** The balancer between two of its steps. */
  ghost predicate Steady<R>(s: Pool<R>) {
    Indexed(s) && Counted(s) && UpToDate(s) && s.issued < TWO_64
  }

  lemma ActionKeepsSteady<R>(s: Pool<R>, action: Action<R>)
    requires Steady(s) && Possible(s, action)
    ensures Steady(Perform(s, action))
  {
    hide Indexed, Counted, UpToDate, UpdateSubConnState, DetectUnresponsive, LeastBusy, GetReadySubConnRef, CanChange,
      Lists, Open, Close, Bind, Unbind, AfterLookup, Distinct, WithDefaults, KnownPicker, AddSubConn, SomePending,
      AddAll;
    ActionKeepsIndex(s, action);
    match action {
      case DoConfigure(c, news) => ConfigureIsSteady(s, c, news);
      case DoGrowFirst(r, ok) => GrowthIsSteady(s, s.admitted, r, ok);
      case DoStateChange(sc, st, order) => ChangeIsSteady(s, sc, st, order);
      case DoGrow(id, r, ok) => GrowthIsSteady(s, s.admitted - {id}, r, ok);
      case _ =>
        PickKeepsStates(s, action);
        SameStatesStayUpToDate(s, Perform(s, action));
    }
  }

  lemma ConfigureIsSteady<R>(s: Pool<R>, c: Config, news: seq<R>)
    requires Steady(s) && Possible(s, DoConfigure(c, news))
    ensures Steady(Configure(s, c, news))
  {
    hide Indexed, Counted, UpToDate, Distinct, WithDefaults;
    var t := s.(cfg := Some(WithDefaults(c)));
    ConfigureStaysUpToDate(s, c, news);
    ConfigureKeepsIndex(s, c, news);
    SameIndexKeeps(s, t);
    AddAllKeepsIndex(t, news);
  }

  lemma GrowthIsSteady<R>(s: Pool<R>, admitted: set<nat>, r: R, ok: bool)
    requires Steady(s) && r !in s.objs && s.issued + 1 < TWO_64
    ensures Steady(NewSubConn(s.(admitted := admitted), r, ok))
  {
    hide Indexed, Counted, UpToDate, SomePending;
    var t := s.(admitted := admitted);
    SideFieldsKeepIndex(s, 0, 0, admitted);
    SameStatesStayUpToDate(s, t);
    NewSubConnStaysUpToDate(t, r, ok);
    NewSubConnKeepsIndex(t, r, ok);
  }

  lemma ChangeIsSteady<R>(s: Pool<R>, sc: SubConn, st: ConnState, order: seq<R>)
    requires Steady(s) && Possible(s, DoStateChange(sc, st, order))
    ensures Steady(UpdateSubConnState(s, sc, st, order))
  {
    hide Indexed, Counted, UpToDate, Lists, UpdateSubConnState;
    ChangeStaysUpToDate(s, sc, st, order);
    ChangeKeepsIndex(s, sc, st, order);
    ChangeIssuesNothing(s, sc, st, order);
  }

  lemma StepKeepsSteady<R>(s: Pool<R>, step: Step<R>)
    requires Steady(s) && Enabled(s, step)
    ensures Steady(Tick(s, step.at)) && Steady(Apply(s, step))
  {
    hide Indexed, Counted, UpToDate, Possible, Perform;
    SideFieldsKeepIndex(s, step.at, 0, {});
    SameStatesStayUpToDate(s, Tick(s, step.at));
    ActionKeepsSteady(Tick(s, step.at), step.action);
  }

  lemma {:induction false} RunIsSteady<R>(run: Run<R>)
    requires run.Legal()
    ensures Steady(run.Final())
    decreases |run.steps|
  {
    hide Enabled, Apply;
    if |run.steps| > 0 {
      RunIsSteady(run.Front());
      hide Steady;
      StepKeepsSteady(run.Front().Final(), run.steps[|run.steps| - 1]);
    }
  }

  // ----- the promises

  /**
   In every reachable state the three uint64 counters are the numbers of live subconns in each state:
   they never passed below zero or beyond their range.
   */
  lemma CountersAreExact<R>(run: Run<R>)
    requires run.Legal()
    ensures var s := run.Final();
      && s.evaluator.numReady == |Conns(s.scStates, Ready)|
      && s.evaluator.numConnecting == |Conns(s.scStates, Connecting)|
      && s.evaluator.numTransientFailure == |Conns(s.scStates, TransientFailure)|
  {
    hide Indexed, UpToDate;
    RunIsSteady(run);
  }

  /** A counter is never decremented at zero. */
  lemma CountersNeverUnderflow<R>(run: Run<R>, sc: SubConn)
    requires run.Legal() && sc in run.Final().scStates
    ensures var s := run.Final();
      && (s.scStates[sc] == Ready ==> s.evaluator.numReady > 0)
      && (s.scStates[sc] == Connecting ==> s.evaluator.numConnecting > 0)
      && (s.scStates[sc] == TransientFailure ==> s.evaluator.numTransientFailure > 0)
  {
    hide Indexed, UpToDate;
    RunIsSteady(run);
    assert sc in Conns(run.Final().scStates, run.Final().scStates[sc]);
  }

  /** The maps of the balancer agree; a pending replacement is not live yet and is the only one of its ref. */
  lemma IndexesAgree<R>(run: Run<R>)
    requires run.Legal()
    ensures var s := run.Final();
      && s.scRefs.Keys == s.scStates.Keys
      && (forall sc | sc in s.scRefs :: s.scRefs[sc] in s.objs && s.objs[s.scRefs[sc]].subConn == sc)
      && (forall sc, sc' | sc in s.refreshingScRefs && sc' in s.refreshingScRefs ::
            s.refreshingScRefs[sc] == s.refreshingScRefs[sc'] ==> sc == sc')
      && s.refreshingScRefs.Keys !! s.scRefs.Keys
      && (forall sc | sc in s.refreshingScRefs ::
            s.refreshingScRefs[sc] in s.objs && s.objs[s.refreshingScRefs[sc]].refreshing)
  {
    RunIsSteady(run);
  }

  /** Every live ref is in scRefList exactly once. */
  lemma ListedOnce<R>(run: Run<R>, sc: SubConn)
    requires run.Legal() && sc in run.Final().scRefs
    ensures multiset(run.Final().scRefList)[run.Final().scRefs[sc]] == 1
  {
    RunIsSteady(run);
    hide Counted, UpToDate, Handles, Pending;
    var s := run.Final();
    var k :| 0 <= k < |s.scRefList| && s.scRefList[k] == s.scRefs[sc];
    OccursOnce(s.scRefList, k);
  }

  lemma {:induction false} OccursOnce<R>(q: seq<R>, k: nat)
    requires Distinct(q) && k < |q|
    ensures multiset(q)[q[k]] == 1
    decreases |q|
  {
    var n := |q| - 1;
    assert q == q[..n] + [q[n]];
    if k < n {
      OccursOnce(q[..n], k);
    } else {
      assert q[n] !in q[..n];
    }
  }

  /**
   Selective publication loses nothing: what was last published is what recomputing it now would give.
   Before the first publication no subconn is ready and the state is Idle or Connecting.
   */
  lemma PublicationIsCurrent<R>(run: Run<R>)
    requires run.Legal()
    ensures var s := run.Final();
      match s.published
      case None =>
        && (forall sc | sc in s.scStates :: s.scStates[sc] != Ready)
        && (s.state == Idle || s.state == Connecting)
      case Some(p) =>
        && p.state == Aggregate(s.scStates)
        && p.state == s.state && p.picker == s.picker
        && (p.picker == TransientFailurePicker <==> p.state == TransientFailure)
        && (p.state != TransientFailure ==>
              p.picker.Gcp? && Distinct(p.picker.refs) && (set r | r in p.picker.refs) == s.ReadyRefs())
  {
    hide Indexed, Counted;
    RunIsSteady(run);
    var s := run.Final();
    if s.published.None? {
      assert forall sc | sc in s.scStates :: s.scStates[sc] == Ready ==> sc in Conns(s.scStates, Ready);
    }
  }

  /** The picker of every reachable state holds only refs of the pool. */
  lemma PickerIsKnown<R>(s: Pool<R>)
    requires Indexed(s) && UpToDate(s)
    ensures KnownPicker(s)
  {
    hide Handles, Pending, Listed;
    if s.picker.Gcp? {
      forall r | r in s.picker.refs ensures r in s.objs {
        assert r in s.ReadyRefs();
      }
    }
  }
}
