/** The wait of a round-robin pick for its ref, while other steps go on, gcp_balancer.go:387-412. */
module PoolWait {
  import opened Options
  import opened PoolSpec
  import opened PoolIndex
  import opened PoolPublication
  import opened PoolRefs

  // ----- the states a waiting goroutine looks at

  ghost function Prefix<R>(run: Run<R>, n: nat): Run<R>
    requires n <= |run.steps|
  {
    run.(steps := run.steps[..n])
  }

  lemma {:induction false} PrefixIsLegal<R>(run: Run<R>, n: nat)
    requires run.Legal() && n <= |run.steps|
    ensures Prefix(run, n).Legal()
    decreases |run.steps|
  {
    if n < |run.steps| {
      assert Prefix(run.Front(), n) == Prefix(run, n);
      PrefixIsLegal(run.Front(), n);
    } else {
      assert Prefix(run, n) == run;
    }
  }

  /** The state of a run before its n-th step. */
  ghost function StateAt<R>(run: Run<R>, n: nat): Pool<R>
    requires run.Legal() && n <= |run.steps|
  {
    PrefixIsLegal(run, n);
    Prefix(run, n).Final()
  }

  lemma StateAfter<R>(run: Run<R>, n: nat)
    requires run.Legal() && n < |run.steps|
    ensures Steady(StateAt(run, n)) && Enabled(StateAt(run, n), run.steps[n])
    ensures StateAt(run, n + 1) == Apply(StateAt(run, n), run.steps[n])
  {
    hide Enabled, Apply, Steady;
    PrefixIsLegal(run, n);
    PrefixIsLegal(run, n + 1);
    assert Prefix(run, n + 1).Front() == Prefix(run, n);
    RunIsSteady(Prefix(run, n));
  }

  /** The i-th look sees the pool before step at[i] of the run; any steps may lie between two looks. */
  ghost predicate Sees<R>(run: Run<R>, at: seq<nat>, looks: seq<Pool<R>>) {
    && run.Legal() && |at| == |looks|
    && (forall i | 0 <= i < |at| :: at[i] <= |run.steps| && looks[i] == StateAt(run, at[i]))
    && forall i, j | 0 <= i <= j < |at| :: at[i] <= at[j]
  }

  /** The test of the loop; the handle of the ref is read anew each time. */
  predicate FoundReady<R(==)>(s: Pool<R>, r: R) {
    r in s.objs && s.StateOf(s.objs[r].subConn) == Ready
  }

  lemma StepKeepsRefs<R>(s: Pool<R>, step: Step<R>)
    requires Enabled(s, step)
    ensures s.objs.Keys <= Apply(s, step).objs.Keys
  {
    hide Possible, Perform;
    ActionGrows(Tick(s, step.at), step.action);
  }

  lemma {:induction false} RefsStay<R>(run: Run<R>, m: nat, n: nat, r: R)
    requires run.Legal() && m <= n <= |run.steps| && r in StateAt(run, m).objs
    ensures r in StateAt(run, n).objs
    decreases n
  {
    hide StateAt, Enabled, Apply, Steady;
    if m < n {
      RefsStay(run, m, n - 1, r);
      StateAfter(run, n - 1);
      StepKeepsRefs(StateAt(run, n - 1), run.steps[n - 1]);
    }
  }

  /** A ref whose subconn is ready is one of the ready refs, and in the picker that was last published. */
  lemma ReadyIsPublished<R>(s: Pool<R>, r: R)
    requires Steady(s) && FoundReady(s, r)
    ensures r in s.ReadyRefs() && s.published.Some? && s.picker.Gcp? && r in s.picker.refs
    ensures s.published == Some(Published(Ready, s.picker))
  {
    hide Counted, Pending, Listed;
    var sc := s.objs[r].subConn;
    assert s.owner[sc] == r && s.scRefs[sc] == r;
    assert sc in Conns(s.scStates, Ready);
    hide Live, Handles;
    assert r in s.ReadyRefs();
  }

  lemma LookIsSteady<R>(run: Run<R>, at: seq<nat>, looks: seq<Pool<R>>, i: nat, r: R)
    requires Sees(run, at, looks) && i < |looks| && r in looks[0].objs
    ensures Steady(looks[i]) && r in looks[i].objs
  {
    RefsStay(run, at[0], at[i], r);
    PrefixIsLegal(run, at[i]);
    RunIsSteady(Prefix(run, at[i]));
  }

  datatype Waited<R> = FoundRef(ref: R, look: nat) | Ended(ref: R, look: nat) | StillWaiting

  /**
   The loop, for any interleaving: ended[i] says that after look i the wait was ended by the context rather than by the
   ticker or the signal. The ref in turn is returned in either case; unless the context has ended it is ready at the
   last look, and so one of the refs of the picker published then. There is no other way out.
   */
  method AwaitReady<R(==)>(looks: seq<Pool<R>>, ended: seq<bool>, r: R, ghost run: Run<R>, ghost at: seq<nat>)
    returns (w: Waited<R>)
    requires Sees(run, at, looks) && |ended| == |looks| && (|looks| > 0 ==> r in looks[0].objs)
    ensures w.FoundRef? ==>
      && w.ref == r && w.look < |looks| && r in looks[w.look].ReadyRefs()
      && looks[w.look].picker.Gcp? && r in looks[w.look].picker.refs
      && looks[w.look].published == Some(Published(Ready, looks[w.look].picker))
    ensures w.Ended? ==> w.ref == r && w.look < |looks| && ended[w.look] && !FoundReady(looks[w.look], r)
    ensures !w.StillWaiting? ==> forall i | 0 <= i < w.look :: !FoundReady(looks[i], r) && !ended[i]
    ensures w.StillWaiting? <==> forall i | 0 <= i < |looks| :: !FoundReady(looks[i], r) && !ended[i]
  {
    hide Sees, Steady;
    var i := 0;
    while i < |looks|
      invariant i <= |looks| && forall k | 0 <= k < i :: !FoundReady(looks[k], r) && !ended[k]
    {
      LookIsSteady(run, at, looks, i, r);
      var scStates := looks[i].scStates;
      var sc := looks[i].objs[r].subConn;
      if sc in scStates && scStates[sc] == Ready {
        ReadyIsPublished(looks[i], r);
        return FoundRef(r, i);
      }
      if ended[i] {
        return Ended(r, i);
      }
      i := i + 1;
    }
    return StillWaiting;
  }

  // ----- steps of others during the wait

  /** The steps can be taken from s on, one after the other ... */
  ghost predicate CanDo<R>(s: Pool<R>, steps: seq<Step<R>>)
    decreases |steps|, 0
  {
    |steps| == 0 ||
    (CanDo(s, steps[..|steps| - 1]) && Enabled(Did(s, steps[..|steps| - 1]), steps[|steps| - 1]))
  }

  /** ... and lead to this state. */
  ghost function Did<R>(s: Pool<R>, steps: seq<Step<R>>): Pool<R>
    requires CanDo(s, steps)
    decreases |steps|, 1
  {
    if |steps| == 0 then s else Apply(Did(s, steps[..|steps| - 1]), steps[|steps| - 1])
  }

  lemma DidOneMore<R>(s: Pool<R>, steps: seq<Step<R>>, step: Step<R>)
    requires CanDo(s, steps) && Enabled(Did(s, steps), step)
    ensures CanDo(s, steps + [step]) && Did(s, steps + [step]) == Apply(Did(s, steps), step)
  {
    hide Enabled, Apply;
    assert (steps + [step])[..|steps|] == steps;
  }

  lemma {:induction false} DidIsSteady<R>(s: Pool<R>, steps: seq<Step<R>>)
    requires CanDo(s, steps) && Steady(s)
    ensures Steady(Did(s, steps))
    decreases |steps|
  {
    if |steps| > 0 {
      hide Enabled, Apply, Steady;
      DidIsSteady(s, steps[..|steps| - 1]);
      StepKeepsSteady(Did(s, steps[..|steps| - 1]), steps[|steps| - 1]);
    }
  }

  /** Steps that follow on others. */
  lemma {:induction false} DidMore<R>(s: Pool<R>, steps: seq<Step<R>>, more: seq<Step<R>>)
    requires CanDo(s, steps) && CanDo(Did(s, steps), more)
    ensures CanDo(s, steps + more) && Did(s, steps + more) == Did(Did(s, steps), more)
    decreases |more|
  {
    hide Enabled, Apply;
    if |more| == 0 {
      assert steps + more == steps;
    } else {
      var n := |more| - 1;
      DidMore(s, steps, more[..n]);
      DidOneMore(s, steps + more[..n], more[n]);
      assert steps + more == steps + more[..n] + [more[n]];
    }
  }

  /** One action, at once. */
  lemma DidNow<R>(s: Pool<R>, action: Action<R>)
    requires Possible(s, action)
    ensures CanDo(s, [Step(action, s.now)]) && Did(s, [Step(action, s.now)]) == Perform(s, action)
  {
    hide Possible, Perform;
    var steps := [Step(action, s.now)];
    assert steps[..0] == [] && Tick(s, s.now) == s;
    assert CanDo(s, steps[..0]) && Did(s, steps[..0]) == s;
  }

  // ----- a shutdown during the wait

  /** The subconn of r has been shut down, and nothing has taken its place. */
  predicate Gone<R(==)>(s: Pool<R>, r: R) {
    r in s.objs && s.objs[r].subConn !in s.scRefs
  }

  lemma GoneIsNotReady<R>(s: Pool<R>, r: R)
    requires Steady(s) && Gone(s, r)
    ensures !FoundReady(s, r)
  {
    hide Handles, Pending, Listed, Counted, UpToDate;
  }

  lemma AddLeavesGone<R>(s: Pool<R>, q: R, r: R)
    requires Indexed(s) && Gone(s, r) && q !in s.objs
    ensures Gone(AddSubConn(s, q), r)
  {
    hide Live, Pending, Listed;
  }

  lemma {:induction false} AddAllLeavesGone<R>(s: Pool<R>, news: seq<R>, r: R)
    requires Indexed(s) && Gone(s, r) && Distinct(news) && forall q | q in news :: q !in s.objs
    ensures Gone(AddAll(s, news), r)
    decreases |news|
  {
    hide Indexed, AddSubConn, Gone;
    if |news| > 0 {
      var n := |news| - 1;
      AddAllLeavesGone(s, news[..n], r);
      AddAllKeepsIndex(s, news[..n]);
      AddLeavesGone(AddAll(s, news[..n]), news[n], r);
    }
  }

  lemma GrowLeavesGone<R>(s: Pool<R>, admitted: set<nat>, q: R, ok: bool, r: R)
    requires Indexed(s) && Gone(s, r) && q !in s.objs
    ensures Gone(NewSubConn(s.(admitted := admitted), q, ok), r)
  {
    hide Indexed, SomePending, AddSubConn;
    SideFieldsKeepIndex(s, 0, 0, admitted);
    AddLeavesGone(s.(admitted := admitted), q, r);
  }

  lemma TransitionShrinks<R>(s: Pool<R>, sc: SubConn, st: ConnState, order: seq<R>)
    requires sc in s.scStates
    ensures Transition(s, sc, st, order).scRefs.Keys <= s.scRefs.Keys && Transition(s, sc, st, order).objs == s.objs
  {
    hide UpdatedFallback, Recorded, Evaluated, MustPublish;
  }

  /** Another ref's replacement has a handle of its own. */
  lemma ReplaceLeavesGone<R>(s: Pool<R>, sc: SubConn, r: R)
    requires Handles(s) && Pending(s) && Gone(s, r) && sc in s.refreshingScRefs && s.refreshingScRefs[sc] != r
    ensures s.refreshingScRefs[sc] in s.objs && Gone(Replace(s, sc), r)
  {
    hide Replaced;
  }

  lemma ChangeLeavesGone<R>(s: Pool<R>, sc: SubConn, st: ConnState, order: seq<R>, r: R)
    requires Indexed(s) && CanChange(s, sc, st, order) && Gone(s, r) && !Replaces(s, DoStateChange(sc, st, order), r)
    ensures Gone(UpdateSubConnState(s, sc, st, order), r)
  {
    hide Live, Handles, Pending, Listed, Lists, Transition, Replace;
    if sc in s.refreshingScRefs && st == Ready {
      ReplaceLeavesGone(s, sc, r);
      ReplaceOnRefs(s, sc);
      TransitionShrinks(Replace(s, sc), sc, st, order);
    } else if sc !in s.refreshingScRefs && sc in s.scStates {
      TransitionShrinks(s, sc, st, order);
    }
  }

  lemma CloseLeavesGone<R>(s: Pool<R>, id: nat, timedOut: bool, ok: bool, r: R)
    requires s.cfg.Some? && id in s.calls && s.calls[id].ref in s.objs && Gone(s, r)
    ensures Gone(DetectUnresponsive(Close(s, id), s.calls[id].ref, s.calls[id].started, timedOut, ok), r)
  {
    hide DetectUnresponsive, Close, Unresponsive;
    CloseOnRefs(s, id, timedOut, ok);
    CloseKeepsStates(s, id, timedOut, ok);
  }

  lemma PlainLeavesGone<R>(s: Pool<R>, action: Action<R>, r: R)
    requires Possible(s, action) && Gone(s, r)
    requires action.DoAdmit? || action.DoLookup? || action.DoTicket? || action.DoOpen? || action.DoBind?
      || action.DoUnbind?
    ensures Gone(Perform(s, action), r)
  {
    hide Possible, Perform;
    PlainActionOnRefs(s, action);
    PickKeepsStates(s, action);
  }

  lemma ActionLeavesGone<R>(s: Pool<R>, action: Action<R>, r: R)
    requires Indexed(s) && Possible(s, action) && Gone(s, r) && !Replaces(s, action, r)
    ensures Gone(Perform(s, action), r)
  {
    hide Indexed, Gone, Replaces, UpdateSubConnState, DetectUnresponsive, NewSubConn, AddAll, LeastBusy,
      GetReadySubConnRef, Lists, Open, Close, Bind, Unbind, AfterLookup, Distinct, WithDefaults, KnownPicker;
    match action {
      case DoConfigure(c, news) => ConfigureLeavesGone(s, c, news, r);
      case DoGrowFirst(q, ok) => GrowLeavesGone(s, s.admitted, q, ok, r);
      case DoGrow(id, q, ok) => GrowLeavesGone(s, s.admitted - {id}, q, ok, r);
      case DoStateChange(sc, st, order) => ChangeLeavesGone(s, sc, st, order, r);
      case DoClose(id, timedOut, ok) => CloseLeavesGone(s, id, timedOut, ok, r);
      case _ => PlainLeavesGone(s, action, r);
    }
  }

  lemma ConfigureLeavesGone<R>(s: Pool<R>, c: Config, news: seq<R>, r: R)
    requires Indexed(s) && Gone(s, r) && Distinct(news) && forall q | q in news :: q !in s.objs
    ensures Gone(Configure(s, c, news), r)
  {
    hide Indexed, AddAll, Distinct, WithDefaults;
    var t := s.(cfg := Some(WithDefaults(c)));
    SameIndexKeeps(s, t);
    AddAllLeavesGone(t, news, r);
  }

  lemma TransitionEnters<R>(s: Pool<R>, sc: SubConn, order: seq<R>)
    requires sc in s.scStates
    ensures Transition(s, sc, Ready, order).StateOf(sc) == Ready && Transition(s, sc, Ready, order).objs == s.objs
  {
    hide UpdatedFallback, Recorded, Evaluated, MustPublish;
  }

  /** A replacement that is ready makes its ref ready, whatever had become of the old subconn. */
  lemma ReplacedIsReady<R>(s: Pool<R>, action: Action<R>, r: R)
    requires Indexed(s) && Possible(s, action) && Replaces(s, action, r)
    ensures FoundReady(Perform(s, action), r)
  {
    hide Indexed, Lists, Replaced, Transition, Replace;
    ReplaceOnRefs(s, action.sc);
    TransitionEnters(Replace(s, action.sc), action.sc, action.order);
    assert Replaced(s.objs[r], action.sc, s.now).subConn == action.sc by {
      HandleOfReplaced(s.objs[r], action.sc, s.now);
    }
  }

  lemma HandleOfReplaced(ref: Ref, sc: SubConn, now: int)
    ensures Replaced(ref, sc, now).subConn == sc
  {
  }

  /** After a shutdown the ref is ready again exactly when a replacement, asked for before or since, has taken over. */
  lemma GoneUntilReplaced<R>(s: Pool<R>, step: Step<R>, r: R)
    requires Steady(s) && Enabled(s, step) && Gone(s, r)
    ensures FoundReady(Apply(s, step), r) <==> Replaces(Tick(s, step.at), step.action, r)
    ensures Gone(Apply(s, step), r) <==> !Replaces(Tick(s, step.at), step.action, r)
  {
    StepKeepsSteady(s, step);
    var u := Tick(s, step.at);
    hide Possible, Perform, Counted, UpToDate, Live, Handles, Pending, Listed;
    if Replaces(u, step.action, r) {
      ReplacedIsReady(u, step.action, r);
      assert !Gone(Apply(s, step), r) by {
        if Gone(Apply(s, step), r) { GoneIsNotReady(Apply(s, step), r); }
      }
    } else {
      ActionLeavesGone(u, step.action, r);
      GoneIsNotReady(Apply(s, step), r);
    }
  }

  /**
   So a pick that waits for a ref whose subconn is shut down waits until its context ends, or until a replacement for
   the ref is ready: between such a look and one that finds the ref ready there is always such a step.
   */
  lemma {:induction false} ShutdownLeavesOnlyTheContext<R>(run: Run<R>, m: nat, n: nat, r: R)
    requires run.Legal() && m <= n <= |run.steps| && Gone(StateAt(run, m), r)
    ensures FoundReady(StateAt(run, n), r) ==>
      exists k :: m <= k < n && Replaces(Tick(StateAt(run, k), run.steps[k].at), run.steps[k].action, r)
    ensures Gone(StateAt(run, n), r) ||
      exists k :: m <= k < n && Replaces(Tick(StateAt(run, k), run.steps[k].at), run.steps[k].action, r)
    decreases n
  {
    hide StateAt, Enabled, Apply, Steady, Replaces, Gone, FoundReady;
    if m < n {
      ShutdownLeavesOnlyTheContext(run, m, n - 1, r);
      StateAfter(run, n - 1);
      if Gone(StateAt(run, n - 1), r) {
        GoneUntilReplaced(StateAt(run, n - 1), run.steps[n - 1], r);
      }
    } else {
      StateIsSteady(run, m);
      GoneIsNotReady(StateAt(run, m), r);
    }
  }

  lemma StateIsSteady<R>(run: Run<R>, n: nat)
    requires run.Legal() && n <= |run.steps|
    ensures Steady(StateAt(run, n))
  {
    hide Steady;
    PrefixIsLegal(run, n);
    RunIsSteady(Prefix(run, n));
  }
}
