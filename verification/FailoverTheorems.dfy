/**
 The promises of the MultiEndpoint documentation, for every run: any options, any interleaving of
 calls with timers that fire and timers whose callbacks run late.
 */
module FailoverTheorems {
  import opened FailoverSpec
  import opened FailoverProofs

  // ----- the current endpoint is never a dead one while another is available

  ghost predicate NotStuck<E>(s: State<E>)
    requires s.Linked() && s.current in s.endpoints
  {
    s.AnyAvailable() ==> s.At(s.current).status != Unavailable
  }

  /** maybeUpdateCurrent changes no list and no status. */
  lemma UpdateKeepsEndpoints<E>(m: State<E>)
    requires m.Linked()
    ensures var r := MaybeUpdateCurrent(m);
      && r.endpoints == m.endpoints && r.objs == m.objs && r.Linked()
      && (forall k :: m.IsAvailable(k) <==> r.IsAvailable(k))
      && (forall k, a :: m.IsTop(k, a) <==> r.IsTop(k, a))
  {
    MaybeUpdateCurrentShape(m);
    var r := MaybeUpdateCurrent(m);
    assert forall k | k in m.endpoints :: m.At(k) == r.At(k);
    assert forall k :: m.IsAvailable(k) <==> r.IsAvailable(k);
  }

  lemma UpdateUnsticks<E>(m: State<E>)
    requires m.Linked() && m.endpoints != map[]
    ensures MaybeUpdateCurrent(m).current in m.endpoints && NotStuck(MaybeUpdateCurrent(m))
  {
    CurrentIsListed(m);
    UpdateKeepsEndpoints(m);
    if k :| m.IsAvailable(k) {
      TopExists(m, k, true);
    }
  }

  /** Construction: nothing is available yet, and the names get their last positions. */
  lemma InitialState<E>(run: Run<E>)
    requires run.Legal() && run.steps == []
    ensures run.Final().Linked() && !run.Final().AnyAvailable()
    ensures run.Final().timers == map t | t in run.Final().timers && run.Final().timers[t].action.MarkUnavailable?
                                    :: run.Final().timers[t]
    ensures run.Final().current == run.list[0]
  {
    var s0: State<E> := State(run.recoveryTimeout, run.switchingDelay, map[], map[], run.list[0], "", map[], 0,
                              run.start);
    CreateAllCreates(s0, run.list, run.news);
    assert run.list[..|run.news|] == run.list;
    CreateHasNoSwitch(s0, run.list, run.news);
  }

  lemma {:induction false} CreateHasNoSwitch<E>(s: State<E>, list: seq<string>, news: seq<E>)
    requires |news| <= |list| && s.timers == map[]
    ensures forall t | t in CreateAll(s, list, news).timers ::
              CreateAll(s, list, news).timers[t].action.MarkUnavailable?
    decreases |news|
  {
    if |news| > 0 {
      CreateHasNoSwitch(s, list, news[..|news| - 1]);
    }
  }

  lemma StepNotStuck<E>(s: State<E>, step: Step<E>)
    requires Inv(s) && NotStuck(s) && Enabled(s, step)
    ensures Inv(Apply(s, step)) && NotStuck(Apply(s, step))
  {
    StepKeeps(s, step);
    var m := Decompose(s, step);
    if UpdatesFrom(s, step, m) {
      UpdateUnsticks(m);
    } else {
      assert forall k :: s.IsAvailable(k) <==> Apply(s, step).IsAvailable(k);
    }
  }

  /** No timer callback is overdue. */
  ghost predicate Prompt<E>(s: State<E>) {
    forall t | t in s.timers :: s.now <= s.timers[t].due
  }

  lemma {:induction false} RunNotStuck<E>(run: Run<E>)
    requires run.Legal()
    ensures Inv(run.Final()) && NotStuck(run.Final())
    decreases |run.steps|
  {
    RunKeeps(run);
    if |run.steps| == 0 {
      InitialState(run);
    } else {
      RunNotStuck(run.Front());
      StepNotStuck(run.Front().Final(), run.steps[|run.steps| - 1]);
    }
  }

  lemma RecoveryIsBounded<E>(s: State<E>, e: E)
    requires Inv(s) && s.recoveryTimeout >= 0 && Prompt(s)
    requires e in s.objs && s.objs[e].status == Recovering
    ensures s.now - s.objs[e].since <= s.recoveryTimeout
  {
    assert ObjectTimed(s, e);
    assert TimerTimed(s, s.objs[e].futureChange.value);
  }

  /**
   multiendpoint.go:48-55. While something is available the current endpoint is not unavailable; if
   it is recovering, and timers are prompt, it has been so for at most the recovery timeout.
   */
  lemma CurrentIsUsable<E>(run: Run<E>)
    requires run.Legal()
    ensures Inv(run.Final()) && NotStuck(run.Final())
    ensures var s := run.Final();
      run.recoveryTimeout >= 0 && Prompt(s) && s.At(s.current).status == Recovering ==>
        s.now - s.At(s.current).since <= run.recoveryTimeout
  {
    RunNotStuck(run);
    RunKeeps(run);
    var s := run.Final();
    if run.recoveryTimeout >= 0 && Prompt(s) && s.At(s.current).status == Recovering {
      RecoveryIsBounded(s, s.endpoints[s.current]);
    }
  }

  // ----- without a switching delay the current endpoint is the best choice at all times

  ghost predicate BestChoice<E>(s: State<E>)
    requires s.Linked() && s.current in s.endpoints
  {
    forall top | s.IsTop(top, true) ::
      || s.current == top
      || (s.At(s.current).status == Recovering && s.At(s.current).priority < s.At(top).priority)
  }

  lemma UpdatePicksBest<E>(m: State<E>)
    requires m.Linked() && m.DistinctPriorities() && m.endpoints != map[] && m.switchingDelay == 0
    ensures MaybeUpdateCurrent(m).current in m.endpoints && BestChoice(MaybeUpdateCurrent(m))
  {
    CurrentIsListed(m);
    UpdateKeepsEndpoints(m);
    forall top | m.IsTop(top, true)
      ensures var r := MaybeUpdateCurrent(m);
        r.current == top || (r.At(r.current).status == Recovering && r.At(r.current).priority < r.At(top).priority)
    {
      TopIsUnique(m, top, true);
    }
  }

  lemma StepKeepsBest<E>(s: State<E>, step: Step<E>)
    requires Inv(s) && BestChoice(s) && Enabled(s, step) && s.switchingDelay == 0
    ensures Inv(Apply(s, step)) && BestChoice(Apply(s, step))
  {
    StepKeeps(s, step);
    var m := Decompose(s, step);
    if UpdatesFrom(s, step, m) {
      UpdatePicksBest(m);
    } else {
      assert forall k :: s.IsAvailable(k) <==> Apply(s, step).IsAvailable(k);
      assert forall k, a :: s.IsTop(k, a) <==> Apply(s, step).IsTop(k, a);
    }
  }

  /** multiendpoint.go:48-49, for a zero switching delay and any recovery timeout. */
  lemma CurrentIsBestChoice<E>(run: Run<E>)
    requires run.Legal() && run.switchingDelay == 0
    ensures Inv(run.Final()) && BestChoice(run.Final())
    ensures run.recoveryTimeout == 0 ==>
              forall top | run.Final().IsTop(top, true) :: run.Final().current == top
  {
    RunKeepsBest(run);
    RunKeeps(run);
    var s := run.Final();
    if run.recoveryTimeout == 0 {
      assert ObjectTimed(s, s.endpoints[s.current]);
    }
  }

  lemma {:induction false} RunKeepsBest<E>(run: Run<E>)
    requires run.Legal() && run.switchingDelay == 0
    ensures Inv(run.Final()) && BestChoice(run.Final())
    decreases |run.steps|
  {
    RunKeeps(run);
    var s := run.Final();
    if |run.steps| == 0 {
      InitialState(run);
    } else {
      RunKeepsBest(run.Front());
      RunKeeps(run.Front());
      StepKeepsBest(run.Front().Final(), run.steps[|run.steps| - 1]);
    }
  }

  // ----- what a single step may do to current

  /** A move away from `s.current` is to an available endpoint, or to the head of a list with nothing available. */
  ghost predicate GoodMove<E>(s: State<E>, r: State<E>)
    requires r.Linked()
  {
    r.current != s.current ==>
      || r.IsAvailable(r.current)
      || (s.current !in r.endpoints && !r.AnyAvailable() && r.IsTop(r.current, false))
  }

  /** A delayed switch goes from a usable endpoint up to an available one of strictly higher priority. */
  ghost predicate GoodSchedule<E>(s: State<E>, r: State<E>)
    requires r.Linked() && r.current in r.endpoints
  {
    (exists t | t in r.timers :: t !in s.timers && r.timers[t].action.Switch?) ==>
      && r.IsTop(r.future, true)
      && r.current == s.current
      && r.At(r.future).priority < r.At(r.current).priority
      && r.At(r.current).status != Unavailable
      && s.switchingDelay != 0
  }

  lemma UpdateMovesWell<E>(m: State<E>)
    requires m.Linked() && m.DistinctPriorities() && m.endpoints != map[]
    requires forall t | t in m.timers :: t < m.nextTimer
    ensures MaybeUpdateCurrent(m).current in m.endpoints
    ensures GoodMove(m, MaybeUpdateCurrent(m)) && GoodSchedule(m, MaybeUpdateCurrent(m))
  {
    var r := MaybeUpdateCurrent(m);
    CurrentIsListed(m);
    UpdateKeepsEndpoints(m);
    MaybeUpdateCurrentShape(m);
    if k :| m.IsAvailable(k) { TopExists(m, k, true); }
    if r.nextTimer != m.nextTimer {
      assert r.future == m.Top(true).value;
      assert m.At(r.future).priority != m.At(m.current).priority;
    }
  }

  lemma StepMovesWell<E>(s: State<E>, step: Step<E>)
    requires Inv(s) && Enabled(s, step) && Inv(Apply(s, step))
    ensures GoodMove(s, Apply(s, step)) && GoodSchedule(s, Apply(s, step))
  {
    var m := Decompose(s, step);
    var r := Apply(s, step);
    if UpdatesFrom(s, step, m) {
      UpdateMovesWell(m);
      assert GoodMove(s, r);
      if t :| t in r.timers && t !in s.timers && r.timers[t].action.Switch? {
        assert t !in m.timers;
      }
    } else {
      assert forall k :: s.IsAvailable(k) <==> r.IsAvailable(k);
    }
  }

  /** multiendpoint.go:69-71, 146-247: current stays in the list, moves well, and only upward switches are delayed. */
  lemma EveryStepMovesWell<E>(run: Run<E>)
    requires run.Legal() && |run.steps| > 0
    ensures var s, r := run.Front().Final(), run.Final();
      && r.Linked() && r.current in r.endpoints
      && GoodMove(s, r) && GoodSchedule(s, r)
  {
    RunKeeps(run.Front());
    RunKeeps(run);
    StepMovesWell(run.Front().Final(), run.steps[|run.steps| - 1]);
  }

  // ----- SetEndpoints

  /** multiendpoint.go:140-145: the list afterwards is the given one, last positions count, histories survive. */
  lemma SetEndpointsRelists<E>(s: State<E>, list: seq<string>, news: seq<E>)
    requires Inv(s) && list != [] && |news| == |list| && CanAddAll(RemoveObsolete(s, list), list, news)
    ensures var r := SetEndpoints(s, list, news);
      && Inv(r)
      && r.endpoints.Keys == (set k | k in list)
      && (forall k | k in list :: r.At(k).priority == LastIndex(list, k))
      && (forall k | k in list && k in s.endpoints ::
            r.endpoints[k] == s.endpoints[k] && SameHistory(s.At(k), r.At(k)))
      && (forall k | k in list && k !in s.endpoints :: r.At(k).status == InitialStatus(s))
  {
    hide Timed, Handles, AddAll;
    RelistKeeps(s, list, news);
    MaybeUpdateCurrentKeeps(AddAll(RemoveObsolete(s, list), list, news));
    MaybeUpdateCurrentShape(AddAll(RemoveObsolete(s, list), list, news));
    var m := AddAll(RemoveObsolete(s, list), list, news);
    var r := SetEndpoints(s, list, news);
    assert forall k | k in m.endpoints :: m.At(k) == r.At(k);
    assert forall k | k in RemoveObsolete(s, list).endpoints :: RemoveObsolete(s, list).At(k) == s.At(k);
  }

  /** multiendpoint.go:149-151: an empty list is refused and changes nothing, whenever it comes. */
  lemma EmptyListChangesNothing<E>(run: Run<E>, news: seq<E>)
    requires run.Legal() && |run.steps| > 0 && run.steps[|run.steps| - 1].action == DoSetEndpoints([], news)
    ensures run.Final() == Tick(run.Front().Final(), run.steps[|run.steps| - 1].at)
  {
  }

  // ----- recovery timers

  /** Each recovering endpoint has one live timer, due one recovery timeout after it began to recover. */
  lemma OneLiveTimer<E>(run: Run<E>, e: E)
    requires run.Legal() && run.recoveryTimeout >= 0
    requires e in run.Final().objs && run.Final().objs[e].status == Recovering
    ensures Inv(run.Final())
    ensures var s := run.Final();
      exists t | t in s.timers ::
        && s.timers[t].action == MarkUnavailable(e, s.objs[e].lastChange)
        && s.timers[t].due == s.objs[e].since + run.recoveryTimeout
        && forall u | u in s.timers && u != t && s.timers[u].action.MarkUnavailable? && s.timers[u].action.e == e ::
             Stale(s, u)
  {
    RunKeeps(run);
    var s := run.Final();
    assert ObjectTimed(s, e);
    var t := s.objs[e].futureChange.value;
    assert TimerTimed(s, t);
    forall u | u in s.timers && u != t && s.timers[u].action.MarkUnavailable? && s.timers[u].action.e == e
      ensures Stale(s, u)
    {
      assert TimerTimed(s, u);
    }
  }

  /**
   multiendpoint.go:296-305. A callback that lost the race against Stop changes no status; one that
   does mark its endpoint finds it in the very recovering episode the timer was armed for.
   */
  lemma CallbackIsHarmless<E>(run: Run<E>)
    requires run.Legal() && |run.steps| > 0 && run.recoveryTimeout >= 0
    requires run.steps[|run.steps| - 1].action.DoRun?
    ensures var s, r := run.Front().Final(), run.Final();
      var timer := s.timers[run.steps[|run.steps| - 1].action.t];
      && r.objs.Keys == s.objs.Keys
      && forall x | x in s.objs && r.objs[x].status != s.objs[x].status ::
           && timer.action.MarkUnavailable? && timer.action.e == x
           && s.objs[x].status == Recovering && r.objs[x].status == Unavailable
           && timer.due == s.objs[x].since + run.recoveryTimeout
  {
    RunKeeps(run.Front());
    var s := run.Front().Final();
    var step := run.steps[|run.steps| - 1];
    var t := step.action.t;
    var s2 := Tick(s, step.at).(timers := s.timers - {t});
    assert TimerTimed(s, t);
    if s.timers[t].action.MarkUnavailable? {
      MaybeUpdateCurrentShape(SetState(s2, s.timers[t].action.e, Unavailable));
    }
  }

  /** multiendpoint.go:269-271: a repeated unavailable signal neither restarts nor extends the recovery. */
  lemma RepeatedSignalChangesNothing<E>(s: State<E>, id: string)
    requires Inv(s) && id in s.endpoints && s.At(id).status != Available
    ensures var r := MaybeUpdateCurrent(SetEndpointAvailability(s, id, false));
      && r.objs == s.objs
      && forall t | t in s.timers :: t in r.timers && r.timers[t] == s.timers[t]
  {
    MaybeUpdateCurrentShape(s);
  }
}
