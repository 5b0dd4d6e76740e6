/** How long an endpoint may recover, and how long current waits for it or for a better one. */
module FailoverRecovery {
  import opened FailoverSpec
  import opened FailoverProofs
  import opened FailoverTheorems

  // ----- the states of a run

  ghost function Prefix<E>(run: Run<E>, n: nat): Run<E>
    requires n <= |run.steps|
  {
    run.(steps := run.steps[..n])
  }

  lemma {:induction false} PrefixIsLegal<E>(run: Run<E>, n: nat)
    requires run.Legal() && n <= |run.steps|
    ensures Prefix(run, n).Legal()
    decreases |run.steps|
  {
    if n < |run.steps| {
      assert Prefix(run.Front(), n) == Prefix(run, n);
      PrefixIsLegal(run.Front(), n);
    } else {
      assert Prefix(run, n) == run;
    }
  }

  /** The state of a run before its n-th step. */
  ghost function StateAt<E>(run: Run<E>, n: nat): State<E>
    requires run.Legal() && n <= |run.steps|
  {
    PrefixIsLegal(run, n);
    Prefix(run, n).Final()
  }

  lemma StateAfter<E>(run: Run<E>, n: nat)
    requires run.Legal() && n < |run.steps|
    ensures Inv(StateAt(run, n)) && Enabled(StateAt(run, n), run.steps[n])
    ensures StateAt(run, n).recoveryTimeout == run.recoveryTimeout
    ensures StateAt(run, n).switchingDelay == run.switchingDelay
    ensures StateAt(run, n + 1) == Apply(StateAt(run, n), run.steps[n])
  {
    hide Inv, Enabled, Apply, Run.Final, Run.Legal;
    PrefixIsLegal(run, n);
    PrefixIsLegal(run, n + 1);
    assert Prefix(run, n + 1).Front() == Prefix(run, n);
    LastStep(Prefix(run, n + 1));
    RunKeeps(Prefix(run, n));
  }

  lemma LastStep<E>(run: Run<E>)
    requires run.Legal() && |run.steps| > 0
    ensures run.Front().Legal() && Enabled(run.Front().Final(), run.steps[|run.steps| - 1])
    ensures run.Final() == Apply(run.Front().Final(), run.steps[|run.steps| - 1])
  {
  }

  // ----- what each step does to a status

  /** The step is a report on the endpoint object x. */
  predicate Told<E(==)>(s: State<E>, action: Action<E>, x: E, avail: bool) {
    action.DoSetAvailability? && action.avail == avail && action.id in s.endpoints && s.endpoints[action.id] == x
  }

  /** The step is the callback of the timer of x's recovery. */
  predicate Expires<E(==)>(s: State<E>, action: Action<E>, x: E) {
    && action.DoRun? && action.t in s.timers && x in s.objs
    && s.timers[action.t].action == MarkUnavailable(x, s.objs[x].lastChange)
  }

  lemma UpdateKeepsObjects<E>(m: State<E>)
    requires m.Linked()
    ensures MaybeUpdateCurrent(m).objs == m.objs && MaybeUpdateCurrent(m).endpoints == m.endpoints
  {
    MaybeUpdateCurrentShape(m);
  }

  lemma {:induction false} AddAllKeepsStatus<E>(s: State<E>, list: seq<string>, news: seq<E>, x: E)
    requires CanAddAll(s, list, news) && x in s.objs
    ensures var m := AddAll(s, list, news);
      x in m.objs && m.objs[x].status == s.objs[x].status && m.objs[x].since == s.objs[x].since
    decreases |news|
  {
    if |news| > 0 {
      AddAllKeepsStatus(s, list, news[..|news| - 1], x);
    }
  }

  lemma RelistKeepsStatus<E>(s: State<E>, list: seq<string>, news: seq<E>, x: E)
    requires x in s.objs && s.Linked()
    requires list != [] ==> |news| == |list| && CanAddAll(RemoveObsolete(s, list), list, news)
    ensures var m := SetEndpoints(s, list, news);
      x in m.objs && m.objs[x].status == s.objs[x].status && m.objs[x].since == s.objs[x].since
  {
    hide AddAll, MaybeUpdateCurrent;
    if list != [] {
      AddAllKeepsStatus(RemoveObsolete(s, list), list, news, x);
      UpdateKeepsObjects(AddAll(RemoveObsolete(s, list), list, news));
    }
  }

  lemma ReportOnStatus<E>(s: State<E>, id: string, avail: bool, x: E)
    requires x in s.objs && s.Linked() && s.recoveryTimeout > 0
    ensures var m := MaybeUpdateCurrent(SetEndpointAvailability(s, id, avail));
      var told := id in s.endpoints && s.endpoints[id] == x;
      && x in m.objs
      && m.objs[x].status == (if told && avail then Available
                              else if told && s.objs[x].status == Available then Recovering
                              else s.objs[x].status)
      && (told && !avail && s.objs[x].status == Available ==> m.objs[x].since == s.now)
      && (s.objs[x].status == Recovering && m.objs[x].status == Recovering ==> m.objs[x].since == s.objs[x].since)
  {
    hide MaybeUpdateCurrent;
    var m := SetEndpointAvailability(s, id, avail);
    assert m.Linked();
    UpdateKeepsObjects(m);
  }

  lemma CallbackOnStatus<E>(s: State<E>, step: Step<E>, x: E)
    requires Inv(s) && Enabled(s, step) && step.action.DoRun? && x in s.objs && s.recoveryTimeout > 0
    ensures var r := Apply(s, step);
      && x in r.objs
      && r.objs[x].status == (if Expires(s, step.action, x) then Unavailable else s.objs[x].status)
      && (Expires(s, step.action, x) ==>
            s.objs[x].status == Recovering && step.at >= s.objs[x].since + s.recoveryTimeout)
      && (r.objs[x].status == Recovering ==> r.objs[x].since == s.objs[x].since)
  {
    hide MaybeUpdateCurrent;
    var t := step.action.t;
    assert TimerTimed(s, t);
    if s.timers[t].action.MarkUnavailable? {
      var m := SetState(Tick(s, step.at).(timers := s.timers - {t}), s.timers[t].action.e, Unavailable);
      assert m.Linked();
      UpdateKeepsObjects(m);
    }
  }

  /**
   With a recovery timeout, an available endpoint that is reported unavailable recovers; only the callback of that
   recovery's timer, no earlier than one recovery timeout after it began, makes it unavailable.
   */
  lemma StepOnStatus<E>(s: State<E>, step: Step<E>, x: E)
    requires Inv(s) && Enabled(s, step) && x in s.objs && s.recoveryTimeout > 0
    ensures var r := Apply(s, step);
      && x in r.objs
      && r.objs[x].status == (if Told(s, step.action, x, true) then Available
                              else if Told(s, step.action, x, false) && s.objs[x].status == Available then Recovering
                              else if Expires(s, step.action, x) then Unavailable
                              else s.objs[x].status)
      && (Expires(s, step.action, x) ==>
            s.objs[x].status == Recovering && step.at >= s.objs[x].since + s.recoveryTimeout)
      && (r.objs[x].status == Recovering ==>
            r.objs[x].since == if s.objs[x].status == Recovering then s.objs[x].since else step.at)
  {
    var s1 := Tick(s, step.at);
    hide MaybeUpdateCurrent, Timed, Handles;
    match step.action {
      case DoSetEndpoints(list, news) => RelistKeepsStatus(s1, list, news, x);
      case DoSetAvailability(id, avail) => ReportOnStatus(s1, id, avail, x);
      case DoFire(t) =>
      case DoRun(t) => CallbackOnStatus(s, step, x);
    }
  }

  // ----- an available endpoint gets its recovery time

  lemma ObjectsStay<E>(s: State<E>, step: Step<E>, x: E)
    requires Inv(s) && Enabled(s, step) && x in s.objs && s.recoveryTimeout > 0
    ensures x in Apply(s, step).objs
  {
    hide Inv, Enabled, Apply;
    StepOnStatus(s, step, x);
  }

  lemma {:induction false} ObjectsLast<E>(run: Run<E>, m: nat, n: nat, x: E)
    requires run.Legal() && m <= n <= |run.steps| && x in StateAt(run, m).objs && run.recoveryTimeout > 0
    ensures x in StateAt(run, n).objs
    decreases n
  {
    hide StateAt, Inv, Enabled, Apply;
    if m < n {
      ObjectsLast(run, m, n - 1, x);
      StateAfter(run, n - 1);
      ObjectsStay(StateAt(run, n - 1), run.steps[n - 1], x);
    }
  }

  ghost predicate Has<E>(run: Run<E>, n: nat, x: E, st: Status)
    requires run.Legal() && n <= |run.steps|
  {
    x in StateAt(run, n).objs && StateAt(run, n).objs[x].status == st
  }

  /** Step i reports the available x unavailable, and x recovers in all states from then up to the n-th. */
  ghost predicate Recovers<E>(run: Run<E>, i: nat, n: nat, x: E)
    requires run.Legal() && n <= |run.steps|
  {
    && i < n && Has(run, i, x, Available) && Told(StateAt(run, i), run.steps[i].action, x, false)
    && forall l | i < l <= n :: Has(run, l, x, Recovering) && StateAt(run, l).objs[x].since == run.steps[i].at
  }

  /** An endpoint that was available and recovers now does so since a report. */
  lemma {:induction false} RecoveryBegan<E>(run: Run<E>, k: nat, n: nat, x: E) returns (i: nat)
    requires run.Legal() && k <= n <= |run.steps| && run.recoveryTimeout > 0
    requires Has(run, k, x, Available) && Has(run, n, x, Recovering)
    ensures k <= i && Recovers(run, i, n, x)
    decreases n
  {
    hide StateAt, Inv, Enabled, Apply, Told, Expires;
    ObjectsLast(run, k, n - 1, x);
    StateAfter(run, n - 1);
    StepOnStatus(StateAt(run, n - 1), run.steps[n - 1], x);
    if Has(run, n - 1, x, Recovering) {
      i := RecoveryBegan(run, k, n - 1, x);
    } else {
      i := n - 1;
    }
  }

  /**
   With a recovery timeout, in every run: an endpoint that was available and is unavailable has been reported so while
   it was available, has recovered ever since, and was given up by the callback of that recovery's timer, no earlier
   than one recovery timeout after the report.
   */
  lemma {:induction false} RecoveryIsGranted<E>(run: Run<E>, k: nat, n: nat, x: E) returns (i: nat, j: nat)
    requires run.Legal() && k <= n <= |run.steps| && run.recoveryTimeout > 0
    requires Has(run, k, x, Available) && Has(run, n, x, Unavailable)
    ensures k <= i < j < n && Recovers(run, i, j, x) && Expires(StateAt(run, j), run.steps[j].action, x)
    ensures run.steps[j].at >= run.steps[i].at + run.recoveryTimeout
    decreases n
  {
    hide StateAt, Inv, Enabled, Apply, Told, Expires;
    ObjectsLast(run, k, n - 1, x);
    StateAfter(run, n - 1);
    StepOnStatus(StateAt(run, n - 1), run.steps[n - 1], x);
    if Has(run, n - 1, x, Unavailable) {
      i, j := RecoveryIsGranted(run, k, n - 1, x);
    } else {
      j := n - 1;
      i := RecoveryBegan(run, k, n - 1, x);
    }
  }

  // ----- current waits for it

  /** k is listed and not given up, and no available endpoint precedes it. */
  ghost predicate Leads<E>(s: State<E>, k: string) {
    && s.Linked() && k in s.endpoints && s.At(k).status != Unavailable
    && forall j | s.IsAvailable(j) :: s.At(k).priority <= s.At(j).priority
  }

  predicate Switches<E>(s: State<E>, action: Action<E>) {
    action.DoRun? && action.t in s.timers && s.timers[action.t].action.Switch?
  }

  lemma UpdateWaits<E>(m: State<E>, k: string)
    requires m.Linked() && m.DistinctPriorities() && m.current == k && Leads(m, k)
    ensures MaybeUpdateCurrent(m).current == k
  {
    if m.At(k).status == Available {
      assert m.IsTop(k, true);
      TopIsUnique(m, k, true);
    }
  }

  lemma LeadsBefore<E>(m: State<E>, k: string)
    requires m.Linked() && Leads(MaybeUpdateCurrent(m), k)
    ensures Leads(m, k)
  {
    UpdateKeepsEndpoints(m);
    MaybeUpdateCurrentShape(m);
    var r := MaybeUpdateCurrent(m);
    assert forall j | j in m.endpoints :: r.At(j) == m.At(j);
    hide MaybeUpdateCurrent;
  }

  lemma StepWaits<E>(s: State<E>, step: Step<E>, k: string)
    requires Inv(s) && Enabled(s, step) && s.current == k && !Switches(s, step.action) && Leads(Apply(s, step), k)
    ensures Apply(s, step).current == k
  {
    var m := Decompose(s, step);
    if Reconsiders(s, step.action) {
      hide Inv, Apply, MaybeUpdateCurrent, Leads;
      LeadsBefore(m, k);
      UpdateWaits(m, k);
    } else {
      LeftAlone(s, step);
    }
  }

  lemma LeftAlone<E>(s: State<E>, step: Step<E>)
    requires Inv(s) && Enabled(s, step) && !Switches(s, step.action)
    requires !Reconsiders(s, step.action)
    ensures Apply(s, step).current == s.current
  {
    hide Timed, Handles;
  }

  /**
   An endpoint that is current stays so, through its recovery, as long as it is listed and not given up, no available
   endpoint precedes it, and no delayed switch lands.
   */
  lemma {:induction false} CurrentWaits<E>(run: Run<E>, a: nat, b: nat, k: string)
    requires run.Legal() && a <= b <= |run.steps| && StateAt(run, a).current == k
    requires forall i | a < i <= b :: Leads(StateAt(run, i), k)
    requires forall i | a <= i < b :: !Switches(StateAt(run, i), run.steps[i].action)
    ensures StateAt(run, b).current == k
    decreases b
  {
    hide StateAt, Inv, Enabled, Apply, Leads, Switches;
    if a < b {
      CurrentWaits(run, a, b - 1, k);
      StateAfter(run, b - 1);
      StepWaits(StateAt(run, b - 1), run.steps[b - 1], k);
    }
  }

  // ----- switches are delayed, and only as long as they have to be

  /** s.current is still listed and has not been given up. */
  ghost predicate StillUsable<E>(s: State<E>, r: State<E>) {
    r.Linked() && s.current in r.endpoints && r.At(s.current).status != Unavailable
  }

  lemma UpdateDelays<E>(m: State<E>)
    requires m.Linked() && m.switchingDelay != 0 && m.current in m.endpoints && m.At(m.current).status != Unavailable
    ensures MaybeUpdateCurrent(m).current == m.current
  {
  }

  lemma UsableBefore<E>(s: State<E>, m: State<E>)
    requires m.Linked() && m.current == s.current && StillUsable(s, MaybeUpdateCurrent(m))
    ensures m.current in m.endpoints && m.At(m.current).status != Unavailable
  {
    UpdateKeepsEndpoints(m);
    hide MaybeUpdateCurrent;
  }

  /** With a switching delay, current leaves an endpoint that is listed and not given up by a delayed switch only. */
  lemma StepDelays<E>(s: State<E>, step: Step<E>)
    requires Inv(s) && Enabled(s, step) && s.switchingDelay != 0 && StillUsable(s, Apply(s, step))
    requires Apply(s, step).current != s.current
    ensures Switches(s, step.action)
  {
    var m := Decompose(s, step);
    if Reconsiders(s, step.action) {
      UsableBefore(s, m);
      UpdateDelays(m);
    } else if !Switches(s, step.action) {
      LeftAlone(s, step);
    }
  }

  /** Some listed endpoint is available and precedes current. */
  ghost predicate Preceded<E>(s: State<E>, r: State<E>) {
    StillUsable(s, r) && exists k :: r.IsTop(k, true) && r.At(k).priority < r.At(s.current).priority
  }

  /** A switch to the top available endpoint has been scheduled. */
  ghost predicate Scheduled<E>(s: State<E>, r: State<E>, at: int) {
    && r.Linked() && r.IsTop(r.future, true)
    && exists t :: t in r.timers && t !in s.timers && r.timers[t] == Timer(Switch, at + s.switchingDelay, false)
  }

  lemma UpdateSchedulesTop<E>(s: State<E>, m: State<E>)
    requires m.Linked() && m.DistinctPriorities() && m.switchingDelay != 0
    requires (forall t | t in m.timers :: t < m.nextTimer) && (forall t | t in s.timers :: t < m.nextTimer)
    requires m.current == s.current && m.switchingDelay == s.switchingDelay
    requires Preceded(s, MaybeUpdateCurrent(m))
    ensures Scheduled(s, MaybeUpdateCurrent(m), m.now)
  {
    var r := MaybeUpdateCurrent(m);
    UpdateKeepsEndpoints(m);
    var k :| r.IsTop(k, true) && r.At(k).priority < r.At(s.current).priority;
    TopIsUnique(m, k, true);
    assert m.At(k) == r.At(k) && m.At(m.current) == r.At(m.current);
    assert r.timers[m.nextTimer] == Timer(Switch, m.now + m.switchingDelay, false);
  }

  lemma UpdateSchedulesNone<E>(s: State<E>, m: State<E>)
    requires m.Linked() && m.DistinctPriorities() && m.endpoints != map[] && m.switchingDelay != 0
    requires m.current == s.current && SameSwitches(s, m) && !Preceded(s, MaybeUpdateCurrent(m))
    ensures var r := MaybeUpdateCurrent(m); forall t | t in r.timers && r.timers[t].action.Switch? :: t in s.timers
  {
    var r := MaybeUpdateCurrent(m);
    UpdateKeepsEndpoints(m);
    if m.Top(true).Some? {
      var k := m.Top(true).value;
      assert r.IsTop(k, true) && m.At(k) == r.At(k);
      assert s.current in m.endpoints ==> m.At(s.current) == r.At(s.current);
      assert s.current in m.endpoints && k != s.current ==> m.At(k).priority != m.At(s.current).priority;
    }
  }

  /**
   With a switching delay, a step that reconsiders current schedules a switch exactly if current is usable and an
   available endpoint precedes it; the switch is to the top one, and due one delay later.
   */
  lemma StepSchedules<E>(s: State<E>, step: Step<E>)
    requires Inv(s) && Enabled(s, step) && s.switchingDelay != 0 && Reconsiders(s, step.action)
    ensures var r := Apply(s, step);
      && (Preceded(s, r) ==> Scheduled(s, r, step.at))
      && (!Preceded(s, r) ==> forall t | t in r.timers && r.timers[t].action.Switch? :: t in s.timers)
  {
    var m := Decompose(s, step);
    HandlesAreOld(s, m);
    hide Inv, Apply, MaybeUpdateCurrent, Preceded, Scheduled;
    if Preceded(s, Apply(s, step)) {
      UpdateSchedulesTop(s, m);
    } else {
      UpdateSchedulesNone(s, m);
    }
  }

  lemma HandlesAreOld<E>(s: State<E>, m: State<E>)
    requires Inv(s) && MidInv(m) && s.nextTimer <= m.nextTimer
    ensures (forall t | t in m.timers :: t < m.nextTimer) && (forall t | t in s.timers :: t < m.nextTimer)
  {
    hide Timed;
  }

  /** Step i has armed the switch timer t, one switching delay before it is due. */
  ghost predicate Armed<E>(run: Run<E>, i: nat, t: nat, due: int)
    requires run.Legal()
  {
    && i < |run.steps| && t !in StateAt(run, i).timers && t in StateAt(run, i + 1).timers
    && due == run.steps[i].at + run.switchingDelay
  }

  lemma StepOnSwitches<E>(s: State<E>, step: Step<E>, t: nat)
    requires Inv(s) && Enabled(s, step) && t in Apply(s, step).timers && Apply(s, step).timers[t].action.Switch?
    ensures var u := Apply(s, step).timers[t];
      if t in s.timers then
        && s.timers[t].action.Switch? && u.due == s.timers[t].due
        && (u.fired ==> s.timers[t].fired || u.due <= step.at)
      else u == Timer(Switch, step.at + s.switchingDelay, false)
  {
    var m := Decompose(s, step);
    if Reconsiders(s, step.action) {
      HandlesAreOld(s, m);
      MaybeUpdateCurrentShape(m);
      hide Inv, MaybeUpdateCurrent;
    } else {
      hide Timed, Handles, MaybeUpdateCurrent;
    }
  }

  lemma {:induction false} SwitchWasArmed<E>(run: Run<E>, n: nat, t: nat) returns (i: nat)
    requires run.Legal() && n <= |run.steps|
    requires t in StateAt(run, n).timers && StateAt(run, n).timers[t].action.Switch?
    ensures i < n && Armed(run, i, t, StateAt(run, n).timers[t].due)
    ensures StateAt(run, n).timers[t].fired ==> StateAt(run, n).timers[t].due <= StateAt(run, n).now
    decreases n
  {
    hide StateAt, Inv, Enabled, Apply;
    if n == 0 {
      StartHasNoSwitch(run, t);
    } else {
      StateAfter(run, n - 1);
      TimeGoesOn(StateAt(run, n - 1), run.steps[n - 1]);
      StepOnSwitches(StateAt(run, n - 1), run.steps[n - 1], t);
      if t in StateAt(run, n - 1).timers {
        i := SwitchWasArmed(run, n - 1, t);
      } else {
        i := n - 1;
      }
    }
  }

  lemma StartHasNoSwitch<E>(run: Run<E>, t: nat)
    requires run.Legal() && t in StateAt(run, 0).timers
    ensures !StateAt(run, 0).timers[t].action.Switch?
  {
    PrefixIsLegal(run, 0);
    InitialState(Prefix(run, 0));
  }

  lemma TimeGoesOn<E>(s: State<E>, step: Step<E>)
    requires Inv(s) && Enabled(s, step)
    ensures Apply(s, step).now == step.at && s.now <= step.at
  {
    var m := Decompose(s, step);
    if Reconsiders(s, step.action) {
      MaybeUpdateCurrentShape(m);
    }
  }

  /**
   With a switching delay, in every run: whenever current leaves an endpoint that is listed and not given up, it does so
   no earlier than one delay after a step that scheduled the switch.
   */
  lemma SwitchesAreDelayed<E>(run: Run<E>, n: nat) returns (i: nat)
    requires run.Legal() && n < |run.steps| && run.switchingDelay != 0
    requires StateAt(run, n + 1).current != StateAt(run, n).current
    requires StillUsable(StateAt(run, n), StateAt(run, n + 1))
    ensures i < n && Switches(StateAt(run, n), run.steps[n].action)
    ensures exists due :: Armed(run, i, run.steps[n].action.t, due)
    ensures run.steps[n].at >= run.steps[i].at + run.switchingDelay
  {
    hide StateAt, Inv, Enabled, Apply, StillUsable;
    StateAfter(run, n);
    StepDelays(StateAt(run, n), run.steps[n]);
    var t := run.steps[n].action.t;
    i := SwitchWasArmed(run, n, t);
    assert Armed(run, i, t, StateAt(run, n).timers[t].due);
    SwitchHasFired(StateAt(run, n), run.steps[n]);
    TimeGoesOn(StateAt(run, n), run.steps[n]);
  }

  lemma SwitchHasFired<E>(s: State<E>, step: Step<E>)
    requires Enabled(s, step) && Switches(s, step.action)
    ensures s.timers[step.action.t].fired
  {
  }
}
