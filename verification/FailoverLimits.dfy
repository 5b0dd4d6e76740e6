/** Two promises that hold for some settings only, with the exact condition on the settings. */
module FailoverLimits {
  import opened Options
  import opened FailoverSpec
  import opened FailoverProofs
  import opened FailoverTheorems

  ghost predicate Goes<E>(s: State<E>, action: Action<E>, r: State<E>) {
    Enabled(s, Step(action, r.now)) && Apply(s, Step(action, r.now)) == r
  }

  lemma Extend<E>(run: Run<E>, action: Action<E>, s: State<E>) returns (r: Run<E>)
    requires run.Legal() && Goes(run.Final(), action, s)
    ensures r == run.(steps := run.steps + [Step(action, s.now)])
    ensures r.Legal() && r.Final() == s && r.Front() == run
  {
    r := run.(steps := run.steps + [Step(action, s.now)]);
    assert r.Front() == run;
  }

  // ----- a late callback and a negative recovery timeout

  /** The last step, a callback, turns no available endpoint into an unavailable one. */
  ghost predicate SparesAvailable(run: Run<nat>)
    requires run.Legal() && |run.steps| > 0
  {
    forall x | x in run.Front().Final().objs && x in run.Final().objs ::
      run.Front().Final().objs[x].status == Available ==> run.Final().objs[x].status == Available
  }

  ghost predicate CallbacksSpareAvailable(recoveryTimeout: int) {
    forall run: Run<nat> |
      run.recoveryTimeout == recoveryTimeout && run.Legal() && |run.steps| > 0 &&
      run.steps[|run.steps| - 1].action.DoRun? ::
      SparesAvailable(run)
  }

  ghost function One(recoveryTimeout: int, status: Status, change: int, timer: Option<nat>,
                     timers: map<nat, Timer<nat>>, next: nat): State<nat> {
    State(recoveryTimeout, 0, map["a" := 0], map[0 := Endpoint("a", 0, status, change, timer, 1)], "a", "", timers,
          next, 1)
  }

  lemma OneStays(s: State<nat>)
    requires s.endpoints == map["a" := 0] && s.Linked() && s.current == "a"
    ensures MaybeUpdateCurrent(s) == s
  {
    if k :| s.IsTop(k, true) { assert k == "a"; }
  }

  lemma OneIsSet(recoveryTimeout: int, status: Status, timers: map<nat, Timer<nat>>, timer: Option<nat>, next: nat,
                 ca: int)
    requires forall t | t in timers :: timers[t].fired
    ensures Goes(One(recoveryTimeout, status, ca, timer, timers, next), DoSetAvailability("a", true),
                 One(recoveryTimeout, Available, 1, timer, timers, next))
  {
    OneStays(One(recoveryTimeout, Available, 1, timer, timers, next));
  }

  ghost function Armed(recoveryTimeout: int, fired: bool): map<nat, Timer<nat>> {
    map[0 := Timer(MarkUnavailable(0, 1), 1 + recoveryTimeout, fired)]
  }

  lemma OneRecovers(recoveryTimeout: int)
    requires recoveryTimeout < 0
    ensures Goes(One(recoveryTimeout, Available, 1, None, map[], 0), DoSetAvailability("a", false),
                 One(recoveryTimeout, Recovering, 1, Some(0), Armed(recoveryTimeout, false), 1))
  {
    OneStays(One(recoveryTimeout, Recovering, 1, Some(0), Armed(recoveryTimeout, false), 1));
  }

  lemma OneFires(recoveryTimeout: int)
    requires recoveryTimeout < 0
    ensures Goes(One(recoveryTimeout, Recovering, 1, Some(0), Armed(recoveryTimeout, false), 1), DoFire(0),
                 One(recoveryTimeout, Recovering, 1, Some(0), Armed(recoveryTimeout, true), 1))
  {
  }

  lemma OneExpires(recoveryTimeout: int)
    requires recoveryTimeout < 0
    ensures Goes(One(recoveryTimeout, Available, 1, Some(0), Armed(recoveryTimeout, true), 1), DoRun(0),
                 One(recoveryTimeout, Unavailable, 1, Some(0), map[], 1))
  {
    OneStays(One(recoveryTimeout, Unavailable, 1, Some(0), map[], 1));
  }

  /** A timer with a negative delay fires at the instant it was armed; the change time cannot expose it. */
  lemma NegativeTimeoutRace(recoveryTimeout: int) returns (run: Run<nat>)
    requires recoveryTimeout < 0
    ensures run.recoveryTimeout == recoveryTimeout && run.Legal()
    ensures |run.steps| > 0 && run.steps[|run.steps| - 1].action.DoRun? && !SparesAvailable(run)
  {
    hide One, Armed, Goes;
    OneIsSet(recoveryTimeout, Unavailable, map[], None, 0, 0);
    ArmedFired(recoveryTimeout);
    OneIsSet(recoveryTimeout, Recovering, Armed(recoveryTimeout, true), Some(0), 1, 1);
    OneRecovers(recoveryTimeout);
    OneFires(recoveryTimeout);
    OneExpires(recoveryTimeout);
    run := Run(recoveryTimeout, 0, ["a"], [0], 1, []);
    CreateOne(recoveryTimeout, run.list, run.news);
    run := Extend(run, DoSetAvailability("a", true), One(recoveryTimeout, Available, 1, None, map[], 0));
    run := Extend(run, DoSetAvailability("a", false),
                  One(recoveryTimeout, Recovering, 1, Some(0), Armed(recoveryTimeout, false), 1));
    run := Extend(run, DoFire(0), One(recoveryTimeout, Recovering, 1, Some(0), Armed(recoveryTimeout, true), 1));
    run := Extend(run, DoSetAvailability("a", true),
                  One(recoveryTimeout, Available, 1, Some(0), Armed(recoveryTimeout, true), 1));
    run := Extend(run, DoRun(0), One(recoveryTimeout, Unavailable, 1, Some(0), map[], 1));
    OneIsHarmed(recoveryTimeout, run);
  }

  lemma ArmedFired(recoveryTimeout: int)
    ensures forall t | t in Armed(recoveryTimeout, true) :: Armed(recoveryTimeout, true)[t].fired
  {
  }

  lemma OneIsHarmed(recoveryTimeout: int, run: Run<nat>)
    requires run.Legal() && |run.steps| > 0
    requires run.Front().Final() == One(recoveryTimeout, Available, 1, Some(0), Armed(recoveryTimeout, true), 1)
    requires run.Final() == One(recoveryTimeout, Unavailable, 1, Some(0), map[], 1)
    ensures !SparesAvailable(run)
  {
    assert run.Front().Final().objs[0].status == Available;
  }

  lemma CreateOne(recoveryTimeout: int, list: seq<string>, news: seq<nat>)
    requires recoveryTimeout <= 0 && list == ["a"] && news == [0]
    ensures Create(recoveryTimeout, 0, list, news, 1) == One(recoveryTimeout, Unavailable, 0, None, map[], 0)
  {
    var s0: State<nat> := State(recoveryTimeout, 0, map[], map[], list[0], "", map[], 0, 1);
    assert news[..0] == [];
    assert CreateAll(s0, list, news[..0]) == s0;
  }

  /** multiendpoint.go:293-306: exactly the settings under which a late callback is harmless. */
  lemma CallbacksSpareAvailableIff(recoveryTimeout: int)
    ensures CallbacksSpareAvailable(recoveryTimeout) <==> recoveryTimeout >= 0
  {
    if recoveryTimeout >= 0 {
      forall run: Run<nat> |
        run.recoveryTimeout == recoveryTimeout && run.Legal() && |run.steps| > 0 &&
        run.steps[|run.steps| - 1].action.DoRun?
        ensures SparesAvailable(run)
      {
        CallbackIsHarmless(run);
      }
    } else {
      var run := NegativeTimeoutRace(recoveryTimeout);
      assert !SparesAvailable(run);
    }
  }

  // ----- delayed switches share one target

  ghost predicate NoSwitchPending<E>(s: State<E>) {
    forall t | t in s.timers :: s.timers[t].action.MarkUnavailable?
  }

  ghost predicate Settled(s: State<nat>) {
    s.Linked() && s.current in s.endpoints && (NoSwitchPending(s) ==> BestChoice(s))
  }

  /** Whenever no delayed switch is outstanding, current is the best choice. */
  ghost predicate SettlesOnBest(switchingDelay: int) {
    forall run: Run<nat> | run.switchingDelay == switchingDelay && run.Legal() :: Settled(run.Final())
  }

  ghost function Three(delay: int, a: Status, ca: int, b: Status, cb: int, c: Status, cc: int,
                       current: string, future: string, timers: map<nat, Timer<nat>>, next: nat): State<nat> {
    State(0, delay, map["a" := 0, "b" := 1, "c" := 2],
          map[0 := Endpoint("a", 0, a, ca, None, 1), 1 := Endpoint("b", 1, b, cb, None, 1),
              2 := Endpoint("c", 2, c, cc, None, 1)],
          current, future, timers, next, 1)
  }

  ghost predicate IsThree(s: State<nat>) {
    && s.Linked() && s.endpoints == map["a" := 0, "b" := 1, "c" := 2]
    && s.At("a").priority == 0 && s.At("b").priority == 1 && s.At("c").priority == 2
  }

  lemma ThreeTop(s: State<nat>, top: string)
    requires IsThree(s) && s.IsAvailable(top)
    requires forall k | s.IsAvailable(k) :: s.At(top).priority <= s.At(k).priority
    ensures s.Top(true) == Some(top)
  {
    assert s.IsTop(top, true);
    TopIsUnique(s, top, true);
  }

  lemma CreateThree(delay: int, list: seq<string>, news: seq<nat>)
    requires list == ["a", "b", "c"] && news == [0, 1, 2]
    ensures Create(0, delay, list, news, 1) ==
      Three(delay, Unavailable, 0, Unavailable, 0, Unavailable, 0, "a", "", map[], 0)
  {
    var s0: State<nat> := State(0, delay, map[], map[], list[0], "", map[], 0, 1);
    assert CreateAll(s0, list, []) == s0;
    assert news[..3] == news && news[..2][..1] == news[..1] && news[..1][..0] == [];
    var s1 := CreateAll(s0, list, news[..1]);
    assert s1.endpoints == map["a" := 0];
    var s2 := CreateAll(s0, list, news[..2]);
    assert s2.endpoints == map["a" := 0, "b" := 1];
    var s3 := CreateAll(s0, list, news);
    assert s3.endpoints == map["a" := 0, "b" := 1, "c" := 2];
    assert s3.objs == Three(delay, Unavailable, 0, Unavailable, 0, Unavailable, 0, "a", "", map[], 0).objs;
  }

  /** Three.(name := Available or Unavailable) followed by the choice of `top`, if anything is available. */
  lemma Announce(s: State<nat>, id: string, avail: bool, m: State<nat>, top: string, r: State<nat>)
    requires s.recoveryTimeout == 0 && IsThree(s) && IsThree(m) && id in s.endpoints
    requires avail || s.At(id).status == Available
    requires m == SetState(s, s.endpoints[id], if avail then Available else Unavailable)
    requires if m.IsAvailable(top) then (forall k | m.IsAvailable(k) :: m.At(top).priority <= m.At(k).priority)
             else !m.AnyAvailable()
    requires m.current in m.endpoints
    requires r == if m.IsAvailable(top) then SwitchFromTo(m, CurrentEndpoint(m), m.At(top)) else m
    requires m.At(m.current).status != Recovering
    ensures Goes(s, DoSetAvailability(id, avail), r)
  {
    if m.IsAvailable(top) {
      ThreeTop(m, top);
    }
    assert Tick(s, r.now) == s;
  }

  /** The states of a run in which a switch scheduled while c was current lands on b, past the better a. */
  ghost function Stage(delay: int, i: nat): State<nat> {
    var U, A := Unavailable, Available;
    var timer: Timer<nat> := Timer(Switch, 1 + delay, false);
    var at := if delay > 0 then 1 + delay else 1;
    match i
    case 0 => Three(delay, U, 0, U, 0, U, 0, "a", "", map[], 0)
    case 1 => Three(delay, U, 0, U, 0, A, 1, "c", "", map[], 0)
    case 2 => Three(delay, U, 0, A, 1, A, 1, "c", "b", map[0 := timer], 1)
    case 3 => Three(delay, U, 0, A, 1, U, 1, "b", "b", map[0 := timer], 1)
    case 4 => Three(delay, U, 0, U, 1, U, 1, "b", "b", map[0 := timer], 1)
    case 5 => Three(delay, A, 1, U, 1, U, 1, "a", "b", map[0 := timer], 1)
    case 6 => Three(delay, A, 1, A, 1, U, 1, "a", "b", map[0 := timer], 1)
    case 7 => Three(delay, A, 1, A, 1, U, 1, "a", "b", map[0 := timer.(fired := true)], 1).(now := at)
    case _ => Three(delay, A, 1, A, 1, U, 1, "b", "b", map[], 1).(now := at)
  }

  ghost function StageAction(i: nat): Action<nat> {
    match i
    case 0 => DoSetAvailability("c", true)
    case 1 => DoSetAvailability("b", true)
    case 2 => DoSetAvailability("c", false)
    case 3 => DoSetAvailability("b", false)
    case 4 => DoSetAvailability("a", true)
    case 5 => DoSetAvailability("b", true)
    case 6 => DoFire(0)
    case _ => DoRun(0)
  }

  lemma LastUp(delay: int)
    requires delay != 0
    ensures Goes(Stage(delay, 0), StageAction(0), Stage(delay, 1))
  {
    hide Goes;
    Announce(Stage(delay, 0), "c", true, Stage(delay, 1).(current := "a"), "c", Stage(delay, 1));
  }

  lemma MiddleUp(delay: int)
    requires delay != 0
    ensures Goes(Stage(delay, 1), StageAction(1), Stage(delay, 2))
  {
    hide Goes;
    Announce(Stage(delay, 1), "b", true, Stage(delay, 2).(future := "", timers := map[], nextTimer := 0), "b",
             Stage(delay, 2));
  }

  lemma LastDown(delay: int)
    requires delay != 0
    ensures Goes(Stage(delay, 2), StageAction(2), Stage(delay, 3))
  {
    hide Goes;
    Announce(Stage(delay, 2), "c", false, Stage(delay, 3).(current := "c"), "b", Stage(delay, 3));
  }

  lemma MiddleDown(delay: int)
    requires delay != 0
    ensures Goes(Stage(delay, 3), StageAction(3), Stage(delay, 4))
  {
    hide Goes;
    Announce(Stage(delay, 3), "b", false, Stage(delay, 4), "b", Stage(delay, 4));
  }

  lemma BestUp(delay: int)
    requires delay != 0
    ensures Goes(Stage(delay, 4), StageAction(4), Stage(delay, 5))
  {
    BestIsListed(delay);
    BestIsSet(delay);
    BestIsSwitchedTo(delay);
    hide Goes, Stage, SetState, SwitchFromTo;
    Announce(Stage(delay, 4), "a", true, Stage(delay, 5).(current := "b"), "a", Stage(delay, 5));
  }

  lemma BestIsListed(delay: int)
    requires delay != 0
    ensures Stage(delay, 4).recoveryTimeout == 0 && IsThree(Stage(delay, 4))
    ensures IsThree(Stage(delay, 5).(current := "b"))
  {
  }

  lemma BestIsSet(delay: int)
    requires delay != 0
    ensures 0 in Stage(delay, 4).objs && SetState(Stage(delay, 4), 0, Available) == Stage(delay, 5).(current := "b")
  {
    var s, r := Stage(delay, 4), Stage(delay, 5);
    assert s.objs[0 := r.objs[0]] == r.objs;
  }

  lemma BestIsSwitchedTo(delay: int)
    requires delay != 0
    ensures var m := Stage(delay, 5).(current := "b");
      && m.Linked() && m.current in m.endpoints && m.At("b").status != Recovering
      && m.IsAvailable("a") && (forall k | m.IsAvailable(k) :: m.At("a").priority <= m.At(k).priority)
      && Stage(delay, 5) == SwitchFromTo(m, CurrentEndpoint(m), m.At("a"))
  {
  }

  lemma MiddleUpAgain(delay: int)
    requires delay != 0
    ensures Goes(Stage(delay, 5), StageAction(5), Stage(delay, 6))
  {
    hide Goes;
    Announce(Stage(delay, 5), "b", true, Stage(delay, 6), "a", Stage(delay, 6));
  }

  lemma SwitchFires(delay: int)
    requires delay != 0
    ensures Goes(Stage(delay, 6), StageAction(6), Stage(delay, 7))
  {
  }

  lemma SwitchBack(delay: int)
    requires delay != 0
    ensures Goes(Stage(delay, 7), StageAction(7), Stage(delay, 8))
  {
    assert Stage(delay, 7).IsAvailable("b");
  }

  lemma NextStage(delay: int, i: nat)
    requires delay != 0 && i < 8
    ensures Goes(Stage(delay, i), StageAction(i), Stage(delay, i + 1))
  {
    match i / 2 {
      case 0 => if i == 0 { LastUp(delay); } else { MiddleUp(delay); }
      case 1 => if i == 2 { LastDown(delay); } else { MiddleDown(delay); }
      case 2 => if i == 4 { BestUp(delay); } else { MiddleUpAgain(delay); }
      case _ => if i == 6 { SwitchFires(delay); } else { SwitchBack(delay); }
    }
  }

  lemma {:induction false} StagedRun(delay: int, i: nat) returns (run: Run<nat>)
    requires delay != 0 && i <= 8
    ensures run.switchingDelay == delay && run.Legal() && run.Final() == Stage(delay, i)
  {
    if i == 0 {
      run := Run(0, delay, ["a", "b", "c"], [0, 1, 2], 1, []);
      CreateThree(delay, run.list, run.news);
    } else {
      run := StagedRun(delay, i - 1);
      NextStage(delay, i - 1);
      run := Extend(run, StageAction(i - 1), Stage(delay, i));
    }
  }

  lemma LastStageIsWrong(delay: int)
    ensures !Settled(Stage(delay, 8))
  {
    var s := Stage(delay, 8);
    assert NoSwitchPending(s) && s.IsTop("a", true) && s.At("b").status == Available;
  }

  /** multiendpoint.go:48-49 and 239-246: current ends up the best choice in every run exactly without a delay. */
  lemma SettlesOnBestIff(switchingDelay: int)
    ensures SettlesOnBest(switchingDelay) <==> switchingDelay == 0
  {
    if switchingDelay == 0 {
      forall run: Run<nat> | run.switchingDelay == switchingDelay && run.Legal()
        ensures Settled(run.Final())
      {
        CurrentIsBestChoice(run);
      }
    } else {
      var run := StagedRun(switchingDelay, 8);
      LastStageIsWrong(switchingDelay);
    }
  }
}
