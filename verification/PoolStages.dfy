/**
 The first steps of a pool of n subconns, and runs made of them; refs are numbered like the subconns they start with.
 */
module PoolStages {
  import opened Options
  import opened PoolSpec
  import opened PoolPublication

  ghost function Then<R>(run: Run<R>, step: Step<R>): (longer: Run<R>)
    requires run.Legal() && Enabled(run.Final(), step)
    ensures longer.Legal() && longer.Final() == Apply(run.Final(), step)
    ensures longer == run.(steps := run.steps + [step]) && longer.Front() == run
  {
    var longer := run.(steps := run.steps + [step]);
    assert longer.Front() == run;
    longer
  }

  function FirstRefs(n: nat): seq<nat> {
    seq(n, i => i)
  }

  ghost function IdleStates(n: nat): map<SubConn, ConnState> {
    map i | i in Below(n) :: Idle
  }

  ghost function Ids(n: nat): map<SubConn, nat> {
    map i | i in Below(n) :: i
  }

  ghost function FreshRefs(n: nat): map<nat, Ref> {
    map i | i in Below(n) :: Ref(i, i, 0, 0, 0, 0, false, 0)
  }

  lemma NextStates(n: nat)
    ensures IdleStates(n)[n := Idle] == IdleStates(n + 1) && Ids(n)[n := n] == Ids(n + 1)
  {
  }

  lemma NextRefs(n: nat)
    ensures FreshRefs(n)[n := Ref(n, n, 0, 0, 0, 0, false, 0)] == FreshRefs(n + 1)
    ensures FirstRefs(n) + [n] == FirstRefs(n + 1)
  {
  }

  /** n subconns that are still idle. */
  ghost function Started(c: Config, n: nat): Pool<nat> {
    Build(0).(cfg := Some(WithDefaults(c)), issued := n, scRefList := FirstRefs(n), scStates := IdleStates(n),
              scRefs := Ids(n), owner := Ids(n), objs := FreshRefs(n))
  }

  lemma StartOneMore(c: Config, n: nat)
    ensures AddSubConn(Started(c, n), n) == Started(c, n + 1)
  {
    NextStates(n);
    NextRefs(n);
    hide IdleStates, Ids, FreshRefs, FirstRefs, WithDefaults;
  }

  lemma {:induction false} StartAll(c: Config, n: nat)
    ensures AddAll(Build<nat>(0).(cfg := Some(WithDefaults(c))), FirstRefs(n)) == Started(c, n)
    decreases n
  {
    if n > 0 {
      StartAll(c, n - 1);
      assert FirstRefs(n)[..n - 1] == FirstRefs(n - 1);
      StartOneMore(c, n - 1);
    } else {
      assert Build<nat>(0).(cfg := Some(WithDefaults(c))) == Started(c, 0);
    }
  }

  lemma StepToStarted(c: Config)
    ensures var n := WithDefaults(c).minSize;
      && Possible(Build<nat>(0), DoConfigure(c, FirstRefs(n)))
      && Perform(Build<nat>(0), DoConfigure(c, FirstRefs(n))) == Started(c, n)
  {
    StartAll(c, WithDefaults(c).minSize);
    hide WithDefaults, AddAll;
  }

  ghost function StartRun(c: Config): (run: Run<nat>)
    ensures run.Legal() && run.Final() == Started(c, WithDefaults(c).minSize)
    ensures run == Run(0, [Step(DoConfigure(c, FirstRefs(WithDefaults(c).minSize)), 0)])
  {
    StepToStarted(c);
    assert Tick(Build<nat>(0), 0) == Build(0);
    hide Possible, Perform, Started;
    Then(Run(0, []), Step(DoConfigure(c, FirstRefs(WithDefaults(c).minSize)), 0))
  }

  /** The first subconn is ready. */
  ghost function OneReady(c: Config, n: nat): Pool<nat>
    requires n > 0
  {
    Started(c, n).(evaluator := Evaluator(1, 0, 0), state := Ready, scStates := Started(c, n).scStates[0 := Ready],
                   picker := Gcp([0]), published := Some(Published(Ready, Gcp([0]))))
  }

  lemma ReadyRefsAre(s: Pool<nat>, sc: SubConn, r: nat)
    requires sc in s.scStates && s.scStates[sc] == Ready && sc in s.scRefs && s.scRefs[sc] == r
    requires forall other | other in s.scStates && other != sc :: s.scStates[other] != Ready
    ensures Lists([r], s.ReadyRefs())
  {
    assert r in s.ReadyRefs();
    assert (set q | q in [r]) == {r} == s.ReadyRefs();
  }

  lemma StepToOneReady(c: Config, n: nat)
    requires n > 0
    ensures Possible(Started(c, n), DoStateChange(0, Ready, [0]))
    ensures Perform(Started(c, n), DoStateChange(0, Ready, [0])) == OneReady(c, n)
  {
    BelowSize(n);
    var s := Started(c, n);
    var e := Entered(s, 0, Ready);
    assert WithoutBound(s, map[], 0) == map[];
    assert e == s.(evaluator := Evaluator(1, 0, 0), state := Ready, scStates := s.scStates[0 := Ready]);
    assert UpdateSubConnState(s, 0, Ready, [0]) == Regenerated(e, [0]) == OneReady(c, n);
    ReadyRefsAre(OneReady(c, n), 0, 0);
  }

  /** ... and a call on it, now done, has bound a key. */
  ghost function OneBound(c: Config, n: nat): Pool<nat>
    requires n > 0
  {
    OneReady(c, n).(affinityMap := map["k" := 0], objs := OneReady(c, n).objs[0 := Ref(0, 0, 1, 0, 0, 0, false, 0)])
  }

  lemma StepToOneBound(c: Config, n: nat)
    requires n > 0
    ensures Possible(OneReady(c, n), DoBind("k", 0)) && Perform(OneReady(c, n), DoBind("k", 0)) == OneBound(c, n)
  {
    BelowSize(n);
  }

  /** The call that binds the key takes and gives back a stream; its answer is no news. */
  lemma StepsOfCall(c: Config, n: nat)
    requires 0 < n < TWO_32
    ensures var s := OneReady(c, n);
      && Possible(s, DoOpen(7, 0)) && Perform(s, DoOpen(7, 0)).now == 0
      && Tick(Perform(s, DoOpen(7, 0)), 0) == Perform(s, DoOpen(7, 0))
      && Possible(Perform(s, DoOpen(7, 0)), DoClose(7, false, true))
      && Perform(Perform(s, DoOpen(7, 0)), DoClose(7, false, true)) == s
  {
    BelowSize(n);
    var s := OneReady(c, n);
    var m := Open(s, 7, 0);
    assert Close(m, 7).calls == s.calls && Close(m, 7).objs == s.objs;
    assert s.objs[0] == Ref(0, 0, 0, 0, 0, 0, false, 0) && s.objs[0 := GotResp(s.objs[0], 0)] == s.objs;
    hide Refresh, Unresponsive, WithDefaults, Started;
  }

  lemma StagesKeepTime(c: Config, n: nat)
    requires n > 0
    ensures Tick(Started(c, n), 0) == Started(c, n) && Tick(OneReady(c, n), 0) == OneReady(c, n)
      && OneBound(c, n).now == 0
  {
  }
}
