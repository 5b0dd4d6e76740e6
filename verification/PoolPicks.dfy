/** Which ref a pick takes: the least busy one, or the next in turn. */
module PoolPicks {
  import opened Options
  import opened PoolSpec
  import opened PoolPublication
  import opened PoolRefs
  import opened PoolWait

  // ----- least busy, gcp_picker.go:189-217

  /**
   A pick takes the first ref with the fewest streams; it takes none exactly when all refs are at the
   watermark and the pool may still grow. So while the pool is below MaxSize no pick lifts a ref above the watermark.
   */
  lemma LeastBusyChooses<R>(s: Pool<R>, refs: seq<R>)
    requires |refs| > 0 && (forall r | r in refs :: r in s.objs) && s.cfg.Some?
    ensures LeastBusy(s, refs) == Busy <==>
      && (s.cfg.value.maxSize == 0 || |s.scRefs| < s.cfg.value.maxSize)
      && forall r | r in refs :: s.objs[r].streamsCnt >= ToInt32(s.cfg.value.watermark)
    ensures LeastBusy(s, refs).Chosen? ==>
      var r := LeastBusy(s, refs).ref;
      && r in refs && (forall q | q in refs :: s.objs[r].streamsCnt <= s.objs[q].streamsCnt)
      && (|s.scRefs| < s.cfg.value.maxSize ==> s.objs[r].streamsCnt + 1 <= ToInt32(s.cfg.value.watermark))
  {
    var counts := Streams(s, refs);
    var k := LeastIndex(counts);
    assert refs[k] in refs;
    forall q | q in refs ensures s.objs[refs[k]].streamsCnt <= s.objs[q].streamsCnt {
      var i :| 0 <= i < |refs| && refs[i] == q;
      assert counts[k] <= counts[i];
    }
  }

  /** The stream counts of a picker's refs after one pick of the least busy one. */
  function Picked(counts: seq<int>): seq<int>
    requires |counts| > 0
  {
    var k := LeastIndex(counts);
    counts[k := counts[k] + 1]
  }

  /** ... after n picks, none of which has completed. */
  function PickedTimes(counts: seq<int>, n: nat): (r: seq<int>)
    requires |counts| > 0
    ensures |r| == |counts|
  {
    if n == 0 then counts else Picked(PickedTimes(counts, n - 1))
  }

  predicate Within(counts: seq<int>, spread: int) {
    forall i, j | 0 <= i < |counts| && 0 <= j < |counts| :: counts[i] - counts[j] <= spread
  }

  lemma WithinMore(counts: seq<int>, spread: int, more: int)
    requires Within(counts, spread) && spread <= more
    ensures Within(counts, more)
  {
  }

  lemma PickKeepsSpread(counts: seq<int>, spread: int)
    requires |counts| > 0 && Within(counts, spread) && spread >= 1
    ensures Within(Picked(counts), spread)
  {
    var k := LeastIndex(counts);
    var after := Picked(counts);
    forall i, j | 0 <= i < |after| && 0 <= j < |after| ensures after[i] - after[j] <= spread {
      assert counts[i] - counts[j] <= spread && counts[k] <= counts[j];
    }
  }

  /** Picks without completions never widen the spread between the busiest and the least busy ref, unless to 1. */
  lemma {:induction false} PicksKeepSpread(counts: seq<int>, spread: nat, n: nat)
    requires |counts| > 0 && Within(counts, spread)
    ensures Within(PickedTimes(counts, n), if spread < 1 then 1 else spread)
    decreases n
  {
    if n > 0 {
      PicksKeepSpread(counts, spread, n - 1);
      PickKeepsSpread(PickedTimes(counts, n - 1), if spread < 1 then 1 else spread);
    }
  }

  function Sum(counts: seq<int>): int {
    if |counts| == 0 then 0 else Sum(counts[..|counts| - 1]) + counts[|counts| - 1]
  }

  lemma {:induction false} SumOfUpdate(counts: seq<int>, k: nat, v: int)
    requires k < |counts|
    ensures Sum(counts[k := v]) == Sum(counts) - counts[k] + v
    decreases |counts|
  {
    var n := |counts| - 1;
    if k < n {
      SumOfUpdate(counts[..n], k, v);
      assert counts[k := v][..n] == counts[..n][k := v];
    } else {
      assert counts[k := v][..n] == counts[..n];
    }
  }

  lemma {:induction false} PicksAddUp(counts: seq<int>, n: nat)
    requires |counts| > 0
    ensures Sum(PickedTimes(counts, n)) == Sum(counts) + n
    decreases n
  {
    hide Sum, LeastIndex;
    if n > 0 {
      PicksAddUp(counts, n - 1);
      var c := PickedTimes(counts, n - 1);
      SumOfUpdate(c, LeastIndex(c), c[LeastIndex(c)] + 1);
    }
  }

  /** m picks per ref turn zeros into ms. */
  lemma RoundsAreEven(counts: seq<int>, m: nat, i: nat)
    requires |counts| > 0 && (forall k | 0 <= k < |counts| :: counts[k] == 0) && i < |counts|
    ensures PickedTimes(counts, m * |counts|)[i] == m
  {
    var n := |counts|;
    var after := PickedTimes(counts, m * n);
    PicksKeepSpread(counts, 0, m * n);
    PicksAddUp(counts, m * n);
    SumFloor(counts, 0);
    SumCeiling(counts, 0);
    if after[i] > m {
      EvenUp(after, i, m);
    } else if after[i] < m {
      EvenDown(after, i, m);
    }
  }

  lemma EvenUp(after: seq<int>, i: nat, m: int)
    requires Within(after, 1) && i < |after| && after[i] > m
    ensures Sum(after) > |after| * m
  {
    var floor := after[i := m];
    assert forall j | 0 <= j < |after| :: after[i] - after[j] <= 1;
    SumFloor(floor, m);
    SumOfUpdate(after, i, m);
  }

  lemma EvenDown(after: seq<int>, i: nat, m: int)
    requires Within(after, 1) && i < |after| && after[i] < m
    ensures Sum(after) < |after| * m
  {
    var ceiling := after[i := m];
    assert forall j | 0 <= j < |after| :: after[j] - after[i] <= 1;
    SumCeiling(ceiling, m);
    SumOfUpdate(after, i, m);
  }

  lemma {:induction false} SumFloor(counts: seq<int>, lo: int)
    requires forall i | 0 <= i < |counts| :: lo <= counts[i]
    ensures Sum(counts) >= |counts| * lo
    decreases |counts|
  {
    if |counts| > 0 {
      SumFloor(counts[..|counts| - 1], lo);
    }
  }

  lemma {:induction false} SumCeiling(counts: seq<int>, hi: int)
    requires forall i | 0 <= i < |counts| :: counts[i] <= hi
    ensures Sum(counts) <= |counts| * hi
    decreases |counts|
  {
    if |counts| > 0 {
      SumCeiling(counts[..|counts| - 1], hi);
    }
  }

  // ----- picks among the other steps of a run

  /** The step is a pick that takes the least busy of refs. */
  ghost predicate Picks<R>(s: Pool<R>, action: Action<R>, refs: seq<R>) {
    && action.DoOpen? && s.cfg.Some? && |refs| > 0 && (forall r | r in refs :: r in s.objs)
    && LeastBusy(s, refs) == Chosen(action.ref)
  }

  /** The step is some other pick of one of refs, bound or in turn, or the end of a call on one. */
  ghost predicate Disturbs<R>(s: Pool<R>, action: Action<R>, refs: seq<R>) {
    || (action.DoOpen? && action.ref in refs && !Picks(s, action, refs))
    || (action.DoClose? && action.id in s.calls && s.calls[action.id].ref in refs)
  }

  /** How many of the steps m to n are least-busy picks. */
  ghost function PicksMade<R>(run: Run<R>, m: nat, n: nat, refs: seq<R>): nat
    requires run.Legal() && m <= n <= |run.steps|
    decreases n
  {
    if m == n then 0
    else
      var step := run.steps[n - 1];
      PicksMade(run, m, n - 1, refs) + if Picks(Tick(StateAt(run, n - 1), step.at), step.action, refs) then 1 else 0
  }

  /** ... and how many disturb them. */
  ghost function Disturbances<R>(run: Run<R>, m: nat, n: nat, refs: seq<R>): nat
    requires run.Legal() && m <= n <= |run.steps|
    decreases n
  {
    if m == n then 0
    else
      var step := run.steps[n - 1];
      Disturbances(run, m, n - 1, refs)
      + if Disturbs(Tick(StateAt(run, n - 1), step.at), step.action, refs) then 1 else 0
  }

  lemma PlainActionOnStreams<R>(s: Pool<R>, action: Action<R>, r: R)
    requires Possible(s, action) && r in s.objs
    requires action.DoAdmit? || action.DoLookup? || action.DoTicket? || action.DoOpen? || action.DoBind?
      || action.DoUnbind?
    ensures r in Perform(s, action).objs
    ensures Perform(s, action).objs[r].streamsCnt
      == s.objs[r].streamsCnt + if action.DoOpen? && action.ref == r then 1 else 0
  {
    hide LeastBusy, GetReadySubConnRef, KnownPicker;
  }

  /**
   A stream is gained by a pick and lost by the end of a call; nothing else changes the count, a replacement included.
   */
  lemma ActionOnStreams<R>(s: Pool<R>, action: Action<R>, r: R)
    requires Possible(s, action) && r in s.objs
    ensures r in Perform(s, action).objs
    ensures Perform(s, action).objs[r].streamsCnt
      == s.objs[r].streamsCnt
         + (if action.DoOpen? && action.ref == r then 1 else 0) - (if Ends(s, action, r) then 1 else 0)
  {
    hide NewSubConn, DetectUnresponsive, UpdateSubConnState, LeastBusy, GetReadySubConnRef, KnownPicker, Lists,
      Distinct, WithDefaults, AddAll, SomePending, Open, Bind, Unbind, AfterLookup, Close, CanChange, Unresponsive;
    match action {
      case DoConfigure(c, news) => AddAllGrows(s.(cfg := Some(WithDefaults(c))), news);
      case DoGrowFirst(q, ok) => NewSubConnOnRef(s, q, ok, r);
      case DoGrow(id, q, ok) => NewSubConnOnRef(s.(admitted := s.admitted - {id}), q, ok, r);
      case DoStateChange(sc, st, order) => ChangeOnRefs(s, sc, st, order);
      case DoClose(id, timedOut, ok) => CloseOnRefs(s, id, timedOut, ok);
      case _ => PlainActionOnStreams(s, action, r);
    }
  }

  /** A least-busy pick raises a smallest count. */
  lemma PickRaisesLeast<R>(s: Pool<R>, id: nat, refs: seq<R>, r: R)
    requires Picks(s, DoOpen(id, r), refs)
    ensures var k := LeastIndex(Streams(s, refs));
      refs[k] == r && forall i | 0 <= i < |refs| :: Streams(s, refs)[k] <= Streams(s, refs)[i]
  {
  }

  predicate LeastIn(counts: seq<int>, s: set<nat>) {
    forall i, j | i in s && i < |counts| && 0 <= j < |counts| :: counts[i] <= counts[j]
  }

  /** The counts in up go up by one, or those in down go down. */
  lemma SpreadOfStep(was: seq<int>, now: seq<int>, up: set<nat>, down: set<nat>, spread: int)
    requires |now| == |was| && Within(was, spread)
    requires forall i | 0 <= i < |was| ::
      now[i] == was[i] + (if i in up then 1 else 0) - (if i in down then 1 else 0)
    requires up == {} || down == {}
    ensures Within(now, spread + 1)
    ensures up == {} && down == {} ==> Within(now, spread)
    ensures down == {} && spread >= 1 && LeastIn(was, up) ==> Within(now, spread)
  {
    forall i, j | 0 <= i < |now| && 0 <= j < |now| ensures now[i] - now[j] <= spread + 1 {
      assert was[i] - was[j] <= spread;
    }
  }

  lemma StepOnSpread<R>(s: Pool<R>, step: Step<R>, refs: seq<R>, spread: nat)
    requires Enabled(s, step) && |refs| > 0 && (forall r | r in refs :: r in s.objs)
    requires Within(Streams(s, refs), spread) && spread >= 1
    ensures forall r | r in refs :: r in Apply(s, step).objs
    ensures Within(Streams(Apply(s, step), refs),
                   spread + if Disturbs(Tick(s, step.at), step.action, refs) then 1 else 0)
  {
    hide Possible, Perform, LeastBusy, Within;
    var u := Tick(s, step.at);
    var t := Apply(s, step);
    forall r | r in refs ensures r in t.objs
      && t.objs[r].streamsCnt
         == s.objs[r].streamsCnt + (if step.action.DoOpen? && step.action.ref == r then 1 else 0)
            - (if Ends(u, step.action, r) then 1 else 0)
    {
      ActionOnStreams(u, step.action, r);
    }
    var was := Streams(s, refs);
    var up := set i: nat | i < |refs| && step.action.DoOpen? && step.action.ref == refs[i];
    var down := set i: nat | i < |refs| && Ends(u, step.action, refs[i]);
    if Picks(u, step.action, refs) {
      PickRaisesLeast(u, step.action.id, refs, step.action.ref);
      assert Streams(u, refs) == was;
    }
    SpreadOfStep(was, Streams(t, refs), up, down, spread);
  }

  /**
   In every part of every run the spread between the refs of a picker stays within max(1, initial spread),
   plus one for every pick that was bound or in turn and for every call that ended.
   */
  lemma {:induction false} SpreadIsBounded<R>(run: Run<R>, m: nat, n: nat, refs: seq<R>, spread: nat)
    requires run.Legal() && m <= n <= |run.steps| && |refs| > 0
    requires forall r | r in refs :: r in StateAt(run, m).objs
    requires Within(Streams(StateAt(run, m), refs), spread)
    ensures forall r | r in refs :: r in StateAt(run, n).objs
    ensures Within(Streams(StateAt(run, n), refs), (if spread < 1 then 1 else spread) + Disturbances(run, m, n, refs))
    decreases n
  {
    hide StateAt, Enabled, Apply, Within, Streams, Disturbs, Tick, Steady;
    if m == n {
      WithinMore(Streams(StateAt(run, n), refs), spread, if spread < 1 then 1 else spread);
    } else {
      SpreadIsBounded(run, m, n - 1, refs, spread);
      StateAfter(run, n - 1);
      StepOnSpread(StateAt(run, n - 1), run.steps[n - 1], refs,
                   (if spread < 1 then 1 else spread) + Disturbances(run, m, n - 1, refs));
    }
  }

  lemma StepOnCounts<R>(s: Pool<R>, step: Step<R>, refs: seq<R>)
    requires Enabled(s, step) && |refs| > 0 && Distinct(refs) && (forall r | r in refs :: r in s.objs)
    requires !Disturbs(Tick(s, step.at), step.action, refs)
    ensures forall r | r in refs :: r in Apply(s, step).objs
    ensures Streams(Apply(s, step), refs)
      == if Picks(Tick(s, step.at), step.action, refs) then Picked(Streams(s, refs)) else Streams(s, refs)
  {
    hide Possible, Perform, LeastBusy;
    var u := Tick(s, step.at);
    var t := Apply(s, step);
    forall r | r in refs ensures r in t.objs
      && t.objs[r].streamsCnt == s.objs[r].streamsCnt + if step.action.DoOpen? && step.action.ref == r then 1 else 0
    {
      ActionOnStreams(u, step.action, r);
    }
    assert Streams(u, refs) == Streams(s, refs);
    if Picks(u, step.action, refs) {
      PickRaisesLeast(u, step.action.id, refs, step.action.ref);
      assert forall i, j | 0 <= i < |refs| && 0 <= j < |refs| && i != j :: refs[i] != refs[j];
    }
  }

  /** Where nothing disturbs them, the counts are those of the picks alone. */
  lemma {:induction false} CountsFollowPicks<R>(run: Run<R>, m: nat, n: nat, refs: seq<R>)
    requires run.Legal() && m <= n <= |run.steps| && |refs| > 0 && Distinct(refs)
    requires (forall r | r in refs :: r in StateAt(run, m).objs) && Disturbances(run, m, n, refs) == 0
    ensures forall r | r in refs :: r in StateAt(run, n).objs
    ensures Streams(StateAt(run, n), refs) == PickedTimes(Streams(StateAt(run, m), refs), PicksMade(run, m, n, refs))
    decreases n
  {
    hide StateAt, Enabled, Apply, Streams, Disturbs, Distinct, Picks, Tick, Steady, Picked;
    if m < n {
      CountsFollowPicks(run, m, n - 1, refs);
      StateAfter(run, n - 1);
      StepOnCounts(StateAt(run, n - 1), run.steps[n - 1], refs);
    }
  }

  /** From idle, k undisturbed picks per ref load every ref with exactly k streams, whatever else the run does. */
  lemma FullRoundsAreEven<R>(run: Run<R>, m: nat, n: nat, refs: seq<R>, k: nat, r: R)
    requires run.Legal() && m <= n <= |run.steps| && Distinct(refs) && r in refs
    requires forall q | q in refs :: q in StateAt(run, m).objs && StateAt(run, m).objs[q].streamsCnt == 0
    requires Disturbances(run, m, n, refs) == 0 && PicksMade(run, m, n, refs) == k * |refs|
    ensures r in StateAt(run, n).objs && StateAt(run, n).objs[r].streamsCnt == k
  {
    hide StateAt, Distinct, Disturbances, PicksMade, PickedTimes;
    CountsFollowPicks(run, m, n, refs);
    var i :| 0 <= i < |refs| && refs[i] == r;
    RoundsAreEven(Streams(StateAt(run, m), refs), k, i);
    assert Streams(StateAt(run, n), refs)[i] == k;
  }
}
