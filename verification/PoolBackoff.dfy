/** Exponential backoff of the refreshes of one ref, over whole runs. */
module PoolBackoff {
  import opened Options
  import opened PoolSpec
  import opened PoolIndex
  import opened PoolPublication
  import opened PoolRefs

  // ----- the window, gcp_picker.go:124-127

  lemma {:induction false} Pow2Positive(n: nat)
    ensures Pow2(n) > 0
  {
    if n > 0 {
      Pow2Positive(n - 1);
    }
  }

  lemma {:induction false} Pow2Grows(m: nat, n: nat)
    requires m <= n
    ensures Pow2(m) <= Pow2(n)
    decreases n
  {
    Pow2Positive(m);
    if m < n {
      Pow2Grows(m, n - 1);
    }
  }

  lemma Pow2At32()
    ensures Pow2(32) == TWO_32
  {
    assert Pow2(8) == 256;
    assert Pow2(16) == 65536;
    assert Pow2(24) == 0x100_0000;
  }

  lemma Scales(a: nat, b: nat)
    requires a > 0
    ensures a * b >= b
  {
  }

  lemma Wraps(x: nat)
    ensures x % TWO_32 == x <==> x < TWO_32
  {
  }

  /** The window doubles with every refresh exactly as long as it fits a uint32; from 32 refreshes on it is zero. */
  lemma WindowDoublesIff(ms: uint32, r: uint32)
    requires ms > 0
    ensures Window(ms, r) == ms * Pow2(r) <==> ms * Pow2(r) < TWO_32
    ensures r >= 32 ==> Window(ms, r) == 0
  {
    hide Pow2;
    Pow2Positive(r);
    Scales(ms, Pow2(r));
    if r >= 32 {
      Pow2At32();
      Pow2Grows(32, r);
    } else {
      Wraps(Pow2(r) * ms);
    }
  }

  // ----- what an observer of a run sees of one ref

  /**
   A refresh that was initiated: when, and, since the last response or replacement, the starts of the calls that
   timed out.
   */
  datatype Init = Init(at: int, since: int, starts: seq<int>)

  /**
   What happened to a ref since `base`: its creation, its last response, or the completion of a
   replacement that was pending when that response came (then lateness is 1, otherwise 0).
   `since` is the last response or replacement, `starts` the starts of the calls that timed out after it.
   */
  datatype History = History(base: int, lateness: nat, inits: seq<Init>, completed: nat, since: int, starts: seq<int>)

  function Fresh(now: int, lateness: nat): History {
    History(now, lateness, [], 0, now, [])
  }

  ghost function HeardOf<R>(h: History, s: Pool<R>, action: Action<R>, r: R): History
    requires Possible(s, action)
  {
    if r !in s.objs then Fresh(s.now, 0)
    else if Replaces(s, action, r) then
      if |h.inits| > h.completed then h.(completed := h.completed + 1, since := s.now, starts := [])
      else Fresh(s.now, h.lateness + 1)
    else if Ends(s, action, r) && s.cfg.value.Detects() then
      if !action.timedOut then Fresh(s.now, 0)
      else if s.calls[action.id].started < h.since then h
      else h.(starts := h.starts + [s.calls[action.id].started])
    else h
  }

  ghost function Noted<R>(h: History, s: Pool<R>, action: Action<R>, r: R): History
    requires Possible(s, action)
  {
    var t := Perform(s, action);
    var h1 := HeardOf(h, s, action, r);
    if r in s.objs && !s.objs[r].refreshing && r in t.objs && t.objs[r].refreshing
    then h1.(inits := h1.inits + [Init(s.now, h1.since, h1.starts)])
    else h1
  }

  ghost function Observed<R>(run: Run<R>, r: R): History
    requires run.Legal()
    decreases |run.steps|
  {
    if |run.steps| == 0 then Fresh(run.start, 0)
    else
      var step := run.steps[|run.steps| - 1];
      Noted(Observed(run.Front(), r), Tick(run.Front().Final(), step.at), step.action, r)
  }

  // ----- how the fields of the ref reflect its history

  predicate Due(c: Config, h: History, i: nat)
    requires i < |h.inits|
  {
    var x := h.inits[i];
    && x.since >= (if i == 0 then h.base else h.inits[i - 1].at)
    && x.at > x.since + Window(c.unresponsiveMs, (h.lateness + i) % TWO_32) * MILLISECOND
    && |x.starts| >= c.unresponsiveCalls
    && forall b | b in x.starts :: b >= x.since
  }

  predicate Reflects(cfg: Option<Config>, ref: Ref, h: History, now: int) {
    && h.lateness <= 1 && h.completed <= |h.inits| <= h.completed + 1
    && (if ref.refreshing then |h.inits| == h.completed ==> h.inits == [] && h.lateness == 0
        else |h.inits| == h.completed)
    && ref.refreshCnt == (h.lateness + h.completed) % TWO_32
    && h.base <= h.since == ref.lastResp <= now
    && (h.completed > 0 ==> h.inits[h.completed - 1].at <= h.since)
    && (forall x | x in h.inits :: x.at <= now)
    && ref.deCalls == |h.starts| % TWO_32 && (forall b | b in h.starts :: b >= h.since)
    && (h.inits != [] ==> cfg.Some? && forall i | 0 <= i < |h.inits| :: Due(cfg.value, h, i))
  }

  lemma Untouched(cfg: Option<Config>, cfg': Option<Config>, ref: Ref, ref': Ref, h: History, now: int)
    requires Reflects(cfg, ref, h, now) && SameRecord(ref, ref') && (cfg.Some? ==> cfg' == cfg)
    ensures Reflects(cfg', ref', h, now)
  {
  }

  lemma Later(cfg: Option<Config>, ref: Ref, h: History, now: int, at: int)
    requires Reflects(cfg, ref, h, now) && now <= at
    ensures Reflects(cfg, ref, h, at)
  {
  }

  lemma Created(cfg: Option<Config>, ref: Ref, now: int)
    requires FreshRef(ref, now)
    ensures Reflects(cfg, ref, Fresh(now, 0), now)
  {
  }

  lemma ReplacementIsNoted(cfg: Option<Config>, ref: Ref, h: History, sc: SubConn, now: int)
    requires Reflects(cfg, ref, h, now) && ref.refreshing
    ensures Reflects(cfg, Replaced(ref, sc, now),
              if |h.inits| > h.completed then h.(completed := h.completed + 1, since := now, starts := [])
              else Fresh(now, h.lateness + 1), now)
  {
    if |h.inits| > h.completed {
      CompletionIsNoted(cfg, ref, h, sc, now);
    }
  }

  lemma CompletionIsNoted(cfg: Option<Config>, ref: Ref, h: History, sc: SubConn, now: int)
    requires Reflects(cfg, ref, h, now) && |h.inits| > h.completed
    ensures Reflects(cfg, Replaced(ref, sc, now), h.(completed := h.completed + 1, since := now, starts := []), now)
  {
    var h' := h.(completed := h.completed + 1, since := now, starts := []);
    forall i | 0 <= i < |h'.inits| ensures Due(cfg.value, h', i) {
      assert Due(cfg.value, h, i);
    }
    hide Due;
  }

  lemma ResponseIsNoted(cfg: Option<Config>, ref: Ref, h: History, now: int)
    requires Reflects(cfg, ref, h, now)
    ensures Reflects(cfg, GotResp(ref, now), Fresh(now, 0), now)
  {
  }

  lemma TimeoutIsNoted(cfg: Option<Config>, ref: Ref, h: History, started: int, now: int)
    requires Reflects(cfg, ref, h, now) && started >= ref.lastResp
    ensures Reflects(cfg, CountedTimeout(ref), h.(starts := h.starts + [started]), now)
  {
    var h' := h.(starts := h.starts + [started]);
    NextModulo(|h.starts|);
    assert forall i | 0 <= i < |h.inits| :: cfg.Some? && Due(cfg.value, h, i) ==> Due(cfg.value, h', i);
  }

  lemma NextModulo(n: nat)
    ensures (n % TWO_32 + 1) % TWO_32 == (n + 1) % TWO_32
  {
  }

  lemma RefreshIsNoted(c: Config, ref: Ref, ref': Ref, h: History, now: int)
    requires Reflects(Some(c), ref, h, now) && !ref.refreshing && Unresponsive(c, ref, now)
    requires SameRecord(ref.(refreshing := true), ref')
    ensures Reflects(Some(c), ref', h.(inits := h.inits + [Init(now, h.since, h.starts)]), now)
  {
    var h' := h.(inits := h.inits + [Init(now, h.since, h.starts)]);
    forall i | 0 <= i < |h'.inits| ensures Due(c, h', i) {
      assert i < |h.inits| ==> Due(c, h, i);
    }
  }

  lemma EndIsNoted<R>(s: Pool<R>, action: Action<R>, r: R, h: History)
    requires Possible(s, action) && r in s.objs && Ends(s, action, r) && Reflects(s.cfg, s.objs[r], h, s.now)
    ensures r in Perform(s, action).objs
    ensures Reflects(Perform(s, action).cfg, Perform(s, action).objs[r], Noted(h, s, action, r), s.now)
  {
    hide Reflects, DetectUnresponsive, Unresponsive, Close;
    var t := Perform(s, action);
    CloseOnRefs(s, action.id, action.timedOut, action.ok);
    var ref := AfterCall(s, action.id, action.timedOut);
    var h1 := HeardOf(h, s, action, r);
    AfterCallIsNoted(s, action, r, h);
    if !s.objs[r].refreshing && t.objs[r].refreshing {
      RefreshIsNoted(s.cfg.value, ref, t.objs[r], h1, s.now);
    } else {
      Untouched(s.cfg, s.cfg, ref, t.objs[r], h1, s.now);
    }
  }

  lemma AfterCallIsNoted<R>(s: Pool<R>, action: Action<R>, r: R, h: History)
    requires Possible(s, action) && r in s.objs && Ends(s, action, r) && Reflects(s.cfg, s.objs[r], h, s.now)
    ensures var ref := AfterCall(s, action.id, action.timedOut);
      Reflects(s.cfg, ref, HeardOf(h, s, action, r), s.now) && ref.refreshing == s.objs[r].refreshing
  {
    hide Perform, Unresponsive;
    var ref := s.objs[r].(streamsCnt := s.objs[r].streamsCnt - 1);
    Untouched(s.cfg, s.cfg, s.objs[r], ref, h, s.now);
    assert h.since == ref.lastResp;
    hide Reflects;
    if !s.cfg.value.Detects() {
    } else if !action.timedOut {
      ResponseIsNoted(s.cfg, ref, h, s.now);
    } else if s.calls[action.id].started >= ref.lastResp {
      TimeoutIsNoted(s.cfg, ref, h, s.calls[action.id].started, s.now);
    }
  }

  lemma ActionIsNoted<R>(s: Pool<R>, action: Action<R>, r: R, h: History)
    requires Pending(s) && Possible(s, action) && r in Perform(s, action).objs
    requires r in s.objs ==> Reflects(s.cfg, s.objs[r], h, s.now)
    ensures Reflects(Perform(s, action).cfg, Perform(s, action).objs[r], Noted(h, s, action, r), s.now)
  {
    hide Possible, Perform, Reflects;
    ActionGrows(s, action);
    var t := Perform(s, action);
    if r !in s.objs {
      Created(t.cfg, t.objs[r], s.now);
    } else if Ends(s, action, r) {
      EndIsNoted(s, action, r, h);
    } else {
      ActionOnRef(s, action, r);
      if Replaces(s, action, r) {
        ReplacementIsNoted(s.cfg, s.objs[r], h, action.sc, s.now);
        assert !t.objs[r].refreshing;
        Configured(s.cfg, t.cfg, t.objs[r], Noted(h, s, action, r), s.now);
      } else {
        Untouched(s.cfg, t.cfg, s.objs[r], t.objs[r], h, s.now);
      }
    }
  }

  lemma Configured(cfg: Option<Config>, cfg': Option<Config>, ref: Ref, h: History, now: int)
    requires Reflects(cfg, ref, h, now) && (cfg.Some? ==> cfg' == cfg)
    ensures Reflects(cfg', ref, h, now)
  {
  }

  lemma {:induction false} RunReflects<R>(run: Run<R>, r: R)
    requires run.Legal() && r in run.Final().objs
    ensures Reflects(run.Final().cfg, run.Final().objs[r], Observed(run, r), run.Final().now)
    decreases |run.steps|
  {
    if |run.steps| > 0 {
      hide Reflects, Perform, Possible, Noted;
      var step := run.steps[|run.steps| - 1];
      var was := run.Front().Final();
      var s := Tick(was, step.at);
      if r in was.objs {
        RunReflects(run.Front(), r);
        Later(was.cfg, was.objs[r], Observed(run.Front(), r), was.now, step.at);
      }
      RunIsSteady(run.Front());
      StepKeepsSteady(was, step);
      ActionGrows(s, step.action);
      ActionIsNoted(s, step.action, r, Observed(run.Front(), r));
    }
  }

  // ----- the promises

  /**
   Every refresh was earned: at least UnresponsiveCalls calls had ended by their client-side deadline
   since the last response or replacement, all of them started no earlier than that, and the ref had
   been silent for more than its window, which counts the refreshes since the last response.
   */
  lemma RefreshesAreEarned<R>(run: Run<R>, r: R, i: nat)
    requires run.Legal() && r in run.Final().objs && i < |Observed(run, r).inits|
    ensures var h := Observed(run, r);
      var x := h.inits[i];
      && h.lateness <= 1 && run.Final().cfg.Some?
      && var c := run.Final().cfg.value;
      && |x.starts| >= c.unresponsiveCalls && (forall b | b in x.starts :: b >= x.since)
      && x.since >= (if i == 0 then h.base else h.inits[i - 1].at)
      && x.at > x.since + Window(c.unresponsiveMs, (h.lateness + i) % TWO_32) * MILLISECOND
  {
    hide Enabled, Apply, Noted, Reflects, Window;
    RunReflects(run, r);
    InitIsDue(run.Final().cfg, run.Final().objs[r], Observed(run, r), run.Final().now, i);
  }

  lemma InitIsDue(cfg: Option<Config>, ref: Ref, h: History, now: int, i: nat)
    requires Reflects(cfg, ref, h, now) && i < |h.inits|
    ensures h.lateness <= 1 && cfg.Some?
    ensures var x, c := h.inits[i], cfg.value;
      && |x.starts| >= c.unresponsiveCalls && (forall b | b in x.starts :: b >= x.since)
      && x.since >= (if i == 0 then h.base else h.inits[i - 1].at)
      && x.at > x.since + Window(c.unresponsiveMs, (h.lateness + i) % TWO_32) * MILLISECOND
  {
    hide Window;
    AllDue(cfg, ref, h, now);
    hide Reflects;
    assert Due(cfg.value, h, i);
  }

  lemma AllDue(cfg: Option<Config>, ref: Ref, h: History, now: int)
    requires Reflects(cfg, ref, h, now)
    ensures h.lateness <= 1
    ensures h.inits != [] ==> cfg.Some? && forall i | 0 <= i < |h.inits| :: Due(cfg.value, h, i)
  {
  }

  lemma Distributes(a: nat, p: nat)
    ensures a * (2 * p - 1) == a * (p - 1) + a * p
  {
  }

  lemma Associates(a: nat, b: nat, c: nat)
    ensures a * (b * c) == a * b * c
  {
  }

  lemma Doubled(ms: nat, k: nat, late: nat)
    ensures ms * Pow2(late) * (Pow2(k + 1) - 1) == ms * Pow2(late) * (Pow2(k) - 1) + ms * Pow2(late + k)
  {
    Pow2Sum(late, k);
    assert Pow2(k + 1) == 2 * Pow2(k);
    hide Pow2;
    Distributes(ms * Pow2(late), Pow2(k));
    Associates(ms, Pow2(late), Pow2(k));
  }

  lemma {:induction false} Pow2Sum(m: nat, n: nat)
    ensures Pow2(m + n) == Pow2(m) * Pow2(n)
    decreases n
  {
    if n > 0 {
      Pow2Sum(m, n - 1);
      assert Pow2(m + n) == 2 * Pow2(m + n - 1);
    }
  }

  lemma {:induction false} WindowsAddUp(c: Config, h: History, n: nat)
    requires 0 < n <= |h.inits| && c.unresponsiveMs > 0
    requires forall i | 0 <= i < n :: Due(c, h, i)
    requires c.unresponsiveMs * Pow2(h.lateness + n - 1) < TWO_32
    ensures h.inits[n - 1].at - h.base > c.unresponsiveMs * Pow2(h.lateness) * (Pow2(n) - 1) * MILLISECOND
    decreases n
  {
    var ms, late := c.unresponsiveMs, h.lateness;
    var e := late + n - 1;
    ExponentIsSmall(ms, e);
    WindowDoublesIff(ms, e);
    assert Due(c, h, n - 1);
    Doubled(ms, n - 1, late);
    if n == 1 {
      assert Pow2(0) == 1;
      Vanishes(ms * Pow2(late));
    } else {
      HalfFits(ms, e);
      hide Pow2, Window, Due;
      WindowsAddUp(c, h, n - 1);
    }
  }

  lemma Vanishes(a: nat)
    ensures a * (1 - 1) == 0
  {
  }

  lemma HalfFits(ms: nat, e: nat)
    requires e > 0 && ms * Pow2(e) < TWO_32
    ensures ms * Pow2(e - 1) < TWO_32
  {
    var p := Pow2(e - 1);
    assert ms * Pow2(e) == 2 * (ms * p) by { Associates(ms, 2, p); }
  }

  lemma ExponentIsSmall(ms: uint32, e: nat)
    requires ms > 0 && ms * Pow2(e) < TWO_32
    ensures e < 32
  {
    if e >= 32 {
      Pow2At32();
      Pow2Grows(32, e);
      Scales(ms, Pow2(e));
    }
  }

  /**
   Backoff: n refreshes without a response in between take more than ms * (2^n - 1) milliseconds from
   the last response, and twice that when a replacement was pending at the time; as long as the windows fit a uint32.
   */
  lemma RefreshesBackOff<R>(run: Run<R>, r: R, n: nat)
    requires run.Legal() && r in run.Final().objs && 0 < n <= |Observed(run, r).inits|
    requires run.Final().cfg.Some? && run.Final().cfg.value.unresponsiveMs > 0
    requires run.Final().cfg.value.unresponsiveMs * Pow2(Observed(run, r).lateness + n - 1) < TWO_32
    ensures var h := Observed(run, r);
      h.inits[n - 1].at - h.base >
        run.Final().cfg.value.unresponsiveMs * Pow2(h.lateness) * (Pow2(n) - 1) * MILLISECOND
  {
    hide Perform, Possible, Noted, Enabled, Apply;
    RunReflects(run, r);
    AllDue(run.Final().cfg, run.Final().objs[r], Observed(run, r), run.Final().now);
    hide Reflects, Due;
    WindowsAddUp(run.Final().cfg.value, Observed(run, r), n);
  }

  // ----- a refresh that is earned happens

  /** The state before the last step of a run, as the step finds it, and the history so far. */
  lemma LastIsNoted<R>(run: Run<R>, r: R)
    requires run.Legal() && |run.steps| > 0 && r in run.Front().Final().objs
    ensures var step, was, h := run.steps[|run.steps| - 1], run.Front().Final(), Observed(run.Front(), r);
      var s := Tick(was, step.at);
      && Possible(s, step.action) && run.Final() == Perform(s, step.action)
      && Observed(run, r) == Noted(h, s, step.action, r)
      && Reflects(s.cfg, s.objs[r], h, s.now)
  {
    hide Reflects, Noted, Perform, Possible;
    RunReflects(run.Front(), r);
    var was := run.Front().Final();
    Later(was.cfg, was.objs[r], Observed(run.Front(), r), was.now, run.steps[|run.steps| - 1].at);
  }

  /** Enough calls have timed out, and the ref has been silent for more than its window. */
  predicate Earned(c: Config, h: History, starts: seq<int>, at: int) {
    && |starts| % TWO_32 >= c.unresponsiveCalls
    && at > h.since + Window(c.unresponsiveMs, (h.lateness + h.completed) % TWO_32) * MILLISECOND
  }

  lemma EarnedIs(c: Config, h: History, starts: seq<int>, at: int)
    requires c.unresponsiveMs > 0
    requires |starts| < TWO_32 && c.unresponsiveMs * Pow2(h.lateness + h.completed) < TWO_32
    ensures Earned(c, h, starts, at) <==>
      && |starts| >= c.unresponsiveCalls
      && at > h.since + c.unresponsiveMs * Pow2(h.lateness + h.completed) * MILLISECOND
  {
    ExponentIsSmall(c.unresponsiveMs, h.lateness + h.completed);
    WindowDoublesIff(c.unresponsiveMs, h.lateness + h.completed);
    hide Pow2, Window;
  }

  /** What the end of a call that timed out adds to the history. */
  lemma TimeoutRefreshes<R>(s: Pool<R>, id: nat, ok: bool, r: R, h: History)
    requires Possible(s, DoClose(id, true, ok)) && s.calls[id].ref == r && s.cfg.value.Detects()
    requires !s.objs[r].refreshing && s.calls[id].started >= h.since && Reflects(s.cfg, s.objs[r], h, s.now)
    ensures var starts, t := h.starts + [s.calls[id].started], Perform(s, DoClose(id, true, ok));
      && |h.inits| == h.completed && r in t.objs && t.cfg == s.cfg
      && (t.objs[r].refreshing <==> Earned(s.cfg.value, h, starts, s.now))
      && Noted(h, s, DoClose(id, true, ok), r)
         == h.(starts := starts, inits := h.inits + if t.objs[r].refreshing then [Init(s.now, h.since, starts)] else [])
  {
    NextModulo(|h.starts|);
    hide DetectUnresponsive, Close, Window;
    CloseOnRefs(s, id, true, ok);
  }

  /**
   The converse of RefreshesAreEarned: when a call on a ref that is not being refreshed ends by its client-side
   deadline, having started no earlier than the last response or replacement, the ref is refreshed exactly if enough
   calls have timed out since then and it has been silent for more than its window, whatever refreshes there were
   before.
   */
  lemma EarnedRefreshHappens<R>(run: Run<R>, id: nat, ok: bool, r: R)
    requires run.Legal() && |run.steps| > 0 && run.steps[|run.steps| - 1].action == DoClose(id, true, ok)
    requires var s := run.Front().Final();
      && id in s.calls && s.calls[id].ref == r && r in s.objs && !s.objs[r].refreshing
      && s.calls[id].started >= Observed(run.Front(), r).since && s.cfg.Some? && s.cfg.value.Detects()
    ensures var s, t, h := run.Front().Final(), run.Final(), Observed(run.Front(), r);
      var c, starts, at := s.cfg.value, h.starts + [s.calls[id].started], run.steps[|run.steps| - 1].at;
      && r in t.objs && |h.inits| == h.completed
      && Observed(run, r)
         == h.(starts := starts, inits := h.inits + if t.objs[r].refreshing then [Init(at, h.since, starts)] else [])
      && (t.objs[r].refreshing <==> Earned(c, h, starts, at))
      && (|starts| < TWO_32 && c.unresponsiveMs * Pow2(h.lateness + h.completed) < TWO_32 ==>
            (t.objs[r].refreshing <==>
               && |starts| >= c.unresponsiveCalls
               && at > h.since + c.unresponsiveMs * Pow2(h.lateness + h.completed) * MILLISECOND))
  {
    hide Reflects, Noted, Perform, Earned, Pow2, Enabled, Apply, Observed;
    var s, h, at := run.Front().Final(), Observed(run.Front(), r), run.steps[|run.steps| - 1].at;
    var c, starts := s.cfg.value, h.starts + [s.calls[id].started];
    LastIsNoted(run, r);
    TimeoutRefreshes(Tick(s, at), id, ok, r, h);
    if |starts| < TWO_32 && c.unresponsiveMs * Pow2(h.lateness + h.completed) < TWO_32 {
      EarnedIs(c, h, starts, at);
    }
  }
}
