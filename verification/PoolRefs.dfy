/** What one step can do to one subConnRef. */
module PoolRefs {
  import opened Options
  import opened PoolSpec

  /** The fields that unresponsive detection works on. */
  predicate SameRecord(a: Ref, b: Ref) {
    && a.subConn == b.subConn && a.lastResp == b.lastResp && a.deCalls == b.deCalls
    && a.refreshing == b.refreshing && a.refreshCnt == b.refreshCnt
  }

  predicate FreshRef(a: Ref, now: int) {
    && a.lastResp == now && a.deCalls == 0 && !a.refreshing && a.refreshCnt == 0
    && a.affinityCnt == 0 && a.streamsCnt == 0
  }

  /** A replacement that is ready takes over r. */
  predicate Replaces<R(==)>(s: Pool<R>, action: Action<R>, r: R) {
    && action.DoStateChange? && action.st == Ready
    && action.sc in s.refreshingScRefs && s.refreshingScRefs[action.sc] == r
  }

  /** A call on r is over. */
  predicate Ends<R(==)>(s: Pool<R>, action: Action<R>, r: R) {
    action.DoClose? && action.id in s.calls && s.calls[action.id].ref == r
  }

  /** The clock stands still during a step, refs are never forgotten, and the configuration is set once. */
  ghost predicate Grows<R>(s: Pool<R>, t: Pool<R>) {
    && t.now == s.now && s.objs.Keys <= t.objs.Keys && (s.cfg.Some? ==> t.cfg == s.cfg)
    && (forall r | r in t.objs && r !in s.objs :: FreshRef(t.objs[r], t.now))
  }

  lemma {:induction false} AddAllGrows<R>(s: Pool<R>, news: seq<R>)
    requires Distinct(news) && forall r | r in news :: r !in s.objs
    ensures Grows(s, AddAll(s, news))
    ensures forall r | r in AddAll(s, news).objs :: r in s.objs || r in news
    ensures forall r | r in s.objs :: AddAll(s, news).objs[r] == s.objs[r]
    decreases |news|
  {
    if |news| > 0 {
      var n := |news| - 1;
      AddAllGrows(s, news[..n]);
      assert news[n] !in news[..n];
    }
  }

  lemma TransitionOnRefs<R>(s: Pool<R>, sc: SubConn, st: ConnState, order: seq<R>)
    requires sc in s.scStates
    ensures var t := Transition(s, sc, st, order);
      && t.now == s.now && t.cfg == s.cfg && t.calls == s.calls && t.owner == s.owner
      && t.affinityMap == s.affinityMap && t.objs == s.objs
  {
    hide UpdatedFallback, Recorded, Evaluated, MustPublish;
  }

  lemma ReplaceOnRefs<R>(s: Pool<R>, sc: SubConn)
    requires sc in s.refreshingScRefs && s.refreshingScRefs[sc] in s.objs
    ensures var t := Replace(s, sc);
      var r := s.refreshingScRefs[sc];
      && t.now == s.now && t.cfg == s.cfg && t.calls == s.calls && t.owner == s.owner && t.affinityMap == s.affinityMap
      && t.objs == s.objs[r := Replaced(s.objs[r], sc, s.now)]
      && (s.objs[r].subConn != sc ==> sc in t.scStates)
  {
    hide Replaced;
  }

  lemma ChangeOnRefs<R>(s: Pool<R>, sc: SubConn, st: ConnState, order: seq<R>)
    requires CanChange(s, sc, st, order)
    ensures sc in s.refreshingScRefs ==> s.refreshingScRefs[sc] in s.objs
    ensures var t := UpdateSubConnState(s, sc, st, order);
      && t.now == s.now && t.cfg == s.cfg && t.calls == s.calls && t.owner == s.owner && t.affinityMap == s.affinityMap
      && t.objs ==
         if sc in s.refreshingScRefs && st == Ready
         then s.objs[s.refreshingScRefs[sc] := Replaced(s.objs[s.refreshingScRefs[sc]], sc, s.now)]
         else s.objs
  {
    hide Lists, Transition, Replace, Replaced;
    if sc in s.refreshingScRefs && st == Ready {
      ReplaceOnRefs(s, sc);
      TransitionOnRefs(Replace(s, sc), sc, st, order);
    } else if sc !in s.refreshingScRefs && sc in s.scStates {
      TransitionOnRefs(s, sc, st, order);
    }
  }

  /** What the end of a call tells about the ref. */
  function Heard(c: Config, ref: Ref, started: int, timedOut: bool, now: int): Ref {
    if !c.Detects() || (timedOut && started < ref.lastResp) then ref
    else if timedOut then CountedTimeout(ref)
    else GotResp(ref, now)
  }

  ghost function AfterCall<R>(s: Pool<R>, id: nat, timedOut: bool): Ref
    requires s.cfg.Some? && id in s.calls && s.calls[id].ref in s.objs
  {
    var ref := s.objs[s.calls[id].ref];
    Heard(s.cfg.value, ref.(streamsCnt := ref.streamsCnt - 1), s.calls[id].started, timedOut, s.now)
  }

  lemma RefreshOnRefs<R>(s: Pool<R>, r: R, ok: bool)
    requires r in s.objs
    ensures var t := Refresh(s, r, ok);
      && t.now == s.now && t.cfg == s.cfg && t.calls == s.calls && t.affinityMap == s.affinityMap
      && t.objs.Keys == s.objs.Keys && (forall q | q in s.objs && q != r :: t.objs[q] == s.objs[q])
      && t.objs[r] == s.objs[r].(refreshing := true, latest := t.objs[r].latest)
  {
  }

  lemma DetectOnRefs<R>(s: Pool<R>, r: R, started: int, timedOut: bool, ok: bool)
    requires r in s.objs && s.cfg.Some?
    ensures var t := DetectUnresponsive(s, r, started, timedOut, ok);
      var ref := Heard(s.cfg.value, s.objs[r], started, timedOut, s.now);
      && t.now == s.now && t.cfg == s.cfg && t.calls == s.calls && t.affinityMap == s.affinityMap
      && t.objs.Keys == s.objs.Keys && (forall q | q in s.objs && q != r :: t.objs[q] == s.objs[q])
      && t.objs[r] == ref.(refreshing := t.objs[r].refreshing, latest := t.objs[r].latest)
      && (t.objs[r].refreshing <==>
            ref.refreshing || (s.cfg.value.Detects() && timedOut && started >= s.objs[r].lastResp
                               && Unresponsive(s.cfg.value, ref, s.now)))
  {
    hide Unresponsive, Refresh, GotResp, CountedTimeout;
    var ref := Heard(s.cfg.value, s.objs[r], started, timedOut, s.now);
    RefreshOnRefs(s.(objs := s.objs[r := ref]), r, ok);
  }

  lemma CloseOnRefs<R>(s: Pool<R>, id: nat, timedOut: bool, ok: bool)
    requires s.cfg.Some? && id in s.calls && s.calls[id].ref in s.objs
    ensures var t := DetectUnresponsive(Close(s, id), s.calls[id].ref, s.calls[id].started, timedOut, ok);
      var r := s.calls[id].ref;
      var ref := AfterCall(s, id, timedOut);
      && t.now == s.now && t.cfg == s.cfg && t.calls == s.calls - {id} && t.affinityMap == s.affinityMap
      && t.objs.Keys == s.objs.Keys && (forall q | q in s.objs && q != r :: t.objs[q] == s.objs[q])
      && t.objs[r] == ref.(refreshing := t.objs[r].refreshing, latest := t.objs[r].latest)
      && (t.objs[r].refreshing <==>
            ref.refreshing || (s.cfg.value.Detects() && timedOut && s.calls[id].started >= s.objs[r].lastResp
                               && Unresponsive(s.cfg.value, ref, s.now)))
  {
    hide Unresponsive, Heard, DetectUnresponsive;
    DetectOnRefs(Close(s, id), s.calls[id].ref, s.calls[id].started, timedOut, ok);
  }

  lemma NewSubConnGrows<R>(s: Pool<R>, r: R, ok: bool)
    requires r !in s.objs
    ensures Grows(s, NewSubConn(s, r, ok))
  {
    hide SomePending;
  }

  /** Picks, affinity commands and counters change no ref but for its counts. */
  lemma PlainActionOnRefs<R>(s: Pool<R>, action: Action<R>)
    requires Possible(s, action)
    requires action.DoAdmit? || action.DoLookup? || action.DoTicket? || action.DoOpen? || action.DoBind?
      || action.DoUnbind?
    ensures var t := Perform(s, action);
      && t.now == s.now && t.cfg == s.cfg && t.objs.Keys == s.objs.Keys
      && forall r | r in s.objs :: SameRecord(s.objs[r], t.objs[r])
  {
    hide LeastBusy, GetReadySubConnRef, KnownPicker;
  }

  lemma ActionGrows<R>(s: Pool<R>, action: Action<R>)
    requires Possible(s, action)
    ensures Grows(s, Perform(s, action))
  {
    hide NewSubConn, Configure, DetectUnresponsive, UpdateSubConnState, LeastBusy, GetReadySubConnRef, KnownPicker,
      Lists, Distinct, WithDefaults, AddAll, SomePending, Open, Bind, Unbind, AfterLookup, Close, CanChange, Replaced,
      AfterCall, Unresponsive;
    match action {
      case DoConfigure(c, news) => ConfigureGrows(s, c, news);
      case DoGrowFirst(r, ok) => NewSubConnGrows(s, r, ok);
      case DoGrow(id, r, ok) => NewSubConnGrows(s.(admitted := s.admitted - {id}), r, ok);
      case DoStateChange(sc, st, order) => ChangeOnRefs(s, sc, st, order);
      case DoClose(id, timedOut, ok) => CloseOnRefs(s, id, timedOut, ok);
      case _ => PlainActionOnRefs(s, action);
    }
  }

  lemma ConfigureGrows<R>(s: Pool<R>, c: Config, news: seq<R>)
    requires s.cfg.None? && Distinct(news) && forall r | r in news :: r !in s.objs
    ensures Grows(s, Configure(s, c, news))
  {
    hide AddAll, WithDefaults, Distinct;
    AddAllGrows(s.(cfg := Some(WithDefaults(c))), news);
  }

  lemma NewSubConnOnRef<R>(s: Pool<R>, q: R, ok: bool, r: R)
    requires q !in s.objs && r in s.objs
    ensures r in NewSubConn(s, q, ok).objs && NewSubConn(s, q, ok).objs[r] == s.objs[r]
  {
    hide SomePending;
  }

  lemma ActionOnRef<R>(s: Pool<R>, action: Action<R>, r: R)
    requires Possible(s, action) && r in s.objs
    requires !Ends(s, action, r)
    ensures r in Perform(s, action).objs
    ensures
      if Replaces(s, action, r) then Perform(s, action).objs[r] == Replaced(s.objs[r], action.sc, s.now)
      else SameRecord(s.objs[r], Perform(s, action).objs[r])
  {
    hide NewSubConn, DetectUnresponsive, UpdateSubConnState, LeastBusy, GetReadySubConnRef, KnownPicker, Lists,
      Distinct, WithDefaults, AddAll, SomePending, Open, Bind, Unbind, AfterLookup, Close, CanChange, Replaced,
      AfterCall, Unresponsive;
    match action {
      case DoConfigure(c, news) => AddAllGrows(s.(cfg := Some(WithDefaults(c))), news);
      case DoGrowFirst(q, ok) => NewSubConnOnRef(s, q, ok, r);
      case DoGrow(id, q, ok) => NewSubConnOnRef(s.(admitted := s.admitted - {id}), q, ok, r);
      case DoStateChange(sc, st, order) => ChangeOnRefs(s, sc, st, order);
      case DoClose(id, timedOut, ok) => CloseOnRefs(s, id, timedOut, ok);
      case _ => PlainActionOnRefs(s, action);
    }
  }
}
