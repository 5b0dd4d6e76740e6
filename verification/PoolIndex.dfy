/** The maps, lists and counters of the balancer agree in every reachable state. */
module PoolIndex {
  import opened Options
  import opened PoolSpec

  // ----- the indexes

  ghost predicate Live<R>(s: Pool<R>) {
    && s.scRefs.Keys == s.scStates.Keys
    && (forall sc | sc in s.scStates :: s.scStates[sc] != Shutdown)
    && (forall sc | sc in s.scRefs :: s.scRefs[sc] in s.objs && s.objs[s.scRefs[sc]].subConn == sc)
  }

  /** Every ref owns its handles; no handle is ever handed out twice. */
  ghost predicate Handles<R>(s: Pool<R>) {
    && (forall r | r in s.objs ::
          && s.objs[r].subConn <= s.objs[r].latest
          && s.objs[r].subConn in s.owner && s.owner[s.objs[r].subConn] == r)
    && (forall sc | sc in s.owner :: sc < s.issued)
  }

  /** A pending replacement is the latest handle of the ref that is refreshing, and newer than the one in use. */
  ghost predicate Pending<R>(s: Pool<R>) {
    forall sc | sc in s.refreshingScRefs ::
      var r := s.refreshingScRefs[sc];
      && sc in s.owner && s.owner[sc] == r
      && r in s.objs && s.objs[r].refreshing
      && s.objs[r].subConn < sc == s.objs[r].latest
  }

  ghost predicate Listed<R>(s: Pool<R>) {
    && Distinct(s.scRefList)
    && (set r | r in s.scRefList) == s.objs.Keys
  }

  ghost predicate Indexed<R>(s: Pool<R>) {
    Live(s) && Handles(s) && Pending(s) && Listed(s)
  }

  /** Nothing the indexes mention has changed; counters and times in the refs may have. */
  ghost predicate SameIndex<R>(s: Pool<R>, t: Pool<R>) {
    && t.scRefs == s.scRefs && t.scStates == s.scStates && t.scRefList == s.scRefList
    && t.refreshingScRefs == s.refreshingScRefs && t.issued == s.issued && t.owner == s.owner
    && t.objs.Keys == s.objs.Keys
    && forall r | r in s.objs ::
         t.objs[r].subConn == s.objs[r].subConn && t.objs[r].latest == s.objs[r].latest
         && t.objs[r].refreshing == s.objs[r].refreshing
  }

  lemma SameIndexKeeps<R>(s: Pool<R>, t: Pool<R>)
    requires Indexed(s) && SameIndex(s, t)
    ensures Indexed(t)
  {
    assert Live(t) by { hide Handles, Pending, Listed; }
    assert Handles(t) by { hide Live, Pending, Listed; }
    assert Pending(t) by { hide Live, Handles, Listed; }
    assert Listed(t) by { hide Live, Handles, Pending; }
  }

  lemma AddKeepsLive<R>(s: Pool<R>, r: R)
    requires Live(s) && Handles(s) && r !in s.objs
    ensures Live(AddSubConn(s, r))
  {
  }

  lemma AddKeepsHandles<R>(s: Pool<R>, r: R)
    requires Handles(s) && r !in s.objs
    ensures Handles(AddSubConn(s, r))
  {
  }

  lemma AddKeepsPending<R>(s: Pool<R>, r: R)
    requires Pending(s) && Handles(s) && r !in s.objs
    ensures Pending(AddSubConn(s, r))
  {
  }

  lemma AddKeepsListed<R>(s: Pool<R>, r: R)
    requires Listed(s) && r !in s.objs
    ensures Listed(AddSubConn(s, r))
  {
  }

  lemma AddKeepsIndex<R>(s: Pool<R>, r: R)
    requires Indexed(s) && r !in s.objs
    ensures Indexed(AddSubConn(s, r))
  {
    hide Live, Handles, Pending, Listed;
    AddKeepsLive(s, r);
    AddKeepsHandles(s, r);
    AddKeepsPending(s, r);
    AddKeepsListed(s, r);
  }

  lemma ReplaceKeepsLive<R>(s: Pool<R>, sc: SubConn)
    requires Live(s) && Handles(s) && Pending(s) && sc in s.refreshingScRefs
    ensures Live(Replace(s, sc)) && sc in Replace(s, sc).scStates && Replace(s, sc).scRefs[sc] == s.refreshingScRefs[sc]
  {
    var r := s.refreshingScRefs[sc];
    assert s.objs[r].subConn != sc;
    assert forall c | c in s.scRefs && c != s.objs[r].subConn :: s.scRefs[c] != r;
  }

  lemma ReplaceKeepsHandles<R>(s: Pool<R>, sc: SubConn)
    requires Handles(s) && Pending(s) && sc in s.refreshingScRefs
    ensures Handles(Replace(s, sc))
  {
  }

  lemma ReplaceKeepsPending<R>(s: Pool<R>, sc: SubConn)
    requires Handles(s) && Pending(s) && sc in s.refreshingScRefs
    ensures Pending(Replace(s, sc)) && sc !in Replace(s, sc).refreshingScRefs
  {
  }

  lemma ReplaceKeepsListed<R>(s: Pool<R>, sc: SubConn)
    requires Listed(s) && sc in s.refreshingScRefs && s.refreshingScRefs[sc] in s.objs
    ensures Listed(Replace(s, sc))
  {
  }

  lemma ReplaceKeepsIndex<R>(s: Pool<R>, sc: SubConn)
    requires Indexed(s) && sc in s.refreshingScRefs && s.refreshingScRefs[sc] in s.objs
    ensures Indexed(Replace(s, sc)) && sc in Replace(s, sc).scStates && sc !in Replace(s, sc).refreshingScRefs
    ensures Replace(s, sc).scRefs[sc] == s.refreshingScRefs[sc]
  {
    hide Live, Handles, Pending, Listed, Replace;
    ReplaceKeepsLive(s, sc);
    ReplaceKeepsHandles(s, sc);
    ReplaceKeepsPending(s, sc);
    ReplaceKeepsListed(s, sc);
  }

  lemma EnterKeepsIndex<R>(s: Pool<R>, sc: SubConn, st: ConnState)
    requires Indexed(s) && sc in s.scStates
    ensures Indexed(Entered(s, sc, st))
  {
    var t := Entered(s, sc, st);
    assert Live(t) by { hide Handles, Pending, Listed; }
    assert Handles(t) && Pending(t) && Listed(t) by { hide Live; }
  }

  lemma RefreshKeepsLive<R>(s: Pool<R>, r: R, ok: bool)
    requires Live(s) && r in s.objs
    ensures Live(Refresh(s, r, ok))
  {
  }

  lemma RefreshKeepsHandles<R>(s: Pool<R>, r: R, ok: bool)
    requires Handles(s) && r in s.objs
    ensures Handles(Refresh(s, r, ok))
  {
  }

  lemma RefreshKeepsPending<R>(s: Pool<R>, r: R, ok: bool)
    requires Pending(s) && Handles(s) && r in s.objs
    ensures Pending(Refresh(s, r, ok))
  {
  }

  lemma RefreshKeepsListed<R>(s: Pool<R>, r: R, ok: bool)
    requires Listed(s) && r in s.objs
    ensures Listed(Refresh(s, r, ok))
  {
  }

  lemma RefreshKeepsIndex<R>(s: Pool<R>, r: R, ok: bool)
    requires Indexed(s) && r in s.objs
    ensures Indexed(Refresh(s, r, ok))
  {
    hide Live, Handles, Pending, Listed;
    RefreshKeepsLive(s, r, ok);
    RefreshKeepsHandles(s, r, ok);
    RefreshKeepsPending(s, r, ok);
    RefreshKeepsListed(s, r, ok);
  }

  lemma {:induction false} AddAllKeepsIndex<R>(s: Pool<R>, news: seq<R>)
    requires Indexed(s) && Distinct(news) && forall r | r in news :: r !in s.objs
    ensures Indexed(AddAll(s, news))
    ensures forall r | r in AddAll(s, news).objs :: r in s.objs || r in news
    ensures AddAll(s, news).issued == s.issued + |news|
    decreases |news|
  {
    if |news| > 0 {
      var n := |news| - 1;
      AddAllKeepsIndex(s, news[..n]);
      AddKeepsIndex(AddAll(s, news[..n]), news[n]);
    }
  }

  lemma NewSubConnKeepsIndex<R>(s: Pool<R>, r: R, ok: bool)
    requires Indexed(s) && r !in s.objs
    ensures Indexed(NewSubConn(s, r, ok))
  {
    hide Indexed, AddSubConn, SomePending;
    AddKeepsIndex(s, r);
  }

  lemma ChangeKeepsIndex<R>(s: Pool<R>, sc: SubConn, st: ConnState, order: seq<R>)
    requires Indexed(s)
    requires sc in s.refreshingScRefs ==>
               s.refreshingScRefs[sc] in s.objs && s.objs[s.refreshingScRefs[sc]].subConn != sc
    ensures Indexed(UpdateSubConnState(s, sc, st, order))
  {
    hide Live, Handles, Pending, Listed, Replace, Entered;
    if sc in s.refreshingScRefs && st == Ready {
      ReplaceKeepsIndex(s, sc);
      EnterKeepsIndex(Replace(s, sc), sc, st);
      PublishKeepsIndex(Entered(Replace(s, sc), sc, st), order);
    } else if sc !in s.refreshingScRefs && sc in s.scStates {
      EnterKeepsIndex(s, sc, st);
      PublishKeepsIndex(Entered(s, sc, st), order);
    }
  }

  lemma PublishKeepsIndex<R>(s: Pool<R>, order: seq<R>)
    requires Indexed(s)
    ensures Indexed(Regenerated(s, order))
  {
  }

  /** detectUnresponsive changes one ref's response record, and may then start a refresh. */
  lemma DetectShape<R>(s: Pool<R>, r: R, started: int, timedOut: bool, ok: bool) returns (ref: Ref, refreshes: bool)
    requires r in s.objs && s.cfg.Some?
    ensures ref in {s.objs[r], GotResp(s.objs[r], s.now), CountedTimeout(s.objs[r])}
    ensures var m := s.(objs := s.objs[r := ref]);
      DetectUnresponsive(s, r, started, timedOut, ok) == if refreshes then Refresh(m, r, ok) else m
    ensures refreshes ==>
      && s.cfg.value.Detects() && timedOut && started >= s.objs[r].lastResp
      && ref == CountedTimeout(s.objs[r]) && Unresponsive(s.cfg.value, ref, s.now)
  {
    hide Unresponsive, Refresh;
    var was := s.objs[r];
    refreshes := false;
    if !s.cfg.value.Detects() {
      ref := was;
      assert s == s.(objs := s.objs[r := was]);
    } else if !timedOut {
      ref := GotResp(was, s.now);
    } else if started < was.lastResp {
      ref := was;
      assert s == s.(objs := s.objs[r := was]);
    } else {
      ref := CountedTimeout(was);
      refreshes := Unresponsive(s.cfg.value, ref, s.now);
    }
  }

  lemma CloseKeepsIndex<R>(s: Pool<R>, id: nat, timedOut: bool, ok: bool)
    requires Indexed(s) && s.cfg.Some? && id in s.calls && s.calls[id].ref in s.objs
    ensures Indexed(DetectUnresponsive(Close(s, id), s.calls[id].ref, s.calls[id].started, timedOut, ok))
  {
    hide Indexed, DetectUnresponsive, Refresh, Unresponsive;
    var r := s.calls[id].ref;
    var ref, refreshes := DetectShape(Close(s, id), r, s.calls[id].started, timedOut, ok);
    var m := Close(s, id).(objs := Close(s, id).objs[r := ref]);
    SameIndexKeeps(s, m);
    if refreshes {
      RefreshKeepsIndex(m, r, ok);
    }
  }

  lemma OpenKeepsIndex<R>(s: Pool<R>, id: nat, r: R)
    requires Indexed(s) && r in s.objs
    ensures Indexed(Open(s, id, r))
  {
    hide Indexed;
    SameIndexKeeps(s, Open(s, id, r));
  }

  lemma BindKeepsIndex<R>(s: Pool<R>, key: string, sc: SubConn)
    requires Indexed(s) && Bind(s, key, sc).Done?
    ensures Indexed(Bind(s, key, sc).pool)
  {
    hide Indexed;
    SameIndexKeeps(s, Bind(s, key, sc).pool);
  }

  lemma UnbindKeepsIndex<R>(s: Pool<R>, key: string)
    requires Indexed(s) && Unbind(s, key).Done?
    ensures Indexed(Unbind(s, key).pool)
  {
    hide Indexed;
    SameIndexKeeps(s, Unbind(s, key).pool);
  }

  lemma LookupKeepsIndex<R>(s: Pool<R>, key: string)
    requires Indexed(s) && s.cfg.Some? && KnownPicker(s)
    ensures Indexed(AfterLookup(s, key))
  {
    hide Indexed, GetReadySubConnRef;
    SameIndexKeeps(s, AfterLookup(s, key));
  }

  lemma ConfigureKeepsIndex<R>(s: Pool<R>, c: Config, news: seq<R>)
    requires Indexed(s) && Distinct(news) && forall r | r in news :: r !in s.objs
    ensures Indexed(Configure(s, c, news))
  {
    hide Indexed, AddAll, Distinct;
    SameIndexKeeps(s, s.(cfg := Some(WithDefaults(c))));
    AddAllKeepsIndex(s.(cfg := Some(WithDefaults(c))), news);
  }

  /** Fields on which the indexes do not depend at all. */
  lemma SideFieldsKeepIndex<R>(s: Pool<R>, at: int, ticket: uint32, admitted: set<nat>)
    requires Indexed(s)
    ensures Indexed(s.(now := at)) && Indexed(s.(rrRefId := ticket)) && Indexed(s.(admitted := admitted))
  {
    hide Indexed;
    SameIndexKeeps(s, s.(now := at));
    SameIndexKeeps(s, s.(rrRefId := ticket));
    SameIndexKeeps(s, s.(admitted := admitted));
  }

  lemma ActionKeepsIndex<R>(s: Pool<R>, action: Action<R>)
    requires Indexed(s) && Possible(s, action)
    ensures Indexed(Perform(s, action))
  {
    hide Indexed, UpdateSubConnState, DetectUnresponsive, NewSubConn, Configure, LeastBusy, GetReadySubConnRef, Lists,
      Open, Close, Bind, Unbind, AfterLookup, Distinct, WithDefaults, KnownPicker;
    match action {
      case DoConfigure(c, news) => ConfigureKeepsIndex(s, c, news);
      case DoGrowFirst(r, ok) => NewSubConnKeepsIndex(s, r, ok);
      case DoStateChange(sc, st, order) => ChangeKeepsIndex(s, sc, st, order);
      case DoAdmit(id, _) => SideFieldsKeepIndex(s, 0, 0, s.admitted + {id});
      case DoGrow(id, r, ok) =>
        SideFieldsKeepIndex(s, 0, 0, s.admitted - {id});
        NewSubConnKeepsIndex(s.(admitted := s.admitted - {id}), r, ok);
      case DoLookup(key) => LookupKeepsIndex(s, key);
      case DoTicket => SideFieldsKeepIndex(s, 0, (s.rrRefId + 1) % TWO_32, {});
      case DoOpen(id, ref) => OpenKeepsIndex(s, id, ref);
      case DoClose(id, timedOut, ok) => CloseKeepsIndex(s, id, timedOut, ok);
      case DoBind(key, sc) => BindKeepsIndex(s, key, sc);
      case DoUnbind(key) => UnbindKeepsIndex(s, key);
    }
  }
}
