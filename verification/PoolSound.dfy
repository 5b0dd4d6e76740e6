/** The shape the balancer relies on between calls, and that each of them keeps. */
module PoolSound {
  import opened Options
  import opened PoolSpec
  import opened PoolIndex

  ghost predicate Sound<R>(s: Pool<R>) {
    Indexed(s) && KnownPicker(s) && forall id | id in s.calls :: s.calls[id].ref in s.objs
  }

  lemma SameIndexStaysSound<R>(s: Pool<R>, t: Pool<R>)
    requires Sound(s) && SameIndex(s, t) && t.picker == s.picker && t.calls == s.calls
    ensures Sound(t)
  {
    hide Indexed;
    SameIndexKeeps(s, t);
  }

  lemma ConfigStaysSound<R>(s: Pool<R>, c: Config)
    requires Sound(s)
    ensures Sound(s.(cfg := Some(c)))
  {
    hide Indexed;
    SameIndexStaysSound(s, s.(cfg := Some(c)));
  }

  lemma TickStaysSound<R>(s: Pool<R>, at: int)
    requires Sound(s)
    ensures Sound(Tick(s, at))
  {
    hide Indexed;
    SameIndexStaysSound(s, Tick(s, at));
  }

  lemma TicketStaysSound<R>(s: Pool<R>)
    requires Sound(s)
    ensures Sound(NextTicket(s))
  {
    hide Indexed;
    SameIndexStaysSound(s, NextTicket(s));
  }

  lemma FallbackStaysSound<R>(s: Pool<R>, m: map<string, SubConn>)
    requires Sound(s)
    ensures Sound(s.(fallbackMap := m))
  {
    hide Indexed;
    SameIndexStaysSound(s, s.(fallbackMap := m));
  }

  lemma CreatedIsNew<R>(s: Pool<R>)
    requires Sound(s)
    ensures s.issued !in s.scRefs
  {
  }

  lemma Added<V>(m: map<SubConn, V>, sc: SubConn, v: V)
    requires sc !in m
    ensures |m[sc := v]| == |m| + 1
  {
    assert m[sc := v].Keys == m.Keys + {sc};
    assert |m[sc := v].Keys| == |m[sc := v]| && |m.Keys| == |m|;
  }

  /** t is s after creating the given refs. */
  ghost predicate Grown<R>(s: Pool<R>, t: Pool<R>, news: seq<R>) {
    && Distinct(news) && t == AddAll(s, news)
    && forall r | r in news :: r !in s.objs && r in t.objs
  }

  lemma NothingGrown<R>(s: Pool<R>)
    ensures Grown(s, s, [])
  {
  }

  lemma GrownIs<R>(s: Pool<R>, t: Pool<R>, news: seq<R>)
    requires Grown(s, t, news)
    ensures Distinct(news) && t == AddAll(s, news) && forall r | r in news :: r !in s.objs
  {
  }

  lemma GrownByOne<R>(s: Pool<R>, t: Pool<R>, news: seq<R>, r: R)
    requires Grown(s, t, news) && s.objs.Keys <= t.objs.Keys && r !in t.objs
    ensures Grown(s, AddSubConn(t, r), news + [r])
  {
    assert (news + [r])[..|news|] == news;
  }

  lemma AddStaysSound<R>(s: Pool<R>, r: R)
    requires Sound(s) && r !in s.objs
    ensures Sound(AddSubConn(s, r))
  {
    hide Indexed;
    AddKeepsIndex(s, r);
  }

  lemma LiveIsKnown<R>(s: Pool<R>, sc: SubConn)
    requires Sound(s) && sc in s.scRefs
    ensures s.scRefs[sc] in s.objs
  {
    hide Handles, Pending, Listed;
  }

  lemma BoundStaysSound<R>(s: Pool<R>, key: string, sc: SubConn)
    requires Sound(s) && sc in s.scRefs
    ensures s.scRefs[sc] in s.objs && Sound(Bound(s, key, sc))
  {
    LiveIsKnown(s, sc);
    hide Indexed;
    SameIndexStaysSound(s, Bound(s, key, sc));
  }

  lemma UnboundStaysSound<R>(s: Pool<R>, key: string)
    requires Sound(s) && key in s.affinityMap && s.affinityMap[key] in s.scRefs
    ensures s.scRefs[s.affinityMap[key]] in s.objs && Sound(Unbound(s, key))
  {
    LiveIsKnown(s, s.affinityMap[key]);
    hide Indexed;
    SameIndexStaysSound(s, Unbound(s, key));
  }

  lemma LookupStaysSound<R>(s: Pool<R>, key: string)
    requires Sound(s) && s.cfg.Some?
    ensures KnownPicker(s) && Sound(AfterLookup(s, key))
  {
    assert KnownPicker(s) by { hide Indexed; }
    var m := AfterLookup(s, key).fallbackMap;
    FallbackStaysSound(s, m);
    hide Sound, GetReadySubConnRef, KnownPicker;
    assert AfterLookup(s, key) == s.(fallbackMap := m);
  }

  lemma PendingIsKnown<R>(s: Pool<R>, sc: SubConn)
    requires Sound(s) && sc in s.refreshingScRefs
    ensures s.refreshingScRefs[sc] in s.objs && s.objs[s.refreshingScRefs[sc]].subConn != sc
  {
    hide Live, Handles, Listed;
  }

  lemma ReplaceStaysSound<R>(s: Pool<R>, sc: SubConn)
    requires Sound(s) && sc in s.refreshingScRefs && s.refreshingScRefs[sc] in s.objs
    ensures Sound(Replace(s, sc)) && sc in Replace(s, sc).scStates
  {
    hide Indexed;
    ReplaceKeepsIndex(s, sc);
  }

  lemma EnterStaysSound<R>(s: Pool<R>, sc: SubConn, st: ConnState)
    requires Sound(s) && sc in s.scStates
    ensures Sound(Entered(s, sc, st))
  {
    hide Indexed, UpdatedFallback, Recorded, Evaluated;
    EnterKeepsIndex(s, sc, st);
  }

  /** There is an order in which a walk of the map can find the ready refs. */
  lemma ListReady<R>(s: Pool<R>) returns (order: seq<R>)
    requires Sound(s)
    ensures Lists(order, s.ReadyRefs())
  {
    order := [];
    var todo := s.scStates.Keys;
    while todo != {}
      invariant todo <= s.scStates.Keys && Gathered(s, s.scStates.Keys - todo, order)
    {
      var sc :| sc in todo;
      if s.scStates[sc] == Ready {
        GatherOne(s, s.scStates.Keys - todo, order, sc);
        order := order + [s.scRefs[sc]];
      }
      todo := todo - {sc};
      assert Gathered(s, s.scStates.Keys - todo, order);
    }
    GatheredLists(s, order);
  }

  /** order holds the ready refs of the subconns in done. */
  ghost predicate Gathered<R>(s: Pool<R>, done: set<SubConn>, order: seq<R>) {
    && Distinct(order)
    && (forall sc | sc in done && sc in s.scStates && s.scStates[sc] == Ready ::
          sc in s.scRefs && s.scRefs[sc] in order)
    && (forall r | r in order :: r in s.objs && s.objs[r].subConn in done && s.objs[r].subConn in s.scRefs
          && s.StateOf(s.objs[r].subConn) == Ready && s.scRefs[s.objs[r].subConn] == r)
  }

  lemma GatherOne<R>(s: Pool<R>, done: set<SubConn>, order: seq<R>, sc: SubConn)
    requires Sound(s) && Gathered(s, done, order) && sc !in done && sc in s.scStates && s.scStates[sc] == Ready
    ensures sc in s.scRefs && Gathered(s, done + {sc}, order + [s.scRefs[sc]])
  {
    hide Handles, Pending, Listed;
  }

  lemma GatheredLists<R>(s: Pool<R>, order: seq<R>)
    requires Gathered(s, s.scStates.Keys, order)
    ensures Lists(order, s.ReadyRefs())
  {
    assert forall r | r in order :: r in s.ReadyRefs();
    assert forall r | r in s.ReadyRefs() :: r in order;
    assert (set r | r in order) == s.ReadyRefs();
  }

  lemma RegeneratedStaysSound<R>(s: Pool<R>, order: seq<R>)
    requires Sound(s) && Lists(order, s.ReadyRefs())
    ensures Sound(Regenerated(s, order))
  {
    PublishKeepsIndex(s, order);
    hide Handles, Pending, Listed;
    forall r | r in order ensures r in s.objs {
      assert r in s.ReadyRefs();
    }
  }

  lemma RefreshStaysSound<R>(s: Pool<R>, r: R, ok: bool)
    requires Sound(s) && r in s.objs
    ensures Sound(Refresh(s, r, ok))
  {
    hide Indexed;
    RefreshKeepsIndex(s, r, ok);
  }

  /** Counters and times of a ref matter to none of this. */
  lemma RecordStaysSound<R>(s: Pool<R>, r: R, ref: Ref)
    requires Sound(s) && r in s.objs
    requires ref.subConn == s.objs[r].subConn && ref.latest == s.objs[r].latest
      && ref.refreshing == s.objs[r].refreshing
    ensures Sound(s.(objs := s.objs[r := ref]))
  {
    hide Indexed;
    SameIndexStaysSound(s, s.(objs := s.objs[r := ref]));
  }

  lemma OpenStaysSound<R>(s: Pool<R>, id: nat, r: R)
    requires Sound(s) && r in s.objs
    ensures Sound(Open(s, id, r))
  {
    hide Indexed;
    OpenKeepsIndex(s, id, r);
  }

  lemma CloseStaysSound<R>(s: Pool<R>, id: nat)
    requires Sound(s) && id in s.calls
    ensures s.calls[id].ref in s.objs && Sound(Close(s, id))
  {
    hide Indexed;
    SameIndexKeeps(s, Close(s, id));
  }

  lemma FoundIsKnown<R>(s: Pool<R>, key: string)
    requires Sound(s) && s.cfg.Some?
    ensures GetReadySubConnRef(s, key).Found? ==> GetReadySubConnRef(s, key).ref in s.objs
    ensures GetReadySubConnRef(s, key).NewFallback? ==> GetReadySubConnRef(s, key).fallback in s.objs
  {
    hide Handles, Pending, Listed, LeastIndex;
  }

  lemma ListedIsKnown<R>(s: Pool<R>)
    requires Sound(s)
    ensures forall r | r in s.scRefList :: r in s.objs
  {
    hide Handles, Pending, Live;
  }

  lemma AffinitySucceedsIff<R>(s: Pool<R>, key: string, sc: SubConn)
    requires Sound(s)
    ensures Bind(s, key, sc).Done? <==> sc in s.scRefs
    ensures Unbind(s, key).Done? <==> key !in s.affinityMap || s.affinityMap[key] in s.scRefs
  {
    hide Handles, Pending, Listed;
  }
}
