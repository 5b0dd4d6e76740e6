/** gcpBalancer, its subConnRefs and its state evaluator, updated in place as gcp_balancer.go does. */
module GcpBalancers {
  import opened Options
  import opened PoolSpec
  import opened PoolIndex
  import opened PoolPublication
  import opened PoolSound

  // ----- gcp_balancer.go:112-151

  class ConnectivityStateEvaluator {
    var numReady: uint64
    var numConnecting: uint64
    var numTransientFailure: uint64

    constructor ()
      ensures View() == Evaluator(0, 0, 0)
    {
      numReady, numConnecting, numTransientFailure := 0, 0, 0;
    }

    function View(): Evaluator
      reads this
    {
      Evaluator(numReady, numConnecting, numTransientFailure)
    }

    method Update(st: ConnState, updateVal: uint64)
      modifies this
      ensures View() == Bump(old(View()), st, updateVal)
    {
      hide Add64;
      match st {
        case Ready => numReady := Add64(numReady, updateVal);
        case Connecting => numConnecting := Add64(numConnecting, updateVal);
        case TransientFailure => numTransientFailure := Add64(numTransientFailure, updateVal);
        case _ =>
      }
    }

    method RecordTransition(oldState: ConnState, newState: ConnState) returns (r: ConnState)
      modifies this
      ensures View() == Recorded(old(View()), oldState, newState)
      ensures r == Evaluated(View())
    {
      hide Bump;
      var states := [oldState, newState];
      for idx := 0 to 2
        invariant idx == 0 ==> View() == old(View())
        invariant idx == 1 ==> View() == Bump(old(View()), oldState, TWO_64 - 1)
        invariant idx == 2 ==> View() == Recorded(old(View()), oldState, newState)
      {
        var updateVal := (2 * idx - 1) % TWO_64;
        Update(states[idx], updateVal);
      }
      if numReady > 0 {
        return Ready;
      }
      if numConnecting > 0 {
        return Connecting;
      }
      return TransientFailure;
    }
  }

  // ----- gcp_balancer.go:153-198

  class SubConnRef {
    var subConn: SubConn
    var affinityCnt: int
    var streamsCnt: int
    var lastResp: int
    var deCalls: uint32
    var refreshing: bool
    var refreshCnt: uint32
    ghost var latest: SubConn

    constructor (sc: SubConn, now: int)
      ensures Data() == Ref(sc, sc, 0, 0, now, 0, false, 0)
    {
      subConn, latest, lastResp := sc, sc, now;
      affinityCnt, streamsCnt, deCalls, refreshing, refreshCnt := 0, 0, 0, false, 0;
    }

    ghost function Data(): Ref
      reads this
    {
      Ref(subConn, latest, affinityCnt, streamsCnt, lastResp, deCalls, refreshing, refreshCnt)
    }

    method AffinityIncr()
      modifies this`affinityCnt
      ensures affinityCnt == old(affinityCnt) + 1
    {
      affinityCnt := affinityCnt + 1;
    }

    method AffinityDecr()
      modifies this`affinityCnt
      ensures affinityCnt == old(affinityCnt) - 1
    {
      affinityCnt := affinityCnt - 1;
    }

    method StreamsIncr()
      modifies this`streamsCnt
      ensures streamsCnt == old(streamsCnt) + 1
    {
      streamsCnt := streamsCnt + 1;
    }

    method StreamsDecr()
      modifies this`streamsCnt
      ensures streamsCnt == old(streamsCnt) - 1
    {
      streamsCnt := streamsCnt - 1;
    }

    method DeCallsInc() returns (n: uint32)
      modifies this`deCalls
      ensures n == deCalls && Data() == CountedTimeout(old(Data()))
    {
      deCalls := (deCalls + 1) % TWO_32;
      n := deCalls;
    }

    /** sc is the replacement that is asked for. */
    method SetRefreshing(ghost sc: Option<SubConn>)
      modifies this`refreshing, this`latest
      ensures Data() == old(Data()).(refreshing := true, latest := if sc.Some? then sc.value else old(latest))
    {
      refreshing := true;
      latest := if sc.Some? then sc.value else latest;
    }

    /** A fresh subconn takes over, gcp_balancer.go:479-483. */
    method Renew(sc: SubConn, now: int)
      modifies this
      ensures Data() == Replaced(old(Data()), sc, now)
    {
      subConn := sc;
      deCalls := 0;
      lastResp := now;
      refreshing := false;
      refreshCnt := (refreshCnt + 1) % TWO_32;
    }

    method GotResp(now: int)
      modifies this`lastResp, this`deCalls, this`refreshCnt
      ensures Data() == PoolSpec.GotResp(old(Data()), now)
    {
      lastResp := now;
      deCalls := 0;
      refreshCnt := 0;
    }
  }

  // ----- gcp_picker.go:190-197

  /** The scan for the least busy ref; s is the balancer's value. */
  method LeastBusyOf(refs: seq<SubConnRef>, ghost s: Pool<SubConnRef>)
    returns (minScRef: SubConnRef, minStreamsCnt: int)
    requires |refs| > 0 && forall r | r in refs :: r in s.objs && r.streamsCnt == s.objs[r].streamsCnt
    ensures minScRef == refs[LeastIndex(Streams(s, refs))]
    ensures minStreamsCnt == Streams(s, refs)[LeastIndex(Streams(s, refs))]
  {
    ghost var counts := Streams(s, refs);
    ghost var least := 0;
    minScRef := refs[0];
    minStreamsCnt := minScRef.streamsCnt;
    for i := 0 to |refs|
      invariant i > 0 ==> least == LeastIndex(counts[..i])
      invariant least < |refs| && minScRef == refs[least] && minStreamsCnt == counts[least]
      invariant i == 0 ==> least == 0
    {
      assert counts[..i + 1][..i] == counts[..i];
      if refs[i].streamsCnt < minStreamsCnt {
        minStreamsCnt := refs[i].streamsCnt;
        minScRef := refs[i];
        least := i;
      }
    }
    assert counts[..|refs|] == counts;
  }

  // ----- gcp_balancer.go:200-573

  datatype UpdateResult = Accepted | WrongType | StillCreating | LocksUp

  /** How many creations succeed. */
  function Successes(oks: seq<bool>): nat {
    if |oks| == 0 then 0 else Successes(oks[..|oks| - 1]) + if oks[|oks| - 1] then 1 else 0
  }

  /** Each of the first `tried` creations was needed to bring `size` subconns to min; as many as succeed are created. */
  predicate StillNeeded(oks: seq<bool>, tried: nat, created: nat, size: nat, min: nat) {
    && tried <= |oks| && created == Successes(oks[..tried])
    && (tried > 0 ==> size + created - (if oks[tried - 1] then 1 else 0) < min)
  }

  /** ... and the loop is over, unless there are no more outcomes. */
  predicate Enforced(oks: seq<bool>, tried: nat, created: nat, size: nat, min: nat) {
    StillNeeded(oks, tried, created, size, min) && (size + created < min ==> tried == |oks|)
  }

  lemma NoneNeeded(oks: seq<bool>, size: nat, min: nat)
    ensures StillNeeded(oks, 0, 0, size, min)
  {
  }

  lemma NeededOnceMore(oks: seq<bool>, tried: nat, created: nat, size: nat, min: nat)
    requires StillNeeded(oks, tried, created, size, min) && size + created < min && tried < |oks|
    ensures StillNeeded(oks, tried + 1, created + if oks[tried] then 1 else 0, size, min)
  {
    assert oks[..tried + 1][..tried] == oks[..tried];
  }

  /** The configuration passed to UpdateClientConnState: nil, of another type, or a GCPBalancerConfig. */
  datatype Supplied = Absent | Foreign | Given(config: Config)

  /** An empty ChannelPoolConfig. */
  const NO_SETTINGS := Config(0, 0, 0, false, 0, 0, false)

  class GcpBalancer {
    var cfg: Option<Config>
    const csEvltr: ConnectivityStateEvaluator
    var state: ConnState
    var affinityMap: map<string, SubConn>
    var fallbackMap: map<string, SubConn>
    var scStates: map<SubConn, ConnState>
    var scRefs: map<SubConn, SubConnRef>
    var scRefList: seq<SubConnRef>
    var rrRefId: uint32
    var refreshingScRefs: map<SubConn, SubConnRef>
    var unresponsiveDetection: bool
    var picker: Picker<SubConnRef>

    // The ClientConn: the number of subconns it has created and the balancer state it was last told. The clock.
    var created: nat
    var published: Option<Published<SubConnRef>>
    var now: int

    // The value of the balancer, as PoolSpec describes it; it also remembers every ref there ever was.
    ghost var pool: Pool<SubConnRef>

    /** The fields of the balancer hold what its value says. */
    ghost predicate Holds()
      reads this, csEvltr
    {
      && pool == Pool(cfg, csEvltr.View(), state, affinityMap, fallbackMap, scStates, scRefs, scRefList, rrRefId,
                      refreshingScRefs, picker, published, pool.objs, created, pool.owner, pool.calls, pool.admitted,
                      now)
      && (unresponsiveDetection <==> cfg.Some? && cfg.value.Detects())
    }

    /** ... and so do those of its refs. */
    ghost predicate RefsHold()
      reads this`pool, pool.objs.Keys
    {
      forall r | r in pool.objs :: r.Data() == pool.objs[r]
    }

    /** The maps and lists agree, as PoolIndex proves of every run. */
    ghost predicate Valid()
      reads this, csEvltr, pool.objs.Keys
    {
      Holds() && RefsHold() && Sound(pool)
    }

    constructor (now: int)
      ensures Valid() && fresh(csEvltr) && pool == Build(now)
    {
      cfg, state, affinityMap, fallbackMap, scStates, scRefs, scRefList := None, Idle, map[], map[], map[], map[], [];
      rrRefId, refreshingScRefs, unresponsiveDetection, picker := TWO_32 - 1, map[], false, NoSubConn;
      created, published := 0, None;
      this.now := now;
      csEvltr := new ConnectivityStateEvaluator();
      pool := Build(now);
    }

    /** Time passes. */
    method Advance(at: int)
      requires Valid() && now <= at
      modifies this`now, this`pool
      ensures Valid() && pool == Tick(old(pool), at)
    {
      hide Sound;
      TickStaysSound(pool, at);
      now := at;
      pool := Tick(pool, at);
    }

    /** cc.NewSubConn succeeds, and a ref for the new subconn is entered everywhere. */
    method Enlist() returns (r: SubConnRef)
      modifies this`created, this`scRefs, this`scStates, this`scRefList
      ensures fresh(r) && r.Data() == Ref(old(created), old(created), 0, 0, now, 0, false, 0)
      ensures created == old(created) + 1
      ensures scRefs == old(scRefs)[old(created) := r]
      ensures scStates == old(scStates)[old(created) := Idle]
      ensures scRefList == old(scRefList) + [r]
    {
      var sc := created;
      created := created + 1;
      r := new SubConnRef(sc, now);
      scRefs := scRefs[sc := r];
      scStates := scStates[sc := Idle];
      scRefList := scRefList + [r];
    }

    /** ok is false when cc.NewSubConn fails. */
    method AddSubConn(ok: bool) returns (ghost r: Option<SubConnRef>)
      requires Valid()
      modifies this`created, this`pool, this`scRefs, this`scStates, this`scRefList
      ensures Valid() && (r.Some? <==> ok) && (ok ==> fresh(r.value) && r.value !in old(pool).objs)
      ensures ok ==> scRefs == old(scRefs)[old(created) := r.value]
      ensures pool == if ok then PoolSpec.AddSubConn(old(pool), r.value) else old(pool)
    {
      hide Sound, Indexed;
      if !ok {
        return None;
      }
      var ref := Enlist();
      AddStaysSound(pool, ref);
      pool, r := PoolSpec.AddSubConn(pool, ref), Some(ref);
    }

    method NewSubConn(ok: bool) returns (ghost r: Option<SubConnRef>)
      requires Valid()
      modifies this`created, this`pool, this`scRefs, this`scStates, this`scRefList
      ensures Valid() && (r.Some? <==> ok && !SomePending(old(pool)))
      ensures r.Some? ==> fresh(r.value) && r.value !in old(pool).objs
      ensures pool == if r.Some? then PoolSpec.AddSubConn(old(pool), r.value) else old(pool)
    {
      hide Sound;
      var subConns := scStates.Keys;
      while subConns != {}
        invariant subConns <= scStates.Keys
        invariant forall sc | sc in scStates.Keys - subConns :: scStates[sc] != Connecting && scStates[sc] != Idle
      {
        var sc :| sc in subConns;
        if scStates[sc] == Connecting || scStates[sc] == Idle {
          return None;
        }
        subConns := subConns - {sc};
      }
      r := AddSubConn(ok);
    }

    /**
     oks are the outcomes of the creations one after the other. The loop tries until MinSize is reached; if too many
     creations fail it is still in it after the last one, and holds gb.mu.
     */
    method EnforceMinSize(oks: seq<bool>) returns (tried: nat, ghost news: seq<SubConnRef>)
      requires Valid() && cfg.Some?
      modifies this`created, this`pool, this`scRefs, this`scStates, this`scRefList
      ensures Valid() && Distinct(news) && forall r | r in news :: r !in old(pool).objs
      ensures pool == AddAll(old(pool), news)
      ensures |scRefs| == |old(scRefs)| + |news|
      ensures Enforced(oks, tried, |news|, |old(scRefs)|, old(cfg).value.minSize)
    {
      hide Valid, Grown, AddAll, Distinct, StillNeeded;
      news := [];
      tried := 0;
      NothingGrown(pool);
      NoneNeeded(oks, |scRefs|, cfg.value.minSize);
      while |scRefs| < cfg.value.minSize && tried < |oks|
        invariant Valid() && cfg == old(cfg)
        invariant Grown(old(pool), pool, news) && old(pool).objs.Keys <= pool.objs.Keys
        invariant tried <= |oks| && |scRefs| == |old(scRefs)| + |news|
        invariant StillNeeded(oks, tried, |news|, |old(scRefs)|, cfg.value.minSize)
      {
        NeededOnceMore(oks, tried, |news|, |old(scRefs)|, cfg.value.minSize);
        news := TryCreation(oks[tried], old(pool), news);
        tried := tried + 1;
      }
      GrownIs(old(pool), pool, news);
    }

    method TryCreation(ok: bool, ghost start: Pool<SubConnRef>, ghost before: seq<SubConnRef>)
      returns (ghost news: seq<SubConnRef>)
      requires Valid() && Grown(start, pool, before) && start.objs.Keys <= pool.objs.Keys
      modifies this`created, this`pool, this`scRefs, this`scStates, this`scRefList
      ensures Valid() && Grown(start, pool, news) && start.objs.Keys <= pool.objs.Keys
      ensures |news| == |before| + (if ok then 1 else 0) && |scRefs| == |old(scRefs)| + (if ok then 1 else 0)
    {
      CreatedIsNew(pool);
      hide Sound, Grown;
      ghost var was := pool;
      ghost var r := AddSubConn(ok);
      news := before;
      if r.Some? {
        GrownByOne(start, was, before, r.value);
        news := before + [r.value];
        Added(was.scRefs, was.issued, r.value);
      }
    }

    static method FillDefaults(settings: Config) returns (cp: Config)
      ensures cp == WithDefaults(settings)
    {
      cp := settings;
      if cp.minSize == 0 {
        cp := cp.(minSize := 1);
      }
      if cp.maxSize == 0 {
        cp := cp.(maxSize := 4);
      }
      if cp.watermark == 0 {
        cp := cp.(watermark := 100);
      }
    }

    method SetConfig(cp: Config)
      requires Valid()
      modifies this`cfg, this`unresponsiveDetection, this`pool
      ensures Valid() && pool == old(pool).(cfg := Some(cp)) && cfg == Some(cp)
    {
      hide Sound;
      ConfigStaysSound(pool, cp);
      cfg := Some(cp);
      unresponsiveDetection := cp.unresponsiveCalls > 0 && cp.unresponsiveMs > 0;
      pool := pool.(cfg := cfg);
    }

    /** A nil configuration stands for one without settings. */
    method InitializeConfig(config: Option<Config>, oks: seq<bool>) returns (tried: nat, ghost news: seq<SubConnRef>)
      requires Valid()
      modifies this`cfg, this`unresponsiveDetection, this`created, this`pool, this`scRefs, this`scStates, this`scRefList
      ensures Valid() && Distinct(news) && forall r | r in news :: r !in old(pool).objs
      ensures pool == Configure(old(pool), if config.Some? then config.value else NO_SETTINGS, news)
      ensures cfg == Some(WithDefaults(if config.Some? then config.value else NO_SETTINGS))
      ensures |scRefs| == |old(scRefs)| + |news|
      ensures Enforced(oks, tried, |news|, |old(scRefs)|, cfg.value.minSize)
    {
      hide Sound, AddAll, Distinct, Enforced;
      var cp := FillDefaults(if config.Some? then config.value else NO_SETTINGS);
      SetConfig(cp);
      tried, news := EnforceMinSize(oks);
    }

    /**
     The addresses are passed on to the subconns only. The type of the configuration matters to the first call, and so
     do the outcomes of its creations. A later call locks up exactly when all subconns have been shut down: then
     gb.newSubConn is called with gb.mu held.
     */
    method UpdateClientConnState(supplied: Supplied, oks: seq<bool>)
      returns (r: UpdateResult, tried: nat, ghost news: seq<SubConnRef>)
      requires Valid()
      modifies this`cfg, this`unresponsiveDetection, this`created, this`pool, this`scRefs, this`scStates, this`scRefList
      ensures Valid() && Distinct(news) && forall r | r in news :: r !in old(pool).objs
      ensures r == WrongType <==> old(cfg).None? && supplied.Foreign?
      ensures r == WrongType ==> pool == old(pool)
      ensures old(cfg).None? && r != WrongType ==>
        && pool == Configure(old(pool), if supplied.Given? then supplied.config else NO_SETTINGS, news)
        && cfg.Some? && Enforced(oks, tried, |news|, |old(scRefs)|, cfg.value.minSize)
        && r == if |old(scRefs)| + |news| < cfg.value.minSize then StillCreating else Accepted
      ensures old(cfg).Some? ==> pool == old(pool) && news == [] && r == if scRefs == map[] then LocksUp else Accepted
    {
      hide Sound, AddAll;
      tried, news := 0, [];
      if cfg.None? {
        if supplied.Foreign? {
          return WrongType, tried, news;
        }
        tried, news := InitializeConfig(if supplied.Given? then Some(supplied.config) else None, oks);
        if |scRefs| < cfg.value.minSize {
          return StillCreating, tried, news;
        }
      }
      r := if |scRefs| == 0 then LocksUp else Accepted;
    }

    /** ok is false when the nil pointer scRefs[sc] is dereferenced. */
    method BindSubConn(bindKey: string, sc: SubConn) returns (ok: bool)
      requires Valid()
      modifies this`affinityMap, this`pool, pool.objs.Keys`affinityCnt
      ensures ok <==> sc in old(scRefs)
      ensures ok ==> Valid() && Bind(old(pool), bindKey, sc) == Done(pool)
    {
      hide Sound;
      if bindKey !in affinityMap {
        affinityMap := affinityMap[bindKey := sc];
      }
      if sc !in scRefs {
        return false;
      }
      BoundStaysSound(pool, bindKey, sc);
      var ref := scRefs[sc];
      ghost var s := pool;
      ref.AffinityIncr();
      pool := Bound(pool, bindKey, sc);
      assert RefsHold() && pool == Bound(s, bindKey, sc);
      return true;
    }

    /** ok is false when a nil pointer is dereferenced. */
    method UnbindSubConn(boundKey: string) returns (ok: bool)
      requires Valid()
      modifies this`affinityMap, this`pool, pool.objs.Keys`affinityCnt
      ensures ok <==> boundKey !in old(affinityMap) || old(affinityMap)[boundKey] in old(scRefs)
      ensures ok ==> Valid() && Unbind(old(pool), boundKey) == Done(pool)
    {
      hide Sound;
      if boundKey in affinityMap {
        var boundSC := affinityMap[boundKey];
        if boundSC !in scRefs {
          return false;
        }
        UnboundStaysSound(pool, boundKey);
        var ref := scRefs[boundSC];
        ref.AffinityDecr();
        affinityMap := affinityMap - {boundKey};
        ghost var s := pool;
        pool := Unbound(s, boundKey);
        assert RefsHold() && pool == Unbound(s, boundKey);
      }
      return true;
    }

    method MapFallback(boundKey: string, scRef: SubConnRef)
      requires Valid() && scRef in pool.objs
      modifies this`fallbackMap, this`pool
      ensures Valid() && pool == old(pool).(fallbackMap := old(fallbackMap)[boundKey := old(pool).objs[scRef].subConn])
    {
      hide Sound;
      FallbackStaysSound(pool, fallbackMap[boundKey := scRef.subConn]);
      assert scRef.Data() == pool.objs[scRef];
      fallbackMap := fallbackMap[boundKey := scRef.subConn];
      pool := pool.(fallbackMap := fallbackMap);
    }

    /**
     Panics and Deadlocks stand for a failed type assertion or an index out of range in the picker's scan,
     and for its call of getConnectionPoolSize while gb.mu is held.
     */
    method GetReadySubConnRef(boundKey: string) returns (l: Lookup<SubConnRef>)
      requires Valid() && cfg.Some?
      modifies this`fallbackMap, this`pool
      ensures Valid() && KnownPicker(old(pool))
      ensures l == PoolSpec.GetReadySubConnRef(old(pool), boundKey) && pool == AfterLookup(old(pool), boundKey)
    {
      hide Sound;
      LookupStaysSound(pool, boundKey);
      if boundKey !in affinityMap {
        return NotBound;
      }
      var sc := affinityMap[boundKey];
      if (if sc in scStates then scStates[sc] else Idle) == Ready {
        return if sc in scRefs then Found(scRefs[sc]) else NotReady;
      }
      if !cfg.value.fallbackToReady {
        return NotReady;
      }
      if boundKey in fallbackMap {
        return if fallbackMap[boundKey] in scRefs then Found(scRefs[fallbackMap[boundKey]]) else NotReady;
      }
      if !picker.Gcp? || |picker.refs| == 0 {
        return Panics;
      }
      assert forall r | r in picker.refs :: r.Data() == pool.objs[r];
      var scRef, minStreamsCnt := LeastBusyOf(picker.refs, pool);
      if minStreamsCnt >= ToInt32(cfg.value.watermark) {
        return Deadlocks;
      }
      MapFallback(boundKey, scRef);
      return NewFallback(scRef);
    }

    /** The atomic increment of getSubConnRoundRobin, and the ref it stands for. */
    method NextInTurn() returns (scRef: SubConnRef)
      requires Valid() && scRefList != []
      modifies this`rrRefId, this`pool
      ensures Valid() && pool == NextTicket(old(pool))
      ensures scRef == scRefList[pool.rrRefId % |scRefList|]
    {
      hide Sound;
      TicketStaysSound(pool);
      rrRefId := (rrRefId + 1) % TWO_32;
      pool := NextTicket(pool);
      scRef := scRefList[rrRefId % |scRefList|];
    }

    method SwapSubConns(oldSc: SubConn, sc: SubConn, scRef: SubConnRef)
      modifies this`scStates, this`refreshingScRefs, this`scRefs
      ensures scStates == old(scStates)[sc := if oldSc in old(scStates) then old(scStates)[oldSc] else Idle] - {oldSc}
      ensures refreshingScRefs == old(refreshingScRefs) - {sc}
      ensures scRefs == (old(scRefs) - {oldSc})[sc := scRef]
    {
      scStates := scStates[sc := if oldSc in scStates then scStates[oldSc] else Idle];
      refreshingScRefs := refreshingScRefs - {sc};
      scRefs := scRefs - {oldSc};
      scStates := scStates - {oldSc};
      scRefs := scRefs[sc := scRef];
    }

    /** gcp_balancer.go:473-483 */
    method RenewRef(sc: SubConn, scRef: SubConnRef)
      modifies this`scStates, this`refreshingScRefs, this`scRefs, scRef
      ensures var oldSc := old(scRef.subConn);
        && scStates == old(scStates)[sc := if oldSc in old(scStates) then old(scStates)[oldSc] else Idle] - {oldSc}
        && refreshingScRefs == old(refreshingScRefs) - {sc}
        && scRefs == (old(scRefs) - {oldSc})[sc := scRef]
      ensures scRef.Data() == Replaced(old(scRef.Data()), sc, now)
    {
      hide Replaced;
      SwapSubConns(scRef.subConn, sc, scRef);
      scRef.Renew(sc, now);
    }

    /** The first half of UpdateSubConnState: the replacement is ready. cc.RemoveSubConn has no effect here. */
    method TakeOver(sc: SubConn)
      requires Valid() && sc in refreshingScRefs
      modifies this`scStates, this`refreshingScRefs, this`scRefs, this`pool, pool.objs.Keys
      ensures Valid() && old(refreshingScRefs)[sc] in old(pool).objs && pool == Replace(old(pool), sc)
    {
      hide Sound, Replaced;
      PendingIsKnown(pool, sc);
      ReplaceStaysSound(pool, sc);
      var scRef := refreshingScRefs[sc];
      assert scRef.Data() == pool.objs[scRef];
      RenewRef(sc, scRef);
      pool := Replace(pool, sc);
    }

    method DropFallbacksTo(sc: SubConn)
      modifies this`fallbackMap
      ensures fallbackMap == WithoutValue(old(fallbackMap), sc)
    {
      var keys := fallbackMap.Keys;
      while keys != {}
        invariant keys <= fallbackMap.Keys
        invariant fallbackMap == map k | k in old(fallbackMap) && (k in keys || old(fallbackMap)[k] != sc) ::
                                   old(fallbackMap)[k]
      {
        var k :| k in keys;
        keys := keys - {k};
        if fallbackMap[k] == sc {
          fallbackMap := fallbackMap - {k};
        }
      }
    }

    method DropFallbacksOf(sc: SubConn)
      modifies this`fallbackMap
      ensures fallbackMap == map k | k in old(fallbackMap) && !(k in affinityMap && affinityMap[k] == sc) ::
                               old(fallbackMap)[k]
    {
      var keys := fallbackMap.Keys;
      while keys != {}
        invariant keys <= fallbackMap.Keys
        invariant fallbackMap ==
                  map k | k in old(fallbackMap) && (k in keys || !(k in affinityMap && affinityMap[k] == sc)) ::
                    old(fallbackMap)[k]
      {
        var k :| k in keys;
        keys := keys - {k};
        if k in affinityMap && affinityMap[k] == sc {
          fallbackMap := fallbackMap - {k};
        }
      }
    }

    /** gcp_balancer.go:502-525, where oldS is what scStates[sc] was. */
    method EnterMaps(sc: SubConn, oldS: ConnState, s: ConnState)
      modifies this`scStates, this`scRefs, this`fallbackMap
      ensures scStates == if s == Shutdown then old(scStates)[sc := s] - {sc} else old(scStates)[sc := s]
      ensures scRefs == if s == Shutdown then old(scRefs) - {sc} else old(scRefs)
      ensures fallbackMap ==
              if oldS == Ready && s != Ready then WithoutValue(old(fallbackMap), sc)
              else if oldS != Ready && s == Ready
              then map k | k in old(fallbackMap) && !(k in affinityMap && affinityMap[k] == sc) :: old(fallbackMap)[k]
              else old(fallbackMap)
    {
      hide WithoutValue;
      scStates := scStates[sc := s];
      if s == Shutdown {
        scRefs := scRefs - {sc};
        scStates := scStates - {sc};
      }
      if oldS == Ready && s != oldS {
        DropFallbacksTo(sc);
      }
      if oldS != Ready && s == Ready {
        DropFallbacksOf(sc);
      }
    }

    /** sc.Connect, called for an idle subconn, has no effect here. */
    method EnterFields(sc: SubConn, s: ConnState)
      requires sc in scStates
      modifies this`scStates, this`scRefs, this`fallbackMap, this`state, csEvltr
      ensures scStates == if s == Shutdown then old(scStates) - {sc} else old(scStates)[sc := s]
      ensures scRefs == if s == Shutdown then old(scRefs) - {sc} else old(scRefs)
      ensures fallbackMap ==
              if old(scStates)[sc] == Ready && s != Ready then WithoutValue(old(fallbackMap), sc)
              else if old(scStates)[sc] != Ready && s == Ready
              then map k | k in old(fallbackMap) && !(k in affinityMap && affinityMap[k] == sc) :: old(fallbackMap)[k]
              else old(fallbackMap)
      ensures csEvltr.View() == Recorded(old(csEvltr.View()), old(scStates)[sc], s)
        && state == Evaluated(csEvltr.View())
    {
      hide WithoutValue, Recorded, Evaluated;
      var oldS := scStates[sc];
      assert scStates[sc := s] - {sc} == scStates - {sc};
      EnterMaps(sc, oldS, s);
      state := csEvltr.RecordTransition(oldS, s);
    }

    method EnterState(sc: SubConn, s: ConnState)
      requires Valid() && sc in scStates
      modifies this`scStates, this`scRefs, this`fallbackMap, this`state, this`pool, csEvltr
      ensures Valid() && pool == Entered(old(pool), sc, s)
    {
      hide Sound, WithoutValue, Recorded, Evaluated;
      EnterStaysSound(pool, sc, s);
      EnterFields(sc, s);
      pool := Entered(pool, sc, s);
    }

    /** The refs of the ready subconns, in the order in which the map is walked. */
    method ReadyRefs() returns (readyRefs: seq<SubConnRef>)
      requires Valid()
      ensures Lists(readyRefs, pool.ReadyRefs())
    {
      hide Sound;
      readyRefs := [];
      var subConns := scStates.Keys;
      while subConns != {}
        invariant subConns <= scStates.Keys && Gathered(pool, scStates.Keys - subConns, readyRefs)
      {
        var sc :| sc in subConns;
        if scStates[sc] == Ready {
          GatherOne(pool, scStates.Keys - subConns, readyRefs, sc);
          readyRefs := readyRefs + [scRefs[sc]];
        }
        subConns := subConns - {sc};
        assert Gathered(pool, scStates.Keys - subConns, readyRefs);
      }
      GatheredLists(pool, readyRefs);
    }

    method RegeneratePicker() returns (ghost order: seq<SubConnRef>)
      requires Valid()
      modifies this`picker
      ensures Lists(order, pool.ReadyRefs())
      ensures picker == if state == TransientFailure then TransientFailurePicker else Gcp(order)
    {
      hide Sound, Lists;
      if state == TransientFailure {
        order := ListReady(pool);
        picker := TransientFailurePicker;
        return;
      }
      var readyRefs := ReadyRefs();
      picker := Gcp(readyRefs);
      order := readyRefs;
    }

    /** regeneratePicker and cc.UpdateState */
    method Publish() returns (ghost order: seq<SubConnRef>)
      requires Valid()
      modifies this`picker, this`published, this`pool
      ensures Valid() && Lists(order, pool.ReadyRefs()) && pool == Regenerated(old(pool), order)
    {
      hide Sound, Lists;
      order := RegeneratePicker();
      RegeneratedStaysSound(pool, order);
      published := Some(Published(state, picker));
      pool := Regenerated(pool, order);
    }

    /** gcp_balancer.go:491-549 */
    method Transit(sc: SubConn, s: ConnState) returns (ghost order: seq<SubConnRef>)
      requires Valid() && sc in scStates
      modifies this`scStates, this`scRefs, this`fallbackMap, this`state, this`picker, this`published, this`pool, csEvltr
      ensures Valid() && Lists(order, pool.ReadyRefs())
      ensures pool == Transition(old(pool), sc, s, order)
    {
      hide Sound, Entered, Lists, Regenerated;
      var oldS := scStates[sc];
      var oldAggrState := state;
      EnterState(sc, s);
      if (s == Ready) != (oldS == Ready) || (state == TransientFailure) != (oldAggrState == TransientFailure) {
        order := Publish();
      } else {
        order := ListReady(pool);
      }
    }

    /**
     Every call is a step of PoolSpec that is possible; what was published stays current (see PoolPublication.Steady).
     */
    method UpdateSubConnState(sc: SubConn, s: ConnState) returns (ghost order: seq<SubConnRef>)
      requires Valid()
      modifies this, pool.objs.Keys, csEvltr
      ensures Valid() && CanChange(old(pool), sc, s, order)
      ensures pool == PoolSpec.UpdateSubConnState(old(pool), sc, s, order)
      ensures Steady(old(pool)) ==> Steady(pool)
    {
      ghost var was := pool;
      order := HandleStateChange(sc, s);
      hide Valid, Lists, Steady, PoolSpec.UpdateSubConnState;
      if Steady(was) {
        ChangeIsSteady(was, sc, s, order);
      }
    }

    method HandleStateChange(sc: SubConn, s: ConnState) returns (ghost order: seq<SubConnRef>)
      requires Valid()
      modifies this, pool.objs.Keys, csEvltr
      ensures Valid() && CanChange(old(pool), sc, s, order)
      ensures pool == PoolSpec.UpdateSubConnState(old(pool), sc, s, order)
    {
      hide Sound, Replace, Transition, Lists;
      if sc in refreshingScRefs {
        PendingIsKnown(pool, sc);
        if s != Ready {
          order := ListReady(pool);
          return;
        }
        ReplaceStaysSound(pool, sc);
        TakeOver(sc);
      }
      if sc in scStates {
        order := Transit(sc, s);
      } else {
        order := ListReady(pool);
      }
    }

    /** Refresh up to the creation of the subconn. */
    method MarkRefreshing(ref: SubConnRef)
      requires Valid() && ref in pool.objs && !ref.refreshing
      modifies this`pool, ref`refreshing, ref`latest
      ensures Valid() && !old(pool).objs[ref].refreshing && pool == PoolSpec.Refresh(old(pool), ref, false)
    {
      hide Sound;
      assert ref.Data() == pool.objs[ref];
      RefreshStaysSound(pool, ref, false);
      ref.SetRefreshing(None);
      pool := PoolSpec.Refresh(pool, ref, false);
    }

    /** ... and with it. */
    method StartReplacement(ref: SubConnRef)
      requires Valid() && ref in pool.objs && !ref.refreshing
      modifies this`refreshingScRefs, this`created, this`pool, ref`refreshing, ref`latest
      ensures Valid() && !old(pool).objs[ref].refreshing && pool == PoolSpec.Refresh(old(pool), ref, true)
    {
      hide Sound;
      assert ref.Data() == pool.objs[ref];
      RefreshStaysSound(pool, ref, true);
      AskForReplacement(ref);
      pool := PoolSpec.Refresh(pool, ref, true);
    }

    method AskForReplacement(ref: SubConnRef)
      modifies this`refreshingScRefs, this`created, ref`refreshing, ref`latest
      ensures ref.Data() == old(ref.Data()).(refreshing := true, latest := old(created))
      ensures refreshingScRefs == old(refreshingScRefs)[old(created) := ref] && created == old(created) + 1
    {
      ref.SetRefreshing(Some(created));
      var sc := created;
      created := created + 1;
      refreshingScRefs := refreshingScRefs[sc := ref];
    }

    /** ok is false when cc.NewSubConn fails; the ref then stays marked as refreshing. */
    method Refresh(ref: SubConnRef, ok: bool)
      requires Valid() && ref in pool.objs
      modifies this`refreshingScRefs, this`created, this`pool, ref`refreshing, ref`latest
      ensures Valid() && pool == PoolSpec.Refresh(old(pool), ref, ok)
    {
      hide Sound;
      assert ref.Data() == pool.objs[ref];
      if ref.refreshing {
        return;
      }
      if ok {
        StartReplacement(ref);
      } else {
        MarkRefreshing(ref);
      }
    }
  }
}
