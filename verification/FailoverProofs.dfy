/** What every run of the failover machine keeps: names, priorities and recovery timers. */
module FailoverProofs {
  import opened Options
  import opened FailoverSpec

  // ----- the endpoint list

  ghost function LastIndex(list: seq<string>, k: string): nat
    requires k in list
  {
    var n := |list| - 1;
    if list[n] == k then n else LastIndex(list[..n], k)
  }

  lemma {:induction false} LastIndexSound(list: seq<string>, k: string)
    requires k in list
    ensures LastIndex(list, k) < |list| && list[LastIndex(list, k)] == k
    ensures forall i | LastIndex(list, k) < i < |list| :: list[i] != k
  {
    var n := |list| - 1;
    if list[n] != k {
      LastIndexSound(list[..n], k);
    }
  }

  /** The fields of an endpoint other than its priority. */
  ghost predicate SameHistory(a: Endpoint, b: Endpoint) {
    a == b.(priority := a.priority)
  }

  ghost function InitialStatus<E>(s: State<E>): Status {
    if s.recoveryTimeout > 0 then Recovering else Unavailable
  }

  ghost predicate SameSettings<E>(s: State<E>, r: State<E>) {
    && r.recoveryTimeout == s.recoveryTimeout && r.switchingDelay == s.switchingDelay
    && r.current == s.current && r.future == s.future && r.now == s.now
  }

  ghost predicate LastPriorities<E>(list: seq<string>, r: State<E>)
    requires r.Linked()
  {
    forall k | k in list :: k in r.endpoints && r.At(k).priority == LastIndex(list, k)
  }

  ghost predicate KeptHistories<E>(s: State<E>, r: State<E>)
    requires s.Linked() && r.Linked()
  {
    forall k | k in s.endpoints ::
      k in r.endpoints && r.endpoints[k] == s.endpoints[k] && SameHistory(s.At(k), r.At(k))
  }

  ghost predicate NewcomersStart<E>(s: State<E>, list: seq<string>, r: State<E>)
    requires r.Linked()
  {
    forall k | k in list && k !in s.endpoints ::
      k in r.endpoints && r.At(k).status == InitialStatus(s) && r.At(k).since == s.now
  }

  /** Endpoints in `list` get their last position as priority; old ones keep their history, new ones start afresh. */
  ghost predicate Relisted<E>(s: State<E>, list: seq<string>, r: State<E>)
    requires s.Linked() && r.Linked()
  {
    && SameSettings(s, r)
    && r.endpoints.Keys == s.endpoints.Keys + (set k | k in list)
    && LastPriorities(list, r) && KeptHistories(s, r) && NewcomersStart(s, list, r)
  }

  /** Appending one name: it goes last, every other name of the list stays where it was. */
  lemma LastIndexOfLonger(list: seq<string>, id: string, k: string)
    requires k in list + [id]
    ensures LastIndex(list + [id], k) == if k == id then |list| else LastIndex(list, k)
  {
    assert (list + [id])[..|list|] == list;
  }

  /** r is m after the name id has been added or moved to the given position. */
  ghost predicate Placed<E>(s: State<E>, m: State<E>, id: string, priority: nat, r: State<E>)
    requires m.Linked() && r.Linked()
  {
    && r.endpoints.Keys == m.endpoints.Keys + {id}
    && (forall k | k in m.endpoints && k != id :: r.At(k) == m.At(k))
    && (forall k | k in m.endpoints :: r.endpoints[k] == m.endpoints[k])
    && r.At(id).priority == priority
    && (if id in m.endpoints then SameHistory(m.At(id), r.At(id))
        else r.At(id).status == InitialStatus(s) && r.At(id).since == s.now)
  }

  lemma ExtendPriorities<E>(s: State<E>, list: seq<string>, m: State<E>, id: string, r: State<E>)
    requires m.Linked() && r.Linked() && LastPriorities(list, m) && Placed(s, m, id, |list|, r)
    ensures LastPriorities(list + [id], r)
  {
    hide LastIndex;
    forall k | k in list + [id] ensures k in r.endpoints && r.At(k).priority == LastIndex(list + [id], k) {
      LastIndexOfLonger(list, id, k);
    }
  }

  lemma ExtendHistories<E>(s: State<E>, list: seq<string>, m: State<E>, id: string, r: State<E>)
    requires s.Linked() && m.Linked() && r.Linked() && KeptHistories(s, m) && Placed(s, m, id, |list|, r)
    ensures KeptHistories(s, r)
  {
  }

  lemma ExtendNewcomers<E>(s: State<E>, list: seq<string>, m: State<E>, id: string, r: State<E>)
    requires s.Linked() && m.Linked() && r.Linked() && NewcomersStart(s, list, m) && Placed(s, m, id, |list|, r)
    requires m.endpoints.Keys == s.endpoints.Keys + (set k | k in list)
    ensures NewcomersStart(s, list + [id], r)
  {
  }

  lemma ExtendRelisted<E>(s: State<E>, list: seq<string>, m: State<E>, id: string, r: State<E>)
    requires s.Linked() && m.Linked() && r.Linked() && Relisted(s, list, m) && SameSettings(m, r)
    requires Placed(s, m, id, |list|, r)
    ensures Relisted(s, list + [id], r)
  {
    hide LastPriorities, KeptHistories, NewcomersStart;
    ExtendPriorities(s, list, m, id, r);
    ExtendHistories(s, list, m, id, r);
    ExtendNewcomers(s, list, m, id, r);
    assert (set k | k in list + [id]) == (set k | k in list) + {id};
  }

  lemma AddOrMoveEffect<E>(m: State<E>, id: string, priority: nat, e: E)
    requires m.Linked() && (id !in m.endpoints ==> e !in m.objs)
    ensures var r := AddOrMove(m, id, priority, e);
      && r.Linked() && SameSettings(m, r)
      && r.endpoints.Keys == m.endpoints.Keys + {id}
      && (forall k | k in m.endpoints :: r.endpoints[k] == m.endpoints[k])
      && (forall k | k in m.endpoints && k != id :: r.At(k) == m.At(k))
      && r.At(id).priority == priority
      && (if id in m.endpoints then SameHistory(m.At(id), r.At(id))
          else r.At(id).status == InitialStatus(m) && r.At(id).since == m.now)
  {
  }

  lemma AddOneRelists<E>(s: State<E>, list: seq<string>, m: State<E>, id: string, e: E)
    requires s.Linked() && m.Linked() && Relisted(s, list, m) && (id !in m.endpoints ==> e !in m.objs)
    ensures AddOrMove(m, id, |list|, e).Linked() && Relisted(s, list + [id], AddOrMove(m, id, |list|, e))
  {
    AddOrMoveEffect(m, id, |list|, e);
    var r := AddOrMove(m, id, |list|, e);
    assert SameSettings(s, m);
    hide AddOrMove, Relisted;
    assert Placed(s, m, id, |list|, r);
    ExtendRelisted(s, list, m, id, r);
  }

  lemma AddedOneMore<E>(s: State<E>, list: seq<string>, news: seq<E>, e: E)
    requires CanAddAll(s, list, news) && |news| < |list|
    requires list[|news|] !in AddAll(s, list, news).endpoints ==> e !in AddAll(s, list, news).objs
    ensures CanAddAll(s, list, news + [e])
    ensures AddAll(s, list, news + [e]) == AddOrMove(AddAll(s, list, news), list[|news|], |news|, e)
  {
    assert (news + [e])[..|news|] == news;
    hide AddOrMove;
  }

  lemma {:induction false} AddAllRelists<E>(s: State<E>, list: seq<string>, news: seq<E>)
    requires CanAddAll(s, list, news)
    ensures Relisted(s, list[..|news|], AddAll(s, list, news))
    decreases |news|
  {
    if |news| > 0 {
      var n := |news| - 1;
      AddAllRelists(s, list, news[..n]);
      assert list[..n + 1] == list[..n] + [list[n]];
      hide Relisted, AddOrMove;
      AddOneRelists(s, list[..n], AddAll(s, list, news[..n]), list[n], news[n]);
    }
  }

  /** The effect of one iteration of NewMultiEndpoint's loop, on a name that may repeat. */
  lemma CreateOneEffect<E>(m: State<E>, id: string, priority: nat, e: E)
    requires m.Linked() && forall k | k in m.endpoints :: m.endpoints[k] != e
    ensures var m1 := NewEndpoint(m, e, id, priority);
      var r := m1.(endpoints := m1.endpoints[id := e]);
      && r.Linked() && SameSettings(m, r)
      && r.endpoints.Keys == m.endpoints.Keys + {id}
      && (forall k | k in m.endpoints && k != id :: r.At(k) == m.At(k) && r.endpoints[k] == m.endpoints[k])
      && r.endpoints[id] == e && r.At(id).priority == priority
      && r.At(id).status == InitialStatus(m) && r.At(id).since == m.now
  {
  }

  /** What construction makes of the list: every name at its last position, in its initial status. */
  ghost predicate Created<E>(s: State<E>, list: seq<string>, r: State<E>)
    requires r.Linked()
  {
    && SameSettings(s, r)
    && r.endpoints.Keys == (set k | k in list)
    && forall k | k in list ::
         r.At(k).priority == LastIndex(list, k) && r.At(k).status == InitialStatus(s) && r.At(k).since == s.now
  }

  lemma CreateOneMore<E>(s: State<E>, list: seq<string>, m: State<E>, id: string, r: State<E>)
    requires m.Linked() && r.Linked() && Created(s, list, m) && SameSettings(m, r)
    requires r.endpoints.Keys == m.endpoints.Keys + {id}
    requires forall k | k in m.endpoints && k != id :: r.At(k) == m.At(k)
    requires r.At(id).priority == |list| && r.At(id).status == InitialStatus(m) && r.At(id).since == m.now
    ensures Created(s, list + [id], r)
  {
    forall k | k in list + [id]
      ensures LastIndex(list + [id], k) == if k == id then |list| else LastIndex(list, k)
    {
      LastIndexOfLonger(list, id, k);
    }
    assert (set k | k in list + [id]) == (set k | k in list) + {id};
  }

  lemma {:induction false} CreateAllCreates<E>(s: State<E>, list: seq<string>, news: seq<E>)
    requires s.endpoints == map[] && |news| <= |list|
    requires forall i, j | 0 <= i < j < |news| :: news[i] != news[j]
    ensures var r := CreateAll(s, list, news);
            r.Linked() && Created(s, list[..|news|], r)
    ensures forall k | k in CreateAll(s, list, news).endpoints :: CreateAll(s, list, news).endpoints[k] in news
    decreases |news|
  {
    if |news| > 0 {
      hide Created, NewEndpoint;
      var n := |news| - 1;
      var m := CreateAll(s, list, news[..n]);
      CreateAllCreates(s, list, news[..n]);
      CreateOneEffect(m, list[n], n, news[n]);
      CreateOneMore(s, list[..n], m, list[n], CreateAll(s, list, news));
      assert list[..n + 1] == list[..n] + [list[n]];
    }
  }

  /** Last positions are distinct, even when the list repeats names. */
  lemma ListedIsDistinct<E>(list: seq<string>, r: State<E>)
    requires r.Linked() && r.endpoints.Keys == (set k | k in list)
    requires forall k | k in list :: r.At(k).priority == LastIndex(list, k)
    ensures r.DistinctPriorities()
  {
    forall j, k | j in r.endpoints && k in r.endpoints && j != k
      ensures r.At(j).priority != r.At(k).priority
    {
      LastIndexSound(list, j);
      LastIndexSound(list, k);
    }
  }

  lemma StatusesDoNotMatter<E>(s: State<E>, r: State<E>)
    requires s.Linked() && s.DistinctPriorities() && r.endpoints == s.endpoints && s.objs.Keys <= r.objs.Keys
    requires forall e | e in s.objs :: r.objs[e].id == s.objs[e].id && r.objs[e].priority == s.objs[e].priority
    ensures r.Linked() && r.DistinctPriorities()
  {
    assert forall k | k in s.endpoints :: r.At(k).priority == s.At(k).priority;
  }

  // ----- the top-priority endpoint

  /** Distinct priorities make the choice unique, so the order in which the map is walked is irrelevant. */
  lemma TopIsUnique<E>(s: State<E>, k: string, availableOnly: bool)
    requires s.Linked() && s.DistinctPriorities() && s.IsTop(k, availableOnly)
    ensures s.Top(availableOnly) == Some(k)
  {
  }

  ghost function Candidates<E>(s: State<E>, availableOnly: bool): set<string>
    requires s.Linked()
  {
    set k | k in s.endpoints && (availableOnly ==> s.IsAvailable(k))
  }

  lemma {:induction false} LowestExists<E>(s: State<E>, ks: set<string>) returns (k: string)
    requires s.Linked() && ks <= s.endpoints.Keys && ks != {}
    ensures k in ks && forall j | j in ks :: s.At(k).priority <= s.At(j).priority
    decreases ks
  {
    k :| k in ks;
    if ks != {k} {
      var j := LowestExists(s, ks - {k});
      if s.At(j).priority < s.At(k).priority { k := j; }
    }
  }

  lemma TopExists<E>(s: State<E>, k: string, availableOnly: bool)
    requires s.Linked() && k in Candidates(s, availableOnly)
    ensures s.Top(availableOnly).Some?
  {
    var top := LowestExists(s, Candidates(s, availableOnly));
    assert s.IsTop(top, availableOnly);
  }

  // ----- recovery timers

  ghost predicate Structured<E>(s: State<E>) {
    s.Linked() && s.DistinctPriorities() && s.current in s.endpoints
  }

  /** Timer handles are never reused and an object's futureChange is its own timer. */
  ghost predicate Handles<E>(s: State<E>) {
    && (forall t | t in s.timers ::
          t < s.nextTimer && (s.timers[t].action.MarkUnavailable? ==> s.timers[t].action.e in s.objs))
    && (forall e | e in s.objs && s.objs[e].futureChange.Some? ::
          var t := s.objs[e].futureChange.value;
          t < s.nextTimer &&
          (t in s.timers ==> s.timers[t].action.MarkUnavailable? && s.timers[t].action.e == e))
  }

  /** The timer belongs to the recovering episode its endpoint is in. */
  ghost predicate Live<E>(s: State<E>, t: nat)
    requires t in s.timers && s.timers[t].action.MarkUnavailable? && s.timers[t].action.e in s.objs
  {
    var MarkUnavailable(e, change) := s.timers[t].action;
    && s.objs[e].status == Recovering
    && s.objs[e].futureChange == Some(t)
    && s.objs[e].lastChange == change
    && s.timers[t].due == s.objs[e].since + s.recoveryTimeout
  }

  /** The timer fired before its Stop; the recorded change time gives it away. */
  ghost predicate Stale<E>(s: State<E>, t: nat)
    requires t in s.timers && s.timers[t].action.MarkUnavailable? && s.timers[t].action.e in s.objs
  {
    s.timers[t].fired && s.timers[t].action.stateChange < s.objs[s.timers[t].action.e].lastChange
  }

  ghost predicate TimerTimed<E>(s: State<E>, t: nat)
    requires t in s.timers && (s.timers[t].action.MarkUnavailable? ==> s.timers[t].action.e in s.objs)
  {
    s.timers[t].action.MarkUnavailable? ==>
      && s.timers[t].action.stateChange < s.timers[t].due
      && (s.timers[t].fired ==> s.timers[t].due <= s.now)
      && (Live(s, t) || Stale(s, t))
  }

  ghost predicate ObjectTimed<E>(s: State<E>, e: E)
    requires e in s.objs
  {
    && s.objs[e].lastChange <= s.now
    && (s.objs[e].status == Recovering ==>
          && s.recoveryTimeout > 0
          && s.objs[e].futureChange.Some? && s.objs[e].futureChange.value in s.timers
          && s.timers[s.objs[e].futureChange.value].action == MarkUnavailable(e, s.objs[e].lastChange))
  }

  /** Every recovering object has exactly its own live timer; all other timers are stale. */
  ghost predicate Timed<E>(s: State<E>)
    requires Handles(s)
  {
    && s.now > 0
    && (forall t | t in s.timers :: TimerTimed(s, t))
    && (forall e | e in s.objs :: ObjectTimed(s, e))
  }

  ghost predicate Inv<E>(s: State<E>) {
    && Structured(s)
    && Handles(s)
    && (s.recoveryTimeout >= 0 ==> Timed(s))
    && (s.switchingDelay == 0 ==> forall t | t in s.timers :: s.timers[t].action.MarkUnavailable?)
  }

  /** The part of Inv that holds also while the list is being changed. */
  ghost predicate MidInv<E>(s: State<E>) {
    && s.Linked()
    && Handles(s)
    && (s.recoveryTimeout >= 0 ==> Timed(s))
    && (s.switchingDelay == 0 ==> forall t | t in s.timers :: s.timers[t].action.MarkUnavailable?)
  }

  lemma TickKeeps<E>(s: State<E>, at: int)
    requires MidInv(s) && s.now <= at
    ensures MidInv(Tick(s, at))
  {
    var r := Tick(s, at);
    if s.recoveryTimeout >= 0 {
      forall t | t in r.timers ensures TimerTimed(r, t) { assert TimerTimed(s, t); }
      forall e | e in r.objs ensures ObjectTimed(r, e) { assert ObjectTimed(s, e); }
    }
  }

  lemma SetStateKeeps<E>(s: State<E>, e: E, st: Status)
    requires MidInv(s) && e in s.objs && st != Recovering
    ensures MidInv(SetState(s, e, st))
  {
    var r := SetState(s, e, st);
    if s.recoveryTimeout >= 0 {
      forall t | t in r.timers ensures TimerTimed(r, t) { assert TimerTimed(s, t); }
      forall x | x in r.objs ensures ObjectTimed(r, x) { assert ObjectTimed(s, x); }
    }
  }

  lemma RecoverKeeps<E>(s: State<E>, e: E)
    requires MidInv(s) && e in s.objs && s.recoveryTimeout != 0
    ensures MidInv(ScheduleUnavailable(SetState(s, e, Recovering), e))
  {
    var m := SetState(s, e, Recovering);
    var r := ScheduleUnavailable(m, e);
    if s.recoveryTimeout >= 0 {
      forall t | t in r.timers ensures TimerTimed(r, t) {
        if t != s.nextTimer { assert TimerTimed(s, t); }
      }
      forall x | x in r.objs ensures ObjectTimed(r, x) { assert ObjectTimed(s, x); }
    }
  }

  lemma NewEndpointKeeps<E>(s: State<E>, e: E, id: string, priority: nat)
    requires MidInv(s) && e !in s.objs
    ensures MidInv(NewEndpoint(s, e, id, priority))
  {
    var r := NewEndpoint(s, e, id, priority);
    if s.recoveryTimeout >= 0 {
      forall t | t in r.timers ensures TimerTimed(r, t) {
        if t in s.timers { assert TimerTimed(s, t); }
      }
      forall x | x in r.objs ensures ObjectTimed(r, x) {
        if x != e { assert ObjectTimed(s, x); }
      }
    }
  }

  lemma AddOrMoveKeeps<E>(s: State<E>, id: string, priority: nat, e: E)
    requires MidInv(s) && (id !in s.endpoints ==> e !in s.objs)
    ensures MidInv(AddOrMove(s, id, priority, e))
  {
    var r := AddOrMove(s, id, priority, e);
    if id !in s.endpoints {
      NewEndpointKeeps(s, e, id, priority);
      var m := NewEndpoint(s, e, id, priority);
      EndpointsDoNotMatter(m, r.endpoints);
    } else if s.recoveryTimeout >= 0 {
      forall t | t in r.timers ensures TimerTimed(r, t) { assert TimerTimed(s, t); }
      forall x | x in r.objs ensures ObjectTimed(r, x) { assert ObjectTimed(s, x); }
    }
  }

  lemma EndpointsDoNotMatter<E>(s: State<E>, endpoints: map<string, E>)
    requires MidInv(s) && s.(endpoints := endpoints).Linked()
    ensures MidInv(s.(endpoints := endpoints))
  {
    var r := s.(endpoints := endpoints);
    if s.recoveryTimeout >= 0 {
      forall t | t in r.timers ensures TimerTimed(r, t) { assert TimerTimed(s, t); }
      forall x | x in r.objs ensures ObjectTimed(r, x) { assert ObjectTimed(s, x); }
    }
  }

  lemma {:induction false} AddAllKeeps<E>(s: State<E>, list: seq<string>, news: seq<E>)
    requires MidInv(s) && CanAddAll(s, list, news)
    ensures MidInv(AddAll(s, list, news))
    decreases |news|
  {
    if |news| > 0 {
      var n := |news| - 1;
      AddAllKeeps(s, list, news[..n]);
      AddOrMoveKeeps(AddAll(s, list, news[..n]), list[n], n, news[n]);
    }
  }

  lemma {:induction false} CreateAllKeeps<E>(s: State<E>, list: seq<string>, news: seq<E>)
    requires MidInv(s) && |news| <= |list| && s.endpoints == map[]
    requires forall i, j | 0 <= i < j < |news| :: news[i] != news[j]
    requires forall e | e in news :: e !in s.objs
    ensures MidInv(CreateAll(s, list, news))
    ensures forall e | e in CreateAll(s, list, news).objs :: e in s.objs || e in news
    decreases |news|
  {
    hide Timed, Handles, Created;
    if |news| > 0 {
      var n := |news| - 1;
      CreateAllKeeps(s, list, news[..n]);
      CreateAllCreates(s, list, news[..n]);
      CreateAllCreates(s, list, news);
      var m := NewEndpoint(CreateAll(s, list, news[..n]), news[n], list[n], n);
      NewEndpointKeeps(CreateAll(s, list, news[..n]), news[n], list[n], n);
      EndpointsDoNotMatter(m, m.endpoints[list[n] := news[n]]);
    }
  }

  /** maybeUpdateCurrent either changes current, or schedules one Switch timer and changes future. */
  lemma MaybeUpdateCurrentShape<E>(s: State<E>)
    requires s.Linked()
    ensures var r := MaybeUpdateCurrent(s);
      || r == s.(current := r.current)
      || (s.switchingDelay != 0 && r == s.(future := r.future, nextTimer := s.nextTimer + 1,
            timers := s.timers[s.nextTimer := Timer(Switch, s.now + s.switchingDelay, false)]))
  {
  }

  lemma AddedSwitchKeeps<E>(s: State<E>, future: string)
    requires MidInv(s) && s.switchingDelay != 0
    ensures MidInv(s.(future := future, nextTimer := s.nextTimer + 1,
              timers := s.timers[s.nextTimer := Timer(Switch, s.now + s.switchingDelay, false)]))
  {
    var r := s.(future := future, nextTimer := s.nextTimer + 1,
                timers := s.timers[s.nextTimer := Timer(Switch, s.now + s.switchingDelay, false)]);
    if s.recoveryTimeout >= 0 {
      forall t | t in r.timers ensures TimerTimed(r, t) {
        if t in s.timers { assert TimerTimed(s, t); }
      }
      forall x | x in r.objs ensures ObjectTimed(r, x) { assert ObjectTimed(s, x); }
    }
  }

  lemma CurrentDoesNotMatter<E>(s: State<E>, current: string)
    requires MidInv(s)
    ensures MidInv(s.(current := current))
  {
    var r := s.(current := current);
    if s.recoveryTimeout >= 0 {
      forall t | t in r.timers ensures TimerTimed(r, t) { assert TimerTimed(s, t); }
      forall x | x in r.objs ensures ObjectTimed(r, x) { assert ObjectTimed(s, x); }
    }
  }

  lemma CurrentIsListed<E>(s: State<E>)
    requires s.Linked() && s.endpoints != map[]
    ensures MaybeUpdateCurrent(s).current in s.endpoints
  {
    var k :| k in s.endpoints;
    TopExists(s, k, false);
  }

  lemma MaybeUpdateCurrentKeeps<E>(s: State<E>)
    requires MidInv(s) && s.DistinctPriorities() && s.endpoints != map[]
    ensures Inv(MaybeUpdateCurrent(s))
  {
    var r := MaybeUpdateCurrent(s);
    CurrentIsListed(s);
    MaybeUpdateCurrentShape(s);
    if r == s.(current := r.current) {
      CurrentDoesNotMatter(s, r.current);
    } else {
      AddedSwitchKeeps(s, r.future);
    }
  }

  // ----- every run

  lemma CreateEstablishes<E>(recoveryTimeout: int, switchingDelay: int, list: seq<string>, news: seq<E>, now: int)
    requires |list| > 0 && |news| == |list| && now > 0
    requires forall i, j | 0 <= i < j < |news| :: news[i] != news[j]
    ensures Inv(Create(recoveryTimeout, switchingDelay, list, news, now))
  {
    var s0: State<E> := State(recoveryTimeout, switchingDelay, map[], map[], list[0], "", map[], 0, now);
    CreateAllKeeps(s0, list, news);
    CreateAllCreates(s0, list, news);
    assert list[..|news|] == list;
    ListedIsDistinct(list, CreateAll(s0, list, news));
  }

  /** Adding endpoints arms recovery timers only. */
  /** Timers have been stopped, and armed for recoveries only. */
  ghost predicate SameSwitches<E>(s: State<E>, m: State<E>) {
    && s.nextTimer <= m.nextTimer
    && forall t | t in m.timers :: m.timers[t].action.MarkUnavailable? || (t in s.timers && m.timers[t] == s.timers[t])
  }

  lemma AddOneArmsRecovery<E>(s: State<E>, m: State<E>, id: string, priority: nat, e: E)
    requires m.Linked() && SameSwitches(s, m)
    ensures SameSwitches(s, AddOrMove(m, id, priority, e))
  {
  }

  lemma {:induction false} AddAllArmsRecovery<E>(s: State<E>, list: seq<string>, news: seq<E>)
    requires CanAddAll(s, list, news)
    ensures SameSwitches(s, AddAll(s, list, news))
    decreases |news|
  {
    if |news| > 0 {
      var n := |news| - 1;
      AddAllArmsRecovery(s, list, news[..n]);
      AddOneArmsRecovery(s, AddAll(s, list, news[..n]), list[n], n, news[n]);
      hide SameSwitches, AddOrMove;
    }
  }

  lemma ArmsFromRemoved<E>(s: State<E>, list: seq<string>, m: State<E>)
    requires SameSwitches(RemoveObsolete(s, list), m)
    ensures SameSwitches(s, m)
  {
  }

  /** The state that SetEndpoints hands to maybeUpdateCurrent. */
  lemma RelistKeeps<E>(s: State<E>, list: seq<string>, news: seq<E>)
    requires Inv(s) && list != [] && |news| == |list| && CanAddAll(RemoveObsolete(s, list), list, news)
    ensures var m := AddAll(RemoveObsolete(s, list), list, news);
      && MidInv(m) && m.DistinctPriorities() && list[0] in m.endpoints
      && RemoveObsolete(s, list).Linked() && Relisted(RemoveObsolete(s, list), list, m)
      && SameSwitches(s, m) && m.now == s.now
  {
    hide SameSwitches;
    var s1 := RemoveObsolete(s, list);
    EndpointsDoNotMatter(s, s1.endpoints);
    AddAllKeeps(s1, list, news);
    AddAllRelists(s1, list, news);
    AddAllArmsRecovery(s1, list, news);
    ArmsFromRemoved(s, list, AddAll(s1, list, news));
    assert list[..|news|] == list;
    ListedIsDistinct(list, AddAll(s1, list, news));
  }

  lemma MarkKeeps<E>(s: State<E>, id: string, avail: bool)
    requires Inv(s)
    ensures var m := SetEndpointAvailability(s, id, avail);
      MidInv(m) && m.DistinctPriorities() && m.endpoints == s.endpoints
  {
    hide Handles, Timed;
    if id in s.endpoints {
      var e := s.endpoints[id];
      if avail {
        SetStateKeeps(s, e, Available);
      } else if s.objs[e].status == Available {
        if s.recoveryTimeout == 0 { SetStateKeeps(s, e, Unavailable); } else { RecoverKeeps(s, e); }
      }
    }
  }

  lemma FireKeeps<E>(s: State<E>, t: nat)
    requires MidInv(s) && t in s.timers && s.timers[t].due <= s.now
    ensures MidInv(Fire(s, t))
  {
    var r := Fire(s, t);
    if s.recoveryTimeout >= 0 {
      forall x | x in r.timers ensures TimerTimed(r, x) { assert TimerTimed(s, x); }
      forall x | x in r.objs ensures ObjectTimed(r, x) { assert ObjectTimed(s, x); }
    }
  }

  lemma DropTimerKeeps<E>(s: State<E>, t: nat)
    requires MidInv(s) && t in s.timers
    requires s.timers[t].action.MarkUnavailable? && s.recoveryTimeout >= 0 ==> !Live(s, t)
    ensures MidInv(s.(timers := s.timers - {t}))
  {
    var r := s.(timers := s.timers - {t});
    if s.recoveryTimeout >= 0 {
      forall x | x in r.timers ensures TimerTimed(r, x) { assert TimerTimed(s, x); }
      forall x | x in r.objs ensures ObjectTimed(r, x) { assert ObjectTimed(s, x); }
    }
  }

  lemma ExpireKeeps<E>(s: State<E>, t: nat)
    requires MidInv(s) && t in s.timers && s.timers[t].fired && s.timers[t].action.MarkUnavailable?
    ensures MidInv(SetState(s.(timers := s.timers - {t}), s.timers[t].action.e, Unavailable))
  {
    var r := SetState(s.(timers := s.timers - {t}), s.timers[t].action.e, Unavailable);
    if s.recoveryTimeout >= 0 {
      forall x | x in r.timers ensures TimerTimed(r, x) { assert TimerTimed(s, x); }
      forall x | x in r.objs ensures ObjectTimed(r, x) { assert ObjectTimed(s, x); }
    }
  }

  /** A step that ends in maybeUpdateCurrent brought the machine to m before it. */
  ghost predicate UpdatesFrom<E>(s: State<E>, step: Step<E>, m: State<E>)
    requires Enabled(s, step)
  {
    && MidInv(m) && m.DistinctPriorities() && m.endpoints != map[]
    && m.recoveryTimeout == s.recoveryTimeout && m.switchingDelay == s.switchingDelay
    && m.current == s.current
    && SameSwitches(s, m) && m.now == step.at
    && Apply(s, step) == MaybeUpdateCurrent(m)
  }

  /** Any other step leaves list and statuses alone and moves current, if at all, to an available endpoint. */
  ghost predicate LeavesAlone<E>(s: State<E>, step: Step<E>)
    requires s.Linked() && Enabled(s, step)
  {
    var r := Apply(s, step);
    && r == s.(current := r.current, timers := r.timers, now := step.at)
    && MidInv(r)
    && (forall t | t in r.timers :: t in s.timers)
    && (r.current == s.current || (s.IsAvailable(r.current) && s.switchingDelay != 0))
  }

  /** The step ends in maybeUpdateCurrent. */
  ghost predicate Reconsiders<E>(s: State<E>, action: Action<E>) {
    match action
    case DoSetEndpoints(list, _) => list != []
    case DoSetAvailability(_, _) => true
    case DoFire(_) => false
    case DoRun(t) =>
      && t in s.timers && s.timers[t].action.MarkUnavailable? && s.timers[t].action.e in s.objs
      && s.objs[s.timers[t].action.e].lastChange == s.timers[t].action.stateChange
  }

  /** Every step has one of two shapes. */
  lemma Decompose<E>(s: State<E>, step: Step<E>) returns (m: State<E>)
    requires Inv(s) && Enabled(s, step)
    ensures if Reconsiders(s, step.action) then UpdatesFrom(s, step, m) else LeavesAlone(s, step)
  {
    hide Timed, Handles, SameSwitches, MaybeUpdateCurrent;
    TickKeeps(s, step.at);
    var s1 := Tick(s, step.at);
    m := s1;
    match step.action {
      case DoSetEndpoints(list, news) =>
        if list != [] {
          m := AddAll(RemoveObsolete(s1, list), list, news);
          DecomposeRelist(s, step);
        }
      case DoSetAvailability(id, avail) =>
        m := SetEndpointAvailability(s1, id, avail);
        DecomposeReport(s, step);
      case DoFire(t) => FireKeeps(s1, t);
      case DoRun(t) => m := DecomposeCallback(s, step);
    }
  }

  lemma DecomposeRelist<E>(s: State<E>, step: Step<E>)
    requires Inv(s) && Enabled(s, step) && step.action.DoSetEndpoints? && step.action.list != []
    ensures UpdatesFrom(s, step, AddAll(RemoveObsolete(Tick(s, step.at), step.action.list), step.action.list,
                                        step.action.news))
  {
    hide Timed, Handles, MaybeUpdateCurrent, AddAll;
    TickKeeps(s, step.at);
    RelistKeeps(Tick(s, step.at), step.action.list, step.action.news);
  }

  lemma DecomposeReport<E>(s: State<E>, step: Step<E>)
    requires Inv(s) && Enabled(s, step) && step.action.DoSetAvailability?
    ensures UpdatesFrom(s, step, SetEndpointAvailability(Tick(s, step.at), step.action.id, step.action.avail))
  {
    hide Timed, Handles, MaybeUpdateCurrent;
    TickKeeps(s, step.at);
    MarkKeeps(Tick(s, step.at), step.action.id, step.action.avail);
  }

  lemma DecomposeCallback<E>(s: State<E>, step: Step<E>) returns (m: State<E>)
    requires Inv(s) && Enabled(s, step) && step.action.DoRun? && MidInv(Tick(s, step.at))
    ensures if Reconsiders(s, step.action) then UpdatesFrom(s, step, m) else LeavesAlone(s, step)
  {
    hide Timed, Handles;
    var t := step.action.t;
    var s1 := Tick(s, step.at);
    var s2 := s1.(timers := s1.timers - {t});
    m := s2;
    match s.timers[t].action {
      case Switch =>
        DropTimerKeeps(s1, t);
        CurrentDoesNotMatter(s2, Apply(s, step).current);
      case MarkUnavailable(e, change) =>
        if s.objs[e].lastChange != change {
          DropTimerKeeps(s1, t);
        } else {
          m := SetState(s2, e, Unavailable);
          ExpireKeeps(s1, t);
        }
    }
  }

  lemma StepKeeps<E>(s: State<E>, step: Step<E>)
    requires Inv(s) && Enabled(s, step)
    ensures Inv(Apply(s, step))
    ensures Apply(s, step).recoveryTimeout == s.recoveryTimeout
    ensures Apply(s, step).switchingDelay == s.switchingDelay
  {
    var m := Decompose(s, step);
    if UpdatesFrom(s, step, m) {
      MaybeUpdateCurrentKeeps(m);
      MaybeUpdateCurrentShape(m);
    }
  }

  lemma {:induction false} RunKeeps<E>(run: Run<E>)
    requires run.Legal()
    ensures Inv(run.Final())
    ensures run.Final().recoveryTimeout == run.recoveryTimeout
    ensures run.Final().switchingDelay == run.switchingDelay
    decreases |run.steps|
  {
    if |run.steps| == 0 {
      CreateEstablishes(run.recoveryTimeout, run.switchingDelay, run.list, run.news, run.start);
      CreateSettings(run.recoveryTimeout, run.switchingDelay, run.list, run.news, run.start);
    } else {
      RunKeeps(run.Front());
      StepKeeps(run.Front().Final(), run.steps[|run.steps| - 1]);
    }
  }

  lemma CreateSettings<E>(recoveryTimeout: int, switchingDelay: int, list: seq<string>, news: seq<E>, now: int)
    requires |list| > 0 && |news| == |list|
    requires forall i, j | 0 <= i < j < |news| :: news[i] != news[j]
    ensures Create(recoveryTimeout, switchingDelay, list, news, now).recoveryTimeout == recoveryTimeout
    ensures Create(recoveryTimeout, switchingDelay, list, news, now).switchingDelay == switchingDelay
  {
    var s0: State<E> := State(recoveryTimeout, switchingDelay, map[], map[], list[0], "", map[], 0, now);
    CreateAllCreates(s0, list, news);
  }
}
