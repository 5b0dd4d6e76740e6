/**
 multiendpoint.go in its own form: an object whose methods update a map of endpoint objects in
 place. Every method is proved to do what the function of the same name does in FailoverSpec.
 */
module MultiEndpoints {
  import opened Options
  import Spec = FailoverSpec
  import Proofs = FailoverProofs
  import opened FailoverSpec

  class EndpointObject {
    const id: string
    ghost const owner: MultiEndpoint
    var priority: nat
    var status: Status
    var lastChange: int
    var futureChange: Option<nat>
    ghost var since: int

    constructor (ghost owner: MultiEndpoint, id: string, priority: nat, status: Status, ghost now: int)
      ensures Data() == Endpoint(id, priority, status, 0, None, now) && this.owner == owner
    {
      this.id := id;
      this.owner := owner;
      this.priority := priority;
      this.status := status;
      lastChange := 0;
      futureChange := None;
      since := now;
    }

    ghost function Data(): Endpoint
      reads this
    {
      Endpoint(id, priority, status, lastChange, futureChange, since)
    }
  }

  class MultiEndpoint {
    var endpoints: map<string, EndpointObject>
    const recoveryTimeout: int
    const switchingDelay: int
    var current: string
    var future: string

    // The time package: callbacks handed to AfterFunc that have not run, and the clock.
    var timers: map<nat, Timer<EndpointObject>>
    var nextTimer: nat
    var now: int

    // Every endpoint object ever allocated here; timers may hold on to removed ones.
    ghost var objs: set<EndpointObject>

    ghost function View(): State<EndpointObject>
      reads this, objs
    {
      State(recoveryTimeout, switchingDelay, endpoints, map o | o in objs :: o.Data(), current, future, timers,
            nextTimer, now)
    }

    /** The shape the code relies on between calls; FailoverProofs.Inv adds what runs keep. */
    ghost predicate Valid()
      reads this, objs
      ensures Valid() ==> View().Linked()
    {
      && (forall k | k in endpoints :: endpoints[k] in objs && endpoints[k].id == k)
      && (forall o | o in objs :: o.owner == this)
      && forall t | t in timers && timers[t].action.MarkUnavailable? :: timers[t].action.e in objs
    }

    constructor (current: string, recoveryTimeout: int, switchingDelay: int, now: int)
      ensures View() == State(recoveryTimeout, switchingDelay, map[], map[], current, "", map[], 0, now)
      ensures Valid() && objs == {}
    {
      endpoints := map[];
      this.recoveryTimeout := recoveryTimeout;
      this.switchingDelay := switchingDelay;
      this.current := current;
      future := "";
      timers := map[];
      nextTimer := 0;
      this.now := now;
      objs := {};
    }

    method NewEndpoint(id: string, priority: nat) returns (e: EndpointObject)
      requires Valid()
      modifies this`timers, this`nextTimer, this`objs
      ensures fresh(e) && objs == old(objs) + {e} && e.id == id
      ensures View() == Spec.NewEndpoint(old(View()), e, id, priority)
      ensures Valid()
    {
      var s := if recoveryTimeout > 0 then Recovering else Unavailable;
      e := new EndpointObject(this, id, priority, s, now);
      objs := objs + {e};
      assert View() == old(View()).(objs := old(View()).objs[e := Endpoint(id, priority, s, 0, None, now)]);
      if e.status == Recovering {
        ScheduleUnavailable(e);
      }
    }

    /** One iteration of NewMultiEndpoint's loop: a later duplicate replaces the object of an earlier one. */
    method Enlist(id: string, priority: nat) returns (e: EndpointObject)
      requires Valid()
      modifies this`timers, this`nextTimer, this`objs, this`endpoints
      ensures fresh(e) && objs == old(objs) + {e}
      ensures View() == var s := Spec.NewEndpoint(old(View()), e, id, priority); s.(endpoints := s.endpoints[id := e])
      ensures Valid()
    {
      e := NewEndpoint(id, priority);
      endpoints := endpoints[id := e];
    }

    /** Timer.Stop: without effect once the callback has started or is done. */
    method StopTimer(t: Option<nat>)
      modifies this`timers
      ensures timers == Spec.Stop(old(timers), t)
    {
      if t.Some? && t.value in timers && !timers[t.value].fired {
        timers := timers - {t.value};
      }
    }

    method SetState(e: EndpointObject, s: Status)
      requires Valid() && e in objs
      modifies this`timers, e`status, e`lastChange, e`since
      ensures View() == Spec.SetState(old(View()), e, s)
      ensures Valid()
    {
      StopTimer(e.futureChange);
      assert View() == old(View()).(timers := timers);
      e.status := s;
      e.lastChange := now;
      e.since := now;
    }

    method ScheduleUnavailable(e: EndpointObject)
      requires Valid() && e in objs
      modifies this`timers, this`nextTimer, e`futureChange
      ensures View() == Spec.ScheduleUnavailable(old(View()), e)
      ensures Valid()
    {
      timers := timers[nextTimer := Timer(MarkUnavailable(e, e.lastChange), now + recoveryTimeout, false)];
      e.futureChange := Some(nextTimer);
      nextTimer := nextTimer + 1;
    }

    method SwitchFromTo(f: Option<EndpointObject>, t: EndpointObject)
      requires Valid() && t in objs && (f.Some? ==> f.value in objs)
      modifies this`current, this`future, this`timers, this`nextTimer
      ensures View() == Spec.SwitchFromTo(old(View()), if f.None? then None else Some(f.value.Data()), t.Data())
      ensures Valid()
    {
      if current == t.id {
        return;
      }
      if switchingDelay == 0 || f.None? || f.value.status == Unavailable {
        current := t.id;
        return;
      }
      future := t.id;
      timers := timers[nextTimer := Timer(Switch, now + switchingDelay, false)];
      nextTimer := nextTimer + 1;
    }

    /** The scan of maybeUpdateCurrent; the keys are visited in any order. */
    method FindTops() returns (topA: Option<EndpointObject>, top: Option<EndpointObject>)
      requires Valid() && View().DistinctPriorities()
      ensures View().Top(true) == if topA.Some? then Some(topA.value.id) else None
      ensures View().Top(false) == if top.Some? then Some(top.value.id) else None
      ensures topA.Some? ==> topA.value.id in endpoints && endpoints[topA.value.id] == topA.value
      ensures top.Some? ==> top.value.id in endpoints && endpoints[top.value.id] == top.value
    {
      topA, top := None, None;
      var keys := endpoints.Keys;
      ghost var s := View();
      assert forall k | k in endpoints :: s.At(k) == endpoints[k].Data();
      while keys != {}
        invariant keys <= endpoints.Keys
        invariant topA.Some? ==> topA.value.id in endpoints.Keys - keys && endpoints[topA.value.id] == topA.value
        invariant top.Some? ==> top.value.id in endpoints.Keys - keys && endpoints[top.value.id] == top.value
        invariant topA.Some? ==> topA.value.status == Available
        invariant forall k | k in endpoints.Keys - keys && endpoints[k].status == Available ::
                    topA.Some? && topA.value.priority <= endpoints[k].priority
        invariant forall k | k in endpoints.Keys - keys :: top.Some? && top.value.priority <= endpoints[k].priority
        decreases keys
      {
        var k :| k in keys;
        keys := keys - {k};
        var e := endpoints[k];
        if e.status == Available && (topA.None? || topA.value.priority > e.priority) {
          topA := Some(e);
        }
        if top.None? || top.value.priority > e.priority {
          top := Some(e);
        }
      }
      if topA.Some? {
        assert s.IsTop(topA.value.id, true);
        Proofs.TopIsUnique(s, topA.value.id, true);
      }
      if top.Some? {
        assert s.IsTop(top.value.id, false);
        Proofs.TopIsUnique(s, top.value.id, false);
      }
    }

    method MaybeUpdateCurrent()
      requires Valid() && View().DistinctPriorities()
      modifies this`current, this`future, this`timers, this`nextTimer
      ensures View() == Spec.MaybeUpdateCurrent(old(View()))
      ensures Valid()
    {
      hide Spec.SwitchFromTo, State.Top, State.DistinctPriorities;
      var c := if current in endpoints then Some(endpoints[current]) else None;
      var topA, top := FindTops();
      if c.Some? && c.value.status == Recovering && (topA.None? || topA.value.priority > c.value.priority) {
        return;
      }
      if topA.Some? {
        SwitchFromTo(c, topA.value);
        return;
      }
      if c.None? && top.Some? {
        current := top.value.id;
      }
    }

    /** multiendpoint.go:104-121. `news` are the endpoint objects allocated, in order. */
    static method NewMultiEndpoint(list: seq<string>, recoveryTimeout: int, switchingDelay: int, now: int)
      returns (r: Option<MultiEndpoint>, ghost news: seq<EndpointObject>)
      ensures r.None? <==> list == []
      ensures r.Some? ==>
        && fresh(r.value) && fresh(r.value.objs) && |news| == |list| && r.value.Valid()
        && r.value.objs == (set e | e in news)
        && (forall i, j | 0 <= i < j < |news| :: news[i] != news[j])
        && r.value.View() == Spec.Create(recoveryTimeout, switchingDelay, list, news, now)
    {
      news := [];
      if |list| == 0 {
        return None, news;
      }
      var me := new MultiEndpoint(list[0], recoveryTimeout, switchingDelay, now);
      ghost var s0 := me.View();
      for i := 0 to |list|
        invariant me.Valid() && fresh(me) && fresh(me.objs) && |news| == i
        invariant me.objs == (set e | e in news)
        invariant forall i, j | 0 <= i < j < |news| :: news[i] != news[j]
        invariant me.View() == Spec.CreateAll(s0, list, news)
      {
        var e := me.Enlist(list[i], i);
        assert (news + [e])[..i] == news;
        news := news + [e];
      }
      r := Some(me);
    }

    /** multiendpoint.go:146-173. `news[i]` is the object allocated for list[i], if one was. */
    method SetEndpoints(list: seq<string>) returns (ok: bool, ghost news: seq<EndpointObject>)
      requires Valid() && View().DistinctPriorities()
      modifies this, objs
      ensures ok <==> list != []
      ensures list != [] ==> |news| == |list| && CanAddAll(RemoveObsolete(old(View()), list), list, news)
      ensures View() == Spec.SetEndpoints(old(View()), list, news)
      ensures Valid() && old(objs) <= objs && fresh(objs - old(objs))
    {
      news := [];
      if |list| == 0 {
        return false, news;
      }
      var newEndpoints := {};
      for i := 0 to |list|
        invariant newEndpoints == set k | k in list[..i]
      {
        newEndpoints := newEndpoints + {list[i]};
        assert list[..i + 1] == list[..i] + [list[i]];
      }
      RemoveUnlisted(list, newEndpoints);
      ghost var s0 := View();
      news := AddListed(list);
      Proofs.AddAllRelists(s0, list, news);
      assert list[..|list|] == list;
      Proofs.ListedIsDistinct(list, View());
      MaybeUpdateCurrent();
      ok := true;
    }

    method AddListed(list: seq<string>) returns (ghost news: seq<EndpointObject>)
      requires Valid()
      modifies this, objs
      ensures |news| == |list| && CanAddAll(old(View()), list, news)
      ensures View() == Spec.AddAll(old(View()), list, news)
      ensures Valid() && old(objs) <= objs && fresh(objs - old(objs))
    {
      news := [];
      assert CanAddAll(old(View()), list, news) && View() == Spec.AddAll(old(View()), list, news);
      hide Spec.AddAll, Spec.CanAddAll, Spec.AddOrMove;
      for i := 0 to |list|
        invariant Valid() && |news| == i
        invariant old(objs) <= objs && fresh(objs - old(objs))
        invariant CanAddAll(old(View()), list, news) && View() == Spec.AddAll(old(View()), list, news)
      {
        ghost var e := AddOrMove(list[i], i);
        Proofs.AddedOneMore(old(View()), list, news, e);
        news := news + [e];
      }
    }

    method RemoveUnlisted(ghost list: seq<string>, newEndpoints: set<string>)
      requires Valid() && newEndpoints == (set k | k in list)
      modifies this`endpoints
      ensures View() == RemoveObsolete(old(View()), list)
      ensures Valid()
    {
      var keys := endpoints.Keys;
      while keys != {}
        invariant keys <= old(endpoints).Keys
        invariant endpoints == map k | k in old(endpoints) && (k in keys || k in list) :: old(endpoints)[k]
        decreases keys
      {
        var e :| e in keys;
        keys := keys - {e};
        if e !in newEndpoints {
          endpoints := endpoints - {e};
        }
      }
    }

    method AddOrMove(id: string, priority: nat) returns (ghost e: EndpointObject)
      requires Valid()
      modifies this, objs
      ensures View() == Spec.AddOrMove(old(View()), id, priority, e)
      ensures id !in old(endpoints) ==> e !in old(objs)
      ensures Valid() && old(objs) <= objs && fresh(objs - old(objs))
    {
      if id !in endpoints {
        var added := NewEndpoint(id, priority);
        endpoints := endpoints[id := added];
        e := added;
      } else {
        ghost var before := View();
        e := endpoints[id];
        endpoints[id].priority := priority;
        assert View().objs == before.objs[e := before.objs[e].(priority := priority)];
      }
    }

    /** multiendpoint.go:249-280 */
    method SetEndpointAvailability(id: string, avail: bool)
      requires Valid() && View().DistinctPriorities()
      modifies this, objs
      ensures View() == Spec.MaybeUpdateCurrent(Spec.SetEndpointAvailability(old(View()), id, avail))
      ensures Valid() && objs == old(objs)
    {
      Proofs.StatusesDoNotMatter(View(), Spec.SetEndpointAvailability(View(), id, avail));
      ChangeAvailability(id, avail);
      MaybeUpdateCurrent();
    }

    method ChangeAvailability(id: string, avail: bool)
      requires Valid() && View().DistinctPriorities()
      modifies this, objs
      ensures View() == Spec.SetEndpointAvailability(old(View()), id, avail)
      ensures Valid() && objs == old(objs)
    {
      if id !in endpoints {
        return;
      }
      var ee := endpoints[id];
      if avail {
        SetState(ee, Available);
        return;
      }
      if ee.status != Available {
        return;
      }
      if recoveryTimeout == 0 {
        SetState(ee, Unavailable);
        return;
      }
      SetState(ee, Recovering);
      ScheduleUnavailable(ee);
    }

    method Current() returns (r: string)
      ensures r == View().current
    {
      r := current;
    }

    /** The runtime starts the goroutine of a due timer: from now on Stop comes too late. */
    method Fire(t: nat)
      requires Valid() && t in timers
      modifies this`timers
      ensures View() == Spec.Fire(old(View()), t)
      ensures Valid()
    {
      timers := timers[t := timers[t].(fired := true)];
    }

    /** The body of a fired callback, multiendpoint.go:240-246 and 296-305. */
    method RunCallback(t: nat)
      requires Valid() && View().DistinctPriorities() && t in timers
      modifies this, objs
      ensures View() == Spec.RunCallback(old(View()), t)
      ensures Valid() && objs == old(objs)
    {
      var action := timers[t].action;
      timers := timers - {t};
      assert View() == old(View()).(timers := timers);
      match action {
        case Switch =>
          if future in endpoints && endpoints[future].status == Available {
            current := endpoints[future].id;
          }
        case MarkUnavailable(e, stateChange) =>
          if e.lastChange != stateChange {
            return;
          }
          Expire(e);
      }
    }

    method Expire(e: EndpointObject)
      requires Valid() && View().DistinctPriorities() && e in objs
      modifies this, objs
      ensures View() == Spec.MaybeUpdateCurrent(Spec.SetState(old(View()), e, Unavailable))
      ensures Valid() && objs == old(objs)
    {
      Proofs.StatusesDoNotMatter(View(), Spec.SetState(View(), e, Unavailable));
      SetState(e, Unavailable);
      MaybeUpdateCurrent();
    }
  }
}
