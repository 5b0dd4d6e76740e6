/**
 The priority failover machine of multiendpoint.go as a value: every mutex-protected method and
 every timer callback is one function from state to state.

 `E` stands for the identity of an endpoint object. A timer callback captures the object, not its
 name, so an object that was removed from the list and the object that later carries the same name
 have to be told apart.
 */
module FailoverSpec {
  import opened Options

  datatype Status = Unavailable | Available | Recovering

  /** One endpoint object. `since` is history: the time the object entered its present status. */
  datatype Endpoint = Endpoint(
    id: string,
    priority: nat,
    status: Status,
    lastChange: int,
    futureChange: Option<nat>,
    since: int)

  datatype Callback<E> =
    | MarkUnavailable(e: E, stateChange: int)
    | Switch

  /** A pending time.AfterFunc call; once `fired`, its goroutine waits for the lock and Stop fails. */
  datatype Timer<E> = Timer(action: Callback<E>, due: int, fired: bool)

  datatype State<E(==)> = State(
    recoveryTimeout: int,
    switchingDelay: int,
    endpoints: map<string, E>,
    objs: map<E, Endpoint>,
    current: string,
    future: string,
    timers: map<nat, Timer<E>>,
    nextTimer: nat,
    now: int)
  {
    /** Every listed name leads to an object of that name. */
    ghost predicate Linked() {
      forall k | k in endpoints :: endpoints[k] in objs && objs[endpoints[k]].id == k
    }

    ghost function At(k: string): Endpoint
      requires Linked() && k in endpoints
    {
      objs[endpoints[k]]
    }

    ghost predicate IsAvailable(k: string)
      requires Linked()
    {
      k in endpoints && At(k).status == Available
    }

    ghost predicate AnyAvailable()
      requires Linked()
    {
      exists k :: IsAvailable(k)
    }

    ghost predicate DistinctPriorities()
      requires Linked()
    {
      forall j, k | j in endpoints && k in endpoints && j != k :: At(j).priority != At(k).priority
    }

    /** k is a listed (available) endpoint that no other listed (available) endpoint precedes. */
    ghost predicate IsTop(k: string, availableOnly: bool)
      requires Linked()
    {
      && k in endpoints
      && (availableOnly ==> IsAvailable(k))
      && forall j | j in endpoints && (availableOnly ==> IsAvailable(j)) :: At(k).priority <= At(j).priority
    }

    ghost function Top(availableOnly: bool): (r: Option<string>)
      requires Linked()
      ensures r.Some? ==> IsTop(r.value, availableOnly)
      ensures r.None? ==> forall k :: !IsTop(k, availableOnly)
    {
      if exists k :: IsTop(k, availableOnly) then
        var k :| IsTop(k, availableOnly);
        Some(k)
      else
        None
    }
  }

  // ----- multiendpoint.go:284-306, 209-223

  ghost function Stop<E>(timers: map<nat, Timer<E>>, t: Option<nat>): map<nat, Timer<E>> {
    if t.Some? && t.value in timers && !timers[t.value].fired then timers - {t.value} else timers
  }

  ghost function SetState<E>(s: State<E>, e: E, st: Status): State<E>
    requires e in s.objs
  {
    s.(timers := Stop(s.timers, s.objs[e].futureChange),
       objs := s.objs[e := s.objs[e].(status := st, lastChange := s.now, since := s.now)])
  }

  ghost function ScheduleUnavailable<E>(s: State<E>, e: E): State<E>
    requires e in s.objs
  {
    s.(timers := s.timers[s.nextTimer :=
         Timer(MarkUnavailable(e, s.objs[e].lastChange), s.now + s.recoveryTimeout, false)],
       nextTimer := s.nextTimer + 1,
       objs := s.objs[e := s.objs[e].(futureChange := Some(s.nextTimer))])
  }

  /** The object `e` is the freshly allocated one; its lastChange is the zero time. */
  ghost function NewEndpoint<E>(s: State<E>, e: E, id: string, priority: nat): State<E> {
    var status := if s.recoveryTimeout > 0 then Recovering else Unavailable;
    var s1 := s.(objs := s.objs[e := Endpoint(id, priority, status, 0, None, s.now)]);
    if status == Recovering then ScheduleUnavailable(s1, e) else s1
  }

  // ----- multiendpoint.go:179-207, 225-247

  ghost function SwitchFromTo<E>(s: State<E>, from: Option<Endpoint>, t: Endpoint): State<E> {
    if s.current == t.id then
      s
    else if s.switchingDelay == 0 || from.None? || from.value.status == Unavailable then
      s.(current := t.id)
    else
      s.(future := t.id,
         timers := s.timers[s.nextTimer := Timer(Switch, s.now + s.switchingDelay, false)],
         nextTimer := s.nextTimer + 1)
  }

  ghost function CurrentEndpoint<E>(s: State<E>): Option<Endpoint>
    requires s.Linked()
  {
    if s.current in s.endpoints then Some(s.At(s.current)) else None
  }

  ghost function MaybeUpdateCurrent<E>(s: State<E>): State<E>
    requires s.Linked()
  {
    var c := CurrentEndpoint(s);
    var topA := s.Top(true);
    if c.Some? && c.value.status == Recovering &&
       (topA.None? || s.At(topA.value).priority > c.value.priority) then s
    else if topA.Some? then SwitchFromTo(s, c, s.At(topA.value))
    else if c.None? && s.Top(false).Some? then s.(current := s.Top(false).value)
    else s
  }

  // ----- multiendpoint.go:105-121, 146-173

  ghost function AddOrMove<E>(s: State<E>, id: string, priority: nat, e: E): (r: State<E>)
    requires s.Linked()
    ensures (id !in s.endpoints ==> e !in s.objs) ==> r.Linked()
  {
    if id in s.endpoints then
      s.(objs := s.objs[s.endpoints[id] := s.At(id).(priority := priority)])
    else
      var s1 := NewEndpoint(s, e, id, priority);
      s1.(endpoints := s1.endpoints[id := e])
  }

  ghost function RemoveObsolete<E>(s: State<E>, list: seq<string>): State<E> {
    s.(endpoints := map k | k in s.endpoints && k in list :: s.endpoints[k])
  }

  /** The endpoint objects allocated along the way: news[i] is used only if list[i] is new. */
  ghost predicate CanAddAll<E>(s: State<E>, list: seq<string>, news: seq<E>)
    decreases |news|, 0
  {
    && s.Linked() && |news| <= |list|
    && (|news| == 0 ||
        var n := |news| - 1;
        && CanAddAll(s, list, news[..n])
        && (list[n] !in AddAll(s, list, news[..n]).endpoints ==>
              news[n] !in AddAll(s, list, news[..n]).objs))
  }

  ghost function AddAll<E>(s: State<E>, list: seq<string>, news: seq<E>): (r: State<E>)
    requires CanAddAll(s, list, news)
    ensures r.Linked()
    decreases |news|, 1
  {
    if |news| == 0 then s
    else
      var n := |news| - 1;
      AddOrMove(AddAll(s, list, news[..n]), list[n], n, news[n])
  }

  ghost function SetEndpoints<E>(s: State<E>, list: seq<string>, news: seq<E>): State<E>
    requires list != [] ==> CanAddAll(RemoveObsolete(s, list), list, news) && |news| == |list|
  {
    if list == [] then s
    else MaybeUpdateCurrent(AddAll(RemoveObsolete(s, list), list, news))
  }

  /** NewMultiEndpoint never finds a name already present: it allocates for duplicates as well. */
  ghost function CreateAll<E>(s: State<E>, list: seq<string>, news: seq<E>): State<E>
    requires |news| <= |list|
  {
    if |news| == 0 then s
    else
      var n := |news| - 1;
      var s1 := NewEndpoint(CreateAll(s, list, news[..n]), news[n], list[n], n);
      s1.(endpoints := s1.endpoints[list[n] := news[n]])
  }

  ghost function Create<E>(recoveryTimeout: int, switchingDelay: int, list: seq<string>,
                           news: seq<E>, now: int): State<E>
    requires |list| > 0 && |news| == |list|
  {
    CreateAll(State(recoveryTimeout, switchingDelay, map[], map[], list[0], "", map[], 0, now), list, news)
  }

  // ----- multiendpoint.go:249-280

  ghost function SetEndpointAvailability<E>(s: State<E>, id: string, avail: bool): State<E>
    requires s.Linked()
  {
    if id !in s.endpoints then s
    else
      var e := s.endpoints[id];
      if avail then SetState(s, e, Available)
      else if s.objs[e].status != Available then s
      else if s.recoveryTimeout == 0 then SetState(s, e, Unavailable)
      else ScheduleUnavailable(SetState(s, e, Recovering), e)
  }

  // ----- the timer callbacks, multiendpoint.go:240-246 and 296-305

  ghost function Fire<E>(s: State<E>, t: nat): State<E>
    requires t in s.timers
  {
    s.(timers := s.timers[t := s.timers[t].(fired := true)])
  }

  ghost function RunCallback<E>(s: State<E>, t: nat): State<E>
    requires s.Linked() && t in s.timers
    requires s.timers[t].action.MarkUnavailable? ==> s.timers[t].action.e in s.objs
  {
    var s1 := s.(timers := s.timers - {t});
    match s.timers[t].action
    case Switch =>
      if s.IsAvailable(s.future) then s1.(current := s.At(s.future).id) else s1
    case MarkUnavailable(e, stateChange) =>
      if s.objs[e].lastChange != stateChange then s1
      else MaybeUpdateCurrent(SetState(s1, e, Unavailable))
  }

  // ----- runs

  datatype Action<E> =
    | DoSetEndpoints(list: seq<string>, news: seq<E>)
    | DoSetAvailability(id: string, avail: bool)
    | DoFire(t: nat)
    | DoRun(t: nat)

  /** One step of a run; `at` is the reading of the clock while the step holds the lock. */
  datatype Step<E> = Step(action: Action<E>, at: int)

  ghost function Tick<E>(s: State<E>, at: int): State<E> {
    s.(now := at)
  }

  ghost predicate Enabled<E>(s: State<E>, step: Step<E>) {
    && s.now <= step.at
    && s.Linked()
    && match step.action
       case DoSetEndpoints(list, news) =>
         list != [] ==> |news| == |list| && CanAddAll(RemoveObsolete(Tick(s, step.at), list), list, news)
       case DoSetAvailability(_, _) => true
       case DoFire(t) => t in s.timers && !s.timers[t].fired && s.timers[t].due <= step.at
       case DoRun(t) =>
         && t in s.timers && s.timers[t].fired
         && (s.timers[t].action.MarkUnavailable? ==> s.timers[t].action.e in s.objs)
  }

  ghost function Apply<E>(s: State<E>, step: Step<E>): State<E>
    requires Enabled(s, step)
  {
    var s1 := Tick(s, step.at);
    match step.action
    case DoSetEndpoints(list, news) => SetEndpoints(s1, list, news)
    case DoSetAvailability(id, avail) => MaybeUpdateCurrent(SetEndpointAvailability(s1, id, avail))
    case DoFire(t) => Fire(s1, t)
    case DoRun(t) => RunCallback(s1, t)
  }

  /** A MultiEndpoint from its construction on: the options, and the calls and timer events so far. */
  datatype Run<E> = Run(
    recoveryTimeout: int, switchingDelay: int, list: seq<string>, news: seq<E>, start: int,
    steps: seq<Step<E>>)
  {
    ghost predicate Legal()
      decreases |steps|, 0
    {
      && |list| > 0 && |news| == |list| && start > 0
      && (forall i, j | 0 <= i < j < |news| :: news[i] != news[j])
      && (|steps| == 0 || (Front().Legal() && Enabled(Front().Final(), steps[|steps| - 1])))
    }

    ghost function Front(): Run<E>
      requires |steps| > 0
    {
      this.(steps := steps[..|steps| - 1])
    }

    ghost function Final(): State<E>
      requires Legal()
      decreases |steps|, 1
    {
      if |steps| == 0 then Create(recoveryTimeout, switchingDelay, list, news, start)
      else Apply(Front().Final(), steps[|steps| - 1])
    }
  }
}
