/**
 The channel pool of gcp_balancer.go and gcp_picker.go as a value: each mutex-protected method, and
 each atomic update of a subConnRef, is one function from state to state.

 `R` stands for the identity of a subConnRef object; SubConns are numbered in the order in which
 cc.NewSubConn hands them out. Times are in nanoseconds.
 */
module PoolSpec {
  import opened Options

  const TWO_32: nat := 0x1_0000_0000
  const TWO_64: nat := 0x1_0000_0000_0000_0000
  const MILLISECOND: nat := 1_000_000

  type uint32 = n: nat | n < TWO_32
  type uint64 = n: nat | n < TWO_64
  type SubConn = nat

  datatype ConnState = Idle | Connecting | Ready | TransientFailure | Shutdown

  // ----- connectivityStateEvaluator, gcp_balancer.go:112-151

  datatype Evaluator = Evaluator(numReady: uint64, numConnecting: uint64, numTransientFailure: uint64)

  function Add64(n: uint64, d: uint64): uint64 {
    (n + d) % TWO_64
  }

  function Bump(e: Evaluator, st: ConnState, d: uint64): Evaluator {
    match st
    case Ready => e.(numReady := Add64(e.numReady, d))
    case Connecting => e.(numConnecting := Add64(e.numConnecting, d))
    case TransientFailure => e.(numTransientFailure := Add64(e.numTransientFailure, d))
    case _ => e
  }

  /** The decrement is the addition of 2*0 - 1 in uint64. */
  function Recorded(e: Evaluator, oldState: ConnState, newState: ConnState): Evaluator {
    Bump(Bump(e, oldState, TWO_64 - 1), newState, 1)
  }

  function Evaluated(e: Evaluator): ConnState {
    if e.numReady > 0 then Ready
    else if e.numConnecting > 0 then Connecting
    else TransientFailure
  }

  // ----- configuration, gcp_balancer.go:226-265

  datatype Config = Config(
    minSize: uint32, maxSize: uint32, watermark: uint32, fallbackToReady: bool,
    unresponsiveMs: uint32, unresponsiveCalls: uint32, roundRobinBind: bool)
  {
    predicate Detects() {
      unresponsiveCalls > 0 && unresponsiveMs > 0
    }
  }

  function WithDefaults(c: Config): Config {
    c.(minSize := if c.minSize == 0 then 1 else c.minSize,
       maxSize := if c.maxSize == 0 then 4 else c.maxSize,
       watermark := if c.watermark == 0 then 100 else c.watermark)
  }

  /** The conversion int32(x) of a uint32. */
  function ToInt32(x: uint32): (n: int)
    ensures -(TWO_32 / 2) <= n < TWO_32 / 2 && (n - x) % TWO_32 == 0
  {
    if x < TWO_32 / 2 then x else x - TWO_32
  }

  // ----- subConnRef

  /** `latest` is history: the last handle that was asked for on behalf of the ref. */
  datatype Ref = Ref(
    subConn: SubConn, latest: SubConn, affinityCnt: int, streamsCnt: int, lastResp: int,
    deCalls: uint32, refreshing: bool, refreshCnt: uint32)

  datatype Picker<R> = NoSubConn | TransientFailurePicker | Gcp(refs: seq<R>)

  datatype Published<R> = Published(state: ConnState, picker: Picker<R>)

  datatype Command = BOUND | BIND | UNBIND

  /** A pick whose Done callback has not run. */
  datatype Call<R> = Call(ref: R, started: int)

  /** `issued` counts the handles handed out so far; `owner`, history, is the ref each was asked for. */
  datatype Pool<R(==)> = Pool(
    cfg: Option<Config>,
    evaluator: Evaluator,
    state: ConnState,
    affinityMap: map<string, SubConn>,
    fallbackMap: map<string, SubConn>,
    scStates: map<SubConn, ConnState>,
    scRefs: map<SubConn, R>,
    scRefList: seq<R>,
    rrRefId: uint32,
    refreshingScRefs: map<SubConn, R>,
    picker: Picker<R>,
    published: Option<Published<R>>,
    objs: map<R, Ref>,
    issued: nat,
    owner: map<SubConn, R>,
    calls: map<nat, Call<R>>,
    admitted: set<nat>,
    now: int)
  {
    /** The zero value of a Go map lookup is Idle. */
    function StateOf(sc: SubConn): ConnState {
      if sc in scStates then scStates[sc] else Idle
    }

    ghost function ReadyRefs(): set<R> {
      set sc | sc in scStates && scStates[sc] == Ready && sc in scRefs :: scRefs[sc]
    }
  }

  /** gcp_balancer.go:65-87 */
  function Build<R>(now: int): Pool<R> {
    Pool(None, Evaluator(0, 0, 0), Idle, map[], map[], map[], map[], [], TWO_32 - 1, map[], NoSubConn, None,
         map[], 0, map[], map[], {}, now)
  }

  // ----- adding subconns, gcp_balancer.go:315-350

  /** r is the freshly allocated subConnRef. */
  function AddSubConn<R>(s: Pool<R>, r: R): Pool<R> {
    var sc := s.issued;
    s.(issued := s.issued + 1,
       owner := s.owner[sc := r],
       objs := s.objs[r := Ref(sc, sc, 0, 0, s.now, 0, false, 0)],
       scRefs := s.scRefs[sc := r],
       scStates := s.scStates[sc := Idle],
       scRefList := s.scRefList + [r])
  }

  predicate SomePending<R>(s: Pool<R>) {
    exists sc | sc in s.scStates :: s.scStates[sc] == Connecting || s.scStates[sc] == Idle
  }

  /** ok is false when cc.NewSubConn fails. */
  function NewSubConn<R>(s: Pool<R>, r: R, ok: bool): Pool<R> {
    if SomePending(s) || !ok then s else AddSubConn(s, r)
  }

  function AddAll<R>(s: Pool<R>, news: seq<R>): Pool<R>
    decreases |news|
  {
    if |news| == 0 then s else AddSubConn(AddAll(s, news[..|news| - 1]), news[|news| - 1])
  }

  /** The first UpdateClientConnState; news are the refs enforceMinSize allocates. */
  function Configure<R>(s: Pool<R>, c: Config, news: seq<R>): Pool<R> {
    AddAll(s.(cfg := Some(WithDefaults(c))), news)
  }

  // ----- UpdateSubConnState, gcp_balancer.go:437-549

  /** A fresh subconn takes over its ref. */
  function Replace<R>(s: Pool<R>, sc: SubConn): Pool<R>
    requires sc in s.refreshingScRefs && s.refreshingScRefs[sc] in s.objs
  {
    var r := s.refreshingScRefs[sc];
    var ref := s.objs[r];
    s.(scStates := s.scStates[sc := s.StateOf(ref.subConn)] - {ref.subConn},
       refreshingScRefs := s.refreshingScRefs - {sc},
       scRefs := (s.scRefs - {ref.subConn})[sc := r],
       objs := s.objs[r := Replaced(ref, sc, s.now)])
  }

  function Replaced(ref: Ref, sc: SubConn, now: int): Ref {
    ref.(subConn := sc, deCalls := 0, lastResp := now, refreshing := false,
         refreshCnt := (ref.refreshCnt + 1) % TWO_32)
  }

  function WithoutValue(m: map<string, SubConn>, sc: SubConn): map<string, SubConn> {
    map k | k in m && m[k] != sc :: m[k]
  }

  function WithoutBound<R>(s: Pool<R>, m: map<string, SubConn>, sc: SubConn): map<string, SubConn> {
    map k | k in m && !(k in s.affinityMap && s.affinityMap[k] == sc) :: m[k]
  }

  function UpdatedFallback<R>(s: Pool<R>, sc: SubConn, oldState: ConnState, st: ConnState): map<string, SubConn> {
    if oldState == Ready && st != Ready then WithoutValue(s.fallbackMap, sc)
    else if oldState != Ready && st == Ready then WithoutBound(s, s.fallbackMap, sc)
    else s.fallbackMap
  }

  /** The new state of sc is entered; on Shutdown the subconn is forgotten. */
  function Entered<R>(s: Pool<R>, sc: SubConn, st: ConnState): Pool<R>
    requires sc in s.scStates
  {
    var oldState := s.scStates[sc];
    var e := Recorded(s.evaluator, oldState, st);
    s.(scStates := if st == Shutdown then s.scStates - {sc} else s.scStates[sc := st],
       scRefs := if st == Shutdown then s.scRefs - {sc} else s.scRefs,
       fallbackMap := UpdatedFallback(s, sc, oldState, st),
       evaluator := e,
       state := Evaluated(e))
  }

  /** The map is walked in any order: `order` lists the refs of the ready subconns. */
  function Regenerated<R>(s: Pool<R>, order: seq<R>): Pool<R> {
    var p := if s.state == TransientFailure then TransientFailurePicker else Gcp(order);
    s.(picker := p, published := Some(Published(s.state, p)))
  }

  predicate MustPublish(oldState: ConnState, st: ConnState, oldAggr: ConnState, aggr: ConnState) {
    (st == Ready) != (oldState == Ready) || (aggr == TransientFailure) != (oldAggr == TransientFailure)
  }

  function Transition<R>(s: Pool<R>, sc: SubConn, st: ConnState, order: seq<R>): Pool<R>
    requires sc in s.scStates
  {
    var s1 := Entered(s, sc, st);
    if MustPublish(s.scStates[sc], st, s.state, s1.state) then Regenerated(s1, order) else s1
  }

  function UpdateSubConnState<R>(s: Pool<R>, sc: SubConn, st: ConnState, order: seq<R>): Pool<R>
    requires sc in s.refreshingScRefs ==>
      s.refreshingScRefs[sc] in s.objs && s.objs[s.refreshingScRefs[sc]].subConn != sc
  {
    if sc in s.refreshingScRefs then
      if st != Ready then s else Transition(Replace(s, sc), sc, st, order)
    else if sc !in s.scStates then s
    else Transition(s, sc, st, order)
  }

  // ----- unresponsive detection, gcp_balancer.go:190-198, 553-573 and gcp_picker.go:121-151

  function Pow2(n: nat): nat {
    if n == 0 then 1 else 2 * Pow2(n - 1)
  }

  /** uint32(1 << r) * ms in uint32 arithmetic, as a number of milliseconds. */
  function Window(ms: uint32, refreshCnt: uint32): nat {
    var factor := if refreshCnt < 32 then Pow2(refreshCnt) else 0;
    (factor * ms) % TWO_32
  }

  function GotResp(ref: Ref, now: int): Ref {
    ref.(lastResp := now, deCalls := 0, refreshCnt := 0)
  }

  function CountedTimeout(ref: Ref): Ref {
    ref.(deCalls := (ref.deCalls + 1) % TWO_32)
  }

  /** The ref, its timeout counted, has been silent for too long. */
  predicate Unresponsive(c: Config, ref: Ref, now: int) {
    && ref.deCalls >= c.unresponsiveCalls
    && ref.lastResp < now - Window(c.unresponsiveMs, ref.refreshCnt) * MILLISECOND
  }

  /** refresh: ok is false when cc.NewSubConn fails, and then refreshing stays set. */
  function Refresh<R>(s: Pool<R>, r: R, ok: bool): Pool<R>
    requires r in s.objs
  {
    var ref := s.objs[r];
    if ref.refreshing then s
    else if ok then
      s.(objs := s.objs[r := ref.(refreshing := true, latest := s.issued)],
         refreshingScRefs := s.refreshingScRefs[s.issued := r],
         issued := s.issued + 1,
         owner := s.owner[s.issued := r])
    else
      s.(objs := s.objs[r := ref.(refreshing := true)])
  }

  /** timedOut: the call ended by the deadline of its own client-side context. */
  function DetectUnresponsive<R>(s: Pool<R>, r: R, started: int, timedOut: bool, ok: bool): Pool<R>
    requires r in s.objs && s.cfg.Some?
  {
    var ref := s.objs[r];
    if !s.cfg.value.Detects() then s
    else if !timedOut then s.(objs := s.objs[r := GotResp(ref, s.now)])
    else if started < ref.lastResp then s
    else
      var ref1 := CountedTimeout(ref);
      var s1 := s.(objs := s.objs[r := ref1]);
      if Unresponsive(s.cfg.value, ref1, s.now) then Refresh(s1, r, ok) else s1
  }

  // ----- picks, gcp_picker.go:55-173

  function Streams<R>(s: Pool<R>, refs: seq<R>): seq<int>
    requires forall r | r in refs :: r in s.objs
  {
    seq(|refs|, i requires 0 <= i < |refs| => s.objs[refs[i]].streamsCnt)
  }

  /** The first index with a smallest count. */
  function LeastIndex(counts: seq<int>): (k: nat)
    requires |counts| > 0
    ensures k < |counts|
    ensures forall i | 0 <= i < |counts| :: counts[k] <= counts[i]
    ensures forall i | 0 <= i < k :: counts[k] < counts[i]
  {
    var n := |counts| - 1;
    if n == 0 then 0
    else
      var k := LeastIndex(counts[..n]);
      if counts[n] < counts[k] then n else k
  }

  datatype Choice<R> = Chosen(ref: R) | Busy

  /** getLeastBusySubConnRef up to the call of newSubConn, which Busy stands for. */
  function LeastBusy<R>(s: Pool<R>, refs: seq<R>): Choice<R>
    requires |refs| > 0 && (forall r | r in refs :: r in s.objs) && s.cfg.Some?
  {
    var counts := Streams(s, refs);
    var k := LeastIndex(counts);
    if counts[k] < ToInt32(s.cfg.value.watermark) then Chosen(refs[k])
    else if s.cfg.value.maxSize == 0 || |s.scRefs| < s.cfg.value.maxSize then Busy
    else Chosen(refs[k])
  }

  function Open<R>(s: Pool<R>, id: nat, r: R): Pool<R>
    requires r in s.objs
  {
    s.(calls := s.calls[id := Call(r, s.now)],
       objs := s.objs[r := s.objs[r].(streamsCnt := s.objs[r].streamsCnt + 1)])
  }

  function Close<R>(s: Pool<R>, id: nat): Pool<R>
    requires id in s.calls && s.calls[id].ref in s.objs
  {
    var r := s.calls[id].ref;
    s.(calls := s.calls - {id},
       objs := s.objs[r := s.objs[r].(streamsCnt := s.objs[r].streamsCnt - 1)])
  }

  // ----- affinity, gcp_balancer.go:352-379, 415-435

  /** Crash: the nil pointer is dereferenced. */
  datatype Outcome<R> = Done(pool: Pool<R>) | Crash

  function Bind<R>(s: Pool<R>, key: string, sc: SubConn): Outcome<R> {
    if sc in s.scRefs && s.scRefs[sc] in s.objs then Done(Bound(s, key, sc)) else Crash
  }

  /** A key keeps the subconn it was bound to first; the count goes up in any case. */
  function Bound<R>(s: Pool<R>, key: string, sc: SubConn): Pool<R>
    requires sc in s.scRefs && s.scRefs[sc] in s.objs
  {
    var r := s.scRefs[sc];
    s.(affinityMap := if key in s.affinityMap then s.affinityMap else s.affinityMap[key := sc],
       objs := s.objs[r := s.objs[r].(affinityCnt := s.objs[r].affinityCnt + 1)])
  }

  function Unbind<R>(s: Pool<R>, key: string): Outcome<R> {
    if key !in s.affinityMap then Done(s)
    else if s.affinityMap[key] in s.scRefs && s.scRefs[s.affinityMap[key]] in s.objs then Done(Unbound(s, key))
    else Crash
  }

  function Unbound<R>(s: Pool<R>, key: string): Pool<R>
    requires key in s.affinityMap && s.affinityMap[key] in s.scRefs && s.scRefs[s.affinityMap[key]] in s.objs
  {
    var r := s.scRefs[s.affinityMap[key]];
    s.(objs := s.objs[r := s.objs[r].(affinityCnt := s.objs[r].affinityCnt - 1)], affinityMap := s.affinityMap - {key})
  }

  /** Panics: the picker is not a gcpPicker, or has no refs. Deadlocks: gb.mu is taken a second time. */
  datatype Lookup<R> = NotBound | Found(ref: R) | NotReady | NewFallback(fallback: R) | Panics | Deadlocks

  function GetReadySubConnRef<R>(s: Pool<R>, key: string): Lookup<R>
    requires s.cfg.Some? && KnownPicker(s)
  {
    if key !in s.affinityMap then NotBound
    else
      var sc := s.affinityMap[key];
      if s.StateOf(sc) == Ready then
        if sc in s.scRefs then Found(s.scRefs[sc]) else NotReady
      else if !s.cfg.value.fallbackToReady then NotReady
      else if key in s.fallbackMap then
        if s.fallbackMap[key] in s.scRefs then Found(s.scRefs[s.fallbackMap[key]]) else NotReady
      else if !s.picker.Gcp? || s.picker.refs == [] then Panics
      else
        var refs := s.picker.refs;
        var counts := Streams(s, refs);
        if counts[LeastIndex(counts)] < ToInt32(s.cfg.value.watermark)
        then NewFallback(refs[LeastIndex(counts)])
        else Deadlocks
  }

  function AfterLookup<R>(s: Pool<R>, key: string): Pool<R>
    requires s.cfg.Some? && KnownPicker(s)
  {
    var l := GetReadySubConnRef(s, key);
    if l.NewFallback? then s.(fallbackMap := s.fallbackMap[key := s.objs[l.fallback].subConn]) else s
  }

  // ----- round robin, gcp_balancer.go:381-385

  function NextTicket<R>(s: Pool<R>): Pool<R> {
    s.(rrRefId := (s.rrRefId + 1) % TWO_32)
  }

  // ----- runs

  datatype Action<R> =
    | DoConfigure(c: Config, news: seq<R>)
    | DoGrowFirst(r: R, ok: bool) // newSubConn by a round-robin pick that finds no ref at all
    | DoStateChange(sc: SubConn, st: ConnState, order: seq<R>)
    | DoAdmit(id: nat, refs: seq<R>) // a pick finds the pool below MaxSize and will call newSubConn
    | DoGrow(id: nat, r: R, ok: bool) // ... and now calls it
    | DoLookup(key: string)
    | DoTicket
    | DoOpen(id: nat, ref: R)
    | DoClose(id: nat, timedOut: bool, ok: bool) // the Done callback up to its affinity commands
    | DoBind(key: string, sc: SubConn)
    | DoUnbind(key: string)

  datatype Step<R> = Step(action: Action<R>, at: int)

  ghost function Tick<R>(s: Pool<R>, at: int): Pool<R> {
    s.(now := at)
  }

  predicate Distinct<R(==)>(q: seq<R>) {
    forall i, j | 0 <= i < j < |q| :: q[i] != q[j]
  }

  /** order lists the ready refs as they are after the step. */
  ghost predicate Lists<R>(order: seq<R>, refs: set<R>) {
    Distinct(order) && (set r | r in order) == refs
  }

  ghost predicate CanChange<R>(s: Pool<R>, sc: SubConn, st: ConnState, order: seq<R>) {
    && (sc in s.refreshingScRefs ==>
          s.refreshingScRefs[sc] in s.objs && s.objs[s.refreshingScRefs[sc]].subConn != sc)
    && Lists(order, UpdateSubConnState(s, sc, st, order).ReadyRefs())
  }

  /** The picker's refs are known, as they are in every reachable state. */
  ghost predicate KnownPicker<R>(s: Pool<R>) {
    s.picker.Gcp? ==> forall r | r in s.picker.refs :: r in s.objs
  }

  /**
   Whether an action can happen in s. Runs stop short of crashes and deadlocks; PoolCounters and PoolFallback say when
   those happen.
   */
  ghost predicate Possible<R>(s: Pool<R>, action: Action<R>) {
    match action
    case DoConfigure(c, news) =>
      && s.cfg.None? && |news| == WithDefaults(c).minSize && Distinct(news)
      && (forall r | r in news :: r !in s.objs) && s.issued + |news| < TWO_64
    case DoGrowFirst(r, ok) => s.cfg.Some? && s.scRefList == [] && r !in s.objs && s.issued + 1 < TWO_64
    case DoStateChange(sc, st, order) => CanChange(s, sc, st, order)
    case DoAdmit(id, refs) =>
      && s.cfg.Some? && |refs| > 0 && (forall r | r in refs :: r in s.objs)
      && id !in s.admitted && LeastBusy(s, refs) == Busy
    case DoGrow(id, r, ok) => id in s.admitted && r !in s.objs && s.issued + 1 < TWO_64
    case DoLookup(key) =>
      && s.cfg.Some? && KnownPicker(s)
      && !GetReadySubConnRef(s, key).Panics? && !GetReadySubConnRef(s, key).Deadlocks?
    case DoTicket => s.scRefList != []
    case DoOpen(id, ref) => s.cfg.Some? && id !in s.calls && ref in s.objs
    case DoClose(id, _, _) => s.cfg.Some? && id in s.calls && s.calls[id].ref in s.objs && s.issued + 1 < TWO_64
    case DoBind(key, sc) => Bind(s, key, sc).Done?
    case DoUnbind(key) => Unbind(s, key).Done?
  }

  ghost function Perform<R>(s: Pool<R>, action: Action<R>): Pool<R>
    requires Possible(s, action)
  {
    match action
    case DoConfigure(c, news) => Configure(s, c, news)
    case DoGrowFirst(r, ok) => NewSubConn(s, r, ok)
    case DoStateChange(sc, st, order) => UpdateSubConnState(s, sc, st, order)
    case DoAdmit(id, _) => s.(admitted := s.admitted + {id})
    case DoGrow(id, r, ok) => NewSubConn(s.(admitted := s.admitted - {id}), r, ok)
    case DoLookup(key) => AfterLookup(s, key)
    case DoTicket => NextTicket(s)
    case DoOpen(id, ref) => Open(s, id, ref)
    case DoClose(id, timedOut, ok) =>
      DetectUnresponsive(Close(s, id), s.calls[id].ref, s.calls[id].started, timedOut, ok)
    case DoBind(key, sc) => Bind(s, key, sc).pool
    case DoUnbind(key) => Unbind(s, key).pool
  }

  ghost predicate Enabled<R>(s: Pool<R>, step: Step<R>) {
    s.now <= step.at && Possible(Tick(s, step.at), step.action)
  }

  ghost function Apply<R>(s: Pool<R>, step: Step<R>): Pool<R>
    requires Enabled(s, step)
  {
    Perform(Tick(s, step.at), step.action)
  }

  /** A balancer from Build on. */
  datatype Run<R> = Run(start: int, steps: seq<Step<R>>) {
    ghost predicate Legal()
      decreases |steps|, 0
    {
      |steps| == 0 || (Front().Legal() && Enabled(Front().Final(), steps[|steps| - 1]))
    }

    ghost function Front(): Run<R>
      requires |steps| > 0
    {
      this.(steps := steps[..|steps| - 1])
    }

    ghost function Final(): Pool<R>
      requires Legal()
      decreases |steps|, 1
    {
      if |steps| == 0 then Build(start) else Apply(Front().Final(), steps[|steps| - 1])
    }
  }
}
