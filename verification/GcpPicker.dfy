/** gcpPicker and the callbacks of its picks, as gcp_picker.go has them. */
module GcpPickers {
  import opened Options
  import opened PoolSpec
  import opened PoolIndex
  import opened PoolPublication
  import opened PoolRefs
  import opened PoolSound
  import opened PoolWait
  import opened GcpBalancers
  import opened AffinityKeys
  import opened MethodTable

  // ----- unresponsive detection, gcp_picker.go:129-151

  /** The error of a finished call; clientSide: it is the one of the call's own context. */
  datatype RpcError = NoError | DeadlineExceeded(clientSide: bool) | OtherError

  /** Whether a call ended by the deadline of its client-side context; anything else counts as a response. */
  function TimedOut(rpcErr: RpcError, deadline: Option<int>, now: int): bool {
    rpcErr == DeadlineExceeded(true) && deadline.Some? && deadline.value <= now
  }

  /** The ref heard of, or counted a timeout: everything but the refresh. */
  method NoteResponse(gb: GcpBalancer, scRef: SubConnRef)
    requires gb.Valid() && scRef in gb.pool.objs
    modifies gb`pool, scRef`lastResp, scRef`deCalls, scRef`refreshCnt
    ensures gb.Valid()
    ensures gb.pool == old(gb.pool).(objs := old(gb.pool).objs[scRef := GotResp(old(gb.pool).objs[scRef], gb.now)])
  {
    hide Sound, GotResp;
    assert scRef.Data() == gb.pool.objs[scRef];
    RecordStaysSound(gb.pool, scRef, GotResp(gb.pool.objs[scRef], gb.now)) by {
      ResponseIsRecord(gb.pool.objs[scRef], gb.now);
    }
    scRef.GotResp(gb.now);
    gb.pool := gb.pool.(objs := gb.pool.objs[scRef := GotResp(gb.pool.objs[scRef], gb.now)]);
  }

  lemma ResponseIsRecord(ref: Ref, now: int)
    ensures GotResp(ref, now).subConn == ref.subConn && GotResp(ref, now).latest == ref.latest
    ensures GotResp(ref, now).refreshing == ref.refreshing
    ensures CountedTimeout(ref).subConn == ref.subConn && CountedTimeout(ref).latest == ref.latest
    ensures CountedTimeout(ref).refreshing == ref.refreshing
  {
  }

  method NoteTimeout(gb: GcpBalancer, scRef: SubConnRef) returns (n: uint32)
    requires gb.Valid() && scRef in gb.pool.objs
    modifies gb`pool, scRef`deCalls
    ensures gb.Valid() && n == gb.pool.objs[scRef].deCalls
    ensures gb.pool == old(gb.pool).(objs := old(gb.pool).objs[scRef := CountedTimeout(old(gb.pool).objs[scRef])])
  {
    hide Sound, CountedTimeout;
    assert scRef.Data() == gb.pool.objs[scRef];
    RecordStaysSound(gb.pool, scRef, CountedTimeout(gb.pool.objs[scRef])) by {
      ResponseIsRecord(gb.pool.objs[scRef], gb.now);
    }
    n := scRef.DeCallsInc();
    gb.pool := gb.pool.(objs := gb.pool.objs[scRef := CountedTimeout(gb.pool.objs[scRef])]);
  }

  /** The second half of detectUnresponsive: n is the counted number of timeouts. */
  method RefreshIfSilent(gb: GcpBalancer, scRef: SubConnRef, n: uint32, ok: bool)
    requires gb.Valid() && scRef in gb.pool.objs && gb.cfg.Some? && n == gb.pool.objs[scRef].deCalls
    modifies gb`pool, gb`refreshingScRefs, gb`created, scRef`refreshing, scRef`latest
    ensures gb.Valid()
    ensures gb.pool == if Unresponsive(old(gb.cfg.value), old(gb.pool).objs[scRef], gb.now)
                       then PoolSpec.Refresh(old(gb.pool), scRef, ok) else old(gb.pool)
  {
    hide Sound, PoolSpec.Refresh, Window;
    assert scRef.Data() == gb.pool.objs[scRef];
    if n >= gb.cfg.value.unresponsiveCalls &&
       scRef.lastResp < gb.now - Window(gb.cfg.value.unresponsiveMs, scRef.refreshCnt) * MILLISECOND {
      gb.Refresh(scRef, ok);
    }
  }

  method CountTimeout(gb: GcpBalancer, scRef: SubConnRef, ok: bool)
    requires gb.Valid() && scRef in gb.pool.objs && gb.cfg.Some?
    modifies gb`pool, gb`refreshingScRefs, gb`created, scRef
    ensures gb.Valid()
    ensures var ref := CountedTimeout(old(gb.pool).objs[scRef]);
      var s := old(gb.pool).(objs := old(gb.pool).objs[scRef := ref]);
      gb.pool == if Unresponsive(old(gb.cfg.value), ref, gb.now) then PoolSpec.Refresh(s, scRef, ok) else s
  {
    hide Sound, PoolSpec.Refresh, CountedTimeout, Unresponsive;
    var n := NoteTimeout(gb, scRef);
    RefreshIfSilent(gb, scRef, n, ok);
  }

  // ----- the wait of a round-robin pick, gcp_balancer.go:387-412

  /** A state change that another goroutine handles between two looks, some time after the one before. */
  datatype Event = Event(after: nat, sc: SubConn, s: ConnState)

  datatype Turn = ReadyTurn | EndedTurn | NoTurnYet

  // ----- picks, gcp_picker.go:48-217

  /** The ref of a pick, or why there is none. */
  datatype Got = Got(ref: SubConnRef) | NoneAvailable | StillWaits | Panicked | Deadlocked

  /** The ref a lookup of a bound key returns; nil stands for none. */
  function Resolved(l: Lookup<SubConnRef>): Got {
    match l
    case Found(r) => Got(r)
    case NewFallback(r) => Got(r)
    case Panics => Panicked
    case Deadlocks => Deadlocked
    case _ => NoneAvailable
  }

  /** The lookup of a pick; an empty key is not looked up. */
  ghost function Looked(s: Pool<SubConnRef>, key: string): Lookup<SubConnRef>
    requires s.cfg.Some? && KnownPicker(s)
  {
    if key == "" then NotBound else GetReadySubConnRef(s, key)
  }

  /** The ref a pick takes, when it is not round-robin. */
  ghost function RefFor(s: Pool<SubConnRef>, refs: seq<SubConnRef>, key: string): Got
    requires s.cfg.Some? && KnownPicker(s) && |refs| > 0 && forall r | r in refs :: r in s.objs
  {
    if Looked(s, key) != NotBound then Resolved(Looked(s, key))
    else if LeastBusy(s, refs).Chosen? then Got(LeastBusy(s, refs).ref)
    else NoneAvailable
  }

  /** The least busy ref is wanted, all refs are busy, the pool may grow, and no subconn is still connecting. */
  ghost predicate Creates(s: Pool<SubConnRef>, refs: seq<SubConnRef>, key: string, ok: bool)
    requires s.cfg.Some? && KnownPicker(s) && |refs| > 0 && forall r | r in refs :: r in s.objs
  {
    Looked(s, key) == NotBound && LeastBusy(s, refs) == Busy && ok && !SomePending(s)
  }

  /** What choosing it does to the balancer: a fallback may be mapped, a subconn may be added. */
  ghost function AfterChoice(s: Pool<SubConnRef>, refs: seq<SubConnRef>, key: string,
                             added: Option<SubConnRef>): Pool<SubConnRef>
    requires s.cfg.Some? && KnownPicker(s)
  {
    if Looked(s, key) != NotBound then AfterLookup(s, key)
    else if added.Some? then AddSubConn(s, added.value)
    else s
  }

  /** The affinity key a pick asks for: the empty one when none is configured. Missing: a[0] of an empty list. */
  datatype Request = Key(key: string) | Refused(error: Error) | Missing

  function Requested(mcfg: Option<Affinity>, reqMsg: Option<Value>, title: Title): Request {
    if mcfg.None? || reqMsg.None? || mcfg.value.command == BIND then Key("")
    else
      match KeysFrom(reqMsg.value, Split(mcfg.value.key), 0, title)
      case Failed(e) => Refused(e)
      case Keys(keys) => if |keys| == 0 then Missing else Key(keys[0])
  }

  method RequestKey(mcfg: Option<Affinity>, reqMsg: Option<Value>, title: Title) returns (r: Request)
    ensures r == Requested(mcfg, reqMsg, title)
  {
    hide KeysFrom, Split;
    if mcfg.Some? {
      if reqMsg.Some? && (mcfg.value.command == BOUND || mcfg.value.command == UNBIND) {
        var a := GetAffinityKeysFromMessage(mcfg.value.key, reqMsg.value, title);
        return if a.Failed? then Refused(a.error) else if |a.keys| == 0 then Missing else Key(a.keys[0]);
      }
    }
    return Key("");
  }

  /** The command of a method that is not configured is the zero value. */
  function CommandOf(mcfg: Option<Affinity>): Command {
    if mcfg.Some? then mcfg.value.command else BOUND
  }

  /** What the Done closure of a pick has captured. */
  datatype Callback = Callback(scRef: SubConnRef, callStarted: int, cmd: Command, locator: string, boundKey: string)

  datatype PickResult = Picked(subConn: SubConn,
                               done: Callback) | NotAvailable | Waiting | BadKey(error: Error) | Panic | Deadlock

  function ResultOf(g: Got, sc: SubConn, now: int, mcfg: Option<Affinity>, boundKey: string): PickResult {
    match g
    case Got(ref) =>
      Picked(sc, Callback(ref, now, CommandOf(mcfg), if mcfg.Some? then mcfg.value.key else "", boundKey))
    case NoneAvailable => NotAvailable
    case StillWaits => Waiting
    case Panicked => Panic
    case Deadlocked => Deadlock
  }

  // ----- what a pick says, by the request and the configuration of its method

  /** The method looks for its key in the request, and there is one. */
  predicate LooksForKey(mcfg: Option<Affinity>, reqMsg: Option<Value>) {
    mcfg.Some? && reqMsg.Some? && (mcfg.value.command == BOUND || mcfg.value.command == UNBIND)
  }

  /** The values the configured path reaches, and whether they are keys. */
  function KeyValues(key: string, msg: Value, title: Title): seq<Value> {
    Reached([msg], Split(key), title)
  }

  predicate HasKeys(key: string, msg: Value, title: Title) {
    Passable([msg], Split(key), title) && AllStrings(KeyValues(key, msg, title))
  }

  /**
   A BOUND or UNBIND call is for the first key its path reaches in the request: a value that is no key is an error, and
   no value at all a panic. Any other call is for no key.
   */
  predicate ForReachedKey(mcfg: Option<Affinity>, reqMsg: Option<Value>, title: Title, r: PickResult) {
    if !LooksForKey(mcfg, reqMsg) then
      !r.BadKey? && (r.Picked? ==> r.done.boundKey == "")
    else
      var fine, vs := HasKeys(mcfg.value.key, reqMsg.value, title), KeyValues(mcfg.value.key, reqMsg.value, title);
      && (r.BadKey? <==> !fine)
      && (fine && vs == [] ==> r == Panic)
      && (fine && vs != [] && r.Picked? ==> r.done.boundKey == Texts(vs)[0])
  }

  /** The Done callback knows the call it belongs to, and the configuration of its method. */
  ghost predicate ForThisCall(mcfg: Option<Affinity>, r: PickResult, id: nat, t: Pool<SubConnRef>) {
    r.Picked? ==>
      && id in t.calls && t.calls[id] == Call(r.done.scRef, r.done.callStarted) && r.done.callStarted == t.now
      && r.done.scRef in t.objs && r.subConn == t.objs[r.done.scRef].subConn
      && r.done.cmd == (if mcfg.Some? then mcfg.value.command else BOUND)
      && r.done.locator == (if mcfg.Some? then mcfg.value.key else "")
  }

  /** The key a pick asks for is the one its path reaches first. */
  lemma RequestIsReached(mcfg: Option<Affinity>, reqMsg: Option<Value>, title: Title)
    ensures var r := Requested(mcfg, reqMsg, title);
      if !LooksForKey(mcfg, reqMsg) then r == Key("")
      else
        var fine, vs := HasKeys(mcfg.value.key, reqMsg.value, title), KeyValues(mcfg.value.key, reqMsg.value, title);
        && (r.Refused? <==> !fine) && (r == Missing <==> fine && vs == [])
        && (fine && vs != [] ==> r == Key(Texts(vs)[0]))
  {
    hide KeysFrom, Split, Passable, Reached;
    if LooksForKey(mcfg, reqMsg) {
      KeysAreReachedValues(reqMsg.value, Split(mcfg.value.key), title);
    }
  }

  lemma ResultForReachedKey(mcfg: Option<Affinity>, reqMsg: Option<Value>, title: Title, g: Got, sc: SubConn, now: int,
                            key: string)
    requires Requested(mcfg, reqMsg, title) == Key(key)
    ensures ForReachedKey(mcfg, reqMsg, title, ResultOf(g, sc, now, mcfg, key))
  {
    hide Requested, HasKeys, KeyValues;
    RequestIsReached(mcfg, reqMsg, title);
  }

  lemma NoResultForKey(mcfg: Option<Affinity>, reqMsg: Option<Value>, title: Title)
    ensures Requested(mcfg, reqMsg, title).Refused? ==>
              forall e :: ForReachedKey(mcfg, reqMsg, title, BadKey(e))
    ensures Requested(mcfg, reqMsg, title).Missing? ==> ForReachedKey(mcfg, reqMsg, title, Panic)
  {
    hide Requested, HasKeys, KeyValues;
    RequestIsReached(mcfg, reqMsg, title);
  }

  lemma IncrementsForThisCall(s: Pool<SubConnRef>, refs: seq<SubConnRef>, key: string, mcfg: Option<Affinity>, ok: bool,
                              ended: seq<bool>, g: Got, added: Option<SubConnRef>, steps: seq<Step<SubConnRef>>,
                              id: nat, t: Pool<SubConnRef>)
    requires s.cfg.Some? && KnownPicker(s) && |refs| > 0 && forall r | r in refs :: r in s.objs
    requires Increments(s, refs, key, CommandOf(mcfg), ok, ended, g, added, steps, id, t)
    ensures g.Got? ==> g.ref in t.objs && ForThisCall(mcfg, ResultOf(g, t.objs[g.ref].subConn, t.now, mcfg, key), id, t)
  {
    hide RefFor, AfterChoice, Creates, CanDo, Did, FoundReady, Steady, KnownPicker;
  }

  lemma NotForThisCall(mcfg: Option<Affinity>, r: PickResult, id: nat, t: Pool<SubConnRef>)
    requires !r.Picked?
    ensures ForThisCall(mcfg, r, id, t)
  {
  }

  /** A pick for a key: which ref was found for it, what that did to the balancer, and the result. */
  ghost predicate PicksFor(s: Pool<SubConnRef>, refs: seq<SubConnRef>, key: string, mcfg: Option<Affinity>, ok: bool,
                           ended: seq<bool>, g: Got, added: Option<SubConnRef>, steps: seq<Step<SubConnRef>>,
                           id: nat, t: Pool<SubConnRef>, r: PickResult)
    requires s.cfg.Some? && KnownPicker(s) && |refs| > 0 && forall r | r in refs :: r in s.objs
  {
    && Increments(s, refs, key, CommandOf(mcfg), ok, ended, g, added, steps, id, t)
    && (g.Got? ==> g.ref in t.objs)
    && r == ResultOf(g, if g.Got? then t.objs[g.ref].subConn else 0, t.now, mcfg, key)
  }

  lemma ForKeyIsReached(s: Pool<SubConnRef>, refs: seq<SubConnRef>, key: string, mcfg: Option<Affinity>,
                        reqMsg: Option<Value>, title: Title, ok: bool, ended: seq<bool>, g: Got,
                        added: Option<SubConnRef>, steps: seq<Step<SubConnRef>>, id: nat, t: Pool<SubConnRef>,
                        r: PickResult)
    requires s.cfg.Some? && KnownPicker(s) && |refs| > 0 && forall r | r in refs :: r in s.objs
    requires PicksFor(s, refs, key, mcfg, ok, ended, g, added, steps, id, t, r)
    requires Requested(mcfg, reqMsg, title) == Key(key)
    ensures ForReachedKey(mcfg, reqMsg, title, r)
  {
    hide Increments, ForReachedKey, Requested, ResultOf;
    ResultForReachedKey(mcfg, reqMsg, title, g, if g.Got? then t.objs[g.ref].subConn else 0, t.now, key);
  }

  /**
   What the looks at r come to while the steps of others go on; look i ends the wait if ended[i]. No look before the
   last found r ready or the context ended.
   */
  ghost predicate Awaited(s: Pool<SubConnRef>, steps: seq<Step<SubConnRef>>, ended: seq<bool>, r: SubConnRef, w: Turn) {
    && CanDo(s, steps) && |steps| < |ended| && r in Did(s, steps).objs
    && (forall i | 0 <= i < |steps| :: steps[i].action.DoStateChange?)
    && (w == ReadyTurn <==> FoundReady(Did(s, steps), r))
    && (w == EndedTurn ==> ended[|steps|])
    && (w == NoTurnYet ==> |steps| + 1 == |ended|)
    && forall i | 0 <= i < |steps| && CanDo(s, steps[..i]) :: !FoundReady(Did(s, steps[..i]), r) && !ended[i]
  }

  /**
   What a round-robin pick comes to after the steps of others during its wait: the ref in turn gains a stream once it
   is ready, and then it is in the published picker, or once the context has ended.
   */
  ghost predicate TakesTurn(s: Pool<SubConnRef>, steps: seq<Step<SubConnRef>>, ended: seq<bool>, g: Got, id: nat,
                            t: Pool<SubConnRef>)
  {
    var s1 := NextTicket(s);
    && s1.scRefList != []
    && var r := s1.scRefList[s1.rrRefId % |s1.scRefList|];
    exists w ::
      && Awaited(s1, steps, ended, r, w)
      && var s2 := Did(s1, steps);
      if w == NoTurnYet then g == StillWaits && t == s2
      else
        && g == Got(r) && t == Open(s2, id, r)
        && (w == ReadyTurn && Steady(s) ==> s2.picker.Gcp? && r in s2.picker.refs)
  }

  lemma TicketIsSteady(s: Pool<SubConnRef>)
    requires Steady(s) && s.scRefList != []
    ensures Steady(NextTicket(s))
  {
    ActionKeepsSteady(s, DoTicket);
    hide Steady;
  }

  lemma TurnComes(s: Pool<SubConnRef>, steps: seq<Step<SubConnRef>>, ended: seq<bool>, r: SubConnRef, w: Turn, id: nat)
    requires s.scRefList != [] && r == s.scRefList[NextTicket(s).rrRefId % |s.scRefList|]
    requires Awaited(NextTicket(s), steps, ended, r, w)
    ensures var s2 := Did(NextTicket(s), steps);
      if w == NoTurnYet then TakesTurn(s, steps, ended, StillWaits, id, s2)
      else TakesTurn(s, steps, ended, Got(r), id, Open(s2, id, r))
  {
    hide CanDo, Did, FoundReady, Steady, Open;
    var s2 := Did(NextTicket(s), steps);
    if w == ReadyTurn && Steady(s) {
      TicketIsSteady(s);
      DidIsSteady(NextTicket(s), steps);
      ReadyIsPublished(s2, r);
    }
  }

  /** The ref of a pick and what taking it does: the next in turn, or the bound or least busy one. */
  ghost predicate Increments(s: Pool<SubConnRef>, refs: seq<SubConnRef>, key: string, cmd: Command, ok: bool,
                             ended: seq<bool>, g: Got, added: Option<SubConnRef>, steps: seq<Step<SubConnRef>>,
                             id: nat, t: Pool<SubConnRef>)
    requires s.cfg.Some? && KnownPicker(s) && |refs| > 0 && forall r | r in refs :: r in s.objs
  {
    if cmd == BIND && s.cfg.value.roundRobinBind then TakesTurn(s, steps, ended, g, id, t)
    else
      var s1 := AfterChoice(s, refs, key, added);
      && g == RefFor(s, refs, key)
      && (added.Some? <==> Creates(s, refs, key, ok)) && (added.Some? ==> added.value !in s.objs)
      && if g.Got? then g.ref in s1.objs && t == Open(s1, id, g.ref) else t == s1
  }

  // ----- what Done does, gcp_picker.go:95-113

  /** Binding keys one after the other, until a dead subconn stops it. */
  ghost function BindAll(s: Pool<SubConnRef>, keys: seq<string>, sc: SubConn): Outcome<SubConnRef>
    decreases |keys|
  {
    if |keys| == 0 then Done(s)
    else
      var before := BindAll(s, keys[..|keys| - 1], sc);
      if before.Crash? then Crash else Bind(before.pool, keys[|keys| - 1], sc)
  }

  /** The affinity command of a call that has succeeded; without a gcp context there is no reply to look at. */
  ghost function Commanded(s: Pool<SubConnRef>, cb: Callback, replyMsg: Option<Value>,
                           title: Title): Outcome<SubConnRef>
    requires cb.scRef in s.objs
  {
    match cb.cmd
    case BOUND => Done(s)
    case UNBIND => Unbind(s, cb.boundKey)
    case BIND =>
      if replyMsg.None? then Crash
      else
        var keys := KeysFrom(replyMsg.value, Split(cb.locator), 0, title);
        if keys.Failed? then Done(s) else BindAll(s, keys.keys, s.objs[cb.scRef].subConn)
  }

  lemma BindAllNext(s: Pool<SubConnRef>, keys: seq<string>, i: nat, sc: SubConn)
    requires i < |keys|
    ensures BindAll(s, keys[..i + 1], sc) ==
            var before := BindAll(s, keys[..i], sc);
            if before.Crash? then Crash else Bind(before.pool, keys[i], sc)
  {
    assert keys[..i + 1][..i] == keys[..i];
  }

  lemma {:induction false} CrashStays(s: Pool<SubConnRef>, keys: seq<string>, i: nat, sc: SubConn)
    requires i <= |keys| && BindAll(s, keys[..i], sc) == Crash
    ensures BindAll(s, keys, sc) == Crash
    decreases |keys| - i
  {
    if i < |keys| {
      BindAllNext(s, keys, i, sc);
      CrashStays(s, keys, i + 1, sc);
    } else {
      assert keys[..i] == keys;
    }
  }

  /** The stream is taken back and detection runs; a success is followed by the affinity command. */
  ghost function AfterDone(s: Pool<SubConnRef>, cb: Callback, rpcErr: RpcError, timedOut: bool, replyMsg: Option<Value>,
                       title: Title, ok: bool, id: nat): Outcome<SubConnRef>
    requires s.cfg.Some? && id in s.calls && s.calls[id].ref == cb.scRef && cb.scRef in s.objs
  {
    var t := PoolSpec.DetectUnresponsive(Close(s, id), cb.scRef, cb.callStarted, timedOut, ok);
    DetectKeepsRef(Close(s, id), cb.scRef, cb.callStarted, timedOut, ok);
    if rpcErr == NoError then Commanded(t, cb, replyMsg, title) else Done(t)
  }

  lemma AfterDoneIs(s: Pool<SubConnRef>, cb: Callback, rpcErr: RpcError, timedOut: bool, replyMsg: Option<Value>,
                title: Title, ok: bool, id: nat)
    requires s.cfg.Some? && id in s.calls && s.calls[id].ref == cb.scRef && cb.scRef in s.objs
    ensures var t := PoolSpec.DetectUnresponsive(Close(s, id), cb.scRef, cb.callStarted, timedOut, ok);
      && cb.scRef in t.objs
      && AfterDone(s, cb, rpcErr, timedOut, replyMsg, title, ok, id)
         == if rpcErr == NoError then Commanded(t, cb, replyMsg, title) else Done(t)
  {
    DetectKeepsRef(Close(s, id), cb.scRef, cb.callStarted, timedOut, ok);
    hide PoolSpec.DetectUnresponsive, Commanded;
  }

  lemma DetectKeepsRef(s: Pool<SubConnRef>, r: SubConnRef, started: int, timedOut: bool, ok: bool)
    requires r in s.objs && s.cfg.Some?
    ensures r in PoolSpec.DetectUnresponsive(s, r, started, timedOut, ok).objs
  {
    hide Unresponsive, PoolSpec.DetectUnresponsive;
    DetectOnRefs(s, r, started, timedOut, ok);
  }

  lemma TransitionKeepsList(s: Pool<SubConnRef>, sc: SubConn, st: ConnState, order: seq<SubConnRef>)
    requires sc in s.scStates
    ensures Transition(s, sc, st, order).scRefList == s.scRefList
  {
    hide UpdatedFallback, Recorded, Evaluated, MustPublish;
  }

  lemma ChangeKeepsList(s: Pool<SubConnRef>, sc: SubConn, st: ConnState, order: seq<SubConnRef>)
    requires CanChange(s, sc, st, order)
    ensures PoolSpec.UpdateSubConnState(s, sc, st, order).scRefList == s.scRefList
  {
    hide Lists, Transition, Replaced;
    if sc in s.refreshingScRefs && st == Ready {
      TransitionKeepsList(Replace(s, sc), sc, st, order);
    } else if sc !in s.refreshingScRefs && sc in s.scStates {
      TransitionKeepsList(s, sc, st, order);
    }
  }

  class GcpPicker {
    const gb: GcpBalancer
    const scRefs: seq<SubConnRef>

    constructor (gb: GcpBalancer, scRefs: seq<SubConnRef>)
      ensures this.gb == gb && this.scRefs == scRefs
    {
      this.gb := gb;
      this.scRefs := scRefs;
    }

    /** The picker was made from refs of the balancer, which has been configured. */
    ghost predicate Valid()
      reads gb, gb.csEvltr, gb.pool.objs.Keys
    {
      gb.Valid() && gb.cfg.Some? && forall r | r in scRefs :: r in gb.pool.objs
    }

    method GetLeastBusySubConnRef(ok: bool) returns (c: Choice<SubConnRef>, ghost added: Option<SubConnRef>)
      requires Valid() && |scRefs| > 0
      modifies gb`created, gb`pool, gb`scRefs, gb`scStates, gb`scRefList
      ensures Valid() && c == LeastBusy(old(gb.pool), scRefs)
      ensures added.Some? <==> c.Busy? && ok && !SomePending(old(gb.pool))
      ensures added.Some? ==> fresh(added.value) && added.value !in old(gb.pool).objs
      ensures gb.pool == if added.Some? then AddSubConn(old(gb.pool), added.value) else old(gb.pool)
    {
      hide Sound;
      added := None;
      assert forall r | r in scRefs :: r.Data() == gb.pool.objs[r];
      var minScRef, minStreamsCnt := LeastBusyOf(scRefs, gb.pool);
      if minStreamsCnt < ToInt32(gb.cfg.value.watermark) {
        return Chosen(minScRef), added;
      }
      if gb.cfg.value.maxSize == 0 || |gb.scRefs| < gb.cfg.value.maxSize {
        added := gb.NewSubConn(ok);
        return Busy, added;
      }
      return Chosen(minScRef), added;
    }

    method Begin(scRef: SubConnRef, ghost id: nat)
      requires gb.Valid() && scRef in gb.pool.objs
      modifies gb`pool, scRef`streamsCnt
      ensures gb.Valid() && gb.pool == Open(old(gb.pool), id, scRef)
    {
      hide Sound;
      assert scRef.Data() == gb.pool.objs[scRef];
      OpenStaysSound(gb.pool, id, scRef);
      scRef.StreamsIncr();
      gb.pool := Open(gb.pool, id, scRef);
    }

    method GetSubConnRef(boundKey: string, ok: bool) returns (g: Got, ghost added: Option<SubConnRef>)
      requires Valid() && |scRefs| > 0
      modifies gb`created, gb`pool, gb`scRefs, gb`scStates, gb`scRefList, gb`fallbackMap
      ensures Valid() && KnownPicker(old(gb.pool))
      ensures g == RefFor(old(gb.pool), scRefs, boundKey)
      ensures gb.pool == AfterChoice(old(gb.pool), scRefs, boundKey, added)
      ensures added.Some? <==> Creates(old(gb.pool), scRefs, boundKey, ok)
      ensures added.Some? ==> added.value !in old(gb.pool).objs
      ensures g.Got? ==> g.ref in gb.pool.objs && g.ref in old(gb.pool).objs
    {
      ValidLookup(boundKey);
      hide GcpBalancer.Valid, LeastBusy, PoolSpec.GetReadySubConnRef, AfterLookup;
      added := None;
      if boundKey != "" {
        var l := gb.GetReadySubConnRef(boundKey);
        if l != NotBound {
          return Resolved(l), added;
        }
      }
      var c: Choice<SubConnRef>;
      c, added := GetLeastBusySubConnRef(ok);
      g := if c.Chosen? then Got(c.ref) else NoneAvailable;
    }

    lemma ValidLookup(key: string)
      requires Valid() && |scRefs| > 0
      ensures KnownPicker(gb.pool) && gb.cfg == gb.pool.cfg
      ensures GetReadySubConnRef(gb.pool, key) == NotBound ==> AfterLookup(gb.pool, key) == gb.pool
      ensures RefFor(gb.pool, scRefs, key).Got? ==> RefFor(gb.pool, scRefs, key).ref in gb.pool.objs
    {
      if key != "" {
        FoundIsKnown(gb.pool, key);
      }
    }

    /** `id` names the call in the balancer's value. */
    method PickBoundOrLeastBusy(boundKey: string, ok: bool, ghost id: nat)
      returns (g: Got, ghost added: Option<SubConnRef>)
      requires Valid() && |scRefs| > 0
      modifies gb`created, gb`pool, gb`scRefs, gb`scStates, gb`scRefList, gb`fallbackMap, gb.pool.objs.Keys`streamsCnt
      ensures Valid() && KnownPicker(old(gb.pool))
      ensures g == RefFor(old(gb.pool), scRefs, boundKey)
      ensures added.Some? <==> Creates(old(gb.pool), scRefs, boundKey, ok)
      ensures added.Some? ==> added.value !in old(gb.pool).objs
      ensures var s := AfterChoice(old(gb.pool), scRefs, boundKey, added);
        if g.Got? then g.ref in s.objs && gb.pool == Open(s, id, g.ref) else gb.pool == s
    {
      hide GcpBalancer.Valid, LeastBusy, PoolSpec.GetReadySubConnRef, AfterChoice, RefFor, Creates;
      g, added := GetSubConnRef(boundKey, ok);
      if g.Got? {
        Begin(g.ref, id);
      }
    }

    /** One look under the lock; the handle of the ref is read anew. */
    method LookReady(scRef: SubConnRef) returns (ready: bool)
      requires gb.Valid() && scRef in gb.pool.objs
      ensures ready <==> FoundReady(gb.pool, scRef)
    {
      hide Sound;
      assert scRef.Data() == gb.pool.objs[scRef];
      ready := scRef.subConn in gb.scStates && gb.scStates[scRef.subConn] == Ready;
    }

    /** Another goroutine has the lock. */
    method Interfere(e: Event) returns (ghost step: Step<SubConnRef>)
      requires gb.Valid()
      modifies gb, gb.csEvltr, gb.pool.objs.Keys
      ensures gb.Valid() && gb.pool.objs.Keys == old(gb.pool).objs.Keys && gb.pool.cfg == old(gb.pool).cfg
      ensures Enabled(old(gb.pool), step) && gb.pool == Apply(old(gb.pool), step) && step.action.DoStateChange?
      ensures gb.pool.scRefList == old(gb.pool).scRefList
    {
      ghost var was := gb.pool;
      var at := gb.now + e.after;
      ClockIsKnown();
      gb.Advance(at);
      hide GcpBalancer.Valid, PoolSpec.UpdateSubConnState, Lists;
      ghost var order := gb.UpdateSubConnState(e.sc, e.s);
      ChangeOnRefs(Tick(was, at), e.sc, e.s, order);
      ChangeKeepsList(Tick(was, at), e.sc, e.s, order);
      step := Step(DoStateChange(e.sc, e.s, order), at);
    }

    lemma ClockIsKnown()
      requires gb.Valid()
      ensures gb.now == gb.pool.now && gb.cfg == gb.pool.cfg
    {
      hide Sound;
    }

    /**
     The wait for scRef; ended[i] says that the context, rather than the ticker or the signal, ended the wait after look
     i, and events[i] is what is handled before the next look.
     */
    method AwaitTurn(scRef: SubConnRef, events: seq<Event>, ended: seq<bool>)
      returns (w: Turn, ghost steps: seq<Step<SubConnRef>>)
      requires gb.Valid() && scRef in gb.pool.objs && |ended| == |events| + 1
      modifies gb, gb.csEvltr, gb.pool.objs.Keys
      ensures gb.Valid() && gb.pool.objs.Keys == old(gb.pool).objs.Keys && gb.pool.cfg == old(gb.pool).cfg
      ensures Awaited(old(gb.pool), steps, ended, scRef, w) && gb.pool == Did(old(gb.pool), steps)
    {
      hide GcpBalancer.Valid, Enabled, Apply, FoundReady;
      steps := [];
      for i := 0 to |events|
        invariant |steps| == i && gb.Valid() && gb.pool.objs.Keys == old(gb.pool).objs.Keys
          && gb.pool.cfg == old(gb.pool).cfg
        invariant CanDo(old(gb.pool), steps) && gb.pool == Did(old(gb.pool), steps)
        invariant forall k | 0 <= k < i :: steps[k].action.DoStateChange?
        invariant forall k | 0 <= k < i && CanDo(old(gb.pool), steps[..k]) ::
                    !FoundReady(Did(old(gb.pool), steps[..k]), scRef) && !ended[k]
      {
        var ready := LookReady(scRef);
        if ready {
          return ReadyTurn, steps;
        }
        if ended[i] {
          return EndedTurn, steps;
        }
        ghost var step := Interfere(events[i]);
        DidOneMore(old(gb.pool), steps, step);
        assert steps[..i] == steps && (steps + [step])[..i] == steps;
        assert forall k | 0 <= k < i :: (steps + [step])[..k] == steps[..k];
        steps := steps + [step];
      }
      var ready := LookReady(scRef);
      w := if ready then ReadyTurn else if ended[|events|] then EndedTurn else NoTurnYet;
    }

    /** The round-robin pick: events happen during its wait, which the context ends after look i if ended[i]. */
    method PickInTurn(events: seq<Event>, ended: seq<bool>, ghost id: nat)
      returns (g: Got, ghost steps: seq<Step<SubConnRef>>)
      requires Valid() && gb.scRefList != [] && |ended| == |events| + 1
      modifies gb, gb.csEvltr, gb.pool.objs.Keys
      ensures Valid() && TakesTurn(old(gb.pool), steps, ended, g, id, gb.pool)
    {
      TurnIsKnown();
      ClockIsKnown();
      hide GcpBalancer.Valid, Steady, Awaited, TakesTurn, CanDo, Did;
      var scRef := gb.NextInTurn();
      var w: Turn;
      w, steps := AwaitTurn(scRef, events, ended);
      TurnComes(old(gb.pool), steps, ended, scRef, w, id);
      g := if w == NoTurnYet then StillWaits else Got(scRef);
      if w != NoTurnYet {
        Begin(scRef, id);
      }
      StaysValid(old(gb.pool));
    }

    lemma StaysValid(was: Pool<SubConnRef>)
      requires gb.Valid() && was.cfg.Some? && gb.pool.cfg == was.cfg && gb.pool.objs.Keys == was.objs.Keys
      requires forall r | r in scRefs :: r in was.objs
      ensures Valid()
    {
      ClockIsKnown();
      hide GcpBalancer.Valid;
    }

    lemma TurnIsKnown()
      requires Valid()
      ensures gb.scRefList == gb.pool.scRefList && forall r | r in gb.scRefList :: r in gb.pool.objs
    {
      ListedIsKnown(gb.pool);
    }

    method GetAndIncrementSubConnRef(boundKey: string, cmd: Command, ok: bool, events: seq<Event>, ended: seq<bool>,
                                     ghost id: nat)
      returns (g: Got, ghost added: Option<SubConnRef>, ghost steps: seq<Step<SubConnRef>>)
      requires Valid() && |scRefs| > 0 && gb.scRefList != [] && |ended| == |events| + 1
      modifies gb, gb.csEvltr, gb.pool.objs.Keys
      ensures Valid() && KnownPicker(old(gb.pool))
      ensures Increments(old(gb.pool), scRefs, boundKey, cmd, ok, ended, g, added, steps, id, gb.pool)
    {
      ConfigIsKnown();
      hide GcpBalancer.Valid, RefFor, AfterChoice, Creates, TakesTurn;
      added, steps := None, [];
      if cmd == BIND && gb.cfg.value.roundRobinBind {
        g, steps := PickInTurn(events, ended, id);
        return;
      }
      g, added := PickBoundOrLeastBusy(boundKey, ok, id);
    }

    lemma ConfigIsKnown()
      requires Valid()
      ensures KnownPicker(gb.pool) && gb.cfg == gb.pool.cfg && gb.scRefList == gb.pool.scRefList
    {
      hide Indexed;
    }

    method HandleOf(scRef: SubConnRef) returns (sc: SubConn)
      requires gb.Valid() && scRef in gb.pool.objs
      ensures sc == gb.pool.objs[scRef].subConn
    {
      hide Sound;
      assert scRef.Data() == gb.pool.objs[scRef];
      sc := scRef.subConn;
    }

    /**
     reqMsg is the request in the gcp context, if the call has one; events and ended are what goes on during the wait
     of a round-robin pick. The Done callback of the pick is returned as
     what it has captured; id names the call in the balancer's value.
     */
    method Pick(mcfg: Option<Affinity>, reqMsg: Option<Value>, title: Title, ok: bool, events: seq<Event>,
                ended: seq<bool>, ghost id: nat)
      returns (r: PickResult, ghost added: Option<SubConnRef>, ghost steps: seq<Step<SubConnRef>>)
      requires Valid() && gb.scRefList != [] && |ended| == |events| + 1
      modifies gb, gb.csEvltr, gb.pool.objs.Keys
      ensures Valid() && KnownPicker(old(gb.pool))
      ensures scRefs == [] ==> r == NotAvailable && gb.pool == old(gb.pool)
      ensures scRefs != [] ==>
        match Requested(mcfg, reqMsg, title)
        case Refused(e) => r == BadKey(e) && gb.pool == old(gb.pool)
        case Missing => r == Panic && gb.pool == old(gb.pool)
        case Key(key) => exists g ::
          PicksFor(old(gb.pool), scRefs, key, mcfg, ok, ended, g, added, steps, id, gb.pool, r)
      ensures scRefs != [] ==> ForReachedKey(mcfg, reqMsg, title, r)
      ensures ForThisCall(mcfg, r, id, gb.pool)
    {
      ConfigIsKnown();
      NoResultForKey(mcfg, reqMsg, title);
      hide GcpBalancer.Valid, Requested, ForReachedKey, PicksFor, ForThisCall;
      added, steps := None, [];
      if |scRefs| == 0 {
        NotForThisCall(mcfg, NotAvailable, id, gb.pool);
        return NotAvailable, added, steps;
      }
      var request := RequestKey(mcfg, reqMsg, title);
      match request {
        case Refused(e) =>
          NotForThisCall(mcfg, BadKey(e), id, gb.pool);
          return BadKey(e), added, steps;
        case Missing =>
          NotForThisCall(mcfg, Panic, id, gb.pool);
          return Panic, added, steps;
        case Key(boundKey) =>
          ghost var g;
          r, g, added, steps := PickForKey(boundKey, mcfg, ok, events, ended, id);
          ForKeyIsReached(old(gb.pool), scRefs, boundKey, mcfg, reqMsg, title, ok, ended, g, added, steps, id, gb.pool,
                          r);
      }
    }

    /** The pick once its key is known. */
    method PickForKey(boundKey: string, mcfg: Option<Affinity>, ok: bool, events: seq<Event>, ended: seq<bool>,
                      ghost id: nat)
      returns (r: PickResult, ghost gg: Got, ghost added: Option<SubConnRef>, ghost steps: seq<Step<SubConnRef>>)
      requires Valid() && |scRefs| > 0 && gb.scRefList != [] && |ended| == |events| + 1
      modifies gb, gb.csEvltr, gb.pool.objs.Keys
      ensures Valid() && KnownPicker(old(gb.pool))
      ensures PicksFor(old(gb.pool), scRefs, boundKey, mcfg, ok, ended, gg, added, steps, id, gb.pool, r)
      ensures ForThisCall(mcfg, r, id, gb.pool)
    {
      hide GcpBalancer.Valid, Increments, ForThisCall;
      ConfigIsKnown();
      var cmd := if mcfg.Some? then mcfg.value.command else BOUND;
      var g: Got;
      g, added, steps := GetAndIncrementSubConnRef(boundKey, cmd, ok, events, ended, id);
      gg := g;
      ClockIsKnown();
      IncrementsForThisCall(old(gb.pool), scRefs, boundKey, mcfg, ok, ended, g, added, steps, id, gb.pool);
      var sc: SubConn := 0;
      if g.Got? {
        sc := HandleOf(g.ref);
      } else {
        NotForThisCall(mcfg, ResultOf(g, sc, gb.now, mcfg, boundKey), id, gb.pool);
      }
      r := ResultOf(g, sc, gb.now, mcfg, boundKey);
    }

    /** ok is false when the refresh cannot create a subconn. */
    method DetectUnresponsive(scRef: SubConnRef, callStarted: int, rpcErr: RpcError, deadline: Option<int>, ok: bool)
      requires gb.Valid() && scRef in gb.pool.objs && gb.cfg.Some?
      modifies gb`pool, gb`refreshingScRefs, gb`created, scRef
      ensures gb.Valid()
      ensures gb.pool ==
              PoolSpec.DetectUnresponsive(old(gb.pool), scRef, callStarted, TimedOut(rpcErr, deadline, gb.now), ok)
    {
      hide Sound, PoolSpec.Refresh, GotResp, CountedTimeout, Unresponsive;
      assert scRef.Data() == gb.pool.objs[scRef];
      assert gb.cfg == gb.pool.cfg && (gb.unresponsiveDetection <==> gb.cfg.value.Detects());
      hide GcpBalancer.Valid;
      if !gb.unresponsiveDetection {
        return;
      }
      if !(rpcErr == DeadlineExceeded(true) && deadline.Some? && deadline.value <= gb.now) {
        NoteResponse(gb, scRef);
        return;
      }
      if callStarted < scRef.lastResp {
        return;
      }
      CountTimeout(gb, scRef, ok);
    }

    method End(cb: Callback, ghost id: nat)
      requires gb.Valid() && id in gb.pool.calls && gb.pool.calls[id] == Call(cb.scRef, cb.callStarted)
      modifies gb`pool, cb.scRef`streamsCnt
      ensures gb.Valid() && cb.scRef in old(gb.pool).objs && gb.pool == Close(old(gb.pool), id)
    {
      hide Sound;
      CloseStaysSound(gb.pool, id);
      assert cb.scRef.Data() == gb.pool.objs[cb.scRef];
      cb.scRef.StreamsDecr();
      gb.pool := Close(gb.pool, id);
    }

    lemma CommandSucceedsIff(key: string, sc: SubConn)
      requires gb.Valid()
      ensures Bind(gb.pool, key, sc).Done? <==> sc in gb.scRefs
      ensures Unbind(gb.pool, key).Done? <==> key !in gb.affinityMap || gb.affinityMap[key] in gb.scRefs
    {
      AffinitySucceedsIff(gb.pool, key, sc);
      hide Sound;
    }

    /** The loop over the keys of the reply. */
    method BindKeys(scRef: SubConnRef, bindKeys: seq<string>) returns (fine: bool)
      requires gb.Valid() && scRef in gb.pool.objs
      modifies gb`affinityMap, gb`pool, gb.pool.objs.Keys`affinityCnt
      ensures fine <==> BindAll(old(gb.pool), bindKeys, old(scRef.subConn)).Done?
      ensures fine ==> gb.Valid() && BindAll(old(gb.pool), bindKeys, old(scRef.subConn)) == Done(gb.pool)
    {
      ghost var s := gb.pool;
      var sc := scRef.subConn;
      for i := 0 to |bindKeys|
        invariant gb.Valid() && gb.pool.objs.Keys == s.objs.Keys && scRef.subConn == sc
        invariant BindAll(s, bindKeys[..i], sc) == Done(gb.pool)
      {
        CommandSucceedsIff(bindKeys[i], sc);
        BindAllNext(s, bindKeys, i, sc);
        hide GcpBalancer.Valid, BindAll;
        fine := gb.BindSubConn(bindKeys[i], scRef.subConn);
        if !fine {
          CrashStays(s, bindKeys, i + 1, sc);
          return;
        }
      }
      assert bindKeys[..|bindKeys|] == bindKeys;
      return true;
    }

    /**
     fine is false when a nil pointer is dereferenced: a key is bound to, or was bound to, a subconn that is not live,
     or a BIND call has no gcp context.
     */
    method Command(cb: Callback, replyMsg: Option<Value>, title: Title) returns (fine: bool)
      requires gb.Valid() && cb.scRef in gb.pool.objs
      modifies gb`affinityMap, gb`pool, gb.pool.objs.Keys`affinityCnt
      ensures fine <==> Commanded(old(gb.pool), cb, replyMsg, title).Done?
      ensures fine ==> gb.Valid() && Commanded(old(gb.pool), cb, replyMsg, title) == Done(gb.pool)
    {
      assert cb.scRef.Data() == gb.pool.objs[cb.scRef];
      CommandSucceedsIff(cb.boundKey, 0);
      hide GcpBalancer.Valid, BindAll, Unbind, KeysFrom, Split;
      match cb.cmd {
        case BOUND => return true;
        case UNBIND => fine := gb.UnbindSubConn(cb.boundKey);
        case BIND =>
          if replyMsg.None? {
            return false;
          }
          var bindKeys := GetAffinityKeysFromMessage(cb.locator, replyMsg.value, title);
          if bindKeys.Failed? {
            return true;
          }
          fine := BindKeys(cb.scRef, bindKeys.keys);
      }
    }

    /** The Done callback. fine is false when its affinity command fails. */
    method Finish(cb: Callback, rpcErr: RpcError, deadline: Option<int>, replyMsg: Option<Value>, title: Title,
                  ok: bool, ghost id: nat)
      returns (fine: bool)
      requires gb.Valid() && gb.cfg.Some? && id in gb.pool.calls && gb.pool.calls[id] == Call(cb.scRef, cb.callStarted)
      modifies gb`affinityMap, gb`pool, gb`refreshingScRefs, gb`created, gb.pool.objs.Keys
      ensures cb.scRef in old(gb.pool).objs && old(gb.pool).cfg.Some?
      ensures var done := AfterDone(old(gb.pool), cb, rpcErr, TimedOut(rpcErr, deadline, gb.now), replyMsg, title, ok,
                                    id);
        && (fine <==> done.Done?)
        && (fine ==> gb.Valid() && done == Outcome.Done(gb.pool))
    {
      CallIsKnown(cb, id);
      AfterDoneIs(gb.pool, cb, rpcErr, TimedOut(rpcErr, deadline, gb.now), replyMsg, title, ok, id);
      hide GcpBalancer.Valid, Commanded, PoolSpec.DetectUnresponsive, AfterDone;
      End(cb, id);
      DetectUnresponsive(cb.scRef, cb.callStarted, rpcErr, deadline, ok);
      if rpcErr != NoError {
        return true;
      }
      fine := Command(cb, replyMsg, title);
    }

    lemma CallIsKnown(cb: Callback, id: nat)
      requires gb.Valid() && gb.cfg.Some? && id in gb.pool.calls && gb.pool.calls[id] == Call(cb.scRef, cb.callStarted)
      ensures cb.scRef in gb.pool.objs && gb.cfg == gb.pool.cfg
    {
      hide Indexed;
    }
  }
}
