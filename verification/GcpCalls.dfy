/** What a pick and its Done callback come to: which ref serves a key, and which keys are bound afterwards. */
module GcpCalls {
  import opened Options
  import opened PoolSpec
  import opened PoolIndex
  import opened PoolPublication
  import opened PoolRefs
  import opened PoolCounters
  import opened PoolFallback
  import opened PoolPicks
  import PoolConfig
  import opened PoolPending
  import opened PoolWait
  import opened AffinityKeys
  import opened MethodTable
  import opened GcpBalancers
  import opened GcpPickers

  // ----- what counts as a response, gcp_picker.go:129-151

  /**
   A call that ends by the deadline of its own context, and no earlier, is counted if it started no earlier than the
   last response; every other end is a response.
   */
  lemma ResponseOrTimeout(s: Pool<SubConnRef>, cb: Callback, rpcErr: RpcError, deadline: Option<int>,
                          replyMsg: Option<Value>, title: Title, ok: bool, id: nat)
    requires s.cfg.Some? && s.cfg.value.Detects()
    requires id in s.calls && s.calls[id] == Call(cb.scRef, cb.callStarted) && cb.scRef in s.objs
    requires rpcErr != NoError
    ensures var done := AfterDone(s, cb, rpcErr, TimedOut(rpcErr, deadline, s.now), replyMsg, title, ok, id);
      && done.Done? && cb.scRef in done.pool.objs
      && var ref, after := s.objs[cb.scRef], done.pool.objs[cb.scRef];
      if rpcErr == DeadlineExceeded(true) && deadline.Some? && s.now >= deadline.value then
        && after.lastResp == ref.lastResp && after.refreshCnt == ref.refreshCnt
        && after.deCalls == if cb.callStarted >= ref.lastResp then (ref.deCalls + 1) % TWO_32 else ref.deCalls
      else after.lastResp == s.now && after.deCalls == 0 && after.refreshCnt == 0
  {
    AfterDoneIs(s, cb, rpcErr, TimedOut(rpcErr, deadline, s.now), replyMsg, title, ok, id);
    CloseOnRefs(s, id, TimedOut(rpcErr, deadline, s.now), ok);
    hide PoolSpec.DetectUnresponsive, AfterDone, Close, Unresponsive;
  }

  /** A success is a response. */
  lemma SuccessIsResponse(s: Pool<SubConnRef>, cb: Callback, deadline: Option<int>, ok: bool, id: nat)
    requires s.cfg.Some? && s.cfg.value.Detects()
    requires id in s.calls && s.calls[id] == Call(cb.scRef, cb.callStarted) && cb.scRef in s.objs
    ensures var t := PoolSpec.DetectUnresponsive(Close(s, id), cb.scRef, cb.callStarted,
                                                 TimedOut(NoError, deadline, s.now), ok);
      && cb.scRef in t.objs
      && t.objs[cb.scRef].lastResp == s.now && t.objs[cb.scRef].deCalls == 0 && t.objs[cb.scRef].refreshCnt == 0
  {
    CloseOnRefs(s, id, TimedOut(NoError, deadline, s.now), ok);
    hide PoolSpec.DetectUnresponsive, Close, Unresponsive;
  }

  // ----- what the affinity commands do, gcp_picker.go:99-113

  /** The pool that Done leaves behind; it has not crashed. */
  ghost predicate Leaves(s: Pool<SubConnRef>, cb: Callback, rpcErr: RpcError, timedOut: bool, replyMsg: Option<Value>,
                         title: Title, ok: bool, id: nat, t: Pool<SubConnRef>)
  {
    && s.cfg.Some? && id in s.calls && s.calls[id] == Call(cb.scRef, cb.callStarted) && cb.scRef in s.objs
    && AfterDone(s, cb, rpcErr, timedOut, replyMsg, title, ok, id) == Done(t)
  }

  lemma LeavesByCommand(s: Pool<SubConnRef>, cb: Callback, rpcErr: RpcError, timedOut: bool, replyMsg: Option<Value>,
                        title: Title, ok: bool, id: nat, t: Pool<SubConnRef>) returns (m: Pool<SubConnRef>)
    requires Leaves(s, cb, rpcErr, timedOut, replyMsg, title, ok, id, t)
    ensures m.affinityMap == s.affinityMap && cb.scRef in m.objs && m.objs[cb.scRef].subConn == s.objs[cb.scRef].subConn
    ensures if rpcErr == NoError then Commanded(m, cb, replyMsg, title) == Done(t) else t == m
  {
    hide PoolSpec.DetectUnresponsive, AfterDone, Close, Commanded, Unresponsive, Heard;
    AfterDoneIs(s, cb, rpcErr, timedOut, replyMsg, title, ok, id);
    CloseSame(s, id);
    CloseOnRefs(s, id, timedOut, ok);
    HeardKeepsHandle(s.cfg.value, s.objs[cb.scRef].(streamsCnt := s.objs[cb.scRef].streamsCnt - 1),
                     s.calls[id].started, timedOut, s.now);
    m := PoolSpec.DetectUnresponsive(Close(s, id), cb.scRef, cb.callStarted, timedOut, ok);
  }

  lemma HeardKeepsHandle(c: Config, ref: Ref, started: int, timedOut: bool, now: int)
    ensures Heard(c, ref, started, timedOut, now).subConn == ref.subConn
  {
  }

  /** A call that failed, or whose method is BOUND or not configured, changes no binding. */
  lemma OthersLeaveBindings(s: Pool<SubConnRef>, cb: Callback, rpcErr: RpcError, timedOut: bool,
                            replyMsg: Option<Value>, title: Title, ok: bool, id: nat, t: Pool<SubConnRef>)
    requires Leaves(s, cb, rpcErr, timedOut, replyMsg, title, ok, id, t) && (rpcErr != NoError || cb.cmd == BOUND)
    ensures t.affinityMap == s.affinityMap
  {
    hide Leaves;
    var m := LeavesByCommand(s, cb, rpcErr, timedOut, replyMsg, title, ok, id, t);
  }

  /** An UNBIND call that succeeded has unbound its key, and no other. */
  lemma UnbindForgets(s: Pool<SubConnRef>, cb: Callback, timedOut: bool, replyMsg: Option<Value>, title: Title,
                      ok: bool,
                      id: nat, t: Pool<SubConnRef>)
    requires Leaves(s, cb, NoError, timedOut, replyMsg, title, ok, id, t) && cb.cmd == UNBIND
    ensures t.affinityMap == s.affinityMap - {cb.boundKey}
  {
    hide Leaves;
    var m := LeavesByCommand(s, cb, NoError, timedOut, replyMsg, title, ok, id, t);
    assert cb.boundKey !in m.affinityMap ==> m.affinityMap - {cb.boundKey} == m.affinityMap;
  }

  lemma {:induction false} BindAllBinds(s: Pool<SubConnRef>, keys: seq<string>, sc: SubConn)
    requires BindAll(s, keys, sc).Done?
    ensures BindAll(s, keys, sc).pool.affinityMap.Keys == s.affinityMap.Keys + set k | k in keys
    ensures forall k | k in BindAll(s, keys, sc).pool.affinityMap ::
      BindAll(s, keys, sc).pool.affinityMap[k] == if k in s.affinityMap then s.affinityMap[k] else sc
    decreases |keys|
  {
    if |keys| > 0 {
      var n := |keys| - 1;
      BindAllBinds(s, keys[..n], sc);
      assert keys == keys[..n] + [keys[n]];
    }
  }

  /**
   A BIND call that succeeded has bound every key its path reaches in the reply to the subconn of its ref, except those
   that were bound before, and no other; if a value is no key it has bound none.
   */
  lemma BindRemembers(s: Pool<SubConnRef>, cb: Callback, timedOut: bool, msg: Value, title: Title, ok: bool, id: nat,
                      t: Pool<SubConnRef>)
    requires Leaves(s, cb, NoError, timedOut, Some(msg), title, ok, id, t) && cb.cmd == BIND
    ensures !HasKeys(cb.locator, msg, title) ==> t.affinityMap == s.affinityMap
    ensures HasKeys(cb.locator, msg, title) ==>
      var keys := Texts(KeyValues(cb.locator, msg, title));
      && t.affinityMap.Keys == s.affinityMap.Keys + (set k | k in keys)
      && forall k | k in t.affinityMap ::
           t.affinityMap[k] == if k in s.affinityMap then s.affinityMap[k] else s.objs[cb.scRef].subConn
  {
    hide Leaves, KeysFrom, Split, Passable, Reached, BindAll;
    var m := LeavesByCommand(s, cb, NoError, timedOut, Some(msg), title, ok, id, t);
    KeysAreReachedValues(msg, Split(cb.locator), title);
    var keys := KeysFrom(msg, Split(cb.locator), 0, title);
    if keys.Keys? {
      BindAllBinds(m, keys.keys, m.objs[cb.scRef].subConn);
    }
  }

  lemma {:induction false} BindAllCrashesIff(s: Pool<SubConnRef>, keys: seq<string>, sc: SubConn)
    requires sc in s.scRefs ==> s.scRefs[sc] in s.objs
    ensures BindAll(s, keys, sc).Crash? <==> keys != [] && sc !in s.scRefs
    ensures BindAll(s, keys, sc).Done? ==>
      BindAll(s, keys, sc).pool.scRefs == s.scRefs && BindAll(s, keys, sc).pool.objs.Keys == s.objs.Keys
    decreases |keys|
  {
    if |keys| > 0 {
      BindAllCrashesIff(s, keys[..|keys| - 1], sc);
    }
  }

  lemma DetectKeepsLive(s: Pool<SubConnRef>, id: nat, timedOut: bool, ok: bool)
    requires s.cfg.Some? && id in s.calls && s.calls[id].ref in s.objs
    ensures PoolSpec.DetectUnresponsive(Close(s, id), s.calls[id].ref, s.calls[id].started, timedOut, ok).scRefs
      == s.scRefs
  {
    hide PoolSpec.DetectUnresponsive, Unresponsive, GotResp, CountedTimeout;
    var ref, refreshes := DetectShape(Close(s, id), s.calls[id].ref, s.calls[id].started, timedOut, ok);
  }

  lemma LiveIsListed(s: Pool<SubConnRef>)
    requires Steady(s)
    ensures forall sc | sc in s.scRefs :: s.scRefs[sc] in s.objs
  {
    hide Handles, Pending, Listed, Counted, UpToDate;
  }

  /**
   Done dereferences nil exactly after the success of a BIND call that has no gcp context, or whose reply has keys while
   the subconn of its ref is not live, or of an UNBIND call whose key is bound to a subconn that is not live.
   */
  lemma FinishCrashesIff(s: Pool<SubConnRef>, cb: Callback, rpcErr: RpcError, timedOut: bool, replyMsg: Option<Value>,
                         title: Title, ok: bool, id: nat)
    requires Steady(s) && s.cfg.Some?
    requires id in s.calls && s.calls[id] == Call(cb.scRef, cb.callStarted) && cb.scRef in s.objs
    ensures AfterDone(s, cb, rpcErr, timedOut, replyMsg, title, ok, id).Crash? <==>
      && rpcErr == NoError
      && (|| (cb.cmd == BIND &&
                (replyMsg.None?
                 || (&& HasKeys(cb.locator, replyMsg.value, title) && KeyValues(cb.locator, replyMsg.value, title) != []
                     && s.objs[cb.scRef].subConn !in s.scRefs)))
          || (cb.cmd == UNBIND && cb.boundKey in s.affinityMap && s.affinityMap[cb.boundKey] !in s.scRefs))
  {
    hide PoolSpec.DetectUnresponsive, AfterDone, Close, Unresponsive, Heard, KeysFrom, Split, Passable, Reached,
      BindAll,
      Steady;
    AfterDoneIs(s, cb, rpcErr, timedOut, replyMsg, title, ok, id);
    CloseSame(s, id);
    CloseOnRefs(s, id, timedOut, ok);
    HeardKeepsHandle(s.cfg.value, s.objs[cb.scRef].(streamsCnt := s.objs[cb.scRef].streamsCnt - 1),
                     s.calls[id].started, timedOut, s.now);
    DetectKeepsLive(s, id, timedOut, ok);
    LiveIsListed(s);
    var m := PoolSpec.DetectUnresponsive(Close(s, id), cb.scRef, cb.callStarted, timedOut, ok);
    if cb.cmd == BIND && replyMsg.Some? {
      KeysAreReachedValues(replyMsg.value, Split(cb.locator), title);
      var keys := KeysFrom(replyMsg.value, Split(cb.locator), 0, title);
      if keys.Keys? {
        BindAllCrashesIff(m, keys.keys, m.objs[cb.scRef].subConn);
      }
    }
  }

  // ----- round trips of whole calls

  /**
   A pick of an UNBIND method and the success of its call, whatever happened in between: the first key that the path
   reaches in the request is not bound afterwards.
   */
  lemma UnbindRoundTrip(affinity: Affinity, reqMsg: Value, title: Title, r: PickResult, s: Pool<SubConnRef>,
                        timedOut: bool, replyMsg: Option<Value>, ok: bool, id: nat, t: Pool<SubConnRef>,
                        u: Pool<SubConnRef>)
    requires affinity.command == UNBIND && r.Picked? && ForReachedKey(Some(affinity), Some(reqMsg), title, r)
    requires ForThisCall(Some(affinity), r, id, u)
    requires Leaves(s, r.done, NoError, timedOut, replyMsg, title, ok, id, t)
    ensures HasKeys(affinity.key, reqMsg, title) && KeyValues(affinity.key, reqMsg, title) != []
    ensures Texts(KeyValues(affinity.key, reqMsg, title))[0] !in t.affinityMap
  {
    hide HasKeys, KeyValues, Leaves;
    UnbindForgets(s, r.done, timedOut, replyMsg, title, ok, id, t);
  }

  /**
   A pick of a BIND method and the success of its call: every key that the path reaches in the reply is bound
   afterwards, and those that were not bound before to the subconn of the ref that was picked.
   */
  lemma BindRoundTrip(affinity: Affinity, title: Title, r: PickResult, s: Pool<SubConnRef>, timedOut: bool, msg: Value,
                      ok: bool, id: nat, t: Pool<SubConnRef>, u: Pool<SubConnRef>, key: string)
    requires affinity.command == BIND && r.Picked? && ForThisCall(Some(affinity), r, id, u)
    requires Leaves(s, r.done, NoError, timedOut, Some(msg), title, ok, id, t) && HasKeys(affinity.key, msg, title)
    requires key in Texts(KeyValues(affinity.key, msg, title))
    ensures r.done.scRef in s.objs && key in t.affinityMap
    ensures t.affinityMap[key] ==
      if key in s.affinityMap then s.affinityMap[key] else s.objs[r.done.scRef].subConn
  {
    BindRemembers(s, r.done, timedOut, msg, title, ok, id, t);
    hide HasKeys, KeyValues, AfterDone;
  }

  // ----- which ref serves a key, gcp_picker.go:153-217

  /**
   A pick that does not take turns, in every reachable state. A bound key gets the ref of its subconn whenever that is
   ready. Otherwise, with fallback, it gets the ref mapped to it, or else a least busy ready one; without, none. A pick
   without a bound key gets a least busy ref, or none if all are busy and the pool may grow.
   */
  lemma PickOutcome(run: Run<SubConnRef>, refs: seq<SubConnRef>, key: string, cmd: Command, ok: bool, ended: seq<bool>,
                    g: Got, added: Option<SubConnRef>, steps: seq<Step<SubConnRef>>, id: nat, t: Pool<SubConnRef>)
    requires run.Legal() && run.Final().cfg.Some? && |refs| > 0 && forall r | r in refs :: r in run.Final().objs
    requires KnownPicker(run.Final()) && !(cmd == BIND && run.Final().cfg.value.roundRobinBind)
    requires Increments(run.Final(), refs, key, cmd, ok, ended, g, added, steps, id, t)
    ensures var s := run.Final();
      if key == "" || key !in s.affinityMap then
        && (g == NoneAvailable <==>
              && |s.scRefs| < s.cfg.value.maxSize
              && forall r | r in refs :: s.objs[r].streamsCnt >= ToInt32(s.cfg.value.watermark))
        && (g != NoneAvailable ==>
              && g.Got? && g.ref in refs
              && forall r | r in refs :: s.objs[g.ref].streamsCnt <= s.objs[r].streamsCnt)
      else
        var sc := s.affinityMap[key];
        if s.StateOf(sc) == Ready then sc in s.scRefs && g == Got(s.scRefs[sc])
        else if !s.cfg.value.fallbackToReady then g == NoneAvailable
        else if key in s.fallbackMap then
          g == if s.fallbackMap[key] in s.scRefs then Got(s.scRefs[s.fallbackMap[key]]) else NoneAvailable
        else if forall c | c in s.scStates :: s.scStates[c] != Ready then g == Panicked
        else g == Deadlocked || (g.Got? && IsLeastBusyReady(s, g.ref))
    ensures var s := run.Final();
      added.Some? <==>
        && ok && (key == "" || key !in s.affinityMap) && |s.scRefs| < s.cfg.value.maxSize
        && (forall r | r in refs :: s.objs[r].streamsCnt >= ToInt32(s.cfg.value.watermark))
        && forall sc | sc in s.scStates :: s.scStates[sc] in {Ready, TransientFailure}
  {
    hide Run.Final, Run.Legal, RefFor, AfterChoice, Creates, LeastBusy, GetReadySubConnRef, KnownPicker, Steady;
    var s := run.Final();
    assert g == RefFor(s, refs, key) && (added.Some? <==> Creates(s, refs, key, ok));
    PoolConfig.ConfigIsAsked(run);
    RunIsSteady(run);
    NeverShutdown(s);
    CreatesIff(s, refs, key, ok);
    LeastBusyChooses(s, refs);
    hide Increments;
    if key == "" || key !in s.affinityMap {
      UnboundRef(s, refs, key);
    } else {
      BoundOutcome(run, refs, key);
    }
  }

  lemma BoundOutcome(run: Run<SubConnRef>, refs: seq<SubConnRef>, key: string)
    requires run.Legal() && run.Final().cfg.Some? && |refs| > 0 && forall r | r in refs :: r in run.Final().objs
    requires KnownPicker(run.Final()) && key != "" && key in run.Final().affinityMap
    ensures var s, g := run.Final(), RefFor(run.Final(), refs, key);
      var sc := s.affinityMap[key];
      if s.StateOf(sc) == Ready then sc in s.scRefs && g == Got(s.scRefs[sc])
      else if !s.cfg.value.fallbackToReady then g == NoneAvailable
      else if key in s.fallbackMap then
        g == if s.fallbackMap[key] in s.scRefs then Got(s.scRefs[s.fallbackMap[key]]) else NoneAvailable
      else if forall c | c in s.scStates :: s.scStates[c] != Ready then g == Panicked
      else g == Deadlocked || (g.Got? && IsLeastBusyReady(s, g.ref))
  {
    hide Run.Final, Run.Legal, RefFor, GetReadySubConnRef, KnownPicker, Resolved;
    BoundRef(run.Final(), refs, key);
    LookupOutcome(run, key);
    ResolvedIs(GetReadySubConnRef(run.Final(), key));
  }

  /**
   A round-robin pick ends exactly when its ref is ready at the last look or the context has ended by then; it takes the
   ref of the next ticket, whichever of the two it was, and the call begins in the state the wait ended in.
   */
  lemma TurnOutcome(s: Pool<SubConnRef>, steps: seq<Step<SubConnRef>>, ended: seq<bool>, g: Got, id: nat,
                    t: Pool<SubConnRef>)
    requires TakesTurn(s, steps, ended, g, id, t)
    ensures s.scRefList != [] && CanDo(NextTicket(s), steps) && |steps| < |ended|
    ensures var r := s.scRefList[(s.rrRefId + 1) % TWO_32 % |s.scRefList|];
      var u := Did(NextTicket(s), steps);
      && g in {Got(r), StillWaits}
      && (g == StillWaits ==> |steps| + 1 == |ended| && t == u)
      && (g == Got(r) ==>
            && (FoundReady(u, r) || ended[|steps|])
            && r in t.objs && id in t.calls && t.calls[id] == Call(r, u.now))
      && (FoundReady(u, r) ==> g == Got(r))
      && (forall i | 0 <= i < |steps| :: !ended[i])
  {
    hide FoundReady, Steady;
    PrefixesCanBeDone(NextTicket(s), steps);
  }

  lemma {:induction false} PrefixesCanBeDone<R>(s: Pool<R>, steps: seq<Step<R>>)
    requires CanDo(s, steps)
    ensures forall i | 0 <= i <= |steps| :: CanDo(s, steps[..i])
    decreases |steps|
  {
    assert steps[..|steps|] == steps;
    if |steps| > 0 {
      var front := steps[..|steps| - 1];
      PrefixesCanBeDone(s, front);
      assert forall i | 0 <= i <= |front| :: front[..i] == steps[..i];
    }
  }

  /** The result of a pick tells which ref was found, or why none was. */
  lemma ResultTells(s: Pool<SubConnRef>, refs: seq<SubConnRef>, key: string, mcfg: Option<Affinity>, ok: bool,
                    ended: seq<bool>, g: Got, added: Option<SubConnRef>, steps: seq<Step<SubConnRef>>, id: nat,
                    t: Pool<SubConnRef>, r: PickResult)
    requires s.cfg.Some? && KnownPicker(s) && |refs| > 0 && forall q | q in refs :: q in s.objs
    requires PicksFor(s, refs, key, mcfg, ok, ended, g, added, steps, id, t, r)
    ensures (r.Picked? <==> g.Got?) && (r.Picked? ==> r.done.scRef == g.ref && r.done.boundKey == key)
    ensures (r == NotAvailable <==> g == NoneAvailable) && (r == Waiting <==> g == StillWaits)
    ensures (r == Panic <==> g == Panicked) && (r == Deadlock <==> g == Deadlocked)
  {
    hide Increments;
  }

  /** The ref gains the call that has begun, and the pool the subconn that was created, if any. */
  lemma PickEffect(s: Pool<SubConnRef>, refs: seq<SubConnRef>, key: string, cmd: Command, ok: bool, ended: seq<bool>,
                   g: Got, added: Option<SubConnRef>, steps: seq<Step<SubConnRef>>, id: nat, t: Pool<SubConnRef>)
    requires s.cfg.Some? && |refs| > 0 && (forall r | r in refs :: r in s.objs) && KnownPicker(s)
    requires !(cmd == BIND && s.cfg.value.roundRobinBind)
    requires Increments(s, refs, key, cmd, ok, ended, g, added, steps, id, t)
    ensures g.Got? ==>
      && id in t.calls && t.calls[id] == Call(g.ref, s.now) && g.ref in t.objs
      && (g.ref in s.objs ==> t.objs[g.ref].streamsCnt == s.objs[g.ref].streamsCnt + 1)
    ensures added.Some? ==>
      t.scStates == s.scStates[s.issued := Idle] && t.scRefs == s.scRefs[s.issued := added.value]
    ensures added.None? ==> t.scStates == s.scStates && t.scRefs == s.scRefs
    ensures t.affinityMap == s.affinityMap && t.cfg == s.cfg && t.now == s.now
  {
    hide RefFor, KnownPicker, Creates, Resolved;
    ChoiceEffect(s, refs, key, ok, added);
    hide AfterChoice;
  }

  lemma ChoiceEffect(s: Pool<SubConnRef>, refs: seq<SubConnRef>, key: string, ok: bool, added: Option<SubConnRef>)
    requires s.cfg.Some? && KnownPicker(s) && |refs| > 0 && forall r | r in refs :: r in s.objs
    requires (added.Some? <==> Creates(s, refs, key, ok)) && (added.Some? ==> added.value !in s.objs)
    ensures var t := AfterChoice(s, refs, key, added);
      && t.calls == s.calls && t.affinityMap == s.affinityMap && t.cfg == s.cfg && t.now == s.now
      && (forall r | r in s.objs :: r in t.objs && t.objs[r] == s.objs[r])
      && t.scStates == (if added.Some? then s.scStates[s.issued := Idle] else s.scStates)
      && t.scRefs == (if added.Some? then s.scRefs[s.issued := added.value] else s.scRefs)
  {
    hide LeastBusy, GetReadySubConnRef, KnownPicker, SomePending, AfterLookup, RefFor;
    LookupOnlyMaps(s, key);
  }

  lemma LookupOnlyMaps(s: Pool<SubConnRef>, key: string)
    requires s.cfg.Some? && KnownPicker(s)
    ensures AfterLookup(s, key) == s.(fallbackMap := AfterLookup(s, key).fallbackMap)
  {
    hide GetReadySubConnRef;
  }

  lemma UnboundRef(s: Pool<SubConnRef>, refs: seq<SubConnRef>, key: string)
    requires s.cfg.Some? && KnownPicker(s) && |refs| > 0 && forall r | r in refs :: r in s.objs
    requires key == "" || key !in s.affinityMap
    ensures RefFor(s, refs, key) == if LeastBusy(s, refs).Chosen? then Got(LeastBusy(s, refs).ref) else NoneAvailable
  {
    hide LeastBusy;
  }

  lemma CreatesIff(s: Pool<SubConnRef>, refs: seq<SubConnRef>, key: string, ok: bool)
    requires s.cfg.Some? && KnownPicker(s) && |refs| > 0 && forall r | r in refs :: r in s.objs
    ensures Creates(s, refs, key, ok) <==>
      && ok && (key == "" || key !in s.affinityMap) && LeastBusy(s, refs) == Busy
      && forall sc | sc in s.scStates :: s.scStates[sc] != Connecting && s.scStates[sc] != Idle
  {
    hide LeastBusy, LeastIndex;
  }

  lemma NeverShutdown<R>(s: Pool<R>)
    requires Steady(s)
    ensures forall sc | sc in s.scStates :: s.scStates[sc] != Shutdown
  {
    hide Handles, Pending, Listed, Counted, UpToDate;
  }

  lemma BoundRef(s: Pool<SubConnRef>, refs: seq<SubConnRef>, key: string)
    requires s.cfg.Some? && KnownPicker(s) && |refs| > 0 && forall r | r in refs :: r in s.objs
    requires key != "" && key in s.affinityMap
    ensures RefFor(s, refs, key) == Resolved(GetReadySubConnRef(s, key))
  {
    hide LeastBusy, Resolved, LeastIndex;
  }

  lemma ResolvedIs(l: Lookup<SubConnRef>)
    ensures match l
      case Found(r) => Resolved(l) == Got(r)
      case NewFallback(r) => Resolved(l) == Got(r)
      case Panics => Resolved(l) == Panicked
      case Deadlocks => Resolved(l) == Deadlocked
      case NotReady => Resolved(l) == NoneAvailable
      case NotBound => true
  {
  }
}
