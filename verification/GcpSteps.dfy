/** The calls of the picker are steps of PoolSpec, so what is proved of all runs holds of the objects. */
module GcpSteps {
  import opened Options
  import opened PoolSpec
  import opened PoolPublication
  import opened PoolRefs
  import opened PoolStages
  import opened PoolReach
  import opened PoolWait
  import opened AffinityKeys
  import opened GcpBalancers
  import opened GcpPickers

  /** The steps are possible and lead from s to t. */
  ghost predicate Leads<R>(s: Pool<R>, steps: seq<Step<R>>, t: Pool<R>) {
    CanDo(s, steps) && Did(s, steps) == t
  }

  lemma LeadsNowhere<R>(s: Pool<R>)
    ensures Leads(s, [], s)
  {
  }

  lemma LeadsNow<R>(s: Pool<R>, action: Action<R>)
    requires Possible(s, action)
    ensures Leads(s, [Step(action, s.now)], Perform(s, action))
  {
    DidNow(s, action);
    hide Possible, Perform, CanDo, Did;
  }

  lemma LeadsOn<R>(s: Pool<R>, steps: seq<Step<R>>, m: Pool<R>, more: seq<Step<R>>, t: Pool<R>)
    requires Leads(s, steps, m) && Leads(m, more, t)
    ensures Leads(s, steps + more, t)
  {
    DidMore(s, steps, more);
    hide CanDo, Did;
  }

  lemma LeadsOnNow<R>(s: Pool<R>, steps: seq<Step<R>>, m: Pool<R>, action: Action<R>) returns (all: seq<Step<R>>)
    requires Leads(s, steps, m) && Possible(m, action)
    ensures Leads(s, all, Perform(m, action))
  {
    hide Possible, Perform, Leads;
    LeadsNow(m, action);
    LeadsOn(s, steps, m, [Step(action, m.now)], Perform(m, action));
    all := steps + [Step(action, m.now)];
  }

  // ----- picks, gcp_picker.go:55-173

  lemma OpenIsPossible<R>(s: Pool<R>, id: nat, r: R)
    requires s.cfg.Some? && r in s.objs && id !in s.calls
    ensures Possible(s, DoOpen(id, r)) && Perform(s, DoOpen(id, r)) == Open(s, id, r)
  {
  }

  /** A subconn that a pick asks for. */
  lemma GrowthSteps<R>(s: Pool<R>, refs: seq<R>, r: R) returns (acts: seq<Step<R>>)
    requires s.cfg.Some? && |refs| > 0 && (forall q | q in refs :: q in s.objs) && LeastBusy(s, refs) == Busy
    requires !SomePending(s) && r !in s.objs && s.issued + 1 < TWO_64
    ensures Leads(s, acts, AddSubConn(s, r))
  {
    var id := FreshNumber(s.admitted);
    GrowthIsPossible(s, id, refs, r);
    hide Possible, Perform, Leads, LeastBusy, SomePending;
    LeadsNow(s, DoAdmit(id, refs));
    acts := LeadsOnNow(s, [Step(DoAdmit(id, refs), s.now)], Perform(s, DoAdmit(id, refs)), DoGrow(id, r, true));
  }

  lemma LookupSteps<R>(s: Pool<R>, key: string) returns (acts: seq<Step<R>>)
    requires s.cfg.Some? && KnownPicker(s)
    ensures Leads(s, acts, AfterLookup(s, key))
  {
    var l := GetReadySubConnRef(s, key);
    if l.Panics? || l.Deadlocks? {
      LeadsNowhere(s);
      acts := [];
    } else {
      assert Possible(s, DoLookup(key)) && Perform(s, DoLookup(key)) == AfterLookup(s, key);
      hide Possible, Perform, Leads;
      LeadsNow(s, DoLookup(key));
      acts := [Step(DoLookup(key), s.now)];
    }
  }

  lemma ChoiceSteps(s: Pool<SubConnRef>, refs: seq<SubConnRef>, key: string, ok: bool, added: Option<SubConnRef>)
    returns (acts: seq<Step<SubConnRef>>)
    requires s.cfg.Some? && KnownPicker(s) && |refs| > 0 && (forall r | r in refs :: r in s.objs)
    requires (added.Some? <==> Creates(s, refs, key, ok)) && (added.Some? ==> added.value !in s.objs)
    requires s.issued + 1 < TWO_64
    ensures var t := AfterChoice(s, refs, key, added);
      Leads(s, acts, t) && t.calls == s.calls && t.cfg == s.cfg
  {
    hide Leads, GetReadySubConnRef, LeastBusy, SomePending;
    if Looked(s, key) != NotBound {
      acts := LookupSteps(s, key);
    } else if added.Some? {
      acts := GrowthSteps(s, refs, added.value);
    } else {
      LeadsNowhere(s);
      acts := [];
    }
  }

  lemma {:induction false} ChangesKeepCalls<R>(s: Pool<R>, steps: seq<Step<R>>)
    requires CanDo(s, steps) && forall i | 0 <= i < |steps| :: steps[i].action.DoStateChange?
    ensures Did(s, steps).calls == s.calls && Did(s, steps).cfg == s.cfg
    decreases |steps|
  {
    if |steps| > 0 {
      hide CanChange, PoolSpec.UpdateSubConnState;
      var n := |steps| - 1;
      ChangesKeepCalls(s, steps[..n]);
      var a := steps[n].action;
      ChangeOnRefs(Tick(Did(s, steps[..n]), steps[n].at), a.sc, a.st, a.order);
    }
  }

  lemma TicketIsPossible<R>(s: Pool<R>)
    requires s.scRefList != []
    ensures Possible(s, DoTicket) && Perform(s, DoTicket) == NextTicket(s)
  {
  }

  lemma TurnSteps(s: Pool<SubConnRef>, steps: seq<Step<SubConnRef>>, ended: seq<bool>, g: Got, id: nat,
                  t: Pool<SubConnRef>) returns (acts: seq<Step<SubConnRef>>)
    requires TakesTurn(s, steps, ended, g, id, t) && s.cfg.Some? && id !in s.calls
    ensures Leads(s, acts, t)
  {
    hide Possible, Perform, FoundReady, Steady, Open, CanDo, Did;
    var s1 := NextTicket(s);
    TicketIsPossible(s);
    LeadsNow(s, DoTicket);
    ChangesKeepCalls(s1, steps);
    var s2 := Did(s1, steps);
    LeadsOn(s, [Step(DoTicket, s.now)], s1, steps, s2);
    acts := [Step(DoTicket, s.now)] + steps;
    if g.Got? {
      OpenIsPossible(s2, id, g.ref);
      acts := LeadsOnNow(s, acts, s2, DoOpen(id, g.ref));
    }
  }

  /** What a pick does to the balancer are steps of the machine, the wait of a round-robin pick included. */
  lemma PickIsSteps(s: Pool<SubConnRef>, refs: seq<SubConnRef>, key: string, cmd: Command, ok: bool, ended: seq<bool>,
                    g: Got, added: Option<SubConnRef>, steps: seq<Step<SubConnRef>>, id: nat, t: Pool<SubConnRef>)
    returns (acts: seq<Step<SubConnRef>>)
    requires s.cfg.Some? && KnownPicker(s) && |refs| > 0 && forall r | r in refs :: r in s.objs
    requires Increments(s, refs, key, cmd, ok, ended, g, added, steps, id, t)
    requires id !in s.calls && s.issued + 1 < TWO_64
    ensures Leads(s, acts, t)
  {
    hide Leads, TakesTurn, AfterChoice, RefFor, Creates, Open, KnownPicker, Possible, Perform;
    if cmd == BIND && s.cfg.value.roundRobinBind {
      acts := TurnSteps(s, steps, ended, g, id, t);
    } else {
      acts := ChoiceSteps(s, refs, key, ok, added);
      var s1 := AfterChoice(s, refs, key, added);
      if g.Got? {
        OpenIsPossible(s1, id, g.ref);
        acts := LeadsOnNow(s, acts, s1, DoOpen(id, g.ref));
      }
    }
  }

  // ----- the Done callback, gcp_picker.go:93-118

  lemma {:induction false} BindAllSteps(s: Pool<SubConnRef>, keys: seq<string>, sc: SubConn)
    returns (acts: seq<Step<SubConnRef>>)
    requires BindAll(s, keys, sc).Done?
    ensures Leads(s, acts, BindAll(s, keys, sc).pool)
    decreases |keys|
  {
    hide Leads, Bind;
    if |keys| == 0 {
      LeadsNowhere(s);
      acts := [];
    } else {
      var n := |keys| - 1;
      acts := BindAllSteps(s, keys[..n], sc);
      acts := LeadsOnNow(s, acts, BindAll(s, keys[..n], sc).pool, DoBind(keys[n], sc));
    }
  }

  lemma CommandSteps(s: Pool<SubConnRef>, cb: Callback, replyMsg: Option<Value>, title: Title)
    returns (acts: seq<Step<SubConnRef>>)
    requires cb.scRef in s.objs && Commanded(s, cb, replyMsg, title).Done?
    ensures Leads(s, acts, Commanded(s, cb, replyMsg, title).pool)
  {
    hide Leads, Unbind, KeysFrom, Split, BindAll;
    LeadsNowhere(s);
    acts := [];
    match cb.cmd {
      case BOUND =>
      case UNBIND => acts := LeadsOnNow(s, [], s, DoUnbind(cb.boundKey));
      case BIND =>
        var keys := KeysFrom(replyMsg.value, Split(cb.locator), 0, title);
        if !keys.Failed? {
          acts := BindAllSteps(s, keys.keys, s.objs[cb.scRef].subConn);
        }
    }
  }

  lemma CloseIsPossible<R>(s: Pool<R>, id: nat, timedOut: bool, ok: bool)
    requires s.cfg.Some? && id in s.calls && s.calls[id].ref in s.objs && s.issued + 1 < TWO_64
    ensures Possible(s, DoClose(id, timedOut, ok))
    ensures Perform(s, DoClose(id, timedOut, ok))
      == PoolSpec.DetectUnresponsive(Close(s, id), s.calls[id].ref, s.calls[id].started, timedOut, ok)
  {
    hide PoolSpec.DetectUnresponsive;
  }

  /** What Done does are steps, detection and a refresh included, unless its affinity command crashes. */
  lemma FinishIsSteps(s: Pool<SubConnRef>, cb: Callback, rpcErr: RpcError, timedOut: bool, replyMsg: Option<Value>,
                      title: Title, ok: bool, id: nat) returns (acts: seq<Step<SubConnRef>>)
    requires s.cfg.Some? && id in s.calls && s.calls[id] == Call(cb.scRef, cb.callStarted) && cb.scRef in s.objs
    requires s.issued + 1 < TWO_64 && AfterDone(s, cb, rpcErr, timedOut, replyMsg, title, ok, id).Done?
    ensures Leads(s, acts, AfterDone(s, cb, rpcErr, timedOut, replyMsg, title, ok, id).pool)
  {
    hide Leads, PoolSpec.DetectUnresponsive, Commanded, Possible, Perform, AfterDone, Close;
    AfterDoneIs(s, cb, rpcErr, timedOut, replyMsg, title, ok, id);
    CloseIsPossible(s, id, timedOut, ok);
    LeadsNow(s, DoClose(id, timedOut, ok));
    acts := [Step(DoClose(id, timedOut, ok), s.now)];
    var m := Perform(s, DoClose(id, timedOut, ok));
    if rpcErr == NoError {
      var more := CommandSteps(m, cb, replyMsg, title);
      LeadsOn(s, acts, m, more, Commanded(m, cb, replyMsg, title).pool);
      acts := acts + more;
    }
  }

  /** The first update, once its loop has reached MinSize. */
  lemma ConfigureIsStep<R>(s: Pool<R>, c: Config, news: seq<R>)
    requires s.cfg.None? && |news| == WithDefaults(c).minSize && Distinct(news) && forall r | r in news :: r !in s.objs
    requires s.issued + |news| < TWO_64
    ensures Leads(s, [Step(DoConfigure(c, news), s.now)], Configure(s, c, news))
  {
    assert Possible(s, DoConfigure(c, news)) && Perform(s, DoConfigure(c, news)) == Configure(s, c, news);
    hide Possible, Perform, Leads, Configure;
    LeadsNow(s, DoConfigure(c, news));
  }

  /** So all of these go on with runs, and keep what is proved of them. */
  lemma {:induction false} LedRun<R>(run: Run<R>, acts: seq<Step<R>>, t: Pool<R>) returns (longer: Run<R>)
    requires run.Legal() && Leads(run.Final(), acts, t)
    ensures longer == run.(steps := run.steps + acts) && longer.Legal() && longer.Final() == t
    decreases |acts|
  {
    hide Enabled, Apply;
    if |acts| == 0 {
      longer := run;
    } else {
      var n := |acts| - 1;
      longer := LedRun(run, acts[..n], Did(run.Final(), acts[..n]));
      longer := Then(longer, acts[n]);
      assert run.steps + acts[..n] + [acts[n]] == run.steps + acts;
    }
  }
}
