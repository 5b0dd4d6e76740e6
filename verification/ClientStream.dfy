/**
 The lazily created client stream of gcp_interceptor.go: any number of goroutines call SendMsg and
 RecvMsg; the first SendMsg creates the real stream and wakes the receivers that came too early.

 A step is what one goroutine does between two points where others can run: a critical section, a
 Broadcast, or a call on the real stream.
 */
module ClientStreams {
  import opened Options

  type Thread = nat

  datatype Pc =
    | Outside
    | MustBroadcast(failed: bool) // left SendMsg's critical section
    | InSend // calls SendMsg of the real stream
    | InWait // in the wait set of the condition variable
    | Woken // has to take the lock and test the loop condition again
    | InRecv // calls RecvMsg of the real stream

  datatype State = State(
    clientStream: Option<nat>,
    initStreamErr: bool,
    created: nat, // real streams the streamer has returned
    pcs: map<Thread, Pc>)
  {
    ghost function At(t: Thread): Pc {
      if t in pcs then pcs[t] else Outside
    }

    ghost predicate Resolved() {
      initStreamErr || clientStream.Some?
    }
  }

  datatype Step =
    | SendLocked(t: Thread, ok: bool) // ok: the streamer, if called, returns a stream
    | Broadcast(t: Thread)
    | SendDone(t: Thread)
    | RecvLocked(t: Thread) // one evaluation of RecvMsg's loop condition
    | RecvDone(t: Thread)

  ghost predicate Enabled(s: State, step: Step) {
    match step
    case SendLocked(t, _) => s.At(t) == Outside
    case Broadcast(t) => s.At(t).MustBroadcast?
    case SendDone(t) => s.At(t) == InSend
    case RecvLocked(t) => s.At(t) == Outside || s.At(t) == Woken
    case RecvDone(t) => s.At(t) == InRecv
  }

  ghost function AfterSendLocked(s: State, t: Thread, ok: bool): State {
    if s.clientStream.Some? then
      s.(pcs := s.pcs[t := MustBroadcast(false)])
    else if ok then
      s.(clientStream := Some(s.created), created := s.created + 1, pcs := s.pcs[t := MustBroadcast(false)])
    else
      s.(initStreamErr := true, pcs := s.pcs[t := MustBroadcast(true)])
  }

  ghost function WakeAll(pcs: map<Thread, Pc>): map<Thread, Pc> {
    map t | t in pcs :: if pcs[t] == InWait then Woken else pcs[t]
  }

  ghost function AfterBroadcast(s: State, t: Thread): State
    requires s.At(t).MustBroadcast?
  {
    s.(pcs := WakeAll(s.pcs)[t := if s.At(t).failed then Outside else InSend])
  }

  ghost function AfterRecvLocked(s: State, t: Thread): State {
    s.(pcs := s.pcs[t :=
      if s.initStreamErr then Outside
      else if s.clientStream.Some? then InRecv
      else InWait])
  }

  ghost function Apply(s: State, step: Step): State
    requires Enabled(s, step)
  {
    match step
    case SendLocked(t, ok) => AfterSendLocked(s, t, ok)
    case Broadcast(t) => AfterBroadcast(s, t)
    case RecvLocked(t) => AfterRecvLocked(s, t)
    case SendDone(t) => s.(pcs := s.pcs[t := Outside])
    case RecvDone(t) => s.(pcs := s.pcs[t := Outside])
  }

  const START := State(None, false, 0, map[])

  ghost predicate Legal(steps: seq<Step>)
    decreases |steps|, 0
  {
    |steps| == 0 ||
    (Legal(steps[..|steps| - 1]) && Enabled(After(steps[..|steps| - 1]), steps[|steps| - 1]))
  }

  ghost function After(steps: seq<Step>): State
    requires Legal(steps)
    decreases |steps|, 1
  {
    if |steps| == 0 then START
    else Apply(After(steps[..|steps| - 1]), steps[|steps| - 1])
  }

  // ----- every run

  ghost predicate Inv(s: State) {
    && (s.Resolved() ==> forall t | s.At(t) == InWait :: exists u :: s.At(u).MustBroadcast?)
    && (forall t | s.At(t) == InSend || s.At(t) == InRecv || s.At(t) == MustBroadcast(false) :: s.clientStream.Some?)
    && (forall t | s.At(t) == MustBroadcast(true) :: s.initStreamErr)
    && (s.clientStream == if s.created == 0 then None else Some(0))
    && s.created <= 1
  }

  lemma StepKeeps(s: State, step: Step)
    requires Inv(s) && Enabled(s, step)
    ensures Inv(Apply(s, step))
  {
    var r := Apply(s, step);
    assert forall t | t != step.t :: r.At(t) == s.At(t) || (s.At(t) == InWait && r.At(t) == Woken);
    forall t | r.Resolved() && r.At(t) == InWait
      ensures exists u :: r.At(u).MustBroadcast?
    {
      if step.SendLocked? {
        assert r.At(step.t).MustBroadcast?;
      } else {
        assert s.At(t) == InWait;
        var u :| s.At(u).MustBroadcast?;
        assert r.At(u).MustBroadcast?;
      }
    }
  }

  lemma {:induction false} RunKeeps(steps: seq<Step>)
    requires Legal(steps)
    ensures Inv(After(steps))
    decreases |steps|
  {
    if |steps| > 0 {
      RunKeeps(steps[..|steps| - 1]);
      StepKeeps(After(steps[..|steps| - 1]), steps[|steps| - 1]);
    }
  }

  /**
   No lost wake-up: a receiver still in the wait set after the stream was created, or its creation
   failed, is about to be woken by a sender on its way to Broadcast.
   */
  lemma NoLostWakeup(steps: seq<Step>, t: Thread)
    requires Legal(steps) && After(steps).Resolved() && After(steps).At(t) == InWait
    ensures exists u :: After(steps).At(u).MustBroadcast?
  {
    RunKeeps(steps);
  }

  /** At most one real stream is ever created, and no call reaches a nil stream. */
  lemma OneStreamNeverNil(steps: seq<Step>)
    requires Legal(steps)
    ensures After(steps).created <= 1
    ensures forall t | After(steps).At(t) == InSend || After(steps).At(t) == InRecv ::
              After(steps).clientStream == Some(0)
  {
    RunKeeps(steps);
  }

  // ----- every receiver gets through

  /** A goroutine starts a new call; all other steps continue a call that is under way. */
  ghost predicate Starts(s: State, step: Step)
    requires Enabled(s, step)
  {
    s.At(step.t) == Outside
  }

  /** Nothing under way can continue: every goroutine inside a call is stuck. */
  ghost predicate Quiescent(s: State) {
    forall step | Enabled(s, step) :: Starts(s, step)
  }

  lemma Continuation(s: State, t: Thread) returns (step: Step)
    requires s.At(t) != Outside && s.At(t) != InWait
    ensures Enabled(s, step) && !Starts(s, step)
  {
    match s.At(t) {
      case MustBroadcast(_) => step := Broadcast(t);
      case InSend => step := SendDone(t);
      case Woken => step := RecvLocked(t);
      case InRecv => step := RecvDone(t);
    }
  }

  /** Only receivers can be stuck, and only as long as no SendMsg has created a stream or failed to. */
  lemma StuckOnlyBeforeFirstSend(steps: seq<Step>, t: Thread)
    requires Legal(steps) && Quiescent(After(steps)) && After(steps).At(t) != Outside
    ensures After(steps).At(t) == InWait && !After(steps).Resolved()
  {
    RunKeeps(steps);
    var s := After(steps);
    if s.At(t) != InWait {
      var step := Continuation(s, t);
    } else if s.Resolved() {
      var u :| s.At(u).MustBroadcast?;
      var step := Continuation(s, u);
    }
  }

  /** How far a goroutine is from the end of its call. */
  ghost function Distance(pc: Pc): nat {
    match pc
    case Outside => 0
    case InSend => 1
    case InRecv => 1
    case Woken => 2
    case MustBroadcast(_) => 2
    case InWait => 3
  }

  /**
   Once resolved it stays resolved, and a continuing step brings its goroutine nearer to the end of the call and no
   other one back.
   */
  lemma StepGetsNearer(s: State, step: Step)
    requires Inv(s) && s.Resolved() && Enabled(s, step) && !Starts(s, step)
    ensures var r := Apply(s, step);
      && r.Resolved()
      && Distance(r.At(step.t)) < Distance(s.At(step.t))
      && forall t :: Distance(r.At(t)) <= Distance(s.At(t))
  {
  }

  /** The sum of the distances of goroutines 0 to n - 1. */
  ghost function Total(s: State, n: nat): nat {
    if n == 0 then 0 else Total(s, n - 1) + Distance(s.At(n - 1))
  }

  lemma {:induction false} TotalFalls(s: State, r: State, t: Thread, n: nat)
    requires Distance(r.At(t)) < Distance(s.At(t))
    requires forall u :: Distance(r.At(u)) <= Distance(s.At(u))
    ensures Total(r, n) <= Total(s, n) && (t < n ==> Total(r, n) < Total(s, n))
    decreases n
  {
    if n > 0 {
      TotalFalls(s, r, t, n - 1);
    }
  }

  /** All goroutines that have taken a step are below this number. */
  ghost function Bound(steps: seq<Step>): nat {
    if |steps| == 0 then 0
    else
      var b := Bound(steps[..|steps| - 1]);
      var t := steps[|steps| - 1].t;
      if t < b then b else t + 1
  }

  lemma {:induction false} OthersAreOutside(steps: seq<Step>, t: Thread)
    requires Legal(steps) && t >= Bound(steps)
    ensures After(steps).At(t) == Outside
    decreases |steps|
  {
    if |steps| > 0 {
      OthersAreOutside(steps[..|steps| - 1], t);
    }
  }

  /** From the n-th on, no step starts a call. */
  ghost predicate OnlyContinues(steps: seq<Step>, n: nat)
    requires Legal(steps)
    decreases |steps|
  {
    |steps| <= n ||
    (OnlyContinues(steps[..|steps| - 1], n) && !Starts(After(steps[..|steps| - 1]), steps[|steps| - 1]))
  }

  lemma {:induction false} ContinuingIsBounded(steps: seq<Step>, n: nat, b: nat)
    requires Legal(steps) && n <= |steps| && OnlyContinues(steps, n)
    requires Legal(steps[..n]) && After(steps[..n]).Resolved() && Bound(steps[..n]) <= b
    ensures After(steps).Resolved() && |steps| - n + Total(After(steps), b) <= Total(After(steps[..n]), b)
    ensures forall t | t >= b :: After(steps).At(t) == Outside
    decreases |steps|
  {
    if n < |steps| {
      var front := steps[..|steps| - 1];
      var step := steps[|steps| - 1];
      assert front[..n] == steps[..n];
      ContinuingIsBounded(front, n, b);
      RunKeeps(front);
      StepGetsNearer(After(front), step);
      TotalFalls(After(front), After(steps), step.t, b);
    } else {
      assert steps[..n] == steps;
      forall t | t >= b ensures After(steps).At(t) == Outside {
        OthersAreOutside(steps, t);
      }
    }
  }

  /**
   All calls end: once the stream has been created or its creation has failed, the goroutines under way can take no
   more steps, before one of them starts a new call, than the sum of their distances.
   */
  lemma CallsRunOut(steps: seq<Step>, n: nat)
    requires Legal(steps) && n <= |steps| && OnlyContinues(steps, n)
    ensures Legal(steps[..n])
    ensures After(steps[..n]).Resolved() ==> |steps| - n <= Total(After(steps[..n]), Bound(steps[..n]))
  {
    OutcomeIsFinal(steps, n);
    if After(steps[..n]).Resolved() {
      ContinuingIsBounded(steps, n, Bound(steps[..n]));
    }
  }

  /** The outcome of the init is final: the stream is never replaced and an init error is never withdrawn. */
  lemma {:induction false} OutcomeIsFinal(steps: seq<Step>, n: nat)
    requires Legal(steps) && n <= |steps|
    ensures Legal(steps[..n])
    ensures After(steps[..n]).initStreamErr ==> After(steps).initStreamErr
    ensures After(steps[..n]).clientStream.Some? ==> After(steps).clientStream == After(steps[..n]).clientStream
    decreases |steps|
  {
    if n < |steps| {
      var front := steps[..|steps| - 1];
      assert front[..n] == steps[..n];
      OutcomeIsFinal(front, n);
    } else {
      assert steps[..n] == steps;
    }
  }

  /**
   gcp_interceptor.go:117-130. After a failed init every RecvMsg returns the error, even if a later
   SendMsg created the stream after all; it reaches the stream exactly if it exists and no init failed.
   */
  lemma RecvOutcome(steps: seq<Step>, t: Thread)
    requires Legal(steps) && Enabled(After(steps), RecvLocked(t))
    ensures var s := After(steps);
      var pc := Apply(s, RecvLocked(t)).At(t);
      && (pc == Outside <==> exists n, u :: 0 <= n < |steps| && InitFails(steps, n, u))
      && (pc == InRecv <==> s.created == 1 && !s.initStreamErr)
  {
    RunKeeps(steps);
    if After(steps).initStreamErr {
      ErrorHasCause(steps);
    }
    if n, u :| 0 <= n < |steps| && InitFails(steps, n, u) {
      OutcomeIsFinal(steps, n + 1);
      assert steps[..n + 1][..n] == steps[..n];
    }
  }

  /** Goroutine t is in the SendMsg that it began at step n. */
  ghost predicate Sending(steps: seq<Step>, n: nat, t: Thread) {
    && n < |steps| && steps[n].SendLocked? && steps[n].t == t
    && forall i | n < i < |steps| :: steps[i].t != t
  }

  lemma {:induction false} SendBegan(steps: seq<Step>, t: Thread) returns (n: nat)
    requires Legal(steps) && After(steps).At(t).MustBroadcast?
    ensures Sending(steps, n, t) && (After(steps).At(t).failed <==> InitFails(steps, n, t))
    decreases |steps|
  {
    var front, step := steps[..|steps| - 1], steps[|steps| - 1];
    if step.t == t {
      n := |steps| - 1;
      assert step.SendLocked?;
    } else {
      n := SendBegan(front, t);
      assert front[..n] == steps[..n];
    }
  }

  /**
   gcp_interceptor.go:98-115. A SendMsg goes on to the stream unless it found none and could not create one; only then
   it returns. In either case every receiver that waits is woken.
   */
  lemma SendOutcome(steps: seq<Step>, t: Thread) returns (n: nat)
    requires Legal(steps) && Enabled(After(steps), Broadcast(t))
    ensures Sending(steps, n, t)
    ensures var s, r := After(steps), Apply(After(steps), Broadcast(t));
      && (r.At(t) == Outside <==> InitFails(steps, n, t))
      && (r.At(t) == InSend <==> !InitFails(steps, n, t)) && (r.At(t) == InSend ==> s.clientStream == Some(0))
      && forall u | u != t :: r.At(u) == if s.At(u) == InWait then Woken else s.At(u)
  {
    n := SendBegan(steps, t);
    RunKeeps(steps);
  }

  /** The n-th step is a SendMsg by u that finds no stream and fails to create one. */
  ghost predicate InitFails(steps: seq<Step>, n: nat, u: Thread)
    requires n < |steps|
  {
    steps[n] == SendLocked(u, false) && Legal(steps[..n]) && After(steps[..n]).clientStream.None?
  }

  lemma {:induction false} ErrorHasCause(steps: seq<Step>)
    requires Legal(steps) && After(steps).initStreamErr
    ensures exists n, u :: 0 <= n < |steps| && InitFails(steps, n, u)
    decreases |steps|
  {
    var n := |steps| - 1;
    var front := steps[..n];
    if After(front).initStreamErr {
      ErrorHasCause(front);
      var m, u :| 0 <= m < |front| && InitFails(front, m, u);
      assert front[..m] == steps[..m];
      assert InitFails(steps, m, u);
    } else {
      assert InitFails(steps, n, steps[n].t);
    }
  }

  // ----- the object

  class GcpClientStream {
    var clientStream: Option<nat>
    var initStreamErr: bool
    var waitSet: set<Thread> // of the condition variable
    var created: nat
    ghost var pcs: map<Thread, Pc>

    ghost function View(): State
      reads this
    {
      State(clientStream, initStreamErr, created, pcs)
    }

    ghost predicate Valid()
      reads this
    {
      waitSet == set t | t in pcs && pcs[t] == InWait
    }

    constructor ()
      ensures View() == START && Valid()
    {
      clientStream := None;
      initStreamErr := false;
      waitSet := {};
      created := 0;
      pcs := map[];
    }

    /** gcp_interceptor.go:99-112. The result says whether SendMsg goes on to the real stream. */
    method SendMsgLocked(t: Thread, streamerOk: bool) returns (goesOn: bool)
      requires Valid() && Enabled(View(), SendLocked(t, streamerOk))
      modifies this
      ensures View() == Apply(old(View()), SendLocked(t, streamerOk)) && Valid()
      ensures goesOn <==> View().At(t) == MustBroadcast(false)
    {
      if clientStream.None? {
        if !streamerOk {
          initStreamErr := true;
          pcs := pcs[t := MustBroadcast(true)];
          return false;
        }
        clientStream := Some(created);
        created := created + 1;
      }
      pcs := pcs[t := MustBroadcast(false)];
      goesOn := true;
    }

    /** gcp_interceptor.go:107, 113 */
    method BroadcastAll(t: Thread) returns (woken: set<Thread>)
      requires Valid() && Enabled(View(), Broadcast(t))
      modifies this
      ensures View() == Apply(old(View()), Broadcast(t)) && Valid()
      ensures woken == set u | u in old(pcs) && old(View()).At(u) == InWait
      ensures forall u | u in woken :: View().At(u) == Woken
    {
      woken := waitSet;
      waitSet := {};
      pcs := WakeAll(pcs)[t := if pcs[t].failed then Outside else InSend];
    }

    /** gcp_interceptor.go:120-128, one test of the loop condition: wait, fail, or go on to the stream. */
    method RecvMsgLocked(t: Thread) returns (waits: bool, fails: bool)
      requires Valid() && Enabled(View(), RecvLocked(t))
      modifies this
      ensures View() == Apply(old(View()), RecvLocked(t)) && Valid()
      ensures waits <==> View().At(t) == InWait
      ensures fails <==> View().At(t) == Outside
      ensures !waits && !fails && Inv(old(View())) ==> clientStream == Some(0)
    {
      waits, fails := false, false;
      if !initStreamErr && clientStream.None? {
        waitSet := waitSet + {t};
        pcs := pcs[t := InWait];
        waits := true;
      } else if initStreamErr {
        pcs := pcs[t := Outside];
        fails := true;
      } else {
        pcs := pcs[t := InRecv];
      }
    }
  }
}
