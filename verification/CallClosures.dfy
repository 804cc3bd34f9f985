/** Calls by CallMethodWithClosure.  The end of a handler wakes nobody; the closure that does so is in
    the hands of user code, which may run it at any time, from any thread, and any number of times.
    CallMethod is the discipline that runs it once, just before the handler returns. */
module CallClosures {
  import opened Options
  import Runs
  import opened Scheduler
  import opened SchedulerInvariant
  import opened SchedulerSteps
  import opened SchedulerCalls

  datatype ClosureAction =
    | DoStep(a: Action)
    | DoHandlerReturn(w: nat)
    | DoRunClosure(id: nat)

  // The handler of call id has been given its closure
  ghost predicate Taken(st: State, id: nat) {
    && id in st.calls && st.calls[id].dest in st.ctxs
    && var c := st.ctxs[st.calls[id].dest];
       exists i: nat :: CallAt(st, st.calls[id].dest, i, id) && i < |c.handled| + |InHand(c)|
  }

  /** The end of HandleMessage, without the closure. */
  function HandlerReturn(st: State, w: nat): State
    requires HasCurrent(st, w) && Current(st, w).inHand.Some?
  {
    var c := Current(st, w);
    SetCurrent(st, w, c.(inHand := None, handled := c.handled + [c.inHand.value]), Loop)
  }

  /** The closure of call id: WakeUp(src, kResponse).  `completed` are the calls whose closure has been
      run at least once. */
  function RunClosure(st: State, id: nat): State
    requires id in st.calls && st.calls[id].caller in st.ctxs
  {
    WakeupLocked(st, st.calls[id].caller, Response).(completed := st.completed + {id})
  }

  ghost predicate Can(st: State, a: ClosureAction) {
    match a
    case DoStep(b) => !b.DoHandlerDone? && Enabled(st, b)
    case DoHandlerReturn(w) => AtPc(st, w, Run) && Current(st, w).inHand.Some?
    case DoRunClosure(id) => Taken(st, id) && st.calls[id].caller in st.ctxs
  }

  ghost function After(st: State, a: ClosureAction): State
    requires Can(st, a)
  {
    match a
    case DoStep(b) => Next(st, b)
    case DoHandlerReturn(w) => HandlerReturn(st, w)
    case DoRunClosure(id) => RunClosure(st, id)
  }

  /** acts[i] leads from run[i] to run[i + 1]. */
  ghost predicate IsPath(run: seq<State>, acts: seq<ClosureAction>) {
    && |run| == |acts| + 1
    && forall i :: 0 <= i < |acts| ==> Can(run[i], acts[i]) && run[i + 1] == After(run[i], acts[i])
  }

  // A run together with its actions
  ghost predicate IsClosureRun(run: seq<State>, acts: seq<ClosureAction>) {
    IsPath(run, acts) && Init(run[0])
  }

  /** Responses are matched: one is pending only for the call its service is in, and only after the
      closure of that call was run; and no call has returned before. */
  ghost predicate Matched(st: State) {
    && st.returned <= st.completed
    && forall s :: s in st.ctxs && Response in st.ctxs[s].events ==>
         st.ctxs[s].calling.Some? && st.ctxs[s].calling.value in st.completed
  }

  /** A closure is run in time if its call is still outstanding, or if the caller has a response
      pending already. */
  predicate Timely(st: State, id: nat)
    requires id in st.calls && st.calls[id].caller in st.ctxs
  {
    var c := st.ctxs[st.calls[id].caller];
    c.calling == Some(id) || Response in c.events
  }

  // ---------------------------------------------------------------- the invariant

  ghost predicate CallKnown(st: State, id: nat)
    requires id in st.calls
  {
    && st.calls[id].caller in st.ctxs
    && (id !in st.completed ==> st.ctxs[st.calls[id].caller].calling == Some(id))
  }

  ghost predicate ClosuresOk(st: State) {
    && st.returned <= st.completed <= st.calls.Keys
    && (forall s {:trigger CallerOk(st, s)} :: s in st.ctxs ==> CallerOk(st, s))
    && (forall id {:trigger CallKnown(st, id)} :: id in st.calls ==> CallKnown(st, id))
  }

  lemma OkIsMatched(st: State)
    requires ClosuresOk(st)
    ensures Matched(st)
  {
    forall s | s in st.ctxs && Response in st.ctxs[s].events
      ensures st.ctxs[s].calling.Some? && st.ctxs[s].calling.value in st.completed
    {
      assert CallerOk(st, s);
    }
  }

  lemma FramedKeepsClosures(st: State, st': State)
    requires ClosuresOk(st) && CallsFramed(st, st')
    ensures ClosuresOk(st')
  {
    forall s | s in st'.ctxs ensures CallerOk(st', s) {
      if s in st.ctxs { assert CallerOk(st, s); }
    }
    forall id | id in st'.calls ensures CallKnown(st', id) { assert CallKnown(st, id); }
  }

  lemma ReturnsKeepsClosures(st: State, st': State, s: nat)
    requires ClosuresOk(st) && ReturnsCall(st, st', s)
    ensures ClosuresOk(st')
  {
    assert CallerOk(st, s);
    forall x | x in st'.ctxs ensures CallerOk(st', x) { assert CallerOk(st, x); }
    forall id | id in st'.calls ensures CallKnown(st', id) { assert CallKnown(st, id); }
  }

  lemma SendsKeepsClosures(st: State, st': State, s: nat, d: nat, id: nat)
    requires ClosuresOk(st) && s in st.ctxs && d in st.ctxs && SendsCall(st, st', s, d, id)
    ensures ClosuresOk(st')
  {
    forall x | x in st'.ctxs ensures CallerOk(st', x) { assert CallerOk(st, x) && CallerOk(st, s); }
    forall m | m in st'.calls ensures CallKnown(st', m) {
      if m != id { assert CallKnown(st, m); }
    }
  }

  lemma HandlerReturnKeeps(st: State, w: nat)
    requires StructOk(st) && ClosuresOk(st) && Can(st, DoHandlerReturn(w))
    ensures StructOk(HandlerReturn(st, w)) && ClosuresOk(HandlerReturn(st, w))
  {
    var st' := HandlerReturn(st, w);
    MessageDoneKeepsStruct(st, w);
    forall s | s in st'.ctxs ensures CallerOk(st', s) { assert CallerOk(st, s); }
    forall id | id in st'.calls ensures CallKnown(st', id) { assert CallKnown(st, id); }
  }

  lemma RunClosureKeepsStruct(st: State, id: nat)
    requires StructOk(st) && id in st.calls && st.calls[id].caller in st.ctxs
    ensures StructOk(RunClosure(st, id))
  {
    WakeupKeepsStruct(st, st.calls[id].caller, Response);
    HistoryKeepsStruct(WakeupLocked(st, st.calls[id].caller, Response), RunClosure(st, id));
  }

  lemma TimelyKeepsClosures(st: State, id: nat)
    requires ClosuresOk(st) && id in st.calls && st.calls[id].caller in st.ctxs && Timely(st, id)
    ensures ClosuresOk(RunClosure(st, id))
  {
    var st' := RunClosure(st, id);
    var s := st.calls[id].caller;
    WakeupEffect(st, s, Response);
    assert CallerOk(st, s);
    forall x | x in st'.ctxs ensures CallerOk(st', x) { assert CallerOk(st, x); }
    forall m | m in st'.calls ensures CallKnown(st', m) { assert CallKnown(st, m); }
  }

  lemma StepKeeps(st: State, a: Action)
    requires StructOk(st) && ClosuresOk(st) && Can(st, DoStep(a))
    ensures StructOk(Next(st, a)) && ClosuresOk(Next(st, a))
  {
    NextKeepsStruct(st, a);
    NextCallEffect(st, a);
    if CallsFramed(st, Next(st, a)) {
      FramedKeepsClosures(st, Next(st, a));
    } else if ReturnsCall(st, Next(st, a), st.workers[a.w].current) {
      ReturnsKeepsClosures(st, Next(st, a), st.workers[a.w].current);
    } else {
      SendsKeepsClosures(st, Next(st, a), st.workers[a.w].current, a.dest, a.id);
    }
  }

  predicate InTime(st: State, a: ClosureAction)
    requires a.DoRunClosure? ==> a.id in st.calls && st.calls[a.id].caller in st.ctxs
  {
    a.DoRunClosure? ==> Timely(st, a.id)
  }

  lemma AfterKeeps(st: State, a: ClosureAction)
    requires StructOk(st) && ClosuresOk(st) && Can(st, a) && InTime(st, a)
    ensures StructOk(After(st, a)) && ClosuresOk(After(st, a))
  {
    match a
    case DoStep(b) => StepKeeps(st, b);
    case DoHandlerReturn(w) => HandlerReturnKeeps(st, w);
    case DoRunClosure(id) =>
      RunClosureKeepsStruct(st, id);
      TimelyKeepsClosures(st, id);
  }

  // ---------------------------------------------------------------- theorems

  /** Running a closure keeps responses matched exactly if it is run in time. */
  lemma TimelyExactly(st: State, id: nat)
    requires ClosuresOk(st) && id in st.calls && st.calls[id].caller in st.ctxs
    ensures Matched(RunClosure(st, id)) <==> Timely(st, id)
  {
    var s := st.calls[id].caller;
    WakeupEffect(st, s, Response);
    if Timely(st, id) {
      TimelyKeepsClosures(st, id);
      OkIsMatched(RunClosure(st, id));
    } else {
      assert CallerOk(st, s);
      assert Response in RunClosure(st, id).ctxs[s].events;
    }
  }

  lemma {:induction false} InTimeKeeps(run: seq<State>, acts: seq<ClosureAction>, i: nat)
    requires IsClosureRun(run, acts) && i < |run|
    requires forall k :: 0 <= k < i ==> InTime(run[k], acts[k])
    ensures StructOk(run[i]) && ClosuresOk(run[i])
    decreases i
  {
    if i == 0 {
      InitInv(run[0]);
      assert run[0].calls == map[];
    } else {
      InTimeKeeps(run, acts, i - 1);
      AfterKeeps(run[i - 1], acts[i - 1]);
    }
  }

  /** Responses are matched in every state of a run, whatever services, threads and handlers do,
      exactly if every closure that is run is run in time. */
  lemma RunMatchedExactly(run: seq<State>, acts: seq<ClosureAction>)
    requires IsClosureRun(run, acts)
    ensures (forall i :: 0 <= i < |run| ==> Matched(run[i])) <==>
      (forall i :: 0 <= i < |acts| ==> InTime(run[i], acts[i]))
  {
    if forall i :: 0 <= i < |acts| ==> InTime(run[i], acts[i]) {
      forall i | 0 <= i < |run| ensures Matched(run[i]) {
        InTimeKeeps(run, acts, i);
        OkIsMatched(run[i]);
      }
    } else {
      var i := FirstLate(run, acts);
      InTimeKeeps(run, acts, i);
      TimelyExactly(run[i], acts[i].id);
      assert !Matched(run[i + 1]);
    }
  }

  lemma FirstLate(run: seq<State>, acts: seq<ClosureAction>) returns (i: nat)
    requires IsClosureRun(run, acts) && exists k :: 0 <= k < |acts| && !InTime(run[k], acts[k])
    ensures i < |acts| && !InTime(run[i], acts[i]) && forall k :: 0 <= k < i ==> InTime(run[k], acts[k])
  {
    i := 0;
    while InTime(run[i], acts[i])
      invariant i < |acts| && forall k :: 0 <= k < i ==> InTime(run[k], acts[k])
      decreases |acts| - i
    {
      var k :| 0 <= k < |acts| && !InTime(run[k], acts[k]);
      i := i + 1;
    }
  }

  // No closure is run that has been run before
  ghost predicate RunOnce(st: State, a: ClosureAction) {
    a.DoRunClosure? ==> a.id !in st.completed
  }

  /** So it is enough that no closure is run twice: a call whose closure has not been run is still
      outstanding, however late that is. */
  lemma OnceIsMatched(run: seq<State>, acts: seq<ClosureAction>, i: nat)
    requires IsClosureRun(run, acts) && i < |run|
    requires forall k :: 0 <= k < |acts| ==> RunOnce(run[k], acts[k])
    ensures Matched(run[i])
  {
    OnceIsInTime(run, acts, i);
    InTimeKeeps(run, acts, i);
    OkIsMatched(run[i]);
  }

  lemma {:induction false} OnceIsInTime(run: seq<State>, acts: seq<ClosureAction>, i: nat)
    requires IsClosureRun(run, acts) && i <= |acts|
    requires forall k :: 0 <= k < |acts| ==> RunOnce(run[k], acts[k])
    ensures forall k :: 0 <= k < i ==> InTime(run[k], acts[k])
    decreases i
  {
    if i > 0 {
      OnceIsInTime(run, acts, i - 1);
      InTimeKeeps(run, acts, i - 1);
      if acts[i - 1].DoRunClosure? { assert CallKnown(run[i - 1], acts[i - 1].id); }
    }
  }
}
