/** What no step of the scheduler takes back: histories only grow, a stop request stays, and a dead
    service stays dead. */
module SchedulerHistory {
  import opened Options
  import Runs
  import opened Scheduler
  import opened SchedulerInvariant
  import opened SchedulerCalls

  predicate Continues(c: Context, c': Context) {
    && c'.kind == c.kind
    && c.accepted <= c'.accepted && c.handled <= c'.handled
    && (c.stopping ==> c'.stopping)
    && (c.status.Dead? && !c.kind.Idle? ==> c'.status.Dead?)
    && (c.status.Dead? && c.kind.MessageDriven? ==> c'.accepted == c.accepted && c'.handled == c.handled)
  }

  ghost predicate AllContinue(st: State, st': State) {
    && (forall s :: s in st.ctxs ==> s in st'.ctxs && Continues(st.ctxs[s], st'.ctxs[s]))
    && st.completed <= st'.completed && st.returned <= st'.returned
  }

  lemma WakeupContinues(st: State, s: nat, e: Event)
    requires s in st.ctxs
    ensures AllContinue(st, WakeupLocked(st, s, e))
  {
  }

  lemma StopContinues(st: State, s: nat)
    requires s in st.ctxs
    ensures AllContinue(st, StopService(st, s))
  {
    var st1 := SetCtx(st, s, st.ctxs[s].(stopping := true));
    if !st.ctxs[s].stopping { WakeupContinues(st1, s, ServiceStop); }
  }

  lemma SendContinues(st: State, s: nat, m: Msg)
    requires s in st.ctxs && CtxOk(st.ctxs[s])
    ensures AllContinue(st, SendMessage(st, s, m))
  {
    var c := st.ctxs[s];
    var st1 := SetCtx(st, s, c.(msgQueue := c.msgQueue + [m], accepted := c.accepted + [m]));
    if Accepts(c) {
      assert AllContinue(st, st1);
      if Message in c.waitEvents { WakeupContinues(st1, s, Message); }
    }
  }

  // The current service changes, and nothing of the others
  lemma CurrentContinues(st: State, w: nat, c: Context, pc: Pc, done: set<nat>)
    requires HasCurrent(st, w) && Continues(Current(st, w), c)
    ensures AllContinue(st, SetCurrent(st, w, c, pc).(returned := st.returned + done))
  {
  }

  lemma FinishWaitContinues(st: State, w: nat, c: Context)
    requires HasCurrent(st, w) && Continues(Current(st, w), c)
    ensures AllContinue(st, FinishWait(st, w, c))
  {
    CurrentContinues(st, w, c.(calling := None), if c.kind.MessageDriven? && c.inHand.None? then Loop else Run,
      if c.calling.Some? then {c.calling.value} else {});
  }

  lemma BlockContinues(st: State, w: nat, c: Context, mask: Mask)
    requires HasCurrent(st, w) && Continues(Current(st, w), c) && c.status.Running?
    ensures AllContinue(st, Block(st, w, c, mask))
  {
    var b :=
      c.(status := Blocked, isSwapingOut := true, waitEvents := mask, frame := InWait(mask), place := Deciding(w));
    assert Continues(Current(st, w), b);
    CurrentContinues(st, w, b, Sched, {});
  }

  lemma WaitLockedContinues(st: State, w: nat, mask: Mask)
    requires HasCurrent(st, w) && Current(st, w).status.Running?
    ensures AllContinue(st, WaitLocked(st, w, mask))
  {
    var c := Current(st, w).(waitEvents := {});
    FinishWaitContinues(st, w, c);
    FinishWaitContinues(st, w, c.(events := c.events - mask));
    BlockContinues(st, w, c, mask);
  }

  lemma WaitContinues(st: State, w: nat, mask: Mask)
    requires AtPc(st, w, Run) && Current(st, w).kind != Idle && mask !! {Message, Response}
    requires WorkerOk(st, w) && CtxOk(Current(st, w))
    ensures AllContinue(st, WaitLocked(st, w, mask))
  {
    assert Current(st, w).status.Running?;
    WaitLockedContinues(st, w, mask);
  }

  lemma CallWaitContinues(st: State, w: nat)
    requires AtPc(st, w, CallWait) && WorkerOk(st, w) && CtxOk(Current(st, w))
    ensures AllContinue(st, WaitLocked(st, w, {Response}))
  {
    assert Current(st, w).status.Running?;
    WaitLockedContinues(st, w, {Response});
  }

  lemma WaitReturnContinues(st: State, w: nat)
    requires AtPc(st, w, AfterWait) && Current(st, w).frame.InWait? && WorkerOk(st, w) && CtxOk(Current(st, w))
    ensures AllContinue(st, WaitReturn(st, w))
  {
  }

  lemma LoopContinues(st: State, w: nat)
    requires AtPc(st, w, Loop) && WorkerOk(st, w) && CtxOk(Current(st, w))
    ensures AllContinue(st, LoopStep(st, w))
  {
    assert Current(st, w).status.Running?;
    WaitLockedContinues(st, w, LOOP_MASK);
  }

  lemma FinishContinues(st: State, w: nat)
    requires AtPc(st, w, Run) && Current(st, w).kind == UserThread && WorkerOk(st, w) && CtxOk(Current(st, w))
    ensures AllContinue(st, FinishMain(st, w))
  {
  }

  lemma DieContinues(st: State, w: nat)
    requires AtPc(st, w, Finishing) && WorkerOk(st, w) && CtxOk(Current(st, w))
    ensures AllContinue(st, Die(st, w))
  {
  }

  lemma WakeupKeepsRunning(st: State, s: nat, e: Event, x: nat)
    requires s in st.ctxs && x in st.ctxs && st.ctxs[x].status.Running?
    ensures WakeupLocked(st, s, e).ctxs[x].status.Running? && WakeupLocked(st, s, e).workers == st.workers
  {
  }

  lemma HandledContinues(st: State, w: nat, m: Msg, done: set<nat>)
    requires HasCurrent(st, w) && Current(st, w).status.Running?
    ensures
      var c := Current(st, w);
      AllContinue(st, SetCurrent(st, w, c.(inHand := None, handled := c.handled + [m]), Loop)
        .(completed := st.completed + done))
  {
  }

  lemma HandlerContinues(st: State, w: nat)
    requires AtPc(st, w, Run) && Current(st, w).inHand.Some? && WorkerOk(st, w) && CtxOk(Current(st, w))
    ensures AllContinue(st, HandlerDone(st, w))
  {
    var m := Current(st, w).inHand.value;
    assert Current(st, w).status.Running?;
    if m.Call? && m.caller in st.ctxs {
      var st1 := WakeupLocked(st, m.caller, Response);
      WakeupContinues(st, m.caller, Response);
      WakeupKeepsRunning(st, m.caller, Response, st.workers[w].current);
      HandledContinues(st1, w, m, {m.id});
      Chain(st, st1, HandlerDone(st, w));
    } else {
      HandledContinues(st, w, m, if m.Call? then {m.id} else {});
    }
  }

  // The caller notes its call, and the call is recorded
  lemma CallNoted(st: State, w: nat, id: nat, calls: map<nat, CallInfo>)
    requires HasCurrent(st, w)
    ensures AllContinue(st, SetCurrent(st, w, Current(st, w).(calling := Some(id)), CallWait).(calls := calls))
  {
  }

  lemma SendKeepsCurrent(st: State, w: nat, s: nat, m: Msg)
    requires HasCurrent(st, w) && s in st.ctxs
    ensures HasCurrent(SendMessage(st, s, m), w) && SendMessage(st, s, m).workers == st.workers
  {
  }

  lemma CallContinues(st: State, w: nat, d: nat, id: nat)
    requires CanCall(st, w, d, id) && CtxOk(st.ctxs[d])
    ensures AllContinue(st, CallSend(st, w, d, id))
  {
    if Accepts(st.ctxs[d]) {
      var s := st.workers[w].current;
      var st1 := SendMessage(st, d, Call(id, s));
      SendContinues(st, d, Call(id, s));
      SendKeepsCurrent(st, w, d, Call(id, s));
      CallNoted(st1, w, id, st.calls[id := CallInfo(d, s)]);
      Chain(st, st1, CallSend(st, w, d, id));
    }
  }

  lemma GetReadyContinues(st: State, w: nat)
    requires HasCurrent(st, w) && st.ctxs[st.workers[w].idle].kind.Idle?
    requires st.runQueue != [] ==> st.runQueue[0] in st.ctxs
    ensures AllContinue(st, GetReadyService(st, w))
  {
    var next := if st.runQueue != [] then st.runQueue[0] else st.workers[w].idle;
    var st1 := SetCtx(st, st.workers[w].current, Current(st, w).(place := Deciding(w)));
    assert AllContinue(st, st1);
    assert AllContinue(st1, GetReadyService(st, w));
    Chain(st, st1, GetReadyService(st, w));
  }

  lemma SwitchContinues(st: State, w: nat)
    requires HasCurrent(st, w) && st.workers[w].pc.Picked? && WorkerOk(st, w) && CtxOk(Current(st, w))
    ensures AllContinue(st, SwitchTo(st, w))
  {
  }

  lemma JumpContinues(st: State, w: nat)
    requires AtPc(st, w, Switched) && st.workers[w].prev.Some? && WorkerOk(st, w) && CtxOk(Current(st, w))
    ensures AllContinue(st, Jump(st, w))
  {
  }

  lemma ResumePrevContinues(st: State, w: nat)
    requires AtPc(st, w, ResumePrev) && WorkerOk(st, w) && CtxOk(Current(st, w))
    ensures AllContinue(st, OnResumePrev(st, w))
  {
  }

  lemma ResumeCurContinues(st: State, w: nat)
    requires AtPc(st, w, ResumeCur) && WorkerOk(st, w) && CtxOk(Current(st, w))
    ensures AllContinue(st, OnResumeCur(st, w))
  {
  }

  lemma IdleExitContinues(st: State, w: nat)
    requires AtPc(st, w, Run) && Current(st, w).kind == Idle && st.runQueue == []
    requires WorkerOk(st, w) && CtxOk(Current(st, w))
    ensures AllContinue(st, IdleExit(st, w))
  {
  }

  lemma WorkerStepContinues(st: State, a: Action)
    requires Enabled(st, a) && ByWorker(a) && WorkerOk(st, a.w) && CtxOk(Current(st, a.w))
    requires a.DoCallSend? ==> CtxOk(st.ctxs[a.dest])
    ensures AllContinue(st, Next(st, a))
  {
    match a
    case DoWait(w, mask) => WaitContinues(st, w, mask);
    case DoCallSend(w, d, id) => CallContinues(st, w, d, id);
    case DoCallWait(w) => CallWaitContinues(st, w);
    case DoWaitReturn(w) => WaitReturnContinues(st, w);
    case DoLoop(w) => LoopContinues(st, w);
    case DoHandlerDone(w) => HandlerContinues(st, w);
    case DoFinishMain(w) => FinishContinues(st, w);
    case DoDie(w) => DieContinues(st, w);
    case DoGetReady(w) => GetReadyContinues(st, w);
    case DoSwitch(w) => SwitchContinues(st, w);
    case DoJump(w) => JumpContinues(st, w);
    case DoResumePrev(w) => ResumePrevContinues(st, w);
    case DoResumeCur(w) => ResumeCurContinues(st, w);
    case DoIdleExit(w) => IdleExitContinues(st, w);
  }

  lemma OutsideStepContinues(st: State, a: Action)
    requires Enabled(st, a) && !ByWorker(a)
    requires a.DoSend? ==> CtxOk(st.ctxs[a.s])
    ensures AllContinue(st, Next(st, a))
  {
    match a
    case DoLaunch(s, kind) =>
      assert forall x :: x in st.ctxs ==> x in Next(st, a).ctxs && Next(st, a).ctxs[x] == st.ctxs[x];
    case DoWakeUp(s, e) => WakeupContinues(st, s, e);
    case DoInterrupt(s) => WakeupContinues(st, s, Interrupt);
    case DoIoReady(s) => WakeupContinues(st, s, IoOperation);
    case DoStop(s) => StopContinues(st, s);
    case DoSend(s, payload) => SendContinues(st, s, Plain(payload));
  }

  lemma NextContinues(st: State, a: Action)
    requires StructOk(st) && Enabled(st, a)
    ensures AllContinue(st, Next(st, a))
  {
    if ByWorker(a) {
      assert WorkerOk(st, a.w) && CtxOk(Current(st, a.w));
      assert a.DoCallSend? ==> CtxOk(st.ctxs[a.dest]);
      WorkerStepContinues(st, a);
    } else {
      assert a.DoSend? ==> CtxOk(st.ctxs[a.s]);
      OutsideStepContinues(st, a);
    }
  }

  lemma StepContinues(st: State, st': State)
    requires StructOk(st) && Step(st, st')
    ensures AllContinue(st, st')
  {
    var a :| Enabled(st, a) && st' == Next(st, a);
    NextContinues(st, a);
  }

  lemma Chain(u: State, v: State, w: State)
    requires AllContinue(u, v) && AllContinue(v, w)
    ensures AllContinue(u, w)
  {
    forall s | s in u.ctxs ensures s in w.ctxs && Continues(u.ctxs[s], w.ctxs[s]) {
      assert s in v.ctxs && Continues(u.ctxs[s], v.ctxs[s]);
    }
  }

  /** From any state of a run to any later one: what was accepted, handled, completed or returned
      stays so, in its order; a stop request stays; a dead service stays dead, and a dead
      message-driven one accepts and handles nothing more. */
  lemma RunContinues(run: seq<State>, i: nat, j: nat)
    requires IsRun(run) && i <= j < |run|
    ensures AllContinue(run[i], run[j])
  {
    var first := run[i];
    RunInv(run, i);
    forall st, st' | Inv(st) && AllContinue(first, st) && Step(st, st') ensures Inv(st') && AllContinue(first, st') {
      StepKeepsInv(st, st');
      StepContinues(st, st');
      Chain(first, st, st');
    }
    Runs.Invariant(run, i, j, st => Inv(st) && AllContinue(first, st), (st, st') => Step(st, st'));
  }
}
