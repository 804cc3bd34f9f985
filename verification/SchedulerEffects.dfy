/** What single steps of the scheduler achieve for the services concerned, in any state that a run
    can reach. */
module SchedulerEffects {
  import opened Options
  import Runs
  import opened Scheduler
  import opened SchedulerInvariant
  import opened SchedulerSteps
  import opened SchedulerCalls
  import opened SchedulerTheorems
  import Fields = SchedulerFields

  // ---------------------------------------------------------------- switching

  /** The context a worker jumps into has been saved, and no other worker and no queue has it; the
      one it leaves is saved then. */
  lemma JumpEntersSavedAlone(st: State, w: nat)
    requires StructOk(st) && AtPc(st, w, Switched) && st.workers[w].prev.Some?
    ensures
      var cur, prev := st.workers[w].current, st.workers[w].prev.value;
      && cur != prev && st.ctxs[cur].saved && st.ctxs[cur].status == Ready && cur !in st.runQueue
      && (forall v :: v != w ==> !Holds(st, v, cur) && !Holds(st, v, prev))
      && Jump(st, w).ctxs[prev].saved && !Jump(st, w).ctxs[cur].saved
  {
    var cur, prev := st.workers[w].current, st.workers[w].prev.value;
    assert WorkerOk(st, w) && CtxOk(st.ctxs[cur]);
    forall v: nat | v != w ensures !Holds(st, v, cur) && !Holds(st, v, prev) {
      if Holds(st, v, cur) { HeldPlace(st, v, cur); }
      if Holds(st, v, prev) { HeldPlace(st, v, prev); }
    }
  }

  /** The first half of OnResume puts the predecessor into the run queue exactly if it was signalled
      while it parked. */
  lemma ResumePrevRequeuesExactly(st: State, w: nat)
    requires StructOk(st) && AtPc(st, w, ResumePrev) && st.workers[w].prev.Some?
    ensures
      var p := st.workers[w].prev.value;
      var c := st.ctxs[p];
      var signalled := c.wakeupSignal && c.status == Blocked;
      && p !in st.runQueue
      && OnResumePrev(st, w).runQueue == (if signalled then st.runQueue + [p] else st.runQueue)
      && OnResumePrev(st, w).ctxs[p].status == (if signalled then Ready else c.status)
  {
    assert WorkerOk(st, w) && CtxOk(st.ctxs[st.workers[w].prev.value]);
  }

  /** A service whose wait is over has what it waited for. */
  lemma ResumeFindsEvent(st: State, w: nat)
    requires StructOk(st) && AtPc(st, w, ResumeCur)
    ensures
      var c := Current(st, w);
      var c' := Current(OnResumeCur(st, w), w);
      && c'.status == Running && c'.waitEvents == {} && !c'.wakeupSignal
      && (!c.kind.Idle? && c.frame.InWait? ==> !(c'.events !! c.frame.mask))
  {
    assert WorkerOk(st, w) && CtxOk(Current(st, w));
  }

  /** The successor that a worker takes is Ready, saved, and nobody else's any more. */
  lemma PickedIsReady(st: State, w: nat)
    requires StructOk(st) && CanPick(st, w)
    ensures
      var st' := GetReadyService(st, w);
      var next := st'.workers[w].pc.next;
      && next in st'.ctxs && next !in st'.runQueue && st'.ctxs[next].status == Ready && !st'.ctxs[next].isSwapingOut
      && (!Current(st, w).kind.Idle? ==> next != st.workers[w].current)
  {
    GetReadyKeepsStruct(st, w);
    var st' := GetReadyService(st, w);
    assert WorkerOk(st', w) && WorkerOk(st, w);
    var next := st'.workers[w].pc.next;
    assert CtxOk(st'.ctxs[next]);
    IdleAvailable(st, w);
  }

  // ---------------------------------------------------------------- events

  /** Service s waits in this step, and its mask has e. */
  predicate WaitsFor(st: State, a: Action, s: nat, e: Event) {
    && Enabled(st, a) && s in st.ctxs && Fields.WaitMask(st, a, s).Some?
    && e in Fields.WaitMask(st, a, s).value
  }

  /** An event that is pending stays so, unless its service itself waits for it in this step. */
  lemma StepKeepsEvent(st: State, a: Action, s: nat, e: Event)
    requires StructOk(st) && Enabled(st, a) && s in st.ctxs && e in st.ctxs[s].events && !WaitsFor(st, a, s, e)
    ensures s in Next(st, a).ctxs && e in Next(st, a).ctxs[s].events
  {
    Fields.NextFields(st, a, s);
  }

  // Service s waits for e in the step from st to st'
  ghost predicate WaitStep(st: State, st': State, s: nat, e: Event) {
    exists a :: WaitsFor(st, a, s, e) && st' == Next(st, a)
  }

  lemma EventOrWait(st: State, st': State, s: nat, e: Event)
    requires StructOk(st) && Step(st, st') && s in st.ctxs && e in st.ctxs[s].events
    ensures WaitStep(st, st', s, e) || (s in st'.ctxs && e in st'.ctxs[s].events)
  {
    var a :| Enabled(st, a) && st' == Next(st, a);
    if !WaitsFor(st, a, s, e) { StepKeepsEvent(st, a, s, e); }
  }

  ghost predicate Pending(st: State, s: nat, e: Event) {
    s in st.ctxs && e in st.ctxs[s].events
  }

  ghost predicate QuietStep(st: State, st': State, s: nat, e: Event) {
    Step(st, st') && !WaitStep(st, st', s, e)
  }

  lemma QuietStepKeeps(st: State, st': State, s: nat, e: Event)
    requires Inv(st) && Pending(st, s, e) && QuietStep(st, st', s, e)
    ensures Inv(st') && Pending(st', s, e)
  {
    StepKeepsInv(st, st');
    EventOrWait(st, st', s, e);
  }

  /** In every run a pending event is there until its service waits with a mask that has it. */
  lemma EventStays(run: seq<State>, i: nat, j: nat, s: nat, e: Event)
    requires IsRun(run) && i <= j < |run| && Pending(run[i], s, e)
    requires forall k :: i < k <= j ==> !WaitStep(run[k - 1], run[k], s, e)
    ensures Pending(run[j], s, e)
  {
    RunInv(run, i);
    var part := run[i..j + 1];
    forall k | 0 < k < |part| ensures QuietStep(part[k - 1], part[k], s, e) {
      assert part[k - 1] == run[i + k - 1] && part[k] == run[i + k];
    }
    forall u, v | Inv(u) && Pending(u, s, e) && QuietStep(u, v, s, e) ensures Inv(v) && Pending(v, s, e) {
      QuietStepKeeps(u, v, s, e);
    }
    Runs.Invariant(part, 0, j - i, st => Inv(st) && Pending(st, s, e), (u, v) => QuietStep(u, v, s, e));
  }

  /** A post of e, in terms of the service and the run queue before and after it: the event is there,
      and if a Blocked service awaits it, that service is Ready and queued, or has the signal if it is
      still being switched out. */
  predicate Wakes(c: Context, queue: seq<nat>, c': Context, queue': seq<nat>, s: nat, e: Event) {
    && c'.events == c.events + {e}
    && if e in c.waitEvents && c.status == Blocked && !c.isSwapingOut then c'.status == Ready && queue' == queue + [s]
       else c'.status == c.status && queue' == queue && (e in c.waitEvents ==> c'.wakeupSignal)
  }

  /** No worker is ever stuck: each has a next step, until its idle service has returned. */
  lemma EveryWorkerMoves(st: State, w: nat)
    requires StructOk(st) && w < |st.workers| && st.workers[w].pc != Exited
    ensures exists a :: ByWorker(a) && a.w == w && Enabled(st, a)
  {
    assert WorkerOk(st, w) && CtxOk(Current(st, w));
    var W, c := st.workers[w], Current(st, w);
    var a := match W.pc
      case Run =>
        if c.kind.Idle? then DoGetReady(w) else if c.kind.MessageDriven? then DoHandlerDone(w) else DoFinishMain(w)
      case Loop => DoLoop(w)
      case CallWait => DoCallWait(w)
      case Finishing => DoDie(w)
      case Sched => DoGetReady(w)
      case Picked(_) => DoSwitch(w)
      case Switched => DoJump(w)
      case ResumePrev => DoResumePrev(w)
      case ResumeCur => DoResumeCur(w)
      case AfterWait => DoWaitReturn(w);
    assert ByWorker(a) && a.w == w && Enabled(st, a);
  }

  /** Any thread may wake, interrupt, stop or send to any service at any time, but for kResponse, which
      is the closures'; and service code may wait, and call any service, whenever it runs. */
  lemma AnyTime(st: State, s: nat, e: Event, payload: nat)
    requires s in st.ctxs
    ensures Enabled(st, DoInterrupt(s)) && Enabled(st, DoIoReady(s)) && Enabled(st, DoStop(s))
    ensures Enabled(st, DoSend(s, payload)) && (Enabled(st, DoWakeUp(s, e)) <==> e != Response)
    ensures forall w, mask: Mask :: InService(st, w) && Message !in mask && Response !in mask ==>
      Enabled(st, DoWait(w, mask))
    ensures forall w, id :: InService(st, w) && id !in st.calls ==> Enabled(st, DoCallSend(w, s, id))
  {
  }

  // Worker w runs service code
  predicate InService(st: State, w: nat) {
    HasCurrent(st, w) && st.workers[w].pc == Run && !Current(st, w).kind.Idle?
  }

  /** In a loop that waits for messages, a service awaits its next message or its stop, and nothing
      else. */
  lemma LoopAwaits(st: State, s: nat)
    requires StructOk(st) && s in st.ctxs && st.ctxs[s].kind.MessageDriven?
    requires st.ctxs[s].status == Blocked && st.ctxs[s].inHand.None?
    ensures st.ctxs[s].waitEvents == {Message, ServiceStop}
  {
    assert CtxOk(st.ctxs[s]);
  }

  // ---------------------------------------------------------------- stopping

  /** A stop request reaches every message-driven service that waits for messages: off its stack it is
      Ready and queued at once, and otherwise its worker finds the signal. */
  lemma StopWakesLoop(st: State, s: nat)
    requires StructOk(st) && s in st.ctxs && st.ctxs[s].kind.MessageDriven?
    requires st.ctxs[s].status == Blocked && st.ctxs[s].inHand.None? && !st.ctxs[s].stopping
    ensures
      var st' := StopService(st, s);
      && st'.ctxs[s].stopping && ServiceStop in st'.ctxs[s].events
      && if !st.ctxs[s].isSwapingOut then st'.ctxs[s].status == Ready && st'.runQueue == st.runQueue + [s]
         else st'.ctxs[s].wakeupSignal && st'.runQueue == st.runQueue && exists w :: Holds(st', w, s)
  {
    LoopAwaits(st, s);
    StopKeepsStruct(st, s);
    InvWakeups(StopService(st, s));
  }

  /** After a stop request the service is not parked on a mask with kServiceStop. */
  lemma StopReaches(st: State, s: nat)
    requires StructOk(st) && s in st.ctxs
    ensures
      var st' := StopService(st, s);
      var c := st'.ctxs[s];
      && c.stopping && !Accepts(c)
      && (c.status == Blocked && ServiceStop in c.waitEvents ==> c.wakeupSignal && exists w :: Holds(st', w, s))
  {
    StopKeepsStruct(st, s);
    InvWakeups(StopService(st, s));
  }

  /** A dead service accepts nothing and cannot be woken into the run queue again. */
  lemma DeadIsOut(st: State, s: nat, e: Event)
    requires StructOk(st) && s in st.ctxs && !st.ctxs[s].kind.Idle? && st.ctxs[s].status == Dead
    ensures s !in st.runQueue && WakeupLocked(st, s, e).runQueue == st.runQueue
    ensures WakeupLocked(st, s, e).ctxs[s].status == Dead
    ensures st.ctxs[s].kind.MessageDriven? ==> st.ctxs[s].handled == st.ctxs[s].accepted && !Accepts(st.ctxs[s])
  {
    assert CtxOk(st.ctxs[s]);
  }

  // ---------------------------------------------------------------- calls

  /** A call that is accepted becomes its caller's only outstanding one, with no response yet. */
  lemma CallIsOnlyOutstanding(st: State, w: nat, d: nat, id: nat)
    requires Inv(st) && CanCall(st, w, d, id) && Accepts(st.ctxs[d])
    ensures
      var s := st.workers[w].current;
      var st' := CallSend(st, w, d, id);
      && st.ctxs[s].calling == None && st'.ctxs[s].calling == Some(id) && Response !in st'.ctxs[s].events
      && st'.ctxs[d].accepted == st.ctxs[d].accepted + [Call(id, s)]
      && forall x: nat, i: nat, m: nat :: CallAt(st', x, i, m) && !HandledAt(st', x, i, m) ==>
           st'.ctxs[x].accepted[i].caller == s ==> m == id
  {
    var s := st.workers[w].current;
    var st' := CallSend(st, w, d, id);
    assert WorkerOk(st, w) && CallerOk(st, s);
    SendEffect(st, d, Call(id, s));
    NextKeepsInv(st, DoCallSend(w, d, id));
    InvCallMatching(st');
  }

  /** kResponse has been posted to the caller of m, who was waiting for this very call, and to nobody else. */
  ghost predicate WokeExactly(st: State, st': State, m: Msg)
    requires m.Call?
  {
    && m.caller in st.ctxs && m.caller in st'.ctxs && st.ctxs[m.caller].calling == Some(m.id)
    && m.id !in st.completed && m.id in st'.completed
    && Response !in st.ctxs[m.caller].events && Response in st'.ctxs[m.caller].events
    && forall x :: x in st.ctxs && x != m.caller ==> x in st'.ctxs && st'.ctxs[x].events == st.ctxs[x].events
  }

  /** Completing a dispatched call wakes its caller, once. */
  lemma DispatchWakesExactlyCaller(st: State, w: nat)
    requires Inv(st) && AtPc(st, w, Run) && Current(st, w).inHand.Some? && Current(st, w).inHand.value.Call?
    ensures WokeExactly(st, HandlerDone(st, w), Current(st, w).inHand.value)
  {
    var d := st.workers[w].current;
    var m := Current(st, w).inHand.value;
    assert CtxOk(st.ctxs[d]) && AcceptedOk(st, d);
    var n := |st.ctxs[d].handled|;
    assert st.ctxs[d].accepted[n] == m;
    assert CallAt(st, d, n, m.id);
    assert CallerOk(st, m.caller);
    WakeupEffect(st, m.caller, Response);
  }

  // ---------------------------------------------------------------- running

  /** Running service code awaits no call, and is on one worker only. */
  lemma RunsAlone(st: State, w: nat)
    requires StructOk(st) && HasCurrent(st, w)
    requires st.workers[w].pc == Finishing || (st.workers[w].pc == Run && !Current(st, w).kind.Idle?)
    ensures !Current(st, w).kind.Idle? && Current(st, w).status == Running && Current(st, w).calling.None?
    ensures st.workers[w].current !in st.runQueue
  {
    assert WorkerOk(st, w) && CtxOk(Current(st, w));
  }

  lemma BlockedIsService(st: State, s: nat)
    requires StructOk(st) && s in st.ctxs
    ensures st.ctxs[s].status == Blocked ==> !st.ctxs[s].kind.Idle?
  {
    assert CtxOk(st.ctxs[s]);
  }

  lemma WaitReturnFinds(st: State, w: nat)
    requires StructOk(st) && AtPc(st, w, AfterWait) && Current(st, w).frame.InWait?
    ensures !(Current(st, w).events !! Current(st, w).frame.mask)
    ensures Current(st, w).events * Current(st, w).frame.mask != {}
  {
    assert WorkerOk(st, w);
    var c := Current(st, w);
    var e :| e in c.events && e in c.frame.mask;
    assert e in c.events * c.frame.mask;
  }

  lemma PickedIsOther(st: State, w: nat)
    requires StructOk(st) && HasCurrent(st, w) && st.workers[w].pc.Picked?
    ensures st.workers[w].pc.next == st.workers[w].current ==> Current(st, w).kind.Idle?
  {
    assert WorkerOk(st, w);
  }

  /** At the top of the message loop nothing is in hand and no signal is set. */
  lemma LoopFinds(st: State, w: nat)
    requires StructOk(st) && AtPc(st, w, Loop)
    ensures var c := Current(st, w);
      && c.status == Running && !c.wakeupSignal && c.inHand.None? && c.accepted == c.handled + c.msgQueue
      && (c.msgQueue != [] ==> c.msgQueue[0] == c.accepted[|c.handled|])
  {
    assert WorkerOk(st, w) && CtxOk(Current(st, w));
    assert Current(st, w).accepted == Current(st, w).handled + Current(st, w).msgQueue;
  }
}
