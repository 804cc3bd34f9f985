/** Every step of the scheduler keeps the half of the invariant that matches calls with responses. */
module SchedulerCalls {
  import opened Options
  import Runs
  import opened Scheduler
  import opened SchedulerInvariant
  import opened SchedulerSteps

  /** What a step that neither sends, dispatches nor returns a call does to a context. */
  predicate SameCalls(c: Context, d: Context) {
    && d.calling == c.calling && d.handled == c.handled
    && (Response in d.events <==> Response in c.events)
    && (d.accepted == c.accepted || OnePlainMore(c.accepted, d.accepted))
  }

  predicate OnePlainMore(a: seq<Msg>, b: seq<Msg>) {
    |b| == |a| + 1 && b[..|a|] == a && b[|a|].Plain?
  }

  /** Nothing happens to calls: contexts keep what matters to them, and new ones have none. */
  ghost predicate CallsFramed(st: State, st': State) {
    && st'.calls == st.calls && st'.completed == st.completed && st'.returned == st.returned
    && (forall s :: s in st.ctxs ==> s in st'.ctxs && SameCalls(st.ctxs[s], st'.ctxs[s]))
    && (forall s :: s in st'.ctxs && s !in st.ctxs ==>
         st'.ctxs[s].accepted == [] && st'.ctxs[s].calling == None && Response !in st'.ctxs[s].events)
  }

  lemma CallsFrame(st: State, st': State)
    requires CallsOk(st) && CallsFramed(st, st')
    ensures CallsOk(st')
  {
    forall d: nat, i: nat, id: nat | CallAt(st', d, i, id)
      ensures CallAt(st, d, i, id) && st'.ctxs[d].accepted[i] == st.ctxs[d].accepted[i]
    {
      var a := st.ctxs[d].accepted;
      assert i < |a| ==> a[i] == st'.ctxs[d].accepted[..|a|][i];
    }
    forall d | d in st'.ctxs ensures AcceptedOk(st', d) {
      if d in st.ctxs { assert AcceptedOk(st, d); }
    }
    forall s | s in st'.ctxs ensures CallerOk(st', s) {
      if s in st.ctxs { assert CallerOk(st, s); }
    }
    forall id | id in st.completed ensures exists i: nat :: HandledAt(st', st.calls[id].dest, i, id) {
      var i: nat :| HandledAt(st, st.calls[id].dest, i, id);
      var a := st.ctxs[st.calls[id].dest].accepted;
      assert a[i] == st'.ctxs[st.calls[id].dest].accepted[..|a|][i];
      assert HandledAt(st', st.calls[id].dest, i, id);
    }
  }

  predicate SameHistory(c: Context, d: Context) {
    d.accepted == c.accepted && d.calling == c.calling && d.handled == c.handled && d.inHand == c.inHand
  }

  predicate SameWorld(st: State, st': State) {
    && st'.ctxs.Keys == st.ctxs.Keys && st'.workers == st.workers
    && st'.calls == st.calls && st'.completed == st.completed && st'.returned == st.returned
  }

  /** A wakeup touches nothing that matters to calls but the event it posts. */
  lemma WakeupEffect(st: State, s: nat, e: Event)
    requires s in st.ctxs
    ensures SameWorld(st, WakeupLocked(st, s, e))
    ensures forall x :: x in st.ctxs && x != s ==> WakeupLocked(st, s, e).ctxs[x] == st.ctxs[x]
    ensures SameHistory(st.ctxs[s], WakeupLocked(st, s, e).ctxs[s])
    ensures WakeupLocked(st, s, e).ctxs[s].events == st.ctxs[s].events + {e}
  {
  }

  lemma SendEffect(st: State, s: nat, m: Msg)
    requires s in st.ctxs && Accepts(st.ctxs[s])
    ensures SameWorld(st, SendMessage(st, s, m))
    ensures forall x :: x in st.ctxs && x != s ==> SendMessage(st, s, m).ctxs[x] == st.ctxs[x]
    ensures SameHistory(st.ctxs[s].(accepted := st.ctxs[s].accepted + [m]), SendMessage(st, s, m).ctxs[s])
    ensures Response in SendMessage(st, s, m).ctxs[s].events <==> Response in st.ctxs[s].events
  {
    var c := st.ctxs[s];
    var st1 := SetCtx(st, s, c.(msgQueue := c.msgQueue + [m], accepted := c.accepted + [m]));
    if Message in c.waitEvents { WakeupEffect(st1, s, Message); }
  }

  /** The call of s returns: its response is consumed. */
  ghost predicate ReturnsCall(st: State, st': State, s: nat) {
    && s in st.ctxs && st'.ctxs.Keys == st.ctxs.Keys
    && st.ctxs[s].calling.Some? && Response in st.ctxs[s].events
    && st'.calls == st.calls && st'.completed == st.completed
    && st'.returned == st.returned + {st.ctxs[s].calling.value}
    && st'.ctxs[s].calling.None? && Response !in st'.ctxs[s].events
    && st'.ctxs[s].accepted == st.ctxs[s].accepted && st'.ctxs[s].handled == st.ctxs[s].handled
    && (forall x :: x in st.ctxs && x != s ==> st'.ctxs[x] == st.ctxs[x])
  }

  lemma ReturnsKeepsCalls(st: State, st': State, s: nat)
    requires CallsOk(st) && ReturnsCall(st, st', s)
    ensures CallsOk(st')
  {
    assert CallerOk(st, s);
    forall d: nat, i: nat, id: nat ensures CallAt(st', d, i, id) == CallAt(st, d, i, id) {}
    forall d | d in st'.ctxs ensures AcceptedOk(st', d) { assert AcceptedOk(st, d); }
    forall x | x in st'.ctxs ensures CallerOk(st', x) { assert CallerOk(st, x); }
    forall id | id in st'.completed ensures exists i: nat :: HandledAt(st', st'.calls[id].dest, i, id) {
      var i: nat :| HandledAt(st, st.calls[id].dest, i, id);
      assert HandledAt(st', st.calls[id].dest, i, id);
    }
  }

  /** A wait that ends consumes the response of the call that waited for it, if any. */
  lemma FinishWaitEffect(st: State, w: nat, c: Context)
    requires HasCurrent(st, w) && c == Current(st, w).(waitEvents := {}, events := c.events)
    requires if c.calling.Some? then Response in Current(st, w).events && Response !in c.events
             else Response in c.events <==> Response in Current(st, w).events
    ensures if c.calling.Some? then ReturnsCall(st, FinishWait(st, w, c), st.workers[w].current)
            else CallsFramed(st, FinishWait(st, w, c))
  {
  }

  lemma BlockFrames(st: State, w: nat, mask: Mask)
    requires HasCurrent(st, w)
    ensures CallsFramed(st, Block(st, w, Current(st, w).(waitEvents := {}), mask))
  {
  }

  lemma WaitLockedEffect(st: State, w: nat, mask: Mask)
    requires HasCurrent(st, w) && WorkerOk(st, w) && st.workers[w].pc in {Run, Loop, CallWait}
    requires if st.workers[w].pc == CallWait then mask == {Response} else Response !in mask
    ensures var st' := WaitLocked(st, w, mask);
      CallsFramed(st, st') || ReturnsCall(st, st', st.workers[w].current)
  {
    var c := Current(st, w).(waitEvents := {});
    if c.stopping && ServiceStop in mask {
      FinishWaitEffect(st, w, c);
    } else if !(c.events !! mask) {
      FinishWaitEffect(st, w, c.(events := c.events - mask));
    } else {
      BlockFrames(st, w, mask);
    }
  }

  lemma WaitReturnEffect(st: State, w: nat)
    requires StructOk(st) && AtPc(st, w, AfterWait) && Current(st, w).frame.InWait?
    ensures var st' := WaitReturn(st, w);
      CallsFramed(st, st') || ReturnsCall(st, st', st.workers[w].current)
  {
    var c := Current(st, w);
    assert WorkerOk(st, w) && CtxOk(c);
    FinishWaitEffect(st, w, c.(events := c.events - c.frame.mask));
  }

  /** Sending a call to d on behalf of s, in terms of the fields that matter to calls. */
  ghost predicate SendsCall(st: State, st': State, s: nat, d: nat, id: nat)
    requires s in st.ctxs && d in st.ctxs
  {
    && st'.ctxs.Keys == st.ctxs.Keys && id !in st.calls && st.ctxs[s].calling == None
    && st'.calls == st.calls[id := CallInfo(d, s)] && st'.completed == st.completed && st'.returned == st.returned
    && st'.ctxs[d].accepted == st.ctxs[d].accepted + [Call(id, s)] && st'.ctxs[s].calling == Some(id)
    && |st.ctxs[d].handled| <= |st.ctxs[d].accepted|
    && forall x :: x in st.ctxs ==>
         && st'.ctxs[x].handled == st.ctxs[x].handled
         && (Response in st'.ctxs[x].events <==> Response in st.ctxs[x].events)
         && (x != d ==> st'.ctxs[x].accepted == st.ctxs[x].accepted)
         && (x != s ==> st'.ctxs[x].calling == st.ctxs[x].calling)
  }

  lemma SendsCallKeepsCalls(st: State, st': State, s: nat, d: nat, id: nat)
    requires CallsOk(st) && s in st.ctxs && d in st.ctxs && SendsCall(st, st', s, d, id)
    ensures CallsOk(st')
  {
    var n := |st.ctxs[d].accepted|;
    forall x: nat, i: nat, m: nat | CallAt(st', x, i, m)
      ensures if x == d && i == n then m == id else CallAt(st, x, i, m) && m in st.calls
    {
      if !(x == d && i == n) { assert CallAt(st, x, i, m) && AcceptedOk(st, x); }
    }
    forall x | x in st'.ctxs ensures AcceptedOk(st', x) { assert AcceptedOk(st, x) && CallerOk(st, s); }
    forall x | x in st'.ctxs ensures CallerOk(st', x) { assert CallerOk(st, x); }
    forall m | m in st'.completed ensures exists i: nat :: HandledAt(st', st'.calls[m].dest, i, m) {
      var i: nat :| HandledAt(st, st.calls[m].dest, i, m);
      assert HandledAt(st', st.calls[m].dest, i, m);
    }
  }

  lemma CallSendKeepsOrSends(st: State, w: nat, d: nat, id: nat)
    requires StructOk(st) && CanCall(st, w, d, id)
    ensures if Accepts(st.ctxs[d]) then SendsCall(st, CallSend(st, w, d, id), st.workers[w].current, d, id)
            else CallSend(st, w, d, id) == st
  {
    if Accepts(st.ctxs[d]) {
      assert WorkerOk(st, w);
      assert |st.ctxs[d].handled| <= |st.ctxs[d].accepted| by { assert CtxOk(st.ctxs[d]); }
      CallSendEffect(st, w, d, id);
    }
  }

  lemma CallSendKeepsCalls(st: State, w: nat, d: nat, id: nat)
    requires Inv(st) && CanCall(st, w, d, id)
    ensures CallsOk(CallSend(st, w, d, id))
  {
    CallSendKeepsOrSends(st, w, d, id);
    if Accepts(st.ctxs[d]) { SendsCallKeepsCalls(st, CallSend(st, w, d, id), st.workers[w].current, d, id); }
  }

  lemma CallSendEffect(st: State, w: nat, d: nat, id: nat)
    requires CanCall(st, w, d, id) && Accepts(st.ctxs[d]) && Current(st, w).calling == None
    requires |st.ctxs[d].handled| <= |st.ctxs[d].accepted|
    ensures SendsCall(st, CallSend(st, w, d, id), st.workers[w].current, d, id)
  {
    var s := st.workers[w].current;
    var st1 := SendMessage(st, d, Call(id, s));
    SendEffect(st, d, Call(id, s));
    CallSendIs(st, w, d, id, st1);
    CallNoted(st, st1, CallSend(st, w, d, id), s, d, id);
  }

  lemma CallSendIs(st: State, w: nat, d: nat, id: nat, st1: State)
    requires CanCall(st, w, d, id) && Accepts(st.ctxs[d])
    requires st1 == SendMessage(st, d, Call(id, st.workers[w].current)) && SameWorld(st, st1)
    ensures
      var s := st.workers[w].current;
      var st' := CallSend(st, w, d, id);
      && st'.ctxs == st1.ctxs[s := st1.ctxs[s].(calling := Some(id))]
      && st'.calls == st.calls[id := CallInfo(d, s)] && st'.completed == st.completed && st'.returned == st.returned
  {
  }

  lemma CallNoted(st: State, st1: State, st': State, s: nat, d: nat, id: nat)
    requires s in st.ctxs && d in st.ctxs && id !in st.calls && st.ctxs[s].calling == None
    requires |st.ctxs[d].handled| <= |st.ctxs[d].accepted|
    requires SameWorld(st, st1) && forall x :: x in st.ctxs && x != d ==> st1.ctxs[x] == st.ctxs[x]
    requires SameHistory(st.ctxs[d].(accepted := st.ctxs[d].accepted + [Call(id, s)]), st1.ctxs[d])
    requires Response in st1.ctxs[d].events <==> Response in st.ctxs[d].events
    requires st'.ctxs == st1.ctxs[s := st1.ctxs[s].(calling := Some(id))]
    requires st'.calls == st.calls[id := CallInfo(d, s)] && st'.completed == st.completed && st'.returned == st.returned
    ensures SendsCall(st, st', s, d, id)
  {
  }

  /** Finishing message m at d, in terms of the fields that matter to calls. */
  ghost predicate Dispatches(st: State, st': State, d: nat, m: Msg)
    requires d in st.ctxs
  {
    && st'.ctxs.Keys == st.ctxs.Keys && st'.calls == st.calls && st'.returned == st.returned
    && st'.completed == st.completed + (if m.Call? then {m.id} else {})
    && |st.ctxs[d].handled| < |st.ctxs[d].accepted| && st.ctxs[d].accepted[|st.ctxs[d].handled|] == m
    && |st'.ctxs[d].handled| == |st.ctxs[d].handled| + 1
    && forall x :: x in st.ctxs ==>
         && st'.ctxs[x].accepted == st.ctxs[x].accepted && st'.ctxs[x].calling == st.ctxs[x].calling
         && (Response in st'.ctxs[x].events <==> Response in st.ctxs[x].events || (m.Call? && x == m.caller))
         && (x != d ==> st'.ctxs[x].handled == st.ctxs[x].handled)
  }

  lemma DispatchesKeepsCalls(st: State, st': State, d: nat, m: Msg)
    requires CallsOk(st) && d in st.ctxs && Dispatches(st, st', d, m)
    ensures CallsOk(st')
  {
    var n := |st.ctxs[d].handled|;
    forall x: nat, i: nat, id: nat ensures CallAt(st', x, i, id) == CallAt(st, x, i, id) {}
    assert m.Call? ==> CallAt(st, d, n, m.id) && AcceptedOk(st, d) && CallerOk(st, m.caller);
    forall x | x in st'.ctxs ensures AcceptedOk(st', x) { assert AcceptedOk(st, x); }
    forall x | x in st'.ctxs ensures CallerOk(st', x) { assert CallerOk(st, x); }
    forall id | id in st'.completed ensures exists i: nat :: HandledAt(st', st'.calls[id].dest, i, id) {
      if m.Call? && id == m.id {
        assert HandledAt(st', d, n, id);
      } else {
        var i: nat :| HandledAt(st, st.calls[id].dest, i, id);
        assert HandledAt(st', st.calls[id].dest, i, id);
      }
    }
  }

  lemma PlainDone(st: State, w: nat)
    requires StructOk(st) && AtPc(st, w, Run) && Current(st, w).inHand.Some? && Current(st, w).inHand.value.Plain?
    ensures Dispatches(st, HandlerDone(st, w), st.workers[w].current, Current(st, w).inHand.value)
  {
    assert CtxOk(Current(st, w));
  }

  lemma CallDone(st: State, w: nat)
    requires Inv(st) && AtPc(st, w, Run) && Current(st, w).inHand.Some? && Current(st, w).inHand.value.Call?
    ensures Dispatches(st, HandlerDone(st, w), st.workers[w].current, Current(st, w).inHand.value)
  {
    var m := Current(st, w).inHand.value;
    CallInHand(st, w);
    WakeupEffect(st, m.caller, Response);
  }

  // The call in hand is the next one to be handled, and its caller is known
  lemma CallInHand(st: State, w: nat)
    requires Inv(st) && AtPc(st, w, Run) && Current(st, w).inHand.Some? && Current(st, w).inHand.value.Call?
    ensures var c, m := Current(st, w), Current(st, w).inHand.value;
      && |c.handled| < |c.accepted| && c.accepted[|c.handled|] == m && m.caller in st.ctxs
  {
    var d := st.workers[w].current;
    assert CtxOk(st.ctxs[d]) && AcceptedOk(st, d);
    assert CallAt(st, d, |st.ctxs[d].handled|, Current(st, w).inHand.value.id);
  }

  /** Dispatching a call wakes the one service that is waiting for it. */
  lemma HandlerDoneKeepsCalls(st: State, w: nat)
    requires Inv(st) && AtPc(st, w, Run) && Current(st, w).inHand.Some?
    ensures CallsOk(HandlerDone(st, w))
  {
    var m := Current(st, w).inHand.value;
    if m.Call? { CallDone(st, w); } else { PlainDone(st, w); }
    DispatchesKeepsCalls(st, HandlerDone(st, w), st.workers[w].current, m);
  }

  // ---------------------------------------------------------------- all steps

  predicate ByWorker(a: Action) {
    !(a.DoLaunch? || a.DoWakeUp? || a.DoInterrupt? || a.DoIoReady? || a.DoStop? || a.DoSend?)
  }

  // Steps by a worker that neither wait nor deal with messages
  predicate Switching(a: Action) {
    || a.DoFinishMain? || a.DoDie? || a.DoGetReady? || a.DoSwitch? || a.DoJump?
    || a.DoResumePrev? || a.DoResumeCur? || a.DoIdleExit?
  }

  lemma NextKeepsStruct(st: State, a: Action)
    requires StructOk(st) && Enabled(st, a)
    ensures StructOk(Next(st, a))
  {
    match a
    case DoLaunch(s, kind) => LaunchKeepsStruct(st, s, kind);
    case DoWakeUp(s, e) => WakeupKeepsStruct(st, s, e);
    case DoInterrupt(s) => if InterruptService(st, s) != st { WakeupKeepsStruct(st, s, Interrupt); }
    case DoIoReady(s) => if OnIoReady(st, s) != st { WakeupKeepsStruct(st, s, IoOperation); }
    case DoStop(s) => StopKeepsStruct(st, s);
    case DoSend(s, payload) => SendKeepsStruct(st, s, Plain(payload));
    case DoWait(w, mask) => WaitLockedKeepsStruct(st, w, mask);
    case DoCallSend(w, d, id) => CallSendKeepsStruct(st, w, d, id);
    case DoCallWait(w) => assert WorkerOk(st, w); WaitLockedKeepsStruct(st, w, {Response});
    case DoWaitReturn(w) => WaitReturnKeepsStruct(st, w);
    case DoLoop(w) => LoopKeepsStruct(st, w);
    case DoHandlerDone(w) => HandlerDoneKeepsStruct(st, w);
    case DoFinishMain(w) => FinishMainKeepsStruct(st, w);
    case DoDie(w) => DieKeepsStruct(st, w);
    case DoGetReady(w) => GetReadyKeepsStruct(st, w);
    case DoSwitch(w) => SwitchKeepsStruct(st, w);
    case DoJump(w) => JumpKeepsStruct(st, w);
    case DoResumePrev(w) => ResumePrevKeepsStruct(st, w);
    case DoResumeCur(w) => ResumeCurKeepsStruct(st, w);
    case DoIdleExit(w) => IdleExitKeepsStruct(st, w);
  }

  lemma WakeupFrames(st: State, s: nat, e: Event)
    requires s in st.ctxs && e != Response
    ensures CallsFramed(st, WakeupLocked(st, s, e))
  {
    WakeupEffect(st, s, e);
  }

  lemma StopFrames(st: State, s: nat)
    requires s in st.ctxs
    ensures CallsFramed(st, StopService(st, s))
  {
    if !st.ctxs[s].stopping {
      WakeupEffect(SetCtx(st, s, st.ctxs[s].(stopping := true)), s, ServiceStop);
    }
  }

  lemma SendFrames(st: State, s: nat, payload: nat)
    requires s in st.ctxs
    ensures CallsFramed(st, SendMessage(st, s, Plain(payload)))
  {
    if Accepts(st.ctxs[s]) { SendEffect(st, s, Plain(payload)); }
  }

  lemma LaunchFrames(st: State, s: nat, kind: Kind)
    requires s !in st.ctxs && kind != Idle
    ensures CallsFramed(st, LaunchService(st, s, kind))
  {
    if kind == UserThread { WakeupEffect(SetCtx(st, s, NewContext(kind, Blocked, {ServiceStart})), s, ServiceStart); }
  }

  lemma GetReadyFrames(st: State, w: nat)
    requires CanPick(st, w)
    ensures CallsFramed(st, GetReadyService(st, w))
  {
    GetReadyKeepsHistory(st, w);
  }

  lemma GetReadyKeepsHistory(st: State, w: nat)
    requires CanPick(st, w)
    ensures GetReadyService(st, w).ctxs.Keys == st.ctxs.Keys
    ensures forall s :: s in st.ctxs ==> SameCalls(st.ctxs[s], GetReadyService(st, w).ctxs[s])
  {
    forall s | s in st.ctxs ensures SameCalls(st.ctxs[s], GetReadyService(st, w).ctxs[s]) {}
  }

  lemma SwitchFrames(st: State, w: nat)
    requires HasCurrent(st, w) && st.workers[w].pc.Picked?
    ensures CallsFramed(st, SwitchTo(st, w))
  {
  }

  lemma JumpFrames(st: State, w: nat)
    requires HasCurrent(st, w) && st.workers[w].prev.Some?
    ensures CallsFramed(st, Jump(st, w))
  {
  }

  lemma ResumePrevFrames(st: State, w: nat)
    requires HasCurrent(st, w)
    ensures CallsFramed(st, OnResumePrev(st, w))
  {
  }

  lemma ResumeCurFrames(st: State, w: nat)
    requires HasCurrent(st, w)
    ensures CallsFramed(st, OnResumeCur(st, w))
  {
  }

  lemma LoopEffect(st: State, w: nat)
    requires StructOk(st) && AtPc(st, w, Loop)
    ensures var st' := LoopStep(st, w);
      CallsFramed(st, st') || ReturnsCall(st, st', st.workers[w].current)
  {
    assert WorkerOk(st, w);
    if Current(st, w).msgQueue == [] && !Current(st, w).stopping && !Current(st, w).wakeupSignal {
      WaitLockedEffect(st, w, LOOP_MASK);
    }
  }

  lemma OutsideFrames(st: State, a: Action)
    requires Enabled(st, a) && !ByWorker(a)
    ensures CallsFramed(st, Next(st, a))
  {
    match a
    case DoLaunch(s, kind) => LaunchFrames(st, s, kind);
    case DoWakeUp(s, e) => WakeupFrames(st, s, e);
    case DoInterrupt(s) => if InterruptService(st, s) != st { WakeupFrames(st, s, Interrupt); }
    case DoIoReady(s) => if OnIoReady(st, s) != st { WakeupFrames(st, s, IoOperation); }
    case DoStop(s) => StopFrames(st, s);
    case DoSend(s, payload) => SendFrames(st, s, payload);
  }

  lemma SwitchingFrames(st: State, a: Action)
    requires Enabled(st, a) && Switching(a)
    ensures CallsFramed(st, Next(st, a))
  {
    match a
    case DoFinishMain(w) =>
    case DoDie(w) =>
    case DoGetReady(w) => GetReadyFrames(st, w);
    case DoSwitch(w) => SwitchFrames(st, w);
    case DoJump(w) => JumpFrames(st, w);
    case DoResumePrev(w) => ResumePrevFrames(st, w);
    case DoResumeCur(w) => ResumeCurFrames(st, w);
    case DoIdleExit(w) =>
  }

  lemma WaitingEffect(st: State, a: Action)
    requires StructOk(st) && Enabled(st, a) && (a.DoWait? || a.DoCallWait? || a.DoWaitReturn? || a.DoLoop?)
    ensures CallsFramed(st, Next(st, a)) || ReturnsCall(st, Next(st, a), st.workers[a.w].current)
  {
    assert WorkerOk(st, a.w);
    match a
    case DoWait(w, mask) => WaitLockedEffect(st, w, mask);
    case DoCallWait(w) => WaitLockedEffect(st, w, {Response});
    case DoWaitReturn(w) => WaitReturnEffect(st, w);
    case DoLoop(w) => LoopEffect(st, w);
  }

  /** What a step other than the end of a handler does to calls: nothing, or it returns one, or it
      sends one. */
  lemma NextCallEffect(st: State, a: Action)
    requires StructOk(st) && Enabled(st, a) && !a.DoHandlerDone?
    ensures
      || CallsFramed(st, Next(st, a))
      || (ByWorker(a) && ReturnsCall(st, Next(st, a), st.workers[a.w].current))
      || (a.DoCallSend? && SendsCall(st, Next(st, a), st.workers[a.w].current, a.dest, a.id))
  {
    if !ByWorker(a) {
      OutsideFrames(st, a);
    } else if Switching(a) {
      SwitchingFrames(st, a);
    } else if a.DoCallSend? {
      CallSendKeepsOrSends(st, a.w, a.dest, a.id);
    } else {
      WaitingEffect(st, a);
    }
  }

  lemma NextKeepsCalls(st: State, a: Action)
    requires Inv(st) && Enabled(st, a)
    ensures CallsOk(Next(st, a))
  {
    if a.DoHandlerDone? {
      HandlerDoneKeepsCalls(st, a.w);
    } else {
      NextCallEffect(st, a);
      if CallsFramed(st, Next(st, a)) {
        CallsFrame(st, Next(st, a));
      } else if a.DoCallSend? {
        CallSendKeepsCalls(st, a.w, a.dest, a.id);
      } else {
        ReturnsKeepsCalls(st, Next(st, a), st.workers[a.w].current);
      }
    }
  }

  lemma NextKeepsInv(st: State, a: Action)
    requires Inv(st) && Enabled(st, a)
    ensures Inv(Next(st, a))
  {
    NextKeepsStruct(st, a);
    NextKeepsCalls(st, a);
  }

  lemma InitInv(st: State)
    requires Init(st)
    ensures Inv(st)
  {
    forall s | s in st.ctxs ensures CtxOk(st.ctxs[s]) && PlacedOk(st, s) { assert st.workers[s].idle == s; }
    forall w | 0 <= w < |st.workers| ensures WorkerOk(st, w) {}
  }

  lemma StepKeepsInv(st: State, st': State)
    requires Inv(st) && Step(st, st')
    ensures Inv(st')
  {
    var a :| Enabled(st, a) && st' == Next(st, a);
    NextKeepsInv(st, a);
  }

  lemma RunInv(run: seq<State>, i: nat)
    requires IsRun(run) && i < |run|
    ensures Inv(run[i])
  {
    InitInv(run[0]);
    forall st, st' | Inv(st) && Step(st, st') ensures Inv(st') { StepKeepsInv(st, st'); }
    Runs.Invariant(run, 0, i, st => Inv(st), (st, st') => Step(st, st'));
  }
}
