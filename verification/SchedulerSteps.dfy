/** Every step of the scheduler keeps the structural half of the invariant. */
module SchedulerSteps {
  import opened Options
  import opened Scheduler
  import opened SchedulerInvariant

  // ---------------------------------------------------------------- frames

  predicate Names(p: Place, w: nat) {
    !p.Parked? && !p.Queued? && p.worker == w
  }

  /** What a waker may change in a context that some worker holds. */
  predicate Similar(c: Context, d: Context) {
    && d.kind == c.kind && d.place == c.place && d.frame == c.frame && d.inHand == c.inHand && d.calling == c.calling
    && c.events <= d.events && (c.stopping ==> d.stopping)
  }

  /** A worker is unaffected by a step that leaves it and the contexts it holds alone. */
  lemma WorkerFrame(st: State, st': State, v: nat)
    requires v < |st.workers| && WorkerOk(st, v)
    requires v < |st'.workers| && st'.workers[v] == st.workers[v]
    requires forall s :: s in st.ctxs ==> s in st'.ctxs && st'.ctxs[s].kind == st.ctxs[s].kind
    requires forall s :: s in st.ctxs && Names(st.ctxs[s].place, v) ==> Similar(st.ctxs[s], st'.ctxs[s])
    ensures WorkerOk(st', v)
  {
    assert Names(Current(st, v).place, v);
  }

  lemma CtxsFrame(st: State, st': State, changed: set<nat>)
    requires CtxsOk(st)
    requires forall s :: s in st'.ctxs && s !in changed ==> s in st.ctxs && st'.ctxs[s] == st.ctxs[s]
    requires forall s {:trigger CtxOk(st'.ctxs[s])} :: s in changed && s in st'.ctxs ==> CtxOk(st'.ctxs[s])
    ensures CtxsOk(st')
  {
    forall s | s in st'.ctxs ensures CtxOk(st'.ctxs[s]) {
      if s !in changed { assert CtxOk(st.ctxs[s]); }
    }
  }

  /** Only worker w moved, and no other worker holds a context that changed. */
  lemma WorkersFrame(st: State, st': State, w: nat)
    requires WorkersOk(st) && |st'.workers| == |st.workers|
    requires w < |st.workers| ==> WorkerOk(st', w)
    requires forall v :: 0 <= v < |st.workers| && v != w ==> st'.workers[v] == st.workers[v]
    requires forall s :: s in st.ctxs ==> s in st'.ctxs && st'.ctxs[s].kind == st.ctxs[s].kind
    requires forall s :: s in st.ctxs && st'.ctxs[s] != st.ctxs[s] ==>
      Similar(st.ctxs[s], st'.ctxs[s]) || Within(st.ctxs[s].place, w)
    ensures WorkersOk(st')
  {
    forall v | 0 <= v < |st.workers| ensures WorkerOk(st', v) {
      if v != w { WorkerFrame(st, st', v); }
    }
  }

  // A place from which worker w may take a context, or at which it has it
  predicate Within(p: Place, w: nat) {
    p.Parked? || p.Queued? || p.worker == w
  }

  // Worker w moved and changed at most the contexts a and b, which no other worker holds
  ghost predicate PairChanged(st: State, st': State, w: nat, a: nat, ca: Context, b: nat, cb: Context) {
    && a in st.ctxs && b in st.ctxs && st'.ctxs == st.ctxs[a := ca][b := cb]
    && w < |st.workers| == |st'.workers|
    && (forall v :: 0 <= v < |st.workers| && v != w ==> st'.workers[v] == st.workers[v])
    && ca.kind == st.ctxs[a].kind && cb.kind == st.ctxs[b].kind
    && Within(st.ctxs[a].place, w) && Within(st.ctxs[b].place, w)
  }

  lemma PairKeepsWorkers(st: State, st': State, w: nat, a: nat, ca: Context, b: nat, cb: Context)
    requires WorkersOk(st) && PairChanged(st, st', w, a, ca, b, cb) && WorkerOk(st', w)
    ensures WorkersOk(st')
  {
    WorkersFrame(st, st', w);
  }

  lemma PairKeepsCtxs(st: State, st': State, w: nat, a: nat, ca: Context, b: nat, cb: Context)
    requires CtxsOk(st) && PairChanged(st, st', w, a, ca, b, cb) && CtxOk(ca) && CtxOk(cb)
    ensures CtxsOk(st')
  {
    CtxsFrame(st, st', {a, b});
  }

  /** The history of calls plays no part in the structure. */
  lemma HistoryKeepsStruct(st: State, st': State)
    requires StructOk(st) && st'.ctxs == st.ctxs && st'.workers == st.workers && st'.runQueue == st.runQueue
    ensures StructOk(st')
  {
    forall v | 0 <= v < |st.workers| ensures WorkerOk(st', v) { assert WorkerOk(st, v); }
    forall x | x in st'.ctxs ensures PlacedOk(st', x) { assert PlacedOk(st, x); }
  }

  /** A step by no worker that changes one context, leaving it where it is. */
  lemma TouchKeepsStruct(st: State, s: nat, c: Context)
    requires StructOk(st) && s in st.ctxs && Similar(st.ctxs[s], c) && CtxOk(c)
    ensures StructOk(SetCtx(st, s, c))
  {
    var st' := SetCtx(st, s, c);
    forall v | 0 <= v < |st.workers| ensures WorkerOk(st', v) { WorkerFrame(st, st', v); }
    forall x | x in st'.ctxs ensures PlacedOk(st', x) { assert PlacedOk(st, x); }
  }

  /** SetServiceStatus(kReady) and PutReadyService for a parked context. */
  lemma MakeReadyKeepsStruct(st: State, s: nat, c: Context)
    requires StructOk(st) && s in st.ctxs && st.ctxs[s].place == Parked
    requires c.kind == st.ctxs[s].kind && !c.kind.Idle? && CtxOk(c.(status := Ready, place := Queued))
    ensures StructOk(MakeReady(SetCtx(st, s, c), s))
  {
    var st' := MakeReady(SetCtx(st, s, c), s);
    forall v | 0 <= v < |st.workers| ensures WorkerOk(st', v) { WorkerFrame(st, st', v); }
    forall x | x in st'.ctxs ensures PlacedOk(st', x) {
      if x != s { assert PlacedOk(st, x); }
      assert st'.runQueue[|st.runQueue|] == s;
      assert forall i :: 0 <= i < |st.runQueue| ==> st'.runQueue[i] == st.runQueue[i];
    }
  }

  /** Worker w changes its own current context while it executes or decides. */
  lemma OwnStepKeepsStruct(st: State, w: nat, c: Context, prev: Option<nat>, pc: Pc)
    requires StructOk(st) && HasCurrent(st, w)
    requires st.workers[w].pc !in {Switched, ResumePrev} && !st.workers[w].pc.Picked?
    requires c.kind == Current(st, w).kind && CtxOk(c) && RunningOk(c, pc)
    requires if pc == Sched then c.place == Deciding(w) && !c.kind.Idle?
             else c.place == Executing(w) && pc in {Run, Loop, CallWait, Finishing, AfterWait, Exited}
    requires prev == None || prev == st.workers[w].prev
    ensures var st' := SetCtx(st, st.workers[w].current, c);
            StructOk(st'.(workers := st.workers[w := st.workers[w].(prev := prev, pc := pc)]))
  {
    var s := st.workers[w].current;
    var st' := SetCtx(st, s, c).(workers := st.workers[w := st.workers[w].(prev := prev, pc := pc)]);
    assert WorkerOk(st, w);
    OwnStepKeepsWorkers(st, st', w, c);
    CtxsFrame(st, st', {s});
    OwnStepKeepsPlaces(st, st', w, c, prev, pc);
  }

  lemma OwnStepKeepsPlaces(st: State, st': State, w: nat, c: Context, prev: Option<nat>, pc: Pc)
    requires PlacesOk(st) && QueueOk(st) && w < |st.workers| && WorkerOk(st, w)
    requires !st.workers[w].pc.Picked? && st.workers[w].pc !in {Switched, ResumePrev}
    requires c.place == Deciding(w) || c.place == Executing(w)
    requires st'.ctxs == st.ctxs[st.workers[w].current := c] && st'.runQueue == st.runQueue
    requires st'.workers == st.workers[w := st.workers[w].(prev := prev, pc := pc)]
    ensures PlacesOk(st') && QueueOk(st')
  {
    forall x | x in st'.ctxs ensures PlacedOk(st', x) {
      assert PlacedOk(st, x);
    }
  }

  lemma OwnStepKeepsWorkers(st: State, st': State, w: nat, c: Context)
    requires WorkersOk(st) && w < |st.workers| && WorkerOk(st, w) && c.kind == Current(st, w).kind
    requires Current(st, w).place in {Executing(w), Deciding(w), Resuming(w)}
    requires st'.ctxs == st.ctxs[st.workers[w].current := c] && |st'.workers| == |st.workers|
    requires forall v :: 0 <= v < |st.workers| && v != w ==> st'.workers[v] == st.workers[v]
    requires WorkerOk(st', w)
    ensures WorkersOk(st')
  {
    WorkersFrame(st, st', w);
  }

  // ---------------------------------------------------------------- wakers

  lemma WakeupKeepsStruct(st: State, s: nat, e: Event)
    requires StructOk(st) && s in st.ctxs
    ensures StructOk(WakeupLocked(st, s, e))
  {
    var c := st.ctxs[s].(events := st.ctxs[s].events + {e});
    assert CtxOk(st.ctxs[s]);
    if e !in c.waitEvents {
      TouchKeepsStruct(st, s, c);
    } else {
      var d := c.(wakeupSignal := true);
      assert e in c.events && e in c.waitEvents;
      if c.isSwapingOut || c.status != Blocked {
        TouchKeepsStruct(st, s, d);
      } else {
        MakeReadyKeepsStruct(st, s, d);
      }
    }
  }

  lemma LaunchKeepsStruct(st: State, s: nat, kind: Kind)
    requires StructOk(st) && s !in st.ctxs && kind != Idle
    ensures StructOk(LaunchService(st, s, kind))
  {
    var st1 := SetCtx(st, s, NewContext(kind, Blocked, if kind == UserThread then {ServiceStart} else LOOP_MASK));
    forall v | 0 <= v < |st.workers| ensures WorkerOk(st1, v) { WorkerFrame(st, st1, v); }
    forall x | x in st1.ctxs ensures PlacedOk(st1, x) { if x != s { assert PlacedOk(st, x); } }
    if kind == UserThread { WakeupKeepsStruct(st1, s, ServiceStart); }
  }

  // Raising the signal of a context, and requeueing it if it is parked
  function Signalled(st: State, s: nat, d: Context): State
    requires s in st.ctxs
  {
    if d.isSwapingOut || d.status != Blocked then SetCtx(st, s, d) else MakeReady(SetCtx(st, s, d), s)
  }

  lemma SignalKeepsStruct(st: State, s: nat, d: Context)
    requires StructOk(st) && s in st.ctxs && Similar(st.ctxs[s], d)
    requires if d.isSwapingOut || d.status != Blocked then CtxOk(d)
             else d.place == Parked && !d.kind.Idle? && CtxOk(d.(status := Ready, place := Queued))
    ensures StructOk(Signalled(st, s, d))
  {
    if d.isSwapingOut || d.status != Blocked {
      TouchKeepsStruct(st, s, d);
    } else {
      MakeReadyKeepsStruct(st, s, d);
    }
  }

  lemma StopIsSignal(st: State, s: nat)
    requires s in st.ctxs && !st.ctxs[s].stopping
    ensures
      var c := st.ctxs[s].(stopping := true, events := st.ctxs[s].events + {ServiceStop});
      StopService(st, s) ==
        if ServiceStop in c.waitEvents then Signalled(st, s, c.(wakeupSignal := true)) else SetCtx(st, s, c)
  {
  }

  lemma StopKeepsStruct(st: State, s: nat)
    requires StructOk(st) && s in st.ctxs
    ensures StructOk(StopService(st, s))
  {
    assert CtxOk(st.ctxs[s]);
    if !st.ctxs[s].stopping {
      var c := st.ctxs[s].(stopping := true, events := st.ctxs[s].events + {ServiceStop});
      StopIsSignal(st, s);
      if ServiceStop !in c.waitEvents {
        TouchKeepsStruct(st, s, c);
      } else {
        assert ServiceStop in c.events && ServiceStop in c.waitEvents;
        SignalKeepsStruct(st, s, c.(wakeupSignal := true));
      }
    }
  }

  lemma SendKeepsStruct(st: State, s: nat, m: Msg)
    requires StructOk(st) && s in st.ctxs
    ensures StructOk(SendMessage(st, s, m))
  {
    var c := st.ctxs[s].(msgQueue := st.ctxs[s].msgQueue + [m], accepted := st.ctxs[s].accepted + [m]);
    assert CtxOk(st.ctxs[s]);
    if Accepts(st.ctxs[s]) {
      assert c.accepted == c.handled + InHand(c) + c.msgQueue;
      if Message !in c.waitEvents {
        TouchKeepsStruct(st, s, c);
      } else {
        var d := c.(events := c.events + {Message}, wakeupSignal := true);
        var st1 := SetCtx(st, s, c);
        assert Message in d.events && Message in d.waitEvents;
        assert SetCtx(st1, s, d) == SetCtx(st, s, d);
        if c.isSwapingOut || c.status != Blocked {
          TouchKeepsStruct(st, s, d);
        } else {
          MakeReadyKeepsStruct(st, s, d);
        }
      }
    }
  }

  // ---------------------------------------------------------------- waiting

  lemma FinishWaitKeepsStruct(st: State, w: nat, c: Context)
    requires StructOk(st) && HasCurrent(st, w)
    requires st.workers[w].pc in {Run, Loop, CallWait, AfterWait} && !Current(st, w).kind.Idle?
    requires c == Current(st, w).(waitEvents := {}, events := c.events)
    ensures StructOk(FinishWait(st, w, c))
  {
    assert WorkerOk(st, w) && CtxOk(Current(st, w));
    var pc := if c.kind.MessageDriven? && c.inHand.None? then Loop else Run;
    OwnStepKeepsStruct(st, w, c.(calling := None), st.workers[w].prev, pc);
    HistoryKeepsStruct(SetCurrent(st, w, c.(calling := None), pc), FinishWait(st, w, c));
  }

  lemma BlockKeepsStruct(st: State, w: nat, c: Context, mask: Mask)
    requires StructOk(st) && HasCurrent(st, w)
    requires st.workers[w].pc in {Run, Loop, CallWait} && !Current(st, w).kind.Idle?
    requires if st.workers[w].pc == CallWait then mask == {Response}
             else if st.workers[w].pc == Loop then mask == LOOP_MASK && c.msgQueue == []
             else mask !! {Message, Response}
    requires c == Current(st, w).(waitEvents := {})
    requires c.events !! mask && !(c.stopping && ServiceStop in mask)
    ensures StructOk(Block(st, w, c, mask))
  {
    assert WorkerOk(st, w) && CtxOk(Current(st, w));
    var d :=
      c.(status := Blocked, isSwapingOut := true, waitEvents := mask, frame := InWait(mask), place := Deciding(w));
    OwnStepKeepsStruct(st, w, d, st.workers[w].prev, Sched);
  }

  lemma WaitLockedKeepsStruct(st: State, w: nat, mask: Mask)
    requires StructOk(st) && HasCurrent(st, w)
    requires st.workers[w].pc in {Run, Loop, CallWait} && !Current(st, w).kind.Idle?
    requires if st.workers[w].pc == CallWait then mask == {Response}
             else if st.workers[w].pc == Loop then mask == LOOP_MASK && Current(st, w).msgQueue == []
             else mask !! {Message, Response}
    ensures StructOk(WaitLocked(st, w, mask))
  {
    var c := Current(st, w).(waitEvents := {});
    if c.stopping && ServiceStop in mask {
      FinishWaitKeepsStruct(st, w, c);
    } else if !(c.events !! mask) {
      FinishWaitKeepsStruct(st, w, c.(events := c.events - mask));
    } else {
      BlockKeepsStruct(st, w, c, mask);
    }
  }

  lemma WaitReturnKeepsStruct(st: State, w: nat)
    requires StructOk(st) && AtPc(st, w, AfterWait) && Current(st, w).frame.InWait?
    ensures !(Current(st, w).events !! Current(st, w).frame.mask)
    ensures StructOk(WaitReturn(st, w))
  {
    var c := Current(st, w);
    assert WorkerOk(st, w) && CtxOk(c);
    FinishWaitKeepsStruct(st, w, c.(events := c.events - c.frame.mask));
  }

  // ---------------------------------------------------------------- service code

  lemma LoopKeepsStruct(st: State, w: nat)
    requires StructOk(st) && AtPc(st, w, Loop)
    ensures StructOk(LoopStep(st, w))
  {
    var c := Current(st, w);
    assert WorkerOk(st, w) && CtxOk(c);
    if c.msgQueue != [] {
      var d := c.(msgQueue := c.msgQueue[1..], inHand := Some(c.msgQueue[0]));
      assert c.msgQueue == [c.msgQueue[0]] + c.msgQueue[1..];
      OwnStepKeepsStruct(st, w, d, st.workers[w].prev, Run);
    } else if c.stopping {
      OwnStepKeepsStruct(st, w, c.(status := Dead, place := Deciding(w)), st.workers[w].prev, Sched);
    } else {
      WaitLockedKeepsStruct(st, w, LOOP_MASK);
    }
  }

  lemma MessageDoneKeepsStruct(st: State, w: nat)
    requires StructOk(st) && AtPc(st, w, Run) && Current(st, w).inHand.Some?
    ensures
      var c := Current(st, w);
      StructOk(SetCurrent(st, w, c.(inHand := None, handled := c.handled + [c.inHand.value]), Loop))
  {
    var c := Current(st, w);
    assert WorkerOk(st, w) && CtxOk(c);
    OwnStepKeepsStruct(st, w, c.(inHand := None, handled := c.handled + [c.inHand.value]), st.workers[w].prev, Loop);
  }

  lemma WakeupKeepsCurrent(st: State, w: nat, s: nat, e: Event)
    requires AtPc(st, w, Run) && s in st.ctxs
    ensures AtPc(WakeupLocked(st, s, e), w, Run)
    ensures Current(WakeupLocked(st, s, e), w).inHand == Current(st, w).inHand
    ensures Current(WakeupLocked(st, s, e), w).handled == Current(st, w).handled
  {
  }

  lemma HandlerDoneIs(st: State, w: nat, st1: State)
    requires AtPc(st, w, Run) && Current(st, w).inHand.Some?
    requires AtPc(st1, w, Run) && Current(st1, w).inHand == Current(st, w).inHand
    requires var m := Current(st, w).inHand.value;
      st1 == if m.Call? && m.caller in st.ctxs then WakeupLocked(st, m.caller, Response) else st
    ensures
      var c := Current(st1, w);
      var done := SetCurrent(st1, w, c.(inHand := None, handled := c.handled + [c.inHand.value]), Loop);
      var st' := HandlerDone(st, w);
      st'.ctxs == done.ctxs && st'.workers == done.workers && st'.runQueue == done.runQueue
  {
  }

  lemma HandlerDoneKeepsStruct(st: State, w: nat)
    requires StructOk(st) && AtPc(st, w, Run) && Current(st, w).inHand.Some?
    ensures StructOk(HandlerDone(st, w))
  {
    var m := Current(st, w).inHand.value;
    var st1 := if m.Call? && m.caller in st.ctxs then WakeupLocked(st, m.caller, Response) else st;
    if m.Call? && m.caller in st.ctxs {
      WakeupKeepsStruct(st, m.caller, Response);
      WakeupKeepsCurrent(st, w, m.caller, Response);
    }
    var c := Current(st1, w);
    MessageDoneKeepsStruct(st1, w);
    HandlerDoneIs(st, w, st1);
    var done := SetCurrent(st1, w, c.(inHand := None, handled := c.handled + [c.inHand.value]), Loop);
    HistoryKeepsStruct(done, HandlerDone(st, w));
  }

  lemma CallSendKeepsStruct(st: State, w: nat, d: nat, id: nat)
    requires StructOk(st) && CanCall(st, w, d, id)
    ensures StructOk(CallSend(st, w, d, id))
  {
    if Accepts(st.ctxs[d]) {
      var st1 := SendMessage(st, d, Call(id, st.workers[w].current));
      assert WorkerOk(st, w);
      SendKeepsStruct(st, d, Call(id, st.workers[w].current));
      assert WorkerOk(st1, w) && CtxOk(Current(st1, w));
      var c := Current(st1, w).(calling := Some(id));
      OwnStepKeepsStruct(st1, w, c, st.workers[w].prev, CallWait);
      HistoryKeepsStruct(SetCurrent(st1, w, c, CallWait), CallSend(st, w, d, id));
    }
  }

  lemma FinishMainKeepsStruct(st: State, w: nat)
    requires StructOk(st) && AtPc(st, w, Run) && Current(st, w).kind == UserThread
    ensures StructOk(FinishMain(st, w))
  {
    var c := Current(st, w);
    assert WorkerOk(st, w) && CtxOk(c);
    OwnStepKeepsStruct(st, w, c.(stopping := true), st.workers[w].prev, Finishing);
  }

  lemma DieKeepsStruct(st: State, w: nat)
    requires StructOk(st) && AtPc(st, w, Finishing)
    ensures StructOk(Die(st, w))
  {
    var c := Current(st, w);
    assert WorkerOk(st, w) && CtxOk(c);
    OwnStepKeepsStruct(st, w, c.(status := Dead, place := Deciding(w)), st.workers[w].prev, Sched);
  }

  lemma IdleExitKeepsStruct(st: State, w: nat)
    requires StructOk(st) && AtPc(st, w, Run) && Current(st, w).kind == Idle && st.runQueue == []
    ensures StructOk(IdleExit(st, w))
  {
    var c := Current(st, w);
    assert WorkerOk(st, w) && CtxOk(c);
    OwnStepKeepsStruct(st, w, c.(stopping := true, status := Dead), st.workers[w].prev, Exited);
  }

  // ---------------------------------------------------------------- switching

  lemma ResumeCurKeepsStruct(st: State, w: nat)
    requires StructOk(st) && AtPc(st, w, ResumeCur)
    ensures StructOk(OnResumeCur(st, w))
  {
    var c := Current(st, w);
    assert WorkerOk(st, w) && CtxOk(c);
    var d := c.(wakeupSignal := false, waitEvents := {}, status := Running, place := Executing(w));
    var pc := if c.kind.Idle? then Run else if c.frame.InWait? then AfterWait
              else if c.kind.MessageDriven? then Loop else Run;
    OwnStepKeepsStruct(st, w, d, None, pc);
  }

  /** The idle service of a worker that is choosing a successor is parked or current. */
  lemma IdleAvailable(st: State, w: nat)
    requires StructOk(st) && CanPick(st, w)
    ensures st.ctxs[st.workers[w].idle].place == Parked || st.workers[w].idle == st.workers[w].current
  {
    var i := st.workers[w].idle;
    assert WorkerOk(st, w) && PlacedOk(st, i) && CtxOk(st.ctxs[i]);
    if !st.ctxs[i].place.Parked? {
      assert WorkerOk(st, st.ctxs[i].place.worker);
    }
  }

  lemma GetReadyPair(st: State, w: nat) returns (a: Context, b: Context)
    requires CanPick(st, w) && WorkerOk(st, w) && QueueOk(st)
    requires st.ctxs[st.workers[w].idle].place == Parked || st.workers[w].idle == st.workers[w].current
    requires CtxOk(Current(st, w)) && CtxOk(st.ctxs[GetReadyService(st, w).workers[w].pc.next])
    ensures var st' := GetReadyService(st, w);
      PairChanged(st, st', w, st.workers[w].current, a, st'.workers[w].pc.next, b)
    ensures CtxOk(a) && CtxOk(b)
  {
    var next := GetReadyService(st, w).workers[w].pc.next;
    a := Current(st, w).(place := Deciding(w));
    b := GetReadyService(st, w).ctxs[next];
    if next == st.workers[w].current { a := b; }
  }

  lemma GetReadyOwnWorker(st: State, w: nat)
    requires CanPick(st, w) && WorkerOk(st, w) && QueueOk(st)
    requires st.ctxs[st.workers[w].idle].place == Parked || st.workers[w].idle == st.workers[w].current
    requires CtxOk(st.ctxs[GetReadyService(st, w).workers[w].pc.next])
    ensures WorkerOk(GetReadyService(st, w), w)
  {
  }

  lemma GetReadyKeepsPlaces(st: State, w: nat)
    requires PlacesOk(st) && WorkersOk(st) && QueueOk(st) && CanPick(st, w)
    ensures PlacesOk(GetReadyService(st, w))
  {
    assert WorkerOk(st, w);
    forall x | x in GetReadyService(st, w).ctxs ensures PlacedOk(GetReadyService(st, w), x) {
      assert PlacedOk(st, x);
    }
  }

  lemma GetReadyKeepsHeld(st: State, w: nat)
    requires CtxsOk(st) && WorkersOk(st) && QueueOk(st) && CanPick(st, w)
    requires st.ctxs[st.workers[w].idle].place == Parked || st.workers[w].idle == st.workers[w].current
    ensures CtxsOk(GetReadyService(st, w)) && WorkersOk(GetReadyService(st, w))
  {
    var st' := GetReadyService(st, w);
    var cur, next := st.workers[w].current, st'.workers[w].pc.next;
    assert WorkerOk(st, w) && CtxOk(st.ctxs[cur]) && CtxOk(st.ctxs[next]);
    var a, b := GetReadyPair(st, w);
    GetReadyOwnWorker(st, w);
    PairKeepsCtxs(st, st', w, cur, a, next, b);
    PairKeepsWorkers(st, st', w, cur, a, next, b);
  }

  lemma GetReadyKeepsQueue(st: State, w: nat)
    requires QueueOk(st) && IdlesDistinct(st) && CanPick(st, w) && WorkerOk(st, w)
    requires st.ctxs[st.workers[w].idle].place == Parked || st.workers[w].idle == st.workers[w].current
    ensures QueueOk(GetReadyService(st, w)) && IdlesDistinct(GetReadyService(st, w))
  {
    var st' := GetReadyService(st, w);
    if st.runQueue != [] {
      assert forall i :: 0 <= i < |st'.runQueue| ==> st'.runQueue[i] == st.runQueue[i + 1];
    }
  }

  lemma GetReadyKeepsStruct(st: State, w: nat)
    requires StructOk(st) && CanPick(st, w)
    ensures StructOk(GetReadyService(st, w))
  {
    assert WorkerOk(st, w);
    IdleAvailable(st, w);
    GetReadyKeepsHeld(st, w);
    GetReadyKeepsPlaces(st, w);
    GetReadyKeepsQueue(st, w);
  }

  // What SwitchTo leaves of the two contexts
  lemma SwitchPair(st: State, w: nat) returns (a: Context, b: Context)
    requires HasCurrent(st, w) && st.workers[w].pc.Picked?
    requires WorkerOk(st, w) && CtxOk(Current(st, w)) && CtxOk(st.ctxs[st.workers[w].pc.next])
    ensures PairChanged(st, SwitchTo(st, w), w, st.workers[w].current, a, st.workers[w].pc.next, b)
    ensures CtxOk(a) && CtxOk(b)
  {
    var cur, next := st.workers[w].current, st.workers[w].pc.next;
    if cur == next {
      a := Current(st, w).(place := Executing(w));
      b := a;
    } else {
      a := Current(st, w).(isSwapingOut := true, place := Leaving(w));
      b := st.ctxs[next].(place := Arriving(w));
    }
  }

  lemma SwitchOwnWorker(st: State, w: nat)
    requires HasCurrent(st, w) && st.workers[w].pc.Picked? && WorkerOk(st, w) && CtxOk(Current(st, w))
    ensures WorkerOk(SwitchTo(st, w), w)
  {
  }

  lemma SwitchKeepsPlaces(st: State, w: nat)
    requires PlacesOk(st) && WorkersOk(st) && QueueOk(st) && HasCurrent(st, w) && st.workers[w].pc.Picked?
    ensures PlacesOk(SwitchTo(st, w))
  {
    assert WorkerOk(st, w);
    forall x | x in SwitchTo(st, w).ctxs ensures PlacedOk(SwitchTo(st, w), x) {
      assert PlacedOk(st, x);
    }
  }

  lemma SwitchKeepsHeld(st: State, w: nat)
    requires CtxsOk(st) && WorkersOk(st) && HasCurrent(st, w) && st.workers[w].pc.Picked?
    ensures CtxsOk(SwitchTo(st, w)) && WorkersOk(SwitchTo(st, w))
  {
    var cur, next := st.workers[w].current, st.workers[w].pc.next;
    assert WorkerOk(st, w) && CtxOk(st.ctxs[cur]) && CtxOk(st.ctxs[next]);
    var a, b := SwitchPair(st, w);
    SwitchOwnWorker(st, w);
    PairKeepsCtxs(st, SwitchTo(st, w), w, cur, a, next, b);
    PairKeepsWorkers(st, SwitchTo(st, w), w, cur, a, next, b);
  }

  lemma SwitchKeepsQueue(st: State, w: nat)
    requires QueueOk(st) && IdlesDistinct(st) && HasCurrent(st, w) && st.workers[w].pc.Picked? && WorkerOk(st, w)
    ensures QueueOk(SwitchTo(st, w)) && IdlesDistinct(SwitchTo(st, w))
  {
  }

  lemma SwitchKeepsStruct(st: State, w: nat)
    requires StructOk(st) && HasCurrent(st, w) && st.workers[w].pc.Picked?
    ensures StructOk(SwitchTo(st, w))
  {
    assert WorkerOk(st, w);
    SwitchKeepsHeld(st, w);
    SwitchKeepsPlaces(st, w);
    SwitchKeepsQueue(st, w);
  }

  lemma JumpPair(st: State, w: nat) returns (a: Context, b: Context)
    requires AtPc(st, w, Switched) && st.workers[w].prev.Some?
    requires WorkerOk(st, w) && CtxOk(Current(st, w)) && CtxOk(st.ctxs[st.workers[w].prev.value])
    ensures PairChanged(st, Jump(st, w), w, st.workers[w].prev.value, a, st.workers[w].current, b)
    ensures CtxOk(a) && CtxOk(b)
  {
    a := st.ctxs[st.workers[w].prev.value].(saved := true, place := Left(w));
    b := Current(st, w).(saved := false, place := Resuming(w));
  }

  lemma JumpOwnWorker(st: State, w: nat)
    requires AtPc(st, w, Switched) && st.workers[w].prev.Some? && WorkerOk(st, w)
    ensures WorkerOk(Jump(st, w), w)
  {
  }

  lemma JumpKeepsPlaces(st: State, w: nat)
    requires PlacesOk(st) && WorkersOk(st) && QueueOk(st) && AtPc(st, w, Switched) && st.workers[w].prev.Some?
    ensures PlacesOk(Jump(st, w))
  {
    assert WorkerOk(st, w);
    forall x | x in Jump(st, w).ctxs ensures PlacedOk(Jump(st, w), x) {
      assert PlacedOk(st, x);
    }
  }

  lemma JumpKeepsHeld(st: State, w: nat)
    requires CtxsOk(st) && WorkersOk(st) && AtPc(st, w, Switched) && st.workers[w].prev.Some?
    ensures CtxsOk(Jump(st, w)) && WorkersOk(Jump(st, w))
  {
    var cur, prev := st.workers[w].current, st.workers[w].prev.value;
    assert WorkerOk(st, w) && CtxOk(st.ctxs[cur]) && CtxOk(st.ctxs[prev]);
    var a, b := JumpPair(st, w);
    JumpOwnWorker(st, w);
    PairKeepsCtxs(st, Jump(st, w), w, prev, a, cur, b);
    PairKeepsWorkers(st, Jump(st, w), w, prev, a, cur, b);
  }

  lemma JumpKeepsQueue(st: State, w: nat)
    requires QueueOk(st) && IdlesDistinct(st) && AtPc(st, w, Switched) && st.workers[w].prev.Some? && WorkerOk(st, w)
    ensures QueueOk(Jump(st, w)) && IdlesDistinct(Jump(st, w))
  {
  }

  lemma JumpKeepsStruct(st: State, w: nat)
    requires StructOk(st) && AtPc(st, w, Switched) && st.workers[w].prev.Some?
    ensures StructOk(Jump(st, w))
  {
    assert WorkerOk(st, w);
    JumpKeepsHeld(st, w);
    JumpKeepsPlaces(st, w);
    JumpKeepsQueue(st, w);
  }

  lemma ResumePrevPair(st: State, w: nat) returns (a: Context)
    requires AtPc(st, w, ResumePrev) && WorkerOk(st, w) && st.workers[w].prev.Some?
    requires CtxOk(st.ctxs[st.workers[w].prev.value])
    ensures PairChanged(st, OnResumePrev(st, w), w, st.workers[w].prev.value, a, st.workers[w].prev.value, a)
    ensures CtxOk(a)
  {
    a := OnResumePrev(st, w).ctxs[st.workers[w].prev.value];
  }

  lemma ResumePrevFirst(st: State, w: nat)
    requires AtPc(st, w, ResumePrev) && WorkerOk(st, w) && st.workers[w].prev.None? && CtxOk(Current(st, w))
    ensures var s, c := st.workers[w].current, Current(st, w);
      PairChanged(st, OnResumePrev(st, w), w, s, c, s, c)
  {
  }

  lemma ResumePrevOwnWorker(st: State, w: nat)
    requires AtPc(st, w, ResumePrev) && WorkerOk(st, w)
    ensures WorkerOk(OnResumePrev(st, w), w)
  {
  }

  lemma ResumePrevKeepsPlaces(st: State, w: nat)
    requires PlacesOk(st) && WorkersOk(st) && QueueOk(st) && AtPc(st, w, ResumePrev)
    ensures PlacesOk(OnResumePrev(st, w))
  {
    var st' := OnResumePrev(st, w);
    assert WorkerOk(st, w);
    assert |st'.runQueue| == |st.runQueue| || st'.runQueue[|st.runQueue|] == st.workers[w].prev.value;
    forall x | x in OnResumePrev(st, w).ctxs ensures PlacedOk(OnResumePrev(st, w), x) {
      assert PlacedOk(st, x);
    }
  }

  lemma ResumePrevKeepsHeld(st: State, w: nat)
    requires CtxsOk(st) && WorkersOk(st) && AtPc(st, w, ResumePrev)
    ensures CtxsOk(OnResumePrev(st, w)) && WorkersOk(OnResumePrev(st, w))
  {
    var st', cur := OnResumePrev(st, w), st.workers[w].current;
    assert WorkerOk(st, w);
    ResumePrevOwnWorker(st, w);
    if st.workers[w].prev.None? {
      assert CtxOk(st.ctxs[cur]);
      ResumePrevFirst(st, w);
      PairKeepsCtxs(st, st', w, cur, st.ctxs[cur], cur, st.ctxs[cur]);
      PairKeepsWorkers(st, st', w, cur, st.ctxs[cur], cur, st.ctxs[cur]);
    } else {
      var p := st.workers[w].prev.value;
      assert CtxOk(st.ctxs[p]);
      var a := ResumePrevPair(st, w);
      PairKeepsCtxs(st, st', w, p, a, p, a);
      PairKeepsWorkers(st, st', w, p, a, p, a);
    }
  }

  lemma ResumePrevKeepsQueue(st: State, w: nat)
    requires QueueOk(st) && IdlesDistinct(st) && AtPc(st, w, ResumePrev) && WorkerOk(st, w)
    ensures QueueOk(OnResumePrev(st, w)) && IdlesDistinct(OnResumePrev(st, w))
  {
  }

  lemma ResumePrevKeepsStruct(st: State, w: nat)
    requires StructOk(st) && AtPc(st, w, ResumePrev)
    ensures StructOk(OnResumePrev(st, w))
  {
    assert WorkerOk(st, w);
    ResumePrevKeepsHeld(st, w);
    ResumePrevKeepsPlaces(st, w);
    ResumePrevKeepsQueue(st, w);
  }
}
