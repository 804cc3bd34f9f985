/** The methods of System over its mutable fields, in the order in which the code updates them.  Each
    performs the step of the same name in module Scheduler, keeps the object valid, and so everything
    in SchedulerTheorems true of it, and promises its caller what the step is for. */
module SystemMethods {
  import opened Options
  import S = Scheduler
  import opened Scheduler
  import opened SchedulerInvariant
  import opened SchedulerCalls
  import opened SchedulerTheorems
  import opened SchedulerEffects

  // Poll events of a file descriptor
  type IoMask = set<nat>

  const STOP_OR_INTERRUPT: Mask := {ServiceStop, Interrupt}

  /** How Wait_Locked leaves c: a stop returns at once, an awaited event that is there is consumed, with
      all that the mask has and nothing else, and otherwise the service blocks on the mask. */
  predicate WaitedFor(c: Context, c': Context, mask: Mask, revents: Option<Mask>) {
    if c.stopping && ServiceStop in mask then revents == Some({ServiceStop}) && c'.events == c.events
    else if !(c.events !! mask) then revents == Some(c.events * mask) && c'.events == c.events - mask
    else
      && revents == None && c'.events == c.events && c'.status == Blocked && c'.isSwapingOut
      && c'.waitEvents == mask && c'.frame == InWait(mask)
  }

  lemma WaitLockedEnds(st: State, w: nat, mask: Mask)
    requires HasCurrent(st, w)
    ensures
      var c, s := Current(st, w), st.workers[w].current;
      var revents := if c.stopping && ServiceStop in mask then Some({ServiceStop})
                     else if c.events !! mask then None else Some(c.events * mask);
      s in S.WaitLocked(st, w, mask).ctxs && WaitedFor(c, S.WaitLocked(st, w, mask).ctxs[s], mask, revents)
  {
  }

  class System {
    var contexts: map<nat, Context>
    var workers: seq<Worker>
    var runQueue: seq<nat>
    // io_events of each context
    var ioEvents: map<nat, IoMask>
    // history
    var calls: map<nat, CallInfo>
    var completed: set<nat>
    var returned: set<nat>

    function State(): State
      reads this
    {
      S.State(contexts, workers, runQueue, calls, completed, returned)
    }

    /** By SchedulerTheorems.InvSafe a valid object has all the properties of a reachable state. */
    ghost predicate Valid()
      reads this
    {
      Inv(State())
    }

    /** n workers that have each just jumped into their own idle service. */
    constructor (n: nat)
      ensures Valid() && Init(State()) && |workers| == n
    {
      contexts := map w: nat | 0 <= w < n :: NewContext(Idle, Ready, {}).(saved := false, place := Resuming(w));
      workers := seq(n, w requires 0 <= w < n => Worker(w, w, None, ResumePrev));
      runQueue, ioEvents, calls, completed, returned := [], map[], map[], {}, {};
      new;
      InitInv(State());
    }

    // -------------------------------------------------------------- wakers

    method PutReadyService(s: nat)
      requires s in contexts
      modifies this`contexts, this`runQueue
      ensures old(contexts[s]).kind.Idle? ==> State() == old(State())
      ensures !old(contexts[s]).kind.Idle? ==>
        State() == old(SetCtx(State(), s, contexts[s].(place := Queued)).(runQueue := runQueue + [s]))
    {
      if contexts[s].kind == Idle {
        return;
      }
      runQueue := runQueue + [s];
      contexts := contexts[s := contexts[s].(place := Queued)];
    }

    /** Wakeup_Locked, for a caller that holds the context's mutex. */
    method WakeupLocked(s: nat, e: Event) returns (awaited: bool)
      requires s in contexts
      modifies this`contexts, this`runQueue
      ensures State() == S.WakeupLocked(old(State()), s, e)
      ensures awaited <==> e in old(contexts[s].waitEvents)
      ensures s in contexts
      ensures !(old(contexts[s]).kind.Idle? && old(contexts[s].status) == Blocked) ==>
        Wakes(old(contexts[s]), old(runQueue), contexts[s], runQueue, s, e)
    {
      contexts := contexts[s := contexts[s].(events := contexts[s].events + {e})];
      if e !in contexts[s].waitEvents {
        return false;
      }
      contexts := contexts[s := contexts[s].(wakeupSignal := true)];
      if contexts[s].isSwapingOut {
        return true;
      }
      if contexts[s].status == Blocked {
        contexts := contexts[s := contexts[s].(status := Ready)];
        PutReadyService(s);
      }
      return true;
    }

    /** An awaited wakeup is never lost: it requeues a parked service at once, and leaves the signal
        for one that is still being switched out. */
    method WakeUp(s: nat, e: Event) returns (awaited: bool)
      requires Valid() && Enabled(State(), DoWakeUp(s, e))
      modifies this`contexts, this`runQueue
      ensures Valid() && State() == S.WakeupLocked(old(State()), s, e)
      ensures awaited <==> e in old(contexts[s].waitEvents)
      ensures s in contexts && Wakes(old(contexts[s]), old(runQueue), contexts[s], runQueue, s, e)
    {
      NextKeepsInv(State(), DoWakeUp(s, e));
      BlockedIsService(State(), s);
      awaited := WakeupLocked(s, e);
    }

    method StopService(s: nat)
      requires Valid() && s in contexts
      modifies this`contexts, this`runQueue
      ensures Valid() && State() == S.StopService(old(State()), s)
      ensures s in contexts && contexts[s].stopping
      ensures if old(contexts[s].stopping) then State() == old(State())
              else Wakes(old(contexts[s]), old(runQueue), contexts[s], runQueue, s, ServiceStop)
      // no service stays parked, unsignalled, on a mask with kServiceStop
      ensures contexts[s].status == Blocked && ServiceStop in contexts[s].waitEvents ==>
        contexts[s].wakeupSignal && exists w :: Holds(State(), w, s)
    {
      NextKeepsInv(State(), DoStop(s));
      StopReaches(State(), s);
      BlockedIsService(State(), s);
      if contexts[s].stopping {
        return;
      }
      contexts := contexts[s := contexts[s].(stopping := true)];
      var _ := WakeupLocked(s, ServiceStop);
    }

    method InterruptService(s: nat)
      requires Valid() && s in contexts
      modifies this`contexts, this`runQueue
      ensures Valid() && State() == S.InterruptService(old(State()), s)
      ensures s in contexts
      ensures if old(contexts[s].status) != Blocked || Interrupt !in old(contexts[s].waitEvents) then
                State() == old(State())
              else Wakes(old(contexts[s]), old(runQueue), contexts[s], runQueue, s, Interrupt)
    {
      BlockedIsService(State(), s);
      NextKeepsInv(State(), DoInterrupt(s));
      if contexts[s].status == Blocked && Interrupt in contexts[s].waitEvents {
        var _ := WakeupLocked(s, Interrupt);
      }
    }

    /** A service that awaits its descriptor is woken, and the poll events are recorded for it. */
    method OnIoReady(s: nat, events: IoMask)
      requires Valid() && s in contexts
      modifies this`contexts, this`runQueue, this`ioEvents
      ensures Valid() && State() == S.OnIoReady(old(State()), s)
      ensures ioEvents ==
        if IoOperation in old(contexts[s].waitEvents) then old(ioEvents)[s := events] else old(ioEvents)
      ensures s in contexts
      ensures if IoOperation !in old(contexts[s].waitEvents) then State() == old(State())
              else Wakes(old(contexts[s]), old(runQueue), contexts[s], runQueue, s, IoOperation)
    {
      BlockedIsService(State(), s);
      NextKeepsInv(State(), DoIoReady(s));
      if IoOperation in contexts[s].waitEvents {
        ioEvents := ioEvents[s := events];
        var _ := WakeupLocked(s, IoOperation);
      }
    }

    method SendStringMessage(s: nat, text: nat) returns (ok: bool)
      requires Valid() && s in contexts
      modifies this`contexts, this`runQueue
      ensures Valid() && State() == S.SendMessage(old(State()), s, Plain(text))
      ensures ok <==> !old(contexts[s].stopping) && old(contexts[s].status) != Created
      ensures s in contexts && (!ok ==> State() == old(State()))
      ensures ok ==>
        var c, c' := old(contexts[s]), contexts[s];
        && c'.msgQueue == c.msgQueue + [Plain(text)] && c'.accepted == c.accepted + [Plain(text)]
        && if Message in c.waitEvents then Wakes(c, old(runQueue), c', runQueue, s, Message)
           else c'.events == c.events && c'.status == c.status && runQueue == old(runQueue)
    {
      BlockedIsService(State(), s);
      NextKeepsInv(State(), DoSend(s, text));
      ok := SendMessage(s, Plain(text));
    }

    /** False stands for Status(kNotFound). */
    method SendMessage(s: nat, m: Msg) returns (ok: bool)
      requires s in contexts
      modifies this`contexts, this`runQueue
      ensures State() == S.SendMessage(old(State()), s, m)
      ensures ok <==> Accepts(old(contexts[s]))
    {
      if contexts[s].stopping || contexts[s].status == Created {
        return false;
      }
      var c := contexts[s];
      contexts := contexts[s := c.(msgQueue := c.msgQueue + [m], accepted := c.accepted + [m])];
      if Message in contexts[s].waitEvents {
        var _ := WakeupLocked(s, Message);
      }
      return true;
    }

    // The locked section of LaunchService.  The failure path of a user thread, whose wakeup is not
    // awaited, is never taken.
    method AddService(s: nat, kind: Kind)
      requires s !in contexts && kind != Idle
      modifies this`contexts, this`runQueue
      ensures State() == S.LaunchService(old(State()), s, kind)
    {
      contexts := contexts[s := NewContext(kind, Created, {})];
      contexts := contexts[s := contexts[s].(status := Blocked)];
      if kind == UserThread {
        contexts := contexts[s := contexts[s].(waitEvents := {ServiceStart})];
        var ok := WakeupLocked(s, ServiceStart);
        if !ok {
          assert false;
        }
      } else {
        contexts := contexts[s := contexts[s].(waitEvents := LOOP_MASK)];
      }
    }

    /** Nothing is launched in a stopped system or without a context. */
    method LaunchService(s: nat, kind: Kind, systemStopped: bool, contextCreated: bool) returns (ok: bool)
      requires Valid() && Enabled(State(), DoLaunch(s, kind))
      modifies this`contexts, this`runQueue
      ensures Valid() && (ok <==> !systemStopped && contextCreated)
      ensures State() == if ok then S.LaunchService(old(State()), s, kind) else old(State())
      ensures ok ==> s in contexts && contexts[s].status == (if kind == UserThread then Ready else Blocked)
      ensures ok && kind == UserThread ==> contexts[s].events == {ServiceStart}
      ensures ok && kind == MessageDriven ==> contexts[s].waitEvents == {Message, ServiceStop}
      ensures runQueue == if ok && kind == UserThread then old(runQueue) + [s] else old(runQueue)
    {
      if systemStopped || !contextCreated {
        return false;
      }
      NextKeepsInv(State(), DoLaunch(s, kind));
      AddService(s, kind);
      return true;
    }

    // -------------------------------------------------------------- waiting

    /** What Wait_Locked leaves its caller with when it returns. */
    method FinishWait(w: nat)
      requires HasCurrent(State(), w)
      modifies this`contexts, this`workers, this`returned
      ensures State() == S.FinishWait(old(State()), w, old(Current(State(), w)))
    {
      var s := workers[w].current;
      if contexts[s].calling.Some? {
        returned := returned + {contexts[s].calling.value};
      }
      contexts := contexts[s := contexts[s].(calling := None)];
      if contexts[s].kind == MessageDriven && contexts[s].inHand.None? {
        workers := workers[w := workers[w].(pc := Loop)];
      } else {
        workers := workers[w := workers[w].(pc := Run)];
      }
    }

    method Block(w: nat, mask: Mask)
      requires HasCurrent(State(), w)
      modifies this`contexts, this`workers
      ensures State() == S.Block(old(State()), w, old(Current(State(), w)), mask)
    {
      var s := workers[w].current;
      contexts := contexts[s := contexts[s].(status := Blocked)];
      contexts := contexts[s := contexts[s].(isSwapingOut := true)];
      contexts := contexts[s := contexts[s].(waitEvents := mask)];
      contexts := contexts[s := contexts[s].(frame := InWait(mask), place := Deciding(w))];
      workers := workers[w := workers[w].(pc := Sched)];
    }

    /** Wait_Locked up to its first Schedule; the result is None when it goes on to switch. */
    method WaitLocked(w: nat, mask: Mask) returns (revents: Option<Mask>)
      requires HasCurrent(State(), w)
      modifies this`contexts, this`workers, this`returned
      ensures State() == S.WaitLocked(old(State()), w, mask)
      ensures var c := old(Current(State(), w));
              revents == if c.stopping && ServiceStop in mask then Some({ServiceStop})
                         else if c.events !! mask then None else Some(c.events * mask)
    {
      var s := workers[w].current;
      contexts := contexts[s := contexts[s].(waitEvents := {})];
      if contexts[s].stopping && ServiceStop in mask {
        FinishWait(w);
        return Some({ServiceStop});
      }
      if !(contexts[s].events !! mask) {
        var got := ConsumeEvents(w, mask);
        return Some(got);
      }
      Block(w, mask);
      return None;
    }

    method Wait(w: nat, mask: Mask) returns (revents: Option<Mask>)
      requires Valid()
      requires Enabled(State(), DoWait(w, mask)) || (mask == {Response} && Enabled(State(), DoCallWait(w)))
      modifies this`contexts, this`workers, this`returned
      ensures Valid() && State() == S.WaitLocked(old(State()), w, mask)
      ensures old(workers[w].current) in contexts
        && WaitedFor(old(Current(State(), w)), contexts[old(workers[w].current)], mask, revents)
    {
      var asCall := mask == {Response} && Enabled(State(), DoCallWait(w));
      NextKeepsInv(State(), if asCall then DoCallWait(w) else DoWait(w, mask));
      WaitLockedEnds(State(), w, mask);
      revents := WaitLocked(w, mask);
    }

    /** WaitIO up to its wait: what an earlier wait left is forgotten, and if the descriptor cannot be
        added, it returns without waiting. */
    method WaitIo(w: nat, added: bool) returns (ok: bool, revents: Option<Mask>)
      requires Valid() && Enabled(State(), DoWait(w, {IoOperation} + STOP_OR_INTERRUPT))
      modifies this`contexts, this`workers, this`returned, this`ioEvents
      ensures Valid() && ok == added && ioEvents == old(ioEvents[workers[w].current := {}])
      ensures !added ==> State() == old(State()) && revents == None
      ensures added ==> State() == S.WaitLocked(old(State()), w, {IoOperation} + STOP_OR_INTERRUPT)
      ensures added ==>
        && old(workers[w].current) in contexts
        && WaitedFor(old(Current(State(), w)), contexts[old(workers[w].current)],
             {IoOperation, ServiceStop, Interrupt}, revents)
    {
      ioEvents := ioEvents[workers[w].current := {}];
      assert {IoOperation} + STOP_OR_INTERRUPT == {IoOperation, ServiceStop, Interrupt};
      if !added { return false, None; }
      ok := true;
      revents := Wait(w, {IoOperation} + STOP_OR_INTERRUPT);
    }

    // The end of Wait_Locked when an awaited event is there
    method ConsumeEvents(w: nat, mask: Mask) returns (revents: Mask)
      requires HasCurrent(State(), w) && !(Current(State(), w).events !! mask)
      modifies this`contexts, this`workers, this`returned
      ensures var c := old(Current(State(), w));
        revents == c.events * mask && State() == S.FinishWait(old(State()), w, c.(events := c.events - mask))
    {
      var s := workers[w].current;
      revents := contexts[s].events * mask;
      contexts := contexts[s := contexts[s].(events := contexts[s].events - mask)];
      FinishWait(w);
    }

    /** Wait_Locked after Schedule.  It always finds an awaited event: the spurious wakeup does not occur. */
    method WaitReturn(w: nat) returns (revents: Mask)
      requires Valid() && Enabled(State(), DoWaitReturn(w))
      modifies this`contexts, this`workers, this`returned
      ensures Valid() && State() == S.WaitReturn(old(State()), w)
      ensures
        var c := old(Current(State(), w));
        && revents == c.events * c.frame.mask != {}
        && old(workers[w].current) in contexts
        && contexts[old(workers[w].current)].events == c.events - c.frame.mask
    {
      ghost var c := Current(State(), w);
      NextKeepsInv(State(), DoWaitReturn(w));
      WaitReturnFinds(State(), w);
      var mask := contexts[workers[w].current].frame.mask;
      revents := ConsumeEvents(w, mask);
    }

    // -------------------------------------------------------------- switching

    // The field updates of GetReadyService
    method TakeReady(w: nat) returns (next: nat)
      requires HasCurrent(State(), w)
      requires runQueue != [] ==> runQueue[0] in contexts
      modifies this`contexts, this`workers, this`runQueue
      ensures State() == S.GetReadyService(old(State()), w)
      ensures next == if old(runQueue) != [] then old(runQueue[0]) else old(workers[w].idle)
    {
      var cur := workers[w].current;
      contexts := contexts[cur := contexts[cur].(place := Deciding(w))];
      if runQueue != [] {
        next := runQueue[0];
        runQueue := runQueue[1..];
        contexts := contexts[next := contexts[next].(place := Claimed(w))];
      } else {
        next := workers[w].idle;
        contexts := contexts[next := contexts[next].(status := Ready)];
        if next != cur {
          contexts := contexts[next := contexts[next].(place := Claimed(w))];
        }
      }
      workers := workers[w := workers[w].(pc := Picked(next))];
    }

    /** The successor is Ready and off its stack, in no queue any more, and never the waiting service itself. */
    method GetReadyService(w: nat) returns (next: nat)
      requires Valid() && Enabled(State(), DoGetReady(w))
      modifies this`contexts, this`workers, this`runQueue
      ensures Valid() && State() == S.GetReadyService(old(State()), w)
      ensures next == if old(runQueue) != [] then old(runQueue[0]) else old(workers[w].idle)
      ensures next in contexts && contexts[next].status == Ready && !contexts[next].isSwapingOut && next !in runQueue
      ensures !old(Current(State(), w)).kind.Idle? ==> next != old(workers[w].current)
    {
      NextKeepsInv(State(), DoGetReady(w));
      PickedIsReady(State(), w);
      next := TakeReady(w);
    }

    // The unlocked writes of SwitchTo
    method SwitchFields(w: nat) returns (switched: bool)
      requires HasCurrent(State(), w) && workers[w].pc.Picked?
      modifies this`contexts, this`workers
      ensures State() == S.SwitchTo(old(State()), w)
      ensures switched <==> old(workers[w].pc.next != workers[w].current)
    {
      var cur, next := workers[w].current, workers[w].pc.next;
      if cur == next {
        contexts := contexts[cur := contexts[cur].(place := Executing(w))];
        workers := workers[w := workers[w].(pc := Run)];
        return false;
      }
      contexts := contexts[cur := contexts[cur].(isSwapingOut := true)];
      workers := workers[w := workers[w].(current := next)];
      workers := workers[w := workers[w].(prev := Some(cur), pc := Switched)];
      contexts := contexts[cur := contexts[cur].(place := Leaving(w))];
      contexts := contexts[next := contexts[next].(place := Arriving(w))];
      return true;
    }

    /** False when the successor is the current service, which only an idle service can be. */
    method SwitchTo(w: nat) returns (switched: bool)
      requires Valid() && Enabled(State(), DoSwitch(w))
      modifies this`contexts, this`workers
      ensures Valid() && State() == S.SwitchTo(old(State()), w)
      ensures switched <==> old(workers[w].pc.next != workers[w].current)
      ensures switched || old(Current(State(), w)).kind.Idle?
    {
      NextKeepsInv(State(), DoSwitch(w));
      PickedIsOther(State(), w);
      switched := SwitchFields(w);
    }

    /** jump_fcontext, seen as one step.  The context it enters was saved, and nobody else has it; the
        one it leaves is saved from now on, and still nobody else's. */
    method Jump(w: nat)
      requires Valid() && Enabled(State(), DoJump(w))
      modifies this`contexts, this`workers
      ensures Valid() && State() == S.Jump(old(State()), w)
      ensures old(contexts[workers[w].current].saved) && workers[w].current !in runQueue
      ensures workers[w].prev.Some? && workers[w].prev.value in contexts && contexts[workers[w].prev.value].saved
      ensures forall v :: v != w ==> !Holds(State(), v, workers[w].current) && !Holds(State(), v, workers[w].prev.value)
    {
      NextKeepsInv(State(), DoJump(w));
      JumpEntersSavedAlone(State(), w);
      var cur, prev := workers[w].current, workers[w].prev.value;
      contexts := contexts[prev := contexts[prev].(saved := true, place := Left(w))];
      contexts := contexts[cur := contexts[cur].(saved := false, place := Resuming(w))];
      workers := workers[w := workers[w].(pc := ResumePrev)];
      forall v | v != w ensures !Holds(State(), v, cur) && !Holds(State(), v, prev) {
        assert !Holds(old(State()), v, cur) && !Holds(old(State()), v, prev);
      }
    }

    // The first locked block of OnResume
    method ReleasePrev(w: nat)
      requires HasCurrent(State(), w)
      modifies this`contexts, this`workers, this`runQueue
      ensures State() == S.OnResumePrev(old(State()), w)
    {
      if workers[w].prev.Some? {
        var prev := workers[w].prev.value;
        contexts := contexts[prev := contexts[prev].(isSwapingOut := false, place := Parked)];
        if contexts[prev].kind != Idle {
          if contexts[prev].wakeupSignal && contexts[prev].status == Blocked {
            contexts := contexts[prev := contexts[prev].(status := Ready)];
            PutReadyService(prev);
          }
        }
      }
      workers := workers[w := workers[w].(pc := ResumeCur)];
    }

    /** The predecessor goes back to the run queue exactly if it was signalled while it parked. */
    method OnResumePrev(w: nat)
      requires Valid() && Enabled(State(), DoResumePrev(w))
      modifies this`contexts, this`workers, this`runQueue
      ensures Valid() && State() == S.OnResumePrev(old(State()), w)
      ensures old(workers[w].prev.None?) ==> runQueue == old(runQueue)
      ensures old(workers[w].prev.Some?) ==>
        var p := old(workers[w].prev.value);
        var signalled := old(contexts[p].wakeupSignal && contexts[p].status == Blocked);
        && p !in old(runQueue) && runQueue == (if signalled then old(runQueue) + [p] else old(runQueue))
        && p in contexts && !contexts[p].isSwapingOut
    {
      NextKeepsInv(State(), DoResumePrev(w));
      if workers[w].prev.Some? { ResumePrevRequeuesExactly(State(), w); }
      ReleasePrev(w);
    }

    // The second locked block of OnResume
    method ResumeFields(w: nat)
      requires HasCurrent(State(), w)
      modifies this`contexts, this`workers
      ensures State() == S.OnResumeCur(old(State()), w)
    {
      var s := workers[w].current;
      contexts := contexts[s := contexts[s].(wakeupSignal := false)];
      contexts := contexts[s := contexts[s].(waitEvents := {})];
      contexts := contexts[s := contexts[s].(status := Running, place := Executing(w))];
      var pc;
      if contexts[s].kind != Idle && contexts[s].frame.InWait? {
        pc := AfterWait;
      } else if contexts[s].kind == MessageDriven {
        pc := Loop;
      } else {
        pc := Run;
      }
      workers := workers[w := workers[w].(prev := None, pc := pc)];
    }

    /** The service runs, awaits nothing, and if it came out of a wait it finds what it waited for. */
    method OnResumeCur(w: nat)
      requires Valid() && Enabled(State(), DoResumeCur(w))
      modifies this`contexts, this`workers
      ensures Valid() && State() == S.OnResumeCur(old(State()), w)
      ensures var c := Current(State(), w);
        && c.status == Running && c.waitEvents == {} && !c.wakeupSignal
        && (!c.kind.Idle? && c.frame.InWait? ==> !(c.events !! c.frame.mask))
    {
      NextKeepsInv(State(), DoResumeCur(w));
      ResumeFindsEvent(State(), w);
      ResumeFields(w);
    }

    // -------------------------------------------------------------- service code

    /** A message is taken in order of acceptance; the service dies only when it has handled all it
        accepted; and the branch that clears the signal is never taken. */
    method LoopStep(w: nat) returns (ghost revents: Option<Mask>)
      requires Valid() && Enabled(State(), DoLoop(w))
      modifies this`contexts, this`workers, this`returned
      ensures Valid() && State() == S.LoopStep(old(State()), w)
      ensures var c := old(Current(State(), w));
        var s := old(workers[w].current);
        && s in contexts && c.inHand.None? && c.accepted == c.handled + c.msgQueue
        && (c.msgQueue != [] ==> contexts[s].inHand == Some(c.accepted[|c.handled|]))
        && (contexts[s].status == Dead ==> c.stopping && contexts[s].handled == contexts[s].accepted)
        && (c.msgQueue == [] ==> if c.stopping then contexts[s].status == Dead && contexts[s].events == c.events
                                 else WaitedFor(c, contexts[s], {Message, ServiceStop}, revents))
    {
      NextKeepsInv(State(), DoLoop(w));
      LoopFinds(State(), w);
      WaitLockedEnds(State(), w, {Message, ServiceStop});
      revents := None;
      var s := workers[w].current;
      var c := contexts[s];
      if c.msgQueue != [] {
        contexts := contexts[s := c.(inHand := Some(c.msgQueue[0]), msgQueue := c.msgQueue[1..])];
        workers := workers[w := workers[w].(pc := Run)];
      } else if c.stopping {
        contexts := contexts[s := c.(status := Dead, place := Deciding(w))];
        workers := workers[w := workers[w].(pc := Sched)];
      } else if !c.wakeupSignal {
        revents := WaitLocked(w, LOOP_MASK);
      } else {
        assert false;
      }
    }

    // The closure of a dispatched call, and the release of the message
    method FinishMessage(w: nat)
      requires HasCurrent(State(), w) && Current(State(), w).inHand.Some?
      modifies this`contexts, this`workers, this`runQueue, this`completed
      ensures State() == S.HandlerDone(old(State()), w)
    {
      var s := workers[w].current;
      var m := contexts[s].inHand.value;
      if m.Call? {
        if m.caller in contexts {
          var _ := WakeupLocked(m.caller, Response);
        }
        completed := completed + {m.id};
      }
      contexts := contexts[s := contexts[s].(inHand := None, handled := contexts[s].handled + [m])];
      workers := workers[w := workers[w].(pc := Loop)];
    }

    /** A dispatched call posts kResponse to its caller, who waits for this very call, and to nobody else. */
    method HandlerDone(w: nat)
      requires Valid() && Enabled(State(), DoHandlerDone(w))
      modifies this`contexts, this`workers, this`runQueue, this`completed
      ensures Valid() && State() == S.HandlerDone(old(State()), w)
      ensures var m := old(Current(State(), w).inHand.value); m.Call? ==> WokeExactly(old(State()), State(), m)
    {
      NextKeepsInv(State(), DoHandlerDone(w));
      if Current(State(), w).inHand.value.Call? { DispatchWakesExactlyCaller(State(), w); }
      FinishMessage(w);
    }

    /** An accepted call is its caller's only outstanding one, and no response is there yet. */
    method CallSend(w: nat, d: nat, id: nat) returns (ok: bool)
      requires Valid() && Enabled(State(), DoCallSend(w, d, id))
      modifies this`contexts, this`workers, this`runQueue, this`calls
      ensures Valid() && State() == S.CallSend(old(State()), w, d, id)
      ensures ok <==> Accepts(old(contexts[d]))
      ensures ok ==>
        var s := old(workers[w].current);
        && old(contexts[workers[w].current].calling) == None
        && s in contexts && contexts[s].calling == Some(id) && Response !in contexts[s].events
    {
      NextKeepsInv(State(), DoCallSend(w, d, id));
      if Accepts(contexts[d]) { CallIsOnlyOutstanding(State(), w, d, id); }
      var s := workers[w].current;
      ok := SendMessage(d, Call(id, s));
      if ok {
        contexts := contexts[s := contexts[s].(calling := Some(id))];
        calls := calls[id := CallInfo(d, s)];
        workers := workers[w := workers[w].(pc := CallWait)];
      }
    }

    /** From the end of Main on the service accepts nothing, though it is still running. */
    method FinishMain(w: nat)
      requires Valid() && Enabled(State(), DoFinishMain(w))
      modifies this`contexts, this`workers
      ensures Valid() && State() == S.FinishMain(old(State()), w)
      ensures var c := Current(State(), w); !Accepts(c) && c.status == Running && c.calling.None?
    {
      NextKeepsInv(State(), DoFinishMain(w));
      RunsAlone(State(), w);
      var s := workers[w].current;
      contexts := contexts[s := contexts[s].(stopping := true)];
      workers := workers[w := workers[w].(pc := Finishing)];
    }

    /** The service is out for good: no wakeup brings it back to the run queue or to life. */
    method Die(w: nat)
      requires Valid() && Enabled(State(), DoDie(w))
      modifies this`contexts, this`workers
      ensures Valid() && State() == S.Die(old(State()), w)
      ensures var s := workers[w].current;
        && s in contexts && s !in runQueue
        && forall e ::
             S.WakeupLocked(State(), s, e).runQueue == runQueue && S.WakeupLocked(State(), s, e).ctxs[s].status == Dead
    {
      NextKeepsInv(State(), DoDie(w));
      RunsAlone(State(), w);
      var s := workers[w].current;
      contexts := contexts[s := contexts[s].(status := Dead, place := Deciding(w))];
      workers := workers[w := workers[w].(pc := Sched)];
      forall e
        ensures S.WakeupLocked(State(), s, e).runQueue == runQueue
        ensures S.WakeupLocked(State(), s, e).ctxs[s].status == Dead
      {
        DeadIsOut(State(), s, e);
      }
      DeadIsOut(State(), s, Signal);
    }
  }
}
