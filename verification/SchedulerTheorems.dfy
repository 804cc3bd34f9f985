/** What holds in every state of every run of the scheduler, in terms of the code's own fields. */
module SchedulerTheorems {
  import opened Options
  import opened Scheduler
  import opened SchedulerInvariant
  import opened SchedulerSteps
  import opened SchedulerCalls

  // ---------------------------------------------------------------- ownership

  /** Worker w has service s: as current, as the successor it picked, or as the predecessor
      whose half of OnResume it has still to run. */
  predicate Holds(st: State, w: nat, s: nat) {
    && w < |st.workers|
    && var W := st.workers[w];
       || W.current == s
       || W.pc == Picked(s)
       || ((W.pc == Switched || W.pc == ResumePrev) && W.prev == Some(s))
  }

  ghost predicate SingleOwnership(st: State) {
    && (forall v, w, s :: Holds(st, v, s) && Holds(st, w, s) ==> v == w)
    && (forall w, s :: Holds(st, w, s) ==> s !in st.runQueue)
    && (forall i, j :: 0 <= i < j < |st.runQueue| ==> st.runQueue[i] != st.runQueue[j])
    && (forall s :: s in st.runQueue ==>
         s in st.ctxs && st.ctxs[s].status == Ready && !st.ctxs[s].isSwapingOut && st.ctxs[s].saved)
    && (forall s :: s in st.ctxs && !st.ctxs[s].kind.Idle? && s !in st.runQueue && (forall w :: !Holds(st, w, s)) ==>
         st.ctxs[s].status in {Blocked, Dead} && !st.ctxs[s].isSwapingOut && st.ctxs[s].saved)
  }

  /** The context that a worker is about to enter has been saved, and nobody else is on it. */
  ghost predicate NoHalfSavedResume(st: State) {
    forall w :: 0 <= w < |st.workers| ==>
      var W := st.workers[w];
      && (W.pc == Switched ==> W.current in st.ctxs && st.ctxs[W.current].saved)
      && (W.pc.Picked? && W.pc.next != W.current ==> W.pc.next in st.ctxs && st.ctxs[W.pc.next].saved)
  }

  // ---------------------------------------------------------------- wakeups

  ghost predicate NoLostWakeup(st: State) {
    && (forall s :: s in st.ctxs && st.ctxs[s].status == Blocked ==>
         (st.ctxs[s].wakeupSignal <==> !(st.ctxs[s].events !! st.ctxs[s].waitEvents)))
    && (forall s :: s in st.ctxs && st.ctxs[s].status == Blocked && (forall w :: !Holds(st, w, s)) ==>
         st.ctxs[s].events !! st.ctxs[s].waitEvents)
  }

  /** StopService is remembered: nobody parks unsignalled on a mask that has ServiceStop. */
  ghost predicate StopIsSticky(st: State) {
    forall s :: s in st.ctxs && st.ctxs[s].stopping && st.ctxs[s].status == Blocked ==>
      ServiceStop in st.ctxs[s].waitEvents ==> st.ctxs[s].wakeupSignal && exists w :: Holds(st, w, s)
  }

  // ---------------------------------------------------------------- the code's own CHECKs

  predicate WorkerSelfChecks(st: State, w: nat)
    requires w < |st.workers|
  {
    && HasCurrent(st, w)
    && var W := st.workers[w];
       var c := Current(st, w);
       // OnResume: is_swaping_out of the predecessor; not of the successor, which is Ready
       && (W.pc == ResumePrev && W.prev.Some? ==> st.ctxs[W.prev.value].isSwapingOut)
       && (W.pc == ResumeCur ==> !c.isSwapingOut && c.status == Ready)
       // Wait_Locked: entered Running; Schedule really switches; the event is there afterwards
       && (W.pc in {Run, Loop, CallWait} && !c.kind.Idle? ==> c.status == Running)
       && (W.pc.Picked? && !c.kind.Idle? ==> W.pc.next != W.current)
       && (W.pc == AfterWait ==> c.frame.InWait? && !(c.events !! c.frame.mask))
       // a running service awaits nothing and carries no signal, so the loop's last branch is dead
       && (c.status == Running ==> c.waitEvents == {} && !c.wakeupSignal)
       && (W.pc == Loop ==> !c.wakeupSignal)
  }

  ghost predicate SelfChecks(st: State) {
    forall w :: 0 <= w < |st.workers| ==> WorkerSelfChecks(st, w)
  }

  // ---------------------------------------------------------------- messages

  ghost predicate Delivery(st: State) {
    forall s :: s in st.ctxs && st.ctxs[s].kind.MessageDriven? ==>
      var c := st.ctxs[s];
      && c.accepted == c.handled + InHand(c) + c.msgQueue
      && (c.status == Blocked && Message in c.waitEvents && !c.wakeupSignal ==> c.msgQueue == [])
      && (c.status == Dead ==> c.msgQueue == [] && c.handled == c.accepted)
  }

  ghost predicate CallMatching(st: State) {
    // a call that returned was dispatched by its destination, exactly once
    && st.returned <= st.completed
    && (forall id :: id in st.completed ==> id in st.calls && exists i: nat :: HandledAt(st, st.calls[id].dest, i, id))
    && (forall d: nat, i: nat, e: nat, j: nat, id: nat :: CallAt(st, d, i, id) && CallAt(st, e, j, id) ==>
         d == e && i == j)
    // a response is there only for the one call outstanding, between its dispatch and its return
    && (forall s :: s in st.ctxs && Response in st.ctxs[s].events ==>
         && st.ctxs[s].calling.Some?
         && st.ctxs[s].calling.value in st.completed - st.returned
         && st.calls[st.ctxs[s].calling.value].caller == s)
    // a call accepted and not yet dispatched is the one its caller waits for
    && (forall d: nat, i: nat, id: nat :: CallAt(st, d, i, id) && !HandledAt(st, d, i, id) ==>
         && st.ctxs[d].accepted[i].caller in st.ctxs
         && st.ctxs[st.ctxs[d].accepted[i].caller].calling == Some(id))
  }

  ghost predicate Safe(st: State) {
    && SingleOwnership(st) && NoHalfSavedResume(st) && NoLostWakeup(st) && StopIsSticky(st)
    && SelfChecks(st) && Delivery(st) && CallMatching(st)
  }

  // ---------------------------------------------------------------- proofs

  lemma HeldPlace(st: State, w: nat, s: nat)
    requires StructOk(st) && Holds(st, w, s)
    ensures s in st.ctxs && Names(st.ctxs[s].place, w)
  {
    assert WorkerOk(st, w);
  }

  lemma PlacedHolds(st: State, s: nat)
    requires StructOk(st) && s in st.ctxs && !st.ctxs[s].place.Parked? && !st.ctxs[s].place.Queued?
    ensures Holds(st, st.ctxs[s].place.worker, s)
  {
    assert PlacedOk(st, s);
  }

  lemma InvSingleOwnership(st: State)
    requires StructOk(st)
    ensures SingleOwnership(st)
  {
    forall w: nat, s: nat | Holds(st, w, s) ensures s in st.ctxs && Names(st.ctxs[s].place, w) { HeldPlace(st, w, s); }
    forall s | s in st.runQueue
      ensures s in st.ctxs && st.ctxs[s].status == Ready && !st.ctxs[s].isSwapingOut && st.ctxs[s].saved
    {
      assert CtxOk(st.ctxs[s]);
    }
    forall s | s in st.ctxs && !st.ctxs[s].kind.Idle? && s !in st.runQueue && (forall w: nat :: !Holds(st, w, s))
      ensures st.ctxs[s].status in {Blocked, Dead} && !st.ctxs[s].isSwapingOut && st.ctxs[s].saved
    {
      assert CtxOk(st.ctxs[s]) && PlacedOk(st, s);
      if !st.ctxs[s].place.Parked? { PlacedHolds(st, s); }
    }
  }

  lemma InvNoHalfSavedResume(st: State)
    requires StructOk(st)
    ensures NoHalfSavedResume(st)
  {
    forall w | 0 <= w < |st.workers|
      ensures var W := st.workers[w];
        && (W.pc == Switched ==> W.current in st.ctxs && st.ctxs[W.current].saved)
        && (W.pc.Picked? && W.pc.next != W.current ==> W.pc.next in st.ctxs && st.ctxs[W.pc.next].saved)
    {
      var W := st.workers[w];
      assert WorkerOk(st, w) && CtxOk(st.ctxs[W.current]);
      if W.pc.Picked? { assert CtxOk(st.ctxs[W.pc.next]); }
    }
  }

  lemma InvWakeups(st: State)
    requires StructOk(st)
    ensures NoLostWakeup(st) && StopIsSticky(st)
  {
    forall s | s in st.ctxs ensures CtxOk(st.ctxs[s]) && PlacedOk(st, s) {}
    forall s | s in st.ctxs && st.ctxs[s].status == Blocked && !st.ctxs[s].place.Parked?
      ensures exists w :: Holds(st, w, s)
    {
      PlacedHolds(st, s);
    }
  }

  lemma InvSelfChecks(st: State)
    requires StructOk(st)
    ensures SelfChecks(st)
  {
    forall w | 0 <= w < |st.workers| ensures WorkerSelfChecks(st, w) {
      var W := st.workers[w];
      assert WorkerOk(st, w) && CtxOk(st.ctxs[W.current]);
      if W.pc == ResumePrev && W.prev.Some? { assert CtxOk(st.ctxs[W.prev.value]); }
    }
  }

  lemma InvDelivery(st: State)
    requires StructOk(st)
    ensures Delivery(st)
  {
    forall s | s in st.ctxs ensures CtxOk(st.ctxs[s]) {}
  }

  lemma InvCallMatching(st: State)
    requires Inv(st)
    ensures CallMatching(st)
  {
    forall s | s in st.ctxs ensures CallerOk(st, s) && AcceptedOk(st, s) {}
    forall d: nat, i: nat, id: nat | CallAt(st, d, i, id) ensures id in st.calls && st.calls[id].dest == d {
      assert AcceptedOk(st, d);
    }
  }

  /** A destination that has died has answered every call it accepted exactly if it is message-driven:
      whoever still waits for such a call has its response.  A call to any other service is never
      answered, and its caller is stranded. */
  lemma DeadAnswersExactly(st: State, d: nat, i: nat, id: nat)
    requires Inv(st) && CallAt(st, d, i, id) && st.ctxs[d].status == Dead
    ensures id in st.completed <==> st.ctxs[d].kind.MessageDriven?
    ensures
      var s := st.ctxs[d].accepted[i].caller;
      && s in st.ctxs
      && (st.ctxs[d].kind.MessageDriven? ==> HandledAt(st, d, i, id) && Answered(st.ctxs[s], id))
      && (!st.ctxs[d].kind.MessageDriven? ==> Stranded(st.ctxs[s], id))
  {
    var s := st.ctxs[d].accepted[i].caller;
    assert AcceptedOk(st, d) && CtxOk(st.ctxs[d]);
    assert CallerOk(st, s) && CtxOk(st.ctxs[s]);
  }

  // A caller that waits for call id has its response, and the signal if it has blocked
  predicate Answered(c: Context, id: nat) {
    c.calling == Some(id) ==> Response in c.events && (c.status == Blocked ==> c.wakeupSignal)
  }

  // A caller waits for call id without a response, and without the signal if it has blocked
  predicate Stranded(c: Context, id: nat) {
    c.calling == Some(id) && Response !in c.events && (c.status == Blocked ==> !c.wakeupSignal)
  }

  /** No service but a message-driven one ever completes a call, dead or alive. */
  lemma OnlyLoopsAnswer(st: State, id: nat)
    requires Inv(st) && id in st.completed
    ensures id in st.calls && st.calls[id].dest in st.ctxs && st.ctxs[st.calls[id].dest].kind.MessageDriven?
  {
    var i: nat :| HandledAt(st, st.calls[id].dest, i, id);
    assert CtxOk(st.ctxs[st.calls[id].dest]);
  }

  /** Safety of every run, for any number of workers and services and any interleaving. */
  lemma RunIsSafe(run: seq<State>, i: nat)
    requires IsRun(run) && i < |run|
    ensures Safe(run[i])
  {
    RunInv(run, i);
    InvSafe(run[i]);
  }

  lemma InvSafe(st: State)
    requires Inv(st)
    ensures Safe(st)
  {
    InvSingleOwnership(st);
    InvNoHalfSavedResume(st);
    InvWakeups(st);
    InvSelfChecks(st);
    InvDelivery(st);
    InvCallMatching(st);
  }
}
