/** The inductive invariant of the scheduler. */
module SchedulerInvariant {
  import opened Options
  import opened Scheduler

  // ---------------------------------------------------------------- the invariant

  /** What a context looks like in each place. */
  predicate PlaceOk(c: Context) {
    match c.place
    case Parked => !c.isSwapingOut && c.saved && (c.kind.Idle? || c.status.Blocked? || c.status.Dead?)
    case Queued => !c.isSwapingOut && c.saved && !c.kind.Idle? && c.status.Ready?
    case Claimed(_) => !c.isSwapingOut && c.saved && c.status.Ready?
    case Executing(_) => !c.isSwapingOut && !c.saved && (c.kind.Idle? || c.status.Running?)
    case Deciding(_) => !c.saved && if c.kind.Idle? then !c.isSwapingOut
                                    else if c.status.Blocked? then c.isSwapingOut else c.status.Dead? && !c.isSwapingOut
    case Leaving(_) => c.isSwapingOut && !c.saved && (c.kind.Idle? || c.status.Blocked? || c.status.Dead?)
    case Arriving(_) => !c.isSwapingOut && c.saved && c.status.Ready?
    case Left(_) => c.isSwapingOut && c.saved && (c.kind.Idle? || c.status.Blocked? || c.status.Dead?)
    case Resuming(_) => !c.isSwapingOut && !c.saved && c.status.Ready?
  }

  predicate Waiting(c: Context) {
    !c.kind.Idle? && (c.status.Blocked? || c.status.Ready?)
  }

  /** The handshake between a waiter and its wakers. */
  predicate WakeOk(c: Context) {
    && (c.kind.Idle? || c.status.Running? || c.status.Dead? ==> c.waitEvents == {} && !c.wakeupSignal)
    && (c.kind.Idle? ==> !c.status.Blocked?)
    && (c.status.Created? ==> c.kind.Idle?)
    && (c.status.Blocked? ==> (c.wakeupSignal <==> !(c.events !! c.waitEvents)))
    && (c.status.Blocked? && c.place.Parked? ==> !c.wakeupSignal)
    && (Waiting(c) && c.frame.InWait? ==> c.waitEvents == c.frame.mask)
    && (Waiting(c) && c.status.Ready? ==> c.frame.Entry? || !(c.events !! c.frame.mask))
    && (c.stopping && c.status.Blocked? && ServiceStop in c.waitEvents ==> ServiceStop in c.events)
  }

  function InHand(c: Context): seq<Msg> {
    if c.inHand.Some? then [c.inHand.value] else []
  }

  predicate MessagesOk(c: Context) {
    && c.accepted == c.handled + InHand(c) + c.msgQueue
    && (!c.kind.MessageDriven? ==> c.inHand.None? && c.handled == [])
    && (Waiting(c) && Message in c.waitEvents ==> c.kind.MessageDriven? && c.inHand.None? && c.calling.None?)
    && (Waiting(c) && c.kind.MessageDriven? && c.inHand.None? ==> c.waitEvents == LOOP_MASK)
    && (c.status.Blocked? && Message in c.waitEvents && Message !in c.events ==> c.msgQueue == [])
    && (c.kind.MessageDriven? && c.status.Dead? ==> c.stopping && c.inHand.None? && c.msgQueue == [])
    && (Waiting(c) && c.frame.Entry? ==> c.inHand.None?)
  }

  /** A context has a call outstanding exactly while it waits for Response. */
  predicate CallingOk(c: Context) {
    && (c.kind.Idle? ==> c.calling.None?)
    && (c.status.Dead? ==> c.calling.None?)
    && (Waiting(c) && c.calling.Some? ==> c.frame == InWait({Response}))
    && (Waiting(c) && c.frame.InWait? && Response in c.frame.mask ==> c.calling.Some?)
    && (Waiting(c) && c.frame.Entry? ==> c.calling.None?)
  }

  predicate CtxOk(c: Context) {
    PlaceOk(c) && WakeOk(c) && MessagesOk(c) && CallingOk(c)
  }

  /** What service code is entitled to at each program counter. */
  predicate RunningOk(c: Context, pc: Pc) {
    match pc
    case Run => c.calling.None? && (c.kind.MessageDriven? <==> c.inHand.Some?)
    case Loop => c.calling.None? && c.kind.MessageDriven? && c.inHand.None?
    case CallWait => c.calling.Some? && !c.kind.Idle? && (c.kind.MessageDriven? <==> c.inHand.Some?)
    case Finishing => c.calling.None? && c.kind.UserThread? && c.stopping
    case AfterWait =>
      && c.frame.InWait? && !c.kind.Idle? && !(c.events !! c.frame.mask)
      && (c.calling.Some? <==> Response in c.frame.mask)
      && (c.calling.Some? ==> c.frame.mask == {Response})
    case Exited => c.kind.Idle?
    case _ => true
  }

  predicate WorkerOk(st: State, w: nat)
    requires w < |st.workers|
  {
    var W := st.workers[w];
    && HasCurrent(st, w)
    && st.ctxs[W.idle].kind.Idle?
    && (Current(st, w).kind.Idle? ==> W.current == W.idle)
    && RunningOk(Current(st, w), W.pc)
    && match W.pc
       case Sched => Current(st, w).place == Deciding(w) && !Current(st, w).kind.Idle?
       case Picked(n) =>
         && Current(st, w).place == Deciding(w)
         && (n == W.current ==> Current(st, w).kind.Idle?)
         && (n != W.current ==> st.ctxs[n].place == Claimed(w))
         && (st.ctxs[n].kind.Idle? ==> n == W.idle)
       case Switched =>
         && W.prev.Some? && W.prev.value != W.current
         && Current(st, w).place == Arriving(w)
         && st.ctxs[W.prev.value].place == Leaving(w)
         && (st.ctxs[W.prev.value].kind.Idle? ==> W.prev.value == W.idle)
       case ResumePrev =>
         && Current(st, w).place == Resuming(w)
         && (W.prev.Some? ==>
              && st.ctxs[W.prev.value].place == Left(w)
              && (st.ctxs[W.prev.value].kind.Idle? ==> W.prev.value == W.idle))
       case ResumeCur => Current(st, w).place == Resuming(w)
       case _ => Current(st, w).place == Executing(w)
  }

  /** A place that names a worker is one that the worker's own fields name. */
  predicate PlacedOk(st: State, s: nat)
    requires s in st.ctxs
  {
    match st.ctxs[s].place
    case Parked => true
    case Queued => s in st.runQueue
    case Claimed(w) => w < |st.workers| && st.workers[w].pc == Picked(s) && st.workers[w].current != s
    case Leaving(w) => w < |st.workers| && st.workers[w].pc == Switched && st.workers[w].prev == Some(s)
    case Left(w) => w < |st.workers| && st.workers[w].pc == ResumePrev && st.workers[w].prev == Some(s)
    case Executing(w) => w < |st.workers| && st.workers[w].current == s
    case Deciding(w) => w < |st.workers| && st.workers[w].current == s
    case Arriving(w) => w < |st.workers| && st.workers[w].current == s
    case Resuming(w) => w < |st.workers| && st.workers[w].current == s
  }

  ghost predicate QueueOk(st: State) {
    && (forall i :: 0 <= i < |st.runQueue| ==> st.runQueue[i] in st.ctxs && st.ctxs[st.runQueue[i]].place == Queued)
    && (forall i, j :: 0 <= i < j < |st.runQueue| ==> st.runQueue[i] != st.runQueue[j])
  }

  ghost predicate IdlesDistinct(st: State) {
    forall v, w :: 0 <= v < w < |st.workers| ==> st.workers[v].idle != st.workers[w].idle
  }

  ghost predicate CtxsOk(st: State) {
    forall s {:trigger CtxOk(st.ctxs[s])} :: s in st.ctxs ==> CtxOk(st.ctxs[s])
  }

  ghost predicate PlacesOk(st: State) {
    forall s {:trigger PlacedOk(st, s)} :: s in st.ctxs ==> PlacedOk(st, s)
  }

  ghost predicate WorkersOk(st: State) {
    forall w {:trigger WorkerOk(st, w)} :: 0 <= w < |st.workers| ==> WorkerOk(st, w)
  }

  ghost predicate StructOk(st: State) {
    CtxsOk(st) && PlacesOk(st) && WorkersOk(st) && QueueOk(st) && IdlesDistinct(st)
  }

  // A call message of `d` at position i of what it accepted
  predicate CallAt(st: State, d: nat, i: nat, id: nat) {
    d in st.ctxs && i < |st.ctxs[d].accepted| && st.ctxs[d].accepted[i].Call? && st.ctxs[d].accepted[i].id == id
  }

  predicate HandledAt(st: State, d: nat, i: nat, id: nat) {
    CallAt(st, d, i, id) && i < |st.ctxs[d].handled|
  }

  ghost predicate CallerOk(st: State, s: nat)
    requires s in st.ctxs
  {
    var c := st.ctxs[s];
    && (Response in c.events ==> c.calling.Some? && c.calling.value in st.completed)
    && (c.calling.Some? ==>
         && c.calling.value in st.calls && st.calls[c.calling.value].caller == s
         && c.calling.value !in st.returned
         && (c.calling.value in st.completed ==> Response in c.events))
  }

  ghost predicate AcceptedOk(st: State, d: nat)
    requires d in st.ctxs
  {
    forall i: nat, id: nat :: CallAt(st, d, i, id) ==>
      var m := st.ctxs[d].accepted[i];
      && id in st.calls && st.calls[id] == CallInfo(d, m.caller) && m.caller in st.ctxs
      && (id in st.completed <==> i < |st.ctxs[d].handled|)
      && (id !in st.completed ==> st.ctxs[m.caller].calling == Some(id))
  }

  ghost predicate CompletedOk(st: State) {
    && st.returned <= st.completed <= st.calls.Keys
    && (forall id :: id in st.completed ==> exists i: nat :: HandledAt(st, st.calls[id].dest, i, id))
    && (forall d: nat, i: nat, j: nat, id: nat :: CallAt(st, d, i, id) && CallAt(st, d, j, id) ==> i == j)
  }

  ghost predicate CallsOk(st: State) {
    && (forall s :: s in st.ctxs ==> CallerOk(st, s))
    && (forall d :: d in st.ctxs ==> AcceptedOk(st, d))
    && CompletedOk(st)
  }

  ghost predicate Inv(st: State) {
    StructOk(st) && CallsOk(st)
  }
}
