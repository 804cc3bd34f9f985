/** The coroutine scheduler as a transition system.

    N worker threads share one run queue of services.  Every critical section guarded by a
    service's mutex is one atomic step; the unlocked writes of SwitchTo, the jump between
    stacks, and the two locked blocks of OnResume are steps of their own.  Each worker
    carries a program counter, so any interleaving of workers, wakers and senders is a run. */
module Scheduler {
  import opened Options

  datatype Event =
    ServiceStart | Signal | Interrupt | Message | Request | Response | IoOperation | Sleep | Timeout | ServiceStop

  type Mask = set<Event>

  datatype Status = Created | Blocked | Ready | Running | Dead

  // MessageDriven stands for a method-call service: its HandleMessage dispatches calls
  datatype Kind = Idle | UserThread | MessageDriven

  // A call message carries the service to wake with Response once it has been dispatched
  datatype Msg = Plain(payload: nat) | Call(id: nat, caller: nat)

  // Where a saved context continues: at its entry function, or inside Wait_Locked
  datatype Frame = Entry | InWait(mask: Mask)

  /** History variable: the one place in which a context is.  The code keeps this
      information only implicitly, in the run queue and in the per-thread pointers. */
  datatype Place =
    | Parked
    | Queued
    | Claimed(worker: nat)    // popped from the run queue, about to become current
    | Executing(worker: nat)  // current, running service code
    | Deciding(worker: nat)   // current, inside Schedule: the worker is choosing a successor
    | Leaving(worker: nat)    // prev, its registers not yet saved
    | Arriving(worker: nat)   // current, its registers not yet restored
    | Left(worker: nat)       // prev, saved, OnResume of the successor pending
    | Resuming(worker: nat)   // current, restored, its own half of OnResume pending

  /** ServiceContext.  `inHand` and `calling` are locals of the message loop and of CallMethod;
      `saved` says that the context's registers are in `ucontext`;
      `accepted`, `handled` and `place` are history variables. */
  datatype Context = Context(
    kind: Kind,
    status: Status,
    events: Mask,
    waitEvents: Mask,
    wakeupSignal: bool,
    isSwapingOut: bool,
    stopping: bool,
    msgQueue: seq<Msg>,
    frame: Frame,
    inHand: Option<Msg>,
    calling: Option<nat>,
    saved: bool,
    place: Place,
    accepted: seq<Msg>,
    handled: seq<Msg>)

  datatype Pc =
    | Run               // service code
    | Loop              // top of the message loop
    | CallWait          // CallMethod between SendMessage and Wait
    | Finishing         // Main returned, `stopping` set
    | Sched             // about to call Schedule
    | Picked(next: nat) // GetReadyService returned `next`
    | Switched          // SwitchTo wrote its fields, the jump is next
    | ResumePrev        // first block of OnResume
    | ResumeCur         // second block of OnResume
    | AfterWait         // back in Wait_Locked, about to re-lock
    | Exited            // the worker's idle service has returned

  // PerthreadData
  datatype Worker = Worker(idle: nat, current: nat, prev: Option<nat>, pc: Pc)

  // Which service a call was sent to, and by whom
  datatype CallInfo = CallInfo(dest: nat, caller: nat)

  /** `calls`, `completed` and `returned` record the calls accepted, dispatched and returned. */
  datatype State = State(
    ctxs: map<nat, Context>,
    workers: seq<Worker>,
    runQueue: seq<nat>,
    calls: map<nat, CallInfo>,
    completed: set<nat>,
    returned: set<nat>)

  const LOOP_MASK: Mask := {Message, ServiceStop}

  function NewContext(kind: Kind, status: Status, waitEvents: Mask): Context {
    Context(kind, status, {}, waitEvents, false, false, false, [], Entry, None, None, true, Parked, [], [])
  }

  function SetCtx(st: State, s: nat, c: Context): State {
    st.(ctxs := st.ctxs[s := c])
  }

  function SetPc(st: State, w: nat, pc: Pc): State
    requires w < |st.workers|
  {
    st.(workers := st.workers[w := st.workers[w].(pc := pc)])
  }

  // ---------------------------------------------------------------- wakers

  /** SetServiceStatus(kReady) followed by PutReadyService. */
  function MakeReady(st: State, s: nat): State
    requires s in st.ctxs
  {
    var c := st.ctxs[s];
    if c.kind.Idle? then SetCtx(st, s, c.(status := Ready))
    else SetCtx(st, s, c.(status := Ready, place := Queued)).(runQueue := st.runQueue + [s])
  }

  function WakeupLocked(st: State, s: nat, e: Event): State
    requires s in st.ctxs
  {
    var c := st.ctxs[s].(events := st.ctxs[s].events + {e});
    if e !in c.waitEvents then SetCtx(st, s, c)
    else
      var st' := SetCtx(st, s, c.(wakeupSignal := true));
      if c.isSwapingOut || c.status != Blocked then st' else MakeReady(st', s)
  }

  function StopService(st: State, s: nat): State
    requires s in st.ctxs
  {
    if st.ctxs[s].stopping then st
    else WakeupLocked(SetCtx(st, s, st.ctxs[s].(stopping := true)), s, ServiceStop)
  }

  function InterruptService(st: State, s: nat): State
    requires s in st.ctxs
  {
    if st.ctxs[s].status == Blocked && Interrupt in st.ctxs[s].waitEvents then WakeupLocked(st, s, Interrupt) else st
  }

  function OnIoReady(st: State, s: nat): State
    requires s in st.ctxs
  {
    if IoOperation in st.ctxs[s].waitEvents then WakeupLocked(st, s, IoOperation) else st
  }

  predicate Accepts(c: Context) {
    !c.stopping && c.status != Created
  }

  function SendMessage(st: State, s: nat, m: Msg): State
    requires s in st.ctxs
  {
    var c := st.ctxs[s];
    if !Accepts(c) then st
    else
      var st' := SetCtx(st, s, c.(msgQueue := c.msgQueue + [m], accepted := c.accepted + [m]));
      if Message in c.waitEvents then WakeupLocked(st', s, Message) else st'
  }

  function LaunchService(st: State, s: nat, kind: Kind): State
    requires s !in st.ctxs
  {
    if kind == UserThread then
      WakeupLocked(SetCtx(st, s, NewContext(kind, Blocked, {ServiceStart})), s, ServiceStart)
    else SetCtx(st, s, NewContext(kind, Blocked, LOOP_MASK))
  }

  // ---------------------------------------------------------------- waiting

  predicate HasCurrent(st: State, w: nat) {
    && w < |st.workers|
    && st.workers[w].current in st.ctxs
    && st.workers[w].idle in st.ctxs
    && (st.workers[w].prev.Some? ==> st.workers[w].prev.value in st.ctxs)
    && (st.workers[w].pc.Picked? ==> st.workers[w].pc.next in st.ctxs)
  }

  function Current(st: State, w: nat): Context
    requires HasCurrent(st, w)
  {
    st.ctxs[st.workers[w].current]
  }

  function SetCurrent(st: State, w: nat, c: Context, pc: Pc): State
    requires HasCurrent(st, w)
  {
    SetPc(SetCtx(st, st.workers[w].current, c), w, pc)
  }

  /** Wait_Locked returns to whoever called it: the message loop, CallMethod or service code. */
  function FinishWait(st: State, w: nat, c: Context): State
    requires HasCurrent(st, w)
  {
    var pc := if c.kind.MessageDriven? && c.inHand.None? then Loop else Run;
    var done := if c.calling.Some? then {c.calling.value} else {};
    SetCurrent(st, w, c.(calling := None), pc).(returned := st.returned + done)
  }

  function Block(st: State, w: nat, c: Context, mask: Mask): State
    requires HasCurrent(st, w)
  {
    SetCurrent(st, w,
      c.(status := Blocked, isSwapingOut := true, waitEvents := mask, frame := InWait(mask), place := Deciding(w)),
      Sched)
  }

  /** Wait_Locked up to the point where it releases the mutex. */
  function WaitLocked(st: State, w: nat, mask: Mask): State
    requires HasCurrent(st, w)
  {
    var c := Current(st, w).(waitEvents := {});
    if c.stopping && ServiceStop in mask then FinishWait(st, w, c)
    else if !(c.events !! mask) then FinishWait(st, w, c.(events := c.events - mask))
    else Block(st, w, c, mask)
  }

  /** Wait_Locked after Schedule returned; the else branch is the spurious wakeup. */
  function WaitReturn(st: State, w: nat): State
    requires HasCurrent(st, w) && Current(st, w).frame.InWait?
  {
    var c := Current(st, w);
    var mask := c.frame.mask;
    if !(c.events !! mask) then FinishWait(st, w, c.(events := c.events - mask))
    else Block(st, w, c, mask)
  }

  // ---------------------------------------------------------------- switching

  function GetReadyService(st: State, w: nat): State
    requires HasCurrent(st, w)
    requires st.runQueue != [] ==> st.runQueue[0] in st.ctxs
  {
    var next := if st.runQueue != [] then st.runQueue[0] else st.workers[w].idle;
    var st1 := SetCtx(st, st.workers[w].current, Current(st, w).(place := Deciding(w)));
    var n := st1.ctxs[next];
    var n' := if st.runQueue != [] then n.(place := Claimed(w))
              else n.(status := Ready, place := if next == st.workers[w].current then Deciding(w) else Claimed(w));
    SetPc(SetCtx(st1, next, n'), w, Picked(next))
      .(runQueue := if st.runQueue != [] then st.runQueue[1..] else [])
  }

  /** The unlocked writes of SwitchTo; it does nothing when the successor is the current service. */
  function SwitchTo(st: State, w: nat): State
    requires HasCurrent(st, w) && st.workers[w].pc.Picked?
  {
    var W := st.workers[w];
    var next := W.pc.next;
    if W.current == next then SetCurrent(st, w, Current(st, w).(place := Executing(w)), Run)
    else
      var st1 := SetCtx(st, W.current, Current(st, w).(isSwapingOut := true, place := Leaving(w)));
      var st2 := SetCtx(st1, next, st1.ctxs[next].(place := Arriving(w)));
      st2.(workers := st2.workers[w := Worker(W.idle, next, Some(W.current), Switched)])
  }

  /** jump_fcontext: the predecessor's registers are saved and the successor's restored. */
  function Jump(st: State, w: nat): State
    requires HasCurrent(st, w) && st.workers[w].prev.Some?
  {
    var W := st.workers[w];
    var st1 := SetCtx(st, W.prev.value, st.ctxs[W.prev.value].(saved := true, place := Left(w)));
    var c := st1.ctxs[W.current];
    SetCurrent(st1, w, c.(saved := false, place := Resuming(w)), ResumePrev)
  }

  function OnResumePrev(st: State, w: nat): State
    requires HasCurrent(st, w)
  {
    var W := st.workers[w];
    if W.prev.None? then SetPc(st, w, ResumeCur)
    else
      var p := W.prev.value;
      var c := st.ctxs[p].(isSwapingOut := false, place := Parked);
      var st1 := SetPc(SetCtx(st, p, c), w, ResumeCur);
      if !c.kind.Idle? && c.wakeupSignal && c.status == Blocked then MakeReady(st1, p) else st1
  }

  function OnResumeCur(st: State, w: nat): State
    requires HasCurrent(st, w)
  {
    var c := Current(st, w).(wakeupSignal := false, waitEvents := {}, status := Running, place := Executing(w));
    var pc := match c.kind
      case Idle => Run
      case UserThread => if c.frame.InWait? then AfterWait else Run
      case MessageDriven => if c.frame.InWait? then AfterWait else Loop;
    var st1 := SetCtx(st, st.workers[w].current, c);
    st1.(workers := st1.workers[w := st1.workers[w].(prev := None, pc := pc)])
  }

  // ---------------------------------------------------------------- service code

  /** One pass of the message loop, from locking the mutex to releasing it. */
  function LoopStep(st: State, w: nat): State
    requires HasCurrent(st, w)
  {
    var c := Current(st, w);
    if c.msgQueue != [] then SetCurrent(st, w, c.(msgQueue := c.msgQueue[1..], inHand := Some(c.msgQueue[0])), Run)
    else if c.stopping then SetCurrent(st, w, c.(status := Dead, place := Deciding(w)), Sched)
    else if !c.wakeupSignal then WaitLocked(st, w, LOOP_MASK)
    else SetCurrent(st, w, c.(wakeupSignal := false), Loop)
  }

  /** The end of HandleMessage: a dispatched call runs its closure, which wakes the caller. */
  function HandlerDone(st: State, w: nat): State
    requires HasCurrent(st, w) && Current(st, w).inHand.Some?
  {
    var m := Current(st, w).inHand.value;
    var st1 := if m.Call? && m.caller in st.ctxs then WakeupLocked(st, m.caller, Response) else st;
    var c := Current(st1, w);
    SetCurrent(st1, w, c.(inHand := None, handled := c.handled + [m]), Loop)
      .(completed := st.completed + (if m.Call? then {m.id} else {}))
  }

  /** CallMethod up to the result of SendMessage. */
  function CallSend(st: State, w: nat, d: nat, id: nat): State
    requires HasCurrent(st, w) && d in st.ctxs
  {
    var s := st.workers[w].current;
    if !Accepts(st.ctxs[d]) then st
    else
      var st1 := SendMessage(st, d, Call(id, s));
      SetCurrent(st1, w, Current(st1, w).(calling := Some(id)), CallWait)
        .(calls := st.calls[id := CallInfo(d, s)])
  }

  function FinishMain(st: State, w: nat): State
    requires HasCurrent(st, w)
  {
    SetCurrent(st, w, Current(st, w).(stopping := true), Finishing)
  }

  function Die(st: State, w: nat): State
    requires HasCurrent(st, w)
  {
    SetCurrent(st, w, Current(st, w).(status := Dead, place := Deciding(w)), Sched)
  }

  function IdleExit(st: State, w: nat): State
    requires HasCurrent(st, w)
  {
    SetCurrent(st, w, Current(st, w).(stopping := true, status := Dead), Exited)
  }

  // ---------------------------------------------------------------- runs

  datatype Action =
    // by any thread
    | DoLaunch(s: nat, kind: Kind)
    | DoWakeUp(s: nat, e: Event)
    | DoInterrupt(s: nat)
    | DoIoReady(s: nat)
    | DoStop(s: nat)
    | DoSend(s: nat, payload: nat)
    // by the service that worker w runs
    | DoWait(w: nat, mask: Mask)
    | DoCallSend(w: nat, dest: nat, id: nat)
    | DoCallWait(w: nat)
    | DoWaitReturn(w: nat)
    | DoLoop(w: nat)
    | DoHandlerDone(w: nat)
    | DoFinishMain(w: nat)
    | DoDie(w: nat)
    // by worker w inside Schedule
    | DoGetReady(w: nat)
    | DoSwitch(w: nat)
    | DoJump(w: nat)
    | DoResumePrev(w: nat)
    | DoResumeCur(w: nat)
    | DoIdleExit(w: nat)

  predicate AtPc(st: State, w: nat, pc: Pc) {
    HasCurrent(st, w) && st.workers[w].pc == pc
  }

  predicate CanPick(st: State, w: nat) {
    && (AtPc(st, w, Sched) || (AtPc(st, w, Run) && Current(st, w).kind == Idle))
    && (st.runQueue != [] ==> st.runQueue[0] in st.ctxs)
  }

  predicate CanCall(st: State, w: nat, d: nat, id: nat) {
    AtPc(st, w, Run) && Current(st, w).kind != Idle && d in st.ctxs && id !in st.calls
  }

  /** When an action can happen.  Response is sent by call closures only, and services wait for
      Message and Response only through the message loop and CallMethod, as in the source. */
  predicate Enabled(st: State, a: Action) {
    match a
    case DoLaunch(s, kind) => s !in st.ctxs && kind != Idle
    case DoWakeUp(s, e) => s in st.ctxs && e != Response
    case DoInterrupt(s) => s in st.ctxs
    case DoIoReady(s) => s in st.ctxs
    case DoStop(s) => s in st.ctxs
    case DoSend(s, _) => s in st.ctxs
    case DoWait(w, mask) => AtPc(st, w, Run) && Current(st, w).kind != Idle && mask !! {Message, Response}
    case DoCallSend(w, d, id) => CanCall(st, w, d, id)
    case DoCallWait(w) => AtPc(st, w, CallWait)
    case DoWaitReturn(w) => AtPc(st, w, AfterWait) && Current(st, w).frame.InWait?
    case DoLoop(w) => AtPc(st, w, Loop)
    case DoHandlerDone(w) => AtPc(st, w, Run) && Current(st, w).inHand.Some?
    case DoFinishMain(w) => AtPc(st, w, Run) && Current(st, w).kind == UserThread
    case DoDie(w) => AtPc(st, w, Finishing)
    case DoGetReady(w) => CanPick(st, w)
    case DoSwitch(w) => HasCurrent(st, w) && st.workers[w].pc.Picked?
    case DoJump(w) => AtPc(st, w, Switched) && st.workers[w].prev.Some?
    case DoResumePrev(w) => AtPc(st, w, ResumePrev)
    case DoResumeCur(w) => AtPc(st, w, ResumeCur)
    case DoIdleExit(w) => AtPc(st, w, Run) && Current(st, w).kind == Idle && st.runQueue == []
  }

  function Next(st: State, a: Action): State
    requires Enabled(st, a)
  {
    match a
    case DoLaunch(s, kind) => LaunchService(st, s, kind)
    case DoWakeUp(s, e) => WakeupLocked(st, s, e)
    case DoInterrupt(s) => InterruptService(st, s)
    case DoIoReady(s) => OnIoReady(st, s)
    case DoStop(s) => StopService(st, s)
    case DoSend(s, payload) => SendMessage(st, s, Plain(payload))
    case DoWait(w, mask) => WaitLocked(st, w, mask)
    case DoCallSend(w, d, id) => CallSend(st, w, d, id)
    case DoCallWait(w) => WaitLocked(st, w, {Response})
    case DoWaitReturn(w) => WaitReturn(st, w)
    case DoLoop(w) => LoopStep(st, w)
    case DoHandlerDone(w) => HandlerDone(st, w)
    case DoFinishMain(w) => FinishMain(st, w)
    case DoDie(w) => Die(st, w)
    case DoGetReady(w) => GetReadyService(st, w)
    case DoSwitch(w) => SwitchTo(st, w)
    case DoJump(w) => Jump(st, w)
    case DoResumePrev(w) => OnResumePrev(st, w)
    case DoResumeCur(w) => OnResumeCur(st, w)
    case DoIdleExit(w) => IdleExit(st, w)
  }

  /** n workers have each just jumped into their own idle service. */
  ghost predicate Init(st: State) {
    && st.runQueue == [] && st.calls == map[] && st.completed == {} && st.returned == {}
    && (forall w :: 0 <= w < |st.workers| ==>
         && st.workers[w] == Worker(w, w, None, ResumePrev)
         && w in st.ctxs
         && st.ctxs[w] == NewContext(Idle, Ready, {}).(saved := false, place := Resuming(w)))
    && (forall s :: s in st.ctxs ==> s < |st.workers|)
  }

  ghost predicate Step(st: State, st': State) {
    exists a :: Enabled(st, a) && st' == Next(st, a)
  }

  ghost predicate IsRun(run: seq<State>) {
    && run != []
    && Init(run[0])
    && forall i :: 0 < i < |run| ==> Step(run[i - 1], run[i])
  }
}
