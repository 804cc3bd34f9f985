/** Which step changes which field of a service, and to what: for each field all steps together.  The
    tables are written out on the fields of the state before the step, with the events and masks of
    the code, and say that nothing else changes. */
module SchedulerFields {
  import opened Options
  import Runs
  import opened Scheduler
  import opened SchedulerInvariant
  import opened SchedulerSteps
  import opened SchedulerCalls

  // ---------------------------------------------------------------- what a step posts

  datatype Post = Nothing | Post(to: nat, event: Event)

  predicate Takes(c: Context) {
    !c.stopping && c.status != Created
  }

  /** The one event a step posts to a service there already. */
  function PostOf(st: State, a: Action): Post
    requires Enabled(st, a)
  {
    match a
    case DoWakeUp(s, e) => Post(s, e)
    case DoInterrupt(s) =>
      if st.ctxs[s].status == Blocked && Interrupt in st.ctxs[s].waitEvents then Post(s, Interrupt) else Nothing
    case DoIoReady(s) => if IoOperation in st.ctxs[s].waitEvents then Post(s, IoOperation) else Nothing
    case DoStop(s) => if st.ctxs[s].stopping then Nothing else Post(s, ServiceStop)
    case DoSend(s, _) => if Takes(st.ctxs[s]) && Message in st.ctxs[s].waitEvents then Post(s, Message) else Nothing
    case DoCallSend(w, d, id) =>
      if Takes(st.ctxs[d]) && Message in st.ctxs[d].waitEvents then Post(d, Message) else Nothing
    case DoHandlerDone(w) =>
      var m := Current(st, w).inHand.value;
      if m.Call? && m.caller in st.ctxs then Post(m.caller, Response) else Nothing
    case _ => Nothing
  }

  predicate Posted(st: State, a: Action, s: nat, e: Event)
    requires Enabled(st, a)
  {
    PostOf(st, a) == Post(s, e)
  }

  // A post that the service awaits
  predicate Signals(st: State, a: Action, s: nat)
    requires Enabled(st, a) && s in st.ctxs
  {
    PostOf(st, a).Post? && PostOf(st, a).to == s && PostOf(st, a).event in st.ctxs[s].waitEvents
  }

  // A post that makes a service off its stack Ready
  predicate Revives(st: State, a: Action, s: nat)
    requires Enabled(st, a) && s in st.ctxs
  {
    Signals(st, a, s) && st.ctxs[s].status == Blocked && !st.ctxs[s].isSwapingOut
  }

  // OnResume finds its predecessor Blocked and signalled
  predicate Releases(st: State, a: Action, s: nat)
    requires Enabled(st, a) && s in st.ctxs
  {
    && a.DoResumePrev? && st.workers[a.w].prev == Some(s) && !st.ctxs[s].kind.Idle?
    && st.ctxs[s].wakeupSignal && st.ctxs[s].status == Blocked
  }

  // ---------------------------------------------------------------- how a wait goes

  /** The mask on which s waits in this step, if it does. */
  function WaitMask(st: State, a: Action, s: nat): Option<Mask>
    requires Enabled(st, a) && s in st.ctxs
  {
    match a
    case DoWait(w, mask) => if s == st.workers[w].current then Some(mask) else None
    case DoCallWait(w) => if s == st.workers[w].current then Some({Response}) else None
    case DoWaitReturn(w) => if s == st.workers[w].current then Some(st.ctxs[s].frame.mask) else None
    case DoLoop(w) =>
      if s == st.workers[w].current && st.ctxs[s].msgQueue == [] && !st.ctxs[s].stopping then
        Some({Message, ServiceStop})
      else None
    case _ => None
  }

  // A wait for the stop of a service that is stopping already, before it parks
  predicate StopsAtOnce(st: State, a: Action, s: nat)
    requires Enabled(st, a) && s in st.ctxs
  {
    var mask := WaitMask(st, a, s);
    mask.Some? && !a.DoWaitReturn? && st.ctxs[s].stopping && ServiceStop in mask.value
  }

  predicate FindsEvent(st: State, a: Action, s: nat)
    requires Enabled(st, a) && s in st.ctxs
  {
    var mask := WaitMask(st, a, s);
    mask.Some? && !StopsAtOnce(st, a, s) && !(st.ctxs[s].events !! mask.value)
  }

  predicate Parks(st: State, a: Action, s: nat)
    requires Enabled(st, a) && s in st.ctxs
  {
    WaitMask(st, a, s).Some? && !StopsAtOnce(st, a, s) && !FindsEvent(st, a, s)
  }

  // A wait that this step ends
  predicate Finishes(st: State, a: Action, s: nat)
    requires Enabled(st, a) && s in st.ctxs
  {
    StopsAtOnce(st, a, s) || FindsEvent(st, a, s)
  }

  // ---------------------------------------------------------------- the handshake

  /** A wait that ends consumes the awaited events and no other; nothing else consumes any. */
  function EventsOf(st: State, a: Action, s: nat): Mask
    requires Enabled(st, a) && s in st.ctxs
  {
    var c := st.ctxs[s];
    if PostOf(st, a).Post? && PostOf(st, a).to == s then c.events + {PostOf(st, a).event}
    else if FindsEvent(st, a, s) then c.events - WaitMask(st, a, s).value
    else c.events
  }

  function StatusOf(st: State, a: Action, s: nat): Status
    requires Enabled(st, a) && s in st.ctxs
  {
    if Revives(st, a, s) || Releases(st, a, s) then Ready
    else if Parks(st, a, s) then Blocked
    else if Ends(st, a, s) then Dead
    else if a.DoGetReady? && st.runQueue == [] && s == st.workers[a.w].idle then Ready
    else if a.DoResumeCur? && s == st.workers[a.w].current then Running
    else st.ctxs[s].status
  }

  // The end of a service: of its message loop, of its Main, or of a worker's idle service
  predicate Ends(st: State, a: Action, s: nat)
    requires Enabled(st, a) && s in st.ctxs
  {
    match a
    case DoLoop(w) => s == st.workers[w].current && st.ctxs[s].msgQueue == [] && st.ctxs[s].stopping
    case DoDie(w) => s == st.workers[w].current
    case DoIdleExit(w) => s == st.workers[w].current
    case _ => false
  }

  function AwaitedOf(st: State, a: Action, s: nat): Mask
    requires Enabled(st, a) && s in st.ctxs
  {
    if Parks(st, a, s) then WaitMask(st, a, s).value
    else if Finishes(st, a, s) || (a.DoResumeCur? && s == st.workers[a.w].current) then {}
    else st.ctxs[s].waitEvents
  }

  predicate SignalOf(st: State, a: Action, s: nat)
    requires Enabled(st, a) && s in st.ctxs
  {
    Signals(st, a, s) || (st.ctxs[s].wakeupSignal && !(a.DoResumeCur? && s == st.workers[a.w].current))
  }

  predicate SwapOf(st: State, a: Action, s: nat)
    requires Enabled(st, a) && s in st.ctxs
  {
    match a
    case DoSwitch(w) =>
      st.ctxs[s].isSwapingOut || (s == st.workers[w].current && st.workers[w].pc.next != s)
    case DoResumePrev(w) => st.ctxs[s].isSwapingOut && st.workers[w].prev != Some(s)
    case _ => st.ctxs[s].isSwapingOut || Parks(st, a, s)
  }

  predicate StoppingOf(st: State, a: Action, s: nat)
    requires Enabled(st, a) && s in st.ctxs
  {
    || st.ctxs[s].stopping || a == DoStop(s)
    || ((a.DoFinishMain? || a.DoIdleExit?) && s == st.workers[a.w].current)
  }

  ghost predicate HandshakeExactly(st: State, a: Action, s: nat, c: Context)
    requires Enabled(st, a) && s in st.ctxs
  {
    && c.kind == st.ctxs[s].kind
    && c.events == EventsOf(st, a, s)
    && c.status == StatusOf(st, a, s)
    && c.waitEvents == AwaitedOf(st, a, s)
    && (c.wakeupSignal <==> SignalOf(st, a, s))
    && (c.isSwapingOut <==> SwapOf(st, a, s))
    && (c.stopping <==> StoppingOf(st, a, s))
  }

  // ---------------------------------------------------------------- messages, calls and stacks

  // The message that this step gives to s
  function MessageFor(st: State, a: Action, s: nat): seq<Msg>
    requires Enabled(st, a) && s in st.ctxs
  {
    match a
    case DoSend(x, payload) => if x == s && Takes(st.ctxs[s]) then [Plain(payload)] else []
    case DoCallSend(w, d, id) => if d == s && Takes(st.ctxs[s]) then [Call(id, st.workers[w].current)] else []
    case _ => []
  }

  predicate TakesNext(st: State, a: Action, s: nat)
    requires Enabled(st, a) && s in st.ctxs
  {
    a.DoLoop? && s == st.workers[a.w].current && st.ctxs[s].msgQueue != []
  }

  predicate Handles(st: State, a: Action, s: nat)
    requires Enabled(st, a) && s in st.ctxs
  {
    a.DoHandlerDone? && s == st.workers[a.w].current
  }

  // Service s makes a call that is accepted
  predicate Calls(st: State, a: Action, s: nat)
    requires Enabled(st, a) && s in st.ctxs
  {
    a.DoCallSend? && s == st.workers[a.w].current && Takes(st.ctxs[a.dest])
  }

  ghost predicate MessagesExactly(st: State, a: Action, s: nat, d: Context)
    requires Enabled(st, a) && s in st.ctxs
  {
    var c := st.ctxs[s];
    && d.accepted == c.accepted + MessageFor(st, a, s)
    && d.msgQueue == (if TakesNext(st, a, s) then c.msgQueue[1..] else c.msgQueue + MessageFor(st, a, s))
    && d.inHand == (if TakesNext(st, a, s) then Some(c.msgQueue[0]) else if Handles(st, a, s) then None else c.inHand)
    && (if Handles(st, a, s) then c.inHand.Some? && d.handled == c.handled + [c.inHand.value]
        else d.handled == c.handled)
    && d.calling == (if Calls(st, a, s) then Some(a.id) else if Finishes(st, a, s) then None else c.calling)
    && d.frame == (if Parks(st, a, s) then InWait(WaitMask(st, a, s).value) else c.frame)
    && d.saved == (if a.DoJump? && st.workers[a.w].prev == Some(s) then true
                   else c.saved && !(a.DoJump? && s == st.workers[a.w].current))
  }

  ghost predicate FieldsExactly(st: State, a: Action, s: nat)
    requires Enabled(st, a) && s in st.ctxs
  {
    && s in Next(st, a).ctxs
    && HandshakeExactly(st, a, s, Next(st, a).ctxs[s]) && MessagesExactly(st, a, s, Next(st, a).ctxs[s])
  }

  ghost predicate Exactly(st: State, a: Action, s: nat, d: Context)
    requires Enabled(st, a) && s in st.ctxs
  {
    HandshakeExactly(st, a, s, d) && MessagesExactly(st, a, s, d)
  }

  // ---------------------------------------------------------------- steps by any thread

  // d is c with e posted
  predicate Woke(c: Context, d: Context, e: Event) {
    d == c.(events := c.events + {e}, wakeupSignal := c.wakeupSignal || e in c.waitEvents,
            status := if e in c.waitEvents && c.status == Blocked && !c.isSwapingOut then Ready else c.status,
            place := d.place)
  }

  lemma WakeupIsWoke(st: State, x: nat, e: Event, s: nat)
    requires x in st.ctxs && s in st.ctxs
    ensures var st' := WakeupLocked(st, x, e);
      s in st'.ctxs && (if s == x then Woke(st.ctxs[s], st'.ctxs[s], e) else st'.ctxs[s] == st.ctxs[s])
  {
  }

  // s as a step by a thread that is none of the workers finds it, with its new message or stop request
  function Given(st: State, a: Action, s: nat): Context
    requires Enabled(st, a) && s in st.ctxs
  {
    var c, m := st.ctxs[s], MessageFor(st, a, s);
    c.(stopping := StoppingOf(st, a, s), accepted := c.accepted + m, msgQueue := c.msgQueue + m)
  }

  ghost predicate PostedTo(st: State, a: Action, s: nat, d: Context)
    requires Enabled(st, a) && s in st.ctxs
  {
    if PostOf(st, a).Post? && PostOf(st, a).to == s then Woke(Given(st, a, s), d, PostOf(st, a).event)
    else d == Given(st, a, s)
  }

  lemma WokenHandshake(st: State, a: Action, s: nat, d: Context)
    requires Enabled(st, a) && !ByWorker(a) && s in st.ctxs && PostOf(st, a).Post? && PostOf(st, a).to == s
    requires Woke(Given(st, a, s), d, PostOf(st, a).event)
    ensures HandshakeExactly(st, a, s, d)
  {
  }

  lemma UntouchedHandshake(st: State, a: Action, s: nat)
    requires Enabled(st, a) && !ByWorker(a) && s in st.ctxs && !(PostOf(st, a).Post? && PostOf(st, a).to == s)
    ensures HandshakeExactly(st, a, s, Given(st, a, s))
  {
  }

  lemma PostedHandshake(st: State, a: Action, s: nat, d: Context)
    requires Enabled(st, a) && !ByWorker(a) && s in st.ctxs && PostedTo(st, a, s, d)
    ensures HandshakeExactly(st, a, s, d)
  {
    if PostOf(st, a).Post? && PostOf(st, a).to == s {
      WokenHandshake(st, a, s, d);
    } else {
      UntouchedHandshake(st, a, s);
    }
  }

  lemma PostedMessages(st: State, a: Action, s: nat, d: Context)
    requires Enabled(st, a) && !ByWorker(a) && s in st.ctxs && PostedTo(st, a, s, d)
    ensures MessagesExactly(st, a, s, d)
  {
  }

  lemma PostedExactly(st: State, a: Action, s: nat)
    requires Enabled(st, a) && !ByWorker(a) && s in st.ctxs
    requires s in Next(st, a).ctxs && PostedTo(st, a, s, Next(st, a).ctxs[s])
    ensures FieldsExactly(st, a, s)
  {
    PostedHandshake(st, a, s, Next(st, a).ctxs[s]);
    PostedMessages(st, a, s, Next(st, a).ctxs[s]);
  }

  lemma NoMessage(c: Context)
    ensures c.(accepted := c.accepted + [], msgQueue := c.msgQueue + []) == c
  {
  }

  lemma LaunchFields(st: State, x: nat, kind: Kind, s: nat)
    requires Enabled(st, DoLaunch(x, kind)) && s in st.ctxs
    ensures FieldsExactly(st, DoLaunch(x, kind), s)
  {
    NoMessage(st.ctxs[s]);
    WakeupIsWoke(SetCtx(st, x, NewContext(kind, Blocked, {ServiceStart})), x, ServiceStart, s);
    PostedExactly(st, DoLaunch(x, kind), s);
  }

  lemma WakeUpFields(st: State, x: nat, e: Event, s: nat)
    requires Enabled(st, DoWakeUp(x, e)) && s in st.ctxs
    ensures FieldsExactly(st, DoWakeUp(x, e), s)
  {
    NoMessage(st.ctxs[s]);
    WakeupIsWoke(st, x, e, s);
    PostedExactly(st, DoWakeUp(x, e), s);
  }

  lemma InterruptFields(st: State, x: nat, s: nat)
    requires Enabled(st, DoInterrupt(x)) && s in st.ctxs
    ensures FieldsExactly(st, DoInterrupt(x), s)
  {
    NoMessage(st.ctxs[s]);
    WakeupIsWoke(st, x, Interrupt, s);
    PostedExactly(st, DoInterrupt(x), s);
  }

  lemma IoReadyFields(st: State, x: nat, s: nat)
    requires Enabled(st, DoIoReady(x)) && s in st.ctxs
    ensures FieldsExactly(st, DoIoReady(x), s)
  {
    NoMessage(st.ctxs[s]);
    WakeupIsWoke(st, x, IoOperation, s);
    PostedExactly(st, DoIoReady(x), s);
  }

  lemma StopFields(st: State, x: nat, s: nat)
    requires Enabled(st, DoStop(x)) && s in st.ctxs
    ensures FieldsExactly(st, DoStop(x), s)
  {
    NoMessage(Given(st, DoStop(x), s));
    NoMessage(st.ctxs[s]);
    WakeupIsWoke(SetCtx(st, x, st.ctxs[x].(stopping := true)), x, ServiceStop, s);
    PostedExactly(st, DoStop(x), s);
  }

  // Sending m to x, as it shows at s
  lemma SendIsWoke(st: State, x: nat, m: Msg, s: nat)
    requires x in st.ctxs && s in st.ctxs
    ensures
      var st' := SendMessage(st, x, m);
      var b := st.ctxs[s].(accepted := st.ctxs[s].accepted + [m], msgQueue := st.ctxs[s].msgQueue + [m]);
      && s in st'.ctxs
      && if s != x || !Takes(st.ctxs[x]) then st'.ctxs[s] == st.ctxs[s]
         else if Message in b.waitEvents then Woke(b, st'.ctxs[s], Message) else st'.ctxs[s] == b
  {
    var c := st.ctxs[x];
    var st1 := SetCtx(st, x, c.(msgQueue := c.msgQueue + [m], accepted := c.accepted + [m]));
    WakeupIsWoke(st1, x, Message, s);
  }

  lemma SendFields(st: State, x: nat, payload: nat, s: nat)
    requires Enabled(st, DoSend(x, payload)) && s in st.ctxs
    ensures FieldsExactly(st, DoSend(x, payload), s)
  {
    SendIsWoke(st, x, Plain(payload), s);
    NoMessage(st.ctxs[s]);
    PostedExactly(st, DoSend(x, payload), s);
  }

  // ---------------------------------------------------------------- waits

  // d is c after the wait
  predicate Waited(st: State, a: Action, s: nat, d: Context)
    requires Enabled(st, a) && s in st.ctxs
  {
    var c := st.ctxs[s];
    var mask := WaitMask(st, a, s);
    if mask.None? then d == c
    else if StopsAtOnce(st, a, s) then d == c.(waitEvents := {}, calling := None)
    else if FindsEvent(st, a, s) then d == c.(waitEvents := {}, calling := None, events := c.events - mask.value)
    else d == c.(status := Blocked, isSwapingOut := true, waitEvents := mask.value, frame := InWait(mask.value),
                 place := d.place)
  }

  predicate Waits(a: Action) {
    a.DoWait? || a.DoCallWait? || a.DoWaitReturn?
  }

  lemma WaiterHandshake(st: State, a: Action, s: nat, d: Context)
    requires Enabled(st, a) && Waits(a) && s in st.ctxs && WaitMask(st, a, s).Some? && Waited(st, a, s, d)
    ensures HandshakeExactly(st, a, s, d)
  {
  }

  lemma BystanderHandshake(st: State, a: Action, s: nat)
    requires Enabled(st, a) && Waits(a) && s in st.ctxs && WaitMask(st, a, s).None?
    ensures HandshakeExactly(st, a, s, st.ctxs[s])
  {
  }

  lemma WaitedMessages(st: State, a: Action, s: nat, d: Context)
    requires Enabled(st, a) && Waits(a) && s in st.ctxs && Waited(st, a, s, d)
    ensures MessagesExactly(st, a, s, d)
  {
  }

  lemma WaitedExactly(st: State, a: Action, s: nat)
    requires Enabled(st, a) && Waits(a) && s in st.ctxs
    requires s in Next(st, a).ctxs && Waited(st, a, s, Next(st, a).ctxs[s])
    ensures FieldsExactly(st, a, s)
  {
    if WaitMask(st, a, s).Some? {
      WaiterHandshake(st, a, s, Next(st, a).ctxs[s]);
    } else {
      BystanderHandshake(st, a, s);
    }
    WaitedMessages(st, a, s, Next(st, a).ctxs[s]);
  }

  lemma WaitLockedLeaves(st: State, w: nat, mask: Mask, s: nat)
    requires HasCurrent(st, w) && s in st.ctxs
    ensures s in WaitLocked(st, w, mask).ctxs
    ensures
      var c, d := st.ctxs[s], WaitLocked(st, w, mask).ctxs[s];
      if s != st.workers[w].current then d == c
      else if c.stopping && ServiceStop in mask then d == c.(waitEvents := {}, calling := None)
      else if !(c.events !! mask) then d == c.(waitEvents := {}, calling := None, events := c.events - mask)
      else d == c.(status := Blocked, isSwapingOut := true, waitEvents := mask, frame := InWait(mask), place := d.place)
  {
  }

  lemma WaitReturnLeaves(st: State, w: nat, s: nat)
    requires StructOk(st) && Enabled(st, DoWaitReturn(w)) && s in st.ctxs
    ensures s in WaitReturn(st, w).ctxs && Waited(st, DoWaitReturn(w), s, WaitReturn(st, w).ctxs[s])
  {
    assert WorkerOk(st, w) && CtxOk(Current(st, w));
  }

  lemma WaitLeaves(st: State, a: Action, s: nat)
    requires StructOk(st) && Enabled(st, a) && Waits(a) && s in st.ctxs
    ensures s in Next(st, a).ctxs && Waited(st, a, s, Next(st, a).ctxs[s])
  {
    match a
    case DoWait(w, mask) => WaitLockedLeaves(st, w, mask, s);
    case DoCallWait(w) => WaitLockedLeaves(st, w, {Response}, s);
    case DoWaitReturn(w) => WaitReturnLeaves(st, w, s);
  }

  lemma WaitFields(st: State, a: Action, s: nat)
    requires StructOk(st) && Enabled(st, a) && Waits(a) && s in st.ctxs
    ensures FieldsExactly(st, a, s)
  {
    WaitLeaves(st, a, s);
    WaitedExactly(st, a, s);
  }

  // ---------------------------------------------------------------- other steps by a worker

  lemma LoopHandshake(st: State, w: nat, s: nat)
    requires StructOk(st) && Enabled(st, DoLoop(w)) && s in st.ctxs
    ensures s in LoopStep(st, w).ctxs && HandshakeExactly(st, DoLoop(w), s, LoopStep(st, w).ctxs[s])
  {
    assert WorkerOk(st, w) && CtxOk(Current(st, w));
  }

  lemma LoopMessages(st: State, w: nat, s: nat)
    requires StructOk(st) && Enabled(st, DoLoop(w)) && s in st.ctxs
    ensures s in LoopStep(st, w).ctxs && MessagesExactly(st, DoLoop(w), s, LoopStep(st, w).ctxs[s])
  {
    assert WorkerOk(st, w) && CtxOk(Current(st, w));
  }

  lemma LoopFields(st: State, w: nat, s: nat)
    requires StructOk(st) && Enabled(st, DoLoop(w)) && s in st.ctxs
    ensures FieldsExactly(st, DoLoop(w), s)
  {
    LoopHandshake(st, w, s);
    LoopMessages(st, w, s);
  }

  ghost predicate HandledBy(st: State, w: nat, s: nat, d: Context)
    requires Enabled(st, DoHandlerDone(w)) && s in st.ctxs
  {
    var c, m := st.ctxs[s], Current(st, w).inHand.value;
    var b := if s == st.workers[w].current then c.(inHand := None, handled := c.handled + [m]) else c;
    if m.Call? && m.caller == s then Woke(b, d, Response) else d == b
  }

  lemma HandlerLeftHandshake(st: State, w: nat, s: nat, d: Context)
    requires Enabled(st, DoHandlerDone(w)) && s in st.ctxs && HandledBy(st, w, s, d)
    ensures HandshakeExactly(st, DoHandlerDone(w), s, d)
  {
  }

  lemma HandlerLeftMessages(st: State, w: nat, s: nat, d: Context)
    requires Enabled(st, DoHandlerDone(w)) && s in st.ctxs && HandledBy(st, w, s, d)
    ensures MessagesExactly(st, DoHandlerDone(w), s, d)
  {
  }

  lemma HandlerDoneLeaves(st: State, w: nat, s: nat)
    requires Enabled(st, DoHandlerDone(w)) && s in st.ctxs
    ensures s in HandlerDone(st, w).ctxs && HandledBy(st, w, s, HandlerDone(st, w).ctxs[s])
  {
    var m := Current(st, w).inHand.value;
    if m.Call? && m.caller in st.ctxs { WakeupIsWoke(st, m.caller, Response, s); }
  }

  lemma HandlerDoneFields(st: State, w: nat, s: nat)
    requires Enabled(st, DoHandlerDone(w)) && s in st.ctxs
    ensures FieldsExactly(st, DoHandlerDone(w), s)
  {
    HandlerDoneLeaves(st, w, s);
    var d := HandlerDone(st, w).ctxs[s];
    assert Next(st, DoHandlerDone(w)).ctxs[s] == d;
    HandlerLeftHandshake(st, w, s, d);
    HandlerLeftMessages(st, w, s, d);
  }

  ghost predicate CallLeft(st: State, w: nat, x: nat, id: nat, s: nat, d: Context)
    requires Enabled(st, DoCallSend(w, x, id)) && s in st.ctxs
  {
    var c, m := st.ctxs[s], Call(id, st.workers[w].current);
    var b := if s == x then c.(accepted := c.accepted + [m], msgQueue := c.msgQueue + [m]) else c;
    var b' := if s == st.workers[w].current then b.(calling := Some(id)) else b;
    if !Takes(st.ctxs[x]) then d == c else if s == x && Message in c.waitEvents then Woke(b', d, Message) else d == b'
  }

  lemma CallLeftHandshake(st: State, w: nat, x: nat, id: nat, s: nat, d: Context)
    requires Enabled(st, DoCallSend(w, x, id)) && s in st.ctxs && CallLeft(st, w, x, id, s, d)
    ensures HandshakeExactly(st, DoCallSend(w, x, id), s, d)
  {
  }

  lemma CallLeftMessages(st: State, w: nat, x: nat, id: nat, s: nat, d: Context)
    requires Enabled(st, DoCallSend(w, x, id)) && s in st.ctxs && CallLeft(st, w, x, id, s, d)
    ensures MessagesExactly(st, DoCallSend(w, x, id), s, d)
  {
  }

  lemma CallSendLeaves(st: State, w: nat, x: nat, id: nat, s: nat)
    requires Enabled(st, DoCallSend(w, x, id)) && s in st.ctxs
    ensures s in CallSend(st, w, x, id).ctxs && CallLeft(st, w, x, id, s, CallSend(st, w, x, id).ctxs[s])
  {
    var cur := st.workers[w].current;
    var st1 := SendMessage(st, x, Call(id, cur));
    SendIsWoke(st, x, Call(id, cur), s);
    if Takes(st.ctxs[x]) {
      SendEffect(st, x, Call(id, cur));
      CallSendIs(st, w, x, id, st1);
    }
  }

  lemma CallSendFields(st: State, w: nat, x: nat, id: nat, s: nat)
    requires Enabled(st, DoCallSend(w, x, id)) && s in st.ctxs
    ensures FieldsExactly(st, DoCallSend(w, x, id), s)
  {
    CallSendLeaves(st, w, x, id, s);
    CallLeftHandshake(st, w, x, id, s, CallSend(st, w, x, id).ctxs[s]);
    CallLeftMessages(st, w, x, id, s, CallSend(st, w, x, id).ctxs[s]);
  }

  // Steps of Schedule, and the ends of services

  predicate Switches(a: Action) {
    a.DoGetReady? || a.DoSwitch? || a.DoJump? || a.DoResumePrev? || a.DoResumeCur?
  }

  /** What a step of Schedule makes of a context. */
  function AfterSwitch(st: State, a: Action, s: nat): Context
    requires Enabled(st, a) && Switches(a) && s in st.ctxs
  {
    var c, W := st.ctxs[s], st.workers[a.w];
    match a
    case DoGetReady(w) => if st.runQueue == [] && s == W.idle then c.(status := Ready) else c
    case DoSwitch(w) => if s == W.current && W.pc.next != s then c.(isSwapingOut := true) else c
    case DoJump(w) => if W.prev == Some(s) then c.(saved := true) else if s == W.current then c.(saved := false) else c
    case DoResumePrev(w) =>
      if W.prev == Some(s) then
        c.(isSwapingOut := false, status := if Releases(st, a, s) then Ready else c.status)
      else c
    case DoResumeCur(w) =>
      if s == W.current then c.(wakeupSignal := false, waitEvents := {}, status := Running) else c
  }

  lemma SwitchedHandshake(st: State, a: Action, s: nat, d: Context)
    requires Enabled(st, a) && Switches(a) && s in st.ctxs && d == AfterSwitch(st, a, s).(place := d.place)
    ensures HandshakeExactly(st, a, s, d)
  {
  }

  lemma SwitchedMessages(st: State, a: Action, s: nat, d: Context)
    requires Enabled(st, a) && Switches(a) && s in st.ctxs && d == AfterSwitch(st, a, s).(place := d.place)
    ensures MessagesExactly(st, a, s, d)
  {
  }

  lemma GetReadyIs(st: State, w: nat, s: nat)
    requires StructOk(st) && Enabled(st, DoGetReady(w)) && s in st.ctxs
    ensures s in GetReadyService(st, w).ctxs
    ensures var d := GetReadyService(st, w).ctxs[s]; d == AfterSwitch(st, DoGetReady(w), s).(place := d.place)
  {
  }

  lemma SwitchIs(st: State, w: nat, s: nat)
    requires Enabled(st, DoSwitch(w)) && s in st.ctxs
    ensures s in SwitchTo(st, w).ctxs
    ensures var d := SwitchTo(st, w).ctxs[s]; d == AfterSwitch(st, DoSwitch(w), s).(place := d.place)
  {
  }

  lemma JumpIs(st: State, w: nat, s: nat)
    requires StructOk(st) && Enabled(st, DoJump(w)) && s in st.ctxs
    ensures s in Jump(st, w).ctxs
    ensures var d := Jump(st, w).ctxs[s]; d == AfterSwitch(st, DoJump(w), s).(place := d.place)
  {
    assert WorkerOk(st, w);
  }

  lemma ResumePrevIs(st: State, w: nat, s: nat)
    requires Enabled(st, DoResumePrev(w)) && s in st.ctxs
    ensures s in OnResumePrev(st, w).ctxs
    ensures var d := OnResumePrev(st, w).ctxs[s]; d == AfterSwitch(st, DoResumePrev(w), s).(place := d.place)
  {
  }

  lemma ResumeCurIs(st: State, w: nat, s: nat)
    requires Enabled(st, DoResumeCur(w)) && s in st.ctxs
    ensures s in OnResumeCur(st, w).ctxs
    ensures var d := OnResumeCur(st, w).ctxs[s]; d == AfterSwitch(st, DoResumeCur(w), s).(place := d.place)
  {
  }

  lemma SwitchingFields(st: State, a: Action, s: nat)
    requires StructOk(st) && Enabled(st, a) && Switches(a) && s in st.ctxs
    ensures FieldsExactly(st, a, s)
  {
    match a {
      case DoGetReady(w) => GetReadyIs(st, w, s);
      case DoSwitch(w) => SwitchIs(st, w, s);
      case DoJump(w) => JumpIs(st, w, s);
      case DoResumePrev(w) => ResumePrevIs(st, w, s);
      case DoResumeCur(w) => ResumeCurIs(st, w, s);
    }
    SwitchedHandshake(st, a, s, Next(st, a).ctxs[s]);
    SwitchedMessages(st, a, s, Next(st, a).ctxs[s]);
  }

  lemma FinishMainFields(st: State, w: nat, s: nat)
    requires StructOk(st) && Enabled(st, DoFinishMain(w)) && s in st.ctxs
    ensures FieldsExactly(st, DoFinishMain(w), s)
  {
  }

  lemma DieFields(st: State, w: nat, s: nat)
    requires StructOk(st) && Enabled(st, DoDie(w)) && s in st.ctxs
    ensures FieldsExactly(st, DoDie(w), s)
  {
  }

  lemma IdleExitFields(st: State, w: nat, s: nat)
    requires StructOk(st) && Enabled(st, DoIdleExit(w)) && s in st.ctxs
    ensures FieldsExactly(st, DoIdleExit(w), s)
  {
  }

  lemma OutsideFields(st: State, a: Action, s: nat)
    requires Enabled(st, a) && !ByWorker(a) && s in st.ctxs
    ensures FieldsExactly(st, a, s)
  {
    match a
    case DoLaunch(x, kind) => LaunchFields(st, x, kind, s);
    case DoWakeUp(x, e) => WakeUpFields(st, x, e, s);
    case DoInterrupt(x) => InterruptFields(st, x, s);
    case DoIoReady(x) => IoReadyFields(st, x, s);
    case DoStop(x) => StopFields(st, x, s);
    case DoSend(x, payload) => SendFields(st, x, payload, s);
  }

  /** Every field of every service after any step, from the fields before it. */
  lemma NextFields(st: State, a: Action, s: nat)
    requires StructOk(st) && Enabled(st, a) && s in st.ctxs
    ensures FieldsExactly(st, a, s)
  {
    if !ByWorker(a) {
      OutsideFields(st, a, s);
    } else if Switches(a) {
      SwitchingFields(st, a, s);
    } else if Waits(a) {
      WaitFields(st, a, s);
    } else {
      match a
      case DoCallSend(w, d, id) => CallSendFields(st, w, d, id, s);
      case DoLoop(w) => LoopFields(st, w, s);
      case DoHandlerDone(w) => HandlerDoneFields(st, w, s);
      case DoFinishMain(w) => FinishMainFields(st, w, s);
      case DoDie(w) => DieFields(st, w, s);
      case DoIdleExit(w) => IdleExitFields(st, w, s);
    }
  }

  // ---------------------------------------------------------------- new services

  /** A user thread is launched into the run queue; a message-driven service awaits its first message
      or its stop. */
  lemma LaunchedExactly(st: State, s: nat, kind: Kind)
    requires Enabled(st, DoLaunch(s, kind))
    ensures
      var st' := LaunchService(st, s, kind);
      && st'.ctxs.Keys == st.ctxs.Keys + {s}
      && var c := st'.ctxs[s];
         && c.kind == kind && c.frame == Entry && c.saved && !c.stopping && !c.isSwapingOut
         && c.accepted == c.handled == c.msgQueue == [] && c.inHand == None && c.calling == None
         && if kind == UserThread then c.status == Ready && c.events == c.waitEvents == {ServiceStart} && c.wakeupSignal
            else c.status == Blocked && c.events == {} && c.waitEvents == {Message, ServiceStop} && !c.wakeupSignal
  {
  }

  // ---------------------------------------------------------------- the run queue

  /** What a step appends to the run queue. */
  function Requeued(st: State, a: Action): seq<nat>
    requires Enabled(st, a)
  {
    if a.DoLaunch? then (if a.kind.UserThread? then [a.s] else [])
    else if a.DoResumePrev? then
      (if st.workers[a.w].prev.Some? && Releases(st, a, st.workers[a.w].prev.value) then [st.workers[a.w].prev.value]
       else [])
    else if PostOf(st, a).Post? && PostOf(st, a).to in st.ctxs && Revives(st, a, PostOf(st, a).to) then
      [PostOf(st, a).to]
    else []
  }

  ghost predicate QueueLeft(st: State, a: Action, queue: seq<nat>)
    requires Enabled(st, a)
  {
    queue == (if a.DoGetReady? && st.runQueue != [] then st.runQueue[1..] else st.runQueue) + Requeued(st, a)
  }

  // A post to x and what it appends to the queue
  lemma WakeupQueue(st: State, x: nat, e: Event)
    requires StructOk(st) && x in st.ctxs
    ensures var c := st.ctxs[x];
      WakeupLocked(st, x, e).runQueue ==
        st.runQueue + if e in c.waitEvents && c.status == Blocked && !c.isSwapingOut then [x] else []
  {
    assert CtxOk(st.ctxs[x]);
  }

  lemma SendQueue(st: State, x: nat, m: Msg)
    requires StructOk(st) && x in st.ctxs
    ensures var c := st.ctxs[x];
      SendMessage(st, x, m).runQueue == st.runQueue +
        if Takes(c) && Message in c.waitEvents && c.status == Blocked && !c.isSwapingOut then [x] else []
  {
    assert CtxOk(st.ctxs[x]);
  }

  lemma StopQueue(st: State, x: nat)
    requires StructOk(st) && x in st.ctxs
    ensures QueueLeft(st, DoStop(x), StopService(st, x).runQueue)
  {
    assert CtxOk(st.ctxs[x]);
  }

  lemma OutsideQueue(st: State, a: Action)
    requires StructOk(st) && Enabled(st, a) && !ByWorker(a)
    ensures QueueLeft(st, a, Next(st, a).runQueue)
  {
    match a
    case DoLaunch(s, kind) =>
    case DoWakeUp(s, e) => WakeupQueue(st, s, e);
    case DoInterrupt(s) => WakeupQueue(st, s, Interrupt);
    case DoIoReady(s) => WakeupQueue(st, s, IoOperation);
    case DoStop(s) => StopQueue(st, s);
    case DoSend(s, payload) => SendQueue(st, s, Plain(payload));
  }

  lemma CallQueue(st: State, w: nat, d: nat, id: nat)
    requires StructOk(st) && Enabled(st, DoCallSend(w, d, id))
    ensures QueueLeft(st, DoCallSend(w, d, id), CallSend(st, w, d, id).runQueue)
  {
    SendQueue(st, d, Call(id, st.workers[w].current));
  }

  lemma HandlerQueue(st: State, w: nat)
    requires StructOk(st) && Enabled(st, DoHandlerDone(w))
    ensures QueueLeft(st, DoHandlerDone(w), HandlerDone(st, w).runQueue)
  {
    var m := Current(st, w).inHand.value;
    if m.Call? && m.caller in st.ctxs { WakeupQueue(st, m.caller, Response); }
  }

  /** Only GetReadyService takes from the run queue, and takes the front; all others append. */
  lemma QueueExactly(st: State, a: Action)
    requires StructOk(st) && Enabled(st, a)
    ensures QueueLeft(st, a, Next(st, a).runQueue)
  {
    if !ByWorker(a) {
      OutsideQueue(st, a);
    } else if a.DoCallSend? {
      CallQueue(st, a.w, a.dest, a.id);
    } else if a.DoHandlerDone? {
      HandlerQueue(st, a.w);
    }
  }

  // ---------------------------------------------------------------- workers and calls

  /** Where worker w is after its step. */
  function PcOf(st: State, a: Action): Pc
    requires Enabled(st, a) && ByWorker(a)
  {
    var W, c := st.workers[a.w], Current(st, a.w);
    match a
    case DoCallSend(w, d, id) => if Takes(st.ctxs[d]) then CallWait else Run
    case DoLoop(w) =>
      if c.msgQueue != [] then Run else if c.stopping || Parks(st, a, W.current) then Sched else Loop
    case DoHandlerDone(w) => Loop
    case DoFinishMain(w) => Finishing
    case DoDie(w) => Sched
    case DoGetReady(w) => Picked(if st.runQueue == [] then W.idle else st.runQueue[0])
    case DoSwitch(w) => if W.pc.next == W.current then Run else Pc.Switched
    case DoJump(w) => ResumePrev
    case DoResumePrev(w) => ResumeCur
    case DoResumeCur(w) =>
      if c.kind.Idle? then Run else if c.frame.InWait? then AfterWait else if c.kind.MessageDriven? then Loop else Run
    case DoIdleExit(w) => Exited
    case _ =>
      if Parks(st, a, W.current) then Sched else if c.kind.MessageDriven? && c.inHand.None? then Loop else Run
  }

  function WorkerOf(st: State, a: Action): Worker
    requires Enabled(st, a) && ByWorker(a)
  {
    var W := st.workers[a.w];
    if a.DoSwitch? && W.pc.next != W.current then Worker(W.idle, W.pc.next, Some(W.current), PcOf(st, a))
    else if a.DoResumeCur? then Worker(W.idle, W.current, None, PcOf(st, a))
    else Worker(W.idle, W.current, W.prev, PcOf(st, a))
  }

  ghost predicate WorkersLeft(st: State, a: Action, st': State)
    requires Enabled(st, a)
  {
    st'.workers == if ByWorker(a) then st.workers[a.w := WorkerOf(st, a)] else st.workers
  }

  // The wait of a call that this step ends
  predicate ReturnsNow(st: State, a: Action)
    requires Enabled(st, a) && ByWorker(a)
  {
    (Waits(a) || a.DoLoop?) && Finishes(st, a, st.workers[a.w].current) && Current(st, a.w).calling.Some?
  }

  ghost predicate CallsLeft(st: State, a: Action, st': State)
    requires Enabled(st, a)
  {
    && st'.calls ==
         (if a.DoCallSend? && Takes(st.ctxs[a.dest]) then st.calls[a.id := CallInfo(a.dest, st.workers[a.w].current)]
          else st.calls)
    && st'.completed ==
         (if a.DoHandlerDone? && Current(st, a.w).inHand.value.Call? then
            st.completed + {Current(st, a.w).inHand.value.id}
          else st.completed)
    && st'.returned ==
         (if ByWorker(a) && ReturnsNow(st, a) then st.returned + {Current(st, a.w).calling.value} else st.returned)
  }

  ghost predicate Left(st: State, a: Action, st': State)
    requires Enabled(st, a)
  {
    WorkersLeft(st, a, st') && CallsLeft(st, a, st')
  }

  lemma OutsideMovesNoWorker(st: State, a: Action)
    requires Enabled(st, a) && !ByWorker(a)
    ensures Next(st, a).workers == st.workers
  {
  }

  lemma OutsideLeft(st: State, a: Action)
    requires Enabled(st, a) && !ByWorker(a)
    ensures Left(st, a, Next(st, a))
  {
    OutsideMovesNoWorker(st, a);
    OutsideFrames(st, a);
  }

  lemma WaitMovesWorker(st: State, a: Action)
    requires StructOk(st) && Enabled(st, a) && Waits(a)
    ensures WorkersLeft(st, a, Next(st, a))
  {
    assert WorkerOk(st, a.w) && CtxOk(Current(st, a.w));
  }

  lemma WaitReturnsNone(st: State, w: nat, mask: Mask)
    requires StructOk(st) && Enabled(st, DoWait(w, mask))
    ensures CallsLeft(st, DoWait(w, mask), WaitLocked(st, w, mask))
  {
    assert WorkerOk(st, w);
  }

  lemma CallWaitReturns(st: State, w: nat)
    requires StructOk(st) && Enabled(st, DoCallWait(w))
    ensures CallsLeft(st, DoCallWait(w), WaitLocked(st, w, {Response}))
  {
    assert WorkerOk(st, w);
  }

  lemma WaitReturnReturns(st: State, w: nat)
    requires StructOk(st) && Enabled(st, DoWaitReturn(w))
    ensures CallsLeft(st, DoWaitReturn(w), WaitReturn(st, w))
  {
    assert WorkerOk(st, w);
  }

  lemma WaitReturnsCall(st: State, a: Action)
    requires StructOk(st) && Enabled(st, a) && Waits(a)
    ensures CallsLeft(st, a, Next(st, a))
  {
    match a
    case DoWait(w, mask) => WaitReturnsNone(st, w, mask);
    case DoCallWait(w) => CallWaitReturns(st, w);
    case DoWaitReturn(w) => WaitReturnReturns(st, w);
  }

  lemma LoopLeft(st: State, w: nat)
    requires StructOk(st) && Enabled(st, DoLoop(w))
    ensures Left(st, DoLoop(w), LoopStep(st, w))
  {
    assert WorkerOk(st, w) && CtxOk(Current(st, w));
  }

  lemma SwitchMovesWorker(st: State, a: Action)
    requires StructOk(st) && Enabled(st, a) && Switches(a)
    ensures WorkersLeft(st, a, Next(st, a))
  {
  }

  lemma SwitchKeepsCallRecords(st: State, a: Action)
    requires StructOk(st) && Enabled(st, a) && Switches(a)
    ensures CallsLeft(st, a, Next(st, a))
  {
  }

  lemma CallSendLeft(st: State, w: nat, d: nat, id: nat)
    requires Enabled(st, DoCallSend(w, d, id))
    ensures Left(st, DoCallSend(w, d, id), CallSend(st, w, d, id))
  {
    if Accepts(st.ctxs[d]) { SendEffect(st, d, Call(id, st.workers[w].current)); }
  }

  lemma HandlerLeft(st: State, w: nat)
    requires Enabled(st, DoHandlerDone(w))
    ensures Left(st, DoHandlerDone(w), HandlerDone(st, w))
  {
    var m := Current(st, w).inHand.value;
    if m.Call? && m.caller in st.ctxs { WakeupEffect(st, m.caller, Response); }
  }

  lemma EndLeft(st: State, a: Action)
    requires Enabled(st, a) && (a.DoFinishMain? || a.DoDie? || a.DoIdleExit?)
    ensures Left(st, a, Next(st, a))
  {
  }

  /** A step moves its own worker only, as its table says; the calls recorded are those accepted, those
      whose handler is done, and those whose wait is over. */
  lemma LedgerExactly(st: State, a: Action)
    requires StructOk(st) && Enabled(st, a)
    ensures Left(st, a, Next(st, a))
  {
    if !ByWorker(a) {
      OutsideLeft(st, a);
    } else if Waits(a) {
      WaitMovesWorker(st, a);
      WaitReturnsCall(st, a);
    } else if Switches(a) {
      SwitchMovesWorker(st, a);
      SwitchKeepsCallRecords(st, a);
    } else {
      match a
      case DoLoop(w) => LoopLeft(st, w);
      case DoCallSend(w, d, id) => CallSendLeft(st, w, d, id);
      case DoHandlerDone(w) => HandlerLeft(st, w);
      case _ => EndLeft(st, a);
    }
  }
}
