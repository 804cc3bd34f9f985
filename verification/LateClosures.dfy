/** A run in which a closure is run too late: two workers, a caller, and a handler that runs the
    closure of the call twice, the second time after the call has returned. */
module LateClosures {
  import opened Options
  import opened Scheduler
  import opened SchedulerInvariant
  import opened SchedulerCalls
  import opened CallClosures

  ghost predicate Leads(st: State, st': State) {
    exists run, acts :: IsPath(run, acts) && run[0] == st && run[|acts|] == st'
  }

  lemma Here(st: State)
    ensures Leads(st, st)
  {
    assert IsPath([st], []);
  }

  lemma OneMore(st: State, mid: State, a: ClosureAction)
    requires Leads(st, mid) && Can(mid, a)
    ensures Leads(st, After(mid, a))
  {
    var run, acts := LastStep(st, mid, a);
  }

  lemma LastStep(st: State, mid: State, a: ClosureAction) returns (run: seq<State>, acts: seq<ClosureAction>)
    requires Leads(st, mid) && Can(mid, a)
    ensures IsPath(run, acts) && run[0] == st && |acts| > 0
    ensures acts[|acts| - 1] == a && run[|acts| - 1] == mid && run[|acts|] == After(mid, a)
  {
    run, acts :| IsPath(run, acts) && run[0] == st && run[|acts|] == mid;
    PathGrows(run, acts, a, After(mid, a));
    run, acts := run + [After(mid, a)], acts + [a];
  }

  lemma PathGrows(run: seq<State>, acts: seq<ClosureAction>, a: ClosureAction, next: State)
    requires IsPath(run, acts) && Can(run[|acts|], a) && next == After(run[|acts|], a)
    ensures IsPath(run + [next], acts + [a])
  {
    var run', acts' := run + [next], acts + [a];
    forall i | 0 <= i < |acts'| ensures Can(run'[i], acts'[i]) && run'[i + 1] == After(run'[i], acts'[i]) {
      if i < |acts| {
        assert run'[i] == run[i] && acts'[i] == acts[i] && run'[i + 1] == run[i + 1];
      }
    }
  }

  // Worker w idles, and s is the one service in the run queue, about to run for the first time
  predicate AboutToRun(st: State, w: nat, s: nat) {
    && CanPick(st, w) && st.workers[w] == Worker(w, w, None, Run) && st.runQueue == [s] && s != w && s in st.ctxs
    && Current(st, w).kind.Idle? && !st.ctxs[s].kind.Idle? && st.ctxs[s].frame.Entry?
  }

  // The state in which worker w is on its way from its idle service i to s
  function OnTheWay(st: State, w: nat, i: Context, s: nat, c: Context, worker: Worker): State
    requires w < |st.workers|
  {
    st.(ctxs := st.ctxs[w := i][s := c], workers := st.workers[w := worker], runQueue := [])
  }

  function Started(st: State, w: nat, s: nat): State
    requires AboutToRun(st, w, s)
  {
    var c := st.ctxs[s];
    OnTheWay(st, w, st.ctxs[w].(isSwapingOut := false, saved := true, place := Parked),
      s, c.(status := Running, waitEvents := {}, wakeupSignal := false, saved := false, place := Executing(w)),
      Worker(w, s, None, if c.kind.UserThread? then Run else Loop))
  }

  lemma Picks(first: State, st: State, w: nat, s: nat)
    requires Leads(first, st) && AboutToRun(st, w, s)
    ensures Leads(first, OnTheWay(st, w, st.ctxs[w].(place := Deciding(w)), s, st.ctxs[s].(place := Claimed(w)),
      Worker(w, w, None, Picked(s))))
  {
    OneMore(first, st, DoStep(DoGetReady(w)));
  }

  lemma Switches(first: State, st: State, w: nat, i: Context, s: nat, c: Context)
    requires w < |st.workers| && s != w
    requires Leads(first, OnTheWay(st, w, i, s, c, Worker(w, w, None, Picked(s))))
    ensures Leads(first, OnTheWay(st, w, i.(isSwapingOut := true, place := Leaving(w)), s, c.(place := Arriving(w)),
      Worker(w, s, Some(w), Switched)))
  {
    var st1 := OnTheWay(st, w, i, s, c, Worker(w, w, None, Picked(s)));
    assert SwitchTo(st1, w).ctxs ==
      st.ctxs[w := i.(isSwapingOut := true, place := Leaving(w))][s := c.(place := Arriving(w))];
    OneMore(first, st1, DoStep(DoSwitch(w)));
  }

  lemma Jumps(first: State, st: State, w: nat, i: Context, s: nat, c: Context)
    requires w < |st.workers| && s != w
    requires Leads(first, OnTheWay(st, w, i, s, c, Worker(w, s, Some(w), Switched)))
    ensures Leads(first, OnTheWay(st, w, i.(saved := true, place := Left(w)),
      s, c.(saved := false, place := Resuming(w)), Worker(w, s, Some(w), ResumePrev)))
  {
    var st1 := OnTheWay(st, w, i, s, c, Worker(w, s, Some(w), Switched));
    assert Jump(st1, w).ctxs ==
      st.ctxs[w := i.(saved := true, place := Left(w))][s := c.(saved := false, place := Resuming(w))];
    OneMore(first, st1, DoStep(DoJump(w)));
  }

  lemma Arrives(first: State, st: State, w: nat, i: Context, s: nat, c: Context)
    requires w < |st.workers| && s != w && i.kind.Idle?
    requires Leads(first, OnTheWay(st, w, i, s, c, Worker(w, s, Some(w), ResumePrev)))
    ensures Leads(first, OnTheWay(st, w, i.(isSwapingOut := false, place := Parked), s, c,
      Worker(w, s, Some(w), ResumeCur)))
  {
    var st1 := OnTheWay(st, w, i, s, c, Worker(w, s, Some(w), ResumePrev));
    assert OnResumePrev(st1, w).ctxs == st.ctxs[w := i.(isSwapingOut := false, place := Parked)][s := c];
    OneMore(first, st1, DoStep(DoResumePrev(w)));
  }

  lemma Enters(first: State, st: State, w: nat, i: Context, s: nat, c: Context)
    requires w < |st.workers| && s != w && !c.kind.Idle? && c.frame.Entry?
    requires Leads(first, OnTheWay(st, w, i, s, c, Worker(w, s, Some(w), ResumeCur)))
    ensures Leads(first, OnTheWay(st, w, i, s,
      c.(status := Running, waitEvents := {}, wakeupSignal := false, place := Executing(w)),
      Worker(w, s, None, if c.kind.UserThread? then Run else Loop)))
  {
    var st1 := OnTheWay(st, w, i, s, c, Worker(w, s, Some(w), ResumeCur));
    assert OnResumeCur(st1, w).ctxs ==
      st.ctxs[w := i][s := c.(status := Running, waitEvents := {}, wakeupSignal := false, place := Executing(w))];
    OneMore(first, st1, DoStep(DoResumeCur(w)));
  }

  // Schedule, from the choice of a successor to the end of OnResume
  lemma Starts(first: State, st: State, w: nat, s: nat)
    requires Leads(first, st) && AboutToRun(st, w, s)
    ensures Leads(first, Started(st, w, s))
  {
    var i, c := st.ctxs[w].(place := Deciding(w)), st.ctxs[s].(place := Claimed(w));
    Picks(first, st, w, s);
    Switches(first, st, w, i, s, c);
    i, c := i.(isSwapingOut := true, place := Leaving(w)), c.(place := Arriving(w));
    Jumps(first, st, w, i, s, c);
    i, c := i.(saved := true, place := Left(w)), c.(saved := false, place := Resuming(w));
    Arrives(first, st, w, i, s, c);
    Enters(first, st, w, i.(isSwapingOut := false, place := Parked), s, c);
  }

  // Worker w enters its idle service for the first time
  lemma Boots(first: State, st: State, w: nat)
    requires Leads(first, st) && w < |st.workers| && st.workers[w] == Worker(w, w, None, ResumePrev)
    requires w in st.ctxs && st.ctxs[w] == BOOTING.(place := Resuming(w))
    ensures Leads(first, Booted(st, w))
  {
    OneMore(first, st, DoStep(DoResumePrev(w)));
    var st1 := SetPc(st, w, ResumeCur);
    assert OnResumePrev(st, w) == st1;
    OneMore(first, st1, DoStep(DoResumeCur(w)));
    assert OnResumeCur(st1, w).workers == Booted(st, w).workers;
  }

  function Booted(st: State, w: nat): State
    requires w < |st.workers|
  {
    st.(ctxs := st.ctxs[w := IDLING.(place := Executing(w))], workers := st.workers[w := Worker(w, w, None, Run)])
  }

  lemma LaunchesCaller(first: State, st: State, s: nat)
    requires Leads(first, st) && s !in st.ctxs
    ensures Leads(first, st.(ctxs := st.ctxs[s := FRESH_CALLER], runQueue := st.runQueue + [s]))
  {
    OneMore(first, st, DoStep(DoLaunch(s, UserThread)));
    assert {} + {ServiceStart} == {ServiceStart};
    assert LaunchService(st, s, UserThread).ctxs == st.ctxs[s := FRESH_CALLER];
  }

  lemma LaunchesServer(first: State, st: State, s: nat)
    requires Leads(first, st) && s !in st.ctxs
    ensures Leads(first, st.(ctxs := st.ctxs[s := FRESH_SERVER]))
  {
    OneMore(first, st, DoStep(DoLaunch(s, MessageDriven)));
  }

  lemma Calls(first: State, st: State, w: nat, d: nat, id: nat)
    requires Leads(first, st) && CanCall(st, w, d, id) && st.ctxs[d] == FRESH_SERVER && st.workers[w].current != d
    ensures Leads(first, Sent(st, w, d, id))
  {
    OneMore(first, st, DoStep(DoCallSend(w, d, id)));
    WakesServer(st, d, Call(id, st.workers[w].current));
  }

  lemma WakesServer(st: State, d: nat, m: Msg)
    requires d in st.ctxs && st.ctxs[d] == FRESH_SERVER
    ensures SendMessage(st, d, m) ==
      st.(ctxs := st.ctxs[d := CALLED_SERVER.(msgQueue := [m], accepted := [m])], runQueue := st.runQueue + [d])
  {
    var queued := FRESH_SERVER.(msgQueue := [m], accepted := [m]);
    var st1 := SetCtx(st, d, queued);
    assert {} + {Message} == {Message} && [] + [m] == [m];
    assert WakeupLocked(st1, d, Message).ctxs ==
      st.ctxs[d := CALLED_SERVER.(msgQueue := [m], accepted := [m])];
  }

  function Sent(st: State, w: nat, d: nat, id: nat): State
    requires HasCurrent(st, w)
  {
    var s := st.workers[w].current;
    SetCurrent(st, w, Current(st, w).(calling := Some(id)), CallWait)
      .(ctxs := st.ctxs[d := CALLED_SERVER.(msgQueue := [Call(id, s)], accepted := [Call(id, s)])]
                       [s := Current(st, w).(calling := Some(id))],
        runQueue := st.runQueue + [d], calls := st.calls[id := CallInfo(d, s)])
  }

  lemma Takes(first: State, st: State, w: nat)
    requires Leads(first, st) && AtPc(st, w, Loop) && |Current(st, w).msgQueue| == 1
    ensures var c := Current(st, w);
      Leads(first, SetCurrent(st, w, c.(msgQueue := [], inHand := Some(c.msgQueue[0])), Run))
  {
    OneMore(first, st, DoStep(DoLoop(w)));
    assert Current(st, w).msgQueue[1..] == [];
  }

  // The wait of a caller whose response is there already
  lemma Returns(first: State, st: State, w: nat)
    requires Leads(first, st) && AtPc(st, w, CallWait) && Response in Current(st, w).events
    requires Current(st, w).calling.Some? && Current(st, w).kind.UserThread?
    ensures Leads(first, Returned(st, w))
  {
    OneMore(first, st, DoStep(DoCallWait(w)));
    assert WaitLocked(st, w, {Response}) == Returned(st, w);
  }

  function Returned(st: State, w: nat): State
    requires HasCurrent(st, w) && Current(st, w).calling.Some?
  {
    var c := Current(st, w);
    SetCurrent(st, w, c.(waitEvents := {}, events := c.events - {Response}, calling := None), Run)
      .(returned := st.returned + {c.calling.value})
  }

  const BOOTING := NewContext(Idle, Ready, {}).(saved := false)
  const IDLING := BOOTING.(status := Running)
  const FRESH_CALLER :=
    NewContext(UserThread, Ready, {ServiceStart}).(events := {ServiceStart}, wakeupSignal := true, place := Queued)
  const FRESH_SERVER := NewContext(MessageDriven, Blocked, LOOP_MASK)

  const CALLED_SERVER := FRESH_SERVER.(status := Ready, events := {Message}, wakeupSignal := true, place := Queued)

  // ---------------------------------------------------------------- the run

  const CALLER: nat := 2
  const SERVER: nat := 3
  const ID: nat := 7

  const BOOT :=
    State(map[0 := BOOTING.(place := Resuming(0)), 1 := BOOTING.(place := Resuming(1))],
      [Worker(0, 0, None, ResumePrev), Worker(1, 1, None, ResumePrev)], [], map[], {}, {})
  const BOOTED := Booted(Booted(BOOT, 0), 1)
  const LAUNCHED := BOOTED.(ctxs := BOOTED.ctxs[CALLER := FRESH_CALLER], runQueue := [CALLER])
  const CALLING := Started(LAUNCHED, 0, CALLER)
  const SERVED := CALLING.(ctxs := CALLING.ctxs[SERVER := FRESH_SERVER])

  lemma BothBoot()
    ensures Init(BOOT) && Leads(BOOT, BOOTED)
  {
    Here(BOOT);
    Boots(BOOT, BOOT, 0);
    Boots(BOOT, Booted(BOOT, 0), 1);
  }

  lemma CallerRuns()
    ensures Leads(BOOT, SERVED)
  {
    BothBoot();
    LaunchesCaller(BOOT, BOOTED, CALLER);
    assert BOOTED.runQueue + [CALLER] == [CALLER];
    Starts(BOOT, LAUNCHED, 0, CALLER);
    LaunchesServer(BOOT, CALLING, SERVER);
  }

  const SENT := Sent(SERVED, 0, SERVER, ID)
  const LOOPING := Started(SENT, 1, SERVER)
  const HANDLING :=
    SetCurrent(LOOPING, 1, Current(LOOPING, 1).(msgQueue := [], inHand := Some(Call(ID, CALLER))), Run)
  const ANSWERED := RunClosure(HANDLING, ID)
  const RETURNED := Returned(ANSWERED, 0)

  lemma CallIsSent()
    ensures Leads(BOOT, SENT)
  {
    CallerRuns();
    Calls(BOOT, SERVED, 0, SERVER, ID);
  }

  lemma ServerRuns()
    ensures Leads(BOOT, HANDLING)
  {
    CallIsSent();
    Starts(BOOT, SENT, 1, SERVER);
    Takes(BOOT, LOOPING, 1);
  }

  lemma HandlerHasClosure()
    ensures ID in HANDLING.calls && HANDLING.calls[ID] == CallInfo(SERVER, CALLER) && CALLER in HANDLING.ctxs
    ensures Taken(HANDLING, ID)
  {
    assert CallAt(HANDLING, SERVER, 0, ID);
  }

  lemma ClosureRuns()
    ensures Leads(BOOT, ANSWERED) && ID in ANSWERED.completed
  {
    ServerRuns();
    HandlerHasClosure();
    OneMore(BOOT, HANDLING, DoRunClosure(ID));
  }

  lemma CallReturns()
    ensures Leads(BOOT, RETURNED) && ID in RETURNED.completed
  {
    ClosureRuns();
    Returns(BOOT, ANSWERED, 0);
  }

  lemma StillTaken()
    ensures ID in RETURNED.calls && RETURNED.calls[ID] == CallInfo(SERVER, CALLER) && CALLER in RETURNED.ctxs
    ensures Taken(RETURNED, ID)
  {
    assert CallAt(RETURNED, SERVER, 0, ID);
  }

  // A closure that is run when its caller is in no call and has no response pending
  lemma LateIsUnmatched(st: State, id: nat)
    requires id in st.calls && st.calls[id].caller in st.ctxs
    requires st.ctxs[st.calls[id].caller].calling.None? && Response !in st.ctxs[st.calls[id].caller].events
    ensures !Timely(st, id) && !Matched(RunClosure(st, id))
  {
    WakeupEffect(st, st.calls[id].caller, Response);
  }

  lemma SecondIsLate()
    ensures Can(RETURNED, DoRunClosure(ID)) && !InTime(RETURNED, DoRunClosure(ID))
    ensures !Matched(After(RETURNED, DoRunClosure(ID))) && ID in RETURNED.completed && ID in RETURNED.returned
  {
    StillTaken();
    LateIsUnmatched(RETURNED, ID);
  }

  /** It happens: a closure that was run before is run again after its call has returned, and the
      caller is left with a response to no call. */
  lemma LateClosureRun() returns (run: seq<State>, acts: seq<ClosureAction>)
    ensures IsClosureRun(run, acts) && |acts| > 0
    ensures acts[|acts| - 1] == DoRunClosure(ID) && ID in run[|acts| - 1].completed && ID in run[|acts| - 1].returned
    ensures !InTime(run[|acts| - 1], acts[|acts| - 1]) && !Matched(run[|acts|])
  {
    BothBoot();
    CallReturns();
    SecondIsLate();
    run, acts := LastStep(BOOT, RETURNED, DoRunClosure(ID));
  }
}
