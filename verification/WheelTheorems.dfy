/** Guarantees of the timing wheel over whole runs. */
module WheelTheorems {
  import opened Options
  import Runs
  import opened TimerWheel
  import opened WheelPlacement
  import opened WheelInvariant

  // ---------------------------------------------------------------- one step

  /** The plain set of deadlines that the wheel implements. */
  ghost function Pending(w: Wheel): map<nat, nat> {
    map t | t in w.timers && t in w.births && IsPending(w, t) :: w.births[t].deadline
  }

  ghost function DueAt(w: Wheel, tick: nat): set<nat> {
    set t | t in w.timers && t in w.births && IsPending(w, t) && DueTick(w.births[t]) == tick
  }

  /** What a step may do to the set of deadlines. */
  ghost predicate SpecStep(w: Wheel, w': Wheel, a: Action) {
    match a
    case DoAddTimer(t, ms) => Pending(w') == if Ticks(ms) == 0 then Pending(w) else Pending(w)[t := w.cur + Ticks(ms)]
    case DoDeleteTimer(t) => Pending(w') == Pending(w) - {t}
    case DoSplice =>
      w.cur > 0 && Pending(w') == Pending(w) - DueAt(w, w.cur - 1) && TimersOf(w'.batch) == DueAt(w, w.cur - 1)
    case _ => Pending(w') == Pending(w)
  }

  lemma PendingRemoved(w: Wheel, w': Wheel, gone: set<nat>)
    requires forall t :: IsPending(w', t) <==> IsPending(w, t) && t !in gone
    requires w'.births == w.births
    ensures Pending(w') == Pending(w) - gone
  {
  }

  lemma SamePending(w: Wheel, w': Wheel)
    requires forall t :: IsPending(w', t) <==> IsPending(w, t)
    requires w'.births == w.births
    ensures Pending(w') == Pending(w)
  {
  }

  lemma AddRefines(w: Wheel, t: nat, ms: nat)
    requires |w.slots| == NUM_SLOTS && t !in w.births && Ticks(ms) > 0
    ensures Pending(AddTimer(w, t, ms)) == Pending(w)[t := w.cur + Ticks(ms)]
  {
    AddTimerIsPushBack(w, t, ms);
    var w' := AddTimer(w, t, ms);
    assert w'.births == w.births[t := NewBirth(w, ms)];
    assert forall u :: u != t ==> IsPending(w', u) == IsPending(w, u);
    assert IsPending(w', t);
  }

  lemma DeleteRefines(w: Wheel, t: nat)
    requires Enabled(w, DoDeleteTimer(t))
    ensures Pending(DeleteTimer(w, t)) == Pending(w) - {t}
  {
    assert forall u :: IsPending(DeleteTimer(w, t), u) <==> IsPending(w, u) && u != t;
    PendingRemoved(w, DeleteTimer(w, t), {t});
  }

  lemma DueAtIs(w: Wheel, tick: nat, due: set<nat>)
    requires w.timers.Keys <= w.births.Keys
    requires forall t :: t in due <==> IsPending(w, t) && DueTick(w.births[t]) == tick
    ensures due == DueAt(w, tick)
  {
  }

  lemma SpliceRefines(w: Wheel)
    requires Inv(w) && w.phase.Splicing?
    ensures Pending(Splice(w)) == Pending(w) - DueAt(w, w.cur - 1)
    ensures TimersOf(Splice(w).batch) == DueAt(w, w.cur - 1)
  {
    SpliceKeepsInv(w);
    DueAtIs(w, w.cur - 1, TimersOf(Splice(w).batch));
    PendingRemoved(w, Splice(w), DueAt(w, w.cur - 1));
  }

  /** Every step of the wheel, cascades included, is the step of a plain set of deadlines. */
  lemma StepRefines(w: Wheel, a: Action)
    requires Inv(w) && Enabled(w, a)
    ensures SpecStep(w, Next(w, a), a)
  {
    match a
    case DoAddTimer(t, ms) => if Ticks(ms) > 0 { AddRefines(w, t, ms); }
    case DoDeleteTimer(t) => DeleteRefines(w, t);
    case DoBeginTick =>
      assert forall t :: IsPending(BeginTick(w), t) == IsPending(w, t);
      SamePending(w, BeginTick(w));
    case DoTickSection2 =>
      TickSection2KeepsInv(w, TickSlot(w));
      TickSection2Effect(w, TickSlot(w));
      SamePending(w, TickSection2(w));
    case DoSplice => SpliceRefines(w);
    case DoEndBatch =>
      assert EndBatch(w).timers == w.timers - TimersOf(w.batch);
      assert forall t :: IsPending(EndBatch(w), t) == IsPending(w, t);
      SamePending(w, EndBatch(w));
  }

  // ---------------------------------------------------------------- whole runs

  /** Histories only grow. */
  ghost predicate Grew(w: Wheel, w': Wheel) {
    && w.births.Keys <= w'.births.Keys && w.deleted <= w'.deleted && w.fired.Keys <= w'.fired.Keys
    && (forall t :: t in w.births ==> t in w'.births && w'.births[t] == w.births[t])
    && (forall t :: t in w.fired ==> t in w'.fired && w'.fired[t] == w.fired[t])
  }

  lemma SlotTimersDistinct(w: Wheel, s: nat)
    requires NodesOk(w) && s < NUM_SLOTS
    ensures forall j, k :: 0 <= j < k < |w.slots[s]| ==> w.slots[s][j].timer != w.slots[s][k].timer
  {
    forall j, k | 0 <= j < k < |w.slots[s]| ensures w.slots[s][j].timer != w.slots[s][k].timer {
      assert w.slots[s][j] in w.slots[s] && w.slots[s][k] in w.slots[s];
    }
  }

  lemma PendingNotFired(w: Wheel, nodes: seq<Node>)
    requires FatesOk(w) && w.timers.Keys <= w.births.Keys && forall t :: t in TimersOf(nodes) ==> IsPending(w, t)
    ensures forall t :: t in TimersOf(nodes) ==> t !in w.fired
  {
    forall t | t in TimersOf(nodes) ensures t !in w.fired { assert IsPending(w, t) && FateOk(w, t); }
  }

  /** A splice detaches no timer twice, and none that has fired before. */
  lemma SpliceFiresOnce(w: Wheel)
    requires Inv(w) && w.phase.Splicing?
    ensures forall t :: t in TimersOf(Splice(w).batch) ==> t !in w.fired
    ensures forall j, k :: 0 <= j < k < |Splice(w).batch| ==> Splice(w).batch[j].timer != Splice(w).batch[k].timer
  {
    SpliceKeepsInv(w);
    PendingNotFired(w, Splice(w).batch);
    SlotTimersDistinct(w, Tick(w) % SECTION1_NUM);
  }

  lemma SpliceMonotone(w: Wheel)
    requires Inv(w) && w.phase.Splicing?
    ensures Grew(w, Splice(w))
  {
    SpliceFiresOnce(w);
    FireEffect(w.fired, w.slots[Tick(w) % SECTION1_NUM], w.cur - 1);
  }

  lemma StepMonotone(w: Wheel, a: Action)
    requires Inv(w) && Enabled(w, a)
    ensures Grew(w, Next(w, a))
  {
    match a
    case DoTickSection2 => TickSection2Effect(w, TickSlot(w));
    case DoSplice => SpliceMonotone(w);
    case _ =>
  }

  lemma StepGrows(w: Wheel, w': Wheel)
    requires Inv(w) && Step(w, w')
    ensures Grew(w, w')
  {
    var a :| Enabled(w, a) && w' == Next(w, a);
    StepMonotone(w, a);
  }

  lemma GrowOn(u: Wheel, v: Wheel, w: Wheel)
    requires Grew(u, v) && Grew(v, w)
    ensures Grew(u, w)
  {
    forall t | t in u.births ensures t in w.births && w.births[t] == u.births[t] { assert t in v.births; }
    forall t | t in u.fired ensures t in w.fired && w.fired[t] == u.fired[t] { assert t in v.fired; }
  }

  lemma RunMonotone(run: seq<Wheel>, i: nat, j: nat)
    requires IsRun(run) && i <= j < |run|
    ensures Grew(run[i], run[j])
  {
    var first := run[i];
    RunInv(run, i);
    forall w, w' | Inv(w) && Grew(first, w) && Step(w, w') ensures Inv(w') && Grew(first, w') {
      StepKeepsInv(w, w');
      StepGrows(w, w');
      GrowOn(first, w, w');
    }
    Runs.Invariant(run, i, j, w => Inv(w) && Grew(first, w), (w, w') => Step(w, w'));
  }

  /** In every run no timer fires twice: a splice takes each timer once, and only timers that have
      not fired before; what has fired stays on record (RunMonotone). */
  lemma FiresOnce(run: seq<Wheel>, i: nat)
    requires IsRun(run) && i < |run| && Enabled(run[i], DoSplice)
    ensures forall t :: t in TimersOf(Splice(run[i]).batch) ==> t !in run[i].fired
    ensures forall j, k :: 0 <= j < k < |Splice(run[i]).batch| ==>
      Splice(run[i]).batch[j].timer != Splice(run[i]).batch[k].timer
  {
    RunInv(run, i);
    SpliceFiresOnce(run[i]);
  }

  /** In every run a timer fires only at its due tick; once that tick has been spliced it has fired,
      unless it was deleted first. */
  lemma FiresExactlyWhenDue(run: seq<Wheel>, i: nat, t: nat)
    requires IsRun(run) && i < |run| && t in run[i].births
    ensures FiredWhenDue(run[i], t)
  {
    RunInv(run, i);
    InvFires(run[i], t);
  }

  predicate FiredWhenDue(w: Wheel, t: nat)
    requires t in w.births
  {
    && (t in w.fired ==> w.fired[t] == DueTick(w.births[t]) && t !in w.deleted && !IsPending(w, t))
    && (t !in w.fired && t !in w.deleted ==> IsPending(w, t) && DueTick(w.births[t]) >= SpliceFrom(w.cur, w.phase))
  }

  lemma InvFires(w: Wheel, t: nat)
    requires Inv(w) && t in w.births
    ensures FiredWhenDue(w, t)
  {
    assert FateOk(w, t);
    if IsPending(w, t) {
      assert TimerOk(w, t);
      PlacedDue(w.cur, w.phase, w.births[t], w.timers[t].slot.value);
    }
  }

  lemma PlacedDue(cur: nat, phase: Phase, b: Birth, s: nat)
    requires Placed(cur, phase, b, s)
    requires phase.Cascading? ==> cur > 0
    ensures DueTick(b) >= SpliceFrom(cur, phase)
  {
    PlacedNotPast(cur, phase, b, s);
  }

  /** The due tick is the deadline, but for the one family of timers that fire early: those added
      between the clock's advance and the splice with a timeout of exactly 255 ticks. */
  lemma DueTickIsDeadline(run: seq<Wheel>, i: nat, t: nat)
    requires IsRun(run) && i < |run| && t in run[i].births
    ensures var b := run[i].births[t];
      (DueTick(b) == b.deadline <==> !(b.inWindow && b.deadline - b.added == 255))
  {
    RunWindow(run, i);
  }

  lemma AddedIsPending(w: Wheel, t: nat, ms: nat)
    requires |w.slots| == NUM_SLOTS && Ticks(ms) > 0
    ensures var w' := AddTimer(w, t, ms);
      w'.births == w.births[t := NewBirth(w, ms)] && IsPending(w', t) && w'.phase == w.phase && w'.cur == w.cur
  {
    AddTimerIsPushBack(w, t, ms);
  }

  lemma SpliceFires(w: Wheel, t: nat)
    requires Inv(w) && w.phase.Splicing? && IsPending(w, t) && t in w.births && DueTick(w.births[t]) == w.cur - 1
    ensures t in Splice(w).fired && Splice(w).fired[t] == w.cur - 1 && Splice(w).births == w.births
  {
    SpliceKeepsInv(w);
    assert FateOk(w, t);
    DetachedHasFired(w, Splice(w), t);
  }

  lemma DetachedHasFired(w: Wheel, w': Wheel, t: nat)
    requires FatesOk(w') && t in w'.births && !IsPending(w', t) && t !in w'.deleted && w'.births == w.births
    ensures t in w'.fired && w'.fired[t] == DueTick(w.births[t])
  {
    assert FateOk(w', t);
  }

  /** Such a timer fires in the very tick in which it is added, 256 ticks before its deadline, in
      whichever phase of the window that was and whatever happens in between, unless it is deleted. */
  lemma EarlyTimerFiresAtOnce(run: seq<Wheel>, i: nat, j: nat, t: nat, ms: nat)
    requires IsRun(run) && i < j < |run| && InWindow(run[i]) && 2545 <= ms < 2555
    requires Enabled(run[i], DoAddTimer(t, ms)) && run[i + 1] == AddTimer(run[i], t, ms)
    ensures t in run[j].births && run[j].births[t].deadline == run[i].cur + 255
    ensures t in run[j].fired ==> run[j].fired[t] == run[i].cur - 1
    ensures SpliceFrom(run[j].cur, run[j].phase) >= run[i].cur ==> t in run[j].fired || t in run[j].deleted
  {
    assert Ticks(ms) == 255;
    BirthStays(run, i, j, t, ms);
    RunWindow(run, j);
    FiresExactlyWhenDue(run, j, t);
    EarlyFate(run[j], t, run[i].cur);
  }

  lemma EarlyFate(w: Wheel, t: nat, cur: nat)
    requires t in w.births && w.births[t] == Birth(cur, cur + 255, true) && WindowOk(w) && FiredWhenDue(w, t)
    ensures t in w.fired ==> w.fired[t] == cur - 1
    ensures SpliceFrom(w.cur, w.phase) >= cur ==> t in w.fired || t in w.deleted
  {
  }

  lemma BirthStays(run: seq<Wheel>, i: nat, j: nat, t: nat, ms: nat)
    requires IsRun(run) && i < j < |run| && Ticks(ms) > 0
    requires Enabled(run[i], DoAddTimer(t, ms)) && run[i + 1] == AddTimer(run[i], t, ms)
    ensures t in run[j].births && run[j].births[t] == NewBirth(run[i], ms)
  {
    AddedIsPending(run[i], t, ms);
    RunMonotone(run, i + 1, j);
  }

  /** It happens: a run that adds a timer of 2550 ms between the clock's advance and the splice. */
  lemma EarlyTimerRun() returns (run: seq<Wheel>)
    ensures IsRun(run) && |run| == 4 && 0 in run[3].births && 0 in run[3].fired
    ensures run[3].births[0].deadline == 257 && run[3].fired[0] == 1
  {
    var w0 := Wheel(1, Idle, seq(NUM_SLOTS, _ => []), map[], 0, [], map[], map[], {});
    var w1 := BeginTick(w0);
    assert Enabled(w0, DoBeginTick) && w1 == Next(w0, DoBeginTick);
    var w2, w3 := AddAndSplice(w1, 0, 2550);
    run := [w0, w1, w2, w3];
    EarlyTimerFiresAtOnce(run, 1, 3, 0, 2550);
  }

  lemma AddAndSplice(w: Wheel, t: nat, ms: nat) returns (added: Wheel, spliced: Wheel)
    requires |w.slots| == NUM_SLOTS && w.phase.Splicing? && w.cur > 0 && t !in w.births && 5 <= ms < WORD - 5
    ensures Enabled(w, DoAddTimer(t, ms)) && added == AddTimer(w, t, ms) && Step(w, added) && Step(added, spliced)
    ensures spliced.cur == w.cur && spliced.phase.Firing? && spliced.deleted == w.deleted
  {
    added := AddTimer(w, t, ms);
    assert added == Next(w, DoAddTimer(t, ms));
    AddTimerIsPushBack(w, t, ms);
    spliced := Splice(added);
    assert Enabled(added, DoSplice) && spliced == Next(added, DoSplice);
  }

  // A timer added in the window was added after the clock's first tick
  ghost predicate WindowOk(w: Wheel) {
    forall t :: t in w.births && w.births[t].inWindow ==> w.births[t].added > 0
  }

  lemma StepKeepsWindow(w: Wheel, w': Wheel)
    requires Inv(w) && Step(w, w') && WindowOk(w)
    ensures WindowOk(w')
  {
    var a :| Enabled(w, a) && w' == Next(w, a);
    if a.DoTickSection2? { TickSection2Effect(w, TickSlot(w)); }
  }

  lemma RunWindow(run: seq<Wheel>, i: nat)
    requires IsRun(run) && i < |run|
    ensures WindowOk(run[i])
  {
    RunInv(run, 0);
    forall w, w' | Inv(w) && WindowOk(w) && Step(w, w') ensures Inv(w') && WindowOk(w') {
      StepKeepsInv(w, w');
      StepKeepsWindow(w, w');
    }
    Runs.Invariant(run, 0, i, w => Inv(w) && WindowOk(w), (w, w') => Step(w, w'));
  }

  /** A deleted timer never fires, then or later. */
  lemma DeletedNeverFires(run: seq<Wheel>, i: nat, j: nat, t: nat)
    requires IsRun(run) && i <= j < |run| && t in run[i].deleted
    ensures t !in run[j].fired
  {
    RunInv(run, i);
    RunInv(run, j);
    RunMonotone(run, i, j);
    assert FateOk(run[j], t);
  }

  /** In every run a pending timer is on exactly one list, exactly once, where its back-pointers say. */
  lemma PendingOccursOnce(run: seq<Wheel>, i: nat, t: nat)
    requires IsRun(run) && i < |run| && IsPending(run[i], t)
    ensures
      var w, timer := run[i], run[i].timers[t];
      && |w.slots| == NUM_SLOTS && timer.slot.value < NUM_SLOTS && Node(timer.pos, t) in w.slots[timer.slot.value]
      && (forall s, j :: 0 <= s < NUM_SLOTS && 0 <= j < |w.slots[s]| && w.slots[s][j].timer == t ==>
           timer.slot == Some(s) && w.slots[s][j].id == timer.pos)
      && (forall s, j, k :: 0 <= s < NUM_SLOTS && 0 <= j < k < |w.slots[s]| && w.slots[s][j].timer == t ==>
           w.slots[s][k].timer != t)
  {
    RunInv(run, i);
    var w := run[i];
    forall s, j | 0 <= s < NUM_SLOTS && 0 <= j < |w.slots[s]| && w.slots[s][j].timer == t
      ensures w.timers[t].slot == Some(s) && w.slots[s][j].id == w.timers[t].pos
    {
      assert w.slots[s][j] in w.slots[s];
    }
  }

  /** The timer thread always has its next step, a pending timer can be deleted, and one can be added,
      in any phase of a tick. */
  lemma AlwaysReady(run: seq<Wheel>, i: nat, t: nat, ms: nat)
    requires IsRun(run) && i < |run| && ms < WORD
    ensures match run[i].phase
      case Idle => Enabled(run[i], DoBeginTick)
      case Cascading(_) => Enabled(run[i], DoTickSection2)
      case Splicing => Enabled(run[i], DoSplice)
      case Firing => Enabled(run[i], DoEndBatch)
    ensures IsPending(run[i], t) ==> Enabled(run[i], DoDeleteTimer(t))
    ensures t !in run[i].births ==> Enabled(run[i], DoAddTimer(t, ms))
  {
    RunInv(run, i);
    if run[i].phase.Cascading? { TickIndex(run[i]); }
    if IsPending(run[i], t) { assert TimerOk(run[i], t); }
  }

  // ---------------------------------------------------------------- order within a tick

  /** Each list is in the order in which its nodes were made, and no node is as new as the next. */
  ghost predicate InOrder(w: Wheel) {
    && |w.slots| == NUM_SLOTS
    && forall s :: 0 <= s < NUM_SLOTS ==> Ordered(w.slots[s], w.nextNode)
  }

  ghost predicate Ordered(nodes: seq<Node>, next: nat) {
    && (forall n :: n in nodes ==> n.id < next)
    && (forall i, j :: 0 <= i < j < |nodes| ==> nodes[i].id < nodes[j].id)
  }

  lemma DoAddKeepsOrder(w: Wheel, curtime: nat, t: nat)
    requires InOrder(w) && t in w.timers
    ensures InOrder(DoAdd(w, curtime, t))
  {
  }

  lemma {:induction false} AddAllKeepsOrder(w: Wheel, curtime: nat, nodes: seq<Node>)
    requires InOrder(w) && forall n :: n in nodes ==> n.timer in w.timers
    ensures InOrder(AddAll(w, curtime, nodes))
    decreases nodes
  {
    if nodes != [] {
      DoAddKeepsOrder(w, curtime, nodes[0].timer);
      AddAllKeepsOrder(DoAdd(w, curtime, nodes[0].timer), curtime, nodes[1..]);
    }
  }

  lemma {:induction false} EraseKeepsOrder(nodes: seq<Node>, id: nat, next: nat)
    requires Ordered(nodes, next)
    ensures Ordered(Erase(nodes, id), next) && forall n :: n in Erase(nodes, id) ==> n in nodes
    decreases nodes
  {
    if nodes != [] && nodes[0].id != id {
      EraseKeepsOrder(nodes[1..], id, next);
      forall n | n in Erase(nodes[1..], id) ensures nodes[0].id < n.id { assert n in nodes[1..]; }
    }
  }

  lemma NextKeepsOrder(w: Wheel, a: Action)
    requires InOrder(w) && Enabled(w, a)
    ensures InOrder(Next(w, a))
  {
    match a
    case DoAddTimer(t, ms) => if Ticks(ms) > 0 { AddTimerIsPushBack(w, t, ms); }
    case DoDeleteTimer(t) =>
      if w.timers[t].slot.Some? { EraseKeepsOrder(w.slots[w.timers[t].slot.value], w.timers[t].pos, w.nextNode); }
    case DoTickSection2 =>
      AddAllKeepsOrder(w.(slots := w.slots[TickSlot(w) := []]), Tick(w), w.slots[TickSlot(w)]);
    case _ =>
  }

  lemma StepKeepsOrder(w: Wheel, w': Wheel)
    requires InOrder(w) && Step(w, w')
    ensures InOrder(w')
  {
    var a :| Enabled(w, a) && w' == Next(w, a);
    NextKeepsOrder(w, a);
  }

  /** In every run the callbacks of a tick are called in the order in which their timers came to the
      slot: an add gives its timer a newer node than any there is. */
  lemma FiresInOrder(run: seq<Wheel>, i: nat)
    requires IsRun(run) && i < |run|
    ensures InOrder(run[i])
    ensures Enabled(run[i], DoSplice) ==> Ordered(Splice(run[i]).batch, run[i].nextNode)
  {
    forall w, w' | InOrder(w) && Step(w, w') ensures InOrder(w') { StepKeepsOrder(w, w'); }
    Runs.Invariant(run, 0, i, w => InOrder(w), (w, w') => Step(w, w'));
  }

  /** A timeout runs inline exactly when it rounds to nothing in 32 bits. */
  lemma InlineExactly(ms: nat)
    requires ms < WORD
    ensures Ticks(ms) == 0 <==> ms < 5 || ms >= WORD - 5
    ensures 5 <= ms < WORD - 5 ==> -5 < PERIOD * Ticks(ms) - ms <= 5
  {
  }
}
