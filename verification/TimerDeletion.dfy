/** DeleteTimer in its three steps, with any number of deletions in flight: locking the weak handle,
    erasing the node under the mutex, and, after the mutex, releasing the timer.  A deletion in flight
    keeps its timer alive, and the erase leaves the timer's back-pointers as they were. */
module TimerDeletion {
  import opened Options
  import Runs
  import opened TimerWheel
  import opened WheelPlacement
  import opened WheelInvariant
  import opened WheelTheorems

  /** `locks` maps each deletion in flight to its timer; those in `erased` are past the mutex.
      `ended` and `erasedBy` are history: the deletions that are over, and the one that erased a
      timer's node. */
  datatype State = State(
    wheel: Wheel,
    locks: map<nat, nat>,
    erased: set<nat>,
    ended: set<nat>,
    erasedBy: map<nat, nat>)

  datatype Action =
    | DoLock(d: nat, t: nat)
    | DoErase(d: nat)
    | DoRelease(d: nat)
    | DoWheel(a: TimerWheel.Action)

  // A timer lives in its list, in the firing batch, or by a deletion in flight
  predicate Alive(s: State, t: nat) {
    t in s.wheel.timers || t in s.locks.Values
  }

  // Deletion d has locked its handle and not yet entered the mutex
  predicate Waits(s: State, d: nat) {
    d in s.locks && d !in s.erased
  }

  /** The iterator that deletion d is about to erase by designates nothing any more: the node is
      gone, and `slot`, which the erase did not clear, is not null. */
  predicate Dangles(s: State, d: nat)
    requires d in s.locks
  {
    s.locks[d] !in s.wheel.timers && s.locks[d] in s.wheel.deleted
  }

  predicate SlotIsNode(w: Wheel, t: nat)
    requires t in w.timers
  {
    && |w.slots| == NUM_SLOTS
    && (w.timers[t].slot.Some? ==>
         && w.timers[t].slot.value < NUM_SLOTS
         && Node(w.timers[t].pos, t) in w.slots[w.timers[t].slot.value])
  }

  function Lock(s: State, d: nat, t: nat): State {
    s.(locks := s.locks[d := t])
  }

  // The erase, when its iterator designates a node or `slot` is null
  function EraseStep(s: State, d: nat): State
    requires d in s.locks && (s.locks[d] in s.wheel.timers ==> Enabled(s.wheel, DoDeleteTimer(s.locks[d])))
  {
    var t := s.locks[d];
    var done := s.(erased := s.erased + {d});
    if t !in s.wheel.timers then done
    else
      done.(wheel := DeleteTimer(s.wheel, t),
            erasedBy := if s.wheel.timers[t].slot.Some? then s.erasedBy[t := d] else s.erasedBy)
  }

  /** The end of DeleteTimer: the lock on the timer goes out of scope. */
  function Release(s: State, d: nat): State {
    s.(locks := s.locks - {d}, erased := s.erased - {d}, ended := s.ended + {d})
  }

  /** Wheel steps other than deletions interleave freely; an erase through a dangling iterator ends
      the run. */
  predicate Can(s: State, a: Action) {
    match a
    case DoLock(d, t) => d !in s.locks && d !in s.ended && Alive(s, t)
    case DoErase(d) =>
      && Waits(s, d) && !Dangles(s, d)
      && (s.locks[d] in s.wheel.timers ==> Enabled(s.wheel, DoDeleteTimer(s.locks[d])))
    case DoRelease(d) => d in s.erased
    case DoWheel(b) => !b.DoDeleteTimer? && Enabled(s.wheel, b)
  }

  function After(s: State, a: Action): State
    requires Can(s, a)
  {
    match a
    case DoLock(d, t) => Lock(s, d, t)
    case DoErase(d) => EraseStep(s, d)
    case DoRelease(d) => Release(s, d)
    case DoWheel(b) => s.(wheel := Next(s.wheel, b))
  }

  ghost predicate Moves(s: State, s': State) {
    exists a :: Can(s, a) && s' == After(s, a)
  }

  ghost predicate DeletionInit(s: State) {
    Init(s.wheel) && s.locks == map[] && s.erased == {} && s.ended == {} && s.erasedBy == map[]
  }

  ghost predicate IsDeletionRun(run: seq<State>) {
    && run != [] && DeletionInit(run[0])
    && forall i :: 0 < i < |run| ==> Moves(run[i - 1], run[i])
  }

  // The deletion that erased t is past the mutex and still keeps t alive
  predicate EraserStays(s: State, t: nat)
    requires t in s.erasedBy
  {
    var d := s.erasedBy[t];
    d in s.erased && d in s.locks && s.locks[d] == t
  }

  ghost predicate DeletionInv(s: State) {
    && Inv(s.wheel)
    && s.wheel.timers.Keys !! s.wheel.deleted
    && s.erasedBy.Keys == s.wheel.deleted
    && s.erased <= s.locks.Keys && s.locks.Keys !! s.ended
    && (forall t :: t in s.erasedBy ==> s.erasedBy[t] in s.ended || EraserStays(s, t))
  }

  lemma WheelStepEffect(w: Wheel, b: TimerWheel.Action)
    requires Inv(w) && Enabled(w, b) && !b.DoDeleteTimer?
    ensures Next(w, b).deleted == w.deleted
    ensures w.timers.Keys !! w.deleted ==> Next(w, b).timers.Keys !! w.deleted
  {
    match b
    case DoTickSection2 => TickSection2Effect(w, TickSlot(w));
    case _ =>
  }

  lemma WheelStepKeeps(s: State, b: TimerWheel.Action)
    requires DeletionInv(s) && Can(s, DoWheel(b))
    ensures DeletionInv(s.(wheel := Next(s.wheel, b)))
  {
    NextKeepsInv(s.wheel, b);
    WheelStepEffect(s.wheel, b);
  }

  lemma EraseKeeps(s: State, d: nat)
    requires DeletionInv(s) && Can(s, DoErase(d))
    ensures DeletionInv(EraseStep(s, d))
  {
    if s.locks[d] in s.wheel.timers { DeleteTimerKeepsInv(s.wheel, s.locks[d]); }
  }

  lemma MoveKeeps(s: State, s': State)
    requires DeletionInv(s) && Moves(s, s')
    ensures DeletionInv(s')
  {
    var a :| Can(s, a) && s' == After(s, a);
    match a
    case DoLock(d, t) =>
    case DoErase(d) => EraseKeeps(s, d);
    case DoRelease(d) =>
    case DoWheel(b) => WheelStepKeeps(s, b);
  }

  lemma RunKeeps(run: seq<State>, i: nat)
    requires IsDeletionRun(run) && i < |run|
    ensures DeletionInv(run[i])
  {
    InitInv(run[0].wheel);
    forall s, s' | DeletionInv(s) && Moves(s, s') ensures DeletionInv(s') { MoveKeeps(s, s'); }
    Runs.Invariant(run, 0, i, s => DeletionInv(s), (s, s') => Moves(s, s'));
  }

  // ---------------------------------------------------------------- theorems

  /** What is proved of the wheel holds with deletions in two steps as well. */
  lemma FiresWhenDueAmongDeletions(run: seq<State>, i: nat, t: nat)
    requires IsDeletionRun(run) && i < |run| && t in run[i].wheel.births
    ensures FiredWhenDue(run[i].wheel, t)
  {
    RunKeeps(run, i);
    InvFires(run[i].wheel, t);
  }

  /** The iterator of a deletion that has not erased yet designates its timer's node, or `slot` is
      null, unless another deletion has already erased that node; then, and only then, it dangles.
      That other deletion is over, or past the mutex and still in flight. */
  lemma DanglesExactly(run: seq<State>, i: nat, d: nat)
    requires IsDeletionRun(run) && i < |run| && Waits(run[i], d)
    ensures var s, t := run[i], run[i].locks[d];
      && (Dangles(s, d) <==> t in s.erasedBy)
      && (t in s.erasedBy ==> s.erasedBy[t] != d && (s.erasedBy[t] in s.ended || EraserStays(s, t)))
      && (!Dangles(s, d) ==> Can(s, DoErase(d)) && (t in s.wheel.timers ==> SlotIsNode(s.wheel, t)))
  {
    RunKeeps(run, i);
    var s, t := run[i], run[i].locks[d];
    if t in s.wheel.timers {
      TimerIsListed(s.wheel, t);
    }
  }

  lemma TimerIsListed(w: Wheel, t: nat)
    requires Inv(w) && t in w.timers
    ensures SlotIsNode(w, t) && Enabled(w, DoDeleteTimer(t))
  {
    assert TimerOk(w, t);
    assert w.timers[t].slot.Some? ==> IsPending(w, t);
  }

  /** What an erase makes dangle: the other deletions of its timer, if the timer was pending. */
  lemma EraseEndangersExactly(run: seq<State>, i: nat, d: nat, e: nat)
    requires IsDeletionRun(run) && i < |run| && Can(run[i], DoErase(d)) && Waits(run[i], e) && d != e
    ensures var s := run[i];
      && Waits(EraseStep(s, d), e)
      && (Dangles(EraseStep(s, d), e) <==>
           Dangles(s, e) || (s.locks[e] == s.locks[d] && IsPending(s.wheel, s.locks[d])))
  {
    RunKeeps(run, i);
  }

  /** A handle can be locked as long as its timer is listed, firing, or held by a deletion, one past
      the mutex included; the new deletion dangles from its start exactly if the node is erased. */
  lemma LateLockDanglesExactly(run: seq<State>, i: nat, d: nat, e: nat)
    requires IsDeletionRun(run) && i < |run| && d in run[i].locks && e !in run[i].locks && e !in run[i].ended
    ensures var s, t := run[i], run[i].locks[d];
      Can(s, DoLock(e, t)) && Waits(Lock(s, e, t), e) && (Dangles(Lock(s, e, t), e) <==> t in s.erasedBy)
    ensures run[i].locks[d] in run[i].wheel.timers ==> Can(run[i], DoErase(d)) || d in run[i].erased
    ensures d in run[i].erased ==> Can(run[i], DoRelease(d))
  {
    RunKeeps(run, i);
    if run[i].locks[d] in run[i].wheel.timers { TimerIsListed(run[i].wheel, run[i].locks[d]); }
  }

  /** No other step makes a deletion dangle. */
  lemma OthersEndangerNone(run: seq<State>, i: nat, a: Action, e: nat)
    requires IsDeletionRun(run) && i < |run| && Waits(run[i], e) && Can(run[i], a) && !a.DoErase?
    ensures Waits(After(run[i], a), e) && (Dangles(After(run[i], a), e) ==> Dangles(run[i], e))
  {
    RunKeeps(run, i);
    if a.DoWheel? { WheelStepEffect(run[i].wheel, a.a); }
  }

  /** So a timer's deletions are safe if its callers keep them apart, each from its lock to its
      return: if no two deletions of one timer are ever in flight together, no erase ever dangles. */
  lemma ApartIsSafe(run: seq<State>, i: nat)
    requires IsDeletionRun(run) && i < |run|
    requires forall j :: 0 <= j <= i ==> Apart(run[j])
    ensures NoneDangles(run[i])
  {
    RunKeeps(run, 0);
    forall s, s' | DeletionInv(s) && NoneDangles(s) && MovesApart(s, s') ensures DeletionInv(s') && NoneDangles(s') {
      MoveKeeps(s, s');
      MoveKeepsApart(s, s');
    }
    Runs.Invariant(run[..i + 1], 0, i, s => DeletionInv(s) && NoneDangles(s), (s, s') => MovesApart(s, s'));
  }

  ghost predicate MovesApart(s: State, s': State) {
    Moves(s, s') && Apart(s) && Apart(s')
  }

  // Of each timer at most one deletion is in flight
  ghost predicate Apart(s: State) {
    forall d, e :: d in s.locks && e in s.locks && d != e ==> s.locks[d] != s.locks[e]
  }

  ghost predicate NoneDangles(s: State) {
    forall d :: Waits(s, d) ==> !Dangles(s, d)
  }

  lemma LockKeepsApart(s: State, d: nat, t: nat)
    requires DeletionInv(s) && Can(s, DoLock(d, t)) && Apart(Lock(s, d, t)) && NoneDangles(s)
    ensures NoneDangles(Lock(s, d, t))
  {
    var s' := Lock(s, d, t);
    forall f | f in s.locks ensures s.locks[f] != t {
      assert f in s'.locks && d in s'.locks && f != d;
    }
    assert t in s.wheel.timers;
    forall e | Waits(s', e) && e != d ensures !Dangles(s', e) {
      assert Waits(s, e) && !Dangles(s, e);
    }
  }

  lemma EraseKeepsApart(s: State, d: nat)
    requires Can(s, DoErase(d)) && Apart(s) && NoneDangles(s)
    ensures NoneDangles(EraseStep(s, d))
  {
    var s' := EraseStep(s, d);
    forall e | Waits(s', e) ensures !Dangles(s', e) {
      assert Waits(s, e) && e != d && s.locks[e] != s.locks[d];
      assert !Dangles(s, e);
    }
  }

  lemma ReleaseKeepsApart(s: State, d: nat)
    requires NoneDangles(s)
    ensures NoneDangles(Release(s, d))
  {
    forall e | Waits(Release(s, d), e) ensures !Dangles(s, e) { assert e != d && Waits(s, e); }
  }

  lemma WheelKeepsApart(s: State, b: TimerWheel.Action)
    requires DeletionInv(s) && Can(s, DoWheel(b)) && NoneDangles(s)
    ensures NoneDangles(s.(wheel := Next(s.wheel, b)))
  {
    WheelStepEffect(s.wheel, b);
    forall e | Waits(s, e) ensures s.locks[e] !in s.wheel.deleted {
      assert !Dangles(s, e);
    }
  }

  lemma MoveKeepsApart(s: State, s': State)
    requires DeletionInv(s) && Moves(s, s') && Apart(s) && Apart(s') && NoneDangles(s)
    ensures NoneDangles(s')
  {
    var a :| Can(s, a) && s' == After(s, a);
    match a
    case DoLock(d, t) => LockKeepsApart(s, d, t);
    case DoErase(d) => EraseKeepsApart(s, d);
    case DoRelease(d) => ReleaseKeepsApart(s, d);
    case DoWheel(b) => WheelKeepsApart(s, b);
  }

  // ---------------------------------------------------------------- it happens

  // A run that adds timer 0 and lets deletion 0 lock it
  lemma LockedRun() returns (run: seq<State>)
    ensures IsDeletionRun(run) && |run| == 3 && run[2].locks == map[0 := 0]
    ensures IsPending(run[2].wheel, 0) && run[2].erased == {} && run[2].ended == {}
  {
    var w := Wheel(0, Idle, seq(NUM_SLOTS, _ => []), map[], 0, [], map[], map[], {});
    var s0 := State(w, map[], {}, {}, map[]);
    var s1 := After(s0, DoWheel(DoAddTimer(0, 100)));
    AddedIsPending(w, 0, 100);
    run := [s0, s1, After(s1, DoLock(0, 0))];
    assert Moves(run[0], run[1]) && Moves(run[1], run[2]);
  }

  lemma RunMoves(run: seq<State>, a: Action) returns (longer: seq<State>)
    requires IsDeletionRun(run) && Can(run[|run| - 1], a)
    ensures IsDeletionRun(longer) && longer == run + [After(run[|run| - 1], a)]
  {
    longer := run + [After(run[|run| - 1], a)];
    assert Moves(run[|run| - 1], longer[|run|]);
  }

  lemma FirstErases(run: seq<State>, i: nat)
    requires IsDeletionRun(run) && i < |run| && Waits(run[i], 0) && IsPending(run[i].wheel, run[i].locks[0])
    ensures Can(run[i], DoErase(0)) && run[i].locks[0] in EraseStep(run[i], 0).erasedBy
  {
    RunKeeps(run, i);
    TimerIsListed(run[i].wheel, run[i].locks[0]);
  }

  /** Two deletions that have both locked one pending timer: the second to erase dangles. */
  lemma OverlapRun() returns (run: seq<State>)
    ensures IsDeletionRun(run) && |run| == 5 && Waits(run[4], 1) && Dangles(run[4], 1)
  {
    run := LockedRun();
    run := RunMoves(run, DoLock(1, 0));
    FirstErases(run, 3);
    EraseEndangersExactly(run, 3, 0, 1);
    run := RunMoves(run, DoErase(0));
  }

  /** It is not enough that the second deletion locks after the first has erased: while the first has
      not returned, the lock succeeds and the erase dangles. */
  lemma LateLockRun() returns (run: seq<State>)
    ensures IsDeletionRun(run) && |run| == 5 && 0 in run[3].erased && 1 !in run[3].locks
    ensures Waits(run[4], 1) && Dangles(run[4], 1)
  {
    run := LockedRun();
    FirstErases(run, 2);
    run := RunMoves(run, DoErase(0));
    LateLockDanglesExactly(run, 3, 0, 1);
    run := RunMoves(run, DoLock(1, 0));
  }
}
