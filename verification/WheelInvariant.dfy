/** The timing wheel refines a plain set of deadlines: the back-pointers designate each pending
    timer's one node, and every timer fires once, at its due tick, unless it is deleted first. */
module WheelInvariant {
  import opened Options
  import Runs
  import opened TimerWheel
  import opened WheelPlacement

  // ---------------------------------------------------------------- the invariant

  predicate IsPending(w: Wheel, t: nat) {
    t in w.timers && w.timers[t].slot.Some?
  }

  /** Every node is the one its timer points back to. */
  ghost predicate NodesOk(w: Wheel) {
    && |w.slots| == NUM_SLOTS
    && (forall s, n :: 0 <= s < NUM_SLOTS && n in w.slots[s] ==>
         n.timer in w.timers && w.timers[n.timer].slot == Some(s) && w.timers[n.timer].pos == n.id)
    && (forall s, i, j :: 0 <= s < NUM_SLOTS && 0 <= i < j < |w.slots[s]| ==> w.slots[s][i] != w.slots[s][j])
  }

  ghost predicate PositionsOk(w: Wheel) {
    && (forall t :: IsPending(w, t) ==> w.timers[t].pos < w.nextNode)
    && (forall t, u :: IsPending(w, t) && IsPending(w, u) && t != u ==> w.timers[t].pos != w.timers[u].pos)
  }

  /** Every pending timer, but those in `moving`, has the node it points to. */
  ghost predicate ListedOk(w: Wheel, moving: set<nat>)
    requires |w.slots| == NUM_SLOTS
  {
    forall t :: IsPending(w, t) && t !in moving ==>
      w.timers[t].slot.value < NUM_SLOTS && Node(w.timers[t].pos, t) in w.slots[w.timers[t].slot.value]
  }

  ghost predicate ListsOk(w: Wheel) {
    NodesOk(w) && PositionsOk(w) && ListedOk(w, {})
  }

  predicate TimerOk(w: Wheel, t: nat)
    requires t in w.timers
  {
    && t in w.births
    && (w.timers[t].slot.Some? ==>
         && w.timers[t].tm == Word(w.births[t].deadline)
         && Placed(w.cur, w.phase, w.births[t], w.timers[t].slot.value))
  }

  ghost predicate TimesOk(w: Wheel) {
    && w.timers.Keys <= w.births.Keys
    && forall t {:trigger TimerOk(w, t)} :: t in w.timers ==> TimerOk(w, t)
  }

  ghost predicate PhaseOk(w: Wheel) {
    && (!w.phase.Idle? ==> w.cur > 0)
    && (w.phase.Cascading? ==> w.phase.k < 4 && Due(w.cur - 1, w.phase.k))
    && (!w.phase.Firing? ==> w.batch == [])
    && (forall n :: n in w.batch ==> n.timer in w.timers && w.timers[n.timer].slot.None?)
    && (forall t :: t in w.timers && w.timers[t].slot.None? ==> t in TimersOf(w.batch))
  }

  /** A timer once added is pending, or has fired at its due tick, or has been deleted. */
  predicate FateOk(w: Wheel, t: nat)
    requires t in w.births
  {
    && (IsPending(w, t) ==> t !in w.fired && t !in w.deleted)
    && (t in w.fired ==> t !in w.deleted && w.fired[t] == DueTick(w.births[t]))
    && (IsPending(w, t) || t in w.fired || t in w.deleted)
  }

  ghost predicate FatesOk(w: Wheel) {
    && w.fired.Keys <= w.births.Keys && w.deleted <= w.births.Keys
    && forall t {:trigger FateOk(w, t)} :: t in w.births ==> FateOk(w, t)
  }

  ghost predicate Inv(w: Wheel) {
    ListsOk(w) && TimesOk(w) && PhaseOk(w) && FatesOk(w)
  }

  // ---------------------------------------------------------------- adding

  /** The lists while a cascade is under way: `nodes` have been taken out and not yet put back. */
  ghost predicate Moving(w: Wheel, nodes: seq<Node>) {
    && NodesOk(w) && PositionsOk(w) && ListedOk(w, TimersOf(nodes))
    && Detachable(w, nodes)
  }

  // Timer t has got a node at the back of list s
  ghost predicate PushedBack(w: Wheel, w': Wheel, s: nat, t: nat)
    requires |w.slots| == NUM_SLOTS && s < NUM_SLOTS && t in w.timers
  {
    && w'.slots == w.slots[s := w.slots[s] + [Node(w.nextNode, t)]]
    && w'.timers == w.timers[t := w.timers[t].(slot := Some(s), pos := w.nextNode)]
    && w'.nextNode == w.nextNode + 1
  }

  lemma PushBackKeepsNodes(w: Wheel, w': Wheel, s: nat, t: nat)
    requires NodesOk(w) && t in w.timers && s < NUM_SLOTS && PushedBack(w, w', s, t)
    requires forall x, n :: 0 <= x < NUM_SLOTS && n in w.slots[x] ==> n.timer != t
    ensures NodesOk(w')
  {
    forall x, n | 0 <= x < NUM_SLOTS && n in w'.slots[x]
      ensures n.timer in w'.timers && w'.timers[n.timer].slot == Some(x) && w'.timers[n.timer].pos == n.id
    {
      assert n in w.slots[x] || (x == s && n == Node(w.nextNode, t));
    }
    forall x, i, j | 0 <= x < NUM_SLOTS && 0 <= i < j < |w'.slots[x]| ensures w'.slots[x][i] != w'.slots[x][j] {
      assert w'.slots[x][i] in w.slots[x];
    }
  }

  lemma PushBackKeepsListed(w: Wheel, w': Wheel, s: nat, t: nat, moving: set<nat>)
    requires NodesOk(w) && PositionsOk(w) && ListedOk(w, moving) && t in w.timers && s < NUM_SLOTS
    requires PushedBack(w, w', s, t)
    ensures |w'.slots| == NUM_SLOTS && PositionsOk(w') && ListedOk(w', moving - {t})
  {
    forall u ensures IsPending(w', u) <==> IsPending(w, u) || u == t {}
    forall u | IsPending(w', u) && u !in moving - {t}
      ensures w'.timers[u].slot.value < NUM_SLOTS && Node(w'.timers[u].pos, u) in w'.slots[w'.timers[u].slot.value]
    {
      if u == t {
        assert w'.slots[s][|w.slots[s]|] == Node(w.nextNode, t);
      } else {
        assert IsPending(w, u);
      }
    }
  }

  /** A timer that is on no list gets a node at the back of one. */
  lemma PushBackKeepsLists(w: Wheel, s: nat, t: nat, moving: set<nat>)
    requires NodesOk(w) && PositionsOk(w) && ListedOk(w, moving) && t in w.timers && s < NUM_SLOTS
    requires forall x, n :: 0 <= x < NUM_SLOTS && n in w.slots[x] ==> n.timer != t
    ensures var w' := PushBack(w, s, t);
      NodesOk(w') && PositionsOk(w') && ListedOk(w', moving - {t})
  {
    PushBackKeepsNodes(w, PushBack(w, s, t), s, t);
    PushBackKeepsListed(w, PushBack(w, s, t), s, t, moving);
  }

  // The nodes left to move are as they should be
  ghost predicate Detachable(w: Wheel, nodes: seq<Node>)
    requires |w.slots| == NUM_SLOTS
  {
    && (forall n :: n in nodes ==> IsPending(w, n.timer))
    && (forall i, j :: 0 <= i < j < |nodes| ==> nodes[i].timer != nodes[j].timer)
    && (forall s, n :: 0 <= s < NUM_SLOTS && n in w.slots[s] ==> n.timer !in TimersOf(nodes))
  }

  lemma PushBackLeavesRest(w: Wheel, w': Wheel, s: nat, nodes: seq<Node>)
    requires |w.slots| == NUM_SLOTS && Detachable(w, nodes) && nodes != [] && s < NUM_SLOTS
    requires nodes[0].timer in w.timers && PushedBack(w, w', s, nodes[0].timer)
    ensures nodes[0].timer !in TimersOf(nodes[1..])
    ensures TimersOf(nodes) == TimersOf(nodes[1..]) + {nodes[0].timer}
    ensures |w'.slots| == NUM_SLOTS && Detachable(w', nodes[1..])
  {
    var t, rest := nodes[0].timer, nodes[1..];
    assert nodes == [nodes[0]] + rest;
    forall n | n in rest ensures IsPending(w', n.timer) { assert n in nodes && IsPending(w, n.timer); }
    forall x, n | 0 <= x < NUM_SLOTS && n in w'.slots[x] ensures n.timer !in TimersOf(rest) {
      assert n in w.slots[x] || n == Node(w.nextNode, t);
    }
  }

  lemma PushBackMoves(w: Wheel, s: nat, nodes: seq<Node>)
    requires Moving(w, nodes) && nodes != [] && s < NUM_SLOTS
    ensures nodes[0].timer in w.timers && nodes[0].timer !in TimersOf(nodes[1..])
    ensures TimersOf(nodes) == TimersOf(nodes[1..]) + {nodes[0].timer}
    ensures Moving(PushBack(w, s, nodes[0].timer), nodes[1..])
  {
    var t := nodes[0].timer;
    assert nodes[0] in nodes && IsPending(w, t);
    assert t in TimersOf(nodes);
    PushBackLeavesRest(w, PushBack(w, s, t), s, nodes);
    PushBackKeepsLists(w, s, t, TimersOf(nodes));
    assert TimersOf(nodes) - {t} == TimersOf(nodes[1..]);
  }

  /** The timers of `nodes` have moved to the slots for their deadlines, and nothing else has. */
  ghost predicate Relocated(w: Wheel, w': Wheel, curtime: nat, nodes: seq<Node>) {
    && w' == w.(slots := w'.slots, timers := w'.timers, nextNode := w'.nextNode)
    && w'.timers.Keys == w.timers.Keys
    && (forall t :: t in w.timers && t !in TimersOf(nodes) ==> w'.timers[t] == w.timers[t])
    && (forall t :: t in TimersOf(nodes) && t in w.timers ==>
         w'.timers[t].tm == w.timers[t].tm && w'.timers[t].slot == Some(SlotFor(curtime, w.timers[t].tm)))
  }

  lemma RelocatedStep(w: Wheel, w': Wheel, curtime: nat, nodes: seq<Node>, s: nat)
    requires nodes != [] && nodes[0].timer in w.timers
    requires s < |w.slots| && s == SlotFor(curtime, w.timers[nodes[0].timer].tm)
    requires TimersOf(nodes) == TimersOf(nodes[1..]) + {nodes[0].timer} && nodes[0].timer !in TimersOf(nodes[1..])
    requires Relocated(PushBack(w, s, nodes[0].timer), w', curtime, nodes[1..])
    ensures Relocated(w, w', curtime, nodes)
  {
  }

  lemma {:induction false} AddAllKeepsLists(w: Wheel, curtime: nat, nodes: seq<Node>)
    requires Moving(w, nodes)
    ensures ListsOk(AddAll(w, curtime, nodes)) && Relocated(w, AddAll(w, curtime, nodes), curtime, nodes)
    decreases nodes
  {
    if nodes == [] {
      assert TimersOf(nodes) == {};
    } else {
      var s := SlotFor(curtime, w.timers[nodes[0].timer].tm);
      var w1 := PushBack(w, s, nodes[0].timer);
      PushBackMoves(w, s, nodes);
      AddAllKeepsLists(w1, curtime, nodes[1..]);
      RelocatedStep(w, AddAll(w1, curtime, nodes[1..]), curtime, nodes, s);
    }
  }

  /** Taking a slot's list out of the wheel. */
  lemma TakeSlotMoves(w: Wheel, s: nat)
    requires ListsOk(w) && s < NUM_SLOTS
    ensures Moving(w.(slots := w.slots[s := []]), w.slots[s])
    ensures forall t :: IsPending(w, t) ==> (t in TimersOf(w.slots[s]) <==> w.timers[t].slot == Some(s))
  {
    var nodes := w.slots[s];
    var w1 := w.(slots := w.slots[s := []]);
    forall t | IsPending(w, t) ensures t in TimersOf(nodes) <==> w.timers[t].slot == Some(s) {
      if w.timers[t].slot == Some(s) { assert Node(w.timers[t].pos, t) in nodes; }
    }
    forall x, n | 0 <= x < NUM_SLOTS && n in w1.slots[x] ensures n.timer !in TimersOf(nodes) {
      assert n in w.slots[x];
    }
    assert forall t :: IsPending(w1, t) == IsPending(w, t);
  }

  // ---------------------------------------------------------------- steps

  /** Timers that stay keep their deadlines, and the pending ones are placed right. */
  lemma KeepTimes(w: Wheel, w': Wheel)
    requires TimesOk(w) && w'.births == w.births && w'.timers.Keys <= w.timers.Keys
    requires forall t :: IsPending(w', t) ==>
      && IsPending(w, t) && w'.timers[t].tm == w.timers[t].tm
      && Placed(w'.cur, w'.phase, w.births[t], w'.timers[t].slot.value)
    ensures TimesOk(w')
  {
    forall t | t in w'.timers ensures TimerOk(w', t) {
      assert TimerOk(w, t);
      assert w'.timers[t].slot.Some? ==> IsPending(w', t);
    }
  }

  lemma KeepFates(w: Wheel, w': Wheel)
    requires FatesOk(w) && w'.births == w.births && w'.fired == w.fired && w'.deleted == w.deleted
    requires forall t :: IsPending(w', t) <==> IsPending(w, t)
    ensures FatesOk(w')
  {
    forall t | t in w'.births ensures FateOk(w', t) { assert FateOk(w, t); }
  }

  /** Firing the pending timers that are due. */
  lemma FireFates(w: Wheel, w': Wheel, due: set<nat>, tick: nat)
    requires FatesOk(w) && w'.births == w.births && w'.deleted == w.deleted
    requires forall t :: t in due ==> IsPending(w, t) && t in w.births && DueTick(w.births[t]) == tick
    requires w'.fired.Keys == w.fired.Keys + due
    requires forall t :: t in w'.fired ==> w'.fired[t] == if t in due then tick else w.fired[t]
    requires forall t :: IsPending(w', t) <==> IsPending(w, t) && t !in due
    ensures FatesOk(w')
  {
    forall t | t in w'.births ensures FateOk(w', t) { assert FateOk(w, t); }
  }

  /** The arithmetic of a new timer. */
  lemma NewTimerSlot(cur: nat, b: Birth, phase: Phase)
    requires b.added == cur && cur < b.deadline <= cur + WORD / PERIOD
    requires b.inWindow <==> phase.Cascading? || phase.Splicing?
    ensures Placed(cur, phase, b, SlotFor(Word(cur), Word(b.deadline)))
  {
    SlotForIsTrueSlot(cur, b.deadline);
    NewTimerPlaced(cur, phase, b);
  }

  lemma WordSum(cur: nat, ms: nat)
    ensures Word(Word(cur) + Ticks(ms)) == Word(cur + Ticks(ms))
    ensures Ticks(ms) <= WORD / PERIOD
  {
  }

  lemma AddTimerKeepsLists(w: Wheel, t: nat, b: Birth, tm: nat, s: nat)
    requires ListsOk(w) && t !in w.timers && s < NUM_SLOTS
    ensures ListsOk(PushBack(w.(timers := w.timers[t := Timer(tm, None, 0)], births := w.births[t := b]), s, t))
  {
    var w1 := w.(timers := w.timers[t := Timer(tm, None, 0)], births := w.births[t := b]);
    assert forall u :: IsPending(w1, u) == IsPending(w, u);
    PushBackKeepsLists(w1, s, t, {});
    ghost var none: set<nat> := {};
    assert none - {t} == none;
  }

  lemma AddTimerKeepsTimes(w: Wheel, w': Wheel, t: nat, b: Birth, s: nat, pos: nat)
    requires TimesOk(w) && PhaseOk(w) && FatesOk(w) && t !in w.births && t !in w.timers
    requires Placed(w.cur, w.phase, b, s)
    requires w' == w.(slots := w'.slots, nextNode := w'.nextNode, births := w.births[t := b],
                      timers := w.timers[t := Timer(Word(b.deadline), Some(s), pos)])
    ensures TimesOk(w') && PhaseOk(w') && FatesOk(w')
    ensures forall u :: IsPending(w', u) <==> IsPending(w, u) || u == t
  {
    forall u | u in w'.timers ensures TimerOk(w', u) { if u != t { assert TimerOk(w, u); } }
    forall u | u in w'.births ensures FateOk(w', u) { if u != t { assert FateOk(w, u); } }
  }

  // What AddTimer records of a new timer, and the slot it chooses
  function NewBirth(w: Wheel, ms: nat): Birth {
    Birth(w.cur, w.cur + Ticks(ms), InWindow(w))
  }

  function NewSlot(w: Wheel, ms: nat): (s: nat)
    ensures s < NUM_SLOTS
  {
    SlotFor(Word(w.cur), Word(w.cur + Ticks(ms)))
  }

  lemma AddTimerIsPushBack(w: Wheel, t: nat, ms: nat)
    requires |w.slots| == NUM_SLOTS && Ticks(ms) > 0
    ensures AddTimer(w, t, ms) ==
      PushBack(w.(timers := w.timers[t := Timer(Word(w.cur + Ticks(ms)), None, 0)],
                  births := w.births[t := NewBirth(w, ms)]),
               NewSlot(w, ms), t)
  {
    WordSum(w.cur, ms);
  }

  // What AddTimer does to the records of timers
  ghost predicate AddedTo(w: Wheel, w': Wheel, t: nat, b: Birth, s: nat) {
    w' == w.(slots := w'.slots, nextNode := w.nextNode + 1, births := w.births[t := b],
             timers := w.timers[t := Timer(Word(b.deadline), Some(s), w.nextNode)])
  }

  lemma AddTimerEffect(w: Wheel, t: nat, ms: nat)
    requires ListsOk(w) && t !in w.timers && Ticks(ms) > 0
    ensures ListsOk(AddTimer(w, t, ms)) && AddedTo(w, AddTimer(w, t, ms), t, NewBirth(w, ms), NewSlot(w, ms))
  {
    AddTimerIsPushBack(w, t, ms);
    AddTimerKeepsLists(w, t, NewBirth(w, ms), Word(w.cur + Ticks(ms)), NewSlot(w, ms));
  }

  lemma NewBirthPlaced(w: Wheel, ms: nat)
    requires Ticks(ms) > 0
    ensures Placed(w.cur, w.phase, NewBirth(w, ms), NewSlot(w, ms))
  {
    WordSum(w.cur, ms);
    NewTimerSlot(w.cur, NewBirth(w, ms), w.phase);
  }

  lemma AddTimerKeepsInv(w: Wheel, t: nat, ms: nat)
    requires Inv(w) && t !in w.births
    ensures Inv(AddTimer(w, t, ms))
    ensures Ticks(ms) > 0 ==> forall u :: IsPending(AddTimer(w, t, ms), u) <==> IsPending(w, u) || u == t
  {
    if Ticks(ms) > 0 {
      assert t !in w.timers;
      AddTimerEffect(w, t, ms);
      NewBirthPlaced(w, ms);
      AddTimerKeepsTimes(w, AddTimer(w, t, ms), t, NewBirth(w, ms), NewSlot(w, ms), w.nextNode);
    }
  }

  lemma {:induction false} EraseRemoves(l: seq<Node>, id: nat)
    requires forall i, j :: 0 <= i < j < |l| ==> l[i].id != l[j].id
    ensures forall n :: n in Erase(l, id) <==> n in l && n.id != id
    ensures forall i, j :: 0 <= i < j < |Erase(l, id)| ==> Erase(l, id)[i] != Erase(l, id)[j]
  {
    if l != [] {
      EraseRemoves(l[1..], id);
      assert l == [l[0]] + l[1..];
      if l[0].id == id {
        assert forall n :: n in l[1..] ==> exists i :: 1 <= i < |l| && l[i] == n;
      }
    }
  }

  lemma NodeIdsDistinct(w: Wheel, s: nat)
    requires NodesOk(w) && PositionsOk(w) && s < NUM_SLOTS
    ensures forall i, j :: 0 <= i < j < |w.slots[s]| ==> w.slots[s][i].id != w.slots[s][j].id
  {
    forall i, j | 0 <= i < j < |w.slots[s]| ensures w.slots[s][i].id != w.slots[s][j].id {
      var m, n := w.slots[s][i], w.slots[s][j];
      assert m in w.slots[s] && n in w.slots[s] && m != n;
      assert IsPending(w, m.timer) && IsPending(w, n.timer);
    }
  }

  lemma DeleteTimerKeepsNodes(w: Wheel, t: nat)
    requires ListsOk(w) && IsPending(w, t) && w.timers[t].slot.value < NUM_SLOTS
    ensures NodesOk(DeleteTimer(w, t))
  {
    var s := w.timers[t].slot.value;
    var w' := DeleteTimer(w, t);
    NodeIdsDistinct(w, s);
    EraseRemoves(w.slots[s], w.timers[t].pos);
    forall x, n | 0 <= x < NUM_SLOTS && n in w'.slots[x]
      ensures n.timer in w'.timers && w'.timers[n.timer].slot == Some(x) && w'.timers[n.timer].pos == n.id
    {
      assert n in w.slots[x];
    }
  }

  lemma DeleteTimerKeepsLists(w: Wheel, t: nat)
    requires ListsOk(w) && IsPending(w, t) && w.timers[t].slot.value < NUM_SLOTS
    ensures ListsOk(DeleteTimer(w, t))
  {
    var s := w.timers[t].slot.value;
    var w' := DeleteTimer(w, t);
    DeleteTimerKeepsNodes(w, t);
    NodeIdsDistinct(w, s);
    EraseRemoves(w.slots[s], w.timers[t].pos);
    forall u | IsPending(w', u) ensures Node(w'.timers[u].pos, u) in w'.slots[w'.timers[u].slot.value] {
      assert IsPending(w, u) && u != t;
    }
  }

  /** Cancellation removes exactly the timer asked for; one already spliced out is left alone. */
  lemma DeleteTimerKeepsInv(w: Wheel, t: nat)
    requires Inv(w) && Enabled(w, DoDeleteTimer(t))
    ensures Inv(DeleteTimer(w, t))
    ensures IsPending(w, t) ==> t in DeleteTimer(w, t).deleted
    ensures forall u :: u != t && u in w.timers ==>
      u in DeleteTimer(w, t).timers && DeleteTimer(w, t).timers[u] == w.timers[u]
  {
    var w' := DeleteTimer(w, t);
    if w.timers[t].slot.Some? {
      assert TimerOk(w, t);
      DeleteTimerKeepsLists(w, t);
      DeleteTimerKeepsTimes(w, w', t);
    }
  }

  lemma DeleteTimerKeepsTimes(w: Wheel, w': Wheel, t: nat)
    requires TimesOk(w) && PhaseOk(w) && FatesOk(w) && IsPending(w, t)
    requires w' == w.(slots := w'.slots, timers := w.timers - {t}, deleted := w.deleted + {t})
    ensures TimesOk(w') && PhaseOk(w') && FatesOk(w')
  {
    assert forall u :: IsPending(w', u) <==> IsPending(w, u) && u != t;
    forall u | u in w'.timers ensures TimerOk(w', u) { assert TimerOk(w, u); }
    forall u | u in w'.births ensures FateOk(w', u) { assert FateOk(w, u); }
  }

  lemma BeginTickKeepsInv(w: Wheel)
    requires Inv(w) && w.phase.Idle?
    ensures Inv(BeginTick(w))
  {
    var w' := BeginTick(w);
    forall t | t in w'.timers ensures TimerOk(w', t) {
      assert TimerOk(w, t);
      if w.timers[t].slot.Some? { BeginTickPlaced(w.cur, w.births[t], w.timers[t].slot.value); }
    }
    assert forall t :: IsPending(w', t) == IsPending(w, t);
    forall t | t in w'.births ensures FateOk(w', t) { assert FateOk(w, t); }
    assert w'.phase.Cascading? ==> w.cur % 0x100 == 0;
  }

  /** What a cascade of slot s at time c does to the lists and back-pointers. */
  lemma CascadeEffect(w: Wheel, s: nat, c: nat)
    requires ListsOk(w) && s < NUM_SLOTS
    requires forall t :: IsPending(w, t) && w.timers[t].slot == Some(s) ==> SlotFor(Word(c), w.timers[t].tm) != s
    ensures forall n :: n in w.slots[s] ==> n.timer in w.timers
    ensures var w' := AddAll(w.(slots := w.slots[s := []]), Word(c), w.slots[s]);
      && ListsOk(w') && w'.slots[s] == []
      && w' == w.(slots := w'.slots, timers := w'.timers, nextNode := w'.nextNode)
      && w'.timers.Keys == w.timers.Keys
      && forall t :: t in w.timers ==>
           && w'.timers[t].tm == w.timers[t].tm
           && w'.timers[t].slot ==
                if w.timers[t].slot == Some(s) then Some(SlotFor(Word(c), w.timers[t].tm)) else w.timers[t].slot
  {
    var w1 := w.(slots := w.slots[s := []]);
    var w' := AddAll(w1, Word(c), w.slots[s]);
    TakeSlotMoves(w, s);
    AddAllKeepsLists(w1, Word(c), w.slots[s]);
    forall n | n in w.slots[s] ensures IsPending(w, n.timer) {}
    forall t | t in w.timers
      ensures w'.timers[t].slot ==
        if w.timers[t].slot == Some(s) then Some(SlotFor(Word(c), w.timers[t].tm)) else w.timers[t].slot
    {
      if w.timers[t].slot.Some? { assert IsPending(w, t); }
    }
    if w'.slots[s] != [] {
      assert w'.slots[s][0] in w'.slots[s];
      assert IsPending(w, w'.slots[s][0].timer);
    }
  }

  lemma CascadedTimerMoves(w: Wheel, t: nat, s: nat, s': nat)
    requires Inv(w) && w.phase.Cascading? && IsPending(w, t) && s == Section2Slot(w.cur - 1, w.phase.k)
    requires s' ==
      if w.timers[t].slot == Some(s) then SlotFor(Word(w.cur - 1), w.timers[t].tm) else w.timers[t].slot.value
    ensures w.timers[t].slot == Some(s) ==> s' != s
    ensures t in w.births && Placed(w.cur, AfterCascade(w.cur - 1, w.phase.k), w.births[t], s')
  {
    var c, k := w.cur - 1, w.phase.k;
    assert TimerOk(w, t);
    if w.timers[t].slot == Some(s) {
      CascadeMoves(c, k, w.births[t]);
      SlotForIsTrueSlot(c, w.births[t].deadline);
    } else {
      CascadeLeaves(c, k, w.births[t], w.timers[t].slot.value);
    }
  }

  /** The timers after a cascade: those of slot s moved, the others stayed. */
  ghost predicate Cascaded(w: Wheel, w': Wheel, s: nat) {
    && w.cur > 0
    && w' == w.(slots := w'.slots, timers := w'.timers, nextNode := w'.nextNode, phase := w'.phase)
    && w'.timers.Keys == w.timers.Keys
    && forall t :: t in w.timers ==>
         && w'.timers[t].tm == w.timers[t].tm
         && w'.timers[t].slot ==
              if w.timers[t].slot == Some(s) then Some(SlotFor(Word(w.cur - 1), w.timers[t].tm)) else w.timers[t].slot
  }

  lemma CascadeKeepsTimes(w: Wheel, w': Wheel, s: nat)
    requires Inv(w) && w.phase.Cascading? && s == Section2Slot(w.cur - 1, w.phase.k) && Cascaded(w, w', s)
    requires w'.phase == AfterCascade(w.cur - 1, w.phase.k)
    ensures TimesOk(w') && PhaseOk(w') && FatesOk(w')
    ensures forall t :: IsPending(w', t) <==> IsPending(w, t)
  {
    forall t ensures IsPending(w', t) == IsPending(w, t) {}
    forall t | IsPending(w', t)
      ensures t in w.births && Placed(w'.cur, w'.phase, w.births[t], w'.timers[t].slot.value)
    {
      CascadedTimerMoves(w, t, s, w'.timers[t].slot.value);
    }
    KeepTimes(w, w');
    KeepFates(w, w');
    if w.phase.k < 3 { DueUp(w.cur - 1, w.phase.k); }
  }

  lemma TickIndex(w: Wheel)
    requires w.cur > 0 && w.phase.Cascading? && w.phase.k < 4
    ensures TickSlot(w) == Section2Slot(w.cur - 1, w.phase.k) < NUM_SLOTS
    ensures AfterCascade(Tick(w), w.phase.k) == AfterCascade(w.cur - 1, w.phase.k)
  {
    Section2IndexWord(w.cur - 1, w.phase.k);
  }

  lemma PhaseKeepsLists(w: Wheel, phase: Phase)
    requires ListsOk(w)
    ensures ListsOk(w.(phase := phase))
  {
    assert forall t :: IsPending(w.(phase := phase), t) == IsPending(w, t);
  }

  lemma TickSection2Effect(w: Wheel, s: nat)
    requires Inv(w) && w.phase.Cascading? && s == TickSlot(w)
    ensures TickReady(w) && s == Section2Slot(w.cur - 1, w.phase.k)
    ensures var w' := TickSection2(w);
      ListsOk(w') && w'.slots[s] == [] && Cascaded(w, w', s) && w'.phase == AfterCascade(w.cur - 1, w.phase.k)
  {
    var c := w.cur - 1;
    TickIndex(w);
    forall t | IsPending(w, t) && w.timers[t].slot == Some(s) ensures SlotFor(Word(c), w.timers[t].tm) != s {
      CascadedTimerMoves(w, t, s, SlotFor(Word(c), w.timers[t].tm));
    }
    CascadeEffect(w, s, c);
    PhaseKeepsLists(AddAll(w.(slots := w.slots[s := []]), Word(c), w.slots[s]), AfterCascade(c, w.phase.k));
  }

  /** One cascade relocates the slot's timers and loses none. */
  lemma TickSection2KeepsInv(w: Wheel, s: nat)
    requires Inv(w) && w.phase.Cascading? && s == TickSlot(w)
    ensures TickReady(w) && Inv(TickSection2(w))
    ensures forall t :: IsPending(TickSection2(w), t) <==> IsPending(w, t)
    ensures TickSection2(w).slots[s] == []
  {
    TickSection2Effect(w, s);
    CascadeKeepsTimes(w, TickSection2(w), s);
  }

  lemma {:induction false} FireEffect(fired: map<nat, nat>, nodes: seq<Node>, tick: nat)
    ensures Fire(fired, nodes, tick).Keys == fired.Keys + TimersOf(nodes)
    ensures forall t :: t in Fire(fired, nodes, tick) ==>
      Fire(fired, nodes, tick)[t] == if t in TimersOf(nodes) then tick else fired[t]
    decreases nodes
  {
    if nodes != [] {
      assert TimersOf(nodes) == {nodes[0].timer} + TimersOf(nodes[1..]) by {
        assert nodes == [nodes[0]] + nodes[1..];
      }
      FireEffect(fired[nodes[0].timer := tick], nodes[1..], tick);
    }
  }

  // Slot s has been emptied and its timers detached
  ghost predicate DetachedFrom(w: Wheel, w': Wheel, s: nat)
    requires |w.slots| == NUM_SLOTS && s < NUM_SLOTS
  {
    && w'.slots == w.slots[s := []] && w'.nextNode == w.nextNode && w'.timers.Keys == w.timers.Keys
    && forall t :: t in w.timers ==>
         w'.timers[t] == if w.timers[t].slot == Some(s) then w.timers[t].(slot := None) else w.timers[t]
  }

  lemma DetachKeepsNodes(w: Wheel, w': Wheel, s: nat)
    requires NodesOk(w) && s < NUM_SLOTS && DetachedFrom(w, w', s)
    ensures NodesOk(w')
  {
    forall x, n | 0 <= x < NUM_SLOTS && n in w'.slots[x]
      ensures n.timer in w'.timers && w'.timers[n.timer].slot == Some(x) && w'.timers[n.timer].pos == n.id
    {
      assert n in w.slots[x] && x != s;
    }
  }

  lemma DetachKeepsLists(w: Wheel, w': Wheel, s: nat)
    requires ListsOk(w) && s < NUM_SLOTS && DetachedFrom(w, w', s)
    ensures ListsOk(w')
  {
    DetachKeepsNodes(w, w', s);
    forall t ensures IsPending(w', t) <==> IsPending(w, t) && w.timers[t].slot != Some(s) {}
  }

  lemma SpliceDetaches(w: Wheel, s: nat)
    requires ListsOk(w) && w.cur > 0 && s == (w.cur - 1) % SECTION1_NUM
    ensures DetachedFrom(w, Splice(w), s) && Splice(w).batch == w.slots[s]
    ensures forall t :: t in w.timers ==> (t in TimersOf(w.slots[s]) <==> w.timers[t].slot == Some(s))
  {
    assert Tick(w) % SECTION1_NUM == s;
    TakeSlotMoves(w, s);
    forall t | t in w.timers ensures t in TimersOf(w.slots[s]) <==> w.timers[t].slot == Some(s) {
      if w.timers[t].slot.Some? { assert IsPending(w, t); }
    }
  }

  lemma SpliceKeepsLists(w: Wheel)
    requires ListsOk(w) && w.cur > 0
    ensures var s := (w.cur - 1) % SECTION1_NUM;
      var w' := Splice(w);
      && ListsOk(w') && w'.batch == w.slots[s]
      && w'.timers.Keys == w.timers.Keys
      && forall t :: t in w.timers ==>
           && (t in TimersOf(w.slots[s]) <==> w.timers[t].slot == Some(s))
           && w'.timers[t] == if w.timers[t].slot == Some(s) then w.timers[t].(slot := None) else w.timers[t]
  {
    var s := (w.cur - 1) % SECTION1_NUM;
    SpliceDetaches(w, s);
    DetachKeepsLists(w, Splice(w), s);
  }

  lemma SpliceDue(w: Wheel, t: nat)
    requires Inv(w) && w.phase.Splicing? && IsPending(w, t)
    ensures w.timers[t].slot == Some((w.cur - 1) % SECTION1_NUM) <==> DueTick(w.births[t]) == w.cur - 1
    ensures w.timers[t].slot != Some((w.cur - 1) % SECTION1_NUM) ==>
      Placed(w.cur, Firing, w.births[t], w.timers[t].slot.value)
  {
    assert TimerOk(w, t);
    SpliceExact(w.cur - 1, w.births[t], w.timers[t].slot.value);
  }

  /** The splice fires exactly the pending timers whose due tick this is. */
  lemma SpliceKeepsInv(w: Wheel)
    requires Inv(w) && w.phase.Splicing?
    ensures Inv(Splice(w))
    ensures forall t :: t in TimersOf(Splice(w).batch) <==> IsPending(w, t) && DueTick(w.births[t]) == w.cur - 1
    ensures forall t :: IsPending(Splice(w), t) <==> IsPending(w, t) && DueTick(w.births[t]) != w.cur - 1
  {
    var w' := Splice(w);
    SpliceKeepsLists(w);
    FireEffect(w.fired, w'.batch, w.cur - 1);
    forall n | n in w'.batch ensures IsPending(w, n.timer) {}
    SpliceKeepsTimes(w, w');
  }

  lemma SplicePlaces(w: Wheel, due: set<nat>)
    requires Inv(w) && w.phase.Splicing?
    requires forall t :: t in w.timers ==> (t in due <==> w.timers[t].slot == Some((w.cur - 1) % SECTION1_NUM))
    ensures forall t :: IsPending(w, t) ==> (t in due <==> DueTick(w.births[t]) == w.cur - 1)
    ensures forall t :: IsPending(w, t) && t !in due ==> Placed(w.cur, Firing, w.births[t], w.timers[t].slot.value)
  {
    forall t | IsPending(w, t)
      ensures t in due <==> DueTick(w.births[t]) == w.cur - 1
      ensures t !in due ==> Placed(w.cur, Firing, w.births[t], w.timers[t].slot.value)
    {
      SpliceDue(w, t);
    }
  }

  lemma SpliceKeepsTimes(w: Wheel, w': Wheel)
    requires Inv(w) && w.phase.Splicing? && w'.phase.Firing? && w'.cur == w.cur
    requires w'.births == w.births && w'.deleted == w.deleted && w'.timers.Keys == w.timers.Keys
    requires forall t :: t in w.timers ==>
      && (t in TimersOf(w'.batch) <==> w.timers[t].slot == Some((w.cur - 1) % SECTION1_NUM))
      && w'.timers[t] == if t in TimersOf(w'.batch) then w.timers[t].(slot := None) else w.timers[t]
    requires forall n :: n in w'.batch ==> IsPending(w, n.timer)
    requires w'.fired.Keys == w.fired.Keys + TimersOf(w'.batch)
    requires forall t :: t in w'.fired ==> w'.fired[t] == if t in TimersOf(w'.batch) then w.cur - 1 else w.fired[t]
    ensures TimesOk(w') && PhaseOk(w') && FatesOk(w')
    ensures forall t :: t in TimersOf(w'.batch) <==> IsPending(w, t) && DueTick(w.births[t]) == w.cur - 1
    ensures forall t :: IsPending(w', t) <==> IsPending(w, t) && DueTick(w.births[t]) != w.cur - 1
  {
    var due := TimersOf(w'.batch);
    SplicePlaces(w, due);
    SplicedTimes(w, w', due);
    FireFates(w, w', due, w.cur - 1);
  }

  lemma SplicedTimes(w: Wheel, w': Wheel, due: set<nat>)
    requires TimesOk(w) && PhaseOk(w) && w.phase.Splicing? && w'.phase.Firing? && w'.cur == w.cur
    requires w'.births == w.births && w'.timers.Keys == w.timers.Keys && due == TimersOf(w'.batch)
    requires forall t :: t in w.timers ==>
      w'.timers[t] == if t in due then w.timers[t].(slot := None) else w.timers[t]
    requires forall n :: n in w'.batch ==> IsPending(w, n.timer)
    requires forall t :: IsPending(w, t) && t !in due ==> Placed(w.cur, Firing, w.births[t], w.timers[t].slot.value)
    ensures TimesOk(w') && PhaseOk(w')
  {
    KeepTimes(w, w');
    forall t | t in w'.timers && w'.timers[t].slot.None? ensures t in due {
      assert w.timers[t].slot.Some?;
    }
  }

  lemma EndBatchTimes(w: Wheel, w': Wheel)
    requires TimesOk(w) && PhaseOk(w) && w.phase.Firing?
    requires w' == w.(timers := w.timers - TimersOf(w.batch), batch := [], phase := Idle)
    ensures TimesOk(w') && PhaseOk(w')
    ensures forall t :: IsPending(w', t) <==> IsPending(w, t)
  {
    forall t ensures IsPending(w', t) <==> IsPending(w, t) {}
    forall t | t in w'.timers ensures TimerOk(w', t) {
      assert TimerOk(w, t);
      if IsPending(w, t) { EndBatchPlaced(w.cur, w.births[t], w.timers[t].slot.value); }
    }
  }

  lemma EndBatchLists(w: Wheel, w': Wheel)
    requires ListsOk(w) && w'.slots == w.slots && w'.nextNode == w.nextNode
    requires forall t :: IsPending(w', t) <==> IsPending(w, t)
    requires forall t :: IsPending(w', t) ==> w'.timers[t] == w.timers[t]
    ensures ListsOk(w')
  {
    forall s, n | 0 <= s < NUM_SLOTS && n in w'.slots[s]
      ensures n.timer in w'.timers && w'.timers[n.timer].slot == Some(s) && w'.timers[n.timer].pos == n.id
    {
      assert n in w.slots[s] && IsPending(w, n.timer) && IsPending(w', n.timer);
    }
  }

  lemma EndBatchKeepsInv(w: Wheel)
    requires Inv(w) && w.phase.Firing?
    ensures Inv(EndBatch(w))
  {
    var w' := EndBatch(w);
    assert w'.timers == w.timers - TimersOf(w.batch);
    EndBatchTimes(w, w');
    EndBatchLists(w, w');
    KeepFates(w, w');
  }

  lemma NextKeepsInv(w: Wheel, a: Action)
    requires Inv(w) && Enabled(w, a)
    ensures Inv(Next(w, a))
  {
    match a
    case DoAddTimer(t, ms) => AddTimerKeepsInv(w, t, ms);
    case DoDeleteTimer(t) => DeleteTimerKeepsInv(w, t);
    case DoBeginTick => BeginTickKeepsInv(w);
    case DoTickSection2 => TickSection2KeepsInv(w, TickSlot(w));
    case DoSplice => SpliceKeepsInv(w);
    case DoEndBatch => EndBatchKeepsInv(w);
  }

  lemma StepKeepsInv(w: Wheel, w': Wheel)
    requires Inv(w) && Step(w, w')
    ensures Inv(w')
  {
    var a :| Enabled(w, a) && w' == Next(w, a);
    NextKeepsInv(w, a);
  }

  lemma RunInv(run: seq<Wheel>, i: nat)
    requires IsRun(run) && i < |run|
    ensures Inv(run[i])
  {
    InitInv(run[0]);
    forall w, w' | Inv(w) && Step(w, w') ensures Inv(w') { StepKeepsInv(w, w'); }
    Runs.Invariant(run, 0, i, w => Inv(w), (w, w') => Step(w, w'));
  }

  lemma InitInv(w: Wheel)
    requires Init(w)
    ensures Inv(w)
  {
  }
}
