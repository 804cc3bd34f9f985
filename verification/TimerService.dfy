/** The timer service's methods over its lists, each proved to be the step of the same name in
    module TimerWheel; the times they compute with are 32-bit and their indices are masked. */
module TimerServices {
  import opened Options
  import opened Bits
  import opened TimerWheel
  import opened WheelPlacement
  import opened WheelInvariant
  import opened WheelTheorems

  const SECTION1_MASK: nat := 255
  const SECTION2_MASK: nat := 63

  lemma Section1Bits(t: nat)
    ensures And(t, SECTION1_MASK) == t % SECTION1_NUM
  {
    Pow2Values();
    MaskAndShift(t, 8);
  }

  lemma Section2Bits(t: nat, k: nat)
    requires k < 4
    ensures And(Shr(t, 8 + 6 * k), SECTION2_MASK) == Section2Index(t, k)
  {
    Pow2Values();
    Pow2Add(8, 6);
    Pow2Add(14, 6);
    Pow2Add(20, 6);
    MaskAndShift(t, 8 + 6 * k);
    MaskAndShift(Shr(t, 8 + 6 * k), 6);
  }

  lemma WordIncrement(x: nat)
    ensures Word(Word(x) + 1) == Word(x + 1)
  {
  }

  class TimerService {
    // time_slot_section1_ followed by the rows of time_slot_section2_
    const slots: array<seq<Node>>
    var curTime: nat // a 32-bit word
    var timers: map<nat, Timer>
    var nextNode: nat
    var batch: seq<Node>
    // history
    ghost var clock: nat
    ghost var phase: Phase
    ghost var births: map<nat, Birth>
    ghost var fired: map<nat, nat>
    ghost var deleted: set<nat>

    ghost predicate Valid()
      reads this, slots
    {
      slots.Length == NUM_SLOTS && curTime == Word(clock)
    }

    ghost function State(): Wheel
      reads this, slots
    {
      Wheel(clock, phase, slots[..], timers, nextNode, batch, births, fired, deleted)
    }

    constructor (start: nat)
      requires start < WORD
      ensures Valid() && fresh(slots) && Init(State()) && clock == start
    {
      slots := new seq<Node>[NUM_SLOTS](_ => []);
      curTime, clock := start, start;
      timers, nextNode, batch, phase := map[], 0, [], Idle;
      births, fired, deleted := map[], map[], {};
    }

    // -------------------------------------------------------------- adding

    method AddSection1(t: nat)
      requires Valid() && t in timers
      modifies slots, this`timers, this`nextNode
      ensures State() == PushBack(old(State()), old(timers[t]).tm % SECTION1_NUM, t)
    {
      var i := And(timers[t].tm, SECTION1_MASK);
      Section1Bits(timers[t].tm);
      slots[i] := slots[i] + [Node(nextNode, t)];
      timers := timers[t := timers[t].(slot := Some(i), pos := nextNode)];
      nextNode := nextNode + 1;
    }

    method GetSection2Index(t: nat, section: nat) returns (i: nat)
      requires section < 4
      ensures i == Section2Index(t, section) < SECTION2_NUM
    {
      Section2Bits(t, section);
      i := And(Shr(t, 8 + 6 * section), SECTION2_MASK);
    }

    method AddSection2(section: nat, t: nat)
      requires Valid() && t in timers && section < 4
      modifies slots, this`timers, this`nextNode
      ensures State() == PushBack(old(State()), Section2Slot(old(timers[t]).tm, section), t)
    {
      var i := GetSection2Index(timers[t].tm, section);
      var s := SECTION1_NUM + SECTION2_NUM * section + i;
      slots[s] := slots[s] + [Node(nextNode, t)];
      timers := timers[t := timers[t].(slot := Some(s), pos := nextNode)];
      nextNode := nextNode + 1;
    }

    method DoAdd(curtime: nat, t: nat)
      requires Valid() && t in timers
      modifies slots, this`timers, this`nextNode
      ensures State() == TimerWheel.DoAdd(old(State()), curtime, t)
    {
      var dx := Sub32(timers[t].tm, curtime);
      if dx < SECTION1_NUM {
        AddSection1(t);
      } else if dx < SECTION1_NUM * SECTION2_NUM {
        AddSection2(0, t);
      } else if dx < SECTION1_NUM * SECTION2_NUM * SECTION2_NUM {
        AddSection2(1, t);
      } else if dx < SECTION1_NUM * SECTION2_NUM * SECTION2_NUM * SECTION2_NUM {
        AddSection2(2, t);
      } else {
        AddSection2(3, t);
      }
    }

    method NewTimer(t: nat, ms: nat) returns (created: bool)
      requires Valid()
      modifies this, slots
      ensures Valid() && State() == TimerWheel.AddTimer(old(State()), t, ms)
      ensures created <==> Ticks(ms) != 0
    {
      var timeout := Word(ms + PERIOD / 2) / PERIOD;
      if timeout == 0 {
        return false;
      }
      timers := timers[t := Timer(Word(curTime + timeout), None, 0)];
      births := births[t := Birth(clock, clock + timeout, phase.Cascading? || phase.Splicing?)];
      DoAdd(curTime, t);
      return true;
    }

    /** True when a timer was created; false when the callback was run inline. */
    method AddTimer(t: nat, ms: nat) returns (created: bool)
      requires Valid() && Inv(State()) && t !in births && ms < WORD
      modifies this, slots
      ensures Valid() && Inv(State()) && State() == TimerWheel.AddTimer(old(State()), t, ms)
      ensures created <==> 5 <= ms < WORD - 5
      ensures created ==> Pending(State()) == old(Pending(State()))[t := old(clock) + Ticks(ms)]
    {
      AddTimerKeepsInv(State(), t, ms);
      InlineExactly(ms);
      if Ticks(ms) > 0 { AddRefines(State(), t, ms); }
      created := NewTimer(t, ms);
    }

    /** True when the timer was still alive: then, if it was pending, it never fires. */
    method DeleteTimer(t: nat) returns (alive: bool)
      requires Valid() && Inv(State())
      modifies this, slots
      ensures Valid() && Inv(State()) && alive == (t in old(timers))
      ensures alive && old(IsPending(State(), t)) ==> t in deleted && t !in fired
      ensures Pending(State()) == old(Pending(State())) - {t}
      ensures !(alive && old(IsPending(State(), t))) ==> State() == old(State())
    {
      if t !in timers {
        return false;
      }
      DeleteEffect(State(), t);
      if timers[t].slot.Some? {
        EraseTimer(t);
      }
      return true;
    }

    // The section of DeleteTimer under the mutex
    method EraseTimer(t: nat)
      requires Valid() && t in timers && timers[t].slot.Some? && timers[t].slot.value < NUM_SLOTS
      modifies slots, this`timers, this`deleted
      ensures Valid() && State() == TimerWheel.DeleteTimer(old(State()), t)
    {
      var timer := timers[t];
      slots[timer.slot.value] := Erase(slots[timer.slot.value], timer.pos);
      timers := timers - {t};
      deleted := deleted + {t};
    }

    // -------------------------------------------------------------- ticking

    /** The loop of TickSection2: it reads the list it walks afresh each time, and it ends because
        nothing it adds goes to that list. */
    method MoveAll(curtime: nat, s: nat)
      requires Valid() && s < NUM_SLOTS
      requires forall n :: n in slots[s] ==> n.timer in timers && SlotFor(curtime, timers[n.timer].tm) != s
      modifies slots, this`timers, this`nextNode
      ensures Valid() && State() == AddAll(old(State().(slots := slots[..][s := []])), curtime, old(slots[s]))
    {
      ghost var nodes := slots[s];
      ghost var target := AddAll(State().(slots := slots[..][s := []]), curtime, nodes);
      assert nodes[0..] == nodes;
      var j := 0;
      while j < |slots[s]|
        invariant 0 <= j <= |nodes| && slots[s] == nodes
        invariant timers.Keys == old(timers.Keys) && forall t :: t in timers ==> timers[t].tm == old(timers)[t].tm
        invariant AddAll(State().(slots := slots[..][s := []]), curtime, nodes[j..]) == target
        decreases |nodes| - j
      {
        ghost var before := State();
        var t := slots[s][j].timer;
        assert nodes[j] in nodes;
        assert nodes[j..] == [nodes[j]] + nodes[j + 1..];
        DoAdd(curtime, t);
        assert State().(slots := slots[..][s := []]) ==
          TimerWheel.DoAdd(before.(slots := before.slots[s := []]), curtime, t);
        j := j + 1;
      }
      assert nodes[|nodes|..] == [];
      slots[s] := [];
      assert State() == target;
    }

    method TickSection2(curtime: nat, section: nat) returns (carry: bool)
      requires Valid() && Inv(State()) && phase == Cascading(section) && curtime == Tick(State())
      modifies this, slots
      ensures Valid() && Inv(State())
      ensures old(TickReady(State())) && State() == TimerWheel.TickSection2(old(State()))
      ensures carry <==> Section2Index(curtime, section) == 0
      ensures phase == (if carry && section < 3 then Cascading(section + 1) else Splicing)
      ensures births == old(births) && clock == old(clock) && curtime == Tick(State())
      ensures Pending(State()) == old(Pending(State()))
    {
      CascadeRefines(State());
      var i := GetSection2Index(curtime, section);
      var s := SECTION1_NUM + SECTION2_NUM * section + i;
      TickIndex(State());
      TickSection2KeepsInv(State(), s);
      StayOut(State(), s);
      MoveAll(curtime, s);
      phase := AfterCascade(curtime, section);
      return i == 0;
    }

    /** Clears the back-pointers of a list's timers. */
    method DetachAll(list: seq<Node>)
      requires forall n :: n in list ==> n.timer in timers
      modifies this`timers
      ensures timers == Detach(old(timers), list)
    {
      var j := 0;
      while j < |list|
        invariant 0 <= j <= |list|
        invariant timers == Detach(old(timers), list[..j])
      {
        var t := list[j].timer;
        assert list[j] in list;
        assert list[..j + 1] == list[..j] + [list[j]];
        timers := timers[t := timers[t].(slot := None)];
        j := j + 1;
      }
      assert list[..|list|] == list;
    }

    method Splice(curtime: nat) returns (list: seq<Node>)
      requires Valid() && clock > 0 && curtime == Tick(State())
      requires forall n :: n in slots[curtime % SECTION1_NUM] ==> n.timer in timers
      modifies this, slots
      ensures Valid() && State() == TimerWheel.Splice(old(State())) && list == batch
    {
      var i := And(curtime, SECTION1_MASK);
      Section1Bits(curtime);
      list := slots[i];
      DetachAll(list);
      slots[i] := [];
      batch := list;
      fired := Fire(fired, list, clock - 1);
      phase := Firing;
    }

    /** The loop of Run, over any number of ticks: each tick fires exactly the timers whose deadline it
        is, each once, and all the others stay. */
    method Run(count: nat) returns (log: seq<seq<Node>>)
      requires Valid() && Inv(State()) && phase == Idle
      modifies this, slots
      ensures Valid() && Inv(State()) && phase == Idle && clock == old(clock) + count && |log| == count
      ensures FiredInOrder(old(Pending(State())), old(clock), log, Pending(State()))
    {
      log := [];
      ghost var pending := Pending(State());
      for i := 0 to count
        invariant Valid() && Inv(State()) && phase == Idle && clock == old(clock) + i && |log| == i
        invariant FiredInOrder(pending, old(clock), log, Pending(State()))
      {
        ghost var before := Pending(State());
        var list := Update();
        FiredNext(pending, old(clock), log, before, list);
        log := log + [list];
      }
    }

    /** One tick: the slots cascade, the due timers are detached, their callbacks run and they are released. */
    method Update() returns (list: seq<Node>)
      requires Valid() && Inv(State()) && phase == Idle
      modifies this, slots
      ensures Valid() && Inv(State()) && phase == Idle && clock == old(clock) + 1
      ensures forall t :: t in TimersOf(list) <==> t in old(Pending(State())) && old(Pending(State()))[t] == old(clock)
      ensures forall i, j :: 0 <= i < j < |list| ==> list[i].timer != list[j].timer
      ensures forall t :: t in TimersOf(list) ==> t in fired && fired[t] == old(clock) && t !in timers
      ensures Pending(State()) == old(Pending(State())) - TimersOf(list)
    {
      list := DetachDue();
      EndBatch();
    }

    /** The end of Update: the list goes out of scope, and with it the timers it owns. */
    method EndBatch()
      requires Valid() && Inv(State()) && phase == Firing
      modifies this`timers, this`batch, this`phase
      ensures Valid() && Inv(State()) && State() == TimerWheel.EndBatch(old(State()))
      ensures Pending(State()) == old(Pending(State())) && timers.Keys == old(timers.Keys - TimersOf(batch))
    {
      EndBatchKeepsInv(State());
      EndBatchRefines(State());
      ReleaseAll(batch);
      batch := [];
      phase := Idle;
    }

    method ReleaseAll(list: seq<Node>)
      modifies this`timers
      ensures timers == old(timers) - TimersOf(list)
    {
      var j := 0;
      while j < |list|
        invariant 0 <= j <= |list|
        invariant timers == old(timers) - TimersOf(list[..j])
      {
        assert list[..j + 1] == list[..j] + [list[j]];
        timers := timers - {list[j].timer};
        j := j + 1;
      }
      assert list[..|list|] == list;
    }

    /** Update up to its callbacks, among which others may add and delete timers: fetch_add, the
        cascades and the splice. */
    method DetachDue() returns (list: seq<Node>)
      requires Valid() && Inv(State()) && phase == Idle
      modifies this, slots
      ensures Valid() && Inv(State()) && phase == Firing && clock == old(clock) + 1 && batch == list
      // exactly the timers whose deadline this tick is, and no others
      ensures forall t :: t in TimersOf(list) <==> t in old(Pending(State())) && old(Pending(State()))[t] == old(clock)
      ensures forall i, j :: 0 <= i < j < |list| ==> list[i].timer != list[j].timer
      ensures forall t :: t in TimersOf(list) ==> t in fired && fired[t] == old(clock)
      ensures Pending(State()) == old(Pending(State())) - TimersOf(list)
    {
      ghost var w := State();
      BeginTickKeepsInv(w);
      SamePendingThroughBegin(w);
      var tm := FetchAdd();
      Section1Bits(tm);
      if And(tm, SECTION1_MASK) == 0 {
        Cascade(tm);
      }
      DetachEffect(State());
      SpliceKeepsInv(State());
      NoEarlyTimers(w, State());
      list := Splice(tm);
    }

    /** The clock's fetch_add, and the test that opens Update. */
    method FetchAdd() returns (tm: nat)
      requires Valid() && phase == Idle
      modifies this`curTime, this`clock, this`phase
      ensures Valid() && State() == BeginTick(old(State())) && tm == Tick(State())
    {
      tm := curTime;
      curTime := Word(curTime + 1);
      WordIncrement(clock);
      phase := if Word(clock) % SECTION1_NUM == 0 then Cascading(0) else Splicing;
      clock := clock + 1;
    }

    /** The && chain of Update: each level is cascaded when the one before it has come round. */
    method Cascade(tm: nat)
      requires Valid() && Inv(State()) && phase == Cascading(0) && tm == Tick(State())
      modifies this, slots
      ensures Valid() && Inv(State()) && phase == Splicing && clock == old(clock) && tm == Tick(State())
      ensures births == old(births) && Pending(State()) == old(Pending(State()))
    {
      var carry := TickSection2(tm, 0);
      if carry {
        carry := TickSection2(tm, 1);
        if carry {
          carry := TickSection2(tm, 2);
          if carry {
            carry := TickSection2(tm, 3);
          }
        }
      }
    }
  }

  /** The nodes of the list being cascaded go to other lists. */
  lemma StayOut(w: Wheel, s: nat)
    requires Inv(w) && w.phase.Cascading? && s == TickSlot(w) && s < NUM_SLOTS
    ensures forall n :: n in w.slots[s] ==> n.timer in w.timers && SlotFor(Tick(w), w.timers[n.timer].tm) != s
  {
    TickIndex(w);
    forall n | n in w.slots[s] ensures n.timer in w.timers && SlotFor(Tick(w), w.timers[n.timer].tm) != s {
      CascadedTimerMoves(w, n.timer, s, SlotFor(Word(w.cur - 1), w.timers[n.timer].tm));
    }
  }

  lemma CascadeRefines(w: Wheel)
    requires Inv(w) && w.phase.Cascading?
    ensures TickReady(w) && Pending(TickSection2(w)) == Pending(w)
    ensures TickSection2(w).births == w.births && TickSection2(w).cur == w.cur
  {
    TickSection2KeepsInv(w, TickSlot(w));
    TickSection2Effect(w, TickSlot(w));
    SamePending(w, TickSection2(w));
  }

  lemma SamePendingThroughBegin(w: Wheel)
    requires Inv(w) && w.phase.Idle?
    ensures Pending(BeginTick(w)) == Pending(w)
  {
    assert forall t :: IsPending(BeginTick(w), t) == IsPending(w, t);
    SamePending(w, BeginTick(w));
  }

  /** Entry k of the log has exactly the timers, each once, whose deadline was `start + k`; what is
      left are the timers with other deadlines. */
  ghost predicate FiredInOrder(pending: map<nat, nat>, start: nat, log: seq<seq<Node>>, left: map<nat, nat>) {
    && (forall k, t :: 0 <= k < |log| ==> (t in TimersOf(log[k]) <==> t in pending && pending[t] == start + k))
    && (forall k, i, j :: 0 <= k < |log| && 0 <= i < j < |log[k]| ==> log[k][i].timer != log[k][j].timer)
    && (forall t :: t in left <==> t in pending && !(start <= pending[t] < start + |log|))
    && (forall t :: t in left ==> left[t] == pending[t])
  }

  lemma FiredNext(pending: map<nat, nat>, start: nat, log: seq<seq<Node>>, left: map<nat, nat>, list: seq<Node>)
    requires FiredInOrder(pending, start, log, left)
    requires forall t :: t in TimersOf(list) <==> t in left && left[t] == start + |log|
    requires forall i, j :: 0 <= i < j < |list| ==> list[i].timer != list[j].timer
    ensures FiredInOrder(pending, start, log + [list], left - TimersOf(list))
  {
  }

  lemma DeleteEffect(w: Wheel, t: nat)
    requires Inv(w) && t in w.timers
    ensures w.timers[t].slot.Some? ==> w.timers[t].slot.value < |w.slots| == NUM_SLOTS && t !in w.fired
    ensures Enabled(w, DoDeleteTimer(t)) && Inv(TimerWheel.DeleteTimer(w, t))
    ensures Pending(TimerWheel.DeleteTimer(w, t)) == Pending(w) - {t}
  {
    assert TimerOk(w, t) && FateOk(w, t);
    DeleteTimerKeepsInv(w, t);
    DeleteRefines(w, t);
  }

  lemma EndBatchRefines(w: Wheel)
    requires Inv(w) && w.phase.Firing?
    ensures Pending(TimerWheel.EndBatch(w)) == Pending(w)
    ensures TimerWheel.EndBatch(w).timers == w.timers - TimersOf(w.batch)
  {
    assert TimerWheel.EndBatch(w).timers == w.timers - TimersOf(w.batch);
    assert forall t :: IsPending(TimerWheel.EndBatch(w), t) == IsPending(w, t);
    SamePending(w, TimerWheel.EndBatch(w));
  }

  // What a splice leaves behind
  ghost predicate Detached(w: Wheel, w': Wheel) {
    && Pending(w') == Pending(w) - TimersOf(w'.batch)
    && (forall i, j :: 0 <= i < j < |w'.batch| ==> w'.batch[i].timer != w'.batch[j].timer)
    && (forall t :: t in TimersOf(w'.batch) ==> t in w'.fired && w'.fired[t] == w.cur - 1)
  }

  lemma DetachEffect(w: Wheel)
    requires Inv(w) && w.phase.Splicing?
    ensures w.cur > 0 && Detached(w, TimerWheel.Splice(w))
    ensures TimersOf(TimerWheel.Splice(w).batch) == DueAt(w, w.cur - 1)
  {
    SpliceRefines(w);
    SpliceFiresOnce(w);
    forall t | t in TimersOf(TimerWheel.Splice(w).batch)
      ensures t in TimerWheel.Splice(w).fired && TimerWheel.Splice(w).fired[t] == w.cur - 1
    {
      SpliceFires(w, t);
    }
  }

  /** When nothing is added between the clock's advance and the splice, due means at the deadline. */
  lemma NoEarlyTimers(w: Wheel, w1: Wheel)
    requires Inv(w) && w.phase.Idle? && Inv(w1) && w1.cur == w.cur + 1 && w1.births == w.births
    requires Pending(w1) == Pending(w)
    ensures forall t :: t in DueAt(w1, w.cur) <==> t in Pending(w) && Pending(w)[t] == w.cur
  {
    forall t | t in Pending(w) ensures DueTick(w.births[t]) == w.births[t].deadline && t in Pending(w1) {
      assert TimerOk(w, t);
    }
    forall t | t in DueAt(w1, w.cur) ensures t in Pending(w) && Pending(w)[t] == w.cur { assert t in Pending(w1); }
    forall t | t in Pending(w) && Pending(w)[t] == w.cur ensures t in DueAt(w1, w.cur) { assert t in Pending(w1); }
  }
}
