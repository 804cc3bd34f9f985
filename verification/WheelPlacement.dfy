/** The arithmetic of the timing wheel: which slot a deadline belongs to at which clock. */
module WheelPlacement {
  import opened TimerWheel
  import Bits

  function CeilDiv(x: nat, k: nat): nat
    requires k < 4
  {
    (x + Unit(k) - 1) / Unit(k)
  }

  /** Level k of the tick in progress has still to be cascaded. */
  predicate CascadePending(phase: Phase, k: nat) {
    phase.Cascading? && phase.k <= k
  }

  // The first tick whose splice is still to come, and the first whose cascade of level k is
  function SpliceFrom(cur: nat, phase: Phase): nat {
    if (phase.Cascading? || phase.Splicing?) && cur > 0 then cur - 1 else cur
  }

  function CascadeFrom(cur: nat, phase: Phase, k: nat): nat {
    if CascadePending(phase, k) && cur > 0 then cur - 1 else cur
  }

  /** The slot for deadline d seen from time c, on true times. */
  function TrueSlot(c: nat, d: nat): nat
    requires c <= d
  {
    SlotAt(d - c, d)
  }

  lemma MultipleVanishes(x: nat, q: nat)
    ensures (x + 64 * q) % 64 == x % 64
  {
  }

  lemma Section2IndexWord(d: nat, k: nat)
    requires k < 4
    ensures Section2Index(Word(d), k) == Section2Index(d, k)
  {
    var q, r := d / WORD, Word(d);
    var m := if k == 0 then 0x100_0000 else if k == 1 then 0x4_0000 else if k == 2 then 0x1000 else 0x40;
    UnitSplit(d, k, m, q, r);
    var turns := if k == 0 then 0x4_0000 else if k == 1 then 0x1000 else if k == 2 then 0x40 else 1;
    MultipleVanishes(r / Unit(k), turns * q);
  }

  // A word is m units of level k
  lemma UnitSplit(d: nat, k: nat, m: nat, q: nat, r: nat)
    requires k < 4 && d == WORD * q + r
    requires m == if k == 0 then 0x100_0000 else if k == 1 then 0x4_0000 else if k == 2 then 0x1000 else 0x40
    ensures d / Unit(k) == r / Unit(k) + m * q
  {
    var u := Unit(k);
    if k == 0 {
      Bits.DivUnique(d, u, r / u + 0x100_0000 * q, r % u);
    } else if k == 1 {
      Bits.DivUnique(d, u, r / u + 0x4_0000 * q, r % u);
    } else if k == 2 {
      Bits.DivUnique(d, u, r / u + 0x1000 * q, r % u);
    } else {
      Bits.DivUnique(d, u, r / u + 0x40 * q, r % u);
    }
  }

  lemma Sub32Exact(c: nat, d: nat)
    requires c <= d < c + WORD
    ensures Sub32(Word(d), Word(c)) == d - c
  {
  }

  lemma WordKeepsLowByte(c: nat)
    ensures Word(c) % SECTION1_NUM == c % SECTION1_NUM
  {
    var q, r := c / WORD, Word(c);
    assert c == WORD * q + r;
    Bits.DivUnique(c, SECTION1_NUM, 0x100_0000 * q + r / SECTION1_NUM, r % SECTION1_NUM);
  }

  lemma SlotAtWord(dx: nat, d: nat)
    ensures SlotAt(dx, Word(d)) == SlotAt(dx, d)
  {
    WordKeepsLowByte(d);
    Section2IndexWord(d, 0);
    Section2IndexWord(d, 1);
    Section2IndexWord(d, 2);
    Section2IndexWord(d, 3);
  }

  /** DoAdd's 32-bit arithmetic finds the true slot, whether or not the clock has wrapped. */
  lemma SlotForIsTrueSlot(c: nat, d: nat)
    requires c <= d < c + WORD
    ensures SlotFor(Word(c), Word(d)) == TrueSlot(c, d)
  {
    Sub32Exact(c, d);
    SlotAtWord(d - c, d);
  }

  /** The debug assertion of DoAdd, that the deadline is not below the clock, holds exactly if the sum
      does not wrap. */
  lemma AssertHoldsUnlessWrapped(c: nat, k: nat)
    requires 0 < k < WORD
    ensures Word(Word(c) + k) >= Word(c) <==> Word(c) + k < WORD
  {
    if Word(c) + k >= WORD { Bits.DivUnique(Word(c) + k, WORD, 1, Word(c) + k - WORD); }
  }

  // The level of section 2 that slot s belongs to
  function Level(s: nat): nat
    requires SECTION1_NUM <= s < NUM_SLOTS
    ensures Level(s) < 4
  {
    (s - SECTION1_NUM) / SECTION2_NUM
  }

  /** Added between the clock's advance and the splice with a timeout of exactly 255 ticks. */
  predicate Early(b: Birth) {
    b.inWindow && b.deadline == b.added + 255
  }

  /** The tick at which the wheel fires a timer. */
  function DueTick(b: Birth): nat {
    if Early(b) && b.added > 0 then b.added - 1 else b.deadline
  }

  /** Slot s is right for a pending timer: it will be spliced at its due tick, or cascaded before. */
  predicate Placed(cur: nat, phase: Phase, b: Birth, s: nat) {
    && s < NUM_SLOTS
    && b.added <= cur && b.deadline <= b.added + WORD / PERIOD
    && (if s < SECTION1_NUM then
          && s == b.deadline % SECTION1_NUM
          && SpliceFrom(cur, phase) <= b.deadline <= cur + 255
          && (b.deadline == cur + 255 ==> b.added == cur && (phase.Cascading? || phase.Splicing? ==> b.inWindow))
        else
          var k := Level(s);
          && s == Section2Slot(b.deadline, k)
          && CeilDiv(CascadeFrom(cur, phase, k), k) <= b.deadline / Unit(k) <= CeilDiv(cur, k) + 63)
    && (Early(b) ==> s < SECTION1_NUM && (phase.Cascading? || phase.Splicing?) && b.added == cur)
  }

  lemma UnitFloor(c: nat, d: nat, k: nat)
    requires k < 4 && CeilDiv(c, k) <= d / Unit(k)
    ensures c <= d
  {
    if k == 0 {
    } else if k == 1 {
    } else if k == 2 {
    } else {
    }
  }

  lemma PlacedNotPast(cur: nat, phase: Phase, b: Birth, s: nat)
    requires Placed(cur, phase, b, s)
    ensures SpliceFrom(cur, phase) <= b.deadline < cur + WORD
  {
    if s >= SECTION1_NUM {
      UnitFloor(CascadeFrom(cur, phase, Level(s)), b.deadline, Level(s));
    }
  }

  /** A deadline between one and 64 units away lies within one turn of level k. */
  lemma TurnOf(c: nat, d: nat, k: nat)
    requires k < 4 && c + Unit(k) <= d < c + 64 * Unit(k)
    ensures CeilDiv(c, k) <= d / Unit(k) <= CeilDiv(c, k) + 63
  {
    if k == 0 {
    } else if k == 1 {
    } else if k == 2 {
    } else {
    }
  }

  lemma CeilMonotone(c: nat, k: nat)
    requires k < 4 && c > 0
    ensures CeilDiv(c - 1, k) <= CeilDiv(c, k)
  {
  }

  lemma LevelOf(t: nat, k: nat)
    requires k < 4
    ensures SECTION1_NUM <= Section2Slot(t, k) < NUM_SLOTS && Level(Section2Slot(t, k)) == k
  {
  }

  lemma NewTimerInSection2(cur: nat, phase: Phase, b: Birth, k: nat)
    requires b.added == cur && cur < b.deadline <= cur + WORD / PERIOD && !Early(b)
    requires k < 4 && cur + Unit(k) <= b.deadline < cur + 64 * Unit(k)
    ensures Placed(cur, phase, b, Section2Slot(b.deadline, k))
  {
    TurnOf(cur, b.deadline, k);
    LevelOf(b.deadline, k);
    if cur > 0 { CeilMonotone(cur, k); }
  }

  lemma NewTimerPlaced(cur: nat, phase: Phase, b: Birth)
    requires b.added == cur && cur < b.deadline <= cur + WORD / PERIOD
    requires b.inWindow <==> phase.Cascading? || phase.Splicing?
    ensures Placed(cur, phase, b, TrueSlot(cur, b.deadline))
  {
    var dx := b.deadline - cur;
    if dx >= 0x100 {
      NewTimerInSection2(cur, phase, b,
        if dx < 0x4000 then 0 else if dx < 0x10_0000 then 1 else if dx < 0x400_0000 then 2 else 3);
    }
  }

  // ---------------------------------------------------------------- steps

  lemma CeilStep(c: nat, k: nat)
    requires k < 4
    ensures c % Unit(k) != 0 ==> CeilDiv(c + 1, k) == CeilDiv(c, k) == c / Unit(k) + 1
    ensures c % Unit(k) == 0 ==> CeilDiv(c, k) == c / Unit(k) && CeilDiv(c + 1, k) == c / Unit(k) + 1
  {
  }

  /** Level k is cascaded at ticks that are multiples of its unit. */
  predicate Due(c: nat, k: nat)
    requires k < 4
  {
    c % Unit(k) == 0
  }

  lemma DueStep(c: nat, k: nat)
    requires 0 < k < 4 && Due(c, k)
    ensures Due(c, k - 1)
  {
    if k == 1 {
      Bits.DivUnique(c, 0x100, 64 * (c / 0x4000), 0);
    } else if k == 2 {
      Bits.DivUnique(c, 0x4000, 64 * (c / 0x10_0000), 0);
    } else {
      Bits.DivUnique(c, 0x10_0000, 64 * (c / 0x400_0000), 0);
    }
  }

  lemma {:induction false} DueDown(c: nat, k: nat, m: nat)
    requires k <= m < 4 && Due(c, m)
    ensures Due(c, k)
  {
    if k < m {
      DueStep(c, m);
      DueDown(c, k, m - 1);
    }
  }

  lemma OddTick(c: nat, k: nat)
    requires k < 4 && Word(c) % SECTION1_NUM != 0
    ensures !Due(c, k)
  {
    WordKeepsLowByte(c);
    if Due(c, k) { DueDown(c, 0, k); }
  }

  /** The clock's advance moves nobody's due tick into the past. */
  lemma BeginTickPlaced(cur: nat, b: Birth, s: nat)
    requires Placed(cur, Idle, b, s)
    ensures Placed(cur + 1, if Word(cur) % SECTION1_NUM == 0 then Cascading(0) else Splicing, b, s)
  {
    if s >= SECTION1_NUM {
      CeilStep(cur, Level(s));
      if Word(cur) % SECTION1_NUM != 0 { OddTick(cur, Level(s)); }
    }
  }

  lemma DueUp(c: nat, k: nat)
    requires k < 3 && Due(c, k)
    ensures Due(c, k + 1) <==> Section2Index(c, k) == 0
  {
    var q := c / Unit(k);
    assert c == q * Unit(k);
    assert q == 64 * (q / 64) + q % 64;
  }

  /** Distances in units of level k. */
  lemma UnitsApart(c: nat, d: nat, k: nat)
    requires k < 4 && c <= d
    ensures d - c >= Unit(k) ==> d / Unit(k) >= c / Unit(k) + 1
    ensures d - c < 64 * Unit(k) ==> d / Unit(k) <= c / Unit(k) + 64
    ensures d - c < 64 * Unit(k) && Due(c, k) ==> d / Unit(k) <= c / Unit(k) + 63
    ensures Due(c, k) && d / Unit(k) == c / Unit(k) ==> d - c < Unit(k)
    ensures Due(c, k) && d / Unit(k) == c / Unit(k) + 64 ==> d - c >= 64 * Unit(k)
  {
  }

  lemma SameIndex(x: nat, y: nat)
    requires y <= x <= y + 64 && x % 64 == y % 64
    ensures x == y || x == y + 64
  {
  }

  /** A timer in the slot being cascaded is less than one unit away, or a whole turn away. */
  lemma CascadedTimer(c: nat, k: nat, b: Birth)
    requires k < 4 && Due(c, k)
    requires Placed(c + 1, Cascading(k), b, Section2Slot(c, k))
    ensures c <= b.deadline < c + WORD
    ensures b.deadline - c < Unit(k) || (64 * Unit(k) <= b.deadline - c && k < 3)
  {
    var s := Section2Slot(c, k);
    assert Level(s) == k;
    CeilStep(c, k);
    var x, y := b.deadline / Unit(k), c / Unit(k);
    assert y <= x <= y + 64;
    SameIndex(x, y);
    UnitsApart(c, b.deadline, k);
  }

  /** A timer at least one unit and less than a turn away is not in the slot that is now due. */
  lemma NotDueSlot(c: nat, d: nat, j: nat)
    requires j < 4 && Due(c, j) && Unit(j) <= d - c < 64 * Unit(j)
    ensures Section2Index(d, j) != Section2Index(c, j)
  {
    UnitsApart(c, d, j);
    var x, y := d / Unit(j), c / Unit(j);
    assert y < x <= y + 63;
  }

  // The level whose span covers a distance of a whole section 1 or more
  function LevelFor(dx: nat): (j: nat)
    requires 0x100 <= dx < WORD
    ensures j < 4 && Unit(j) <= dx < 64 * Unit(j)
    ensures forall d :: SlotAt(dx, d) == Section2Slot(d, j)
  {
    if dx < 0x4000 then 0 else if dx < 0x10_0000 then 1 else if dx < 0x400_0000 then 2 else 3
  }

  /** Seen from tick c, any deadline gets a place that is right once c is done. */
  lemma AddedPlaced(c: nat, phase: Phase, b: Birth)
    requires phase.Cascading? || phase.Splicing?
    requires c <= b.deadline < c + WORD && !Early(b) && b.added <= c + 1 && b.deadline <= b.added + WORD / PERIOD
    ensures Placed(c + 1, phase, b, TrueSlot(c, b.deadline))
  {
    var dx := b.deadline - c;
    if dx >= 0x100 {
      var j := LevelFor(dx);
      UnitsApart(c, b.deadline, j);
      CeilStep(c, j);
      assert Level(Section2Slot(b.deadline, j)) == j;
    }
  }

  /** Cascade safety: the timers of the slot being cascaded are placed anew, and never into a slot
      that this tick cascades, be it this one, an earlier one or a later one. */
  lemma CascadeMoves(c: nat, k: nat, b: Birth)
    requires k < 4 && Due(c, k)
    requires Placed(c + 1, Cascading(k), b, Section2Slot(c, k))
    ensures c <= b.deadline < c + WORD
    ensures Placed(c + 1, AfterCascade(c, k), b, TrueSlot(c, b.deadline))
    ensures forall j :: 0 <= j < 4 && Due(c, j) ==> TrueSlot(c, b.deadline) != Section2Slot(c, j)
  {
    CascadedTimer(c, k, b);
    AddedPlaced(c, AfterCascade(c, k), b);
    var dx := b.deadline - c;
    if dx >= 0x100 {
      var i := LevelFor(dx);
      forall j | 0 <= j < 4 && Due(c, j) ensures TrueSlot(c, b.deadline) != Section2Slot(c, j) {
        if j == i { NotDueSlot(c, b.deadline, j); }
        assert Level(Section2Slot(b.deadline, i)) == i && Level(Section2Slot(c, j)) == j;
      }
    }
  }

  /** A timer in another slot stays right. */
  lemma CascadeLeaves(c: nat, k: nat, b: Birth, s: nat)
    requires k < 4 && Due(c, k) && s != Section2Slot(c, k)
    requires Placed(c + 1, Cascading(k), b, s)
    ensures Placed(c + 1, AfterCascade(c, k), b, s)
  {
    if s >= SECTION1_NUM {
      var m := Level(s);
      CeilStep(c, m);
      if m == k {
        assert b.deadline / Unit(k) != c / Unit(k);
      } else if m > k && AfterCascade(c, k) == Splicing {
        if Due(c, m) {
          DueDown(c, k + 1, m);
          DueUp(c, k);
        }
      }
    }
  }

  lemma SpliceSection1(c: nat, b: Birth, s: nat)
    requires Placed(c + 1, Splicing, b, s) && s < SECTION1_NUM
    ensures s == c % SECTION1_NUM <==> DueTick(b) == c
    ensures DueTick(b) >= c
    ensures s != c % SECTION1_NUM ==> Placed(c + 1, Firing, b, s)
  {
    var d := b.deadline;
    assert c <= d <= c + 256;
    if d == c + 256 {
      assert Early(b);
    } else {
      assert !Early(b);
      assert d % 256 == c % 256 <==> d == c;
    }
  }

  lemma LaterUnit(c: nat, d: nat, k: nat)
    requires k < 4 && c / Unit(k) < d / Unit(k)
    ensures c < d
  {
  }

  lemma SpliceSection2(c: nat, b: Birth, s: nat)
    requires Placed(c + 1, Splicing, b, s) && s >= SECTION1_NUM
    ensures DueTick(b) > c
    ensures Placed(c + 1, Firing, b, s)
  {
    var k := Level(s);
    CeilStep(c, k);
    LaterUnit(c, b.deadline, k);
  }

  /** The slot spliced at tick c has exactly the pending timers due at c. */
  lemma SpliceExact(c: nat, b: Birth, s: nat)
    requires Placed(c + 1, Splicing, b, s)
    ensures s == c % SECTION1_NUM <==> DueTick(b) == c
    ensures DueTick(b) >= c
    ensures s != c % SECTION1_NUM ==> Placed(c + 1, Firing, b, s)
  {
    if s < SECTION1_NUM { SpliceSection1(c, b, s); } else { SpliceSection2(c, b, s); }
  }

  lemma EndBatchPlaced(cur: nat, b: Birth, s: nat)
    requires Placed(cur, Firing, b, s)
    ensures Placed(cur, Idle, b, s)
  {
  }
}
