/** The growable ring of CircularBuffer.h: a FIFO sequence over raw storage, addressed by
    free-running 64-bit positions under a mask. */
module CircularBuffers {
  import opened Bits

  // One slot of aligned storage: no object there, a constructed one, or one that has been moved from
  datatype Cell<+T> = Raw | Live(value: T) | MovedFrom

  const MAX_CAPACITY: nat := 0x8000_0000_0000_0000

  // ---------------------------------------------------------------- arithmetic

  lemma Regroup(c: nat, m: nat, q: nat, s: nat)
    ensures (c * m) * q + c * s == c * (m * q + s)
  {
  }

  lemma FactorMod(x: nat, c: nat, m: nat)
    requires c > 0 && c * m > 0
    ensures (x % (c * m)) % c == x % c
  {
    var q, r := x / (c * m), x % (c * m);
    var s, t := r / c, r % c;
    Regroup(c, m, q, s);
    DivUnique(x, c, m * q + s, t);
  }

  /** Wrapping at 2^64 does not disturb the remainder by a smaller power of two. */
  lemma WrapKeepsMod(x: nat, n: nat)
    requires n <= 64
    ensures (x % WORD64) % Pow2(n) == x % Pow2(n)
  {
    Pow2Values();
    Pow2Add(n, 64 - n);
    FactorMod(x, Pow2(n), Pow2(64 - n));
  }

  // The slot i places behind slot `head`, going round
  function Slot(head: nat, i: nat, capacity: nat): nat {
    if head + i < capacity then head + i else head + i - capacity
  }

  lemma NextMultiple(c: nat, q: nat)
    ensures c * (q + 1) == c * q + c
  {
  }

  /** Masked positions go round the slots. */
  lemma ModIsSlot(begin: nat, i: nat, c: nat)
    requires c > 0 && i <= c
    ensures (begin + i) % c == Slot(begin % c, i, c)
  {
    var q, r := begin / c, begin % c;
    NextMultiple(c, q);
    GoRound(begin, i, c, q, r, c * q);
  }

  lemma GoRound(begin: nat, i: nat, c: nat, q: nat, r: nat, p: nat)
    requires c > 0 && i <= c && r < c
    requires p == c * q && c * (q + 1) == p + c && begin == p + r
    ensures (begin + i) % c == Slot(r, i, c)
  {
    if r + i < c {
      DivUnique(begin + i, c, q, r + i);
    } else {
      DivUnique(begin + i, c, q + 1, r + i - c);
    }
  }

  lemma ZeroMod(c: nat)
    requires c > 0
    ensures 0 % c == 0
  {
  }

  function NextSlot(head: nat, capacity: nat): nat {
    if head + 1 == capacity then 0 else head + 1
  }

  function Step(p: nat): nat {
    (p + 1) % WORD64
  }

  lemma PositionSlot(begin: nat, i: nat, n: nat)
    requires n <= 63 && i < Pow2(n)
    ensures ((begin + i) % WORD64) % Pow2(n) == Slot(begin % Pow2(n), i, Pow2(n))
  {
    WrapKeepsMod(begin + i, n);
    ModIsSlot(begin, i, Pow2(n));
  }

  lemma StepSlot(begin: nat, n: nat)
    requires n <= 63
    ensures Step(begin) % Pow2(n) == NextSlot(begin % Pow2(n), Pow2(n))
  {
    WrapKeepsMod(begin + 1, n);
    ModIsSlot(begin, 1, Pow2(n));
  }

  lemma BackPosition(begin: nat, size: nat)
    requires size > 0
    ensures ((begin + size) % WORD64 + WORD64 - 1) % WORD64 == (begin + (size - 1)) % WORD64
  {
  }

  // ---------------------------------------------------------------- rings of cells

  // How far behind slot `head` slot j lies
  function Behind(head: nat, j: nat, capacity: nat): nat
    requires head < capacity
  {
    if j >= head then j - head else j + capacity - head
  }

  function Expected<T>(contents: seq<T>, head: nat, capacity: nat, j: nat): Cell<T>
    requires head < capacity
  {
    var i := Behind(head, j, capacity);
    if i < |contents| then Live(contents[i]) else Raw
  }

  /** The cells hold the contents in order from slot `head` on, and nothing else. */
  predicate Ring<T(==)>(cells: seq<Cell<T>>, head: nat, contents: seq<T>) {
    && head < |cells| && |contents| <= |cells|
    && forall j :: 0 <= j < |cells| ==> cells[j] == Expected(contents, head, |cells|, j)
  }

  lemma RingAt<T>(cells: seq<Cell<T>>, head: nat, contents: seq<T>, i: nat)
    requires Ring(cells, head, contents) && i < |cells|
    ensures Slot(head, i, |cells|) < |cells|
    ensures cells[Slot(head, i, |cells|)] == if i < |contents| then Live(contents[i]) else Raw
  {
    assert Behind(head, Slot(head, i, |cells|), |cells|) == i;
  }

  lemma RingPush<T>(cells: seq<Cell<T>>, head: nat, contents: seq<T>, x: T)
    requires Ring(cells, head, contents) && |contents| < |cells|
    ensures Slot(head, |contents|, |cells|) < |cells|
    ensures Ring(cells[Slot(head, |contents|, |cells|) := Live(x)], head, contents + [x])
  {
    var cells' := cells[Slot(head, |contents|, |cells|) := Live(x)];
    forall j | 0 <= j < |cells'| ensures cells'[j] == Expected(contents + [x], head, |cells'|, j) {
      assert cells[j] == Expected(contents, head, |cells|, j);
    }
  }

  lemma RingPop<T>(cells: seq<Cell<T>>, head: nat, contents: seq<T>)
    requires Ring(cells, head, contents) && contents != []
    ensures cells[head] == Live(contents[0])
    ensures Ring(cells[head := Raw], NextSlot(head, |cells|), contents[1..])
  {
    RingAt(cells, head, contents, 0);
    var cells' := cells[head := Raw];
    forall j | 0 <= j < |cells'| ensures cells'[j] == Expected(contents[1..], NextSlot(head, |cells|), |cells'|, j) {
      assert cells[j] == Expected(contents, head, |cells|, j);
    }
  }

  lemma RingOfNone<T>(cells: seq<Cell<T>>, head: nat, head': nat)
    requires Ring(cells, head, []) && head' < |cells|
    ensures Ring(cells, head', [])
    ensures forall j :: 0 <= j < |cells| ==> cells[j] == Raw
  {
    forall j | 0 <= j < |cells| ensures cells[j] == Raw {
      assert cells[j] == Expected<T>([], head, |cells|, j);
    }
  }

  lemma RingOfRaw<T>(cells: seq<Cell<T>>)
    requires cells != [] && forall j :: 0 <= j < |cells| ==> cells[j] == Raw
    ensures Ring(cells, 0, [])
  {
    forall j | 0 <= j < |cells| ensures cells[j] == Expected<T>([], 0, |cells|, j) {
      assert Expected<T>([], 0, |cells|, j) == Raw;
    }
  }

  lemma EmptyRing<T>(cells: seq<Cell<T>>)
    requires cells != [] && forall j :: 0 <= j < |cells| ==> cells[j] == Raw
    ensures Ring(cells, 0 % |cells|, [])
  {
    RingOfRaw(cells);
    ZeroMod(|cells|);
  }

  method RoundUp(cap: nat) returns (c: nat, ghost n: nat)
    requires 0 < cap <= MAX_CAPACITY
    ensures IsLeastPow2(c, cap) && 0 < c == Pow2(n) && n <= 63
  {
    Pow2Values();
    c := PowOfTwo(cap);
    n := PowOfTwoValue(cap);
    PowOfTwoIsLeast(cap);
  }

  class CircularBuffer<T(==)> {
    var size: nat
    var capacity: nat
    var begin: nat
    var end: nat
    var vector: array<Cell<T>>

    ghost var contents: seq<T>
    ghost var bits: nat // log2 of the capacity

    ghost predicate Valid()
      reads this, vector
    {
      && bits <= 63 && capacity == Pow2(bits) == vector.Length
      && begin < WORD64 && end == (begin + size) % WORD64 && size == |contents|
      && Ring(vector[..], begin % capacity, contents)
    }

    constructor (cap: nat)
      requires 0 < cap <= MAX_CAPACITY
      ensures Valid() && fresh(vector) && contents == [] && IsLeastPow2(capacity, cap)
    {
      var c, n := RoundUp(cap);
      size, capacity, begin, end, contents, bits := 0, c, 0, 0, [], n;
      vector := new Cell<T>[c](_ => Raw);
      new;
      EmptyRing(vector[..]);
    }

    method GetIndex(p: nat) returns (i: nat)
      requires capacity == Pow2(bits)
      ensures i == p % capacity
    {
      MaskAndShift(p, bits);
      i := And(p, capacity - 1);
    }

    method Front() returns (x: T)
      requires Valid() && contents != []
      ensures x == contents[0]
    {
      var i := GetIndex(begin);
      RingAt(vector[..], i, contents, 0);
      x := vector[i].value;
    }

    method Back() returns (x: T)
      requires Valid() && contents != []
      ensures x == contents[|contents| - 1]
    {
      var i := GetIndex((end + WORD64 - 1) % WORD64);
      BackPosition(begin, size);
      PositionSlot(begin, size - 1, bits);
      RingAt(vector[..], begin % capacity, contents, size - 1);
      x := vector[i].value;
    }

    /** Constructs x in the raw slot behind the last element. */
    method Append(x: T)
      requires Valid() && size < capacity
      modifies this, vector
      ensures Valid() && contents == old(contents) + [x]
      ensures capacity == old(capacity) && vector == old(vector)
    {
      var i := GetIndex(end);
      PositionSlot(begin, size, bits);
      RingAt(vector[..], begin % capacity, contents, size);
      assert vector[i] == Raw;
      RingPush(vector[..], begin % capacity, contents, x);
      vector[i] := Live(x);
      assert vector[..] == old(vector[..])[i := Live(x)];
      StepWraps(begin + size);
      end := Step(end);
      size := size + 1;
      contents := contents + [x];
    }

    /** The storage doubles when it is full; 2^63 elements are the most that 64 bits allow. */
    method PushBack(x: T)
      requires Valid() && size < MAX_CAPACITY
      modifies this, vector
      ensures Valid() && contents == old(contents) + [x]
      ensures capacity == if old(size) == old(capacity) then 2 * old(capacity) else old(capacity)
      ensures vector == old(vector) || fresh(vector)
    {
      if size == capacity {
        Pow2Values();
        assert bits < 63;
        Grow(capacity * 2);
      }
      Append(x);
    }

    method PopFront()
      requires Valid() && contents != []
      modifies this, vector
      ensures Valid() && contents == old(contents)[1..]
      ensures capacity == old(capacity) && vector == old(vector)
      ensures begin == Step(old(begin))
    {
      var i := GetIndex(begin);
      RingPop(vector[..], i, contents);
      vector[i] := Raw;
      assert vector[..] == old(vector[..])[i := Raw];
      StepSlot(begin, bits);
      PopEnd(begin, size);
      begin := Step(begin);
      size := size - 1;
      contents := contents[1..];
    }

    /** Destroys every element, leaving only raw storage behind. */
    method Clear()
      requires Valid()
      modifies this, vector
      ensures Valid() && contents == [] && begin == end == 0
      ensures AllRaw(vector[..])
      ensures capacity == old(capacity) && vector == old(vector)
    {
      var first: nat := begin;
      while size > 0
        invariant bits == old(bits) && capacity == old(capacity) == Pow2(bits) && vector == old(vector)
        invariant |contents| == size && Ring(vector[..], first % capacity, contents)
        decreases size
      {
        var i := GetIndex(first);
        ghost var cells := vector[..];
        RingPop(cells, i, contents);
        vector[i] := Raw;
        assert vector[..] == cells[i := Raw];
        StepSlot(first, bits);
        first, size := Step(first), size - 1;
        contents := contents[1..];
      }
      RingOfNone(vector[..], first % capacity, 0);
      ZeroMod(capacity);
      begin, end := 0, 0;
    }

    /** Moves the elements, in order and from any wrapped position, to the front of new storage.  The
        old storage is released as it is: its moved-from objects have not been destroyed. */
    method Grow(newCap: nat)
      requires Valid() && newCap == 2 * capacity && bits < 63
      modifies this, vector
      ensures Valid() && contents == old(contents) && fresh(vector)
      ensures capacity == newCap
      ensures forall j :: 0 <= j < old(vector).Length ==>
        old(vector)[j] == if old(vector[j]).Live? then MovedFrom else Raw
      ensures contents != [] ==> !AllRaw(old(vector)[..])
    {
      var newVector := new Cell<T>[newCap](_ => Raw);
      ghost var cells, head := vector[..], begin % capacity;
      MoveTo(newVector);
      MovedCells(cells, vector[..], head, contents);
      vector := newVector;
      begin := 0;
      end := (begin + size) % WORD64;
      capacity := newCap;
      bits := bits + 1;
      ZeroMod(newCap);
    }

    /** The copying loop of Grow, which walks `begin` over the elements. */
    method MoveTo(newVector: array<Cell<T>>)
      requires Valid() && newVector != vector && newVector.Length >= size
      requires forall j :: 0 <= j < newVector.Length ==> newVector[j] == Raw
      modifies this`begin, newVector, vector
      ensures forall j :: 0 <= j < newVector.Length ==> newVector[j] == if j < size then Live(contents[j]) else Raw
      ensures Moved(old(vector[..]), vector[..], old(begin % capacity), size)
    {
      ghost var head := begin % capacity;
      ghost var cells := vector[..];
      ghost var at := head;
      var i := 0;
      while i < size
        invariant 0 <= i <= size
        invariant Moved(cells, vector[..], head, i)
        invariant begin % capacity == at < capacity && (i < capacity ==> at == Slot(head, i, capacity))
        invariant forall j :: 0 <= j < newVector.Length ==> newVector[j] == if j < i then Live(contents[j]) else Raw
      {
        var k := GetIndex(begin);
        RingAt(cells, head, contents, i);
        MovedNext(cells, vector[..], head, i);
        newVector[i] := vector[k];
        ghost var before := vector[..];
        vector[k] := MovedFrom;
        assert vector[..] == before[k := MovedFrom];
        StepSlot(begin, bits);
        i, begin := i + 1, Step(begin);
        at := NextSlot(at, capacity);
      }
    }
  }

  // The first i elements from slot `head` on have been moved from, and the other cells are as they were
  predicate Moved<T(==)>(cells: seq<Cell<T>>, cells': seq<Cell<T>>, head: nat, i: nat) {
    && |cells'| == |cells| && head < |cells|
    && forall j :: 0 <= j < |cells'| ==> cells'[j] == if Behind(head, j, |cells|) < i then MovedFrom else cells[j]
  }

  predicate AllRaw<T>(cells: seq<Cell<T>>) {
    forall j :: 0 <= j < |cells| ==> cells[j].Raw?
  }

  lemma MovedNext<T>(cells: seq<Cell<T>>, cells': seq<Cell<T>>, head: nat, i: nat)
    requires Moved(cells, cells', head, i) && i < |cells|
    ensures Slot(head, i, |cells|) < |cells| && cells'[Slot(head, i, |cells|)] == cells[Slot(head, i, |cells|)]
    ensures Moved(cells, cells'[Slot(head, i, |cells|) := MovedFrom], head, i + 1)
  {
    assert Behind(head, Slot(head, i, |cells|), |cells|) == i;
  }

  lemma MovedCells<T>(cells: seq<Cell<T>>, cells': seq<Cell<T>>, head: nat, contents: seq<T>)
    requires Ring(cells, head, contents) && Moved(cells, cells', head, |contents|)
    ensures forall j :: 0 <= j < |cells| ==> cells'[j] == if cells[j].Live? then MovedFrom else Raw
    ensures contents != [] ==> !AllRaw(cells')
  {
    forall j | 0 <= j < |cells| ensures cells'[j] == if cells[j].Live? then MovedFrom else Raw {
      assert cells[j] == Expected(contents, head, |cells|, j);
    }
    if contents != [] {
      RingAt(cells, head, contents, 0);
      assert cells'[head] == MovedFrom;
    }
  }

  lemma StepWraps(x: nat)
    ensures Step(x % WORD64) == (x + 1) % WORD64
  {
  }

  lemma PopEnd(begin: nat, size: nat)
    requires size > 0
    ensures (begin + size) % WORD64 == (Step(begin) + (size - 1)) % WORD64
  {
  }
}
