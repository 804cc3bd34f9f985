/** The hierarchical timing wheel: one wheel of 256 slots and four of 64, as a transition system
    whose atomic steps are the sections the timer mutex guards, plus the clock's fetch_add. */
module TimerWheel {
  import opened Options

  const SECTION1_NUM: nat := 256
  const SECTION2_NUM: nat := 64
  const NUM_SLOTS: nat := 512
  const WORD: nat := 0x1_0000_0000
  const PERIOD: nat := 10

  // A list node; its identity is what an iterator to it designates
  datatype Node = Node(id: nat, timer: nat)

  /** TimerSlot.  `tm` is the 32-bit deadline; `slot` and `pos` lead back to the node. */
  datatype Timer = Timer(tm: nat, slot: Option<nat>, pos: nat)

  /** Where Update is: between ticks, about to cascade level k, about to splice, running callbacks.
      Outside Idle the clock is already one past the tick in progress. */
  datatype Phase = Idle | Cascading(k: nat) | Splicing | Firing

  // History of a timer: the clock it was added at, its deadline, and whether Update was
  // between advancing the clock and splicing at the time
  datatype Birth = Birth(added: nat, deadline: nat, inWindow: bool)

  /** `cur` is the number of ticks begun; the code keeps it modulo 2^32.
      Slots 0..255 are section 1, and 256 + 64 * k + i is slot i of level k of section 2. */
  datatype Wheel = Wheel(
    cur: nat,
    phase: Phase,
    slots: seq<seq<Node>>,
    timers: map<nat, Timer>,
    nextNode: nat,
    batch: seq<Node>,
    births: map<nat, Birth>,
    fired: map<nat, nat>,
    deleted: set<nat>)

  // ---------------------------------------------------------------- 32-bit arithmetic

  function Word(x: nat): nat {
    x % WORD
  }

  function Sub32(a: nat, b: nat): nat {
    (a - b) % WORD
  }

  /** The width of one slot of level k, in ticks. */
  function Unit(k: nat): nat
    requires k < 4
  {
    if k == 0 then 0x100 else if k == 1 then 0x4000 else if k == 2 then 0x10_0000 else 0x400_0000
  }

  function Section2Index(t: nat, k: nat): nat
    requires k < 4
  {
    t / Unit(k) % SECTION2_NUM
  }

  function Section2Slot(t: nat, k: nat): nat
    requires k < 4
  {
    SECTION1_NUM + SECTION2_NUM * k + Section2Index(t, k)
  }

  /** The slot DoAdd chooses for a time dx ticks away. */
  function SlotAt(dx: nat, t: nat): nat {
    if dx < 0x100 then t % SECTION1_NUM
    else if dx < 0x4000 then Section2Slot(t, 0)
    else if dx < 0x10_0000 then Section2Slot(t, 1)
    else if dx < 0x400_0000 then Section2Slot(t, 2)
    else Section2Slot(t, 3)
  }

  function SlotFor(curtime: nat, tm: nat): (s: nat)
    ensures s < NUM_SLOTS
  {
    SlotAt(Sub32(tm, curtime), tm)
  }

  // Milliseconds to ticks, in 32-bit arithmetic
  function Ticks(ms: nat): nat {
    Word(ms + PERIOD / 2) / PERIOD
  }

  // ---------------------------------------------------------------- operations

  /** AddSection1 and AddSection2: a new node at the back of slot s, and back-pointers to it. */
  function PushBack(w: Wheel, s: nat, t: nat): Wheel
    requires s < |w.slots| && t in w.timers
  {
    w.(slots := w.slots[s := w.slots[s] + [Node(w.nextNode, t)]],
       timers := w.timers[t := w.timers[t].(slot := Some(s), pos := w.nextNode)],
       nextNode := w.nextNode + 1)
  }

  function DoAdd(w: Wheel, curtime: nat, t: nat): Wheel
    requires |w.slots| == NUM_SLOTS && t in w.timers
  {
    PushBack(w, SlotFor(curtime, w.timers[t].tm), t)
  }

  predicate InWindow(w: Wheel) {
    w.phase.Cascading? || w.phase.Splicing?
  }

  /** AddTimer; a timeout that rounds to no ticks runs its callback inline and leaves the wheel alone. */
  function AddTimer(w: Wheel, t: nat, ms: nat): Wheel
    requires |w.slots| == NUM_SLOTS
  {
    var timeout := Ticks(ms);
    if timeout == 0 then w
    else
      var tm := Word(Word(w.cur) + timeout);
      DoAdd(w.(timers := w.timers[t := Timer(tm, None, 0)],
               births := w.births[t := Birth(w.cur, w.cur + timeout, InWindow(w))]),
            Word(w.cur), t)
  }

  function Erase(l: seq<Node>, id: nat): seq<Node> {
    if l == [] then [] else if l[0].id == id then l[1..] else [l[0]] + Erase(l[1..], id)
  }

  /** DeleteTimer on a timer that is still alive: it erases the node its back-pointers designate,
      and leaves alone one that has been spliced out. */
  function DeleteTimer(w: Wheel, t: nat): Wheel
    requires t in w.timers && (w.timers[t].slot.Some? ==> w.timers[t].slot.value < |w.slots|)
  {
    var timer := w.timers[t];
    if timer.slot.None? then w
    else
      w.(slots := w.slots[timer.slot.value := Erase(w.slots[timer.slot.value], timer.pos)],
         timers := w.timers - {t},
         deleted := w.deleted + {t})
  }

  /** fetch_add, and the test at the head of Update. */
  function BeginTick(w: Wheel): Wheel {
    w.(cur := w.cur + 1, phase := if Word(w.cur) % SECTION1_NUM == 0 then Cascading(0) else Splicing)
  }

  // The tick in progress, as the code sees it
  function Tick(w: Wheel): nat
    requires w.cur > 0
  {
    Word(w.cur - 1)
  }

  function AddAll(w: Wheel, curtime: nat, nodes: seq<Node>): Wheel
    requires |w.slots| == NUM_SLOTS && forall n :: n in nodes ==> n.timer in w.timers
    decreases nodes
  {
    if nodes == [] then w
    else AddAll(DoAdd(w, curtime, nodes[0].timer), curtime, nodes[1..])
  }

  function TickSlot(w: Wheel): nat
    requires w.cur > 0 && w.phase.Cascading? && w.phase.k < 4
  {
    Section2Slot(Tick(w), w.phase.k)
  }

  predicate TickReady(w: Wheel) {
    && w.cur > 0 && w.phase.Cascading? && w.phase.k < 4 && |w.slots| == NUM_SLOTS
    && forall n :: n in w.slots[TickSlot(w)] ==> n.timer in w.timers
  }

  // What Update does after cascading level k at time t
  function AfterCascade(t: nat, k: nat): Phase
    requires k < 4
  {
    if Section2Index(t, k) == 0 && k < 3 then Cascading(k + 1) else Splicing
  }

  /** TickSection2 and the choice of what Update does next. */
  function TickSection2(w: Wheel): Wheel
    requires TickReady(w)
  {
    AddAll(w.(slots := w.slots[TickSlot(w) := []]), Tick(w), w.slots[TickSlot(w)])
      .(phase := AfterCascade(Tick(w), w.phase.k))
  }

  ghost function TimersOf(nodes: seq<Node>): set<nat> {
    set n | n in nodes :: n.timer
  }

  function Detach(timers: map<nat, Timer>, nodes: seq<Node>): map<nat, Timer> {
    map t | t in timers :: if exists n :: n in nodes && n.timer == t then timers[t].(slot := None) else timers[t]
  }

  function Fire(fired: map<nat, nat>, nodes: seq<Node>, tick: nat): map<nat, nat>
    decreases nodes
  {
    if nodes == [] then fired else Fire(fired[nodes[0].timer := tick], nodes[1..], tick)
  }

  function Splice(w: Wheel): Wheel
    requires w.cur > 0 && |w.slots| == NUM_SLOTS
  {
    var s := Tick(w) % SECTION1_NUM;
    w.(slots := w.slots[s := []], timers := Detach(w.timers, w.slots[s]), batch := w.slots[s],
       fired := Fire(w.fired, w.slots[s], w.cur - 1), phase := Firing)
  }

  /** The end of Update: the batch goes out of scope, and with it the timers it owns. */
  function EndBatch(w: Wheel): Wheel {
    w.(timers := w.timers - (set n | n in w.batch :: n.timer), batch := [], phase := Idle)
  }

  // ---------------------------------------------------------------- runs

  datatype Action =
    | DoAddTimer(t: nat, ms: nat)
    | DoDeleteTimer(t: nat)
    | DoBeginTick
    | DoTickSection2
    | DoSplice
    | DoEndBatch

  predicate Enabled(w: Wheel, a: Action) {
    && |w.slots| == NUM_SLOTS
    && match a
       case DoAddTimer(t, ms) => t !in w.births && ms < WORD
       case DoDeleteTimer(t) => t in w.timers && (w.timers[t].slot.Some? ==> w.timers[t].slot.value < |w.slots|)
       case DoBeginTick => w.phase.Idle?
       case DoTickSection2 => TickReady(w)
       case DoSplice => w.phase.Splicing? && w.cur > 0
       case DoEndBatch => w.phase.Firing?
  }

  function Next(w: Wheel, a: Action): Wheel
    requires Enabled(w, a)
  {
    match a
    case DoAddTimer(t, ms) => AddTimer(w, t, ms)
    case DoDeleteTimer(t) => DeleteTimer(w, t)
    case DoBeginTick => BeginTick(w)
    case DoTickSection2 => TickSection2(w)
    case DoSplice => Splice(w)
    case DoEndBatch => EndBatch(w)
  }

  /** An empty wheel at any start time. */
  predicate Init(w: Wheel) {
    && w.phase.Idle? && |w.slots| == NUM_SLOTS && (forall s :: 0 <= s < NUM_SLOTS ==> w.slots[s] == [])
    && w.timers == map[] && w.batch == [] && w.births == map[] && w.fired == map[] && w.deleted == {}
  }

  ghost predicate Step(w: Wheel, w': Wheel) {
    exists a :: Enabled(w, a) && w' == Next(w, a)
  }

  ghost predicate IsRun(run: seq<Wheel>) {
    && run != [] && Init(run[0])
    && forall i :: 0 < i < |run| ==> Step(run[i - 1], run[i])
  }
}
