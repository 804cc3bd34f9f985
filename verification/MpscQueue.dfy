/** The multi-producer single-consumer queue: any number of producers interleave the three
    atomic steps of Push with the consumer's Pop.  A value travels in the node before its own. */
module MpscQueue {
  import opened Options
  import Runs

  type Value = int

  datatype Node = Node(next: Option<nat>, value: Value)

  /** A Push in flight: counted, or exchanged and not yet linked.
      `at` is history: the position of `oldTail` in the exchange order. */
  datatype Push = Counted(node: nat) | Exchanged(node: nat, oldTail: nat, at: nat)

  // The consumer, with the node that Pop is about to return
  datatype Consumer = Ready | Took(node: nat)

  /** `order` and `values` are history: the stub and then the nodes in the order in which they were
      exchanged into `tail`, with the values they carried.  `popped` nodes have left the front;
      `outputs` are the values Pop returned, `started` and `finished` count the operations. */
  datatype Queue = Queue(
    nodes: map<nat, Node>,
    tail: nat,
    head: nat,
    size: int,
    pushes: map<nat, Push>,
    consumer: Consumer,
    order: seq<nat>,
    values: seq<Value>,
    popped: nat,
    outputs: seq<Value>,
    started: nat,
    finished: nat)

  predicate IsEmpty(q: Queue) {
    q.tail == q.head
  }

  // ---------------------------------------------------------------- steps

  /** size_.fetch_add. */
  function PushCount(q: Queue, p: nat, n: nat): Queue {
    q.(size := q.size + 1, pushes := q.pushes[p := Counted(n)], started := q.started + 1)
  }

  /** tail_.exchange. */
  function PushExchange(q: Queue, p: nat): Queue
    requires p in q.pushes && q.pushes[p].node in q.nodes && q.order != []
  {
    var n := q.pushes[p].node;
    q.(tail := n, pushes := q.pushes[p := Exchanged(n, q.tail, |q.order| - 1)],
       order := q.order + [n], values := q.values + [q.nodes[n].value])
  }

  /** old_tail->next.store. */
  function PushLink(q: Queue, p: nat): Queue
    requires p in q.pushes && q.pushes[p].Exchanged? && q.pushes[p].oldTail in q.nodes
  {
    var last := q.pushes[p].oldTail;
    q.(nodes := q.nodes[last := q.nodes[last].(next := Some(q.pushes[p].node))], pushes := q.pushes - {p})
  }

  predicate CanPop(q: Queue) {
    && q.head in q.nodes && q.nodes[q.head].next.Some? && q.nodes[q.head].next.value in q.nodes
  }

  /** Pop up to the moved head: the old head takes the value of its successor. */
  function PopTake(q: Queue): Queue
    requires CanPop(q)
  {
    var next := q.nodes[q.head].next.value;
    q.(nodes := q.nodes[q.head := q.nodes[q.head].(value := q.nodes[next].value)],
       head := next, consumer := Took(q.head), popped := q.popped + 1)
  }

  /** size_.fetch_sub, and the return of the old head. */
  function PopReturn(q: Queue): Queue
    requires q.consumer.Took? && q.consumer.node in q.nodes
  {
    q.(size := q.size - 1, consumer := Ready, outputs := q.outputs + [q.nodes[q.consumer.node].value],
       finished := q.finished + 1)
  }

  /** A new node, at an address nobody uses: fresh memory, or a node that Pop has returned. */
  function Construct(q: Queue, n: nat, v: Value): Queue {
    q.(nodes := q.nodes[n := Node(None, v)])
  }

  // The nodes the queue itself still uses
  ghost function Live(q: Queue): set<nat>
    requires q.popped <= |q.order|
  {
    set i | q.popped <= i < |q.order| :: q.order[i]
  }

  ghost function InFlight(q: Queue): set<nat> {
    set p | p in q.pushes :: q.pushes[p].node
  }

  /** A node that is the caller's alone: not linked, not in a push, not on its way out of Pop. */
  ghost predicate Free(q: Queue, n: nat) {
    q.popped <= |q.order| && n !in Live(q) && n !in InFlight(q) && q.consumer != Took(n)
  }

  datatype Action =
    | DoConstruct(n: nat, v: Value)
    | DoCount(p: nat, n: nat)
    | DoExchange(p: nat)
    | DoLink(p: nat)
    | DoPopTake
    | DoPopReturn

  /** Push is called with a free node whose next is null, as a newly constructed one has it. */
  ghost predicate CanCount(q: Queue, p: nat, n: nat) {
    p !in q.pushes && Free(q, n) && n in q.nodes && q.nodes[n].next.None?
  }

  predicate CanExchange(q: Queue, p: nat) {
    p in q.pushes && q.pushes[p].Counted? && q.pushes[p].node in q.nodes && q.order != []
  }

  predicate CanLink(q: Queue, p: nat) {
    p in q.pushes && q.pushes[p].Exchanged? && q.pushes[p].oldTail in q.nodes
  }

  ghost predicate Enabled(q: Queue, a: Action) {
    match a
    case DoConstruct(n, v) => Free(q, n)
    case DoCount(p, n) => CanCount(q, p, n)
    case DoExchange(p) => CanExchange(q, p)
    case DoLink(p) => CanLink(q, p)
    case DoPopTake => q.consumer.Ready? && CanPop(q)
    case DoPopReturn => q.consumer.Took? && q.consumer.node in q.nodes
  }

  ghost function Next(q: Queue, a: Action): Queue
    requires Enabled(q, a)
  {
    match a
    case DoConstruct(n, v) => Construct(q, n, v)
    case DoCount(p, n) => PushCount(q, p, n)
    case DoExchange(p) => PushExchange(q, p)
    case DoLink(p) => PushLink(q, p)
    case DoPopTake => PopTake(q)
    case DoPopReturn => PopReturn(q)
  }

  predicate Init(q: Queue) {
    && q.head == q.tail && q.nodes.Keys == {q.tail} && q.nodes[q.tail].next.None? && q.size == 0 && q.pushes == map[]
    && q.consumer == Ready && q.order == [q.tail] && q.values == [q.nodes[q.tail].value]
    && q.popped == 0 && q.outputs == [] && q.started == 0 && q.finished == 0
  }

  ghost predicate Step(q: Queue, q': Queue) {
    exists a :: Enabled(q, a) && q' == Next(q, a)
  }

  ghost predicate IsRun(run: seq<Queue>) {
    && run != [] && Init(run[0])
    && forall i :: 0 < i < |run| ==> Step(run[i - 1], run[i])
  }

  // ---------------------------------------------------------------- the invariant

  /** Pushes that have been counted but not exchanged. */
  ghost function Waiting(q: Queue): set<nat> {
    set p | p in q.pushes && q.pushes[p].Counted?
  }

  /** The live nodes form a chain with a gap for each push that has not linked yet. */
  ghost predicate ChainOk(q: Queue) {
    && q.popped < |q.order| == |q.values|
    && q.head == q.order[q.popped] && q.tail == q.order[|q.order| - 1]
    && (forall i :: q.popped <= i < |q.order| ==> q.order[i] in q.nodes)
    && (forall i, j :: q.popped <= i < j < |q.order| ==> q.order[i] != q.order[j])
    && (forall i :: q.popped < i < |q.order| ==> q.nodes[q.order[i]].value == q.values[i])
    && q.nodes[q.tail].next.None?
    && (forall i {:trigger LinkOk(q, i)} :: q.popped <= i < |q.order| - 1 ==> LinkOk(q, i))
  }

  ghost predicate LinkOk(q: Queue, i: nat)
    requires i < |q.order| - 1 && q.order[i] in q.nodes
  {
    var next := q.nodes[q.order[i]].next;
    next == Some(q.order[i + 1]) || (next.None? && Gap(q, i))
  }

  ghost predicate Gap(q: Queue, i: nat) {
    exists p :: p in q.pushes && q.pushes[p].Exchanged? && q.pushes[p].at == i
  }

  ghost predicate PushOk(q: Queue, p: nat)
    requires p in q.pushes && q.popped <= |q.order|
  {
    match q.pushes[p]
    case Counted(n) => n in q.nodes && q.nodes[n].next.None? && n !in Live(q) && q.consumer != Took(n)
    case Exchanged(n, last, at) =>
      && q.popped <= at < |q.order| - 1 && q.order[at] == last && q.order[at + 1] == n
      && last in q.nodes && q.nodes[last].next.None?
  }

  ghost predicate PushesOk(q: Queue)
    requires q.popped <= |q.order|
  {
    && (forall p {:trigger PushOk(q, p)} :: p in q.pushes ==> PushOk(q, p))
    && (forall p, r :: p in q.pushes && r in q.pushes && p != r ==> q.pushes[p].node != q.pushes[r].node)
    && (forall p, r :: p in q.pushes && r in q.pushes && p != r && q.pushes[p].Exchanged? && q.pushes[r].Exchanged? ==>
         q.pushes[p].at != q.pushes[r].at)
  }

  ghost predicate CountsOk(q: Queue)
    requires q.popped < |q.order| == |q.values|
  {
    && q.started == |q.order| - 1 + |Waiting(q)|
    && (q.consumer.Took? ==> q.popped > 0)
    && q.finished == (if q.consumer.Took? then q.popped - 1 else q.popped)
    && q.size == q.started - q.finished
    && |q.outputs| == q.finished && q.outputs == q.values[1..q.finished + 1]
    && (q.consumer.Took? ==>
         && q.consumer.node == q.order[q.popped - 1] && q.consumer.node in q.nodes
         && q.nodes[q.consumer.node] == Node(Some(q.head), q.values[q.popped])
         && q.consumer.node !in Live(q))
  }

  // Links lead to nodes
  ghost predicate Closed(q: Queue) {
    forall n :: n in q.nodes && q.nodes[n].next.Some? ==> q.nodes[n].next.value in q.nodes
  }

  ghost predicate Inv(q: Queue) {
    ChainOk(q) && PushesOk(q) && CountsOk(q)
  }

  lemma InitInv(q: Queue)
    requires Init(q)
    ensures Inv(q)
  {
    assert Waiting(q) == {};
  }

  lemma CountKeepsChain(q: Queue, p: nat, n: nat)
    requires Inv(q) && CanCount(q, p, n)
    ensures ChainOk(PushCount(q, p, n))
  {
    var q' := PushCount(q, p, n);
    forall i | q'.popped <= i < |q'.order| - 1 ensures LinkOk(q', i) {
      assert LinkOk(q, i);
      if Gap(q, i) { GapKept(q, q', i); }
    }
  }

  lemma CountKeepsPushes(q: Queue, p: nat, n: nat)
    requires Inv(q) && CanCount(q, p, n)
    ensures PushesOk(PushCount(q, p, n))
  {
    var q' := PushCount(q, p, n);
    assert Live(q') == Live(q);
    forall r | r in q'.pushes ensures PushOk(q', r) {
      if r != p { assert PushOk(q, r); }
    }
    forall r | r in q.pushes ensures q.pushes[r].node != n { assert q.pushes[r].node in InFlight(q); }
  }

  lemma CountKeepsInv(q: Queue, p: nat, n: nat)
    requires Inv(q) && CanCount(q, p, n)
    ensures Inv(PushCount(q, p, n))
  {
    var q' := PushCount(q, p, n);
    CountKeepsChain(q, p, n);
    CountKeepsPushes(q, p, n);
    assert Waiting(q') == Waiting(q) + {p};
    assert Live(q') == Live(q);
  }

  // A push in flight keeps its gap open, whatever happens to the others
  lemma GapKept(q: Queue, q': Queue, i: nat)
    requires Gap(q, i)
    requires forall r :: r in q.pushes && q.pushes[r].Exchanged? && q.pushes[r].at == i ==>
               r in q'.pushes && q'.pushes[r] == q.pushes[r]
    ensures Gap(q', i)
  {
    var r :| r in q.pushes && q.pushes[r].Exchanged? && q.pushes[r].at == i;
    assert r in q'.pushes && q'.pushes[r].Exchanged? && q'.pushes[r].at == i;
  }

  lemma LiveGrows(q: Queue, q': Queue, n: nat)
    requires q'.popped == q.popped <= |q.order| && q'.order == q.order + [n]
    ensures Live(q') == Live(q) + {n}
  {
    forall m | m in Live(q') ensures m in Live(q) + {n} {
      var i :| q.popped <= i < |q'.order| && q'.order[i] == m;
    }
    forall m | m in Live(q) ensures m in Live(q') {
      var i :| q.popped <= i < |q.order| && q.order[i] == m;
      assert q'.order[i] == m;
    }
    assert q'.order[|q.order|] == n;
  }

  lemma ExchangeKeepsChain(q: Queue, p: nat)
    requires Inv(q) && CanExchange(q, p)
    ensures ChainOk(PushExchange(q, p))
  {
    var q' := PushExchange(q, p);
    assert PushOk(q, p);
    forall i | q.popped <= i < |q.order| ensures q.order[i] != q.pushes[p].node { assert q.order[i] in Live(q); }
    forall i | q'.popped <= i < |q'.order| - 1 ensures LinkOk(q', i) {
      if i == |q.order| - 1 {
        assert p in q'.pushes && q'.pushes[p].at == i;
      } else {
        assert LinkOk(q, i);
        if Gap(q, i) { GapKept(q, q', i); }
      }
    }
  }

  lemma ExchangeKeepsPushes(q: Queue, p: nat)
    requires Inv(q) && CanExchange(q, p)
    ensures PushesOk(PushExchange(q, p))
  {
    var q' := PushExchange(q, p);
    assert PushOk(q, p);
    LiveGrows(q, q', q.pushes[p].node);
    forall r | r in q'.pushes ensures PushOk(q', r) {
      if r != p { assert PushOk(q, r); }
    }
    forall r | r in q.pushes && q.pushes[r].Exchanged? ensures q.pushes[r].at < |q.order| - 1 { assert PushOk(q, r); }
  }

  lemma ExchangeKeepsInv(q: Queue, p: nat)
    requires Inv(q) && CanExchange(q, p)
    ensures Inv(PushExchange(q, p))
  {
    var q' := PushExchange(q, p);
    ExchangeKeepsChain(q, p);
    ExchangeKeepsPushes(q, p);
    assert PushOk(q, p);
    LiveGrows(q, q', q.pushes[p].node);
    assert Waiting(q) == Waiting(q') + {p};
  }

  lemma LinkKeepsChain(q: Queue, p: nat)
    requires Inv(q) && CanLink(q, p)
    ensures ChainOk(PushLink(q, p))
  {
    var q' := PushLink(q, p);
    assert PushOk(q, p);
    var at := q.pushes[p].at;
    forall i | q'.popped <= i < |q'.order| - 1 ensures LinkOk(q', i) {
      assert LinkOk(q, i);
      if i != at && Gap(q, i) { GapKept(q, q', i); }
    }
  }

  lemma LinkKeepsInv(q: Queue, p: nat)
    requires Inv(q) && CanLink(q, p)
    ensures Inv(PushLink(q, p))
  {
    var q' := PushLink(q, p);
    LinkKeepsChain(q, p);
    assert PushOk(q, p);
    assert Waiting(q') == Waiting(q);
    assert Live(q') == Live(q);
    assert q.order[q.pushes[p].at] in Live(q);
    forall r | r in q'.pushes ensures PushOk(q', r) { assert PushOk(q, r); }
  }

  lemma TakeKeepsInv(q: Queue)
    requires Inv(q) && q.consumer.Ready? && CanPop(q)
    ensures Inv(PopTake(q))
  {
    var q' := PopTake(q);
    assert LinkOk(q, q.popped);
    assert Waiting(q') == Waiting(q);
    assert q.order[q.popped] in Live(q);
    assert Live(q) == Live(q') + {q.head};
    forall r | r in q'.pushes ensures PushOk(q', r) { assert PushOk(q, r); }
    forall i | q'.popped <= i < |q'.order| - 1 ensures LinkOk(q', i) {
      assert LinkOk(q, i);
      if Gap(q, i) { GapKept(q, q', i); }
    }
  }

  lemma ReturnKeepsInv(q: Queue)
    requires Inv(q) && q.consumer.Took? && q.consumer.node in q.nodes
    ensures Inv(PopReturn(q))
  {
    var q' := PopReturn(q);
    assert Waiting(q') == Waiting(q);
    assert Live(q') == Live(q);
    forall r | r in q'.pushes ensures PushOk(q', r) { assert PushOk(q, r); }
    forall i | q'.popped <= i < |q'.order| - 1 ensures LinkOk(q', i) {
      assert LinkOk(q, i);
      if Gap(q, i) { GapKept(q, q', i); }
    }
  }

  lemma ConstructKeepsInv(q: Queue, n: nat, v: Value)
    requires Inv(q) && Free(q, n)
    ensures Inv(Construct(q, n, v))
  {
    var q' := Construct(q, n, v);
    assert Waiting(q') == Waiting(q);
    assert Live(q') == Live(q);
    forall i | q.popped <= i < |q.order| ensures q.order[i] != n { assert q.order[i] in Live(q); }
    forall r | r in q'.pushes ensures PushOk(q', r) {
      assert PushOk(q, r);
      assert q.pushes[r].node in InFlight(q);
    }
    forall i | q'.popped <= i < |q'.order| - 1 ensures LinkOk(q', i) {
      assert LinkOk(q, i);
      if Gap(q, i) { GapKept(q, q', i); }
    }
  }

  lemma NextKeepsInv(q: Queue, a: Action)
    requires Inv(q) && Enabled(q, a)
    ensures Inv(Next(q, a))
  {
    match a
    case DoConstruct(n, v) => ConstructKeepsInv(q, n, v);
    case DoCount(p, n) => CountKeepsInv(q, p, n);
    case DoExchange(p) => ExchangeKeepsInv(q, p);
    case DoLink(p) => LinkKeepsInv(q, p);
    case DoPopTake => TakeKeepsInv(q);
    case DoPopReturn => ReturnKeepsInv(q);
  }

  lemma StepKeepsInv(q: Queue, q': Queue)
    requires Inv(q) && Step(q, q')
    ensures Inv(q')
  {
    var a :| Enabled(q, a) && q' == Next(q, a);
    NextKeepsInv(q, a);
  }

  lemma RunInv(run: seq<Queue>, i: nat)
    requires IsRun(run) && i < |run|
    ensures Inv(run[i])
  {
    InitInv(run[0]);
    forall q, q' | Inv(q) && Step(q, q') ensures Inv(q') { StepKeepsInv(q, q'); }
    Runs.Invariant(run, 0, i, q => Inv(q), (q, q') => Step(q, q'));
  }

  // ---------------------------------------------------------------- theorems

  /** The values Pop returned are the first values of the exchange order, each once: `values[0]` is
      the stub's own and is never delivered. */
  lemma OutputsFollowExchangeOrder(run: seq<Queue>, i: nat)
    requires IsRun(run) && i < |run|
    ensures 0 < |run[i].values| == |run[i].order|
    ensures run[i].outputs <= run[i].values[1..]
    ensures |run[i].outputs| == run[i].finished
  {
    RunInv(run, i);
    var q := run[i];
    assert q.outputs == q.values[1..][..q.finished];
  }

  /** The exchange order only grows at its end, so that what was delivered stays delivered. */
  lemma HistoryGrows(run: seq<Queue>, i: nat, j: nat)
    requires IsRun(run) && i <= j < |run|
    ensures Grew(run[i], run[j])
  {
    var first := run[i];
    forall q, q' | Grew(first, q) && Step(q, q') ensures Grew(first, q') { StepGrows(q, q'); }
    Runs.Invariant(run, i, j, q => Grew(first, q), (q, q') => Step(q, q'));
  }

  ghost predicate Grew(q: Queue, q': Queue) {
    q.order <= q'.order && q.values <= q'.values && q.outputs <= q'.outputs
  }

  lemma StepGrows(q: Queue, q': Queue)
    requires Step(q, q')
    ensures Grew(q, q')
  {
    var a :| Enabled(q, a) && q' == Next(q, a);
  }

  /** A push that has exchanged but not linked writes only to a node that is still in the queue. */
  lemma NoPushHoldsReturnedNode(run: seq<Queue>, i: nat, p: nat)
    requires IsRun(run) && i < |run|
    requires p in run[i].pushes && run[i].pushes[p].Exchanged?
    ensures !Free(run[i], run[i].pushes[p].oldTail)
    ensures run[i].consumer != Took(run[i].pushes[p].oldTail)
  {
    RunInv(run, i);
    var q := run[i];
    assert PushOk(q, p);
    assert q.order[q.pushes[p].at] in Live(q);
  }

  /** Reclamation: no step of the queue writes to a node that is the caller's. */
  lemma FreeNodesUntouched(run: seq<Queue>, i: nat, a: Action, n: nat)
    requires IsRun(run) && i < |run| && Enabled(run[i], a)
    requires Free(run[i], n) && n in run[i].nodes && !a.DoConstruct?
    ensures n in Next(run[i], a).nodes && Next(run[i], a).nodes[n] == run[i].nodes[n]
  {
    RunInv(run, i);
    var q := run[i];
    if a.DoLink? { NoPushHoldsReturnedNode(run, i, a.p); }
    if a.DoPopTake? { assert q.order[q.popped] in Live(q); }
  }

  /** What Pop returned is the caller's until the caller pushes it again. */
  lemma ReturnedNodeIsFree(run: seq<Queue>, i: nat)
    requires IsRun(run) && i < |run| && Enabled(run[i], DoPopReturn)
    ensures Free(PopReturn(run[i]), run[i].consumer.node)
  {
    RunInv(run, i);
    var q := run[i];
    var n := q.consumer.node;
    assert Live(PopReturn(q)) == Live(q);
    forall p | p in q.pushes ensures q.pushes[p].node != n {
      assert PushOk(q, p);
      if q.pushes[p].Exchanged? { assert q.order[q.pushes[p].at + 1] in Live(q); }
    }
  }

  /** size_ counts started pushes less finished pops; the subtraction in Pop never underflows. */
  lemma SizeIsExact(run: seq<Queue>, i: nat)
    requires IsRun(run) && i < |run|
    ensures run[i].size == run[i].started - run[i].finished
    ensures run[i].size >= (if run[i].consumer.Took? then 1 else 0)
    ensures run[i].pushes == map[] && run[i].consumer.Ready? ==> run[i].size == |run[i].order| - 1 - run[i].popped
  {
    RunInv(run, i);
    if run[i].pushes == map[] { assert Waiting(run[i]) == {}; }
  }

  /** Pop finds a node unless the queue is empty or the push behind the head has not linked yet. */
  lemma PopFindsNodeExactly(run: seq<Queue>, i: nat)
    requires IsRun(run) && i < |run|
    ensures CanPop(run[i]) <==> !IsEmpty(run[i]) && !Gap(run[i], run[i].popped)
    ensures (forall p :: p in run[i].pushes ==> run[i].pushes[p].Counted?) ==> (CanPop(run[i]) <==> !IsEmpty(run[i]))
  {
    RunInv(run, i);
    var q := run[i];
    if Gap(q, q.popped) {
      var p :| p in q.pushes && q.pushes[p].Exchanged? && q.pushes[p].at == q.popped;
      assert PushOk(q, p);
    }
    if q.popped < |q.order| - 1 {
      assert LinkOk(q, q.popped);
    }
  }

  /** No push is ever stuck: whatever the other threads have done, its next step is possible, and so is
      the end of a Pop under way. */
  lemma EveryPushMoves(run: seq<Queue>, i: nat, p: nat)
    requires IsRun(run) && i < |run| && p in run[i].pushes
    ensures if run[i].pushes[p].Counted? then Enabled(run[i], DoExchange(p)) else Enabled(run[i], DoLink(p))
    ensures run[i].consumer.Took? ==> Enabled(run[i], DoPopReturn)
  {
    RunInv(run, i);
    assert PushOk(run[i], p);
  }

  /** What callers and the consumer can do does not depend on the pushes in flight: any free node may be
      constructed anew, pushed if its next is null, and Pop may run whenever there is a linked node. */
  lemma CallersAreFree(run: seq<Queue>, i: nat, n: nat, v: Value, p: nat)
    requires IsRun(run) && i < |run|
    ensures n !in run[i].nodes ==> Enabled(run[i], DoConstruct(n, v))
    ensures Free(run[i], n) ==> Enabled(run[i], DoConstruct(n, v))
    ensures Free(run[i], n) && n in run[i].nodes && run[i].nodes[n].next.None? && p !in run[i].pushes ==>
      Enabled(run[i], DoCount(p, n))
    ensures run[i].consumer.Ready? && !IsEmpty(run[i]) && !Gap(run[i], run[i].popped) ==> Enabled(run[i], DoPopTake)
  {
    PopFindsNodeExactly(run, i);
    RunInv(run, i);
    if n !in run[i].nodes { UnknownIsFree(run[i], n); }
  }

  /** A node comes back from Pop still linked to the new head ... */
  lemma ReturnedNodeStaysLinked(run: seq<Queue>, i: nat)
    requires IsRun(run) && i < |run| && Enabled(run[i], DoPopReturn)
    ensures PopReturn(run[i]).nodes[run[i].consumer.node].next == Some(run[i].head)
  {
    RunInv(run, i);
  }

  // A whole push, and a whole pop, that nobody interleaves with
  function PushOnce(q: Queue, p: nat, n: nat): Queue
    requires n in q.nodes && q.tail in q.nodes && q.order != []
  {
    PushLink(PushExchange(PushCount(q, p, n), p), p)
  }

  function PopOnce(q: Queue): Queue {
    if CanPop(q) then PopReturn(PopTake(q)) else q
  }

  function PopTimes(q: Queue, k: nat): Queue
    decreases k
  {
    if k == 0 then q else PopTimes(PopOnce(q), k - 1)
  }

  function SetNext(q: Queue, n: nat, next: Option<nat>): Queue
    requires n in q.nodes
  {
    q.(nodes := q.nodes[n := q.nodes[n].(next := next)])
  }

  /** At rest: no push in flight and no pop under way. */
  predicate AtRest(q: Queue) {
    q.pushes == map[] && q.consumer.Ready?
  }

  lemma PushOnceKeepsInv(q: Queue, p: nat, n: nat)
    requires Inv(q) && AtRest(q) && CanCount(q, p, n)
    ensures q.tail in q.nodes && q.tail != n
    ensures Inv(PushOnce(q, p, n)) && AtRest(PushOnce(q, p, n))
  {
    assert q.order[|q.order| - 1] in Live(q);
    CountKeepsInv(q, p, n);
    ExchangeKeepsInv(PushCount(q, p, n), p);
    LinkKeepsInv(PushExchange(PushCount(q, p, n), p), p);
    assert PushOnce(q, p, n).pushes == map[];
  }

  lemma PopOnceKeepsInv(q: Queue)
    requires Inv(q) && AtRest(q) && q.popped < |q.order| - 1
    ensures q.head != q.tail && CanPop(q) && Inv(PopOnce(q)) && AtRest(PopOnce(q))
    ensures PopOnce(q).popped == q.popped + 1
  {
    assert LinkOk(q, q.popped);
    TakeKeepsInv(q);
    ReturnKeepsInv(PopTake(q));
  }

  /** Until the last node has become the head, its own link plays no part. */
  lemma PopOnceIgnoresLast(q: Queue, next: Option<nat>)
    requires Inv(q) && AtRest(q) && q.popped < |q.order| - 1
    ensures q.tail in q.nodes && q.tail in PopOnce(q).nodes
    ensures PopOnce(SetNext(q, q.tail, next)) == SetNext(PopOnce(q), q.tail, next)
  {
    PopOnceKeepsInv(q);
    var a, b := PopOnce(SetNext(q, q.tail, next)), SetNext(PopOnce(q), q.tail, next);
    assert a.nodes == b.nodes;
    assert a.outputs == b.outputs;
  }

  // `drained` is q with everything popped; `drained'` the same, where the last node came in with `next`
  ghost predicate DrainedOf(q: Queue, next: Option<nat>, drained: Queue, drained': Queue) {
    && Inv(drained) && AtRest(drained) && drained.popped == |drained.order| - 1
    && drained.tail == q.tail && drained.nodes.Keys == q.nodes.Keys && q.tail in q.nodes
    && drained.nodes[q.tail].next.None? && drained.values == q.values
    && drained' == SetNext(drained, q.tail, next)
  }

  lemma PopOnceKeepsEnd(q: Queue)
    requires Inv(q) && AtRest(q) && q.popped < |q.order| - 1
    ensures PopOnce(q).tail == q.tail && PopOnce(q).nodes.Keys == q.nodes.Keys && PopOnce(q).values == q.values
    ensures |PopOnce(q).order| == |q.order| && q.tail in q.nodes
  {
    PopOnceKeepsInv(q);
  }

  lemma {:induction false} DrainIgnoresLast(q: Queue, next: Option<nat>, k: nat)
    requires Inv(q) && AtRest(q) && k == |q.order| - 1 - q.popped
    ensures q.tail in q.nodes
    ensures DrainedOf(q, next, PopTimes(q, k), PopTimes(SetNext(q, q.tail, next), k))
    decreases k
  {
    if k > 0 {
      PopOnceKeepsInv(q);
      PopOnceKeepsEnd(q);
      PopOnceIgnoresLast(q, next);
      DrainIgnoresLast(PopOnce(q), next, k - 1);
    }
  }

  lemma ResetIsConstruct(q: Queue, p: nat, n: nat)
    requires Inv(q) && AtRest(q) && Free(q, n) && n in q.nodes
    ensures var q0 := Construct(q, n, q.nodes[n].value);
      && Inv(q0) && AtRest(q0) && CanCount(q0, p, n)
      && q.tail in q.nodes && q.tail in q0.nodes && q.tail != n
      && PushOnce(q, p, n) == SetNext(PushOnce(q0, p, n), n, q.nodes[n].next)
  {
    var q0 := Construct(q, n, q.nodes[n].value);
    ConstructKeepsInv(q, n, q.nodes[n].value);
    UnknownStaysFree(q, n, q.nodes[n].value);
    assert q.order[|q.order| - 1] in Live(q);
    var a, b := PushOnce(q, p, n), SetNext(PushOnce(q0, p, n), n, q.nodes[n].next);
    assert a.nodes == b.nodes;
  }

  lemma AtRestSize(q: Queue)
    requires Inv(q) && AtRest(q)
    ensures q.size == |q.order| - 1 - q.popped >= 0
  {
    assert Waiting(q) == {};
  }

  // What is left once everything has been delivered
  ghost predicate Drained(q: Queue, values: seq<Value>) {
    IsEmpty(q) && q.size == 0 && AtRest(q) && values != [] && q.outputs == values[1..]
  }

  lemma DrainDelivers(q: Queue, next: Option<nat>)
    requires Inv(q) && AtRest(q)
    ensures q.tail in q.nodes && q.size >= 0
    ensures var drained := PopTimes(SetNext(q, q.tail, next), q.size);
      && Drained(drained, q.values) && drained.nodes.Keys == q.nodes.Keys
      && drained.head == q.tail && drained.nodes[q.tail].next == next
  {
    AtRestSize(q);
    DrainIgnoresLast(q, next, q.size);
    DrainedEffect(PopTimes(q, q.size));
  }

  lemma PushedSize(q: Queue, p: nat, n: nat)
    requires n in q.nodes && q.tail in q.nodes && q.order != []
    ensures var pushed := PushOnce(q, p, n);
      && pushed.size == q.size + 1 && pushed.tail == n && pushed.nodes.Keys == q.nodes.Keys
      && pushed.values == q.values + [q.nodes[n].value]
  {
  }

  // The queue after a push and the pops that drain it, when the node may have come in linked
  lemma DrainedAfterPush(q: Queue, p: nat, n: nat)
    requires Inv(q) && AtRest(q) && Free(q, n) && n in q.nodes
    ensures q.size >= 0 && q.tail in q.nodes
    ensures var drained := PopTimes(PushOnce(q, p, n), q.size + 1);
      && Drained(drained, q.values + [q.nodes[n].value])
      && drained.nodes.Keys == q.nodes.Keys && drained.head == n && drained.nodes[n].next == q.nodes[n].next
  {
    var q0 := Construct(q, n, q.nodes[n].value);
    AtRestSize(q);
    ResetIsConstruct(q, p, n);
    PushOnceKeepsInv(q0, p, n);
    PushedSize(q0, p, n);
    DrainDelivers(PushOnce(q0, p, n), q.nodes[n].next);
  }

  lemma RunClosed(run: seq<Queue>, i: nat)
    requires IsRun(run) && i < |run|
    ensures Closed(run[i])
  {
    InitInv(run[0]);
    forall q, q' | Inv(q) && Closed(q) && Step(q, q') ensures Inv(q') && Closed(q') {
      StepKeepsInv(q, q');
      StepKeepsClosed(q, q');
    }
    Runs.Invariant(run, 0, i, q => Inv(q) && Closed(q), (q, q') => Step(q, q'));
  }

  lemma StepKeepsClosed(q: Queue, q': Queue)
    requires Inv(q) && Closed(q) && Step(q, q')
    ensures Closed(q')
  {
    var a :| Enabled(q, a) && q' == Next(q, a);
    if a.DoLink? { assert PushOk(q, a.p); }
  }

  /** ... and Push does not reset that link.  Push any free node onto a queue at rest, and pop once
      for each element: everything is delivered, and the queue is empty with size zero.  But one more
      Pop finds a node, and takes size_ below zero, exactly if the node came in with its link set. */
  lemma PushNeedsNullNext(run: seq<Queue>, i: nat, p: nat, n: nat)
    requires IsRun(run) && i < |run| && AtRest(run[i]) && Free(run[i], n) && n in run[i].nodes
    ensures run[i].size >= 0 && run[i].tail in run[i].nodes && run[i].order != []
    ensures
      var drained := PopTimes(PushOnce(run[i], p, n), run[i].size + 1);
      && Drained(drained, run[i].values + [run[i].nodes[n].value])
      && (run[i].nodes[n].next.Some? <==> CanPop(drained))
      && (run[i].nodes[n].next.Some? <==> PopOnce(drained).size == -1)
  {
    RunInv(run, i);
    RunClosed(run, i);
    DrainedAfterPush(run[i], p, n);
  }

  // A queue around stub 0 that node 1 goes through, with nothing else done to it yet
  const FRESH := Queue(map[0 := Node(None, 0)], 0, 0, 0, map[], Ready, [0], [0], 0, [], 0, 0)
  const BUILT := FRESH.(nodes := map[0 := Node(None, 0), 1 := Node(None, 5)])
  const COUNTED := BUILT.(size := 1, pushes := map[0 := Counted(1)], started := 1)
  const EXCHANGED :=
    COUNTED.(tail := 1, pushes := map[0 := Exchanged(1, 0, 0)], order := [0, 1], values := [0, 5])
  const LINKED := EXCHANGED.(nodes := map[0 := Node(Some(1), 0), 1 := Node(None, 5)], pushes := map[])
  const TAKEN :=
    LINKED.(nodes := map[0 := Node(Some(1), 5), 1 := Node(None, 5)], head := 1, consumer := Took(0), popped := 1)
  const RETURNED := TAKEN.(size := 0, consumer := Ready, outputs := [5], finished := 1)

  lemma NodeIsBuilt()
    ensures Init(FRESH) && Step(FRESH, BUILT)
  {
    assert Enabled(FRESH, DoConstruct(1, 5)) && Next(FRESH, DoConstruct(1, 5)) == BUILT;
  }

  lemma NodeIsCounted()
    ensures Step(BUILT, COUNTED)
  {
    assert Enabled(BUILT, DoCount(0, 1)) && Next(BUILT, DoCount(0, 1)) == COUNTED;
  }

  lemma NodeIsExchanged()
    ensures Step(COUNTED, EXCHANGED)
  {
    assert Enabled(COUNTED, DoExchange(0)) && Next(COUNTED, DoExchange(0)) == EXCHANGED;
  }

  lemma NodeIsLinked()
    ensures Step(EXCHANGED, LINKED)
  {
    assert Enabled(EXCHANGED, DoLink(0)) && Next(EXCHANGED, DoLink(0)) == LINKED;
  }

  lemma StubIsTaken()
    ensures Step(LINKED, TAKEN)
  {
    assert Enabled(LINKED, DoPopTake) && Next(LINKED, DoPopTake) == TAKEN;
  }

  lemma StubIsReturned()
    ensures Step(TAKEN, RETURNED)
  {
    assert Enabled(TAKEN, DoPopReturn) && Next(TAKEN, DoPopReturn) == RETURNED;
  }

  lemma RecycledRun()
    ensures IsRun([FRESH, BUILT, COUNTED, EXCHANGED, LINKED, TAKEN, RETURNED])
  {
    NodeIsBuilt();
    NodeIsCounted();
    NodeIsExchanged();
    NodeIsLinked();
    StubIsTaken();
    StubIsReturned();
  }

  /** It happens: after one push and one pop the caller has a free node whose link is set.  Push that
      node and pop twice, and the size is -1. */
  lemma RecycledNodeRun() returns (run: seq<Queue>)
    ensures IsRun(run) && |run| == 7 && AtRest(run[6]) && run[6].size == 0 && IsEmpty(run[6])
    ensures Free(run[6], 0) && 0 in run[6].nodes && run[6].nodes[0].next.Some?
    ensures run[6].tail in run[6].nodes && run[6].order != []
    ensures PopOnce(PopOnce(PushOnce(run[6], 0, 0))).size == -1
  {
    RecycledRun();
    run := [FRESH, BUILT, COUNTED, EXCHANGED, LINKED, TAKEN, RETURNED];
    PushNeedsNullNext(run, 6, 0, 0);
    var pushed := PushOnce(RETURNED, 0, 0);
    assert PopTimes(pushed, 1) == PopTimes(PopOnce(pushed), 0);
  }

  // ---------------------------------------------------------------- the queue object

  class QueueNode {
    var next: QueueNode?
    var value: Value

    constructor (v: Value)
      ensures next == null && value == v
    {
      next, value := null, v;
    }
  }

  /** The queue object and its linked nodes.  `trace` is the state the theorems speak about, and
      `addr` the object at each of its addresses. */
  class MpscQueue {
    var tail: QueueNode
    var head: QueueNode
    var size: int
    ghost var trace: Queue
    ghost var addr: map<nat, QueueNode>

    // The object at address n has the fields that the trace gives it
    ghost predicate NodeOk(n: nat)
      requires n in trace.nodes && trace.nodes.Keys == addr.Keys
      reads this, addr[n]
    {
      && addr[n].value == trace.nodes[n].value
      && match trace.nodes[n].next
         case None => addr[n].next == null
         case Some(m) => m in addr && addr[n].next == addr[m]
    }

    ghost predicate Shows()
      reads this, addr.Values
    {
      && trace.nodes.Keys == addr.Keys
      && (forall m, n :: m in addr && n in addr && m != n ==> addr[m] != addr[n])
      && (forall n {:trigger NodeOk(n)} :: n in addr ==> NodeOk(n))
      && trace.tail in addr && tail == addr[trace.tail]
      && trace.head in addr && head == addr[trace.head]
      && size == trace.size
    }

    ghost predicate Valid()
      reads this, addr.Values
    {
      Shows() && Inv(trace)
    }

    constructor (stub: QueueNode, ghost n: nat)
      requires stub.next == null
      ensures Valid() && Init(trace) && tail == head == stub && addr == map[n := stub]
    {
      tail, head, size := stub, stub, 0;
      trace := Queue(map[n := Node(None, stub.value)], n, n, 0, map[], Ready, [n], [stub.value], 0, [], 0, 0);
      addr := map[n := stub];
      new;
      InitInv(trace);
    }

    /** A node the queue has not seen yet. */
    ghost method Register(n: nat, node: QueueNode)
      requires Valid() && n !in addr && node !in addr.Values && node.next == null
      modifies this`trace, this`addr
      ensures Valid() && addr == old(addr)[n := node] && trace == Construct(old(trace), n, node.value)
      ensures Free(trace, n)
    {
      var before := addr;
      UnknownIsFree(trace, n);
      ConstructKeepsInv(trace, n, node.value);
      UnknownStaysFree(trace, n, node.value);
      trace := Construct(trace, n, node.value);
      addr := addr[n := node];
      forall m | m in addr ensures NodeOk(m) {
        if m != n {
          assert m in before && addr[m] == before[m];
          assert old(NodeOk(m));
        }
      }
    }

    method BeginPush(ghost p: nat, ghost n: nat, node: QueueNode)
      requires Valid() && CanCount(trace, p, n) && n in addr && addr[n] == node
      modifies this`size, this`trace
      ensures Valid() && trace == PushCount(old(trace), p, n)
    {
      CountKeepsInv(trace, p, n);
      size := size + 1;
      trace := PushCount(trace, p, n);
      forall m | m in addr ensures NodeOk(m) { assert old(NodeOk(m)); }
    }

    method Exchange(ghost p: nat, node: QueueNode) returns (oldTail: QueueNode)
      requires Valid() && CanExchange(trace, p) && trace.pushes[p].node in addr && addr[trace.pushes[p].node] == node
      modifies this`tail, this`trace
      ensures Valid() && trace == PushExchange(old(trace), p) && oldTail == old(tail)
      ensures trace.pushes[p].oldTail in addr && addr[trace.pushes[p].oldTail] == oldTail
    {
      ExchangeKeepsInv(trace, p);
      oldTail := tail;
      tail := node;
      trace := PushExchange(trace, p);
      forall m | m in addr ensures NodeOk(m) { assert old(NodeOk(m)); }
    }

    method Link(ghost p: nat, node: QueueNode, oldTail: QueueNode)
      requires Valid() && CanLink(trace, p)
      requires trace.pushes[p].node in addr && addr[trace.pushes[p].node] == node
      requires trace.pushes[p].oldTail in addr && addr[trace.pushes[p].oldTail] == oldTail
      modifies this`trace, oldTail`next
      ensures Valid() && trace == PushLink(old(trace), p)
    {
      LinkKeepsInv(trace, p);
      oldTail.next := node;
      trace := PushLink(trace, p);
      forall m | m in addr ensures NodeOk(m) { assert old(NodeOk(m)); }
    }

    /** A push that nobody interleaves with. */
    method Push(ghost p: nat, ghost n: nat, node: QueueNode)
      requires Valid() && CanCount(trace, p, n) && n in addr && addr[n] == node
      modifies this`size, this`tail, this`trace, tail`next
      ensures Valid() && trace == PushLink(PushExchange(PushCount(old(trace), p, n), p), p)
    {
      BeginPush(p, n, node);
      var oldTail := Exchange(p, node);
      assert PushOk(trace, p);
      Link(p, node, oldTail);
    }

    method Pop() returns (node: QueueNode?)
      requires Valid() && trace.consumer.Ready?
      modifies this`head, this`size, this`trace, head`value
      ensures Valid() && trace.consumer.Ready? && trace.pushes == old(trace.pushes)
      ensures node == null ==> trace == old(trace) && !CanPop(trace)
      ensures node != null ==>
        && node == old(head) && CanPop(old(trace)) && trace == PopReturn(PopTake(old(trace)))
        && trace.outputs == old(trace.outputs) + [node.value]
    {
      assert NodeOk(trace.head);
      if head.next == null { return null; }
      PopEffect(trace);
      node := TakeHead();
    }

    // The rest of Pop once it has found a successor
    method TakeHead() returns (node: QueueNode)
      requires Shows() && CanPop(trace)
      modifies this`head, this`size, this`trace, head`value
      ensures Shows() && trace == PopReturn(PopTake(old(trace)))
      ensures node == old(head) && node.value == old(trace.nodes[trace.nodes[trace.head].next.value].value)
    {
      assert NodeOk(trace.head);
      var next := head.next;
      assert NodeOk(trace.nodes[trace.head].next.value);
      head.value := next.value;
      node := head;
      head := next;
      size := size - 1;
      trace := PopReturn(PopTake(trace));
      forall m | m in addr ensures NodeOk(m) { assert old(NodeOk(m)); }
    }

    /** With no push in flight everything pushed is delivered, and the count is back to zero. */
    method Clear()
      requires Valid() && trace.consumer.Ready? && trace.pushes == map[]
      modifies this`head, this`size, this`trace, addr.Values
      ensures Valid() && size == 0 && head == tail
      ensures trace.values == old(trace.values) && trace.outputs == trace.values[1..]
    {
      while true
        invariant Valid() && trace.consumer.Ready? && trace.pushes == map[]
        invariant trace.values == old(trace.values) && addr == old(addr)
        decreases |trace.order| - trace.popped
      {
        assert head in addr.Values;
        var node := Pop();
        if node == null { break; }
      }
      DrainedEffect(trace);
    }

    method Empty() returns (empty: bool)
      requires Valid()
      ensures empty <==> IsEmpty(trace)
    {
      empty := tail == head;
    }

    method Size() returns (n: int)
      requires Valid()
      ensures n == trace.size >= 0
    {
      n := size;
    }
  }

  lemma PopEffect(q: Queue)
    requires Inv(q) && q.consumer.Ready? && q.head in q.nodes && q.nodes[q.head].next.Some?
    ensures CanPop(q) && Inv(PopReturn(PopTake(q)))
    ensures PopReturn(PopTake(q)).outputs == q.outputs + [q.nodes[q.nodes[q.head].next.value].value]
  {
    assert q.popped < |q.order| - 1 ==> LinkOk(q, q.popped);
    TakeKeepsInv(q);
    ReturnKeepsInv(PopTake(q));
  }

  lemma DrainedEffect(q: Queue)
    requires Inv(q) && q.consumer.Ready? && q.pushes == map[] && !CanPop(q)
    ensures q.size == 0 && q.head == q.tail && q.outputs == q.values[1..]
  {
    assert q.popped < |q.order| - 1 ==> LinkOk(q, q.popped);
    assert Waiting(q) == {};
  }

  lemma UnknownIsFree(q: Queue, n: nat)
    requires Inv(q) && n !in q.nodes
    ensures Free(q, n)
  {
    forall p | p in q.pushes ensures q.pushes[p].node in q.nodes {
      assert PushOk(q, p);
    }
  }

  lemma UnknownStaysFree(q: Queue, n: nat, v: Value)
    requires Inv(q) && Free(q, n)
    ensures Free(Construct(q, n, v), n)
  {
    assert Live(Construct(q, n, v)) == Live(q);
  }
}
