/** The object allocator of ObjectCache.h: per-thread caches and carving buffers, a shared list of
    full caches and a shared list of retired buffers.  Every critical section, and every piece of
    thread-local work between two of them, is one step; any number of threads interleave. */
module MemCache {
  import opened Options
  import Runs

  /** Object number `index` of buffer number `buffer`. */
  datatype Slot = Slot(buffer: nat, index: nat)

  type Cache = seq<Slot>

  /** Where in get or put a thread is: Looking has found its own cache empty, Holding has taken a
      listed cache, Carving goes to its buffer, Renewing has retired a full one, Spilled has listed
      its full cache and still carries the object. */
  datatype Pc = Idle | Looking | Holding(next: Cache) | Carving | Renewing | Spilled(obj: Slot)

  // `got` is what the last completed get returned
  datatype Local = Local(cache: Option<Cache>, buffer: Option<nat>, pc: Pc, got: Option<Slot>)

  /** History: what became of a carved slot. */
  datatype Place =
    | Live
    | InCache(thread: nat, at: nat)
    | Held(thread: nat, at: nat)
    | Listed(list: nat, at: nat)
    | InHand(thread: nat)
    | Discarded
    | Uncarved

  /** `buffers` maps each allocated buffer to the number of slots carved from it. */
  datatype State = State(
    threads: map<nat, Local>,
    cacheList: seq<Cache>,
    bufferList: seq<nat>,
    buffers: map<nat, nat>,
    place: map<Slot, Place>)

  /** The template parameters, with what the static assertions demand. */
  datatype Config = Config(objectSize: nat, cacheObjects: nat, bufferSize: nat) {
    predicate Valid() {
      0 < objectSize <= bufferSize && cacheObjects > 0
    }

    function BufferObjects(): nat
      requires objectSize > 0
    {
      bufferSize / objectSize
    }
  }

  // ---------------------------------------------------------------- steps

  function With(s: State, t: nat, l: Local): State {
    s.(threads := s.threads[t := l])
  }

  /** A null cache pointer is replaced by a new empty cache before anything else. */
  function CacheOf(l: Local): Cache {
    if l.cache.None? then [] else l.cache.value
  }

  /** get on the thread's own cache. */
  function GetStart(s: State, t: nat): State
    requires t in s.threads
  {
    var l := s.threads[t];
    var cache := CacheOf(l);
    if cache != [] then
      var obj := cache[|cache| - 1];
      With(s, t, l.(cache := Some(cache[..|cache| - 1]), got := Some(obj))).(place := s.place[obj := Live])
    else
      With(s, t, l.(cache := Some([]), pc := Looking, got := None))
  }

  /** The locked look at the list of caches; `seemsEmpty` is what the look without the lock said. */
  function GetLook(s: State, t: nat, seemsEmpty: bool): State
    requires t in s.threads
  {
    var l := s.threads[t];
    var last := |s.cacheList| - 1;
    if seemsEmpty || s.cacheList == [] then
      With(s, t, l.(pc := Carving))
    else
      With(s, t, l.(pc := Holding(s.cacheList[last]))).(
        cacheList := s.cacheList[..last],
        place := map x | x in s.place ::
          if s.place[x].Listed? && s.place[x].list == last then Held(t, s.place[x].at) else s.place[x])
  }

  /** The listed cache replaces the thread's empty one and gives its last object. */
  function GetAdopt(s: State, t: nat): State
    requires t in s.threads && s.threads[t].pc.Holding? && s.threads[t].pc.next != []
  {
    var l := s.threads[t];
    var cache := l.pc.next;
    var obj := cache[|cache| - 1];
    With(s, t, l.(cache := Some(cache[..|cache| - 1]), pc := Idle, got := Some(obj))).(
      place := map x | x in s.place ::
        if x == obj then Live
        else if s.place[x].Held? && s.place[x].thread == t then InCache(t, s.place[x].at)
        else s.place[x])
  }

  /** The next slot of buffer b. */
  function CarveFrom(s: State, t: nat, b: nat): State
    requires t in s.threads
  {
    var used := if b in s.buffers then s.buffers[b] else 0;
    var obj := Slot(b, used);
    With(s, t, s.threads[t].(buffer := Some(b), pc := Idle, got := Some(obj))).(
      buffers := s.buffers[b := used + 1],
      place := s.place[obj := Live])
  }

  /** Carves from the thread's buffer, from the new buffer `spare` if it has none, or retires a full one. */
  function GetCarve(c: Config, s: State, t: nat, spare: nat): State
    requires c.Valid() && t in s.threads
  {
    var l := s.threads[t];
    if l.buffer.None? then CarveFrom(s, t, spare)
    else if l.buffer.value in s.buffers && s.buffers[l.buffer.value] < c.BufferObjects() then
      CarveFrom(s, t, l.buffer.value)
    else
      With(s, t, l.(buffer := None, pc := Renewing)).(bufferList := s.bufferList + [l.buffer.value])
  }

  /** put into the thread's own cache, or into the list when that cache is full. */
  function PutStart(c: Config, s: State, t: nat, obj: Slot): State
    requires t in s.threads
  {
    var l := s.threads[t];
    var cache := CacheOf(l);
    if |cache| < c.cacheObjects then
      With(s, t, l.(cache := Some(cache + [obj]))).(place := s.place[obj := InCache(t, |cache|)])
    else
      With(s, t, l.(cache := None, pc := Spilled(obj))).(
        cacheList := s.cacheList + [cache],
        place := map x | x in s.place ::
          if x == obj then InHand(t)
          else if s.place[x].InCache? && s.place[x].thread == t then Listed(|s.cacheList|, s.place[x].at)
          else s.place[x])
  }

  /** The spilled object starts a new cache. */
  function PutRenew(s: State, t: nat): State
    requires t in s.threads && s.threads[t].pc.Spilled?
  {
    var l := s.threads[t];
    With(s, t, l.(cache := Some([l.pc.obj]), pc := Idle)).(place := s.place[l.pc.obj := InCache(t, 0)])
  }

  /** OnThreadExit deletes the cache.  It reaches for the cache a second time instead of the buffer,
      so the buffer stays allocated. */
  function ThreadExit(s: State, t: nat): State
    requires t in s.threads
  {
    With(s, t, s.threads[t].(cache := None)).(
      place := map x | x in s.place ::
        if s.place[x].InCache? && s.place[x].thread == t then Discarded else s.place[x])
  }

  datatype Action =
    | DoGetStart(t: nat)
    | DoGetLook(t: nat, seemsEmpty: bool)
    | DoGetAdopt(t: nat)
    | DoGetCarve(t: nat, spare: nat)
    | DoPutStart(t: nat, obj: Slot)
    | DoPutRenew(t: nat)
    | DoThreadExit(t: nat)

  predicate IsLive(s: State, x: Slot) {
    x in s.place && s.place[x] == Live
  }

  predicate CanCarve(s: State, t: nat, spare: nat) {
    t in s.threads && (s.threads[t].pc.Carving? || s.threads[t].pc.Renewing?) && spare !in s.buffers
  }

  predicate CanPut(s: State, t: nat, obj: Slot) {
    t in s.threads && s.threads[t].pc.Idle? && IsLive(s, obj)
  }

  /** The one demand on callers: put is given a live object. */
  predicate Enabled(s: State, a: Action) {
    && a.t in s.threads
    && var pc := s.threads[a.t].pc;
       match a
       case DoGetStart(t) => pc.Idle?
       case DoGetLook(t, seemsEmpty) => pc.Looking?
       case DoGetAdopt(t) => pc.Holding? && pc.next != []
       case DoGetCarve(t, spare) => (pc.Carving? || pc.Renewing?) && spare !in s.buffers
       case DoPutStart(t, obj) => pc.Idle? && IsLive(s, obj)
       case DoPutRenew(t) => pc.Spilled?
       case DoThreadExit(t) => pc.Idle?
  }

  function Next(c: Config, s: State, a: Action): State
    requires c.Valid() && Enabled(s, a)
  {
    match a
    case DoGetStart(t) => GetStart(s, t)
    case DoGetLook(t, seemsEmpty) => GetLook(s, t, seemsEmpty)
    case DoGetAdopt(t) => GetAdopt(s, t)
    case DoGetCarve(t, spare) => GetCarve(c, s, t, spare)
    case DoPutStart(t, obj) => PutStart(c, s, t, obj)
    case DoPutRenew(t) => PutRenew(s, t)
    case DoThreadExit(t) => ThreadExit(s, t)
  }

  predicate Init(s: State) {
    && (forall t :: t in s.threads ==> s.threads[t] == Local(None, None, Idle, None))
    && s.cacheList == [] && s.bufferList == [] && s.buffers == map[] && s.place == map[]
  }

  ghost predicate Step(c: Config, s: State, s': State)
    requires c.Valid()
  {
    exists a :: StepBy(c, s, a, s')
  }

  ghost predicate StepBy(c: Config, s: State, a: Action, s': State)
    requires c.Valid()
  {
    Enabled(s, a) && s' == Next(c, s, a)
  }

  ghost predicate IsRun(c: Config, run: seq<State>)
    requires c.Valid()
  {
    && run != [] && Init(run[0])
    && forall i :: 0 < i < |run| ==> Step(c, run[i - 1], run[i])
  }

  // ---------------------------------------------------------------- where a slot is

  /** The slot is at that place, as the lists, the caches and the buffers themselves show it. */
  predicate At(c: Config, s: State, x: Slot, p: Place)
    requires c.Valid()
  {
    match p
    case Uncarved => x.buffer in s.buffers && s.buffers[x.buffer] <= x.index < c.BufferObjects()
    case InCache(t, i) =>
      t in s.threads && s.threads[t].cache.Some? && i < |s.threads[t].cache.value| && s.threads[t].cache.value[i] == x
    case Held(t, i) =>
      t in s.threads && s.threads[t].pc.Holding? && i < |s.threads[t].pc.next| && s.threads[t].pc.next[i] == x
    case Listed(k, i) => k < |s.cacheList| && i < |s.cacheList[k]| && s.cacheList[k][i] == x
    case InHand(t) => t in s.threads && s.threads[t].pc == Spilled(x)
    case Live => x in s.place && s.place[x] == Live
    case Discarded => x in s.place && s.place[x] == Discarded
  }

  // ---------------------------------------------------------------- the invariant

  /** `place` has exactly the carved slots, and tells for each where it is. */
  ghost predicate CarvedOk(c: Config, s: State)
    requires c.Valid()
  {
    && (forall b :: b in s.buffers ==> 0 < s.buffers[b] <= c.BufferObjects())
    && (forall x :: x in s.place <==> x.buffer in s.buffers && x.index < s.buffers[x.buffer])
  }

  ghost predicate PlacesOk(c: Config, s: State)
    requires c.Valid()
  {
    && (forall x {:trigger PlaceOk(c, s, x)} :: x in s.place ==> PlaceOk(c, s, x))
    && (forall x, p {:trigger At(c, s, x, p)} :: At(c, s, x, p) && !p.Uncarved? ==> x in s.place && s.place[x] == p)
  }

  predicate PlaceOk(c: Config, s: State, x: Slot)
    requires c.Valid() && x in s.place
  {
    !s.place[x].Uncarved? && At(c, s, x, s.place[x])
  }

  predicate LocalOk(c: Config, s: State, t: nat)
    requires t in s.threads
  {
    var l := s.threads[t];
    && (l.cache.Some? ==> |l.cache.value| <= c.cacheObjects)
    && (l.buffer.Some? ==> l.buffer.value in s.buffers && l.buffer.value !in s.bufferList)
    && match l.pc
       case Idle => true
       case Looking => l.cache == Some([])
       case Holding(next) => l.cache == Some([]) && |next| == c.cacheObjects
       case Carving => l.cache == Some([])
       case Renewing => l.cache == Some([]) && l.buffer.None?
       case Spilled(obj) => l.cache.None?
  }

  ghost predicate LocalsOk(c: Config, s: State) {
    forall t {:trigger LocalOk(c, s, t)} :: t in s.threads ==> LocalOk(c, s, t)
  }

  // No two threads carve from one buffer
  ghost predicate BuffersApart(s: State) {
    forall t, u :: t in s.threads && u in s.threads && t != u && s.threads[t].buffer.Some? ==>
      s.threads[t].buffer != s.threads[u].buffer
  }

  ghost predicate ListsOk(c: Config, s: State)
    requires c.Valid()
  {
    && (forall k :: 0 <= k < |s.cacheList| ==> |s.cacheList[k]| == c.cacheObjects)
    && (forall b :: b in s.bufferList ==> b in s.buffers && s.buffers[b] == c.BufferObjects())
    && (forall j, k :: 0 <= j < k < |s.bufferList| ==> s.bufferList[j] != s.bufferList[k])
  }

  ghost predicate Inv(c: Config, s: State)
    requires c.Valid()
  {
    CarvedOk(c, s) && PlacesOk(c, s) && LocalsOk(c, s) && BuffersApart(s) && ListsOk(c, s)
  }

  lemma HasObjects(c: Config)
    requires c.Valid()
    ensures c.BufferObjects() > 0
  {
    assert c.bufferSize / c.objectSize >= 1;
  }

  /** A buffer has as many objects as fit into it. */
  lemma ObjectsFitExactly(c: Config, n: nat)
    requires c.Valid()
    ensures n * c.objectSize <= c.bufferSize <==> n <= c.BufferObjects()
  {
    var k := c.bufferSize / c.objectSize;
    assert k * c.objectSize <= c.bufferSize < (k + 1) * c.objectSize;
    if n <= k { TimesMonotone(n, k, c.objectSize); } else { TimesMonotone(k + 1, n, c.objectSize); }
  }

  lemma TimesMonotone(m: nat, n: nat, k: nat)
    requires m <= n
    ensures m * k <= n * k
  {
  }

  lemma CarvedFrame(c: Config, s: State, s': State)
    requires c.Valid() && CarvedOk(c, s) && s'.buffers == s.buffers && s'.place.Keys == s.place.Keys
    ensures CarvedOk(c, s')
  {
  }

  // What is at a place other than Uncarved has been carved
  lemma AtCarved(c: Config, s: State, x: Slot, p: Place)
    requires c.Valid() && PlacesOk(c, s) && At(c, s, x, p) && !p.Uncarved?
    ensures x in s.place
  {
  }

  lemma CarveKeepsCarved(c: Config, s: State, t: nat, spare: nat)
    requires c.Valid() && CarvedOk(c, s) && CanCarve(s, t, spare) && LocalOk(c, s, t)
    ensures CarvedOk(c, GetCarve(c, s, t, spare))
  {
    HasObjects(c);
  }

  lemma SameCarved(c: Config, s: State, a: Action)
    requires c.Valid() && PlacesOk(c, s) && Enabled(s, a) && !a.DoGetCarve? && LocalOk(c, s, a.t)
    ensures Next(c, s, a).buffers == s.buffers && Next(c, s, a).place.Keys == s.place.Keys
  {
    var cache := CacheOf(s.threads[a.t]);
    if a.DoGetStart? && cache != [] { AtCarved(c, s, cache[|cache| - 1], InCache(a.t, |cache| - 1)); }
    if a.DoPutRenew? { AtCarved(c, s, s.threads[a.t].pc.obj, InHand(a.t)); }
  }

  lemma NextKeepsCarved(c: Config, s: State, a: Action)
    requires c.Valid() && Inv(c, s) && Enabled(s, a)
    ensures CarvedOk(c, Next(c, s, a))
  {
    assert LocalOk(c, s, a.t);
    match a
    case DoGetCarve(t, spare) => CarveKeepsCarved(c, s, t, spare);
    case _ =>
      SameCarved(c, s, a);
      CarvedFrame(c, s, Next(c, s, a));
  }

  // A thread that takes no step keeps what it has, as long as its buffer stays out of the list
  lemma OthersKeepLocal(c: Config, s: State, s': State, t: nat)
    requires t in s.threads && t in s'.threads && s.threads[t] == s'.threads[t] && LocalOk(c, s, t)
    requires s.buffers.Keys <= s'.buffers.Keys
    requires s.threads[t].buffer.Some? ==> s.threads[t].buffer.value !in s'.bufferList
    ensures LocalOk(c, s', t)
  {
  }

  lemma NextKeepsOwnLocal(c: Config, s: State, a: Action)
    requires c.Valid() && Inv(c, s) && Enabled(s, a)
    ensures LocalOk(c, Next(c, s, a), a.t)
  {
    assert LocalOk(c, s, a.t);
  }

  lemma NextKeepsLocals(c: Config, s: State, a: Action)
    requires c.Valid() && Inv(c, s) && Enabled(s, a)
    ensures LocalsOk(c, Next(c, s, a))
  {
    var s' := Next(c, s, a);
    NextKeepsOwnLocal(c, s, a);
    forall t | t in s'.threads ensures LocalOk(c, s', t) {
      assert LocalOk(c, s, t);
      if t != a.t { OthersKeepLocal(c, s, s', t); }
    }
  }

  lemma NextKeepsApart(c: Config, s: State, a: Action)
    requires c.Valid() && Inv(c, s) && Enabled(s, a)
    ensures BuffersApart(Next(c, s, a))
  {
    var s' := Next(c, s, a);
    forall t | t in s.threads && s.threads[t].buffer.Some? ensures s.threads[t].buffer.value in s.buffers {
      assert LocalOk(c, s, t);
    }
  }

  lemma NextKeepsLists(c: Config, s: State, a: Action)
    requires c.Valid() && Inv(c, s) && Enabled(s, a)
    ensures ListsOk(c, Next(c, s, a))
  {
    assert LocalOk(c, s, a.t);
    var s' := Next(c, s, a);
    forall b | b in s'.bufferList ensures b in s'.buffers && s'.buffers[b] == c.BufferObjects() {
    }
  }

  // ---------------------------------------------------------------- slots keep to their places

  lemma StartKeepsPlaces(c: Config, s: State, t: nat)
    requires c.Valid() && Inv(c, s) && t in s.threads && s.threads[t].pc.Idle?
    ensures PlacesOk(c, GetStart(s, t))
  {
    var s' := GetStart(s, t);
    var cache := CacheOf(s.threads[t]);
    if cache != [] { assert At(c, s, cache[|cache| - 1], InCache(t, |cache| - 1)); }
    forall x, p | At(c, s', x, p) && !p.Uncarved? ensures x in s'.place && s'.place[x] == p {
      assert p.Live? || At(c, s, x, p);
    }
    forall x | x in s'.place ensures PlaceOk(c, s', x) {
      assert x in s.place && PlaceOk(c, s, x);
    }
  }

  lemma LookKeepsPlaces(c: Config, s: State, t: nat, seemsEmpty: bool)
    requires c.Valid() && Inv(c, s) && t in s.threads && s.threads[t].pc.Looking?
    ensures PlacesOk(c, GetLook(s, t, seemsEmpty))
  {
    var s' := GetLook(s, t, seemsEmpty);
    var last := |s.cacheList| - 1;
    forall x, p | At(c, s', x, p) && !p.Uncarved? ensures x in s'.place && s'.place[x] == p {
      assert At(c, s, x, if p.Held? && p.thread == t then Listed(last, p.at) else p);
    }
    forall x | x in s'.place ensures PlaceOk(c, s', x) {
      assert x in s.place && PlaceOk(c, s, x);
    }
  }

  lemma AdoptKeepsPlaces(c: Config, s: State, t: nat)
    requires c.Valid() && Inv(c, s) && t in s.threads && s.threads[t].pc.Holding? && s.threads[t].pc.next != []
    ensures PlacesOk(c, GetAdopt(s, t))
  {
    var s' := GetAdopt(s, t);
    var next := s.threads[t].pc.next;
    assert LocalOk(c, s, t);
    assert At(c, s, next[|next| - 1], Held(t, |next| - 1));
    forall x, p | At(c, s', x, p) && !p.Uncarved? ensures x in s'.place && s'.place[x] == p {
      assert p.Live? || At(c, s, x, if p.InCache? && p.thread == t then Held(t, p.at) else p);
    }
    forall x | x in s'.place ensures PlaceOk(c, s', x) {
      assert x in s.place && PlaceOk(c, s, x);
    }
  }

  lemma CarveKeepsPlaces(c: Config, s: State, t: nat, spare: nat)
    requires c.Valid() && Inv(c, s) && CanCarve(s, t, spare)
    ensures PlacesOk(c, GetCarve(c, s, t, spare))
  {
    var s' := GetCarve(c, s, t, spare);
    assert LocalOk(c, s, t);
    forall x, p | At(c, s', x, p) && !p.Uncarved? ensures x in s'.place && s'.place[x] == p {
      assert x !in s.place || At(c, s, x, p);
      assert p.Live? || At(c, s, x, p);
    }
    forall x | x in s'.place ensures PlaceOk(c, s', x) {
      if x in s.place { assert PlaceOk(c, s, x); }
    }
  }

  lemma PutShowsPlaces(c: Config, s: State, t: nat, obj: Slot, x: Slot, p: Place)
    requires c.Valid() && Inv(c, s) && CanPut(s, t, obj)
    requires At(c, PutStart(c, s, t, obj), x, p) && !p.Uncarved?
    ensures x in PutStart(c, s, t, obj).place && PutStart(c, s, t, obj).place[x] == p
  {
    var k := |s.cacheList|;
    assert At(c, s, obj, Live);
    assert (x == obj && p in {InCache(t, |CacheOf(s.threads[t])|), InHand(t)})
        || At(c, s, x, if p.Listed? && p.list == k then InCache(t, p.at) else p);
  }

  lemma PutKeepsPlaces(c: Config, s: State, t: nat, obj: Slot)
    requires c.Valid() && Inv(c, s) && CanPut(s, t, obj)
    ensures PlacesOk(c, PutStart(c, s, t, obj))
  {
    var s' := PutStart(c, s, t, obj);
    assert LocalOk(c, s, t);
    forall x, p | At(c, s', x, p) && !p.Uncarved? ensures x in s'.place && s'.place[x] == p {
      PutShowsPlaces(c, s, t, obj, x, p);
    }
    forall x | x in s'.place ensures PlaceOk(c, s', x) {
      assert x in s.place && PlaceOk(c, s, x);
    }
  }

  lemma RenewKeepsPlaces(c: Config, s: State, t: nat)
    requires c.Valid() && Inv(c, s) && t in s.threads && s.threads[t].pc.Spilled?
    ensures PlacesOk(c, PutRenew(s, t))
  {
    var s' := PutRenew(s, t);
    assert LocalOk(c, s, t);
    assert At(c, s, s.threads[t].pc.obj, InHand(t));
    forall x, p | At(c, s', x, p) && !p.Uncarved? ensures x in s'.place && s'.place[x] == p {
      assert p == InCache(t, 0) || At(c, s, x, p);
    }
    forall x | x in s'.place ensures PlaceOk(c, s', x) {
      assert x in s.place && PlaceOk(c, s, x);
    }
  }

  lemma ExitKeepsPlaces(c: Config, s: State, t: nat)
    requires c.Valid() && Inv(c, s) && t in s.threads && s.threads[t].pc.Idle?
    ensures PlacesOk(c, ThreadExit(s, t))
  {
    var s' := ThreadExit(s, t);
    forall x, p | At(c, s', x, p) && !p.Uncarved? ensures x in s'.place && s'.place[x] == p {
      assert p.Discarded? || At(c, s, x, p);
    }
    forall x | x in s'.place ensures PlaceOk(c, s', x) {
      assert x in s.place && PlaceOk(c, s, x);
    }
  }

  lemma NextKeepsInv(c: Config, s: State, a: Action)
    requires c.Valid() && Inv(c, s) && Enabled(s, a)
    ensures Inv(c, Next(c, s, a))
  {
    NextKeepsCarved(c, s, a);
    NextKeepsLocals(c, s, a);
    NextKeepsApart(c, s, a);
    NextKeepsLists(c, s, a);
    match a
    case DoGetStart(t) => StartKeepsPlaces(c, s, t);
    case DoGetLook(t, seemsEmpty) => LookKeepsPlaces(c, s, t, seemsEmpty);
    case DoGetAdopt(t) => AdoptKeepsPlaces(c, s, t);
    case DoGetCarve(t, spare) => CarveKeepsPlaces(c, s, t, spare);
    case DoPutStart(t, obj) => PutKeepsPlaces(c, s, t, obj);
    case DoPutRenew(t) => RenewKeepsPlaces(c, s, t);
    case DoThreadExit(t) => ExitKeepsPlaces(c, s, t);
  }

  lemma StepKeepsInv(c: Config, s: State, s': State)
    requires c.Valid() && Inv(c, s) && Step(c, s, s')
    ensures Inv(c, s')
  {
    var a :| StepBy(c, s, a, s');
    NextKeepsInv(c, s, a);
  }

  lemma InitInv(c: Config, s: State)
    requires c.Valid() && Init(s)
    ensures Inv(c, s)
  {
    forall t | t in s.threads ensures LocalOk(c, s, t) {
      assert s.threads[t] == Local(None, None, Idle, None);
    }
  }

  lemma RunInv(c: Config, run: seq<State>, i: nat)
    requires c.Valid() && IsRun(c, run) && i < |run|
    ensures Inv(c, run[i])
  {
    InitInv(c, run[0]);
    forall s, s' | Inv(c, s) && Step(c, s, s') ensures Inv(c, s') { StepKeepsInv(c, s, s'); }
    Runs.Invariant(run, 0, i, s => Inv(c, s), (s, s') => Step(c, s, s'));
  }

  // ---------------------------------------------------------------- theorems

  /** Conservation: in every reachable state each slot of each buffer is at exactly one place:
      live, in one thread's cache, in a cache on its way between the list and a thread, in one
      listed cache, in the hands of a put, discarded, or not carved yet. */
  lemma EverySlotInOnePlace(c: Config, run: seq<State>, i: nat, x: Slot)
    requires c.Valid() && IsRun(c, run) && i < |run|
    requires x.buffer in run[i].buffers && x.index < c.BufferObjects()
    ensures exists p :: At(c, run[i], x, p) && forall q :: At(c, run[i], x, q) ==> q == p
  {
    RunInv(c, run, i);
    var s := run[i];
    var p := if x in s.place then s.place[x] else Uncarved;
    if x in s.place { assert PlaceOk(c, s, x); }
    assert At(c, s, x, p);
  }

  /** No list, cache or hand holds anything that is not a slot of an allocated buffer. */
  lemma OnlySlotsAnywhere(c: Config, run: seq<State>, i: nat, x: Slot, p: Place)
    requires c.Valid() && IsRun(c, run) && i < |run| && At(c, run[i], x, p)
    ensures x.buffer in run[i].buffers && x.index < c.BufferObjects()
  {
    RunInv(c, run, i);
  }

  /** Where a step takes a slot that is at place p: the last object of a cache that get takes from becomes
      live; a listed cache goes to one thread, and a full one to the end of the list, whole and in its
      order; put takes its object; and the exit of a thread discards its cache and nothing else. */
  function MovedTo(c: Config, s: State, a: Action, x: Slot, p: Place): Place
    requires c.Valid() && Enabled(s, a)
  {
    var l := s.threads[a.t];
    var cached := if l.cache.None? then 0 else |l.cache.value|;
    match a
    case DoGetStart(t) => if cached > 0 && p == InCache(t, cached - 1) then Live else p
    case DoGetLook(t, seemsEmpty) =>
      if !seemsEmpty && p.Listed? && p.list == |s.cacheList| - 1 then Held(t, p.at) else p
    case DoGetAdopt(t) =>
      if p.Held? && p.thread == t then (if p.at == |l.pc.next| - 1 then Live else InCache(t, p.at)) else p
    case DoGetCarve(t, spare) =>
      if p.Uncarved? && l.buffer == Some(x.buffer) && x.buffer in s.buffers && x.index == s.buffers[x.buffer] then Live
      else p
    case DoPutStart(t, obj) =>
      if x == obj then (if cached < c.cacheObjects then InCache(t, cached) else InHand(t))
      else if cached >= c.cacheObjects && p.InCache? && p.thread == t then Listed(|s.cacheList|, p.at)
      else p
    case DoPutRenew(t) => if p == InHand(t) then InCache(t, 0) else p
    case DoThreadExit(t) => if p.InCache? && p.thread == t then Discarded else p
  }

  lemma NextMoves(c: Config, s: State, a: Action, x: Slot)
    requires c.Valid() && Inv(c, s) && Enabled(s, a) && x in s.place
    ensures x in Next(c, s, a).place && Next(c, s, a).place[x] == MovedTo(c, s, a, x, s.place[x])
  {
    assert LocalOk(c, s, a.t) && PlaceOk(c, s, x);
    var cache := CacheOf(s.threads[a.t]);
    if a.DoGetStart? && cache != [] { assert At(c, s, cache[|cache| - 1], InCache(a.t, |cache| - 1)); }
    if a.DoGetAdopt? {
      var next := s.threads[a.t].pc.next;
      assert At(c, s, next[|next| - 1], Held(a.t, |next| - 1));
    }
    if a.DoPutRenew? { assert At(c, s, s.threads[a.t].pc.obj, InHand(a.t)); }
  }

  lemma UncarvedMoves(c: Config, s: State, a: Action, x: Slot)
    requires c.Valid() && Inv(c, s) && Enabled(s, a) && At(c, s, x, Uncarved)
    ensures At(c, Next(c, s, a), x, MovedTo(c, s, a, x, Uncarved))
  {
    assert LocalOk(c, s, a.t);
    assert x !in s.place;
  }

  /** In every run each step moves every slot exactly so. */
  lemma SlotsMoveExactly(c: Config, run: seq<State>, i: nat, a: Action, x: Slot, p: Place)
    requires c.Valid() && IsRun(c, run) && i < |run| && Enabled(run[i], a) && At(c, run[i], x, p)
    ensures At(c, Next(c, run[i], a), x, MovedTo(c, run[i], a, x, p))
  {
    RunInv(c, run, i);
    if p.Uncarved? {
      UncarvedMoves(c, run[i], a, x);
    } else {
      assert x in run[i].place && run[i].place[x] == p;
      NextMoves(c, run[i], a, x);
      NextKeepsInv(c, run[i], a);
      assert PlaceOk(c, Next(c, run[i], a), x);
    }
  }

  /** Only the exit of a thread loses objects, and only those in its own cache. */
  lemma OnlyExitDiscards(c: Config, run: seq<State>, i: nat, a: Action, x: Slot)
    requires c.Valid() && IsRun(c, run) && i < |run| && Enabled(run[i], a)
    requires x.buffer in run[i].buffers && x.index < c.BufferObjects()
    ensures At(c, Next(c, run[i], a), x, Discarded) <==>
      At(c, run[i], x, Discarded) || (a.DoThreadExit? && exists k :: At(c, run[i], x, InCache(a.t, k)))
  {
    RunInv(c, run, i);
    EverySlotInOnePlace(c, run, i, x);
    var p :| At(c, run[i], x, p) && forall q :: At(c, run[i], x, q) ==> q == p;
    SlotsMoveExactly(c, run, i, a, x, p);
    NextKeepsInv(c, run[i], a);
    assert At(c, Next(c, run[i], a), x, Discarded) ==> MovedTo(c, run[i], a, x, p) == Discarded;
  }

  ghost function LiveSet(s: State): set<Slot> {
    set x | x in s.place && s.place[x] == Live
  }

  /** The step with which a get returns. */
  predicate Returns(c: Config, s: State, a: Action)
    requires c.Valid() && Enabled(s, a)
  {
    (a.DoGetStart? || a.DoGetAdopt? || a.DoGetCarve?) && Next(c, s, a).threads[a.t].pc.Idle?
  }

  lemma ReturnsUnused(c: Config, s: State, a: Action)
    requires c.Valid() && Inv(c, s) && Enabled(s, a) && Returns(c, s, a)
    ensures
      var s' := Next(c, s, a);
      s'.threads[a.t].got.Some? &&
      var obj := s'.threads[a.t].got.value;
      !IsLive(s, obj) && LiveSet(s') == LiveSet(s) + {obj}
  {
    var s' := Next(c, s, a);
    assert LocalOk(c, s, a.t);
    var obj := s'.threads[a.t].got.value;
    if a.DoGetStart? { assert At(c, s, obj, InCache(a.t, |CacheOf(s.threads[a.t])| - 1)); }
    if a.DoGetAdopt? { assert At(c, s, obj, Held(a.t, |s.threads[a.t].pc.next| - 1)); }
    forall x ensures x in LiveSet(s') <==> x in LiveSet(s) || x == obj {
    }
  }

  /** A get returns an object that nobody holds, and makes live nothing else; a put takes exactly
      its object back; nothing else changes what is live, the exit of a thread included. */
  lemma LiveChangesExactly(c: Config, run: seq<State>, i: nat, a: Action)
    requires c.Valid() && IsRun(c, run) && i < |run| && Enabled(run[i], a)
    ensures
      var s := run[i];
      var s' := Next(c, s, a);
      if Returns(c, s, a) then
        s'.threads[a.t].got.Some? && !IsLive(s, s'.threads[a.t].got.value)
        && LiveSet(s') == LiveSet(s) + {s'.threads[a.t].got.value}
      else if a.DoPutStart? then LiveSet(s') == LiveSet(s) - {a.obj}
      else LiveSet(s') == LiveSet(s)
  {
    RunInv(c, run, i);
    var s := run[i];
    if Returns(c, s, a) {
      ReturnsUnused(c, s, a);
    } else {
      OthersKeepLive(c, s, a);
    }
  }

  lemma OthersKeepLive(c: Config, s: State, a: Action)
    requires c.Valid() && Inv(c, s) && Enabled(s, a) && !Returns(c, s, a)
    ensures LiveSet(Next(c, s, a)) == if a.DoPutStart? then LiveSet(s) - {a.obj} else LiveSet(s)
  {
    assert LocalOk(c, s, a.t);
    var s' := Next(c, s, a);
    if a.DoPutRenew? { assert At(c, s, s.threads[a.t].pc.obj, InHand(a.t)); }
    forall x ensures x in LiveSet(s') <==> x in LiveSet(s) && !(a.DoPutStart? && x == a.obj) {
    }
  }

  /** A cache taken from the list is full, so that get may take its last object unseen. */
  lemma TakenCachesAreFull(c: Config, run: seq<State>, i: nat, t: nat)
    requires c.Valid() && IsRun(c, run) && i < |run|
    requires t in run[i].threads && run[i].threads[t].pc.Holding?
    ensures |run[i].threads[t].pc.next| == c.cacheObjects && Enabled(run[i], DoGetAdopt(t))
    ensures run[i].threads[t].cache == Some([])
  {
    RunInv(c, run, i);
    assert LocalOk(c, run[i], t);
  }

  /** No thread is ever stuck inside get or put, whatever the others have done. */
  lemma EveryThreadMoves(c: Config, run: seq<State>, i: nat, t: nat, spare: nat)
    requires c.Valid() && IsRun(c, run) && i < |run| && t in run[i].threads && spare !in run[i].buffers
    ensures exists a: Action :: a.t == t && !a.DoThreadExit? && Enabled(run[i], a)
    ensures run[i].threads[t].pc.Idle? ==> Enabled(run[i], DoGetStart(t)) && Enabled(run[i], DoThreadExit(t))
    ensures forall x :: run[i].threads[t].pc.Idle? && At(c, run[i], x, Live) ==> Enabled(run[i], DoPutStart(t, x))
  {
    RunInv(c, run, i);
    assert LocalOk(c, run[i], t);
    var a := match run[i].threads[t].pc
      case Idle => DoGetStart(t)
      case Looking => DoGetLook(t, false)
      case Holding(_) => DoGetAdopt(t)
      case Carving => DoGetCarve(t, spare)
      case Renewing => DoGetCarve(t, spare)
      case Spilled(_) => DoPutRenew(t);
    assert Enabled(run[i], a);
  }

  /** Carving without a lock is safe: a buffer in use belongs to one thread and is not retired;
      a retired one is carved out completely. */
  lemma BuffersArePrivate(c: Config, run: seq<State>, i: nat, t: nat, b: nat)
    requires c.Valid() && IsRun(c, run) && i < |run|
    requires t in run[i].threads && run[i].threads[t].buffer == Some(b)
    ensures b in run[i].buffers && b !in run[i].bufferList
    ensures forall u :: u in run[i].threads && run[i].threads[u].buffer == Some(b) ==> u == t
    ensures forall d :: d in run[i].bufferList ==> d in run[i].buffers && run[i].buffers[d] == c.BufferObjects()
  {
    RunInv(c, run, i);
    assert LocalOk(c, run[i], t);
  }

  // ---------------------------------------------------------------- addresses

  /** Where the buffers lie in memory. */
  predicate Laid(c: Config, s: State, base: map<nat, nat>) {
    && s.buffers.Keys <= base.Keys
    && forall b, d :: b in s.buffers && d in s.buffers && b != d ==>
         base[b] + c.bufferSize <= base[d] || base[d] + c.bufferSize <= base[b]
  }

  function Address(c: Config, base: map<nat, nat>, x: Slot): nat
    requires x.buffer in base
  {
    base[x.buffer] + Offset(c, x.index)
  }

  function Offset(c: Config, i: nat): nat {
    i * c.objectSize
  }

  lemma OffsetsApart(c: Config, i: nat, j: nat)
    requires i < j
    ensures Offset(c, i) + c.objectSize <= Offset(c, j)
  {
    assert (i + 1) * c.objectSize <= j * c.objectSize;
  }

  lemma SlotFits(c: Config, i: nat)
    requires c.Valid() && i < c.BufferObjects()
    ensures Offset(c, i) + c.objectSize <= c.bufferSize
  {
    var n := c.BufferObjects();
    assert n * c.objectSize <= c.bufferSize;
    OffsetsApart(c, i, n);
  }

  /** Distinct objects never share a byte, and lie inside their buffers. */
  lemma ObjectsDisjoint(c: Config, run: seq<State>, i: nat, base: map<nat, nat>, x: Slot, y: Slot)
    requires c.Valid() && IsRun(c, run) && i < |run| && Laid(c, run[i], base)
    requires x in run[i].place && y in run[i].place && x != y
    ensures x.buffer in base && y.buffer in base
    ensures base[x.buffer] <= Address(c, base, x)
    ensures Address(c, base, x) + c.objectSize <= base[x.buffer] + c.bufferSize
    ensures Address(c, base, x) + c.objectSize <= Address(c, base, y)
         || Address(c, base, y) + c.objectSize <= Address(c, base, x)
  {
    RunInv(c, run, i);
    CarvedDisjoint(c, run[i], base, x, y);
  }

  lemma CarvedDisjoint(c: Config, s: State, base: map<nat, nat>, x: Slot, y: Slot)
    requires c.Valid() && Laid(c, s, base) && x != y
    requires x.buffer in s.buffers && y.buffer in s.buffers
    requires x.index < c.BufferObjects() && y.index < c.BufferObjects()
    ensures x.buffer in base && y.buffer in base
    ensures base[x.buffer] <= Address(c, base, x)
    ensures Address(c, base, x) + c.objectSize <= base[x.buffer] + c.bufferSize
    ensures Address(c, base, x) + c.objectSize <= Address(c, base, y)
         || Address(c, base, y) + c.objectSize <= Address(c, base, x)
  {
    SlotFits(c, x.index);
    SlotFits(c, y.index);
    if x.buffer == y.buffer {
      if x.index < y.index {
        OffsetsApart(c, x.index, y.index);
      } else {
        OffsetsApart(c, y.index, x.index);
      }
    }
  }

  // ---------------------------------------------------------------- the allocator object

  // this_thread_data_ of one thread
  datatype ThreadData = ThreadData(cache: Option<Cache>, buffer: Option<nat>)

  // What one thread sees of the allocator
  datatype View = View(cacheList: seq<Cache>, bufferList: seq<nat>, buffers: map<nat, nat>, data: ThreadData)

  function Cached(d: ThreadData): Cache {
    if d.cache.None? then [] else d.cache.value
  }

  /** The ways of a get, in their order: from the thread's own cache; from the listed cache, which the
      thread keeps; from the thread's buffer; from a new buffer, after listing a full one. */
  predicate Got(c: Config, v: View, seemsEmpty: bool, spare: nat, v': View, obj: Slot)
    requires c.Valid()
  {
    if Cached(v.data) != [] then
      && Cached(v.data) == Cached(v'.data) + [obj] && v'.data.cache.Some?
      && v' == v.(data := v.data.(cache := v'.data.cache))
    else if !seemsEmpty && v.cacheList != [] then
      && v.cacheList == v'.cacheList + [Cached(v'.data) + [obj]] && v'.data.cache.Some?
      && v' == v.(cacheList := v'.cacheList, data := v.data.(cache := v'.data.cache))
    else
      && v'.cacheList == v.cacheList && v'.data == ThreadData(Some([]), Some(obj.buffer))
      && v'.buffers == v.buffers[obj.buffer := obj.index + 1]
      && if v.data.buffer.Some? && Used(v.buffers, v.data.buffer.value) < c.BufferObjects() then
           obj == Slot(v.data.buffer.value, Used(v.buffers, v.data.buffer.value)) && v'.bufferList == v.bufferList
         else
           && obj == Slot(spare, 0)
           && v'.bufferList == v.bufferList + if v.data.buffer.Some? then [v.data.buffer.value] else []
  }

  function Used(buffers: map<nat, nat>, b: nat): nat {
    if b in buffers then buffers[b] else 0
  }

  /** The ways of a put: into the thread's cache while that has room; else the full cache goes to the
      end of the list as it is, and the object starts a new one. */
  predicate PutAway(c: Config, v: View, obj: Slot, v': View) {
    if |Cached(v.data)| < c.cacheObjects then
      v' == v.(data := v.data.(cache := Some(Cached(v.data) + [obj])))
    else
      v' == v.(cacheList := v.cacheList + [Cached(v.data)], data := v.data.(cache := Some([obj])))
  }

  /** The allocator, its thread-local data and its buffers.  `trace` is the state the theorems speak
      about; get and put run their steps without another thread between them. */
  class MemCache {
    const config: Config
    var cacheList: seq<Cache>
    var bufferList: seq<nat>
    var buffers: map<nat, nat>
    var local: map<nat, ThreadData>
    ghost var trace: State

    ghost function Seen(t: nat): View
      requires t in local
      reads this
    {
      View(cacheList, bufferList, buffers, local[t])
    }

    ghost predicate Shows(s: State)
      reads this
    {
      && s.cacheList == cacheList && s.bufferList == bufferList && s.buffers == buffers
      && s.threads.Keys == local.Keys
      && forall t :: t in local ==> local[t] == ThreadData(s.threads[t].cache, s.threads[t].buffer)
    }

    ghost predicate Valid()
      reads this
    {
      config.Valid() && Shows(trace) && Inv(config, trace)
    }

    constructor (c: Config, ids: set<nat>)
      requires c.Valid()
      ensures Valid() && config == c && Init(trace) && local.Keys == ids
    {
      config := c;
      cacheList, bufferList, buffers := [], [], map[];
      local := map t | t in ids :: ThreadData(None, None);
      trace := State(map t | t in ids :: Local(None, None, Idle, None), [], [], map[], map[]);
      new;
      InitInv(c, trace);
    }

    /** `spare` is the buffer that `new` would return. */
    method Get(t: nat, seemsEmpty: bool, spare: nat) returns (obj: Slot)
      requires Valid() && t in local && trace.threads[t].pc.Idle? && spare !in buffers
      modifies this`cacheList, this`bufferList, this`buffers, this`local, this`trace
      ensures Valid() && t in local && trace.threads[t].pc.Idle?
      ensures trace == GetAll(config, old(trace), t, seemsEmpty, spare)
      ensures trace.threads[t].got == Some(obj)
      ensures local == old(local)[t := local[t]]
      ensures Got(config, old(Seen(t)), seemsEmpty, spare, Seen(t), obj)
      ensures obj !in LiveSet(old(trace)) && LiveSet(trace) == LiveSet(old(trace)) + {obj}
    {
      assert LocalOk(config, trace, t);
      ghost var after := GetAll(config, trace, t, seemsEmpty, spare);
      GetAllIsRun(config, trace, t, seemsEmpty, spare);
      GetAllIsGot(config, trace, t, seemsEmpty, spare);
      obj := Fetch(t, seemsEmpty, spare, after);
      trace := after;
    }

    method Fetch(t: nat, seemsEmpty: bool, spare: nat, ghost after: State) returns (obj: Slot)
      requires config.Valid() && Shows(trace) && t in local && trace.threads[t].pc.Idle? && spare !in buffers
      requires ListsOk(config, trace) && LocalOk(config, trace, t)
      requires after == GetAll(config, trace, t, seemsEmpty, spare)
      modifies this`cacheList, this`bufferList, this`buffers, this`local
      ensures Shows(after) && t in after.threads && after.threads[t].got == Some(obj) && t in local
      ensures local == old(local)[t := local[t]]
    {
      if local[t].cache.Some? && local[t].cache.value != [] {
        OwnPath(config, trace, t, seemsEmpty, spare);
        obj := GetOwn(t, after);
      } else if !seemsEmpty && cacheList != [] {
        ListPath(config, trace, t, seemsEmpty, spare);
        obj := GetListed(t, after);
      } else {
        BufferPath(config, trace, t, seemsEmpty, spare);
        obj := GetCarved(t, spare, after);
      }
    }

    // Path 1 of get
    method GetOwn(t: nat, ghost after: State) returns (obj: Slot)
      requires Shows(trace) && t in local && local[t].cache.Some? && local[t].cache.value != []
      requires
        var cache := local[t].cache.value;
        Leaves(trace, after, t, cacheList, bufferList, buffers,
          ThreadData(Some(cache[..|cache| - 1]), local[t].buffer), cache[|cache| - 1])
      modifies this`local
      ensures Shows(after) && after.threads[t].got == Some(obj) && t in local
      ensures local == old(local)[t := local[t]]
    {
      var cache := local[t].cache.value;
      obj := cache[|cache| - 1];
      local := local[t := local[t].(cache := Some(cache[..|cache| - 1]))];
    }

    // Path 2 of get
    method GetListed(t: nat, ghost after: State) returns (obj: Slot)
      requires Shows(trace) && t in local && cacheList != [] && cacheList[|cacheList| - 1] != []
      requires
        var cache := cacheList[|cacheList| - 1];
        Leaves(trace, after, t, cacheList[..|cacheList| - 1], bufferList, buffers,
          ThreadData(Some(cache[..|cache| - 1]), local[t].buffer), cache[|cache| - 1])
      modifies this`cacheList, this`local
      ensures Shows(after) && after.threads[t].got == Some(obj) && t in local
      ensures local == old(local)[t := local[t]]
    {
      var cache := cacheList[|cacheList| - 1];
      cacheList := cacheList[..|cacheList| - 1];
      obj := cache[|cache| - 1];
      local := local[t := local[t].(cache := Some(cache[..|cache| - 1]))];
    }

    // Paths 3 and 4 of get
    method GetCarved(t: nat, spare: nat, ghost after: State) returns (obj: Slot)
      requires Shows(trace) && t in local && config.Valid()
      requires
        var b := if local[t].buffer.None? then spare else local[t].buffer.value;
        var used := if b in buffers then buffers[b] else 0;
        var full := used >= config.BufferObjects();
        var b' := if full then spare else b;
        var used' := if full then 0 else used;
        Leaves(trace, after, t, cacheList, if full then bufferList + [b] else bufferList, buffers[b' := used' + 1],
          ThreadData(Some([]), Some(b')), Slot(b', used'))
      modifies this`bufferList, this`buffers, this`local
      ensures Shows(after) && after.threads[t].got == Some(obj) && t in local
      ensures local == old(local)[t := local[t]]
    {
      var b := if local[t].buffer.None? then spare else local[t].buffer.value;
      var used := if b in buffers then buffers[b] else 0;
      if used >= config.BufferObjects() {
        bufferList := bufferList + [b];
        b, used := spare, 0;
      }
      obj := Slot(b, used);
      buffers := buffers[b := used + 1];
      local := local[t := ThreadData(Some([]), Some(b))];
    }

    method Put(t: nat, obj: Slot)
      requires Valid() && t in local && trace.threads[t].pc.Idle? && IsLive(trace, obj)
      modifies this`cacheList, this`local, this`trace
      ensures Valid() && t in local && trace.threads[t].pc.Idle?
      ensures trace == PutAll(config, old(trace), t, obj)
      ensures local == old(local)[t := local[t]] && PutAway(config, old(Seen(t)), obj, Seen(t))
      ensures LiveSet(trace) == LiveSet(old(trace)) - {obj}
    {
      var my := local[t];
      var cache := if my.cache.None? then [] else my.cache.value;
      PutAllIsRun(config, trace, t, obj);
      trace := PutAll(config, trace, t, obj);
      if |cache| < config.cacheObjects {
        cache := cache + [obj];
      } else {
        cacheList := cacheList + [cache];
        cache := [obj];
      }
      local := local[t := my.(cache := Some(cache))];
    }

    /** The cache is deleted with all its objects; the buffer stays. */
    method OnThreadExit(t: nat)
      requires Valid() && t in local && trace.threads[t].pc.Idle?
      modifies this`local, this`trace
      ensures Valid() && trace == ThreadExit(old(trace), t) && LiveSet(trace) == LiveSet(old(trace))
      ensures local == old(local)[t := ThreadData(None, old(local[t].buffer))]
      ensures forall x :: x in Cached(old(local[t])) ==> At(config, trace, x, Discarded)
    {
      NextKeepsInv(config, trace, DoThreadExit(t));
      OthersKeepLive(config, trace, DoThreadExit(t));
      CacheIsDiscarded(config, trace, t);
      trace := ThreadExit(trace, t);
      local := local[t := local[t].(cache := None)];
    }
  }

  lemma CacheIsDiscarded(c: Config, s: State, t: nat)
    requires c.Valid() && Inv(c, s) && t in s.threads
    ensures forall x :: x in CacheOf(s.threads[t]) ==> At(c, ThreadExit(s, t), x, Discarded)
  {
    var cache := CacheOf(s.threads[t]);
    forall x | x in cache ensures At(c, ThreadExit(s, t), x, Discarded) {
      var k :| 0 <= k < |cache| && cache[k] == x;
      assert At(c, s, x, InCache(t, k));
    }
  }

  /** The steps of one get. */
  function GetAll(c: Config, s: State, t: nat, seemsEmpty: bool, spare: nat): State
    requires c.Valid() && t in s.threads
  {
    var started := GetStart(s, t);
    if started.threads[t].pc != Looking then started else GetRest(c, started, t, seemsEmpty, spare)
  }

  function PutAll(c: Config, s: State, t: nat, obj: Slot): State
    requires t in s.threads
  {
    var put := PutStart(c, s, t, obj);
    if put.threads[t].pc.Spilled? then PutRenew(put, t) else put
  }

  lemma GetAllIsRun(c: Config, s: State, t: nat, seemsEmpty: bool, spare: nat)
    requires c.Valid() && Inv(c, s) && t in s.threads && s.threads[t].pc.Idle? && spare !in s.buffers
    ensures GotNew(c, s, GetAll(c, s, t, seemsEmpty, spare), t)
  {
    var start := DoGetStart(t);
    var s1 := GetStart(s, t);
    if s1.threads[t].pc.Idle? {
      ReturnsNew(c, s, start);
    } else {
      NextKeepsInv(c, s, start);
      OthersKeepLive(c, s, start);
      FetchOrCarve(c, s1, t, seemsEmpty, spare);
      SameLiveGotNew(c, s, s1, GetRest(c, s1, t, seemsEmpty, spare), t);
    }
  }

  function GetRest(c: Config, s: State, t: nat, seemsEmpty: bool, spare: nat): State
    requires c.Valid() && t in s.threads
  {
    var looked := GetLook(s, t, seemsEmpty);
    if looked.threads[t].pc.Holding? && looked.threads[t].pc.next != [] then GetAdopt(looked, t) else
    var carved := GetCarve(c, looked, t, spare);
    if carved.threads[t].pc.Idle? then carved else GetCarve(c, carved, t, spare)
  }

  lemma LookEffect(c: Config, s: State, t: nat, seemsEmpty: bool)
    requires c.Valid() && Inv(c, s) && t in s.threads && s.threads[t].pc.Looking?
    ensures
      var s' := GetLook(s, t, seemsEmpty);
      && Inv(c, s') && LiveSet(s') == LiveSet(s) && s'.threads.Keys == s.threads.Keys && s'.buffers == s.buffers
      && (s'.threads[t].pc.Holding? ==> s'.threads[t].pc.next != [])
      && (s'.threads[t].pc.Holding? || s'.threads[t].pc.Carving?)
  {
    var look := DoGetLook(t, seemsEmpty);
    NextKeepsInv(c, s, look);
    OthersKeepLive(c, s, look);
    assert LocalOk(c, GetLook(s, t, seemsEmpty), t);
  }

  // A get that returns with this step
  ghost predicate GotNew(c: Config, s: State, s': State, t: nat)
    requires c.Valid()
  {
    && Inv(c, s') && s'.threads.Keys == s.threads.Keys && t in s'.threads
    && s'.threads[t].pc.Idle? && s'.threads[t].got.Some?
    && s'.threads[t].got.value !in LiveSet(s) && LiveSet(s') == LiveSet(s) + {s'.threads[t].got.value}
  }

  lemma ReturnsNew(c: Config, s: State, a: Action)
    requires c.Valid() && Inv(c, s) && Enabled(s, a) && Returns(c, s, a)
    ensures GotNew(c, s, Next(c, s, a), a.t)
  {
    NextKeepsInv(c, s, a);
    ReturnsUnused(c, s, a);
  }

  lemma SameLiveGotNew(c: Config, s: State, s1: State, s': State, t: nat)
    requires c.Valid() && GotNew(c, s1, s', t) && LiveSet(s1) == LiveSet(s) && s1.threads.Keys == s.threads.Keys
    ensures GotNew(c, s, s', t)
  {
  }

  lemma FetchOrCarve(c: Config, s: State, t: nat, seemsEmpty: bool, spare: nat)
    requires c.Valid() && Inv(c, s) && t in s.threads && s.threads[t].pc.Looking? && spare !in s.buffers
    ensures GotNew(c, s, GetRest(c, s, t, seemsEmpty, spare), t)
  {
    LookEffect(c, s, t, seemsEmpty);
    var s1 := GetLook(s, t, seemsEmpty);
    if s1.threads[t].pc.Holding? {
      ReturnsNew(c, s1, DoGetAdopt(t));
    } else {
      CarveAll(c, s1, t, spare);
    }
    SameLiveGotNew(c, s, s1, GetRest(c, s, t, seemsEmpty, spare), t);
  }

  lemma CarveAll(c: Config, s: State, t: nat, spare: nat)
    requires c.Valid() && Inv(c, s) && t in s.threads && s.threads[t].pc.Carving? && spare !in s.buffers
    ensures
      var carved := GetCarve(c, s, t, spare);
      && t in carved.threads
      && GotNew(c, s, if carved.threads[t].pc.Idle? then carved else GetCarve(c, carved, t, spare), t)
  {
    var carve := DoGetCarve(t, spare);
    var s1 := GetCarve(c, s, t, spare);
    if s1.threads[t].pc.Idle? {
      ReturnsNew(c, s, carve);
    } else {
      NextKeepsInv(c, s, carve);
      OthersKeepLive(c, s, carve);
      ReturnsNew(c, s1, carve);
      SameLiveGotNew(c, s, s1, GetCarve(c, s1, t, spare), t);
    }
  }

  // What a step sequence of thread t leaves in the lists, the buffers and its own data
  predicate Leaves(s: State, s': State, t: nat, cacheList: seq<Cache>, bufferList: seq<nat>, buffers: map<nat, nat>,
    data: ThreadData, obj: Slot)
  {
    && s'.cacheList == cacheList && s'.bufferList == bufferList && s'.buffers == buffers
    && s'.threads.Keys == s.threads.Keys && t in s'.threads
    && (forall u :: u in s.threads && u != t ==> s'.threads[u] == s.threads[u])
    && data == ThreadData(s'.threads[t].cache, s'.threads[t].buffer) && s'.threads[t].got == Some(obj)
  }

  lemma OwnPath(c: Config, s: State, t: nat, seemsEmpty: bool, spare: nat)
    requires c.Valid() && t in s.threads && CacheOf(s.threads[t]) != [] && s.threads[t].pc.Idle?
    ensures
      var cache := CacheOf(s.threads[t]);
      Leaves(s, GetAll(c, s, t, seemsEmpty, spare), t, s.cacheList, s.bufferList, s.buffers,
        ThreadData(Some(cache[..|cache| - 1]), s.threads[t].buffer), cache[|cache| - 1])
  {
  }

  lemma ListPath(c: Config, s: State, t: nat, seemsEmpty: bool, spare: nat)
    requires c.Valid() && ListsOk(c, s) && t in s.threads && CacheOf(s.threads[t]) == [] && s.threads[t].pc.Idle?
    requires !seemsEmpty && s.cacheList != []
    ensures
      var last := |s.cacheList| - 1;
      var cache := s.cacheList[last];
      && cache != []
      && Leaves(s, GetAll(c, s, t, seemsEmpty, spare), t, s.cacheList[..last], s.bufferList, s.buffers,
           ThreadData(Some(cache[..|cache| - 1]), s.threads[t].buffer), cache[|cache| - 1])
  {
    assert GetStart(s, t).cacheList == s.cacheList;
    assert GetLook(GetStart(s, t), t, seemsEmpty).threads[t].pc == Holding(s.cacheList[|s.cacheList| - 1]);
  }

  lemma BufferPath(c: Config, s: State, t: nat, seemsEmpty: bool, spare: nat)
    requires c.Valid() && t in s.threads && CacheOf(s.threads[t]) == [] && s.threads[t].pc.Idle? && LocalOk(c, s, t)
    requires (seemsEmpty || s.cacheList == []) && spare !in s.buffers
    ensures
      var own := s.threads[t].buffer;
      var b := if own.None? then spare else own.value;
      var used := if b in s.buffers then s.buffers[b] else 0;
      var full := used >= c.BufferObjects();
      var b' := if full then spare else b;
      var used' := if full then 0 else used;
      Leaves(s, GetAll(c, s, t, seemsEmpty, spare), t, s.cacheList,
        if full then s.bufferList + [b] else s.bufferList, s.buffers[b' := used' + 1],
        ThreadData(Some([]), Some(b')), Slot(b', used'))
  {
    HasObjects(c);
    var s1 := GetStart(s, t);
    var s2 := GetLook(s1, t, seemsEmpty);
    assert s2.threads[t] == Local(Some([]), s.threads[t].buffer, Carving, None);
    assert s2.buffers == s.buffers && s2.bufferList == s.bufferList && s2.cacheList == s.cacheList;
  }

  function ViewOf(s: State, t: nat): View
    requires t in s.threads
  {
    View(s.cacheList, s.bufferList, s.buffers, ThreadData(s.threads[t].cache, s.threads[t].buffer))
  }

  lemma GetAllIsGot(c: Config, s: State, t: nat, seemsEmpty: bool, spare: nat)
    requires c.Valid() && ListsOk(c, s) && t in s.threads && s.threads[t].pc.Idle? && LocalOk(c, s, t)
    requires spare !in s.buffers
    ensures
      var s' := GetAll(c, s, t, seemsEmpty, spare);
      && t in s'.threads && s'.threads[t].got.Some?
      && Got(c, ViewOf(s, t), seemsEmpty, spare, ViewOf(s', t), s'.threads[t].got.value)
  {
    var cache := CacheOf(s.threads[t]);
    if cache != [] {
      OwnPath(c, s, t, seemsEmpty, spare);
      assert cache == cache[..|cache| - 1] + [cache[|cache| - 1]];
    } else if !seemsEmpty && s.cacheList != [] {
      ListPath(c, s, t, seemsEmpty, spare);
      var last := |s.cacheList| - 1;
      var listed := s.cacheList[last];
      assert listed == listed[..|listed| - 1] + [listed[|listed| - 1]];
      assert s.cacheList == s.cacheList[..last] + [listed];
    } else {
      HasObjects(c);
      BufferPath(c, s, t, seemsEmpty, spare);
    }
  }

  lemma PutAllIsRun(c: Config, s: State, t: nat, obj: Slot)
    requires c.Valid() && Inv(c, s) && t in s.threads && s.threads[t].pc.Idle? && IsLive(s, obj)
    ensures Inv(c, PutAll(c, s, t, obj)) && LiveSet(PutAll(c, s, t, obj)) == LiveSet(s) - {obj}
    ensures PutAll(c, s, t, obj).threads[t].pc.Idle?
  {
    var put := DoPutStart(t, obj);
    NextKeepsInv(c, s, put);
    OthersKeepLive(c, s, put);
    var s1 := PutStart(c, s, t, obj);
    if s1.threads[t].pc.Spilled? {
      NextKeepsInv(c, s1, DoPutRenew(t));
      OthersKeepLive(c, s1, DoPutRenew(t));
    }
  }
}
