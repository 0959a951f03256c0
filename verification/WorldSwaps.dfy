/** Preparing a world for the next timestamp on a private copy, and a free that runs without
    interference. */
module WorldSwaps {
  import opened AbaTypes
  import opened Protocol
  import opened Windows
  import opened Storages
  import opened RealWindows
  import opened WorldObjects
  import opened ReuseLoop
  import opened TimeRange

  /** What a swap callback answers: 0, EAGAIN or EBUSY. */
  datatype Answer = Fine | Again | Busy

  method PreCheck(w: WorldStruct, bit: bool) returns (a: Answer)
    ensures a == if w.nThreads <= 1 then Again else if !bit then Busy else Fine
  {
    if w.nThreads <= 1 { return Again; }
    if !bit { return Busy; }
    a := Fine;
  }

  method SizeCheck(w: WorldStruct) returns (a: Answer)
    requires w.Valid()
    ensures a == if w.timestamp + 1 < End(w.Win()) then Fine else Busy
  {
    if w.timestamp - w.offset + 1 >= w.n * N { return Busy; }
    a := Fine;
  }

  /* ---- what is in the storages ---- */

  type Rows = map<TimestampStorage?, Store>

  /** What is in a storage; a new one is empty. */
  function StoreIn(m: Rows, s: TimestampStorage?): Store {
    if s in m then m[s] else Store({}, seq(N, _ => PRISTINE))
  }

  ghost predicate Contents(all: set<TimestampStorage?>, m: Rows)
    reads all
  {
    forall s :: s in all ==> s != null && s.Value() == StoreIn(m, s)
  }

  ghost function RowsOf(all: set<TimestampStorage?>): Rows
    requires null !in all
    reads all
  {
    map s | s in all :: s.Value()
  }

  lemma RowsOfContents(all: set<TimestampStorage?>)
    requires null !in all
    ensures RowsOf(all).Keys == all && Contents(all, RowsOf(all))
  {
  }

  /** A storage has got the usage bit of column c, and nothing else has changed. */
  function WithBit(m: Rows, s: TimestampStorage?, c: nat): Rows {
    m[s := Store(StoreIn(m, s).use + {c}, StoreIn(m, s).slots)]
  }

  /** A slot of a storage has got n more on its count and some items on its list. */
  function WithSlot(m: Rows, s: TimestampStorage?, c: nat, n: nat, items: multiset<Item>): Rows {
    var row := StoreIn(m, s);
    if c >= |row.slots| then m
    else m[s := row.(slots := row.slots[c := Slot(row.slots[c].rc + n, row.slots[c].list + items)])]
  }

  lemma WithSlots(m: Rows, s: TimestampStorage?, c: nat, n: nat, k: nat, a: multiset<Item>, b: multiset<Item>)
    ensures WithSlot(WithSlot(m, s, c, n, a), s, c, k, b) == WithSlot(m, s, c, n + k, a + b)
  {
    var row := StoreIn(m, s);
    if c < |row.slots| {
      var slot := row.slots[c];
      assert slot.list + (a + b) == slot.list + a + b;
      assert row.slots[c := Slot(slot.rc + n, slot.list + a)][c := Slot(slot.rc + n + k, slot.list + a + b)]
          == row.slots[c := Slot(slot.rc + n + k, slot.list + a + b)];
    }
  }

  /** The storage with the entry of the timestamp of a world. */
  ghost function Holder(w: WorldStruct): TimestampStorage?
    reads w, w.storage
  {
    if w.Valid() && InWindow(w.Win(), w.timestamp) then w.storage[RowAt(w.Win(), w.timestamp)] else null
  }

  /** The usage bit of the timestamp of a world is set. */
  ghost predicate Marked(w: WorldStruct)
    reads w, w.storage, set i | 0 <= i < w.storage.Length :: w.storage[i]
  {
    w.Valid() && Holder(w) != null && Column(w.timestamp) in Holder(w).usage
  }

  /** The next timestamp, with its usage bit set. */
  method IncrementTimestamp(w: WorldStruct, ghost all: set<TimestampStorage?>, ghost m: Rows)
    requires StoresValid(w) && InWindow(w.Win(), w.timestamp + 1) && w.Storages() <= all && Contents(all, m)
    modifies w`timestamp, w.Storages()`usage
    ensures StoresValid(w) && w.timestamp == old(w.timestamp) + 1
    ensures w.Win() == old(w.Win()) && Marked(w)
    ensures Contents(all, WithBit(m, Holder(w), Column(w.timestamp)))
  {
    w.timestamp := w.timestamp + 1;
    var i := w.GetStorageIndex(w.timestamp);
    var inUse := w.storage[i].SetUsageBit(Column(w.timestamp), true);
  }

  method CopyWorld(w: WorldStruct, size: nat, ghost idle: iset<Sid>) returns (copy: WorldStruct)
    requires StoresValid(w) && IdleNow(w, idle) && size >= w.storage.Length
    ensures fresh(copy) && fresh(copy.storage) && StoresValid(copy) && IdleNow(copy, idle)
    ensures copy.Value() == w.Value().(win := w.Win().(size := size)) && copy.Storages() == w.Storages()
  {
    copy := new WorldStruct(size);
    copy.CopyFrom(w);
    assert copy.storage[..copy.n] == w.storage[..w.n];
    assert forall i :: 0 <= i < w.n ==> copy.storage[i] == w.storage[i];
  }

  /** A copy that is ready to be swapped in as world `next`. */
  ghost predicate ReadyFor(copy: WorldStruct, next: World)
    reads copy, copy.storage, set i | 0 <= i < copy.storage.Length :: copy.storage[i]
  {
    StoresValid(copy) && Marked(copy) && copy.Value() == next
  }

  /** The end of every preparation: check the size, then increment the timestamp. */
  method FinishCopy(copy: WorldStruct, ghost was: World, ghost all: set<TimestampStorage?>, ghost m: Rows)
    returns (a: Answer)
    requires StoresValid(copy) && copy.Value() == was && was.win.offset <= was.ts + 1
    requires copy.Storages() <= all && Contents(all, m)
    modifies copy`timestamp, copy.Storages()`usage
    ensures StoresValid(copy) && copy.Storages() == old(copy.Storages())
    ensures a == if was.ts + 1 < End(was.win) then Fine else Busy
    ensures a == Fine ==> ReadyFor(copy, World(was.ts + 1, was.n, was.win))
    ensures Contents(all, if a == Fine then WithBit(m, Holder(copy), Column(was.ts + 1)) else m)
  {
    a := SizeCheck(copy);
    if a == Fine { IncrementTimestamp(copy, all, m); }
  }

  /** A world to prepare a successor of; `idle` are the storages without usage bits, and m is what is in them. */
  ghost predicate Source(w: WorldStruct, idle: iset<Sid>, was: World, m: Rows)
    reads w, w.storage, set i | 0 <= i < w.storage.Length :: w.storage[i]
  {
    && StoresValid(w) && IdleNow(w, idle) && w.Value() == was && WorldWinOk(was)
    && m.Keys <= w.Storages() && Contents(w.Storages(), m)
  }

  /** The next timestamp fits into the window as it is. */
  method PrepareIncrement(w: WorldStruct, bit: bool, ghost idle: iset<Sid>, ghost was: World, ghost m: Rows)
    returns (a: Answer, copy: WorldStruct)
    requires Source(w, idle, was, m)
    modifies w.Storages()`usage
    ensures a == if was.n <= 1 then Again else if bit && InWindow(was.win, was.ts + 1) then Fine else Busy
    ensures a == Fine ==> fresh(copy) && fresh(copy.storage) && ReadyFor(copy, World(was.ts + 1, was.n, was.win))
    ensures a == Fine ==> copy.Storages() == w.Storages()
    ensures Contents(w.Storages(), if a == Fine then WithBit(m, Holder(copy), Column(was.ts + 1)) else m)
  {
    hide Contents, ReadyFor;
    copy := CopyWorld(w, w.storage.Length, idle);
    a := PreCheck(copy, bit);
    if a == Fine { a := FinishCopy(copy, was, w.Storages(), m); }
  }

  /** A new storage at the end of a copy. */
  method AddStorage(copy: WorldStruct, id: Sid, ghost v: Window, ghost all: set<TimestampStorage?>)
    returns (s: TimestampStorage)
    requires StoresValid(copy) && copy.n < copy.storage.Length && copy.Win() == v && copy.Storages() == all
    requires id !in v.stores
    modifies copy`n, copy.storage
    ensures StoresValid(copy) && copy.Win() == AddStore(v, id, v.size)
    ensures fresh(s) && s.id == id && s.Value() == StoreIn(map[], s) && copy.Storages() == all + {s}
  {
    assert forall i :: 0 <= i < copy.n ==> copy.storage[i].id == v.stores[i];
    assert forall x :: x in all ==> x.Valid();
    s := new TimestampStorage(id);
    var ok := copy.PushStorage(s);
    assert forall i :: 0 <= i < copy.n ==> copy.storage[i] in copy.Storages();
  }

  lemma AddedHasRoom(w: World, id: Sid, size: nat)
    requires WorldWinOk(w) && id !in w.win.stores && |w.win.stores| < size
    ensures w.ts + 1 < End(AddStore(w.win, id, size)) && w.win.offset <= w.ts + 1
  {
    AddExtends(w.win, id, size);
  }

  method AddToCopy(copy: WorldStruct, id: Sid, ghost was: World, ghost all: set<TimestampStorage?>,
      ghost m: Rows)
    returns (a: Answer, s: TimestampStorage)
    requires StoresValid(copy) && copy.Value() == was && WorldWinOk(was) && id !in was.win.stores
    requires |was.win.stores| < was.win.size && copy.Storages() == all && m.Keys <= all && Contents(all, m)
    modifies copy`n, copy`timestamp, copy.storage, all`usage
    ensures a == Fine && ReadyFor(copy, World(was.ts + 1, was.n, AddStore(was.win, id, was.win.size)))
    ensures fresh(s) && copy.Storages() == all + {s}
    ensures Contents(copy.Storages(), WithBit(m, Holder(copy), Column(was.ts + 1)))
  {
    s := AddStorage(copy, id, was.win, all);
    AddedHasRoom(was, id, was.win.size);
    a := FinishCopy(copy, World(was.ts, was.n, AddStore(was.win, id, was.win.size)), all + {s}, m);
  }

  /** One storage more, in a copy of the given size. */
  method PrepareAdd(w: WorldStruct, bit: bool, id: Sid, size: nat, ghost idle: iset<Sid>, ghost was: World,
      ghost m: Rows)
    returns (a: Answer, copy: WorldStruct, s: TimestampStorage?)
    requires Source(w, idle, was, m) && id !in was.win.stores && size >= was.win.size
    modifies w.Storages()`usage
    ensures a == if was.n <= 1 then Again else if bit && |was.win.stores| < size then Fine else Busy
    ensures a == Fine ==>
      fresh(copy) && fresh(copy.storage) && ReadyFor(copy, World(was.ts + 1, was.n, AddStore(was.win, id, size)))
    ensures a == Fine ==> s != null && copy.Storages() == w.Storages() + {s}
    ensures a == Fine ==> Contents(copy.Storages(), WithBit(m, Holder(copy), Column(was.ts + 1)))
    ensures a != Fine ==> Contents(w.Storages(), m)
    ensures s != null ==> fresh(s)
  {
    hide Contents, ReadyFor;
    s := null;
    ghost var all := w.Storages();
    copy := CopyWorld(w, size, idle);
    a := PreCheck(copy, bit);
    if a != Fine { return; }
    if copy.n >= copy.storage.Length { a := Busy; return; }
    var added;
    a, added := AddToCopy(copy, id, was.(win := was.win.(size := size)), all, m);
    s := added;
  }

  /** Rotates the copy, but only if there is a storage to reuse. */
  method ReuseCopy(copy: WorldStruct, ghost idle: iset<Sid>, ghost was: World) returns (reused: nat)
    requires StoresValid(copy) && IdleNow(copy, idle) && copy.Value() == was && WorldWinOk(was) && was.ts > 0
    modifies copy`n, copy`offset, copy.storage
    ensures CurrentRow(was) < |was.win.stores| && reused == Rotated(was, Start(was), idle).reused
    ensures StoresValid(copy) && copy.Storages() == old(copy.Storages())
    ensures copy.Value() == was.(win := Rotated(was, Start(was), idle).win)
  {
    assert forall s :: s in copy.Storages() ==> s.Valid();
    reused := ReuseStorages(copy, idle, was);
    assert forall i :: 0 <= i < copy.n ==> copy.storage[i] in copy.Storages();
  }

  /** `e` is how the rotating pass ends. */
  ghost predicate EndsAs(was: World, idle: iset<Sid>, e: Plan) {
    && was.ts > 0 && CurrentRow(was) < |was.win.stores| && e == Rotated(was, Start(was), idle)
    && (e.reused > 0 ==> e.win.offset <= was.ts + 1 < End(e.win))
    && (e.reused > 0 <==> Counted(was.win, 0, CurrentRow(was), idle) > 0)
    && e.win == RotateBy(was.win, e.reused) && Extends(was.win, e.win)
  }

  lemma EndsSomehow(was: World, idle: iset<Sid>) returns (e: Plan)
    requires WorldWinOk(was) && was.ts > 0
    ensures EndsAs(was, idle, e) && e.Rotating?
  {
    CountMeansRoom(was, idle);
    e := Rotated(was, Start(was), idle);
    RotateExtends(was.win, e.reused);
  }

  method ReorganiseCopy(copy: WorldStruct, ghost idle: iset<Sid>, ghost was: World, ghost e: Plan,
      ghost m: Rows) returns (a: Answer)
    requires StoresValid(copy) && IdleNow(copy, idle) && copy.Value() == was && WorldWinOk(was)
    requires EndsAs(was, idle, e) && e.Rotating? && Contents(copy.Storages(), m)
    modifies copy`n, copy`offset, copy`timestamp, copy.storage, copy.Storages()`usage
    ensures StoresValid(copy) && copy.Storages() == old(copy.Storages())
    ensures a == if e.reused > 0 then Fine else Busy
    ensures a == Fine ==> ReadyFor(copy, World(was.ts + 1, was.n, e.win))
    ensures Contents(copy.Storages(), if a == Fine then WithBit(m, Holder(copy), Column(was.ts + 1)) else m)
  {
    var reused := ReuseCopy(copy, idle, was);
    if reused == 0 { return Busy; }
    a := FinishCopy(copy, World(was.ts, was.n, e.win), copy.Storages(), m);
  }

  /** The copy is reorganised to make room. */
  method PrepareReorganise(w: WorldStruct, bit: bool, ghost idle: iset<Sid>, ghost was: World, ghost e: Plan,
      ghost m: Rows)
    returns (a: Answer, copy: WorldStruct)
    requires Source(w, idle, was, m) && EndsAs(was, idle, e) && e.Rotating?
    modifies w.Storages()`usage
    ensures a == if was.n <= 1 then Again else if bit && e.reused > 0 then Fine else Busy
    ensures a == Fine ==> fresh(copy) && fresh(copy.storage) && ReadyFor(copy, World(was.ts + 1, was.n, e.win))
    ensures a == Fine ==> copy.Storages() == w.Storages()
    ensures Contents(w.Storages(), if a == Fine then WithBit(m, Holder(copy), Column(was.ts + 1)) else m)
  {
    hide Contents, ReadyFor, EndsAs, IdleNow, WorldWinOk, Holder;
    copy := CopyWorld(w, w.storage.Length, idle);
    a := PreCheck(copy, bit);
    if a != Fine { return; }
    a := ReorganiseCopy(copy, idle, was, e, m);
  }

  /* ---- a free that nobody interferes with ---- */

  /** The world a free goes on to: no timestamp of it is lost, and the next one has room. */
  ghost predicate Follows(was: World, next: World) {
    next.ts == was.ts + 1 && next.n == was.n && Extends(was.win, next.win)
  }

  /** The storages of a prepared world: those it had, and the new one if there is one. */
  predicate Extended(all: set<TimestampStorage?>, s: TimestampStorage?, now: set<TimestampStorage?>) {
    now == if s == null then all else all + {s}
  }

  /** A storage before the one of the timestamp is without usage bits. */
  ghost predicate Reusable(was: World, idle: iset<Sid>) {
    was.ts > 0 && exists i: nat :: i < CurrentRow(was) && i < |was.win.stores| && was.win.stores[i] in idle
  }

  /** A storage has to be added: the next timestamp has no room and there is no storage to reuse, or a free slot. */
  ghost predicate Adds(was: World, idle: iset<Sid>) {
    !InWindow(was.win, was.ts + 1) && (|was.win.stores| < was.win.size || !Reusable(was, idle))
  }

  /** The window after all idle storages found before the current one were rotated to the end. */
  ghost function RotatedWin(was: World, idle: iset<Sid>): Window {
    if LoopShape(was, Start(was)) then Rotated(was, Start(was), idle).win else was.win
  }

  /** The way the window is changed: not at all if the next timestamp has room in it. Otherwise a storage is
      added if there is a free slot; or storages are rotated if there is an idle one before the current one; or
      the world grows by a storage. */
  ghost predicate Chosen(was: World, id: Sid, idle: iset<Sid>, next: World) {
    && (next.win == was.win <==> InWindow(was.win, was.ts + 1))
    && (if Adds(was, idle) then next.win == AddStore(was.win, id, next.win.size)
        else if InWindow(was.win, was.ts + 1) then next.win == was.win
        else next.win == RotatedWin(was, idle))
    && next.win.size == was.win.size + if Adds(was, idle) && |was.win.stores| == was.win.size then 1 else 0
  }

  lemma {:induction false} CountedSome(v: Window, i: nat, q: nat, idle: iset<Sid>)
    requires i <= q <= |v.stores|
    ensures Counted(v, i, q, idle) > 0 <==> exists k: nat :: i <= k < q && v.stores[k] in idle
    decreases q - i
  {
    if i < q { CountedSome(v, i + 1, q, idle); }
  }

  /** What a free goes on to. */
  ghost predicate Succeeds(was: World, id: Sid, idle: iset<Sid>, next: World) {
    Follows(was, next) && Chosen(was, id, idle, next)
  }

  lemma IncrementSucceeds(was: World, id: Sid, idle: iset<Sid>)
    requires WinOk(was.win) && InWindow(was.win, was.ts + 1)
    ensures Succeeds(was, id, idle, World(was.ts + 1, was.n, was.win))
  {
    ExtendsItself(was.win);
  }

  lemma AddSucceeds(was: World, id: Sid, idle: iset<Sid>, size: nat)
    requires WinOk(was.win) && id !in was.win.stores && Adds(was, idle)
    requires size == was.win.size + if |was.win.stores| == was.win.size then 1 else 0
    ensures Succeeds(was, id, idle, World(was.ts + 1, was.n, AddStore(was.win, id, size)))
  {
    AddExtends(was.win, id, size);
    assert |AddStore(was.win, id, size).stores| == |was.win.stores| + 1;
  }

  lemma ReuseSucceeds(was: World, id: Sid, idle: iset<Sid>, e: Plan)
    requires EndsAs(was, idle, e) && e.Rotating? && e.reused > 0 && WorldWinOk(was)
    requires !InWindow(was.win, was.ts + 1) && |was.win.stores| == was.win.size
    ensures Succeeds(was, id, idle, World(was.ts + 1, was.n, e.win))
  {
    CountedSome(was.win, 0, CurrentRow(was), idle);
  }

  method ReorganiseFull(w: WorldStruct, ghost id: Sid, ghost idle: iset<Sid>, ghost was: World, ghost m: Rows)
    returns (a: Answer, copy: WorldStruct, ghost next: World)
    requires Source(w, idle, was, m) && was.n > 1 && Full(was) && Reusable(was, idle)
    modifies w.Storages()`usage
    ensures a == Fine && fresh(copy) && fresh(copy.storage) && ReadyFor(copy, next) && Succeeds(was, id, idle, next)
    ensures copy.Storages() == w.Storages()
    ensures Contents(copy.Storages(), WithBit(m, Holder(copy), Column(next.ts)))
  {
    hide Contents, ReadyFor, StoresValid, IdleNow, Succeeds;
    ghost var e := EndsSomehow(was, idle);
    CountedSome(was.win, 0, CurrentRow(was), idle);
    ReuseSucceeds(was, id, idle, e);
    next := World(was.ts + 1, was.n, e.win);
    a, copy := PrepareReorganise(w, true, idle, was, e, m);
  }

  /** There is no room for the next timestamp, and no free slot. */
  ghost predicate Full(was: World) { !InWindow(was.win, was.ts + 1) && |was.win.stores| == was.win.size }

  /** There is no room for the next timestamp, but a free slot. */
  method AddFree(w: WorldStruct, id: Sid, ghost idle: iset<Sid>, ghost was: World, ghost m: Rows)
    returns (a: Answer, copy: WorldStruct, s: TimestampStorage?, ghost next: World)
    requires Source(w, idle, was, m) && id !in was.win.stores && was.n > 1
    requires !InWindow(was.win, was.ts + 1) && |was.win.stores| < was.win.size
    modifies w.Storages()`usage
    ensures a == Fine && fresh(copy) && fresh(copy.storage) && ReadyFor(copy, next) && Succeeds(was, id, idle, next)
    ensures s != null && fresh(s) && copy.Storages() == w.Storages() + {s}
    ensures Contents(copy.Storages(), WithBit(m, Holder(copy), Column(next.ts)))
  {
    hide Contents, ReadyFor, StoresValid, IdleNow, Succeeds;
    next := World(was.ts + 1, was.n, AddStore(was.win, id, was.win.size));
    AddSucceeds(was, id, idle, was.win.size);
    a, copy, s := PrepareAdd(w, true, id, w.storage.Length, idle, was, m);
  }

  method GrowFull(w: WorldStruct, id: Sid, ghost idle: iset<Sid>, ghost was: World, ghost m: Rows)
    returns (a: Answer, copy: WorldStruct, s: TimestampStorage?, ghost next: World)
    requires Source(w, idle, was, m) && id !in was.win.stores && was.n > 1 && Full(was) && !Reusable(was, idle)
    modifies w.Storages()`usage
    ensures a == Fine && fresh(copy) && fresh(copy.storage) && ReadyFor(copy, next) && Succeeds(was, id, idle, next)
    ensures s != null && fresh(s) && copy.Storages() == w.Storages() + {s}
    ensures Contents(copy.Storages(), WithBit(m, Holder(copy), Column(next.ts)))
  {
    hide Contents, ReadyFor, StoresValid, IdleNow, Succeeds;
    next := World(was.ts + 1, was.n, AddStore(was.win, id, was.win.size + 1));
    AddSucceeds(was, id, idle, was.win.size + 1);
    a, copy, s := PrepareAdd(w, true, id, w.storage.Length + 1, idle, was, m);
  }

  /** A full world is reorganised, or grown if nothing can be reused. */
  method ReorganiseOrGrow(w: WorldStruct, id: Sid, ghost idle: iset<Sid>, ghost was: World, ghost m: Rows)
    returns (a: Answer, copy: WorldStruct, s: TimestampStorage?, ghost next: World)
    requires Source(w, idle, was, m) && id !in was.win.stores && was.n > 1 && Full(was)
    modifies w.Storages()`usage
    ensures a == Fine && fresh(copy) && fresh(copy.storage) && ReadyFor(copy, next) && Succeeds(was, id, idle, next)
    ensures (s == null <==> Reusable(was, idle)) && (s != null ==> fresh(s))
    ensures Extended(w.Storages(), s, copy.Storages())
    ensures Contents(copy.Storages(), WithBit(m, Holder(copy), Column(next.ts)))
  {
    hide Contents, ReadyFor, StoresValid, IdleNow, Succeeds;
    s := null;
    var reusable := CountReusable(w, idle);
    if was.ts > 0 { CountedSome(was.win, 0, CurrentRow(was), idle); }
    if reusable > 0 {
      a, copy, next := ReorganiseFull(w, id, idle, was, m);
    } else {
      a, copy, s, next := GrowFull(w, id, idle, was, m);
    }
  }

  /** Makes room for the next timestamp the way a free chooses to. Whatever it chooses passes its checks. A
      storage is allocated exactly if one is added; of the usage bits only that of the next timestamp is set. */
  method NextWorld(w: WorldStruct, id: Sid, ghost idle: iset<Sid>, ghost was: World, ghost m: Rows)
    returns (a: Answer, copy: WorldStruct, s: TimestampStorage?, ghost next: World)
    requires Source(w, idle, was, m) && id !in was.win.stores && was.n > 1
    modifies w.Storages()`usage
    ensures a == Fine && fresh(copy) && fresh(copy.storage) && ReadyFor(copy, next) && Succeeds(was, id, idle, next)
    ensures (s != null <==> Adds(was, idle)) && (s != null ==> fresh(s))
    ensures Extended(w.Storages(), s, copy.Storages())
    ensures Contents(copy.Storages(), WithBit(m, Holder(copy), Column(next.ts)))
  {
    hide Contents, ReadyFor, Succeeds, IdleNow, Reusable, Holder;
    s := null;
    var found, index := w.GetEntry(w.timestamp + 1);
    if found != null {
      IncrementSucceeds(was, id, idle);
      a, copy := PrepareIncrement(w, true, idle, was, m);
      next := World(was.ts + 1, was.n, was.win);
    } else if w.n < w.storage.Length {
      a, copy, s, next := AddFree(w, id, idle, was, m);
    } else {
      a, copy, s, next := ReorganiseOrGrow(w, id, idle, was, m);
    }
  }

  /** The world pointer with its tags, and the address of the world. */
  class Aba {
    var world: WorldStruct
    var at: Addr
    var bit: bool
    var lock: bool

    constructor (world: WorldStruct, at: Addr)
      ensures this.world == world && this.at == at && !bit && !lock
    {
      this.world, this.at, bit, lock := world, at, false, false;
    }
  }

  /** A world whose current timestamp has an entry. */
  ghost predicate Entered(w: WorldStruct, next: World)
    reads w, w.storage, set i | 0 <= i < w.storage.Length :: w.storage[i]
  {
    StoresValid(w) && w.Value() == next && next.ts > 0 && InWindow(next.win, next.ts)
  }

  /** The number of threads goes to the retain count of the new timestamp. */
  method AddThreads(w: WorldStruct, ghost next: World, ghost m: Rows)
    requires ReadyFor(w, next) && next.ts > 0 && Contents(w.Storages(), m)
    modifies w.Storages()`slots
    ensures Entered(w, next) && w.Storages() == old(w.Storages()) && Holder(w) == old(Holder(w))
    ensures Contents(w.Storages(), WithSlot(m, Holder(w), Column(next.ts), next.n, multiset{}))
  {
    var s, index := w.GetEntry(w.timestamp);
    s.AddThreads(index, w.nThreads);
    assert s.slots[index].list + multiset{} == s.slots[index].list;
  }

  method Append(w: WorldStruct, it: Item, ghost next: World, ghost m: Rows)
    requires Entered(w, next) && Contents(w.Storages(), m)
    modifies w.Storages()`slots
    ensures Entered(w, next) && w.Storages() == old(w.Storages()) && Holder(w) == old(Holder(w))
    ensures Contents(w.Storages(), WithSlot(m, Holder(w), Column(next.ts), 0, multiset{it}))
  {
    var s, index := w.GetEntry(w.timestamp);
    s.Append(index, it);
  }

  function OldItems(chain: seq<Addr>): multiset<Item> {
    if chain == [] then multiset{} else OldItems(chain[1..]) + multiset{Old(chain[0])}
  }

  /** The item goes on the list of the current timestamp, and the collected worlds after it. */
  method AppendAll(w: WorldStruct, it: Item, chain: seq<Addr>, ghost next: World, ghost m: Rows)
    requires Entered(w, next) && Contents(w.Storages(), m)
    modifies w.Storages()`slots
    ensures Entered(w, next) && w.Storages() == old(w.Storages()) && Holder(w) == old(Holder(w))
    ensures Contents(w.Storages(), WithSlot(m, Holder(w), Column(next.ts), 0, multiset{it} + OldItems(chain)))
  {
    hide Contents, Holder, WithSlot;
    ghost var c := Column(next.ts);
    Append(w, it, next, m);
    var rest := chain;
    ghost var done := multiset{it};
    while rest != []
      invariant Entered(w, next) && w.Storages() == old(w.Storages()) && Holder(w) == old(Holder(w))
      invariant done + OldItems(rest) == multiset{it} + OldItems(chain)
      invariant Contents(w.Storages(), WithSlot(m, Holder(w), c, 0, done))
    {
      Append(w, Old(rest[0]), next, WithSlot(m, Holder(w), c, 0, done));
      WithSlots(m, Holder(w), c, 0, 0, done, multiset{Old(rest[0])});
      done := done + multiset{Old(rest[0])};
      rest := rest[1..];
    }
    assert done == multiset{it} + OldItems(chain);
  }

  /** The swap succeeds; then the threads are added. */
  method Install(q: Aba, copy: WorldStruct, a: Addr, ghost next: World, ghost m: Rows)
    requires ReadyFor(copy, next) && next.ts > 0 && Contents(copy.Storages(), m)
    modifies q, copy.Storages()`slots
    ensures !q.bit && !q.lock && q.world == copy && q.at == a && Entered(copy, next)
    ensures copy.Storages() == old(copy.Storages()) && Holder(copy) == old(Holder(copy))
    ensures Contents(copy.Storages(), WithSlot(m, Holder(copy), Column(next.ts), next.n, multiset{}))
  {
    hide Contents, ReadyFor, StoresValid;
    q.world, q.at, q.bit, q.lock := copy, a, false, false;
    AddThreads(copy, next, m);
  }

  /** What is in the storages after a timestamp was entered: its usage bit is set, and its slot has got a count of
      n and the items. Nothing else has changed, and a new storage was empty. */
  function Entering(m: Rows, holder: TimestampStorage?, ts: nat, n: nat, items: multiset<Item>): Rows {
    WithSlot(WithBit(m, holder, Column(ts)), holder, Column(ts), n, items)
  }

  /** Prepares a world, swaps it in at address `a` and adds the threads. The world that is swapped out is
      collected, unless it is locked. */
  method Advance(q: Aba, id: Sid, a: Addr, ghost idle: iset<Sid>, ghost was: World, ghost m: Rows)
    returns (chain: seq<Addr>, s: TimestampStorage?, ghost next: World)
    requires Source(q.world, idle, was, m) && id !in was.win.stores && was.n > 1
    modifies q, q.world.Storages()
    ensures !q.bit && q.at == a && Entered(q.world, next) && Succeeds(was, id, idle, next)
    ensures chain == if old(q.lock) then [] else [old(q.at)]
    ensures (s != null <==> Adds(was, idle)) && (s != null ==> fresh(s))
    ensures Extended(old(q.world.Storages()), s, q.world.Storages())
    ensures Contents(q.world.Storages(), Entering(m, Holder(q.world), next.ts, was.n, multiset{}))
  {
    hide Contents, ReadyFor, StoresValid, IdleNow, Chosen;
    var answer, copy;
    chain := if q.lock then [] else [q.at];
    answer, copy, s, next := NextWorld(q.world, id, idle, was, m);
    Install(q, copy, a, next, WithBit(m, Holder(copy), Column(next.ts)));
  }

  /** What is in the storages when a free has found a world with its bit clear. */
  ghost function RowsFound(q: Aba, m: Rows, swaps: nat, was: World, next: World): Rows
    reads q, q.world, q.world.storage
  {
    if swaps == 0 then m else Entering(m, Holder(q.world), next.ts, was.n, multiset{})
  }

  lemma StartsEntered(w: WorldStruct, idle: iset<Sid>, was: World, m: Rows)
    requires Source(w, idle, was, m)
    ensures w.Valid() && Contents(w.Storages(), m) && (was.ts > 0 ==> Entered(w, was))
  {
  }

  /** The loop of a free: it ends when the bit of the world is clear. */
  method FindWorld(q: Aba, id: Sid, a: Addr, ghost idle: iset<Sid>, ghost was: World, ghost m: Rows)
    returns (chain: seq<Addr>, swaps: nat, ghost next: World)
    requires Source(q.world, idle, was, m) && id !in was.win.stores && was.n > 1 && (!q.bit ==> was.ts > 0)
    modifies q, q.world.Storages()
    ensures !q.bit && Entered(q.world, next) && Contents(q.world.Storages(), RowsFound(q, m, swaps, was, next))
    ensures if old(q.bit) then swaps == 1 && q.at == a && Succeeds(was, id, idle, next)
            else swaps == 0 && q.at == old(q.at) && q.world == old(q.world) && next == was
    ensures chain == if old(q.bit && !q.lock) then [old(q.at)] else []
    ensures old(q.world.Storages()) <= q.world.Storages()
    ensures forall s :: s in q.world.Storages() ==> s in old(q.world.Storages()) || fresh(s)
  {
    hide Contents, Holder, Succeeds, Entering, Source;
    chain, swaps, next := [], 0, was;
    StartsEntered(q.world, idle, was, m);
    while q.bit
      invariant swaps == 0 ==> unchanged(q) && Source(q.world, idle, was, m) && chain == [] && next == was
      invariant swaps > 0 ==> swaps == 1 && old(q.bit) && !q.bit && q.at == a && Succeeds(was, id, idle, next)
      invariant swaps > 0 ==> chain == if old(q.lock) then [] else [old(q.at)]
      invariant !q.bit ==> Entered(q.world, next) && Contents(q.world.Storages(), RowsFound(q, m, swaps, was, next))
      invariant q.world.Valid() && old(q.world.Storages()) <= q.world.Storages()
      invariant forall s :: s in q.world.Storages() ==> s in old(q.world.Storages()) || fresh(s)
      decreases q.bit
    {
      var collected, s;
      collected, s, next := Advance(q, id, a, idle, was, m);
      chain := collected + chain;
      swaps := swaps + 1;
    }
  }

  /** What a free that nobody interferes with has done when it has not freed at once. With the bit set it has
      swapped in one world, whose timestamp has the number of threads as its count, and the item on its list, with
      the world that was swapped out if that was not locked. With the bit clear it has only put the item on the
      list of the current timestamp. */
  ghost predicate Deferred(q: Aba, it: Item, bit: bool, spare: seq<Addr>, id: Sid, idle: iset<Sid>, swaps: nat,
      was: World, m: Rows, next: World)
    reads q, q.world, q.world.storage, set i | 0 <= i < q.world.storage.Length :: q.world.storage[i]
  {
    && !q.bit && Entered(q.world, next)
    && if bit then
         && swaps == 1 && Succeeds(was, id, idle, next)
         && Contents(q.world.Storages(),
              Entering(m, Holder(q.world), next.ts, was.n, multiset{it} + OldItems(spare)))
       else
         && swaps == 0 && next == was
         && Contents(q.world.Storages(), WithSlot(m, Holder(q.world), Column(was.ts), 0, multiset{it}))
  }

  /** A free, run alone: it frees at once if its thread is the only one; otherwise it swaps in one new world
      if the bit is set and none if it is not, and appends the item and the world it has swapped out. */
  method FreeOwnedPointer(q: Aba, it: Item, id: Sid, a: Addr, ghost idle: iset<Sid>, ghost was: World, ghost m: Rows)
    returns (immediate: bool, swaps: nat, ghost next: World)
    requires Source(q.world, idle, was, m) && id !in was.win.stores
    requires was.n > 1 && !q.bit ==> was.ts > 0
    modifies q, q.world.Storages()
    ensures immediate <==> was.n <= 1
    ensures immediate ==> swaps == 0 && unchanged(q) && Source(q.world, idle, was, m)
    ensures !immediate ==>
      Deferred(q, it, old(q.bit), if old(q.lock) then [] else [old(q.at)], id, idle, swaps, was, m, next)
    ensures !immediate ==> if old(q.bit) then q.at == a else q.at == old(q.at) && q.world == old(q.world)
    ensures old(q.world.Storages()) <= q.world.Storages()
    ensures forall s :: s in q.world.Storages() ==> s in old(q.world.Storages()) || fresh(s)
  {
    hide Contents, Holder, Succeeds, WithBit, WithSlot;
    immediate, swaps, next := false, 0, was;
    if q.world.nThreads <= 1 { immediate := true; return; }
    var chain;
    chain, swaps, next := FindWorld(q, id, a, idle, was, m);
    ghost var items := multiset{it} + OldItems(chain);
    AppendAll(q.world, it, chain, next, RowsFound(q, m, swaps, was, next));
    WithSlots(WithBit(m, Holder(q.world), Column(next.ts)), Holder(q.world), Column(next.ts), was.n, 0, multiset{},
      items);
    assert multiset{} + items == items && (chain == [] ==> items == multiset{it});
  }
}
