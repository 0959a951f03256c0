/** Swapping in a copy with one storage more, under interference: the callback is called again for every world
    that is found instead of the expected one, and no storage is lost, freed twice or used after it is freed. */
module Retries {
  import opened AbaTypes
  import opened Windows
  import opened Storages
  import opened WorldObjects
  import opened TimeRange
  import opened WorldSwaps

  /* ---- what the callback carries along ---- */

  /** The context of a free: the storage it has allocated for the new world, and the storages that the
      allocator has given out. */
  class Context {
    var storage: TimestampStorage?
    var live: set<TimestampStorage?>

    ghost predicate Valid()
      reads this, storage
    {
      && null !in live
      && (storage != null ==> storage in live && storage.Valid() && FreshStore(storage.Value()))
    }

    method Alloc(id: Sid)
      requires Valid() && storage == null
      modifies this
      ensures Valid() && storage != null && fresh(storage) && storage.id == id
      ensures live == old(live) + {storage} && old(live) == live - {storage}
    {
      storage := new TimestampStorage(id);
      live := live + {storage};
    }

    /** Gives the storage back, if there is one. It was allocated and nothing is on its lists. */
    method Discard()
      requires Valid()
      modifies this
      ensures Valid() && storage == null && live == old(live) - {old(storage)}
    {
      live := live - {storage};
      storage := null;
    }
  }

  /** What the callback is asked for: change a new copy, change a copy made for another world, or clean up. */
  datatype Mode = Modify | Reuse | Discard

  /* ---- the copy ---- */

  /** A world as it is found in the world pointer. Its storages are among `all`. */
  ghost predicate Found(w: WorldStruct, all: set<TimestampStorage?>, id: Sid)
    reads w, w.storage
  {
    && w.Valid() && WorldWinOk(w.Value()) && w.Storages() <= all && id !in w.Win().stores
  }

  ghost predicate AllValid(all: set<TimestampStorage?>)
    reads all
  {
    forall s :: s in all ==> s != null && s.Valid()
  }

  /** From index m on the slots of a copy are null, but for the new storage that an earlier attempt may have
      left at m. */
  ghost predicate LeftOver(copy: WorldStruct, m: nat, s: TimestampStorage?)
    reads copy, copy.storage
  {
    forall i :: m <= i < copy.storage.Length ==> copy.storage[i] == null || (i == m && copy.storage[i] == s)
  }

  /** A copy of world `w`, in which the slot behind the last storage is null or holds the new storage. */
  ghost predicate Blank(copy: WorldStruct, w: WorldStruct, s: TimestampStorage?)
    reads copy, copy.storage, w, w.storage
  {
    && w.n <= copy.storage.Length && w.n <= w.storage.Length && copy.n == w.n
    && copy.timestamp == w.timestamp && copy.nThreads == w.nThreads && copy.offset == w.offset
    && copy.storage[..w.n] == w.storage[..w.n] && LeftOver(copy, w.n, s)
  }

  /** Copies a world over a new copy, or over one left from an attempt on a world that was no longer. A world of
      the same size overwrites every slot. */
  method CopyOver(copy: WorldStruct, w: WorldStruct, ghost s: TimestampStorage?, ghost m: nat)
    requires w.Valid() && copy != w && copy.storage != w.storage && w.storage.Length <= copy.storage.Length
    requires copy.storage.Length == w.storage.Length || (m <= w.n && LeftOver(copy, m, s))
    modifies copy, copy.storage
    ensures Blank(copy, w, s)
  {
    ghost var size := w.storage.Length;
    ghost var rest := copy.storage[size..];
    copy.CopyFrom(w);
    assert forall i :: size <= i < copy.storage.Length ==> copy.storage[i] == rest[i - size];
    assert forall i :: 0 <= i < size ==> copy.storage[i] == w.storage[..][i];
    assert copy.storage[..w.n] == w.storage[..w.n];
  }

  lemma PlacedIs(copy: WorldStruct, w: WorldStruct, s: TimestampStorage, all: set<TimestampStorage?>)
    requires Found(w, all, s.id) && AllValid(all) && s.Valid() && LeftOver(copy, w.n + 1, null)
    requires copy.n == w.n + 1 <= copy.storage.Length
    requires copy.timestamp == w.timestamp && copy.nThreads == w.nThreads && copy.offset == w.offset
    requires copy.storage[..copy.n] == w.storage[..w.n] + [s]
    ensures StoresValid(copy) && copy.Storages() == w.Storages() + {s}
    ensures copy.Value() == World(w.timestamp, w.nThreads, AddStore(w.Win(), s.id, copy.storage.Length))
  {
    forall i | 0 <= i < copy.n ensures copy.storage[i] == (w.storage[..w.n] + [s])[i] {
      assert copy.storage[i] == copy.storage[..copy.n][i];
    }
    forall i | 0 <= i < w.n ensures w.storage[i].id == w.Win().stores[i] && w.storage[i] in all { }
    assert IdsOf(copy.storage[..copy.n]) == w.Win().stores + [s.id];
  }

  /** Puts the new storage behind the last one. */
  method Place(copy: WorldStruct, w: WorldStruct, s: TimestampStorage, ghost all: set<TimestampStorage?>)
    requires Found(w, all, s.id) && AllValid(all) && s.Valid() && Blank(copy, w, s) && w.n < copy.storage.Length
    requires copy != w && copy.storage != w.storage
    modifies copy`n, copy.storage
    ensures StoresValid(copy) && LeftOver(copy, w.n, s) && copy.Storages() == w.Storages() + {s}
    ensures copy.Value() == World(w.timestamp, w.nThreads, AddStore(w.Win(), s.id, copy.storage.Length))
  {
    ghost var was := copy.storage[..w.n];
    copy.storage[copy.n] := s;
    copy.n := copy.n + 1;
    assert copy.storage[..w.n] == was;
    assert copy.storage[..copy.n] == w.storage[..w.n] + [s];
    PlacedIs(copy, w, s, all);
  }

  /* ---- the callback ---- */

  /** The address of the storage that the callback puts into the copy. */
  function NewId(s: TimestampStorage?, id: Sid): Sid { if s == null then id else s.id }

  /** The context, the copy and the world it was made from, before the callback changes the copy. */
  ghost predicate Prepared(mode: Mode, ctx: Context, copy: WorldStruct, w: WorldStruct, id: Sid,
      all: set<TimestampStorage?>, was: World)
    reads ctx, ctx.storage, copy, copy.storage, w, w.storage, all
  {
    && ctx.Valid() && (mode.Modify? <==> ctx.storage == null) && ctx.storage !in all
    && Found(w, all, NewId(ctx.storage, id)) && w.Value() == was && AllValid(all)
    && Blank(copy, w, ctx.storage) && copy != w && copy.storage != w.storage
  }

  /** The copy has become the successor of the world, with the storage of the context last. */
  ghost predicate Filled(ctx: Context, copy: WorldStruct, was: World)
    reads ctx, copy, copy.storage, set i | 0 <= i < copy.storage.Length :: copy.storage[i]
  {
    && ctx.storage != null && LeftOver(copy, |was.win.stores|, ctx.storage)
    && ReadyFor(copy, World(was.ts + 1, was.n, AddStore(was.win, ctx.storage.id, copy.storage.Length)))
  }

  lemma OneMore(all: set<TimestampStorage?>, m: Rows, s: TimestampStorage)
    requires Contents(all, m) && s !in all
    ensures Contents(all + {s}, m[s := s.Value()])
  {
  }

  lemma OneLess(all: set<TimestampStorage?>, m: Rows, s: TimestampStorage, row: Store, holder: TimestampStorage?,
      c: nat)
    requires s !in all && Contents(all + {s}, WithBit(m[s := row], holder, c))
    ensures Contents(all, WithBit(m, holder, c))
  {
  }

  /** The storage goes into the copy, which then gets the next timestamp. */
  method Fill(ctx: Context, copy: WorldStruct, w: WorldStruct, ghost all: set<TimestampStorage?>, ghost was: World,
      ghost m: Rows) returns (a: Answer)
    requires ctx.Valid() && ctx.storage != null && ctx.storage !in all && Contents(all, m)
    requires Found(w, all, ctx.storage.id) && w.Value() == was && AllValid(all)
    requires Blank(copy, w, ctx.storage) && copy != w && copy.storage != w.storage && w.n < copy.storage.Length
    modifies copy`n, copy`timestamp, copy.storage, all`usage, ctx.storage`usage
    ensures ctx.Valid() && AllValid(all) && a == Fine && Filled(ctx, copy, was)
    ensures Contents(all, WithBit(m, Holder(copy), Column(was.ts + 1)))
  {
    hide Contents, WithBit, WorldWinOk, Holder;
    Place(copy, w, ctx.storage, all);
    AddedHasRoom(was, ctx.storage.id, copy.storage.Length);
    ghost var rows := m[ctx.storage := ctx.storage.Value()];
    OneMore(all, m, ctx.storage);
    a := FinishCopy(copy, World(was.ts, was.n, AddStore(was.win, ctx.storage.id, copy.storage.Length)),
      all + {ctx.storage}, rows);
    OneLess(all, m, ctx.storage, rows[ctx.storage], Holder(copy), Column(was.ts + 1));
    assert forall x :: x in all ==> x.Valid();
  }

  /** Adds a storage to the copy and increments the timestamp, or refuses. A storage that was carried along
      is given back if it is refused, except if the copy is full. */
  method AddStorageCallback(mode: Mode, ctx: Context, copy: WorldStruct, w: WorldStruct, bit: bool, id: Sid,
      ghost all: set<TimestampStorage?>, ghost was: World, ghost m: Rows) returns (a: Answer)
    requires !mode.Discard? && Prepared(mode, ctx, copy, w, id, all, was) && Contents(all, m)
    modifies ctx, copy`n, copy`timestamp, copy.storage, all`usage, if ctx.storage == null then {} else {ctx.storage}
    ensures ctx.Valid() && AllValid(all) && (a == Fine ==> Filled(ctx, copy, was))
    ensures a == Again <==> was.n <= 1
    ensures a == Fine <==> was.n > 1 && bit && |was.win.stores| < copy.storage.Length
    ensures Contents(all, if a == Fine then WithBit(m, Holder(copy), Column(was.ts + 1)) else m)
    ensures a == Fine && mode.Modify? ==>
      fresh(ctx.storage) && ctx.storage.id == id && ctx.live - {ctx.storage} == old(ctx.live)
    ensures a == Fine && mode.Reuse? ==> ctx.storage == old(ctx.storage) && ctx.live == old(ctx.live)
    ensures a != Fine ==> ctx.live - {ctx.storage} == old(ctx.live) - {old(ctx.storage)}
    ensures a != Fine && ctx.storage != null ==>
      ctx.storage == old(ctx.storage) && copy.storage.Length <= |was.win.stores|
  {
    a := PreCheck(copy, bit);
    if a == Again { ctx.Discard(); }
    if a != Fine {
      if mode.Reuse? { ctx.Discard(); }
      return;
    }
    if copy.n >= copy.storage.Length { return Busy; }
    if mode.Modify? { ctx.Alloc(id); }
    a := Fill(ctx, copy, w, all, was, m);
  }

  /* ---- the retries ---- */

  /** The worlds that are found, one after the other, with their numbers of storages, and the addresses the
      allocator would give to a new storage: none is that of a storage of a world found later. `repr` are the
      worlds and their arrays. */
  ghost predicate Series(observed: seq<WorldStruct>, lengths: seq<nat>, ids: seq<Sid>, all: set<TimestampStorage?>,
      repr: set<object>)
    reads repr
  {
    && |ids| == |lengths| == |observed|
    && forall i, j {:trigger FoundAt(observed[i], lengths[i], ids[j], all, repr)} ::
         0 <= j <= i < |observed| ==> FoundAt(observed[i], lengths[i], ids[j], all, repr)
  }

  ghost predicate FoundAt(w: WorldStruct, length: nat, id: Sid, all: set<TimestampStorage?>, repr: set<object>)
    reads repr
  {
    w in repr && w.storage in repr && w.n == length && Found(w, all, id)
  }

  ghost predicate Apart(all: set<TimestampStorage?>, repr: set<object>) { forall s :: s in all ==> s !in repr }

  /** What is asked of one attempt, on a world that is found. */
  ghost predicate Attemptable(mode: Mode, ctx: Context, copy: WorldStruct, w: WorldStruct, id: Sid, m: nat,
      all: set<TimestampStorage?>)
    reads ctx, ctx.storage, copy, copy.storage, w, w.storage
  {
    && ctx.Valid() && ctx.storage !in all && copy != w && copy.storage != w.storage
    && !mode.Discard? && (mode.Modify? <==> ctx.storage == null) && Found(w, all, NewId(ctx.storage, id))
    && w.storage.Length <= copy.storage.Length
    && (copy.storage.Length == w.storage.Length || (m <= w.n && LeftOver(copy, m, ctx.storage)))
  }

  /** No usage bit is taken away. */
  twostate predicate BitsKept(all: set<TimestampStorage?>)
    reads all
  {
    forall s :: s in all && s != null ==> old(s.usage) <= s.usage
  }

  method Attempt(mode: Mode, ctx: Context, copy: WorldStruct, w: WorldStruct, bit: bool, id: Sid, ghost m: nat,
      ghost all: set<TimestampStorage?>, ghost was: World) returns (a: Answer)
    requires Attemptable(mode, ctx, copy, w, id, m, all) && w.Value() == was && AllValid(all)
    modifies ctx, copy, copy.storage, all`usage, if ctx.storage == null then {} else {ctx.storage}
    ensures ctx.Valid() && AllValid(all) && BitsKept(all) && (a == Fine ==> Filled(ctx, copy, was))
    ensures a == Again <==> was.n <= 1
    ensures a == Fine <==> was.n > 1 && bit && |was.win.stores| < copy.storage.Length
    ensures a == Fine && mode.Modify? ==>
      fresh(ctx.storage) && ctx.storage.id == id && ctx.live - {ctx.storage} == old(ctx.live)
    ensures a == Fine && mode.Reuse? ==> ctx.storage == old(ctx.storage) && ctx.live == old(ctx.live)
    ensures a != Fine ==> ctx.live - {ctx.storage} == old(ctx.live) - {old(ctx.storage)}
    ensures a != Fine && ctx.storage != null ==>
      ctx.storage == old(ctx.storage) && copy.storage.Length <= |was.win.stores|
  {
    CopyOver(copy, w, ctx.storage, m);
    a := AddStorageCallback(mode, ctx, copy, w, bit, id, all, was, RowsOf(all));
  }

  /** Between two attempts there is a copy exactly if there is a storage. Both are new. */
  ghost predicate Carried(ctx: Context, copy: WorldStruct?, all: set<TimestampStorage?>)
    reads ctx, ctx.storage
  {
    ctx.Valid() && ctx.storage !in all && (copy == null <==> ctx.storage == null)
  }

  /** One round: a copy of another size is given up, with its storage. */
  method ChangeOnce(ctx: Context, was: WorldStruct?, w: WorldStruct, bit: bool, id: Sid,
      ghost all: set<TimestampStorage?>)
    returns (a: Answer, copy: WorldStruct?)
    requires Carried(ctx, was, all) && AllValid(all) && Found(w, all, id) && Found(w, all, NewId(ctx.storage, id))
    requires was != null ==> was != w && was.storage != w.storage
    modifies ctx, all`usage, if ctx.storage == null then {} else {ctx.storage}
    modifies if was == null then {} else {was}, if was == null then {} else {was.storage}
    ensures Carried(ctx, copy, all) && AllValid(all) && BitsKept(all)
    ensures a == Again <==> w.nThreads <= 1
    ensures a == Fine <==> w.nThreads > 1 && bit && w.n < w.storage.Length
    ensures a == Fine ==> copy != null && copy.storage.Length == w.storage.Length && Filled(ctx, copy, old(w.Value()))
    ensures a == Fine ==> copy == was || (fresh(copy) && fresh(copy.storage))
    ensures a == Fine ==> (ctx.storage == old(ctx.storage) || (fresh(ctx.storage) && ctx.storage.id == id))
    ensures a != Fine ==> copy == null
    ensures ctx.live - {ctx.storage} == old(ctx.live) - {old(ctx.storage)}
  {
    hide Filled, StoresValid, Blank;
    copy := was;
    var mode := Reuse;
    if copy == null || copy.storage.Length != w.storage.Length {
      if copy != null { ctx.Discard(); }
      copy := new WorldStruct(w.storage.Length);
      mode := Modify;
    }
    a := Attempt(mode, ctx, copy, w, bit, id, 0, all, w.Value());
    if a != Fine {
      ctx.Discard();
      copy := null;
    }
  }

  /** Swaps in a copy with one storage more. The swap fails for every world that is found but the last. On
      success the new world is in order and the one new storage is in it; otherwise there is no new storage. */
  method CopyChangeWorld(observed: seq<WorldStruct>, bits: seq<bool>, ids: seq<Sid>, ctx: Context,
      ghost all: set<TimestampStorage?>, ghost repr: set<object>, ghost lengths: seq<nat>)
    returns (a: Answer, copy: WorldStruct?, k: nat)
    requires 0 < |observed| == |bits| && Series(observed, lengths, ids, all, repr) && AllValid(all)
    requires ctx.Valid() && ctx.storage == null && Apart(all, repr) && ctx !in repr
    modifies ctx, all`usage
    ensures k < |observed| && observed[k].Valid() && ctx.Valid() && BitsKept(all)
    ensures a == Again <==> observed[k].nThreads <= 1
    ensures a == Fine <==> observed[k].nThreads > 1 && bits[k] && observed[k].n < observed[k].storage.Length
    ensures a != Fine ==> ctx.storage == null && ctx.live == old(ctx.live)
    ensures a == Fine ==>
      && k == |observed| - 1 && copy != null && fresh(copy) && copy.storage.Length == observed[k].storage.Length
      && Filled(ctx, copy, observed[k].Value()) && fresh(ctx.storage) && ctx.live == old(ctx.live) + {ctx.storage}
  {
    copy, k := null, 0;
    ghost var j: nat := 0;
    while true
      invariant j <= k < |observed| && AllValid(all) && Series(observed, lengths, ids, all, repr)
      invariant Carried(ctx, copy, all)
      invariant copy != null ==> fresh(copy) && fresh(copy.storage)
      invariant ctx.storage != null ==> fresh(ctx.storage) && ctx.storage.id == ids[j]
      invariant ctx.live - {ctx.storage} == old(ctx.live) && BitsKept(all)
      decreases |observed| - k
    {
      assert FoundAt(observed[k], lengths[k], ids[j], all, repr) && FoundAt(observed[k], lengths[k], ids[k], all, repr);
      ghost var s := ctx.storage;
      a, copy := ChangeOnce(ctx, copy, observed[k], bits[k], ids[k], all);
      if a != Fine || k == |observed| - 1 { return; }
      if ctx.storage != s { j := k; }
      k := k + 1;
    }
  }

  /** The copy has the target size, and nothing but the new storage behind the first m. */
  ghost predicate Growing(ctx: Context, copy: WorldStruct?, target: nat, m: nat)
    reads ctx, copy, if copy == null then {} else {copy.storage}
  {
    copy != null ==> copy.storage.Length == target && LeftOver(copy, m, ctx.storage)
  }

  /** One round: somebody else may have grown the world in the meantime. */
  method GrowOnce(ctx: Context, was: WorldStruct?, w: WorldStruct, bit: bool, id: Sid, target: nat, ghost m: nat,
      ghost all: set<TimestampStorage?>) returns (a: Answer, copy: WorldStruct?)
    requires Carried(ctx, was, all) && AllValid(all) && Found(w, all, id) && Found(w, all, NewId(ctx.storage, id))
    requires Growing(ctx, was, target, m) && m <= w.n && (was != null ==> was != w && was.storage != w.storage)
    modifies ctx, all`usage, if ctx.storage == null then {} else {ctx.storage}
    modifies if was == null then {} else {was}, if was == null then {} else {was.storage}
    ensures Carried(ctx, copy, all) && AllValid(all) && BitsKept(all)
    ensures a == Again <==> w.storage.Length < target && w.nThreads <= 1
    ensures a == Fine <==> w.storage.Length < target && w.nThreads > 1 && bit
    ensures a == Fine ==> copy != null && Growing(ctx, copy, target, old(w.n)) && Filled(ctx, copy, old(w.Value()))
    ensures a == Fine ==> copy == was || (fresh(copy) && fresh(copy.storage))
    ensures a == Fine ==> (ctx.storage == old(ctx.storage) || (fresh(ctx.storage) && ctx.storage.id == id))
    ensures a != Fine ==> copy == null
    ensures ctx.live - {ctx.storage} == old(ctx.live) - {old(ctx.storage)}
  {
    copy := was;
    if w.storage.Length >= target {
      ctx.Discard();
      return Busy, null;
    }
    var mode := Reuse;
    if copy == null {
      copy := new WorldStruct(target);
      mode := Modify;
    }
    a := Attempt(mode, ctx, copy, w, bit, id, m, all, w.Value());
    if a != Fine { copy := null; }
  }

  /** While a thread is registered the worlds only get longer. */
  predicate Longer(lengths: seq<nat>) { forall i, j :: 0 <= i < j < |lengths| ==> lengths[i] <= lengths[j] }

  /** Grows the world to the target size, with one storage more. The same copy is used for every attempt. */
  method GrowWorld(observed: seq<WorldStruct>, bits: seq<bool>, ids: seq<Sid>, target: nat, ctx: Context,
      ghost all: set<TimestampStorage?>, ghost repr: set<object>, ghost lengths: seq<nat>)
    returns (a: Answer, copy: WorldStruct?, k: nat)
    requires 0 < |observed| == |bits| && Series(observed, lengths, ids, all, repr) && AllValid(all)
    requires ctx.Valid() && ctx.storage == null && Apart(all, repr) && ctx !in repr
    requires Longer(lengths)
    modifies ctx, all`usage
    ensures k < |observed| && observed[k].Valid() && ctx.Valid() && BitsKept(all)
    ensures a == Again <==> observed[k].storage.Length < target && observed[k].nThreads <= 1
    ensures a == Fine <==> observed[k].storage.Length < target && observed[k].nThreads > 1 && bits[k]
    ensures a != Fine ==> ctx.storage == null && ctx.live == old(ctx.live)
    ensures a == Fine ==>
      && k == |observed| - 1 && copy != null && fresh(copy) && copy.storage.Length == target
      && Filled(ctx, copy, observed[k].Value()) && fresh(ctx.storage) && ctx.live == old(ctx.live) + {ctx.storage}
  {
    hide Filled, Blank;
    copy, k := null, 0;
    ghost var j, m: nat := 0, 0;
    while true
      invariant j <= k < |observed| && AllValid(all) && Series(observed, lengths, ids, all, repr)
      invariant Carried(ctx, copy, all)
      invariant Growing(ctx, copy, target, m) && m <= lengths[k]
      invariant copy != null ==> fresh(copy) && fresh(copy.storage)
      invariant ctx.storage != null ==> fresh(ctx.storage) && ctx.storage.id == ids[j]
      invariant ctx.live - {ctx.storage} == old(ctx.live) && BitsKept(all)
      decreases |observed| - k
    {
      assert FoundAt(observed[k], lengths[k], ids[j], all, repr) && FoundAt(observed[k], lengths[k], ids[k], all, repr);
      ghost var s := ctx.storage;
      a, copy := GrowOnce(ctx, copy, observed[k], bits[k], ids[k], target, m, all);
      if a != Fine || k == |observed| - 1 { return; }
      if ctx.storage != s { j := k; }
      m := lengths[k];
      k := k + 1;
    }
  }
}
