/** Worlds and timestamp storages as the objects they are: fields that are updated in place. */
module WorldObjects {
  import opened AbaTypes
  import opened Windows
  import opened Storages

  /** A row of N entries and their usage bits. `id` is its address. */
  class TimestampStorage {
    const id: Sid
    var usage: set<nat>
    var slots: seq<Slot>

    ghost predicate Valid()
      reads this
    {
      |slots| == N && forall c :: c in usage ==> c < N
    }

    ghost function Value(): Store
      reads this
    {
      Store(usage, slots)
    }

    constructor (id: Sid)
      ensures Valid() && this.id == id && usage == {} && FreshStore(Value())
    {
      this.id := id;
      usage := {};
      slots := seq(N, _ => PRISTINE);
    }

    method SetUsageBit(index: nat, bit: bool) returns (inUse: bool)
      requires Valid() && index < N
      modifies this`usage
      ensures Valid()
      ensures forall c :: c != index ==> (c in usage <==> c in old(usage))
      ensures index in usage <==> bit
      ensures inUse <==> usage != {}
    {
      usage := if bit then usage + {index} else usage - {index};
      inUse := usage != {};
    }

    method AddThreads(index: nat, n: nat)
      requires Valid() && index < N
      modifies this`slots
      ensures Valid() && slots == old(slots)[index := old(slots[index]).(rc := old(slots[index]).rc + n)]
    {
      slots := slots[index := slots[index].(rc := slots[index].rc + n)];
    }

    method Append(index: nat, it: Item)
      requires Valid() && index < N
      modifies this`slots
      ensures Valid() && slots == old(slots)[index := old(slots[index]).(list := old(slots[index]).list + multiset{it})]
    {
      slots := slots[index := slots[index].(list := slots[index].list + multiset{it})];
    }

    /** Counts an entry down. The one who finds a count of zero takes the list and clears the usage bit. */
    method CheckEntry(index: nat) returns (freed: multiset<Item>)
      requires Valid() && index < N
      modifies this
      ensures Valid()
      ensures slots == old(slots)[index := Less(old(slots[index]))] && freed == Taken(old(slots[index]))
      ensures usage == if old(slots[index]).rc == 0 then old(usage) - {index} else old(usage)
    {
      var rc := slots[index].rc;
      slots := slots[index := Slot(rc - 1, slots[index].list)];
      freed := multiset{};
      if rc == 0 {
        freed := slots[index].list;
        slots := slots[index := Slot(rc - 1, multiset{})];
        var inUse := SetUsageBit(index, false);
      }
    }
  }

  /** The slot after one more thread has checked in, and what that thread takes off its list. */
  function Less(s: Slot): Slot { Slot(s.rc - 1, if s.rc == 0 then multiset{} else s.list) }

  function Taken(s: Slot): multiset<Item> { if s.rc == 0 then s.list else multiset{} }

  function IdsOf(s: seq<TimestampStorage?>): (ids: seq<Sid>)
    requires forall i :: 0 <= i < |s| ==> s[i] != null
    ensures |ids| == |s| && forall i :: 0 <= i < |s| ==> ids[i] == s[i].id
  {
    seq(|s|, i requires 0 <= i < |s| => s[i].id)
  }

  /** Rotating a sequence of storages keeps them all, and rotates their addresses. */
  lemma RotatedSeq(s: seq<TimestampStorage?>)
    requires s != [] && forall i :: 0 <= i < |s| ==> s[i] != null
    ensures (set x | x in s[1..] + [s[0]]) == (set x | x in s)
    ensures IdsOf(s[1..] + [s[0]]) == IdsOf(s)[1..] + [IdsOf(s)[0]]
  {
    assert s == [s[0]] + s[1..];
  }

  class WorldStruct {
    const storage: array<TimestampStorage?>
    var timestamp: nat
    var nThreads: nat
    var offset: nat
    var n: nat

    /** Non-null storages at different addresses below n, nulls from n to the size. */
    ghost predicate Valid()
      reads this, storage
    {
      && n <= storage.Length
      && (forall i :: 0 <= i < n ==> storage[i] != null)
      && (forall i :: n <= i < storage.Length ==> storage[i] == null)
      && (forall i, j :: 0 <= i < j < n ==> storage[i].id != storage[j].id)
    }

    ghost function Storages(): (all: set<TimestampStorage?>)
      reads this, storage
      requires Valid()
      ensures null !in all && forall i :: 0 <= i < n ==> storage[i] in all
    {
      set s | s in storage[..n]
    }

    ghost function Win(): Window
      reads this, storage
      requires Valid()
    {
      Window(offset, storage.Length, IdsOf(storage[..n]))
    }

    ghost function Value(): World
      reads this, storage
      requires Valid()
    {
      World(timestamp, nThreads, Win())
    }

    /** A world fresh from the allocator. */
    constructor (size: nat)
      ensures Valid() && fresh(storage) && storage.Length == size
      ensures timestamp == 0 && nThreads == 0 && offset == 0 && n == 0
    {
      storage := new TimestampStorage?[size](_ => null);
      timestamp, nThreads, offset, n := 0, 0, 0, 0;
    }

    /** Takes off the first storage; the window starts one row later. */
    method PopStorage() returns (s: TimestampStorage?)
      requires Valid()
      modifies this`n, this`offset, storage
      ensures Valid()
      ensures old(n) == 0 ==> s == null && n == 0 && offset == old(offset) && storage[..] == old(storage[..])
      ensures old(n) > 0 ==>
        s == old(storage[0]) && n == old(n) - 1 && offset == old(offset) + N && storage[..n] == old(storage[1..n])
    {
      if n == 0 { return null; }
      s := storage[0];
      forall i | 0 <= i < n - 1 { storage[i] := storage[i + 1]; }
      storage[n - 1] := null;
      n := n - 1;
      offset := offset + N;
      assert storage[..n] == old(storage[1..n]);
    }

    method PushStorage(s: TimestampStorage) returns (ok: bool)
      requires Valid() && forall i :: 0 <= i < n ==> storage[i].id != s.id
      modifies this`n, storage
      ensures Valid()
      ensures ok <==> old(n) < storage.Length
      ensures storage[..n] == if ok then old(storage[..n]) + [s] else old(storage[..n])
      ensures Storages() == if ok then old(Storages()) + {s} else old(Storages())
      ensures Win() == if ok then AddStore(old(Win()), s.id, storage.Length) else old(Win())
    {
      if n == storage.Length { return false; }
      storage[n] := s;
      n := n + 1;
      ok := true;
    }

    /** The first storage becomes the last. */
    method RotateStorage()
      requires Valid() && n > 0
      modifies this`n, this`offset, storage
      ensures Valid() && n == old(n)
      ensures storage[..n] == old(storage[1..n]) + [old(storage[0])]
      ensures Win() == Rotate(old(Win())) && Storages() == old(Storages())
    {
      ghost var was, v := storage[..n], Win();
      RotatedSeq(was);
      assert forall i :: 0 <= i < n ==> was[i].id == v.stores[i];
      var s := PopStorage();
      assert storage[..n] == was[1..];
      assert forall i :: 0 <= i < n ==> storage[i] == was[i + 1];
      var ok := PushStorage(s);
    }

    /** The index of the storage of a timestamp, or -1. */
    method GetStorageIndex(t: nat) returns (index: int)
      requires Valid()
      ensures match StorageIndex(Win(), t) case NoIndex => index == -1 case At(i) => index == i
    {
      if t < offset { return -1; }
      var i := (t - offset) / N;
      if i >= n { return -1; }
      index := i;
    }

    /** The storage and the column of the entry of a timestamp; there is none for timestamp 0. */
    method GetEntry(t: nat) returns (s: TimestampStorage?, index: nat)
      requires Valid()
      ensures s != null <==> t > 0 && InWindow(Win(), t)
      ensures s != null ==> s.id == StoreOf(Win(), t) && s == storage[RowAt(Win(), t)] && index == Column(t)
    {
      index := Column(t);
      if t == 0 { return null, index; }
      var i := GetStorageIndex(t);
      if i == -1 { return null, index; }
      s := storage[i];
    }

    /** Everything but the size is copied. The slots beyond the size of the source stay as they are; when
        they are null the copy is in order. */
    method CopyFrom(src: WorldStruct)
      requires src.Valid() && this != src && storage != src.storage && src.storage.Length <= storage.Length
      modifies this, storage
      ensures n == src.n && timestamp == src.timestamp && nThreads == src.nThreads && offset == src.offset
      ensures storage[..src.storage.Length] == src.storage[..]
      ensures storage[src.storage.Length..] == old(storage[src.storage.Length..])
      ensures (forall i :: src.storage.Length <= i < storage.Length ==> storage[i] == null) ==>
        Valid() && Value() == src.Value().(win := src.Win().(size := storage.Length))
    {
      timestamp, nThreads, offset, n := src.timestamp, src.nThreads, src.offset, src.n;
      forall i | 0 <= i < src.storage.Length { storage[i] := src.storage[i]; }
      assert storage[..n] == src.storage[..src.n];
    }
  }
}
