/** The values the protocol works on: worlds, the tagged world pointer, and the things that get freed. */
module AbaTypes {

  type Addr = nat  // address of a world
  type Tid = nat   // a thread
  type Sid = nat   // address of a timestamp storage

  /** Number of entries in a timestamp storage: 2 in debug builds, the bits of a word otherwise. */
  type EntryCount = n: nat | n >= 2 witness 2
  const N: EntryCount

  /** The part of a world that says where the entry of a timestamp lives.
      `stores` is `_storage[0 .. _n]`; slots from `_n` to `_size` are null. */
  datatype Window = Window(offset: nat, size: nat, stores: seq<Sid>)

  /** An immutable snapshot, once published: timestamp, number of registered threads, window. */
  datatype World = World(ts: nat, n: nat, win: Window)

  /** The world pointer with its two tag bits. */
  datatype Ptr = Ptr(w: Addr, bit: bool, lock: bool)

  /** A world pointer a thread has read, and what it found behind it when it read it. */
  datatype Seen = Seen(at: Ptr, world: World)

  /** What goes on a deferred list: the pointer of the k-th call of `mulle_aba_free`, or an old world. */
  datatype Item = User(k: nat) | Old(a: Addr)

  /** Where an item is. A world is also an item, `Old(a)`, from the moment it is published. */
  datatype Place =
    | Current             // the current, unlocked world
    | Held(t: Tid)        // thread t has to dispose of it (or has locked it)
    | Alone(t: Tid)       // thread t found itself alone and frees it at once
    | Listed(ts: nat)     // on the pointer list of timestamp ts
    | Leaked              // on the leak list
    | Ran                 // the callback of a user pointer has run
}
