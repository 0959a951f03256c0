/** The sliding window from timestamps to storages: lookup, rotation, growth. */
module Windows {
  import opened AbaTypes

  /* ---- arithmetic of rows of N ---- */

  lemma RowUnique(q: int, r: int, q': int, r': int)
    requires q * N + r == q' * N + r' && 0 <= r < N && 0 <= r' < N
    ensures q == q' && r == r'
  {
    if q > q' {
      RowLess(q', q);
    } else if q < q' {
      RowLess(q, q');
    }
  }

  lemma RowLess(q: int, q': int)
    requires q < q'
    ensures q * N + N <= q' * N
  {
    var k: nat := q' - q - 1;
    RowsNat(k);
    assert q' * N == q * N + N + k * N;
  }

  lemma {:induction false} RowsNat(k: nat)
    ensures k * N >= 0
  {
    if k > 0 {
      RowsNat(k - 1);
      assert k * N == (k - 1) * N + N;
    }
  }

  lemma RowIs(a: int, q: int)
    requires q * N <= a < q * N + N
    ensures a / N == q && a % N == a - q * N
  {
    assert a == (a / N) * N + a % N;
    RowUnique(a / N, a % N, q, a - q * N);
  }

  /** Moving by whole rows keeps the place in the row. */
  lemma SameColumn(a: int, b: int, k: int)
    requires a - b == k * N
    ensures a % N == b % N && a / N == b / N + k
  {
    var q := b / N + k;
    assert b == (b / N) * N + b % N;
    assert q * N == (b / N) * N + k * N;
    RowIs(a, q);
  }

  lemma RowOf(a: int, k: int)
    requires 0 <= a < k * N
    ensures 0 <= a / N < k
  {
    assert a == (a / N) * N + a % N;
    if a / N >= k {
      if a / N > k { RowLess(k, a / N); }
    }
    if a / N < 0 { RowLess(a / N, 0); }
  }

  /* ---- lookup ---- */

  function End(v: Window): nat { v.offset + |v.stores| * N }

  predicate InWindow(v: Window, t: nat) { v.offset <= t < End(v) }

  /** The index of the storage of a timestamp; None where the source returns -1. */
  datatype Index = NoIndex | At(i: nat)

  function StorageIndex(v: Window, t: nat): (i: Index)
    ensures i.At? <==> InWindow(v, t)
    ensures i.At? ==> i.i < |v.stores| && v.offset + i.i * N <= t < v.offset + i.i * N + N
  {
    if t < v.offset then NoIndex else
    var s := (t - v.offset) / N;
    assert t - v.offset == s * N + (t - v.offset) % N;
    if s >= |v.stores| then
      (assert InWindow(v, t) ==> s < |v.stores| by {
         if InWindow(v, t) { RowOf(t - v.offset, |v.stores|); }
       }
       NoIndex)
    else
      (assert s * N + N <= |v.stores| * N by { RowLess(s, |v.stores|); }
       At(s))
  }

  function RowAt(v: Window, t: nat): (i: nat)
    requires InWindow(v, t)
    ensures i < |v.stores| && v.offset + i * N <= t < v.offset + i * N + N
  {
    StorageIndex(v, t).i
  }

  /** The storage that holds the entry of timestamp t; its column there is `t % N`. */
  function StoreOf(v: Window, t: nat): Sid
    requires InWindow(v, t)
  {
    v.stores[RowAt(v, t)]
  }

  lemma RowAtIs(v: Window, t: nat, i: nat)
    requires v.offset + i * N <= t < v.offset + i * N + N && i < |v.stores|
    ensures InWindow(v, t) && RowAt(v, t) == i
  {
    RowLess(i, |v.stores|);
    RowIs(t - v.offset, i);
  }

  predicate Distinct(s: seq<Sid>) { forall i, j :: 0 <= i < j < |s| ==> s[i] != s[j] }

  function Elems(s: seq<Sid>): set<Sid> { set x | x in s }

  predicate WinOk(v: Window) {
    v.offset % N == 0 && v.size > 0 && |v.stores| <= v.size && Distinct(v.stores)
  }

  predicate WorldWinOk(w: World) {
    && WinOk(w.win)
    && (if w.ts == 0 then w.win.offset == 0 && w.win.stores == [] else InWindow(w.win, w.ts))
  }

  /** Two timestamps of one window never share an entry. */
  lemma Injective(v: Window, t: nat, t': nat)
    requires WinOk(v) && InWindow(v, t) && InWindow(v, t')
    requires StoreOf(v, t) == StoreOf(v, t') && t % N == t' % N
    ensures t == t'
  {
    var i, j := RowAt(v, t), RowAt(v, t');
    assert i == j;
    ColumnOf(v, t);
    ColumnOf(v, t');
  }

  /** The column of a timestamp counts from the start of its row. */
  lemma ColumnOf(v: Window, t: nat)
    requires WinOk(v) && InWindow(v, t)
    ensures t == v.offset + RowAt(v, t) * N + t % N
  {
    var i := RowAt(v, t);
    var q := v.offset / N;
    assert v.offset == q * N;
    assert (q + i) * N == q * N + i * N;
    RowIs(t, q + i);
  }

  /* ---- windows that follow one another ---- */

  /** `w` is a later window than `v`: it starts and ends no earlier, keeps the entry of every timestamp
      that is in both, and has all its storages. */
  ghost predicate Extends(v: Window, w: Window) {
    && v.offset <= w.offset && End(v) <= End(w)
    && (forall t: nat :: InWindow(v, t) && InWindow(w, t) ==> StoreOf(v, t) == StoreOf(w, t))
    && (forall x :: x in v.stores ==> x in w.stores)
  }

  lemma ExtendsTrans(u: Window, v: Window, w: Window)
    requires Extends(u, v) && Extends(v, w)
    ensures Extends(u, w)
  {
    forall t: nat | InWindow(u, t) && InWindow(w, t) ensures StoreOf(u, t) == StoreOf(w, t) {
      assert InWindow(v, t);
    }
  }

  /** Taking the first storage and putting it last. */
  function Rotate(v: Window): Window
    requires v.stores != []
  {
    Window(v.offset + N, v.size, v.stores[1..] + [v.stores[0]])
  }

  /** r rotations at once. */
  function RotateBy(v: Window, r: nat): Window
    requires r <= |v.stores|
  {
    Window(v.offset + r * N, v.size, v.stores[r..] + v.stores[..r])
  }

  lemma RotateNext(v: Window, r: nat)
    requires r < |v.stores|
    ensures Rotate(RotateBy(v, r)) == RotateBy(v, r + 1)
  {
    assert (r + 1) * N == r * N + N;
    assert v.stores[r..][1..] == v.stores[r + 1..];
    assert v.stores[..r] + [v.stores[r]] == v.stores[..r + 1];
    assert (v.stores[r..] + v.stores[..r])[1..] + [v.stores[r]] == v.stores[r + 1..] + (v.stores[..r] + [v.stores[r]]);
  }

  /** After r rotations the row of a timestamp that stays has moved r to the front. */
  lemma RotatedStays(v: Window, r: nat, t: nat)
    requires r <= |v.stores| && InWindow(RotateBy(v, r), t) && t < End(v)
    ensures InWindow(v, t) && StoreOf(RotateBy(v, r), t) == StoreOf(v, t)
  {
    var i, j := RowAt(RotateBy(v, r), t), RowAt(v, t);
    assert (r + i) * N == r * N + i * N;
    RowIs(t - v.offset, r + i);
    RowIs(t - v.offset, j);
  }

  /** A timestamp that enters takes the entry of the one that left |stores| rows earlier. */
  lemma RotatedEnters(v: Window, r: nat, t: nat)
    requires WinOk(v) && r <= |v.stores| && InWindow(RotateBy(v, r), t) && t >= End(v)
    ensures t >= |v.stores| * N
    ensures var t' := t - |v.stores| * N;
      InWindow(v, t') && t' < v.offset + r * N && t' % N == t % N && StoreOf(RotateBy(v, r), t) == StoreOf(v, t')
  {
    var n := |v.stores|;
    var i := RowAt(RotateBy(v, r), t);
    var t' := t - n * N;
    SameColumn(t, t', n);
    assert (r + i) * N == r * N + i * N;
    if r + i < n { RowLess(r + i, n); }
    assert (r + i - n) * N == (r + i) * N - n * N;
    RowAtIs(v, t', r + i - n);
    RowLess(r + i - n, r);
  }

  lemma RotateExtends(v: Window, r: nat)
    requires WinOk(v) && r <= |v.stores|
    ensures Extends(v, RotateBy(v, r)) && WinOk(RotateBy(v, r))
  {
    var w := RotateBy(v, r);
    forall t: nat | InWindow(v, t) && InWindow(w, t) ensures StoreOf(v, t) == StoreOf(w, t) {
      RotatedStays(v, r, t);
    }
    assert |w.stores| == |v.stores|;
    SameColumn(w.offset, v.offset, r);
    forall x | x in v.stores ensures x in w.stores {
      var i :| 0 <= i < |v.stores| && v.stores[i] == x;
      assert if i < r then w.stores[|v.stores| - r + i] == x else w.stores[i - r] == x;
    }
  }

  /** Adding a storage at the end, in a world of the given size. */
  function AddStore(v: Window, sid: Sid, size: nat): Window {
    Window(v.offset, size, v.stores + [sid])
  }

  lemma AddExtends(v: Window, sid: Sid, size: nat)
    requires WinOk(v) && sid !in v.stores && |v.stores| < size
    ensures Extends(v, AddStore(v, sid, size)) && WinOk(AddStore(v, sid, size))
    ensures End(AddStore(v, sid, size)) == End(v) + N
    ensures forall t: nat :: End(v) <= t < End(v) + N ==>
      InWindow(AddStore(v, sid, size), t) && StoreOf(AddStore(v, sid, size), t) == sid
  {
    var w := AddStore(v, sid, size);
    var n := |v.stores|;
    assert (n + 1) * N == n * N + N;
    forall t: nat | InWindow(v, t) ensures InWindow(w, t) && StoreOf(v, t) == StoreOf(w, t) {
      RowAtIs(w, t, RowAt(v, t));
    }
    forall t: nat | End(v) <= t < End(v) + N ensures InWindow(w, t) && StoreOf(w, t) == sid {
      RowAtIs(w, t, n);
    }
  }
}
