/**
 * Index arithmetic of the local data pipe's "tight" circular buffer: `capacity` bytes,
 * the readable bytes start at `start` and run for `current` bytes, wrapping at the end.
 */
module RingLayout {
  import opened Wrappers
  import opened Alignment

  /** Physical index of the byte `k` places after `start`. */
  function Slot(start: nat, k: nat, capacity: nat): (p: nat)
    requires start < capacity && k <= capacity
    ensures p < capacity
  {
    if start + k < capacity then start + k else start + k - capacity
  }

  /** Where the next written byte goes: just past the readable bytes. */
  function WriteIndex(start: nat, current: nat, capacity: nat): nat
    requires start < capacity && current <= capacity
  {
    Slot(start, current, capacity)
  }

  /**
   * The room a two-phase write is offered: only the free run from the write index to the
   * physical end of the buffer (or to `start`), never free space past the wrap.
   */
  function MaxNumBytesToWrite(start: nat, current: nat, capacity: nat): (r: nat)
    requires start < capacity && current <= capacity
    ensures r == Min(capacity - current, capacity - WriteIndex(start, current, capacity))
    ensures current < capacity ==> r > 0
  {
    var next := start + current;
    if next >= capacity then start - (next - capacity) else capacity - next
  }

  /**
   * The data a two-phase read is offered: only the readable run from `start` to the
   * physical end of the buffer, never data past the wrap.
   */
  function MaxNumBytesToRead(start: nat, current: nat, capacity: nat): (r: nat)
    requires start < capacity && current <= capacity
    ensures r <= current && start + r <= capacity
    ensures start + current <= capacity ==> r == current
    ensures start + current > capacity ==> r == capacity - start
    ensures current > 0 ==> r > 0
  {
    Min(start + current, capacity) - start
  }

  /** With whole elements everywhere, indices and runs are whole elements too. */
  lemma {:induction false} LayoutAligned(start: nat, current: nat, capacity: nat, e: nat)
    requires e > 0 && start < capacity && current <= capacity
    requires start % e == 0 && current % e == 0 && capacity % e == 0
    ensures WriteIndex(start, current, capacity) % e == 0
    ensures MaxNumBytesToWrite(start, current, capacity) % e == 0
    ensures MaxNumBytesToRead(start, current, capacity) % e == 0
  {
    AddAligned(start, current, e);
    if start + current >= capacity {
      SubAligned(start + current, capacity, e);
      SubAligned(capacity, current, e);
    } else {
      SubAligned(capacity, start + current, e);
      assert MaxNumBytesToRead(start, current, capacity) == current;
    }
    SubAligned(capacity, start, e);
  }

  lemma {:induction false} SlotAligned(start: nat, k: nat, capacity: nat, e: nat)
    requires e > 0 && start < capacity && k <= capacity
    requires start % e == 0 && k % e == 0 && capacity % e == 0
    ensures Slot(start, k, capacity) % e == 0
  {
    AddAligned(start, k, e);
    if start + k >= capacity {
      SubAligned(start + k, capacity, e);
    }
  }

  /**
   * Where a copying write of `n` bytes lands: the first `first` bytes go at the write index
   * up to the physical end, the rest at the front; neither part touches the readable bytes.
   */
  lemma WriteLayout(start: nat, current: nat, n: nat, capacity: nat)
    requires start < capacity && current + n <= capacity
    ensures
      var w, first := WriteIndex(start, current, capacity), Min(n, MaxNumBytesToWrite(start, current, capacity));
      && w + first <= capacity
      && (forall k :: current <= k < current + first ==> Slot(start, k, capacity) == w + (k - current))
      && (forall k :: current + first <= k < current + n ==> Slot(start, k, capacity) == k - current - first)
      && (forall k :: 0 <= k < current ==> !(w <= Slot(start, k, capacity) < w + first) && n - first <= Slot(start, k, capacity))
  {
  }

  /** Where a copying read of `n` bytes comes from: a run from `start`, then the front. */
  lemma ReadLayout(start: nat, current: nat, n: nat, capacity: nat)
    requires start < capacity && n <= current <= capacity
    ensures
      var first := Min(n, MaxNumBytesToRead(start, current, capacity));
      && start + first <= capacity
      && (forall k :: 0 <= k < first ==> Slot(start, k, capacity) == start + k)
      && (forall k :: first <= k < n ==> Slot(start, k, capacity) == k - first)
  {
  }

  /** Advancing the start by `n` bytes moves every later byte's logical place down by `n`. */
  lemma Advance(start: nat, n: nat, k: nat, capacity: nat)
    requires start < capacity && n + k <= capacity
    ensures Slot(Slot(start, n, capacity), k, capacity) == Slot(start, n + k, capacity)
  {
  }

  /**
   * Consuming `n` bytes leaves the write index where it was and never shrinks the room
   * offered to a two-phase write.
   */
  lemma ConsumeKeepsWriteRun(start: nat, current: nat, n: nat, capacity: nat)
    requires start < capacity && n <= current <= capacity
    ensures WriteIndex(Slot(start, n, capacity), current - n, capacity) == WriteIndex(start, current, capacity)
    ensures MaxNumBytesToWrite(Slot(start, n, capacity), current - n, capacity) >= MaxNumBytesToWrite(start, current, capacity)
  {
    Advance(start, n, current - n, capacity);
  }

  /** `b` written over `a` from index `i` on (a `memcpy` into `a`). */
  function Splice<T>(a: seq<T>, i: nat, b: seq<T>): (r: seq<T>)
    requires i + |b| <= |a|
    ensures |r| == |a|
    ensures forall j :: 0 <= j < |a| ==> r[j] == if i <= j < i + |b| then b[j - i] else a[j]
  {
    a[..i] + b + a[i + |b|..]
  }

  /** The ring `buf` holds `data`: its k-th element sits k places after `start`, wrapping. */
  ghost predicate Holds<T>(buf: seq<T>, start: nat, data: seq<T>) {
    && start < |buf| && |data| <= |buf|
    && forall k :: 0 <= k < |data| ==> buf[Slot(start, k, |buf|)] == data[k]
  }

  /**
   * A copying write of `extra` — its first part at the write index up to the physical end,
   * the rest at the front — leaves the ring holding `data + extra`.
   */
  lemma {:induction false} AppendHolds<T>(buf: seq<T>, start: nat, data: seq<T>, extra: seq<T>)
    requires Holds(buf, start, data) && |data| + |extra| <= |buf|
    ensures
      var w, first := WriteIndex(start, |data|, |buf|), Min(|extra|, MaxNumBytesToWrite(start, |data|, |buf|));
      && w + first <= |buf|
      && Holds(Splice(Splice(buf, w, extra[..first]), 0, extra[first..]), start, data + extra)
  {
    var cap, c, n := |buf|, |data|, |extra|;
    var w, first := WriteIndex(start, c, cap), Min(n, MaxNumBytesToWrite(start, c, cap));
    WriteLayout(start, c, n, cap);
    var mid := Splice(buf, w, extra[..first]);
    var out := Splice(mid, 0, extra[first..]);
    var all := data + extra;
    forall k | 0 <= k < c + n
      ensures out[Slot(start, k, cap)] == all[k]
    {
      var p := Slot(start, k, cap);
      if k < c {
        assert out[p] == mid[p] == buf[p];
      } else if k < c + first {
        assert p == w + (k - c);
        assert n - first <= p;
        assert out[p] == mid[p] == extra[k - c];
      } else {
        assert p == k - c - first;
      }
    }
  }

  /**
   * A copying read of `n` elements — a run from `start` up to the physical end, then the
   * front — yields the first `n` elements the ring holds.
   */
  lemma {:induction false} ReadHolds<T>(buf: seq<T>, start: nat, data: seq<T>, n: nat)
    requires Holds(buf, start, data) && n <= |data|
    ensures
      var first := Min(n, MaxNumBytesToRead(start, |data|, |buf|));
      && start + first <= |buf| && n - first <= |buf|
      && buf[start..start + first] + buf[..n - first] == data[..n]
  {
    var cap, c := |buf|, |data|;
    var first := Min(n, MaxNumBytesToRead(start, c, cap));
    ReadLayout(start, c, n, cap);
    var out := buf[start..start + first] + buf[..n - first];
    forall k | 0 <= k < n
      ensures out[k] == data[k]
    {
      if k < first {
        assert Slot(start, k, cap) == start + k;
      } else {
        assert Slot(start, k, cap) == k - first;
      }
    }
  }

  /** Taking `n` elements off the front leaves the rest held from `n` places further on. */
  lemma {:induction false} ConsumeHolds<T>(buf: seq<T>, start: nat, data: seq<T>, n: nat)
    requires Holds(buf, start, data) && n <= |data|
    ensures Holds(buf, Slot(start, n, |buf|), data[n..])
  {
    forall k | 0 <= k < |data| - n
      ensures buf[Slot(Slot(start, n, |buf|), k, |buf|)] == data[n..][k]
    {
      Advance(start, n, k, |buf|);
    }
  }

  /** A store anywhere in the free run at the write index leaves what the ring holds alone. */
  lemma {:induction false} StoreHolds<T>(buf: seq<T>, start: nat, data: seq<T>, i: nat, v: T)
    requires Holds(buf, start, data)
    requires WriteIndex(start, |data|, |buf|) <= i < WriteIndex(start, |data|, |buf|) + MaxNumBytesToWrite(start, |data|, |buf|)
    ensures Holds(buf[i := v], start, data)
  {
    var cap, c := |buf|, |data|;
    WriteLayout(start, c, MaxNumBytesToWrite(start, c, cap), cap);
    forall k | 0 <= k < c
      ensures buf[i := v][Slot(start, k, cap)] == data[k]
    {
      assert Slot(start, k, cap) != i;
    }
  }

  /** Committing the first `n` elements of the free run at the write index appends them. */
  lemma {:induction false} CommitHolds<T>(buf: seq<T>, start: nat, data: seq<T>, n: nat)
    requires Holds(buf, start, data) && n <= MaxNumBytesToWrite(start, |data|, |buf|)
    ensures
      var w := WriteIndex(start, |data|, |buf|);
      && w + n <= |buf|
      && Holds(buf, start, data + buf[w..w + n])
  {
    var cap, c := |buf|, |data|;
    var w := WriteIndex(start, c, cap);
    WriteLayout(start, c, n, cap);
    var all := data + buf[w..w + n];
    forall k | 0 <= k < c + n
      ensures buf[Slot(start, k, cap)] == all[k]
    {
      if k >= c {
        assert Slot(start, k, cap) == w + (k - c);
      }
    }
  }
}
