/** The fixed-capacity circular sample buffer `CRingBuffer<float>` and the
    facts about delay lines built on it. */
module RingBuffers {
  import opened Signals

  /** `cells` holds the last `|cells|` samples pushed so far (`h`), sample `t`
      in cell `t % |cells|`; cells not yet written hold 0. */
  ghost predicate HoldsRecent(cells: seq<real>, h: seq<real>)
  {
    |cells| > 0 &&
    forall t :: |h| - |cells| <= t < |h| ==> cells[t % |cells|] == XAt(h, t)
  }

  /** `k * n >= n` for positive `k` and `n`. */
  lemma {:induction false} MulAtLeast(k: int, n: int)
    requires k >= 1 && n > 0
    ensures k * n >= n
    decreases k
  {
    if k > 1 {
      MulAtLeast(k - 1, n);
      assert k * n == (k - 1) * n + n;
    }
  }

  /** Quotient and remainder are determined by `a == q * n + r`, `0 <= r < n`. */
  lemma ModUnique(a: int, n: int, q: int, r: int)
    requires 0 < n && 0 <= r < n && a == q * n + r
    ensures a % n == r && a / n == q
  {
    var q', r' := a / n, a % n;
    assert a == q' * n + r';
    assert (q - q') * n == q * n - q' * n;
    if q > q' {
      MulAtLeast(q - q', n);
    } else if q < q' {
      MulAtLeast(q' - q, n);
    }
  }

  /** Adding a multiple of `n` keeps the residue modulo `n`. */
  lemma ModMultiple(a: int, q: int, n: int)
    requires 0 < n
    ensures (a + q * n) % n == a % n
  {
    var qa := a / n;
    assert a == qa * n + a % n;
    assert a + q * n == (qa + q) * n + a % n;
    ModUnique(a + q * n, n, qa + q, a % n);
  }

  /** Residues are compatible with addition. */
  lemma ModShift(a: int, b: int, n: int)
    requires 0 < n
    ensures (a % n + b) % n == (a + b) % n
  {
    var qa := a / n;
    assert a == qa * n + a % n;
    assert a + b == (a % n + b) + qa * n;
    ModMultiple(a % n + b, qa, n);
  }

  /** Two integers closer than `n` have different residues modulo `n`. */
  lemma ModDistinct(a: int, b: int, n: int)
    requires 0 < n && b < a < b + n
    ensures a % n != b % n
  {
    var qa, qb := a / n, b / n;
    assert a == qa * n + a % n;
    assert b == qb * n + b % n;
    if a % n == b % n {
      assert a - b == qa * n - qb * n;
      if qa > qb {
        assert qa * n - qb * n == (qa - qb) * n;
        MulAtLeast(qa - qb, n);
      } else if qa < qb {
        assert qb * n - qa * n == (qb - qa) * n;
        MulAtLeast(qb - qa, n);
      }
    }
  }

  /** The source's wrap of a negative index, `n - (-i) % n`, is the
      Euclidean residue unless `i` is a multiple of `n`. */
  lemma NegativeWrap(i: int, n: int)
    requires 0 < n && i < 0 && (-i) % n != 0
    ensures n - (-i) % n == i % n
  {
    var k, m := (-i) / n, (-i) % n;
    assert -i == k * n + m;
    assert i == (-k - 1) * n + (n - m);
    ModUnique(i, n, -k - 1, n - m);
  }

  /** A newly pushed sample takes the cell `|h| % |cells|`; the other cells
      keep the samples of the window that are still recent. */
  lemma HoldsRecentPush(cells: seq<real>, h: seq<real>, v: real)
    requires HoldsRecent(cells, h)
    ensures HoldsRecent(cells[|h| % |cells| := v], h + [v])
  {
    var n := |cells|;
    var cells' := cells[|h| % n := v];
    var h' := h + [v];
    forall t | |h'| - n <= t < |h'|
      ensures cells'[t % n] == XAt(h', t)
    {
      if t < |h| {
        ModDistinct(|h|, t, n);
      }
    }
  }

  /** The cell the next sample will overwrite holds the oldest sample of
      the window, `|cells|` steps back (0 while the history is shorter). */
  lemma HoldsRecentOldest(cells: seq<real>, h: seq<real>)
    requires HoldsRecent(cells, h)
    ensures cells[|h| % |cells|] == XAt(h, |h| - |cells|)
  {
    ModMultiple(|h| - |cells|, 1, |cells|);
    assert |h| - |cells| + 1 * |cells| == |h|;
  }

  class RingBuffer {
    const length: int          // capacity, fixed at construction
    const buff: array<real>    // storage
    var readIdx: int
    var writeIdx: int

    ghost predicate Valid()
      reads this
    {
      0 < length && buff.Length == length &&
      0 <= readIdx < length && 0 <= writeIdx < length
    }

    /** A buffer of `bufferLength` cells, all zero, both cursors at 0. */
    constructor (bufferLength: int)
      requires bufferLength > 0
      ensures Valid() && fresh(buff) && length == bufferLength
      ensures readIdx == 0 && writeIdx == 0
      ensures forall k :: 0 <= k < length ==> buff[k] == 0.0
    {
      length := bufferLength;
      buff := new real[bufferLength];
      readIdx, writeIdx := 0, 0;
      new;
      Reset();
    }

    /** Zero the storage and rewind both cursors. */
    method Reset()
      requires Valid()
      modifies this, buff
      ensures Valid()
      ensures readIdx == 0 && writeIdx == 0
      ensures forall k :: 0 <= k < length ==> buff[k] == 0.0
    {
      var k := 0;
      while k < length
        invariant 0 <= k <= length
        invariant forall m :: 0 <= m < k ==> buff[m] == 0.0
      {
        buff[k] := 0.0;
        k := k + 1;
      }
      readIdx := 0;
      writeIdx := 0;
    }

    /** Store `v` at the write cursor; nothing else changes. */
    method Put(v: real)
      requires Valid()
      modifies buff
      ensures buff[..] == old(buff[..])[writeIdx := v]
    {
      buff[writeIdx] := v;
    }

    /** Store `v` at the write cursor and advance the write cursor by one,
        modulo the length. The read cursor does not move, so a full buffer
        silently overwrites its oldest sample. */
    method PutPostInc(v: real)
      requires Valid()
      modifies this, buff
      ensures Valid()
      ensures buff[..] == old(buff[..])[old(writeIdx) := v]
      ensures writeIdx == (old(writeIdx) + 1) % length
      ensures readIdx == old(readIdx)
    {
      Put(v);
      writeIdx := IncIdx(writeIdx, 1);
    }

    /** The cell under the read cursor. */
    function Get(): real
      reads this, buff
      requires Valid()
    {
      buff[readIdx]
    }

    /** Return the cell under the read cursor and advance the read cursor by
        one, modulo the length; the storage and the write cursor are kept. */
    method GetPostInc() returns (v: real)
      requires Valid()
      modifies this
      ensures Valid()
      ensures v == buff[old(readIdx)]
      ensures readIdx == (old(readIdx) + 1) % length
      ensures writeIdx == old(writeIdx)
    {
      v := Get();
      readIdx := IncIdx(readIdx, 1);
    }

    /** Wrap an index into the buffer. For a negative multiple of the length
        the source's formula yields `length` itself, one past the last cell. */
    function IndexWrapper(index: int): (r: int)
      requires 0 < length
      ensures index >= 0 || (-index) % length != 0 ==> 0 <= r < length && r == index % length
      ensures index < 0 && (-index) % length == 0 ==> r == length
    {
      if index < 0 then
        (if (-index) % length != 0 then NegativeWrap(index, length); length - (-index) % length
         else length - (-index) % length)
      else
        index % length
    }

    /** Whatever the index, its wrapped form is congruent to it. */
    lemma IndexWrapperCongruent(base: int, index: int)
      requires 0 < length
      ensures (base + IndexWrapper(index)) % length == (base + index) % length
    {
      var w := IndexWrapper(index);
      if w == length {
        var k := (-index) / length;
        assert -index == k * length;
        assert index == (-k) * length + 0;
        ModUnique(index, length, -k, 0);
        ModShift(index, base, length);
        ModMultiple(base, 1, length);
        assert base + 1 * length == base + w;
      } else {
        ModShift(index, base, length);
      }
    }

    /** The two cells `GetFrac` reads are the ones `t` and `t + 1` cells
        from `base`. */
    lemma WrappedNeighbours(base: int, t: int)
      requires 0 < length
      ensures 0 <= IndexWrapper(t) <= length
      ensures (base + IndexWrapper(t)) % length == (base + t) % length
      ensures (base + IndexWrapper(IndexWrapper(t) + 1)) % length == (base + t + 1) % length
    {
      var lo := IndexWrapper(t);
      IndexWrapperCongruent(base, t);
      IndexWrapperCongruent(base, lo + 1);
      IndexWrapperCongruent(base + 1, t);
      assert base + (lo + 1) == (base + 1) + lo;
      assert base + t + 1 == (base + 1) + t;
    }

    /** The cell at `offset` from the read cursor, without moving a cursor.
        The requires excludes the offsets for which the wrapped index is
        out of range. */
    function GetAt(offset: int): (v: real)
      reads this, buff
      requires Valid()
      requires readIdx + offset >= 0 || (-(readIdx + offset)) % length != 0
      ensures v == buff[(readIdx + offset) % length]
    {
      buff[IndexWrapper(readIdx + offset)]
    }

    /** The linear interpolation between the cells at `Trunc(offset)` and
        `Trunc(offset) + 1` from the read cursor, weighted by the distance of
        `offset` from `Trunc(offset)`. */
    function GetFrac(offset: real): (v: real)
      reads this, buff
      requires Valid()
      ensures v == Lerp(buff[(readIdx + Trunc(offset)) % length],
                        buff[(readIdx + Trunc(offset) + 1) % length], FracPart(offset))
    {
      var lowerBound := IndexWrapper(Trunc(offset));
      var upperBound := IndexWrapper(lowerBound + 1);
      var fractionPart := FracPart(offset);
      WrappedNeighbours(readIdx, Trunc(offset));
      var lower := GetAt(lowerBound);
      var upper := GetAt(upperBound);
      Lerp(lower, upper, fractionPart)
    }

    /** Reading at offset 0, whole or fractional, is reading the cell under
        the read cursor. */
    lemma ZeroOffsetReads()
      requires Valid()
      ensures GetAt(0) == Get()
      ensures GetFrac(0.0) == Get()
    {
      ModUnique(readIdx, length, 0, readIdx);
    }

    /** Alternating `putPostInc` and `getPostInc` on a buffer whose cursors
        coincide hands every sample straight back, in order, and leaves the
        cursors together. */
    method Echo(input: seq<real>) returns (output: seq<real>)
      requires Valid() && readIdx == writeIdx
      modifies this, buff
      ensures Valid() && readIdx == writeIdx
      ensures output == input
    {
      output := [];
      var i := 0;
      while i < |input|
        invariant 0 <= i <= |input|
        invariant Valid() && readIdx == writeIdx
        invariant output == input[..i]
      {
        PutPostInc(input[i]);
        var v := GetPostInc();
        output := output + [v];
        i := i + 1;
      }
      assert input[..|input|] == input;
    }

    /** Move the read cursor to `newReadIdx`, wrapped into `[0, length)`. */
    method SetReadIdx(newReadIdx: int)
      requires Valid()
      modifies this
      ensures Valid()
      ensures readIdx == newReadIdx % length && writeIdx == old(writeIdx)
    {
      readIdx := IncIdx(readIdx, newReadIdx - readIdx);
    }

    /** Move the write cursor to `newWriteIdx`, wrapped into `[0, length)`. */
    method SetWriteIdx(newWriteIdx: int)
      requires Valid()
      modifies this
      ensures Valid()
      ensures writeIdx == newWriteIdx % length && readIdx == old(readIdx)
    {
      writeIdx := IncIdx(writeIdx, newWriteIdx - writeIdx);
    }

    /** Number of values between the read and the write cursor; 0 when the
        cursors meet, which is both the empty and the full buffer. */
    function NumValuesInBuffer(): (n: int)
      reads this
      requires Valid()
      ensures 0 <= n < length
      ensures (readIdx + n) % length == writeIdx
      ensures n == 0 <==> readIdx == writeIdx
    {
      if writeIdx >= readIdx then
        ModUnique(writeIdx - readIdx + length, length, 1, writeIdx - readIdx);
        ModUnique(writeIdx, length, 0, writeIdx);
        (writeIdx - readIdx + length) % length
      else
        ModUnique(writeIdx - readIdx + length, length, 0, writeIdx - readIdx + length);
        ModUnique(writeIdx + length, length, 1, writeIdx);
        (writeIdx - readIdx + length) % length
    }

    /** The index `idx` moved by `offset` cells: the offset is first raised by
        whole lengths until the sum is non-negative, so the result is the
        Euclidean residue of `idx + offset` even for negative offsets. */
    method IncIdx(idx: int, offset: int) returns (r: int)
      requires 0 < length
      ensures 0 <= r < length
      ensures r == (idx + offset) % length
    {
      var off := offset;
      while idx + off < 0
        invariant (idx + off) % length == (idx + offset) % length
        decreases -(idx + off)
      {
        ModMultiple(idx + off, 1, length);
        off := off + length;
      }
      r := (idx + off) % length;
    }
  }

  /** On a buffer holding the ramp `0, 1, ..., length - 1` with the read
      cursor at 0, the fractional read at any offset `f` in
      `[0, length - 1)` is `f` itself: interpolation is exact on a line. */
  lemma RampInterpolation(b: RingBuffer, f: real)
    requires b.Valid() && b.readIdx == 0
    requires forall k :: 0 <= k < b.length ==> b.buff[k] == k as real
    requires 0.0 <= f < (b.length - 1) as real
    ensures b.GetFrac(f) == f
  {
    var t := Trunc(f);
    assert 0 <= t < b.length - 1;
    ModUnique(t, b.length, 0, t);
    ModUnique(t + 1, b.length, 0, t + 1);
    LerpRamp(t as real, f - t as real);
  }

  /** Interpolating between `t` and `t + 1` at weight `d` gives `t + d`. */
  lemma LerpRamp(t: real, d: real)
    ensures Lerp(t, t + 1.0, d) == t + d
  {
    calc {
      Lerp(t, t + 1.0, d);
      (1.0 - d) * t + d * (t + 1.0);
      t - d * t + d * t + d;
      t + d;
    }
  }

  /** Linear interpolation from `a` (at weight 0) to `b` (at weight 1). */
  function Lerp(a: real, b: real, frac: real): real
  {
    (1.0 - frac) * a + frac * b
  }

  /** `static_cast<int>` of a float: truncation toward zero. */
  function Trunc(x: real): int
  {
    if x >= 0.0 then x.Floor else -((-x).Floor)
  }

  /** `abs(f - static_cast<int>(f))`: the distance to the truncated value. */
  function FracPart(x: real): real
  {
    var d := x - Trunc(x) as real;
    if d >= 0.0 then d else -d
  }
}
