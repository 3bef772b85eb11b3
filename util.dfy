/**
  The generic helpers of util.c and util.h: the row-major index macro, the
  zero-initialised 2D allocator and the capacity-doubling list.

  Allocation results (malloc, calloc, realloc) are outside the model; each
  allocation that may fail takes its outcome as a parameter.
 */
module Util {
  import opened Wrappers

  /** ACCESS_2D: the row-major index of (row, col) in a grid of numCols columns. */
  function Access2D(row: int, col: int, numCols: int): int
  {
    row * numCols + col
  }

  /** Row-major indexing is invertible: division and remainder recover (row, col). */
  lemma Access2DInverse(row: int, col: int, numCols: int)
    requires 0 <= col < numCols
    ensures Access2D(row, col, numCols) / numCols == row
    ensures Access2D(row, col, numCols) % numCols == col
  {
    var i := Access2D(row, col, numCols);
    var q, r := i / numCols, i % numCols;
    assert i == q * numCols + r && 0 <= r < numCols;
    assert (row - q) * numCols == r - col;
    MulOutsideUnit(row - q, numCols);
  }

  /** A non-zero multiple of a positive n is at least n away from zero. */
  lemma MulOutsideUnit(k: int, n: int)
    requires n > 0
    ensures k >= 1 ==> k * n >= n
    ensures k <= -1 ==> k * n <= -n
  {
    if k >= 1 {
      assert k * n == (k - 1) * n + n;
    } else if k <= -1 {
      assert k * n == (k + 1) * n - n;
    }
  }

  /** Every in-grid position lands inside the rows * cols cells, in row-major order. */
  lemma Access2DBounds(row: int, col: int, rows: int, cols: int)
    requires 0 <= row < rows && 0 <= col < cols
    ensures 0 <= Access2D(row, col, cols) < rows * cols
  {
    assert rows * cols == (rows - row - 1) * cols + row * cols + cols;
    assert (rows - row - 1) * cols >= 0;
    assert row * cols >= 0;
  }

  /** An index below rows * cols lies in one of the rows. */
  lemma RowOfIndex(i: int, rows: int, cols: int)
    requires cols > 0 && 0 <= i < rows * cols
    ensures 0 <= i / cols < rows
    ensures i == Access2D(i / cols, i % cols, cols)
  {
    var q := i / cols;
    assert q * cols + i % cols == i;
    MulOutsideUnit(q - rows + 1, cols);
    assert (q - rows + 1) * cols == q * cols - rows * cols + cols;
    MulOutsideUnit(q, cols);
  }

  /** The macro test: position (1, 2) of a four-column grid is cell 6. */
  lemma Access2DExample()
    ensures Access2D(1, 2, 4) == 6
  {
  }

  /**
    allocateArray: a rows x columns array of doubles, all 0.0, or null when the
    row-pointer allocation (outerOk) or the allocation of some row (rowOk) fails;
    on a row failure the rows already allocated are released (not modelled).
   */
  method AllocateArray(rows: int, columns: int, outerOk: bool, rowOk: int -> bool)
    returns (r: array?<array<real>>)
    requires rows >= 0 && columns >= 0
    ensures r == null <==> !outerOk || exists i :: 0 <= i < rows && !rowOk(i)
    ensures r != null ==> fresh(r) && r.Length == rows
    ensures r != null ==> forall i :: 0 <= i < rows ==>
      fresh(r[i]) && r[i].Length == columns && forall j :: 0 <= j < columns ==> r[i][j] == 0.0
    ensures r != null ==> forall i, j :: 0 <= i < j < rows ==> r[i] != r[j]
  {
    if !outerOk {
      return null;
    }
    var placeholder := new real[0];
    var rowPtrs := new array<real>[rows](_ => placeholder);
    var i := 0;
    while i < rows
      invariant 0 <= i <= rows
      invariant forall k :: 0 <= k < i ==> rowOk(k)
      invariant forall k :: 0 <= k < i ==>
        fresh(rowPtrs[k]) && rowPtrs[k] != placeholder && rowPtrs[k].Length == columns &&
        forall j :: 0 <= j < columns ==> rowPtrs[k][j] == 0.0
      invariant forall k, l :: 0 <= k < l < i ==> rowPtrs[k] != rowPtrs[l]
    {
      if !rowOk(i) {
        return null;
      }
      var row := new real[columns](_ => 0.0);
      rowPtrs[i] := row;
      i := i + 1;
    }
    r := rowPtrs;
  }

  /** The capacity a list starts with. */
  const InitialCapacity: int := 10

  /**
    List: a growable array of elements. `data` is null only after a failed
    listInit; `maxElementSize` records the element size in bytes.
   */
  class List<T(0)> {
    var maxSize: int
    var maxElementSize: int
    var data: array?<T>
    var size: int

    ghost predicate Valid()
      reads this
    {
      0 <= size <= maxSize && 0 < maxSize &&
      (data != null ==> data.Length == maxSize) &&
      (data == null ==> size == 0)
    }

    /** The stored elements, in insertion order. */
    function Elements(): (s: seq<T>)
      reads this, data
      requires Valid()
      ensures |s| == size
    {
      if data == null then [] else data[..size]
    }

    /** A list record before listInit: no buffer, nothing stored. */
    constructor ()
      ensures data == null && size == 0 && maxSize == 0
    {
      data := null;
      size := 0;
      maxSize := 0;
      maxElementSize := 0;
    }

    /** listInit: an empty list of capacity 10; succeeds iff the buffer was allocated. */
    method Init(maxElmtSize: int, allocOk: bool) returns (ok: bool)
      modifies this
      ensures Valid() && Elements() == []
      ensures maxSize == InitialCapacity && maxElementSize == maxElmtSize && size == 0
      ensures ok == allocOk && ok == (data != null)
      ensures ok ==> fresh(data)
    {
      maxSize := InitialCapacity;
      maxElementSize := maxElmtSize;
      size := 0;
      if allocOk {
        data := new T[maxSize];
      } else {
        data := null;
      }
      ok := data != null;
    }

    /**
      listAddEnd: appends x. A full list first doubles its capacity; when that
      reallocation fails (allocOk false) the list is left exactly as it was.
     */
    method AddEnd(x: T, allocOk: bool)
      requires Valid() && data != null
      modifies this, data
      ensures Valid() && data != null && maxElementSize == old(maxElementSize)
      ensures old(size) == old(maxSize) && !allocOk ==>
        size == old(size) && maxSize == old(maxSize) && data == old(data) && data[..] == old(data[..])
      ensures old(size) < old(maxSize) ==>
        Elements() == old(Elements()) + [x] && maxSize == old(maxSize) && data == old(data)
      ensures old(size) == old(maxSize) && allocOk ==>
        Elements() == old(Elements()) + [x] && maxSize == 2 * old(maxSize) && fresh(data)
    {
      if size == maxSize {
        var newMaxSize := maxSize * 2;
        if !allocOk {
          return;
        }
        var newData := new T[newMaxSize];
        forall k | 0 <= k < data.Length {
          newData[k] := data[k];
        }
        data := newData;
        maxSize := newMaxSize;
      }
      data[size] := x;
      size := size + 1;
    }

    /** listGet: the element at index, or None when index is outside [0, size). */
    function Get(index: int): (r: Option<T>)
      reads this, data
      requires Valid()
      ensures r.None? <==> index < 0 || index >= size
      ensures r.Some? ==> r.value == Elements()[index]
    {
      if index < 0 || index >= size then None else Some(data[index])
    }
  }

  /**
    The list test: appending 0..14 to a fresh list crosses the 10 -> 20
    capacity doubling, and every value can be read back at its index.
   */
  method ListScenario() returns (values: seq<Option<int>>, capacity: int)
    ensures capacity == 2 * InitialCapacity
    ensures |values| == 15 && forall i :: 0 <= i < 15 ==> values[i] == Some(i)
  {
    var l := new List<int>();
    var ok := l.Init(4, true);
    var i := 0;
    while i < 15
      invariant 0 <= i <= 15
      invariant l.Valid() && l.data != null && fresh(l.data)
      invariant l.Elements() == seq(i, k => k)
      invariant l.maxSize == if i <= InitialCapacity then InitialCapacity else 2 * InitialCapacity
    {
      l.AddEnd(i, true);
      i := i + 1;
    }
    values := [];
    i := 0;
    while i < 15
      invariant 0 <= i <= 15
      invariant |values| == i && forall k :: 0 <= k < i ==> values[k] == Some(k)
    {
      values := values + [l.Get(i)];
      i := i + 1;
    }
    capacity := l.maxSize;
  }
}
