/** `D2Array<N, M>`: a boxed M x N byte array (M rows of N bytes), and
    its conversions to and from a flat byte vector for serialisation. */
module D2Arrays {
  import opened Bits

  /** Rows all `n` bytes wide. */
  predicate Uniform(rows: seq<seq<u8>>, n: nat)
  {
    forall m :: 0 <= m < |rows| ==> |rows[m]| == n
  }

  /** The rows one after another. */
  function Concat(rows: seq<seq<u8>>): (vec: seq<u8>)
  {
    if |rows| == 0 then [] else Concat(rows[..|rows| - 1]) + rows[|rows| - 1]
  }

  /** `m` rows of `n` bytes flatten to `m * n` bytes. */
  lemma {:induction false} ConcatLength(rows: seq<seq<u8>>, n: nat)
    requires Uniform(rows, n)
    ensures |Concat(rows)| == |rows| * n
  {
    if |rows| > 0 {
      ConcatLength(rows[..|rows| - 1], n);
      assert (|rows| - 1) * n + n == |rows| * n;
    }
  }

  /** Flattening is row-major: byte `n` of row `m` lands at `m * N + n`. */
  lemma {:induction false} ConcatIndex(rows: seq<seq<u8>>, width: nat, m: nat, n: nat)
    requires Uniform(rows, width) && m < |rows| && n < width
    ensures m * width + n < |Concat(rows)|
    ensures Concat(rows)[m * width + n] == rows[m][n]
  {
    var k := |rows| - 1;
    ConcatLength(rows, width);
    ConcatLength(rows[..k], width);
    if m < k {
      ConcatIndex(rows[..k], width, m, n);
    } else {
      assert m * width + n == |Concat(rows[..k])| + n;
    }
  }

  /** The first `m` chunks of `n` bytes of `vec`, in order, as
      `chunks_exact(n)` yields them. */
  function Chunks(vec: seq<u8>, n: nat, m: nat): (rows: seq<seq<u8>>)
    requires m * n <= |vec|
    ensures |rows| == m && Uniform(rows, n)
  {
    if m == 0 then []
    else
      assert (m - 1) * n + n == m * n;
      Chunks(vec, n, m - 1) + [vec[(m - 1) * n..m * n]]
  }

  /** Cutting the flattened rows into chunks gives back the rows. */
  lemma {:induction false} ChunksOfConcat(rows: seq<seq<u8>>, n: nat)
    requires Uniform(rows, n)
    ensures |rows| * n <= |Concat(rows)|
    ensures Chunks(Concat(rows), n, |rows|) == rows
  {
    ConcatLength(rows, n);
    if |rows| > 0 {
      var k := |rows| - 1;
      var init := rows[..k];
      ChunksOfConcat(init, n);
      ConcatLength(init, n);
      ChunksPrefix(Concat(init), rows[k], n, k);
      assert k * n + n == |rows| * n;
      assert Concat(rows)[k * n..|rows| * n] == rows[k];
      assert rows == init + [rows[k]];
    }
  }

  /** Chunks read only the bytes they cover: appending more bytes does not
      change them. */
  lemma {:induction false} ChunksPrefix(vec: seq<u8>, more: seq<u8>, n: nat, m: nat)
    requires m * n <= |vec|
    ensures Chunks(vec + more, n, m) == Chunks(vec, n, m)
  {
    if m > 0 {
      assert (m - 1) * n + n == m * n;
      ChunksPrefix(vec, more, n, m - 1);
      assert (vec + more)[(m - 1) * n..m * n] == vec[(m - 1) * n..m * n];
    }
  }

  /** Flattening the chunks gives back the bytes they cover. */
  lemma {:induction false} ConcatOfChunks(vec: seq<u8>, n: nat, m: nat)
    requires m * n <= |vec|
    ensures Concat(Chunks(vec, n, m)) == vec[..m * n]
  {
    if m > 0 {
      assert (m - 1) * n + n == m * n;
      var rows := Chunks(vec, n, m);
      assert rows[..m - 1] == Chunks(vec, n, m - 1);
      ConcatOfChunks(vec, n, m - 1);
      assert vec[..(m - 1) * n] + vec[(m - 1) * n..m * n] == vec[..m * n];
    }
  }

  class D2Array {
    const cells: array2<u8>

    /** The rows of the array. */
    function Rows(): (rows: seq<seq<u8>>)
      reads cells
      ensures |rows| == cells.Length0 && Uniform(rows, cells.Length1)
      ensures forall m, n :: 0 <= m < cells.Length0 && 0 <= n < cells.Length1 ==> rows[m][n] == cells[m, n]
    {
      seq(cells.Length0, m requires 0 <= m < cells.Length0 reads cells =>
        seq(cells.Length1, n requires 0 <= n < cells.Length1 reads cells => cells[m, n]))
    }

    /** `new_zeroed`: `rows` rows of `cols` zero bytes. */
    constructor NewZeroed(rows: nat, cols: nat)
      ensures fresh(cells) && cells.Length0 == rows && cells.Length1 == cols
      ensures forall m, n :: 0 <= m < rows && 0 <= n < cols ==> cells[m, n] == 0
    {
      cells := new u8[rows, cols]((m, n) => 0);
    }

    /** `From<D2Array> for SerializableD2Array`: row by row, byte by byte,
        the array pushed onto a vector. */
    method Flatten() returns (vec: seq<u8>)
      ensures vec == Concat(Rows())
      ensures |vec| == cells.Length0 * cells.Length1
    {
      vec := [];
      ghost var rows := Rows();
      for m := 0 to cells.Length0
        invariant vec == Concat(rows[..m])
      {
        for n := 0 to cells.Length1
          invariant vec == Concat(rows[..m]) + rows[m][..n]
        {
          vec := vec + [cells[m, n]];
        }
        assert rows[..m + 1][..m] == rows[..m];
        assert rows[m][..cells.Length1] == rows[m];
      }
      assert rows[..cells.Length0] == rows;
      ConcatLength(rows, cells.Length1);
    }

    /** Copies `chunk` into row `m`, as `copy_from_slice` does. */
    method CopyRow(m: nat, chunk: seq<u8>)
      requires m < cells.Length0 && |chunk| == cells.Length1
      modifies cells
      ensures Rows() == old(Rows())[m := chunk]
    {
      for n := 0 to cells.Length1
        invariant forall m', n' :: 0 <= m' < cells.Length0 && 0 <= n' < cells.Length1 ==>
          cells[m', n'] == if m' == m && n' < n then chunk[n'] else old(cells[m', n'])
      {
        cells[m, n] := chunk[n];
      }
      forall i | 0 <= i < cells.Length0
        ensures Rows()[i] == old(Rows())[m := chunk][i]
      {
      }
    }
  }

  /** `From<SerializableD2Array> for D2Array`: a zeroed `rows` x `cols`
      array whose rows are filled with the vector's successive chunks of
      `cols` bytes. `chunks_exact(0)` panics, and so does running out of
      chunks before the last row; bytes past the last row are ignored. */
  method Unflatten(vec: seq<u8>, rows: nat, cols: nat) returns (r: Result<D2Array>)
    ensures r.Ok? <==> cols > 0 && rows * cols <= |vec|
    ensures r.Ok? ==>
      fresh(r.value.cells) && r.value.cells.Length0 == rows && r.value.cells.Length1 == cols
      && r.value.Rows() == Chunks(vec, cols, rows)
  {
    if cols == 0 || rows * cols > |vec| {
      return Panic;
    }
    var d2 := new D2Array.NewZeroed(rows, cols);
    var pos := 0;
    for m := 0 to rows
      invariant pos == m * cols
      invariant d2.cells.Length0 == rows && d2.cells.Length1 == cols
      invariant d2.Rows()[..m] == Chunks(vec, cols, m)
    {
      ChunkStep(vec, cols, m, rows);
      var chunk := vec[pos..pos + cols];
      ghost var before := d2.Rows();
      d2.CopyRow(m, chunk);
      assert d2.Rows()[..m + 1] == before[..m] + [chunk];
      pos := pos + cols;
    }
    assert d2.Rows()[..rows] == d2.Rows();
    r := Ok(d2);
  }

  /** The chunk after the first `m` is the next `n` bytes. */
  lemma ChunkStep(vec: seq<u8>, n: nat, m: nat, count: nat)
    requires m < count && count * n <= |vec|
    ensures m * n + n == (m + 1) * n <= count * n
    ensures Chunks(vec, n, m + 1) == Chunks(vec, n, m) + [vec[m * n..m * n + n]]
  {
    assert (m + 1) * n <= count * n;
  }

  /** Flattening an array and reading it back restores every row: the
      serialised form loses nothing. */
  lemma UnflattenFlatten(rows: seq<seq<u8>>, cols: nat)
    requires Uniform(rows, cols) && cols > 0
    ensures |rows| * cols <= |Concat(rows)|
    ensures Chunks(Concat(rows), cols, |rows|) == rows
  {
    ChunksOfConcat(rows, cols);
  }
}
