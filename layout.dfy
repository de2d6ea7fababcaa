/** Row-major (time-major) flattening of a two-dimensional buffer and its
    inverse.  A segment's traces are rows indexed by sample, each row holding
    one value per channel; on disk they are one flat run of elements in which
    the channel index varies fastest. */
module Layout {
  /** Concatenation of the rows, first row first. */
  function Flatten<T>(rows: seq<seq<T>>): seq<T>
  {
    if rows == [] then [] else rows[0] + Flatten(rows[1..])
  }

  /** Every row has exactly `k` elements. */
  predicate Uniform<T>(rows: seq<seq<T>>, k: nat)
  {
    forall t | 0 <= t < |rows| :: |rows[t]| == k
  }

  /** Cuts `s` into consecutive rows of `k` elements (a trailing partial row,
      which only arises when `k` does not divide `|s|`, is dropped). */
  function Chunk<T>(s: seq<T>, k: nat): (rows: seq<seq<T>>)
    requires k > 0
    ensures Uniform(rows, k)
    decreases |s|
  {
    if |s| < k then [] else [s[..k]] + Chunk(s[k..], k)
  }

  lemma {:induction false} FlattenLength<T>(rows: seq<seq<T>>, k: nat)
    requires Uniform(rows, k)
    ensures |Flatten(rows)| == |rows| * k
  {
    if rows != [] {
      FlattenLength(rows[1..], k);
      assert |Flatten(rows)| == k + (|rows| - 1) * k;
    }
  }

  /** The flat index of sample `t`, channel `c` is `t * k + c`. */
  lemma {:induction false} FlattenIndex<T>(rows: seq<seq<T>>, k: nat, t: nat, c: nat)
    requires Uniform(rows, k)
    requires t < |rows| && c < k
    ensures t * k + c < |Flatten(rows)|
    ensures Flatten(rows)[t * k + c] == rows[t][c]
  {
    FlattenLength(rows, k);
    if t > 0 {
      FlattenIndex(rows[1..], k, t - 1, c);
      assert t * k + c == k + ((t - 1) * k + c);
    }
  }

  /** Appending one row appends its elements. */
  lemma {:induction false} FlattenSnoc<T>(rows: seq<seq<T>>, row: seq<T>)
    ensures Flatten(rows + [row]) == Flatten(rows) + row
  {
    if rows == [] {
      assert [row][1..] == [];
    } else {
      assert (rows + [row])[1..] == rows[1..] + [row];
      FlattenSnoc(rows[1..], row);
    }
  }

  lemma {:induction false} ChunkLength<T>(s: seq<T>, k: nat, n: nat)
    requires k > 0 && |s| == n * k
    ensures |Chunk(s, k)| == n
    decreases n
  {
    if n > 0 {
      assert |s[k..]| == (n - 1) * k;
      ChunkLength(s[k..], k, n - 1);
    }
  }

  /** Cutting a flattened uniform buffer gives back its rows. */
  lemma {:induction false} ChunkFlatten<T>(rows: seq<seq<T>>, k: nat)
    requires k > 0 && Uniform(rows, k)
    ensures Chunk(Flatten(rows), k) == rows
  {
    if rows != [] {
      FlattenLength(rows[1..], k);
      var s := Flatten(rows);
      assert s[..k] == rows[0];
      assert s[k..] == Flatten(rows[1..]);
      ChunkFlatten(rows[1..], k);
    }
  }

  /** Cutting and flattening keeps the elements in order and drops fewer
      than `k` of them, all at the end. */
  lemma {:induction false} FlattenChunkPrefix<T>(s: seq<T>, k: nat)
    requires k > 0
    ensures |Flatten(Chunk(s, k))| <= |s| < |Flatten(Chunk(s, k))| + k
    ensures Flatten(Chunk(s, k)) == s[..|Flatten(Chunk(s, k))|]
    decreases |s|
  {
    if |s| >= k {
      var rest := Chunk(s[k..], k);
      FlattenChunkPrefix(s[k..], k);
      assert ([s[..k]] + rest)[1..] == rest;
      assert Flatten(Chunk(s, k)) == s[..k] + Flatten(rest);
      assert s[..k] + s[k..][..|Flatten(rest)|] == s[..k + |Flatten(rest)|];
    }
  }

  /** Flattening the rows of a buffer whose length is a multiple of `k` gives
      back the buffer. */
  lemma {:induction false} FlattenChunk<T>(s: seq<T>, k: nat, n: nat)
    requires k > 0 && |s| == n * k
    ensures Flatten(Chunk(s, k)) == s
    decreases n
  {
    if n > 0 {
      assert |s[k..]| == (n - 1) * k;
      FlattenChunk(s[k..], k, n - 1);
      assert s == s[..k] + s[k..];
    }
  }
}
