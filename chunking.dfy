/** Splitting an id list into fixed-size batches, as `chunkArray` in
    index_gifDownloader.js does before the batches are downloaded one by one. */
module Chunking {

  function Min(a: int, b: int): int { if a < b then a else b }

  /** The concatenation of a sequence of sequences, in order. */
  function Flatten<T>(ss: seq<seq<T>>): seq<T>
  {
    if ss == [] then [] else ss[0] + Flatten(ss[1..])
  }

  lemma {:induction false} FlattenConcat<T>(a: seq<seq<T>>, b: seq<seq<T>>)
    ensures Flatten(a + b) == Flatten(a) + Flatten(b)
  {
    if a == [] {
      assert a + b == b;
    } else {
      assert (a + b)[1..] == a[1..] + b;
      FlattenConcat(a[1..], b);
    }
  }

  /** The slices `chunkArray(arr, size)` pushes: `arr.slice(i, i + size)` for
      i = 0, size, 2 * size, ... while i < |arr|, a slice running past the end
      being cut short at the end. */
  function Chunks<T>(arr: seq<T>, size: nat): seq<seq<T>>
    requires size > 0
    decreases |arr|
  {
    if |arr| == 0 then []
    else
      var k := Min(size, |arr|);
      [arr[..k]] + Chunks(arr[k..], size)
  }

  /** Concatenating the chunks gives back the input, in order. */
  lemma {:induction false} ChunksFlatten<T>(arr: seq<T>, size: nat)
    requires size > 0
    ensures Flatten(Chunks(arr, size)) == arr
    decreases |arr|
  {
    if |arr| > 0 {
      var k := Min(size, |arr|);
      ChunksFlatten(arr[k..], size);
      assert Chunks(arr, size)[1..] == Chunks(arr[k..], size);
      assert arr == arr[..k] + arr[k..];
    }
  }

  /** Every chunk is non-empty and at most `size` long; all but the last are exactly `size` long. */
  lemma {:induction false} ChunksShape<T>(arr: seq<T>, size: nat)
    requires size > 0
    ensures forall j :: 0 <= j < |Chunks(arr, size)| ==> 0 < |Chunks(arr, size)[j]| <= size
    ensures forall j :: 0 <= j < |Chunks(arr, size)| - 1 ==> |Chunks(arr, size)[j]| == size
    decreases |arr|
  {
    if |arr| > 0 {
      var k := Min(size, |arr|);
      ChunksShape(arr[k..], size);
      var r := Chunks(arr, size);
      assert r[1..] == Chunks(arr[k..], size);
      if k < size {
        assert arr[k..] == [];
      }
    }
  }

  lemma MulBounds(k: int, d: int)
    requires d > 0
    ensures k >= 1 ==> k * d >= d
    ensures k <= -1 ==> k * d <= -d
  {
    if k >= 1 {
      assert k * d == (k - 1) * d + d;
    } else if k <= -1 {
      assert k * d == (k + 1) * d - d;
    }
  }

  lemma DivStep(n: nat, d: nat)
    requires d > 0
    ensures (n + d) / d == n / d + 1
  {
    var q, r := n / d, n % d;
    var q', r' := (n + d) / d, (n + d) % d;
    assert n == q * d + r && 0 <= r < d;
    assert n + d == q' * d + r' && 0 <= r' < d;
    assert (q' - q - 1) * d == r - r';
    MulBounds(q' - q - 1, d);
  }

  lemma DivSmall(n: nat, d: nat)
    requires n < d
    ensures n / d == 0
  {
    var q, r := n / d, n % d;
    assert n == q * d + r && 0 <= r < d;
    MulBounds(q, d);
  }

  /** The number of chunks is the ceiling of |arr| / size; in particular no input gives no chunk. */
  lemma {:induction false} ChunksCount<T>(arr: seq<T>, size: nat)
    requires size > 0
    ensures |Chunks(arr, size)| == (|arr| + size - 1) / size
    decreases |arr|
  {
    if |arr| == 0 {
      DivSmall(size - 1, size);
    } else if |arr| <= size {
      assert arr[|arr|..] == [] && arr[..|arr|] == arr;
      assert Chunks(arr[|arr|..], size) == [];
      DivSmall(|arr| - 1, size);
      DivStep(|arr| - 1, size);
    } else {
      var rest := arr[size..];
      assert Chunks(arr, size) == [arr[..size]] + Chunks(rest, size);
      ChunksCount(rest, size);
      var m: nat := |rest| + size - 1;
      assert |arr| + size - 1 == m + size;
      DivStep(m, size);
    }
  }

  /** 1100 ids with batches of 500 give batches of 500, 500 and 100 ids. */
  lemma ElevenHundredIds<T>(arr: seq<T>)
    requires |arr| == 1100
    ensures Chunks(arr, 500) == [arr[..500], arr[500..1000], arr[1000..]]
  {
    var rest := arr[500..];
    var last := rest[500..];
    assert last == arr[1000..];
    assert last[100..] == [] && last[..100] == last;
    assert Chunks(last[100..], 500) == [];
    assert Chunks(last, 500) == [last];
    assert Chunks(rest, 500) == [rest[..500]] + Chunks(last, 500);
    assert rest[..500] == arr[500..1000];
  }

  /** `chunkArray`: a loop that steps `i` from 0 by `size` and appends the
      slice of `arr` that starts at `i` and holds at most `size` elements. */
  method ChunkArray<T>(arr: seq<T>, size: nat) returns (result: seq<seq<T>>)
    requires size > 0
    ensures result == Chunks(arr, size)
    ensures Flatten(result) == arr
    ensures |result| == (|arr| + size - 1) / size
    ensures forall j :: 0 <= j < |result| ==> 0 < |result[j]| <= size
    ensures forall j :: 0 <= j < |result| - 1 ==> |result[j]| == size
  {
    result := [];
    var i := 0;
    while i < |arr|
      invariant 0 <= i
      invariant i <= |arr| ==> result + Chunks(arr[i..], size) == Chunks(arr, size)
      invariant i > |arr| ==> result == Chunks(arr, size)
      decreases |arr| - i
    {
      var end := Min(i + size, |arr|);
      var k := Min(size, |arr| - i);
      assert arr[i..][..k] == arr[i..end];
      assert arr[i..][k..] == arr[end..];
      result := result + [arr[i..end]];
      if end == |arr| {
        assert arr[end..] == [];
      }
      i := i + size;
    }
    if i <= |arr| {
      assert arr[i..] == [];
    }
    ChunksFlatten(arr, size);
    ChunksCount(arr, size);
    ChunksShape(arr, size);
  }
}
