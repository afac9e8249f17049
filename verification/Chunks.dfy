/** Lists cut into pieces for bulk requests. */
module Chunks {

  function ChunkArray<T>(xs: seq<T>, size: nat): seq<seq<T>>
    requires size > 0
  {
    if |xs| > size then [xs[..size]] + ChunkArray(xs[size..], size) else [xs]
  }

  ghost function Concat<T>(xss: seq<seq<T>>): seq<T> {
    if xss == [] then [] else xss[0] + Concat(xss[1..])
  }

  lemma OneMoreChunk(n: nat, size: nat)
    ensures n * size == (n - 1) * size + size
    ensures (n + 1) * size == n * size + size
  {
  }

  /** The chunks are the list, cut after every `size` elements; an empty list is one empty chunk. */
  lemma {:induction false} ChunksPartition<T>(xs: seq<T>, size: nat)
    requires size > 0
    ensures var chunks := ChunkArray(xs, size);
      && Concat(chunks) == xs
      && (if xs == [] then |chunks| == 1 else (|chunks| - 1) * size < |xs| <= |chunks| * size)
      && (forall i :: 0 <= i < |chunks| - 1 ==> |chunks[i]| == size)
      && |chunks[|chunks| - 1]| <= size
      && (xs != [] ==> chunks[|chunks| - 1] != [])
    decreases |xs|
  {
    var chunks := ChunkArray(xs, size);
    if |xs| > size {
      var rest := ChunkArray(xs[size..], size);
      ChunksPartition(xs[size..], size);
      assert chunks == [xs[..size]] + rest;
      hide ChunkArray;
      assert chunks[1..] == rest;
      assert xs[..size] + xs[size..] == xs;
      OneMoreChunk(|rest|, size);
    } else {
      assert chunks[1..] == [];
    }
  }

  lemma {:induction false} ConcatContains<T>(xss: seq<seq<T>>, x: T)
    ensures x in Concat(xss) <==> exists xs :: xs in xss && x in xs
  {
    if xss != [] {
      ConcatContains(xss[1..], x);
      if xs :| xs in xss && x in xs {
        assert xs == xss[0] || xs in xss[1..];
      }
    }
  }
}
