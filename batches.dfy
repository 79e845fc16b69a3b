/** Cutting a row buffer into consecutive batches of at most `size` rows, as the
    insert loops of both handlers do with `slice(i, i + batchSize)`. */
module Batches {

  /** The concatenation of the chunks, in order. */
  function Flatten<T>(chunks: seq<seq<T>>): seq<T> {
    if chunks == [] then [] else chunks[0] + Flatten(chunks[1..])
  }

  function Min(a: int, b: int): int {
    if a <= b then a else b
  }

  /** `s` cut into consecutive pieces of `size` elements, the last one possibly
      shorter; an empty sequence gives no piece at all. */
  function Chunks<T>(s: seq<T>, size: int): (r: seq<seq<T>>)
    requires size > 0 || s == []
    ensures Flatten(r) == s
    decreases |s|
  {
    if s == [] then []
    else
      var k := Min(size, |s|);
      assert s[..k] + s[k..] == s;
      [s[..k]] + Chunks(s[k..], size)
  }

  /** Every piece is non-empty and at most `size` long, and all but the last are
      exactly `size` long. */
  lemma {:induction false} ChunkSizes<T>(s: seq<T>, size: int)
    requires size > 0 || s == []
    ensures forall i :: 0 <= i < |Chunks(s, size)| ==> 0 < |Chunks(s, size)[i]| <= size
    ensures forall i :: 0 <= i < |Chunks(s, size)| - 1 ==> |Chunks(s, size)[i]| == size
    decreases |s|
  {
    if s != [] {
      var k := Min(size, |s|);
      ChunkSizes(s[k..], size);
      var rest := Chunks(s[k..], size);
      var r := Chunks(s, size);
      assert r == [s[..k]] + rest;
      assert forall i :: 0 < i < |r| ==> r[i] == rest[i - 1];
      if s[k..] == [] {
        assert |r| == 1;
      } else {
        assert |rest| > 0 && k == size;
        forall i | 0 < i < |r| ensures 0 < |r[i]| <= size && (i < |r| - 1 ==> |r[i]| == size) {
          assert r[i] == rest[i - 1];
        }
      }
    }
  }

  /** Cutting is determined by the concatenation and the piece lengths: any chunking
      whose pieces all have `size` elements except a shorter, non-empty last one
      is `Chunks`. */
  lemma {:induction false} ChunksUnique<T>(s: seq<T>, size: int, r: seq<seq<T>>)
    requires size > 0
    requires Flatten(r) == s
    requires forall i :: 0 <= i < |r| ==> 0 < |r[i]| <= size
    requires forall i :: 0 <= i < |r| - 1 ==> |r[i]| == size
    ensures r == Chunks(s, size)
    decreases |r|
  {
    if r != [] {
      var k := Min(size, |s|);
      assert s == r[0] + Flatten(r[1..]);
      if |r| > 1 {
        assert |r[0]| == size;
        assert r[1] + Flatten(r[2..]) == Flatten(r[1..]);
        assert |Flatten(r[1..])| > 0;
      } else {
        assert Flatten(r[1..]) == [];
      }
      assert |r[0]| == k;
      assert r[0] == s[..k];
      assert Flatten(r[1..]) == s[k..];
      ChunksUnique(s[k..], size, r[1..]);
    }
  }
}
