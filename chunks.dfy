/** The recorded chunk sequence: how `dataavailable` slices are collected, and how the
    downloaded `Blob` is built from the collected chunks. */
module Chunks {
  import opened Media

  predicate AllNonEmpty(chunks: seq<Blob>)
  {
    forall i :: 0 <= i < |chunks| ==> chunks[i].Size() > 0
  }

  /** One `dataavailable` event: `if (event.data.size > 0) chunks.push(event.data)`. */
  function Append(chunks: seq<Blob>, data: Blob): (r: seq<Blob>)
    ensures chunks <= r
    ensures |r| == |chunks| + (if data.Size() > 0 then 1 else 0)
    ensures |r| > |chunks| ==> r[|chunks|] == data
  {
    if data.Size() > 0 then chunks + [data] else chunks
  }

  /** The chunk list after the events carrying `slices` have arrived, one by one, in order. */
  function Collect(chunks: seq<Blob>, slices: seq<Blob>): (r: seq<Blob>)
    ensures chunks <= r
    ensures |r| <= |chunks| + |slices|
  {
    if slices == [] then chunks
    else Append(Collect(chunks, slices[..|slices| - 1]), slices[|slices| - 1])
  }

  /** The non-empty slices, in their original order. */
  function NonEmpty(slices: seq<Blob>): seq<Blob>
  {
    if slices == [] then []
    else Append(NonEmpty(slices[..|slices| - 1]), slices[|slices| - 1])
  }

  /** The filter keeps every non-empty slice and nothing else. */
  lemma {:induction false} NonEmptyContents(slices: seq<Blob>)
    ensures AllNonEmpty(NonEmpty(slices))
    ensures forall b :: b in NonEmpty(slices) <==> b in slices && b.Size() > 0
    ensures |NonEmpty(slices)| <= |slices|
  {
    if slices != [] {
      var init := slices[..|slices| - 1];
      NonEmptyContents(init);
      assert slices == init + [slices[|slices| - 1]];
    }
  }

  /** Collecting is append-only and keeps exactly the non-empty slices, in arrival order. */
  lemma {:induction false} CollectKeepsNonEmpty(chunks: seq<Blob>, slices: seq<Blob>)
    ensures Collect(chunks, slices) == chunks + NonEmpty(slices)
  {
    if slices == [] {
      assert chunks + [] == chunks;
    } else {
      var init, last := slices[..|slices| - 1], slices[|slices| - 1];
      CollectKeepsNonEmpty(chunks, init);
      if last.Size() > 0 {
        assert (chunks + NonEmpty(init)) + [last] == chunks + (NonEmpty(init) + [last]);
      }
    }
  }

  /** A list built by the handler from a list of non-empty chunks has only non-empty chunks. */
  lemma CollectPreservesNonEmpty(chunks: seq<Blob>, slices: seq<Blob>)
    requires AllNonEmpty(chunks)
    ensures AllNonEmpty(Collect(chunks, slices))
  {
    CollectKeepsNonEmpty(chunks, slices);
    NonEmptyContents(slices);
    var r := NonEmpty(slices);
    assert forall i :: |chunks| <= i < |chunks| + |r| ==> (chunks + r)[i] == r[i - |chunks|];
  }

  /** `new Blob(chunks)`: the bytes of every chunk, in order. */
  function Concat(chunks: seq<Blob>): seq<byte>
  {
    if chunks == [] then [] else chunks[0].bytes + Concat(chunks[1..])
  }

  function TotalSize(chunks: seq<Blob>): nat
  {
    if chunks == [] then 0 else chunks[0].Size() + TotalSize(chunks[1..])
  }

  lemma {:induction false} ConcatSize(chunks: seq<Blob>)
    ensures |Concat(chunks)| == TotalSize(chunks)
  {
    if chunks != [] {
      ConcatSize(chunks[1..]);
    }
  }

  lemma {:induction false} ConcatAppend(a: seq<Blob>, b: seq<Blob>)
    ensures Concat(a + b) == Concat(a) + Concat(b)
  {
    if a == [] {
      assert a + b == b;
    } else {
      assert (a + b)[1..] == a[1..] + b;
      ConcatAppend(a[1..], b);
    }
  }

  /** Chunk `i` occupies the bytes right after those of the chunks before it. */
  lemma ChunkInPlace(chunks: seq<Blob>, i: int)
    requires 0 <= i < |chunks|
    ensures TotalSize(chunks[..i]) + chunks[i].Size() <= |Concat(chunks)|
    ensures Concat(chunks)[TotalSize(chunks[..i]) .. TotalSize(chunks[..i]) + chunks[i].Size()] == chunks[i].bytes
  {
    var before, rest := chunks[..i], chunks[i..];
    assert chunks == before + rest;
    ConcatAppend(before, rest);
    assert rest[0] == chunks[i];
    var prefix, tail := Concat(before), Concat(rest[1..]);
    assert Concat(chunks) == prefix + (chunks[i].bytes + tail);
    ConcatSize(before);
    MiddleSlice(prefix, chunks[i].bytes, tail);
  }

  /** The bytes after a prefix, as many as the middle part holds, are the middle part. */
  lemma MiddleSlice(a: seq<byte>, b: seq<byte>, c: seq<byte>)
    ensures (a + (b + c))[|a| .. |a| + |b|] == b
  {
    assert forall k :: 0 <= k < |b| ==> (a + (b + c))[|a| + k] == b[k];
  }

  /** Zero-size slices contribute no bytes, so dropping them loses nothing of the recording. */
  lemma {:induction false} NonEmptyKeepsBytes(slices: seq<Blob>)
    ensures Concat(NonEmpty(slices)) == Concat(slices)
  {
    if slices != [] {
      var init, last := slices[..|slices| - 1], slices[|slices| - 1];
      assert slices == init + [last];
      assert Concat([last]) == last.bytes by {
        assert [last][1..] == [];
      }
      NonEmptyKeepsBytes(init);
      ConcatAppend(init, [last]);
      if last.Size() > 0 {
        ConcatAppend(NonEmpty(init), [last]);
      } else {
        assert last.bytes == [];
      }
    }
  }
}
