/**
 * Splitting the data list into CloudWatch requests: `chunked(150)` cuts the
 * list into contiguous pieces of at most 150 data each, in order, the last
 * one possibly shorter.
 */
module Batcher {

  /** The most data CloudWatch accepts in one `putMetricData` request. */
  const MaxDatapointsPerRequest: nat := 150

  /** The library's `chunked(size)`: consecutive windows of `size` elements,
      the last window holding what is left. `size` must be positive. */
  function Chunked<T>(s: seq<T>, size: nat): (chunks: seq<seq<T>>)
    requires size > 0
    decreases |s|
  {
    if |s| == 0 then []
    else if |s| <= size then [s]
    else [s[..size]] + Chunked(s[size..], size)
  }

  /** The concatenation of a list of chunks. */
  function Flatten<T>(chunks: seq<seq<T>>): (s: seq<T>) {
    if |chunks| == 0 then [] else chunks[0] + Flatten(chunks[1..])
  }

  /** With the driver's limit of 150, the number of chunks is the length
      divided by 150, rounded up; so an empty list gives no chunk at all. */
  lemma {:induction false} ChunkCount<T>(s: seq<T>)
    ensures |Chunked(s, MaxDatapointsPerRequest)| == (|s| + MaxDatapointsPerRequest - 1) / MaxDatapointsPerRequest
    ensures |Chunked(s, MaxDatapointsPerRequest)| == 0 <==> |s| == 0
    decreases |s|
  {
    if |s| > MaxDatapointsPerRequest {
      ChunkCount(s[MaxDatapointsPerRequest..]);
    }
  }

  /** Every chunk is non-empty and at most `size` long, and every chunk but the
      last is exactly `size` long. */
  lemma {:induction false} ChunkSizes<T>(s: seq<T>, size: nat)
    requires size > 0
    ensures forall i :: 0 <= i < |Chunked(s, size)| ==> 0 < |Chunked(s, size)[i]| <= size
    ensures forall i :: 0 <= i < |Chunked(s, size)| - 1 ==> |Chunked(s, size)[i]| == size
    decreases |s|
  {
    if |s| > size {
      ChunkSizes(s[size..], size);
      var c, rest := Chunked(s, size), Chunked(s[size..], size);
      assert forall i :: 1 <= i < |c| ==> c[i] == rest[i - 1];
    }
  }

  /** Concatenating the chunks in order gives back the list. */
  lemma {:induction false} ChunksFlatten<T>(s: seq<T>, size: nat)
    requires size > 0
    ensures Flatten(Chunked(s, size)) == s
    decreases |s|
  {
    if |s| > size {
      var c := Chunked(s, size);
      ChunksFlatten(s[size..], size);
      assert c[1..] == Chunked(s[size..], size);
      assert s == s[..size] + s[size..];
    } else if |s| > 0 {
      assert Chunked(s, size)[1..] == [];
    }
  }

  /** 320 data make three requests, of 150, 150 and 20 data. */
  lemma ThreeHundredTwentyData<T>(s: seq<T>)
    requires |s| == 320
    ensures |Chunked(s, MaxDatapointsPerRequest)| == 3
    ensures Chunked(s, MaxDatapointsPerRequest) == [s[..150], s[150..300], s[300..]]
  {
    var c := Chunked(s, 150);
    var t := s[150..];
    assert c == [s[..150]] + Chunked(t, 150);
    assert Chunked(t, 150) == [t[..150]] + [t[150..]];
    assert t[..150] == s[150..300] && t[150..] == s[300..];
  }
}
