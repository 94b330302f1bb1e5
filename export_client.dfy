/**
 * The second half of `writeMetrics`: one `putMetricData` request per chunk,
 * in chunk order, under the configured namespace. The CloudWatch client is
 * outside the model; what it does is given as the set of call positions at
 * which it throws (creating the client or sending the request). A throw ends
 * `writeMetrics`, so the chunks after it are not sent in that cycle.
 */
module ExportClient {
  import opened MetricModel

  /** What the sends of one `writeMetrics` call did: the requests attempted,
      in order, and whether the last of them threw. */
  datatype SendOutcome = SendOutcome(attempted: seq<PutMetricDataRequest>, failed: bool)

  /** The sends of `chunks`, whose first call has position `from` in the cycle;
      the call at position `k` throws exactly when `k in fails`. */
  function SendAll(chunks: seq<seq<MetricDatum>>, namespace: string, fails: set<nat>, from: nat): (out: SendOutcome)
    decreases |chunks|
  {
    if |chunks| == 0 then SendOutcome([], false)
    else
      var request := PutMetricDataRequest(namespace, chunks[0]);
      if from in fails then SendOutcome([request], true)
      else
        var rest := SendAll(chunks[1..], namespace, fails, from + 1);
        SendOutcome([request] + rest.attempted, rest.failed)
  }

  /** One request per chunk, in chunk order, all under `namespace`, until the
      first call that throws: every call before the last attempted one
      succeeded, the sends failed exactly when some chunk's call throws, and
      without a failure every chunk was sent. */
  lemma {:induction false} SendAllSpec(chunks: seq<seq<MetricDatum>>, namespace: string, fails: set<nat>, from: nat)
    ensures var out := SendAll(chunks, namespace, fails, from);
      && |out.attempted| <= |chunks|
      && (forall i :: 0 <= i < |out.attempted| ==> out.attempted[i] == PutMetricDataRequest(namespace, chunks[i]))
      && (forall k :: from <= k < from + |out.attempted| - 1 ==> k !in fails)
      && (out.failed <==> exists k :: from <= k < from + |chunks| && k in fails)
      && (out.failed ==> |out.attempted| > 0 && from + |out.attempted| - 1 in fails)
      && (!out.failed ==> |out.attempted| == |chunks|)
    decreases |chunks|
  {
    if |chunks| > 0 && from !in fails {
      SendAllSpec(chunks[1..], namespace, fails, from + 1);
      var rest := SendAll(chunks[1..], namespace, fails, from + 1);
      if rest.failed {
        var k :| from + 1 <= k < from + 1 + |chunks[1..]| && k in fails;
        assert from <= k < from + |chunks|;
      }
    }
  }

  /** The loop of `writeMetrics` over the chunks: one request per chunk, in
      order, stopping at the first call that throws. */
  method SendChunks(chunks: seq<seq<MetricDatum>>, namespace: string, fails: set<nat>)
    returns (attempted: seq<PutMetricDataRequest>, failed: bool)
    ensures SendOutcome(attempted, failed) == SendAll(chunks, namespace, fails, 0)
  {
    attempted, failed := [], false;
    var i := 0;
    while i < |chunks| && !failed
      invariant 0 <= i <= |chunks|
      invariant failed ==> SendAll(chunks, namespace, fails, 0) == SendOutcome(attempted, true)
      invariant !failed ==>
        var rest := SendAll(chunks[i..], namespace, fails, i);
        SendAll(chunks, namespace, fails, 0) == SendOutcome(attempted + rest.attempted, rest.failed)
    {
      var request := PutMetricDataRequest(namespace, chunks[i]);
      assert chunks[i..][1..] == chunks[i + 1..];
      attempted := attempted + [request];
      if i in fails {
        failed := true;
      }
      i := i + 1;
    }
  }
}
