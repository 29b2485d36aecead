/**
 The write API: what a decoded request body holds, what the handler answers, and the
 effect of one accepted batch on the store, as a value. The handler itself, which
 performs that effect on the store's objects, is `Provider.MetricsProvider.UpdateMetrics`.
 */
module Ingest {
  import opened Kube
  import opened MetricStore

  /** A decoded request body: values for one object, by metric name. */
  datatype Batch = Batch(namespace: string, name: string, metrics: map<string, int64>)

  /** The outcome of decoding a request body: a batch, or the decoder's error text. */
  datatype Decoded = Decoded(batch: Batch) | DecodeFailed(message: string)

  /** An HTTP request on the write API, its body already through the decoder. */
  datatype Request = Request(verb: string, body: Decoded)

  /** A response body: nothing, plain text, or the whole store (sent as JSON). */
  datatype Body = Empty | Text(text: string) | Dump(store: StoreView)

  datatype Response = Response(status: int, body: Body)

  const StatusOK := 200
  const StatusBadRequest := 400
  const StatusNotFound := 404

  /** The key every value of `b` is stored under. */
  function BatchKey(b: Batch): string
  {
    ObjectKey(NamespacedName(b.namespace, b.name))
  }

  /** The store after every value of `b`, stamped `now`, has been written: each metric
      of the batch gets (or keeps) its table, with the batch's object key overwritten. */
  function ApplyBatch(view: StoreView, b: Batch, now: int): StoreView
  {
    var key := BatchKey(b);
    map m | m in view.Keys + b.metrics.Keys ::
      if m in b.metrics then TableOf(view, m)[key := MetricValue(b.metrics[m] as int, now)] else view[m]
  }

  /** What an accepted batch does to the store: every metric name of the batch is
      present afterwards and maps the batch's object key to the batch's value; every
      other entry of its table survives; names outside the batch keep their table;
      no name is removed. */
  lemma ApplyBatchEffect(view: StoreView, b: Batch, now: int)
    ensures var r := ApplyBatch(view, b, now);
      && r.Keys == view.Keys + b.metrics.Keys
      && (forall m :: m in b.metrics ==>
            BatchKey(b) in r[m] && r[m][BatchKey(b)] == MetricValue(b.metrics[m] as int, now))
      && (forall m :: m in b.metrics ==> r[m].Keys == TableOf(view, m).Keys + {BatchKey(b)})
      && (forall m, key :: m in view && m in b.metrics && key in view[m] && key != BatchKey(b) ==>
            key in r[m] && r[m][key] == view[m][key])
      && (forall m :: m in view && m !in b.metrics ==> r[m] == view[m])
  {
  }

  /** The answer to a POST: 400 with the decoder's text, or 200 with no body. */
  function IngestResponse(d: Decoded): Response
  {
    match d
    case DecodeFailed(message) => Response(StatusBadRequest, Text(message))
    case Decoded(_) => Response(StatusOK, Empty)
  }

  /** Writing a batch is writing its metrics in two disjoint parts, one after the other:
      the final store does not depend on the order in which the metrics are visited. */
  lemma ApplyBatchSplits(view: StoreView, b1: Batch, b2: Batch, now: int)
    requires b1.namespace == b2.namespace && b1.name == b2.name
    requires b1.metrics.Keys !! b2.metrics.Keys
    ensures ApplyBatch(view, Batch(b1.namespace, b1.name, b1.metrics + b2.metrics), now)
         == ApplyBatch(ApplyBatch(view, b1, now), b2, now)
  {
  }

  /** Sending the same batch twice with the same stamp leaves the store as once. */
  lemma ApplyBatchIdempotent(view: StoreView, b: Batch, now: int)
    ensures ApplyBatch(ApplyBatch(view, b, now), b, now) == ApplyBatch(view, b, now)
  {
    var once := ApplyBatch(view, b, now);
    var twice := ApplyBatch(once, b, now);
    forall m | m in twice
      ensures m in once && twice[m] == once[m]
    {
      if m in b.metrics {
        assert twice[m] == once[m][BatchKey(b) := MetricValue(b.metrics[m] as int, now)];
      }
    }
  }

  /** A later batch for the same object replaces the earlier value of every metric it
      carries; the earlier value cannot be read back. */
  lemma SecondBatchOverwrites(view: StoreView, b1: Batch, b2: Batch, t1: int, t2: int, m: string)
    requires b1.namespace == b2.namespace && b1.name == b2.name
    requires m in b1.metrics && m in b2.metrics
    ensures var r := ApplyBatch(ApplyBatch(view, b1, t1), b2, t2);
      m in r && BatchKey(b1) in r[m] && r[m][BatchKey(b1)] == MetricValue(b2.metrics[m] as int, t2)
  {
  }
}
