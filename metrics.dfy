/**
 The metric store: one value table per metric name, each table mapping an object key
 to the latest value written for that object and the time it was written.
 */
module MetricStore {
  import opened Kube

  /** A stored value and the time it was written. */
  datatype MetricValue = MetricValue(value: int, time: int)

  /** What the store holds, as a value: metric name to object key to value. */
  type StoreView = map<string, map<string, MetricValue>>

  /** The value table of one metric name. */
  class Metric {
    var values: map<string, MetricValue>

    /** A metric whose table is not yet allocated; `Init` allocates it. */
    constructor ()
    {
    }

    /** Allocates an empty table. */
    method Init()
      modifies this
      ensures values == map[]
      ensures forall key :: key !in values
    {
      values := map[];
    }

    /** Looks a key up without changing the table. */
    method GetValue(name: string) returns (res: Option<MetricValue>)
      ensures res.Some? <==> name in values
      ensures res.Some? ==> res.value == values[name]
    {
      if name in values {
        res := Some(values[name]);
      } else {
        res := None;
      }
    }

    /** Records `value`, written at time `now`, under `name`, replacing whatever was
        there; every other key keeps its entry. */
    method SetValue(name: string, value: int64, now: int)
      modifies this
      ensures values == old(values)[name := MetricValue(value as int, now)]
      ensures name in values && values[name] == MetricValue(value as int, now)
      ensures forall key :: key != name ==> (key in values <==> key in old(values))
      ensures forall key :: key != name && key in old(values) ==> values[key] == old(values)[key]
    {
      var mvalue := MetricValue(value as int, now);
      values := values[name := mvalue];
    }
  }

  /** A new store knows no metric name. */
  function NewMetrics(): (m: map<string, Metric>)
    ensures |m| == 0
  {
    map[]
  }

  /** The table of `metric` in `view`, empty when the name is unknown. */
  function TableOf(view: StoreView, metric: string): map<string, MetricValue>
  {
    if metric in view then view[metric] else map[]
  }
}
