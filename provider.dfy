/**
 The provider the metrics-serving framework queries: the catalog of known metrics, the
 single-object read, the selector read that fans out over listed objects, and, on the
 same object, the write API that feeds the store.

 The read path is stated first as functions of a `Snapshot` (the store as it is and
 the provider's resource mapper); the methods of `MetricsProvider` do the same work on
 the store's objects and are proved equal to those functions.
 */
module Provider {
  import opened Kube
  import opened MetricStore
  import opened Ingest

  // ---------------------------------------------------------------------------
  // The catalog of known metrics

  /** The descriptor advertised for a metric name: a namespaced metric of pods. */
  function PodMetricInfo(name: string): CustomMetricInfo
  {
    CustomMetricInfo(GroupResource("", "pods"), true, name)
  }

  /** `list` holds exactly one pod descriptor for each name of `names`. */
  ghost predicate IsCatalogOf(list: seq<CustomMetricInfo>, names: set<string>)
  {
    && |list| == |names|
    && (forall i :: 0 <= i < |list| ==> list[i] == PodMetricInfo(list[i].metric) && list[i].metric in names)
    && (forall i, j :: 0 <= i < j < |list| ==> list[i].metric != list[j].metric)
    && (forall name :: name in names ==> exists i :: 0 <= i < |list| && list[i].metric == name)
  }

  /** Builds the catalog from the metric names of a store, in no particular order. */
  method MetricInfos(metrics: map<string, Metric>) returns (list: seq<CustomMetricInfo>)
    ensures IsCatalogOf(list, metrics.Keys)
  {
    list := [];
    var todo := metrics.Keys;
    while todo != {}
      invariant todo <= metrics.Keys
      invariant IsCatalogOf(list, metrics.Keys - todo)
      decreases |todo|
    {
      var name :| name in todo;
      CatalogStep(list, metrics.Keys, todo, name);
      list := list + [PodMetricInfo(name)];
      todo := todo - {name};
    }
  }

  /** One pass of the catalog loop: the name taken from those still to do is covered. */
  lemma CatalogStep(list: seq<CustomMetricInfo>, all: set<string>, todo: set<string>, name: string)
    requires todo <= all && name in todo
    requires IsCatalogOf(list, all - todo)
    ensures IsCatalogOf(list + [PodMetricInfo(name)], all - (todo - {name}))
  {
    CatalogExtend(list, all - todo, name);
    assert all - (todo - {name}) == (all - todo) + {name};
  }

  /** One more name, one more descriptor. */
  lemma CatalogExtend(list: seq<CustomMetricInfo>, names: set<string>, name: string)
    requires IsCatalogOf(list, names) && name !in names
    ensures IsCatalogOf(list + [PodMetricInfo(name)], names + {name})
  {
    var longer := list + [PodMetricInfo(name)];
    assert |names + {name}| == |names| + 1;
    forall n | n in names + {name}
      ensures exists i :: 0 <= i < |longer| && longer[i].metric == n
    {
      if n == name {
        assert longer[|list|].metric == n;
      } else {
        var i :| 0 <= i < |list| && list[i].metric == n;
        assert longer[i].metric == n;
      }
    }
  }

  // ---------------------------------------------------------------------------
  // The read path, as functions

  /** What the read path consults besides its arguments. */
  datatype Snapshot = Snapshot(store: StoreView, mapper: Mapper)

  /** The stored value for one metric of one object. The metric info is normalised
      first and a normalisation error is returned as it is; an unknown metric name
      and an object without a value are both NotFound, naming the normalised metric. */
  function ValueOf(s: Snapshot, info: CustomMetricInfo, name: NamespacedName): (r: Result<MetricValue>)
    ensures s.mapper.normalize(info).Err? ==> r == Err(s.mapper.normalize(info).error)
    ensures s.mapper.normalize(info).Ok? ==>
      var n := s.mapper.normalize(info).value;
      && (r.Ok? <==> n.metric in s.store && ObjectKey(name) in s.store[n.metric])
      && (r.Ok? ==> r.value == s.store[n.metric][ObjectKey(name)])
      && (r.Err? ==> r.error == NotFound(n.groupResource, n.metric, name.name))
  {
    match s.mapper.normalize(info)
    case Err(e) => Err(e)
    case Ok(n) =>
      if n.metric !in s.store then
        Err(NotFound(n.groupResource, n.metric, name.name))
      else
        var metric := s.store[n.metric];
        if ObjectKey(name) !in metric then
          Err(NotFound(n.groupResource, n.metric, name.name))
        else
          Ok(metric[ObjectKey(name)])
  }

  /** The record returned for a stored value: the object's reference, the metric name
      of `info` as the caller gave it, the stored time and value, and the parsed metric
      selector when its string form is not empty. */
  function MetricFor(mapper: Mapper, parse: SelectorParser, value: MetricValue, name: NamespacedName,
                     info: CustomMetricInfo, metricSelector: string): (r: Result<CustomMetricValue>)
    ensures mapper.referenceFor(name, info).Err? ==> r == Err(mapper.referenceFor(name, info).error)
    ensures mapper.referenceFor(name, info).Ok? && (metricSelector == "" || parse(metricSelector).Ok?) ==> r.Ok?
    ensures mapper.referenceFor(name, info).Ok? && metricSelector != "" && parse(metricSelector).Err? ==>
      r == Err(parse(metricSelector).error)
    ensures r.Ok? ==>
      && r.value.describedObject == mapper.referenceFor(name, info).value
      && r.value.metric.name == info.metric
      && r.value.timestamp == value.time
      && r.value.value == value.value
      && (metricSelector == "" ==> r.value.metric.selector == None)
      && (metricSelector != "" ==> r.value.metric.selector == Some(parse(metricSelector).value))
  {
    match mapper.referenceFor(name, info)
    case Err(e) => Err(e)
    case Ok(objRef) =>
      var metric := CustomMetricValue(objRef, MetricIdentifier(info.metric, None), value.time, value.value);
      if |metricSelector| > 0 then
        match parse(metricSelector)
        case Err(e) => Err(e)
        case Ok(sel) => Ok(metric.(metric := MetricIdentifier(info.metric, Some(sel))))
      else
        Ok(metric)
  }

  /** The single-object query: the stored value, formatted as a record. */
  function MetricByName(s: Snapshot, parse: SelectorParser, name: NamespacedName, info: CustomMetricInfo,
                        metricSelector: string): (r: Result<CustomMetricValue>)
    ensures s.mapper.normalize(info).Err? ==> r == Err(s.mapper.normalize(info).error)
    ensures s.mapper.normalize(info).Ok? ==>
      var n := s.mapper.normalize(info).value;
      !(n.metric in s.store && ObjectKey(name) in s.store[n.metric]) ==>
        r == Err(NotFound(n.groupResource, n.metric, name.name))
    ensures r.Ok? <==>
      && s.mapper.normalize(info).Ok?
      && s.mapper.normalize(info).value.metric in s.store
      && ObjectKey(name) in s.store[s.mapper.normalize(info).value.metric]
      && s.mapper.referenceFor(name, info).Ok?
      && (metricSelector == "" || parse(metricSelector).Ok?)
    ensures r.Ok? ==>
      var n := s.mapper.normalize(info).value;
      && s.mapper.normalize(info).Ok?
      && n.metric in s.store && ObjectKey(name) in s.store[n.metric]
      && r.value.describedObject == s.mapper.referenceFor(name, info).value
      && r.value.value == s.store[n.metric][ObjectKey(name)].value
      && r.value.timestamp == s.store[n.metric][ObjectKey(name)].time
      && r.value.metric.name == info.metric
      && (metricSelector == "" ==> r.value.metric.selector == None)
      && (metricSelector != "" ==> r.value.metric.selector == Some(parse(metricSelector).value))
    ensures var nv := s.mapper.normalize(info);
      nv.Ok? && nv.value.metric in s.store && ObjectKey(name) in s.store[nv.value.metric] ==>
        && (s.mapper.referenceFor(name, info).Err? ==> r == Err(s.mapper.referenceFor(name, info).error))
        && (s.mapper.referenceFor(name, info).Ok? && metricSelector != "" && parse(metricSelector).Err? ==>
              r == Err(parse(metricSelector).error))
  {
    match ValueOf(s, info, name)
    case Err(e) => Err(e)
    case Ok(value) => MetricFor(s.mapper, parse, value, name, info, metricSelector)
  }

  /** The arguments of a selector query that every listed object shares. */
  datatype SelectorQuery = SelectorQuery(namespace: string, info: CustomMetricInfo, metricSelector: string)

  /** What one listed object contributes to a selector query. */
  datatype Outcome = Skip | Abort(error: Error) | Emit(item: CustomMetricValue)

  /** The contribution of the object `objectName` of the query's namespace to a selector
      query, as the loop body of the query decides it. */
  function Step(s: Snapshot, parse: SelectorParser, q: SelectorQuery, objectName: string): Outcome
  {
    var name := NamespacedName(q.namespace, objectName);
    match ValueOf(s, q.info, name)
    case Err(e) => if e.NotFound? then Skip else Abort(e)
    case Ok(value) =>
      match MetricFor(s.mapper, parse, value, name, q.info, q.metricSelector)
      case Err(e) => Abort(e)
      case Ok(item) => Emit(item)
  }

  /** A listed object is skipped exactly when its value lookup says NotFound; otherwise
      it contributes what the single-object query for it returns: its record, or the
      error that ends the selector query. */
  lemma StepMeaning(s: Snapshot, parse: SelectorParser, q: SelectorQuery, objectName: string)
    ensures var name := NamespacedName(q.namespace, objectName);
      var o := Step(s, parse, q, objectName);
      var r := MetricByName(s, parse, name, q.info, q.metricSelector);
      && (o.Skip? <==> ValueOf(s, q.info, name).Err? && ValueOf(s, q.info, name).error.NotFound?)
      && (o.Emit? <==> r.Ok?)
      && (o.Emit? ==> o.item == r.value)
      && (o.Abort? ==> r == Err(o.error))
  {
  }

  /** The selector query over the listed `names`, taken in order: the records of the
      objects not skipped, or the first error that ends the query. */
  function Collected(s: Snapshot, parse: SelectorParser, q: SelectorQuery, names: seq<string>): (r: Result<seq<CustomMetricValue>>)
    ensures r.Ok? ==> |r.value| <= |names|
    decreases |names|
  {
    if names == [] then Ok([])
    else
      var prior := Collected(s, parse, q, names[..|names| - 1]);
      if prior.Err? then prior
      else
        match Step(s, parse, q, names[|names| - 1])
        case Skip => prior
        case Abort(e) => Err(e)
        case Emit(item) => Ok(prior.value + [item])
  }

  /** The records of the listed objects that are not skipped, in listing order. */
  function Emitted(s: Snapshot, parse: SelectorParser, q: SelectorQuery, names: seq<string>): (items: seq<CustomMetricValue>)
    ensures |items| <= |names|
  {
    if names == [] then []
    else
      var rest := Emitted(s, parse, q, names[1..]);
      match Step(s, parse, q, names[0])
      case Emit(item) => [item] + rest
      case _ => rest
  }

  /** Listing order is kept: the records of a concatenated listing are the records of
      its first part followed by those of its second. */
  lemma {:induction false} EmittedAppend(s: Snapshot, parse: SelectorParser, q: SelectorQuery, a: seq<string>, b: seq<string>)
    ensures Emitted(s, parse, q, a + b) == Emitted(s, parse, q, a) + Emitted(s, parse, q, b)
    decreases |a|
  {
    if a != [] {
      assert (a + b)[0] == a[0] && (a + b)[1..] == a[1..] + b;
      EmittedAppend(s, parse, q, a[1..], b);
    } else {
      assert a + b == b;
    }
  }

  /** Once a prefix of the listing has ended the query with an error, the whole query
      ends with that error. */
  lemma {:induction false} CollectedErrorPersists(s: Snapshot, parse: SelectorParser, q: SelectorQuery, names: seq<string>, k: nat)
    requires k <= |names|
    requires Collected(s, parse, q, names[..k]).Err?
    ensures Collected(s, parse, q, names) == Collected(s, parse, q, names[..k])
    decreases |names| - k
  {
    if k < |names| {
      assert names[..k + 1][..k] == names[..k];
      CollectedErrorPersists(s, parse, q, names, k + 1);
    } else {
      assert names[..k] == names;
    }
  }

  /** When the selector query succeeds, stated without reference to the loop that
      computes it: exactly when no listed object ends it, and then it returns the records
      of the objects not skipped, in listing order. */
  lemma {:induction false} CollectedSucceeds(s: Snapshot, parse: SelectorParser, q: SelectorQuery, names: seq<string>)
    ensures Collected(s, parse, q, names).Ok? <==> forall i :: 0 <= i < |names| ==> !Step(s, parse, q, names[i]).Abort?
    ensures Collected(s, parse, q, names).Ok? ==> Collected(s, parse, q, names).value == Emitted(s, parse, q, names)
    decreases |names|
  {
    if names != [] {
      var init := names[..|names| - 1];
      var last := names[|names| - 1];
      CollectedSucceeds(s, parse, q, init);
      assert names == init + [last];
      assert forall i :: 0 <= i < |init| ==> init[i] == names[i];
      var prior := Collected(s, parse, q, init);
      if prior.Ok? {
        EmittedAppend(s, parse, q, init, [last]);
        assert [last][1..] == [];
        var o := Step(s, parse, q, last);
        if o.Emit? {
          assert Emitted(s, parse, q, [last]) == [o.item];
        } else {
          assert Emitted(s, parse, q, [last]) == [];
        }
      }
    }
  }

  /** When the selector query fails: with the error of the first listed object that ends it. */
  lemma {:induction false} CollectedFails(s: Snapshot, parse: SelectorParser, q: SelectorQuery, names: seq<string>)
    ensures Collected(s, parse, q, names).Err? ==>
      exists i :: 0 <= i < |names| && Step(s, parse, q, names[i]) == Abort(Collected(s, parse, q, names).error)
        && forall j :: 0 <= j < i ==> !Step(s, parse, q, names[j]).Abort?
    decreases |names|
  {
    if names != [] {
      var init := names[..|names| - 1];
      var last := names[|names| - 1];
      var prior := Collected(s, parse, q, init);
      if prior.Err? {
        CollectedFails(s, parse, q, init);
        assert forall i :: 0 <= i < |init| ==> init[i] == names[i];
        var i :| 0 <= i < |init| && Step(s, parse, q, init[i]) == Abort(prior.error)
          && forall j :: 0 <= j < i ==> !Step(s, parse, q, init[j]).Abort?;
        assert Step(s, parse, q, names[i]) == Abort(prior.error);
      } else {
        CollectedSucceeds(s, parse, q, init);
        assert forall i :: 0 <= i < |init| ==> init[i] == names[i];
      }
    }
  }

  /** A selector query returns partial results: an object the store holds no value for
      is left out without error. With three listed objects of which the middle one has
      no value, the query returns the two records of the others, in listing order. */
  lemma SelectorSkipsObjectsWithoutValue(s: Snapshot, parse: SelectorParser, q: SelectorQuery, a: string, b: string, c: string)
    requires s.mapper.normalize(q.info).Ok?
    requires var m := s.mapper.normalize(q.info).value.metric;
      && m in s.store
      && ObjectKey(NamespacedName(q.namespace, a)) in s.store[m]
      && ObjectKey(NamespacedName(q.namespace, b)) !in s.store[m]
      && ObjectKey(NamespacedName(q.namespace, c)) in s.store[m]
    requires s.mapper.referenceFor(NamespacedName(q.namespace, a), q.info).Ok?
    requires s.mapper.referenceFor(NamespacedName(q.namespace, c), q.info).Ok?
    requires q.metricSelector == ""
    ensures var m := s.mapper.normalize(q.info).value.metric;
      var r := Collected(s, parse, q, [a, b, c]);
      && r.Ok? && |r.value| == 2
      && r.value[0].value == s.store[m][ObjectKey(NamespacedName(q.namespace, a))].value
      && r.value[1].value == s.store[m][ObjectKey(NamespacedName(q.namespace, c))].value
      && r.value[0].describedObject == s.mapper.referenceFor(NamespacedName(q.namespace, a), q.info).value
      && r.value[1].describedObject == s.mapper.referenceFor(NamespacedName(q.namespace, c), q.info).value
      && r.value == [MetricByName(s, parse, NamespacedName(q.namespace, a), q.info, "").value,
                     MetricByName(s, parse, NamespacedName(q.namespace, c), q.info, "").value]
  {
    var sa := Step(s, parse, q, a);
    var sb := Step(s, parse, q, b);
    var sc := Step(s, parse, q, c);
    assert sa.Emit? && sb.Skip? && sc.Emit?;
    assert [a, b, c][..2] == [a, b];
    assert [a, b][..1] == [a];
    assert [a][..0] == [];
    assert Collected(s, parse, q, []) == Ok([]);
    assert [a][0] == a && [a, b][1] == b && [a, b, c][2] == c;
    assert Collected(s, parse, q, [a]) == Ok([] + [sa.item]);
    assert [] + [sa.item] == [sa.item];
    var ab := [a, b];
    assert ab[..|ab| - 1] == [a] && ab[|ab| - 1] == b;
    assert Collected(s, parse, q, ab) == Ok([sa.item]);
    var abc := [a, b, c];
    assert abc[..|abc| - 1] == ab && abc[|abc| - 1] == c;
    assert Collected(s, parse, q, abc) == Ok([sa.item] + [sc.item]);
    assert [sa.item] + [sc.item] == [sa.item, sc.item];
  }

  // ---------------------------------------------------------------------------
  // Writes seen through reads

  /** A value written by an ingest is what a later read of that metric and object
      returns, stamped with the ingest's time. */
  lemma IngestThenRead(store: StoreView, mapper: Mapper, b: Batch, now: int, info: CustomMetricInfo)
    requires mapper.normalize(info).Ok? && mapper.normalize(info).value.metric in b.metrics
    ensures ValueOf(Snapshot(ApplyBatch(store, b, now), mapper), info, NamespacedName(b.namespace, b.name))
         == Ok(MetricValue(b.metrics[mapper.normalize(info).value.metric] as int, now))
  {
  }

  /** An ingest changes no read but those of its own metrics for its own object key. */
  lemma IngestLeavesOtherReads(store: StoreView, mapper: Mapper, b: Batch, now: int, info: CustomMetricInfo, name: NamespacedName)
    requires mapper.normalize(info).Ok?
    requires mapper.normalize(info).value.metric !in b.metrics || ObjectKey(name) != BatchKey(b)
    ensures ValueOf(Snapshot(ApplyBatch(store, b, now), mapper), info, name) == ValueOf(Snapshot(store, mapper), info, name)
  {
  }

  /** The single-object query after an ingest, with an empty metric selector, returns the
      ingested value and time under the caller's metric name and attaches no selector. */
  lemma IngestThenQuery(store: StoreView, mapper: Mapper, parse: SelectorParser, b: Batch, now: int, info: CustomMetricInfo)
    requires mapper.normalize(info).Ok? && mapper.normalize(info).value.metric in b.metrics
    requires mapper.referenceFor(NamespacedName(b.namespace, b.name), info).Ok?
    ensures var r := MetricByName(Snapshot(ApplyBatch(store, b, now), mapper), parse, NamespacedName(b.namespace, b.name), info, "");
      r == Ok(CustomMetricValue(
             mapper.referenceFor(NamespacedName(b.namespace, b.name), info).value,
             MetricIdentifier(info.metric, None),
             now,
             b.metrics[mapper.normalize(info).value.metric] as int))
  {
  }

  /** Because keys are not escaped, a value written for one object is read back for
      another whose namespace and name split the same key differently. */
  lemma CollidingObjectsShareValues(store: StoreView, mapper: Mapper, info: CustomMetricInfo, v: int64, now: int)
    requires mapper.normalize(info).Ok?
    ensures var b := Batch("a", "b/c", map[mapper.normalize(info).value.metric := v]);
      ValueOf(Snapshot(ApplyBatch(store, b, now), mapper), info, NamespacedName("a/b", "c")) == Ok(MetricValue(v as int, now))
  {
    ObjectKeyCollision();
  }

  // ---------------------------------------------------------------------------
  // The provider object

  class MetricsProvider {
    const client: Client
    const mapper: Mapper
    var metrics: map<string, Metric>
    const metricsList: seq<CustomMetricInfo>

    /** Distinct metric names own distinct tables, and the catalog, built from the
        store when it was still empty, is empty. */
    ghost predicate Valid()
      reads this
    {
      && (forall a, b :: a in metrics && b in metrics && a != b ==> metrics[a] != metrics[b])
      && metricsList == []
    }

    /** The store's contents as a value. */
    function View(): StoreView
      reads this, metrics.Values
    {
      map name | name in metrics :: metrics[name].values
    }

    /** The store and the mapper, as the read path consults them. */
    function Current(): Snapshot
      reads this, metrics.Values
    {
      Snapshot(View(), mapper)
    }

    /** A provider over a new, empty store; its catalog is built from that store. */
    constructor (client: Client, mapper: Mapper)
      ensures Valid()
      ensures this.client == client && this.mapper == mapper
      ensures metrics == map[] && View() == map[]
      ensures IsCatalogOf(metricsList, {})
    {
      this.client := client;
      this.mapper := mapper;
      var store := NewMetrics();
      var list := MetricInfos(store);
      metrics := store;
      metricsList := list;
    }

    /** The catalog built at construction. It is empty, and no later ingest changes it. */
    function ListAllMetrics(): (r: seq<CustomMetricInfo>)
      reads this
      requires Valid()
      ensures r == []
    {
      metricsList
    }

    /** The single-object value lookup, on the store's objects. */
    method ValueFor(info: CustomMetricInfo, name: NamespacedName) returns (r: Result<MetricValue>)
      ensures r == ValueOf(Current(), info, name)
    {
      var normalized := mapper.normalize(info);
      if normalized.Err? {
        return Err(normalized.error);
      }
      var n := normalized.value;
      if n.metric !in metrics {
        return Err(NotFound(n.groupResource, n.metric, name.name));
      }
      var metric := metrics[n.metric];
      var value := metric.GetValue(ObjectKey(name));
      if value.None? {
        return Err(NotFound(n.groupResource, n.metric, name.name));
      }
      r := Ok(value.value);
    }

    /** The single-object query. */
    method GetMetricByName(name: NamespacedName, info: CustomMetricInfo, metricSelector: string, parse: SelectorParser)
      returns (r: Result<CustomMetricValue>)
      ensures r == MetricByName(Current(), parse, name, info, metricSelector)
    {
      var value := ValueFor(info, name);
      if value.Err? {
        return Err(value.error);
      }
      r := MetricFor(mapper, parse, value.value, name, info, metricSelector);
    }

    /** The selector query: list the matching objects, then collect their records in
        listing order, skipping objects without a value. A listing error is returned as
        it is. */
    method MetricsFor(namespace: string, selector: string, info: CustomMetricInfo, metricSelector: string,
                      parse: SelectorParser) returns (r: Result<seq<CustomMetricValue>>)
      ensures var listed := client.listObjectNames(mapper, namespace, selector, info);
        && (listed.Err? ==> r == Err(listed.error))
        && (listed.Ok? ==> r == Collected(Current(), parse, SelectorQuery(namespace, info, metricSelector), listed.value))
    {
      var listed := client.listObjectNames(mapper, namespace, selector, info);
      if listed.Err? {
        return Err(listed.error);
      }
      var names := listed.value;
      ghost var q := SelectorQuery(namespace, info, metricSelector);
      var res: seq<CustomMetricValue> := [];
      for i := 0 to |names|
        invariant Collected(Current(), parse, q, names[..i]) == Ok(res)
      {
        assert names[..i + 1][..i] == names[..i];
        var namespacedName := NamespacedName(namespace, names[i]);
        var value := ValueFor(info, namespacedName);
        if value.Err? {
          if value.error.NotFound? {
            continue;
          }
          CollectedErrorPersists(Current(), parse, q, names, i + 1);
          return Err(value.error);
        }
        var metric := MetricFor(mapper, parse, value.value, namespacedName, info, metricSelector);
        if metric.Err? {
          CollectedErrorPersists(Current(), parse, q, names, i + 1);
          return Err(metric.error);
        }
        res := res + [metric.value];
      }
      assert names[..|names|] == names;
      r := Ok(res);
    }

    /** The framework's selector query; it is `MetricsFor`. */
    method GetMetricBySelector(namespace: string, selector: string, info: CustomMetricInfo, metricSelector: string,
                               parse: SelectorParser) returns (r: Result<seq<CustomMetricValue>>)
      ensures var listed := client.listObjectNames(mapper, namespace, selector, info);
        && (listed.Err? ==> r == Err(listed.error))
        && (listed.Ok? ==> r == Collected(Current(), parse, SelectorQuery(namespace, info, metricSelector), listed.value))
    {
      r := MetricsFor(namespace, selector, info, metricSelector, parse);
    }

    /** The table of `metricName`, created empty and added to the store when the name is
        new; an existing table is returned as it is. */
    method EnsureMetric(metricName: string) returns (metric: Metric)
      requires Valid()
      modifies this
      ensures Valid()
      ensures metrics == old(metrics)[metricName := metric]
      ensures metricName in old(metrics) ==> metric == old(metrics[metricName])
      ensures metricName !in old(metrics) ==> fresh(metric)
      ensures View() == old(View())[metricName := TableOf(old(View()), metricName)]
    {
      if metricName in metrics {
        metric := metrics[metricName];
        assert metrics == metrics[metricName := metric];
        return;
      }
      metric := new Metric();
      metric.Init();
      metrics := metrics[metricName := metric];
      forall m | m in View()
        ensures m in old(View())[metricName := TableOf(old(View()), metricName)]
        ensures View()[m] == old(View())[metricName := TableOf(old(View()), metricName)][m]
      {
      }
    }

    /** One pass of the ingest loop: the table of `metricName`, created when the name is
        new, gets `value`, stamped `now`, under `key`; every other table is untouched. */
    method WriteValue(metricName: string, key: string, value: int64, now: int)
      requires Valid()
      modifies this, metrics.Values
      ensures Valid()
      ensures metricName in metrics && metrics == old(metrics)[metricName := metrics[metricName]]
      ensures metricName in old(metrics) ==> metrics[metricName] == old(metrics[metricName])
      ensures metricName !in old(metrics) ==> fresh(metrics[metricName])
      ensures View() == old(View())[metricName := TableOf(old(View()), metricName)[key := MetricValue(value as int, now)]]
    {
      var metric := EnsureMetric(metricName);
      ghost var mid := View();
      metric.SetValue(key, value, now);
      SetValueEffect(mid, View(), metricName, key, MetricValue(value as int, now));
    }

    /** The write API's POST handler, after decoding: every value of the batch is written,
        stamped `now`, under the batch's object key, in the table of its metric name,
        which is created when the name is new. A failed decode writes nothing. */
    method UpdateMetrics(body: Decoded, now: int) returns (resp: Response)
      requires Valid()
      modifies this, metrics.Values
      ensures Valid()
      ensures resp == IngestResponse(body)
      ensures body.DecodeFailed? ==> metrics == old(metrics) && View() == old(View())
      ensures body.Decoded? ==> View() == ApplyBatch(old(View()), body.batch, now)
      ensures forall name :: name in old(metrics) ==> name in metrics && metrics[name] == old(metrics[name])
      ensures forall name :: name in metrics && name !in old(metrics) ==> fresh(metrics[name])
    {
      if body.DecodeFailed? {
        return IngestResponse(body);
      }
      var data := body.batch;
      var key := ObjectKey(NamespacedName(data.namespace, data.name));
      ghost var before := View();
      var todo := data.metrics.Keys;
      WrittenNone(before, data, now);
      while todo != {}
        invariant todo <= data.metrics.Keys
        invariant Valid()
        invariant forall name :: name in old(metrics) ==> name in metrics && metrics[name] == old(metrics[name])
        invariant forall name :: name in metrics && name !in old(metrics) ==> fresh(metrics[name])
        invariant View() == ApplyBatch(before, Written(data, todo), now)
        decreases |todo|
      {
        var metricName :| metricName in todo;
        var value := data.metrics[metricName];
        ghost var prev := View();
        WriteValue(metricName, key, value, now);
        IngestStep(before, prev, View(), data, todo, metricName, now);
        todo := todo - {metricName};
      }
      WrittenAll(data);
      resp := IngestResponse(body);
    }

    /** The write API's dispatch: POST ingests, GET returns the whole store, any other
        method is answered 404; only POST changes the store. */
    method ServeHTTP(req: Request, now: int) returns (resp: Response)
      requires Valid()
      modifies this, metrics.Values
      ensures Valid()
      ensures req.verb == "POST" ==>
        && resp == IngestResponse(req.body)
        && View() == (if req.body.Decoded? then ApplyBatch(old(View()), req.body.batch, now) else old(View()))
      ensures req.verb == "GET" ==> resp == Response(StatusOK, Dump(old(View())))
      ensures req.verb != "POST" && req.verb != "GET" ==> resp == Response(StatusNotFound, Empty)
      ensures req.verb != "POST" ==> metrics == old(metrics) && View() == old(View())
      ensures forall name :: name in old(metrics) ==> name in metrics && metrics[name] == old(metrics[name])
    {
      match req.verb {
        case "POST" =>
          resp := UpdateMetrics(req.body, now);
          return;
        case "GET" =>
          resp := Response(StatusOK, Dump(View()));
          return;
        case _ =>
      }
      resp := Response(StatusNotFound, Empty);
    }
  }

  /** `SetValue` on the table of `metricName` changes the store in that table only. */
  lemma SetValueEffect(mid: StoreView, next: StoreView, metricName: string, key: string, v: MetricValue)
    requires metricName in mid && next.Keys == mid.Keys
    requires next[metricName] == mid[metricName][key := v]
    requires forall m :: m in mid && m != metricName ==> next[m] == mid[m]
    ensures next == mid[metricName := mid[metricName][key := v]]
  {
  }

  /** The part of `b` the ingest loop has written while the names `todo` remain. */
  function Written(b: Batch, todo: set<string>): (w: Batch)
    ensures w.namespace == b.namespace && w.name == b.name
    ensures w.metrics.Keys == b.metrics.Keys - todo
  {
    Batch(b.namespace, b.name, map m | m in b.metrics && m !in todo :: b.metrics[m])
  }

  /** Before the first pass, nothing of the batch is written. */
  lemma WrittenNone(view: StoreView, b: Batch, now: int)
    ensures ApplyBatch(view, Written(b, b.metrics.Keys), now) == view
  {
  }

  /** With nothing left to visit, the whole batch is written. */
  lemma WrittenAll(b: Batch)
    ensures Written(b, {}) == b
  {
  }

  /** One pass of the ingest loop, visiting `metricName`, extends the part of the batch
      written so far by that metric. */
  lemma IngestStep(before: StoreView, prev: StoreView, next: StoreView, b: Batch, todo: set<string>, metricName: string, now: int)
    requires metricName in todo && metricName in b.metrics
    requires prev == ApplyBatch(before, Written(b, todo), now)
    requires next == prev[metricName := TableOf(prev, metricName)[BatchKey(b) := MetricValue(b.metrics[metricName] as int, now)]]
    ensures next == ApplyBatch(before, Written(b, todo - {metricName}), now)
  {
  }
}
