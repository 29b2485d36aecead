# k8-custom-metrics: a verified model of the metric store and its provider

The system is a Kubernetes custom-metrics adapter. Clients push values through a
small HTTP write API: a POST body names one object (namespace and name) and a set of
metric values for it. The adapter keeps the latest value of every metric for every
object in an in-memory store. The Kubernetes metrics framework then reads the store
through the provider: a value for one named object, or values for every object that a
label selector lists.

This project models that core in Dafny:

- `kube.dfy`, module `Kube`: the library types the provider exchanges with the
  framework, the error kinds of the read path, and the object key
  `namespace + "/" + name`. One `ObjectKey` function serves both the write path and
  the read path.
- `metrics.dfy`, module `MetricStore`: the `Metric` class with its value table
  (`Init`, `GetValue`, `SetValue`), and `NewMetrics`.
- `api.dfy`, module `Ingest`: the decoded request body, the responses, and
  `ApplyBatch`. `ApplyBatch` is the effect of one accepted batch on the store's
  contents, written as a value, together with its algebra (effect, splitting,
  idempotence, overwrite).
- `provider.dfy`, module `Provider`:
  - the catalog built at construction;
  - the read path as functions of a snapshot (`ValueOf`, `MetricFor`, `MetricByName`);
  - the selector query, as a fold (`Collected`) and a reference definition (`Emitted`);
  - the `MetricsProvider` class. Its methods do the same work on the store's objects
    and are proved equal to those functions. The class also carries the write API's
    `UpdateMetrics` and `ServeHTTP`, since Go declares them on the same type.

The library calls the provider makes are function-valued fields or parameters:
resource-mapper normalisation, object references, listing the objects that match a
selector, and label-selector parsing. Each is a fixed function, so the properties
hold for any such function, errors included, but assume that a call repeated with the
same arguments gives the same answer (see "Left out"). The current time is a
parameter, `now`.

Two behaviours of the code deserve a note:

- The record built for a value carries the metric name as the caller gave it, not the
  normalised one. `valueFor` normalises a local copy of the info (provider.go:73), and
  `metricFor` receives the caller's info (provider.go:63, provider.go:101). The model
  follows the code.
- The object key is not escaped. The objects ("a/b", "c") and ("a", "b/c") share the
  key "a/b/c", so a value written for one is read back for the other
  (`Kube.ObjectKeyCollision`, `Provider.CollidingObjectsShareValues`). Keys are
  injective when no namespace contains a slash (`Kube.ObjectKeyInjective`) or when no
  name does (`Kube.ObjectKeyInjectiveOnNames`), and the code enforces neither.

## Model

| member | source | states |
|---|---|---|
| Kube.ObjectKey | api.go:46 | the key is the namespace, then one slash, then the name, with its length |
| Kube.ObjectKeyInjective | provider.go:83 | if neither namespace contains a slash, two objects have the same key exactly when they are the same object |
| Kube.ObjectKeyInjectiveOnNames | provider.go:83 | if neither name contains a slash, two objects have the same key exactly when they are the same object |
| Kube.ObjectKeyCollision | api.go:46 | two distinct objects, ("a/b", "c") and ("a", "b/c"), have the same key |
| MetricStore.NewMetrics | metrics.go:23-25 | a new store holds no metric name |
| MetricStore.Metric.Init | metrics.go:27-29 | after Init the table is empty, so no key is found |
| MetricStore.Metric.GetValue | metrics.go:31-36 | reports found exactly when the key is in the table, with the stored entry; the table is not changed |
| MetricStore.Metric.SetValue | metrics.go:38-47 | the key then maps to the new value stamped with the write time; every other key keeps its entry and no key is added or removed besides it |
| Ingest.ApplyBatchEffect | api.go:36-47 | after a batch, the metric names are the old ones plus the batch's; each batch metric maps the batch's object key to the batch value and time; other objects' entries in those tables survive; metrics outside the batch keep their table exactly |
| Ingest.ApplyBatchSplits | api.go:36-47 | writing a batch equals writing two disjoint parts of it one after the other, so the result does not depend on the order the loop visits the metrics |
| Ingest.ApplyBatchIdempotent | api.go:36-47 | applying the same batch twice with the same time leaves the store as applying it once |
| Ingest.SecondBatchOverwrites | metrics.go:46 | a later batch for the same object replaces the earlier value of each metric both carry, so only the later value and time are observable |
| Provider.MetricInfos | provider.go:36-43 | the catalog has exactly one descriptor per metric name of the store, none repeated, each for resource "pods" of group "" and namespaced |
| Provider.MetricsProvider.constructor | provider.go:28-46 | the new provider keeps the client and mapper; its store is empty; its catalog is the catalog of the empty store |
| Provider.MetricsProvider.ListAllMetrics | provider.go:49-52 | returns the catalog built at construction, which is empty whatever was ingested since |
| Provider.ValueOf | provider.go:72-89 | a normalisation error is returned unchanged; otherwise the value is found exactly when the normalised metric name is in the store and the object key is in its table; a miss is NotFound naming the normalised group-resource and metric and the object's name |
| Provider.MetricsProvider.ValueFor | provider.go:72-89 | the lookup on the store's objects returns exactly `ValueOf` of the current store |
| Provider.MetricFor | provider.go:92-117 | a reference error is returned unchanged; when the reference resolves and the selector is empty or parses, a record is returned; the record holds the object reference, the caller's metric name and the stored value and time; a selector is attached only when its string is non-empty, and a parse error of a non-empty selector is returned |
| Provider.MetricByName | provider.go:55-64 | a normalisation error or a missing value is returned as an error; a record is returned exactly when normalisation succeeds, the value is stored, the reference resolves and the selector is empty or parses; the record holds the object reference, the stored value and time under the caller's metric name, and the parsed selector only when its string is non-empty; when the value is stored, a reference error, or the parse error of a non-empty selector, is returned unchanged |
| Provider.MetricsProvider.GetMetricByName | provider.go:55-64 | the single-object query on the store's objects returns exactly `MetricByName` of the current store |
| Provider.StepMeaning | provider.go:127-141 | a listed object is skipped exactly when its lookup is NotFound; otherwise it contributes exactly what the single-object query returns for it, a record or the error that ends the query |
| Provider.Collected | provider.go:126-146 | a successful selector query returns at most one record per listed name |
| Provider.Emitted | provider.go:126-146 | the reference list of records has at most one record per listed name |
| Provider.EmittedAppend | provider.go:127-141 | the records of a concatenated listing are those of the first part followed by those of the second, so listing order is kept |
| Provider.CollectedErrorPersists | provider.go:129-140 | once a prefix of the listing ends the query with an error, the whole query returns that error |
| Provider.CollectedSucceeds | provider.go:126-146 | the selector query succeeds exactly when no listed object ends it, and then returns the records of the objects not skipped, in listing order |
| Provider.CollectedFails | provider.go:129-140 | a failing selector query returns the error of the first listed object that ends it |
| Provider.SelectorSkipsObjectsWithoutValue | provider.go:129-133 | with three listed objects of which the middle one has no value, the query succeeds with exactly the two other records, in listing order: each is the single-object query's record for its object, with that object's reference, value and time |
| Provider.MetricsProvider.MetricsFor | provider.go:120-147 | a listing error is returned unchanged; otherwise the loop returns exactly `Collected` of the current store over the listed names |
| Provider.MetricsProvider.GetMetricBySelector | provider.go:66-69 | the framework's selector query returns exactly what `MetricsFor` returns |
| Provider.MetricsProvider.EnsureMetric | api.go:38-43 | an existing table is reused; a new name gets a fresh empty table; no other name changes and distinct names keep distinct tables |
| Provider.MetricsProvider.WriteValue | api.go:37-46 | one pass of the ingest loop: the name's table, reused or created, gets the value under the key; every other table is untouched |
| Provider.WrittenNone | api.go:36 | before the ingest loop's first pass the store is as it was |
| Provider.IngestStep | api.go:36-47 | each pass of the ingest loop extends the part of the batch written so far by the metric it visits, whichever metric that is |
| Provider.MetricsProvider.UpdateMetrics | api.go:23-51 | a decode failure answers 400 with the decoder's text and changes nothing; an accepted body answers 200 and leaves the store equal to `ApplyBatch` of the old store; every existing metric keeps its table object and every new one gets a fresh table |
| Provider.MetricsProvider.ServeHTTP | api.go:8-21 | POST runs the ingest; GET answers 200 with the whole store; any other method answers 404; only POST changes the store, and no existing metric loses its table object |
| Provider.IngestThenRead | api.go:46 | after an ingest, reading a metric of the batch for the batch's object returns the ingested value stamped with the ingest's time |
| Provider.IngestLeavesOtherReads | api.go:36-47 | an ingest changes no read of a metric outside the batch or of another object key |
| Provider.IngestThenQuery | provider.go:55-64 | after an ingest, the single-object query with an empty metric selector returns the ingested value and time under the caller's metric name, with no selector |
| Provider.CollidingObjectsShareValues | provider.go:83 | a value written for ("a", "b/c") is what a read for ("a/b", "c") returns |

## Left out

- JSON decoding of the POST body, JSON encoding of the GET answer, and
  `Metric.MarshalJSON` are not modelled. A request's body arrives already decoded, as
  a batch or as the decoder's error text. The GET answer carries the store's contents
  as a value.
- Response headers are not modelled. This includes the GET handler setting its
  Content-Type after `WriteHeader`, which has no effect in Go.
- The read-write locks of `Metric` are not modelled, and the model is sequential. The
  code takes only a read lock around the write in `SetValue`, so concurrent writers can
  race. `updateMetrics` also adds names to the provider's outer map of metrics with no
  lock at all (api.go:38-42), while `valueFor` reads that map (provider.go:78) and GET
  encodes it (api.go:16), so an ingest can race with readers too. A sequential model
  cannot express either race.
- The current time is a parameter, `now`. One ingest uses one `now` for all its values,
  while the code reads the clock once per value.
- `resource.Quantity` is an unbounded integer. Ingested values are `int64`, as the
  decoder requires.
- The library calls `Normalized`, `helpers.ReferenceFor`, `helpers.ListObjectNames` and
  `metav1.ParseToLabelSelector` are function-valued fields or parameters. Which answer
  each gives is left open, but the metric selector is given by its string form, and
  IsNotFound is a test of the error's kind.
- Cluster listing is a function of its arguments. Two listings with the same arguments
  return the same names.
- Resource-mapper normalisation (`Normalized`), object references
  (`helpers.ReferenceFor`) and selector parsing (`metav1.ParseToLabelSelector`) are
  functions of their arguments too. The selector query calls normalisation once per
  listed name and the reference lookup once per found name (provider.go:129,
  provider.go:73, provider.go:93). The model assumes every such call answers alike. The
  mapper is a discovery-backed REST mapper, and the code does not guarantee that its
  answers stay the same between those calls.
- Go map iteration order is a nondeterministic choice from the names still to visit,
  in both the catalog loop and the ingest loop.
- The debug printing in `ListAllMetrics`, `GetMetricByName` and `GetMetricBySelector`
  is not modelled. The request context parameters are not modelled either.
- The external-metrics stubs `GetExternalMetric` and `ListAllExternalMetrics` return
  constants and are not modelled.
- main.go is not part of this model: flag parsing, logging, server set-up and the
  construction of the client and mapper.
