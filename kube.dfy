/**
 The Kubernetes library types that the metric store and its provider exchange with
 the metrics-serving framework, and the library calls the provider delegates to.

 The library calls (resource-mapper normalisation, object references, object listing,
 label-selector parsing) are not modelled: each one is a function-valued field or
 parameter. Every lemma about the provider holds for any such function, errors
 included, and so assumes that a call repeated with the same arguments gives the same
 answer.
 */
module Kube {

  /** A signed 64-bit integer, the type of an ingested metric value. */
  newtype int64 = x: int | -0x8000_0000_0000_0000 <= x < 0x8000_0000_0000_0000

  datatype Option<+T> = None | Some(value: T)

  /** The errors of the read path. `NotFound` is what the framework's
      "metric not found for object" constructor builds; the other kinds come
      back from the library calls and are passed on unchanged. */
  datatype Error =
    | NotFound(groupResource: GroupResource, metric: string, name: string)
    | Resolution(message: string)
    | Collaborator(message: string)
    | SelectorParse(message: string)

  datatype Result<+T> = Ok(value: T) | Err(error: Error)

  /** An object's identity: a name inside a namespace. */
  datatype NamespacedName = NamespacedName(namespace: string, name: string)

  /** The key under which an object's values are stored: the namespace, a slash and the
      name, which is also how the library renders a namespaced name as a string. */
  function ObjectKey(n: NamespacedName): (k: string)
    ensures |k| == |n.namespace| + 1 + |n.name|
    ensures k[..|n.namespace|] == n.namespace && k[|n.namespace|] == '/'
    ensures k[|n.namespace| + 1..] == n.name
  {
    n.namespace + "/" + n.name
  }

  /** Keys are unambiguous as long as no namespace contains the separator. */
  lemma ObjectKeyInjective(a: NamespacedName, b: NamespacedName)
    requires '/' !in a.namespace && '/' !in b.namespace
    ensures ObjectKey(a) == ObjectKey(b) <==> a == b
  {
  }

  /** Keys are equally unambiguous as long as no name contains the separator. */
  lemma ObjectKeyInjectiveOnNames(a: NamespacedName, b: NamespacedName)
    requires '/' !in a.name && '/' !in b.name
    ensures ObjectKey(a) == ObjectKey(b) <==> a == b
  {
  }

  /** Nothing keeps a namespace from containing the separator, and then two distinct
      objects share one key. */
  lemma ObjectKeyCollision()
    ensures NamespacedName("a/b", "c") != NamespacedName("a", "b/c")
    ensures ObjectKey(NamespacedName("a/b", "c")) == ObjectKey(NamespacedName("a", "b/c"))
  {
  }

  datatype GroupResource = GroupResource(group: string, resource: string)

  /** What the framework asks about: a metric name attached to a kind of resource. */
  datatype CustomMetricInfo = CustomMetricInfo(groupResource: GroupResource, namespaced: bool, metric: string)

  /** The framework's description of the object a value belongs to. */
  datatype ObjectReference = ObjectReference(kind: string, namespace: string, name: string, apiVersion: string)

  datatype LabelSelectorRequirement = LabelSelectorRequirement(key: string, operator: string, values: seq<string>)

  /** A parsed label selector, as attached to a returned metric value. */
  datatype LabelSelector = LabelSelector(matchLabels: map<string, string>, matchExpressions: seq<LabelSelectorRequirement>)

  /** The metric part of a returned value: its name and, optionally, the selector it was asked with. */
  datatype MetricIdentifier = MetricIdentifier(name: string, selector: Option<LabelSelector>)

  /** One value as the framework returns it. */
  datatype CustomMetricValue = CustomMetricValue(
    describedObject: ObjectReference,
    metric: MetricIdentifier,
    timestamp: int,
    value: int)

  /** The resource mapper, through the two library calls made with it:
      `normalize` resolves group and resource of a metric info,
      `referenceFor` describes an object for a metric info. */
  datatype Mapper = Mapper(
    normalize: CustomMetricInfo -> Result<CustomMetricInfo>,
    referenceFor: (NamespacedName, CustomMetricInfo) -> Result<ObjectReference>)

  /** The cluster client, through the one library call made with it: the names of the
      objects in a namespace that match a label selector (given by its string form). */
  datatype Client = Client(
    listObjectNames: (Mapper, string, string, CustomMetricInfo) -> Result<seq<string>>)

  /** Parsing a label selector from its string form. */
  type SelectorParser = string -> Result<LabelSelector>
}
