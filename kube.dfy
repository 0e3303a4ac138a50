/**
 * The Kubernetes values the manifest engine handles: resource-type
 * identifiers and the generic (unstructured) object form of a document.
 */
module Kube {
  import opened Wrappers

  /** `schema.GroupVersionResource`: where API calls for one kind of object are routed. */
  datatype Gvr = Gvr(group: string, version: string, resource: string)

  /** A field value under `spec`: the only one the engine writes is the integer replica count. */
  datatype Value = Number(n: int) | Raw(json: string)

  /**
   * `unstructured.Unstructured` reduced to what the engine reads or writes:
   * the type fields, `metadata.name`, `metadata.namespace`, and `spec` when it
   * is a JSON object (`None` when it is missing or of another JSON type).
   */
  datatype Object = Object(
    apiVersion: string,
    kind: string,
    name: string,
    namespace: string,
    spec: Option<map<string, Value>>)

  /** What a decoded document is: one object, or a list whose items are applied one by one. */
  datatype Unstructured = Single(obj: Object) | List(items: seq<Object>)
}
