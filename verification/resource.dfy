/** The resource-kind and event-type tags and the queued event record of
    pkg/queue/resource.go. */
module Resource {
  import opened Wrappers

  // Resource kinds the store dispatches on. Kinds are open-ended strings:
  // any other string is a legal, merely unsupported, kind.
  const All: string := "all"
  const Services: string := "services"
  const Deployments: string := "deployments"
  const Pods: string := "pods"
  const ConfigMaps: string := "configmaps"
  const Events: string := "events"
  // Used by the store's switch but not declared next to the others; the
  // model gives them their own distinct tags.
  const Statefulsets: string := "statefulsets"
  const Daemonsets: string := "daemonsets"
  const Secrets: string := "secrets"

  // Event types.
  const EventAdd: string := "add"
  const EventUpdate: string := "update"
  const EventDelete: string := "delete"

  /** A watched Kubernetes object (Go `runtime.Object`). The model never
      looks inside it; only its identity matters. */
  datatype Object = Object(uid: string)

  /** A wall-clock instant (Go `time.Time`), abstracted to a number. */
  type Time = int

  /** One observed change, as pushed into the work queue. `obj` is `None`
      for Go's nil interface. */
  datatype QueueObject = QueueObject(
    clusterName: string,
    event: string,
    resourceType: string,
    key: string,          // <namespace>/<name>
    obj: Option<Object>,
    createAt: Time
  )

  /** Go's zero value `QueueObject{}`. */
  const ZeroQueueObject: QueueObject := QueueObject("", "", "", "", None, 0)
}
