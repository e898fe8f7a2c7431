/** The events KubeHealth caches (main.go), as far as ranking and merging read them. */
module Events {
  import opened Clock

  datatype Event = Event(
    namespace: string,
    name: string,
    reason: string,
    message: string,
    eventType: string,
    count: int,
    kind: string,
    objectName: string,
    objectNamespace: string,
    first: Time,
    last: Time,
    age: string)

  predicate IsWarning(e: Event) {
    e.eventType == "Warning"
  }
}
