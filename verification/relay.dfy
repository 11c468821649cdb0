/** The hop rules of the bridge protocol (internal/node/node.go), shared by one node and the network. */
module Relay {
  import opened Wire

  const MAX_ORIGIN_TRACE_LEN := 8

  /** Bridged events come from the last hop of their trace and carry the reporter's signature. */
  predicate RelayOk(e: Event, from: string) {
    e.reporterID == from
    || (e.signature != "" && e.originTrace != [] && e.originTrace[|e.originTrace| - 1] == from)
  }

  predicate PassedThrough(e: Event, self: string) { self != "" && self in e.originTrace }

  /** Neither a feedback loop nor an over-long trace. */
  predicate HopsOk(e: Event, self: string) {
    !PassedThrough(e, self) && |e.originTrace| <= MAX_ORIGIN_TRACE_LEN
  }

  /** A bridge forwards an event that did not pass through it and has room for one more hop. */
  predicate Forwards(e: Event, self: string) {
    self != "" && self !in e.originTrace && |e.originTrace| < MAX_ORIGIN_TRACE_LEN
  }

  /** The forwarded copy differs in the trace only. */
  function Forwarded(e: Event, self: string): Event { e.(originTrace := e.originTrace + [self]) }

  /** "" and "default" both name the base topic. */
  function Canonical(subnet: string): string { if subnet == "default" then "" else subnet }
}
