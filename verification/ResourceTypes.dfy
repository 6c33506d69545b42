/** The records that the resource-metering source and the accounting service exchange. */
module ResourceTypes {
  import opened Wrappers

  datatype Kind = Compute | Workspace

  /** A tenant or workspace identifier, as `uuid.Parse` sees it. */
  datatype Uuid = Malformed(text: string) | Uuid(value: nat)

  datatype Identity = Identity(kind: Kind, resourceId: string, tenantId: Uuid, workspaceId: Uuid)

  datatype Quantity = Quantity(kind: Kind, cpuMillis: int, memoryBytes: int, capacityBytes: int)

  datatype Lifecycle = Running | Retained | Paused | Absent | Unknown

  datatype Reason =
    | SourceRestarted
    | ObservationUnavailable
    | InstanceChanged
    | ClockChanged
    | CollectionUnavailable

  datatype Quality = Confirmed | Unconfirmed

  /** A receipt for the half-open interval [from, to), in milliseconds. */
  datatype Event = Event(
    id: nat,
    resource: Identity,
    sourceId: string,
    bootId: nat,
    incarnation: string,
    from: int,
    to: int,
    quality: Quality,
    reason: Option<Reason>,
    state: Lifecycle,
    quantity: Quantity)

  /** Cursors and ledger intervals are kept per resource key, not per full identity. */
  datatype Key = Key(kind: Kind, resourceId: string)

  function KeyOf(r: Identity): Key {
    Key(r.kind, r.resourceId)
  }

  predicate Active(state: Lifecycle) {
    state == Running || state == Retained
  }

  predicate Stopped(state: Lifecycle) {
    state == Paused || state == Absent
  }

  /** Only these receipts can put money on a statement. */
  predicate Chargeable(e: Event) {
    e.quality == Confirmed && e.from < e.to
  }

  predicate Overlap(a: Event, b: Event) {
    a.from < b.to && b.from < a.to
  }

  /** The checks that the service's parser makes beyond field shapes. */
  predicate WellFormed(e: Event) {
    && e.from <= e.to
    && e.resource.kind == e.quantity.kind
    && (e.quality == Unconfirmed <==> e.reason.Some?)
  }

  function Min(a: int, b: int): int {
    if a < b then a else b
  }

  function Max(a: int, b: int): int {
    if a < b then b else a
  }
}
