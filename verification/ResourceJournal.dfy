/**
 The source side of resource metering: one durable cursor per resource, an
 in-memory observation per resource that dies with the process, and a bounded
 durable outbox of receipts. The functions say what each operation does to a
 `State`; class `Journal` performs the operations in place.
 */
module ResourceJournal {
  import opened Wrappers
  import opened ResourceTypes

  const MAX_PENDING := 65536
  const MAXIMUM_OBSERVED_INTERVAL := 90_000
  const MAXIMUM_DRIFT := 1000
  const BATCH_LIMIT := 128

  datatype Cursor = Cursor(
    resource: Identity,
    quantity: Quantity,
    incarnation: string,
    state: Lifecycle,
    at: int,
    bootId: nat)

  /** What this process last saw of a resource; `clock` is monotonic, in nanoseconds. */
  datatype Observation = Observation(clock: int, at: int, failed: bool, failedAt: int)

  datatype Row = Row(key: nat, event: Event)

  /** The durable buckets. `pending` is in key order, as the bucket iterates it. */
  datatype Store = Store(
    cursors: map<Key, Cursor>,
    pending: seq<Row>,
    sequence: nat,
    counter: Option<nat>)

  const EMPTY_STORE := Store(map[], [], 0, None)

  datatype State = State(
    store: Store,
    sourceId: string,
    bootId: nat,
    observations: map<Key, Observation>)

  /** Zero stands for Go's zero time in `clock` and for "no evidence" in the last three times. */
  datatype Sample = Sample(
    resource: Identity,
    quantity: Quantity,
    incarnation: string,
    state: Lifecycle,
    at: int,
    clock: int,
    startedAt: int,
    endedAt: int,
    uncertain: Option<Reason>,
    coverageStartedAt: int)

  datatype Error =
    | MissingConfiguration
    | InvalidObservation
    | OwnerChanged
    | StaleObservation
    | CounterMissing
    | CounterInvalid
    | CounterUnderflow
    | Full
    | StorageFailed
    | UpdateFailed
    | AcknowledgementChanged
    | NotAcknowledged
    | NotSynchronous

  /** What the environment decides: whether the caller's update runs and the commit lands. */
  datatype Io = Io(updateSucceeds: bool, commits: bool)

  /** The receipt about to be written. */
  datatype Plan = Plan(from: int, to: int, quality: Quality, reason: Option<Reason>, emit: bool)

  datatype Committed = Committed(store: Store, captured: bool, emitted: Option<Event>)

  // ----- The interval automaton -----

  predicate Acceptable(s: Sample) {
    && s.resource.resourceId != ""
    && s.incarnation != ""
    && s.at > 0
    && s.clock != 0
    && s.resource.kind == s.quantity.kind
    && s.coverageStartedAt >= 0
    && s.resource.tenantId.Uuid?
    && s.resource.workspaceId.Uuid?
  }

  /** `Duration.Milliseconds` truncates toward zero. */
  function Milliseconds(nanoseconds: int): int {
    if nanoseconds >= 0 then nanoseconds / 1_000_000 else -((-nanoseconds) / 1_000_000)
  }

  predicate Drifted(s: Sample, o: Observation) {
    var wall := s.at - o.at;
    var elapsed := Milliseconds(s.clock - o.clock);
    wall - elapsed > MAXIMUM_DRIFT || elapsed - wall > MAXIMUM_DRIFT
  }

  /** The evidence that the in-memory observation adds to a sample. */
  function Annotated(s: Sample, o: Option<Observation>): Sample {
    if o.None? then s else
    s.(
      uncertain :=
        if Drifted(s, o.value) then Some(ClockChanged)
        else if o.value.failed && s.uncertain.None? then Some(CollectionUnavailable)
        else s.uncertain,
      coverageStartedAt :=
        if o.value.failed && s.coverageStartedAt == 0 then o.value.failedAt
        else s.coverageStartedAt)
  }

  /** An unknown resource keeps the quantity it had. */
  function Requantified(s: Sample, prior: Option<Cursor>): Sample {
    if prior.Some? && s.state == Unknown then s.(quantity := prior.value.quantity) else s
  }

  function Gap(from: int, to: int, reason: Reason): Plan {
    Plan(from, to, Unconfirmed, Some(reason), to > from)
  }

  function FirstPlan(s: Sample): Plan {
    if s.coverageStartedAt > 0 then
      var from := Min(s.coverageStartedAt, s.at);
      var to := if Stopped(s.state) && s.endedAt > 0 then Max(from, Min(s.endedAt, s.at)) else s.at;
      var reason := if s.uncertain.Some? then s.uncertain.value else CollectionUnavailable;
      Plan(from, to, Unconfirmed, Some(reason), true)
    else
      Plan(s.at, s.at, Confirmed, None, true)
  }

  /** A native resume of a paused resource, verified by its reported start. */
  predicate VerifiedResume(prior: Cursor, s: Sample) {
    prior.state == Paused && Active(s.state) && prior.at <= s.startedAt <= s.at
  }

  function NextPlan(prior: Cursor, s: Sample, bootId: nat): Plan {
    var from := prior.at;
    var to := Max(s.at, prior.at);
    if s.at < prior.at then Gap(from, to, ClockChanged).(emit := true)
    else if s.uncertain.Some? then Gap(from, to, s.uncertain.value).(emit := true)
    else if prior.bootId != bootId then Gap(from, to, SourceRestarted)
    else if s.incarnation != prior.incarnation then
      if VerifiedResume(prior, s) then
        if to - s.startedAt > MAXIMUM_OBSERVED_INTERVAL
        then Gap(s.startedAt, to, ObservationUnavailable)
        else Plan(s.startedAt, to, Confirmed, None, to > s.startedAt)
      else Gap(from, to, InstanceChanged)
    else if s.quantity != prior.quantity then Gap(from, to, ObservationUnavailable)
    else if Active(prior.state) && Active(s.state) && to - from <= MAXIMUM_OBSERVED_INTERVAL then
      Plan(from, to, Confirmed, None, to > from)
    else if Active(prior.state) && Stopped(s.state) && from <= s.endedAt <= to then
      Plan(from, s.endedAt, Confirmed, None, s.endedAt > from)
    else if prior.state == s.state && !Active(s.state) && s.state != Unknown then
      Plan(from, to, Confirmed, None, false)
    else Gap(from, to, ObservationUnavailable)
  }

  /** A stopped resource is never covered past its native end, and a stop is always reported. */
  function Finished(p: Plan, prior: Option<Cursor>, s: Sample): Plan {
    p.(
      to := if Stopped(s.state) && p.from <= s.endedAt <= p.to then s.endedAt else p.to,
      emit := p.emit || (prior.Some? && prior.value.state != s.state && Stopped(s.state)))
  }

  function PlanFor(prior: Option<Cursor>, s: Sample, bootId: nat): Plan {
    Finished(if prior.None? then FirstPlan(s) else NextPlan(prior.value, s, bootId), prior, s)
  }

  function CursorAfter(prior: Option<Cursor>, s: Sample, bootId: nat): Cursor {
    Cursor(s.resource, s.quantity, s.incarnation, s.state,
           if prior.None? then s.at else Max(s.at, prior.value.at), bootId)
  }

  function EventFor(p: Plan, s: Sample, sourceId: string, bootId: nat, eventId: nat): Event {
    Event(eventId, s.resource, sourceId, bootId, s.incarnation, p.from, p.to, p.quality, p.reason,
          s.state, s.quantity)
  }

  function Lookup<K, V>(m: map<K, V>, k: K): Option<V> {
    if k in m then Some(m[k]) else None
  }

  /** The transaction body, before the caller's own update. `s` is already annotated. */
  function Transact(store: Store, s: Sample, sourceId: string, bootId: nat, eventId: nat): Result<Committed, Error> {
    var key := KeyOf(s.resource);
    var prior := Lookup(store.cursors, key);
    if prior.Some? && prior.value.resource != s.resource then Failure(OwnerChanged)
    else if prior.Some? && prior.value.state == Absent && s.state != Absent then Failure(StaleObservation)
    else if prior.None? && !Active(s.state) && s.coverageStartedAt == 0 then
      Success(Committed(store, false, None))
    else
      var s' := Requantified(s, prior);
      var p := PlanFor(prior, s', bootId);
      var moved := store.(cursors := store.cursors[key := CursorAfter(prior, s', bootId)]);
      if !p.emit then Success(Committed(moved, true, None))
      else if store.counter.None? then Failure(CounterInvalid)
      else if store.counter.value >= MAX_PENDING then Failure(Full)
      else
        var e := EventFor(p, s', sourceId, bootId, eventId);
        var n := store.sequence + 1;
        Success(Committed(
          moved.(pending := store.pending + [Row(n, e)], sequence := n,
                 counter := Some(store.counter.value + 1)),
          true, Some(e)))
  }

  /** The whole transaction: it commits, or it reports why and changes nothing. */
  function Outcome(j: State, s: Sample, eventId: nat, io: Io): Result<Committed, Error> {
    if !Acceptable(s) then Failure(InvalidObservation)
    else
      var s' := Annotated(s, Lookup(j.observations, KeyOf(s.resource)));
      var t := Transact(j.store, s', j.sourceId, j.bootId, eventId);
      if t.Failure? then t
      else if !io.updateSucceeds then Failure(UpdateFailed)
      else if !io.commits then Failure(StorageFailed)
      else t
  }

  function Missed(known: Option<Observation>, s: Sample): Observation {
    if known.None? then Observation(s.clock, s.at, true, s.at)
    else if known.value.failed then known.value
    else known.value.(failed := true, failedAt := s.at)
  }

  /** The state after `CaptureAndUpdate`. */
  function Captured(j: State, s: Sample, eventId: nat, io: Io): State {
    var key := KeyOf(s.resource);
    var out := Outcome(j, s, eventId, io);
    if out == Failure(InvalidObservation) then j
    else if out.Failure? then
      j.(observations := j.observations[key := Missed(Lookup(j.observations, key), s)])
    else
      j.(store := out.value.store,
         observations :=
           if !out.value.captured || s.state == Absent then j.observations - {key}
           else j.observations[key := Observation(s.clock, s.at, false, 0)])
  }

  // ----- The outbox -----

  function Keys(rows: seq<Row>): set<nat> {
    set r | r in rows :: r.key
  }

  function Without(pending: seq<Row>, keys: set<nat>): (r: seq<Row>)
    ensures |r| <= |pending|
    ensures forall x :: x in r <==> x in pending && x.key !in keys
  {
    if pending == [] then []
    else if pending[0].key in keys then Without(pending[1..], keys)
    else [pending[0]] + Without(pending[1..], keys)
  }

  /** The first row given for each key is what the outbox still holds under it, if anything. */
  ghost predicate Matches(pending: seq<Row>, rows: seq<Row>) {
    forall i | 0 <= i < |rows| && rows[i].key !in Keys(rows[..i]) ::
      forall x | x in pending && x.key == rows[i].key :: x == rows[i]
  }

  function Open(cursors: map<Key, Cursor>): map<Key, Cursor> {
    map k | k in cursors && cursors[k].state != Absent :: cursors[k]
  }

  /** The state after a successful `Acknowledge`. */
  function Acknowledged(j: State, rows: seq<Row>): State {
    var pending := Without(j.store.pending, Keys(rows));
    j.(store := j.store.(
         pending := pending,
         counter := Some(|pending|),
         cursors := if pending == [] then Open(j.store.cursors) else j.store.cursors))
  }

  // ----- What every state of a journal satisfies -----

  ghost predicate Ordered(pending: seq<Row>, sequence: nat) {
    && (forall i, j | 0 <= i < j < |pending| :: pending[i].key < pending[j].key)
    && (forall i | 0 <= i < |pending| :: 0 < pending[i].key <= sequence)
  }

  ghost predicate Sound(store: Store) {
    && Ordered(store.pending, store.sequence)
    && store.counter == Some(|store.pending|)
    && |store.pending| <= MAX_PENDING
    && (forall k | k in store.cursors ::
          KeyOf(store.cursors[k].resource) == k && store.cursors[k].quantity.kind == k.kind)
    // A terminal cursor waits for the outbox to drain.
    && (forall k | k in store.cursors && store.cursors[k].state == Absent :: store.pending != [])
  }

  ghost predicate Invariant(j: State) {
    && Sound(j.store)
    // A live cursor of this boot always has the observation it was taken from.
    && (forall k | k in j.store.cursors ::
          j.store.cursors[k].bootId == j.bootId && j.store.cursors[k].state != Absent ==> k in j.observations)
  }

  lemma OrderCons(head: Row, tail: seq<Row>, sequence: nat)
    requires Ordered(tail, sequence) && 0 < head.key <= sequence
    requires forall r | r in tail :: head.key < r.key
    ensures Ordered([head] + tail, sequence)
  {
    var all := [head] + tail;
    forall i, j | 0 <= i < j < |all| ensures all[i].key < all[j].key {
      assert all[j] == tail[j - 1];
      if i > 0 {
        assert all[i] == tail[i - 1];
      }
    }
  }

  lemma OrderTail(pending: seq<Row>, sequence: nat)
    requires Ordered(pending, sequence) && pending != []
    ensures Ordered(pending[1..], sequence)
    ensures forall r | r in pending[1..] :: pending[0].key < r.key
  {
  }

  lemma {:induction false} WithoutKeepsOrder(pending: seq<Row>, sequence: nat, keys: set<nat>)
    requires Ordered(pending, sequence)
    ensures Ordered(Without(pending, keys), sequence)
  {
    if pending != [] {
      OrderTail(pending, sequence);
      WithoutKeepsOrder(pending[1..], sequence, keys);
      if pending[0].key !in keys {
        OrderCons(pending[0], Without(pending[1..], keys), sequence);
      }
    }
  }

  lemma OrderAppend(pending: seq<Row>, sequence: nat, event: Event)
    requires Ordered(pending, sequence)
    ensures Ordered(pending + [Row(sequence + 1, event)], sequence + 1)
  {
    var all := pending + [Row(sequence + 1, event)];
    forall i, j | 0 <= i < j < |all| ensures all[i].key < all[j].key {
      assert all[i] == pending[i];
      if j < |pending| {
        assert all[j] == pending[j];
      }
    }
  }

  lemma WithoutNothing(pending: seq<Row>)
    ensures Without(pending, {}) == pending
  {
  }

  lemma {:induction false} WithoutTwice(pending: seq<Row>, a: set<nat>, b: set<nat>)
    ensures Without(Without(pending, a), b) == Without(pending, a + b)
  {
    if pending != [] {
      WithoutTwice(pending[1..], a, b);
    }
  }

  /** Dropping one key that is present drops exactly one row. */
  lemma {:induction false} WithoutOne(pending: seq<Row>, sequence: nat, row: Row)
    requires Ordered(pending, sequence) && row in pending
    ensures |Without(pending, {row.key})| == |pending| - 1
  {
    OrderTail(pending, sequence);
    if pending[0] == row {
      WithoutAbsent(pending[1..], {row.key});
    } else {
      assert row in pending[1..];
      WithoutOne(pending[1..], sequence, row);
    }
  }

  lemma {:induction false} WithoutAbsent(pending: seq<Row>, keys: set<nat>)
    requires forall r | r in pending :: r.key !in keys
    ensures Without(pending, keys) == pending
  {
    if pending != [] {
      WithoutAbsent(pending[1..], keys);
    }
  }

  lemma TransactKeepsSound(store: Store, s: Sample, sourceId: string, bootId: nat, eventId: nat)
    requires Sound(store) && s.resource.kind == s.quantity.kind
    ensures var t := Transact(store, s, sourceId, bootId, eventId);
            t != Failure(CounterInvalid) && (t.Success? ==> Sound(t.value.store))
  {
    var t := Transact(store, s, sourceId, bootId, eventId);
    if t.Success? && t.value.emitted.Some? {
      OrderAppend(store.pending, store.sequence, t.value.emitted.value);
    }
    hide PlanFor, Ordered;
  }

  lemma CaptureKeepsInvariant(j: State, s: Sample, eventId: nat, io: Io)
    requires Invariant(j)
    ensures Invariant(Captured(j, s, eventId, io))
    ensures Outcome(j, s, eventId, io) != Failure(CounterInvalid)
  {
    hide Transact, Annotated, Sound;
    if Acceptable(s) {
      var s' := Annotated(s, Lookup(j.observations, KeyOf(s.resource)));
      AnnotatedKeeps(s, Lookup(j.observations, KeyOf(s.resource)));
      TransactKeepsSound(j.store, s', j.sourceId, j.bootId, eventId);
      TransactMovesOneCursor(j.store, s', j.sourceId, j.bootId, eventId);
      assert forall k | k != KeyOf(s.resource) && k in Captured(j, s, eventId, io).store.cursors ::
          Lookup(Captured(j, s, eventId, io).store.cursors, k) == Lookup(j.store.cursors, k);
    }
  }

  /** Evidence from an observation changes neither the resource nor what was seen of it. */
  lemma AnnotatedKeeps(s: Sample, o: Option<Observation>)
    ensures var s' := Annotated(s, o);
            s'.resource == s.resource && s'.quantity == s.quantity && s'.state == s.state && s'.at == s.at
            && s'.incarnation == s.incarnation
  {
  }

  /** A plan lies between the old and the new cursor, and a first one charges nothing. */
  lemma PlanWithinCursorMove(prior: Option<Cursor>, s: Sample, bootId: nat)
    ensures var p, end := PlanFor(prior, s, bootId), if prior.None? then s.at else Max(s.at, prior.value.at);
            && p.from <= p.to <= end
            && (p.quality == Unconfirmed <==> p.reason.Some?)
            && (prior.Some? ==> prior.value.at <= p.from)
            && (prior.None? ==> p.quality != Confirmed || p.from == p.to)
  {
  }

  /** A receipt lies between the old and the new cursor, and the cursor never moves back. */
  lemma ReceiptWithinCursorMove(store: Store, s: Sample, sourceId: string, bootId: nat, eventId: nat)
    requires Sound(store) && s.resource.kind == s.quantity.kind
    requires Transact(store, s, sourceId, bootId, eventId).Success?
    ensures var c := Transact(store, s, sourceId, bootId, eventId).value;
            var key, prior := KeyOf(s.resource), Lookup(store.cursors, KeyOf(s.resource));
            && (c.captured ==>
                  && key in c.store.cursors && c.store.cursors[key].resource == s.resource
                  && c.store.cursors[key].at == (if prior.None? then s.at else Max(s.at, prior.value.at)))
            && (c.emitted.Some? ==>
                  var e := c.emitted.value;
                  && c.captured && e.id == eventId && e.resource == s.resource && WellFormed(e)
                  && e.to <= c.store.cursors[key].at
                  && (prior.Some? ==> prior.value.at <= e.from)
                  && (prior.None? ==> !Chargeable(e)))
  {
    var prior := Lookup(store.cursors, KeyOf(s.resource));
    PlanWithinCursorMove(prior, Requantified(s, prior), bootId);
    hide PlanFor;
  }

  /** A charge needs an undisturbed observation of this boot, and has one of three shapes. */
  lemma ChargeShape(store: Store, s: Sample, sourceId: string, bootId: nat, eventId: nat)
    requires Transact(store, s, sourceId, bootId, eventId).Success?
    ensures var emitted := Transact(store, s, sourceId, bootId, eventId).value.emitted;
            emitted.Some? && Chargeable(emitted.value) ==>
              var e := emitted.value;
              && KeyOf(s.resource) in store.cursors
              && var prior := store.cursors[KeyOf(s.resource)];
              && prior.bootId == bootId && s.uncertain.None? && prior.at <= s.at
              && prior.state != Absent && prior.state != Unknown && s.state != Unknown
              && (|| (Active(prior.state) && Active(s.state) && prior.incarnation == s.incarnation
                      && prior.quantity == s.quantity && e.from == prior.at && e.to == s.at
                      && e.to - e.from <= MAXIMUM_OBSERVED_INTERVAL)
                  || (Active(prior.state) && Stopped(s.state) && prior.incarnation == s.incarnation
                      && prior.quantity == s.quantity && e.from == prior.at && e.to == s.endedAt <= s.at)
                  || (VerifiedResume(prior, s) && prior.incarnation != s.incarnation
                      && e.from == s.startedAt && e.to == s.at
                      && e.to - e.from <= MAXIMUM_OBSERVED_INTERVAL))
  {
  }

  /** A lapse of evidence is reported over the whole advance, with its first cause as the reason. */
  lemma LapsesAreReported(store: Store, s: Sample, sourceId: string, bootId: nat, eventId: nat)
    requires Transact(store, s, sourceId, bootId, eventId).Success? && KeyOf(s.resource) in store.cursors
    requires store.cursors[KeyOf(s.resource)].at < s.at && !Stopped(s.state)
    ensures var prior, emitted := store.cursors[KeyOf(s.resource)],
                                  Transact(store, s, sourceId, bootId, eventId).value.emitted;
            var cause := if s.uncertain.Some? then s.uncertain
                         else if prior.bootId != bootId then Some(SourceRestarted)
                         else if prior.incarnation != s.incarnation && !VerifiedResume(prior, s) then
                           Some(InstanceChanged)
                         else if prior.incarnation == s.incarnation && Active(prior.state) && Active(s.state)
                                 && (prior.quantity != s.quantity || s.at - prior.at > 90_000) then
                           Some(ObservationUnavailable)
                         else None;
            cause.Some? ==>
              && emitted.Some? && emitted.value.quality == Unconfirmed && emitted.value.reason == cause
              && emitted.value.from == prior.at && emitted.value.to == s.at
  {
  }

  /** Time left without a receipt is idle, precedes a verified resume, or follows a reported end. */
  lemma UncoveredTime(store: Store, s: Sample, sourceId: string, bootId: nat, eventId: nat)
    requires Transact(store, s, sourceId, bootId, eventId).Success? && KeyOf(s.resource) in store.cursors
    ensures var c := Transact(store, s, sourceId, bootId, eventId).value;
            var prior, next := store.cursors[KeyOf(s.resource)], Max(s.at, store.cursors[KeyOf(s.resource)].at);
            && c.captured
            && (c.emitted.None? ==>
                  || prior.at == next
                  || (Stopped(s.state) && prior.state == s.state)
                  || (VerifiedResume(prior, s) && next == s.startedAt))
            && (c.emitted.Some? ==>
                  var e := c.emitted.value;
                  && (e.from == prior.at || (VerifiedResume(prior, s) && e.from == s.startedAt))
                  && (e.to == next || (Stopped(s.state) && e.to == s.endedAt)))
  {
  }

  /** A capture touches the cursor of its own resource and no other. */
  lemma TransactMovesOneCursor(store: Store, s: Sample, sourceId: string, bootId: nat, eventId: nat)
    ensures var t := Transact(store, s, sourceId, bootId, eventId);
            t.Success? ==>
              && (forall k | k != KeyOf(s.resource) :: Lookup(t.value.store.cursors, k) == Lookup(store.cursors, k))
              && (t.value.captured <==> KeyOf(s.resource) in t.value.store.cursors)
              && (t.value.captured ==> t.value.store.cursors[KeyOf(s.resource)].state == s.state)
  {
  }

  lemma AcknowledgeKeepsInvariant(j: State, rows: seq<Row>)
    requires Invariant(j)
    ensures Invariant(Acknowledged(j, rows))
  {
    WithoutKeepsOrder(j.store.pending, j.store.sequence, Keys(rows));
  }

  // ----- The journal in place -----

  class Journal {
    const sourceId: string
    const bootId: nat
    var cursors: map<Key, Cursor>
    var pending: seq<Row>
    var sequence: nat
    var counter: Option<nat>
    var observations: map<Key, Observation>

    ghost function Durable(): Store
      reads this
    {
      Store(cursors, pending, sequence, counter)
    }

    ghost function Contents(): State
      reads this
    {
      State(Durable(), sourceId, bootId, observations)
    }

    ghost predicate Valid()
      reads this
    {
      Invariant(Contents())
    }

    constructor (store: Store, sourceId: string, bootId: nat)
      requires Sound(store)
      requires forall k | k in store.cursors :: store.cursors[k].bootId != bootId
      ensures Valid() && Contents() == State(store, sourceId, bootId, map[])
    {
      this.sourceId, this.bootId := sourceId, bootId;
      cursors, pending, sequence, counter := store.cursors, store.pending, store.sequence, store.counter;
      observations := map[];
    }

    /** Opens a store under a boot identity that no stored cursor carries; a new store gets its counter. */
    static method New(store: Store, sourceId: string, bootId: nat, synchronous: bool)
        returns (r: Result<Journal, Error>)
      requires Sound(store.(counter := if store.counter.None? then Some(|store.pending|) else store.counter))
      requires forall k | k in store.cursors :: store.cursors[k].bootId != bootId
      ensures r.Failure? ==> r.error == if sourceId == "" then MissingConfiguration
                                        else if !synchronous then NotSynchronous else CounterMissing
      ensures r.Failure? <==> sourceId == "" || !synchronous || (store.counter.None? && store.pending != [])
      ensures r.Success? ==>
                && fresh(r.value) && r.value.Valid()
                && r.value.Contents() == State(store.(counter := Some(|store.pending|)), sourceId, bootId, map[])
    {
      if sourceId == "" {
        return Failure(MissingConfiguration);
      }
      if !synchronous {
        return Failure(NotSynchronous);
      }
      if store.counter.None? && store.pending != [] {
        return Failure(CounterMissing);
      }
      var initial := if store.counter.None? then store.(counter := Some(0)) else store;
      var journal := new Journal(initial, sourceId, bootId);
      return Success(journal);
    }

    method CaptureAndUpdate(sample: Sample, eventId: nat, io: Io) returns (r: Result<Option<Event>, Error>)
      requires Valid()
      modifies this
      ensures Valid()
      ensures Contents() == Captured(old(Contents()), sample, eventId, io)
      ensures r == (match Outcome(old(Contents()), sample, eventId, io)
                    case Success(c) => Success(c.emitted)
                    case Failure(e) => Failure(e))
      ensures r != Failure(CounterInvalid)
    {
      CaptureKeepsInvariant(Contents(), sample, eventId, io);
      hide Transact, Invariant, Annotated;
      if !Acceptable(sample) {
        return Failure(InvalidObservation);
      }
      var s := Annotate(sample);
      var id := KeyOf(s.resource);
      var known := id in observations;
      var previous := if known then observations[id] else Observation(0, 0, false, 0);
      var captured, emitted, error := Transaction(s, eventId, io);
      if error.Some? {
        if !known {
          previous := previous.(clock := s.clock, at := s.at);
        }
        if !previous.failed {
          previous := previous.(failedAt := s.at);
        }
        observations := observations[id := previous.(failed := true)];
        return Failure(error.value);
      } else if !captured || s.state == Absent {
        observations := observations - {id};
      } else {
        observations := observations[id := Observation(s.clock, s.at, false, 0)];
      }
      r := Success(emitted);
    }

    /** The evidence of the observation before, if there is one. */
    method Annotate(sample: Sample) returns (s: Sample)
      ensures s == Annotated(sample, Lookup(observations, KeyOf(sample.resource)))
      ensures s.resource == sample.resource && s.quantity == sample.quantity && s.state == sample.state
      ensures s.at == sample.at && s.clock == sample.clock
    {
      s := sample;
      var id := KeyOf(s.resource);
      if id in observations {
        var previous := observations[id];
        var wall := s.at - previous.at;
        var elapsed := Milliseconds(s.clock - previous.clock);
        if wall - elapsed > MAXIMUM_DRIFT || elapsed - wall > MAXIMUM_DRIFT {
          s := s.(uncertain := Some(ClockChanged));
        }
        if previous.failed && s.uncertain.None? {
          s := s.(uncertain := Some(CollectionUnavailable));
        }
        if previous.failed && s.coverageStartedAt == 0 {
          s := s.(coverageStartedAt := previous.failedAt);
        }
      }
    }

    /** One storage transaction: the buckets change only on the last line. */
    method Transaction(sample: Sample, eventId: nat, io: Io)
      returns (captured: bool, emitted: Option<Event>, error: Option<Error>)
      requires Valid()
      modifies this`cursors, this`pending, this`sequence, this`counter
      ensures var t := Transact(old(Durable()), sample, sourceId, bootId, eventId);
              var committed := t.Success? && io.updateSucceeds && io.commits;
              && error == (if t.Failure? then Some(t.error)
                           else if !io.updateSucceeds then Some(UpdateFailed)
                           else if !io.commits then Some(StorageFailed)
                           else None)
              && Durable() == (if committed then t.value.store else old(Durable()))
              && (committed ==> captured == t.value.captured && emitted == t.value.emitted)
      ensures error != Some(CounterInvalid)
    {
      captured, emitted, error := false, None, None;
      var s, id := sample, KeyOf(sample.resource);
      var found := id in cursors;
      var prior := if found then cursors[id] else Cursor(s.resource, s.quantity, "", Unknown, 0, 0);
      if found {
        if prior.resource != s.resource {
          return false, None, Some(OwnerChanged);
        }
        if prior.state == Absent && s.state != Absent {
          return false, None, Some(StaleObservation);
        }
        if s.state == Unknown {
          s := s.(quantity := prior.quantity);
        }
      }
      if !found && !Active(s.state) && s.coverageStartedAt == 0 {
        error := Finish(io);
        return;
      }
      var next, plan := Decide(found, prior, s);
      var rows, seqNo, count := pending, sequence, counter;
      if plan.emit {
        if counter.None? {
          return false, None, Some(CounterInvalid);
        }
        if counter.value >= MAX_PENDING {
          return false, None, Some(Full);
        }
        var event := Event(eventId, s.resource, sourceId, bootId, s.incarnation, plan.from, plan.to, plan.quality,
                           plan.reason, s.state, s.quantity);
        seqNo := sequence + 1;
        rows := pending + [Row(seqNo, event)];
        count := Some(counter.value + 1);
        emitted := Some(event);
      }
      captured := true;
      error := Finish(io);
      if error.None? {
        cursors, pending, sequence, counter := cursors[id := next], rows, seqNo, count;
      }
    }

    /** Which interval the sample accounts for, and where the cursor moves. */
    method Decide(found: bool, prior: Cursor, s: Sample) returns (next: Cursor, plan: Plan)
      ensures var o := if found then Some(prior) else None;
              next == CursorAfter(o, s, bootId) && plan == PlanFor(o, s, bootId)
    {
      next := Cursor(s.resource, s.quantity, s.incarnation, s.state, s.at, bootId);
      var from, to, quality, reason, emit := s.at, s.at, Confirmed, None, false;
      if !found {
        emit := true;
        if s.coverageStartedAt > 0 {
          from := Min(s.coverageStartedAt, s.at);
          if Stopped(s.state) && s.endedAt > 0 {
            to := Max(from, Min(s.endedAt, s.at));
          }
          quality, reason := Unconfirmed, Some(CollectionUnavailable);
          if s.uncertain.Some? {
            reason := s.uncertain;
          }
        }
      } else {
        from := prior.at;
        to := Max(s.at, prior.at);
        next := next.(at := to);
        if s.at < prior.at {
          quality, reason, emit := Unconfirmed, Some(ClockChanged), true;
        } else if s.uncertain.Some? {
          quality, reason, emit := Unconfirmed, s.uncertain, true;
        } else if prior.bootId != bootId {
          quality, reason, emit := Unconfirmed, Some(SourceRestarted), to > from;
        } else if s.incarnation != prior.incarnation {
          if prior.state == Paused && Active(s.state) && s.startedAt >= prior.at && s.startedAt <= s.at {
            from := s.startedAt;
            emit := to > from;
            if to - from > MAXIMUM_OBSERVED_INTERVAL {
              quality, reason := Unconfirmed, Some(ObservationUnavailable);
            }
          } else {
            quality, reason, emit := Unconfirmed, Some(InstanceChanged), to > from;
          }
        } else if s.quantity != prior.quantity {
          quality, reason, emit := Unconfirmed, Some(ObservationUnavailable), to > from;
        } else if Active(prior.state) && Active(s.state) && to - from <= MAXIMUM_OBSERVED_INTERVAL {
          emit := to > from;
        } else if Active(prior.state) && Stopped(s.state) && s.endedAt >= from && s.endedAt <= to {
          to := s.endedAt;
          emit := to > from;
        } else if prior.state == s.state && !Active(s.state) && s.state != Unknown {
          // Paused and absent resources consume no compute time.
        } else {
          quality, reason, emit := Unconfirmed, Some(ObservationUnavailable), to > from;
        }
      }
      if Stopped(s.state) && s.endedAt >= from && s.endedAt <= to {
        to := s.endedAt;
      }
      if found && prior.state != s.state && Stopped(s.state) {
        emit := true;
      }
      plan := Plan(from, to, quality, reason, emit);
    }

    /** The caller's update runs last inside the transaction, then the store commits. */
    method Finish(io: Io) returns (error: Option<Error>)
      ensures error == if !io.updateSucceeds then Some(UpdateFailed)
                       else if !io.commits then Some(StorageFailed) else None
    {
      if !io.updateSucceeds {
        return Some(UpdateFailed);
      }
      return if io.commits then None else Some(StorageFailed);
    }

    /** The oldest receipts, in key order. */
    method Batch(limit: nat) returns (rows: seq<Row>)
      requires Valid()
      ensures rows == pending[..if |pending| < limit then |pending| else limit]
    {
      rows := [];
      while |rows| < |pending| && |rows| < limit
        invariant |rows| <= |pending| && |rows| <= limit
        invariant rows == pending[..|rows|]
      {
        rows := rows + [pending[|rows|]];
      }
    }

    method PendingCount() returns (r: Result<nat, Error>)
      requires Valid()
      ensures r == Success(|pending|)
    {
      if counter.None? {
        return Failure(CounterInvalid);
      }
      return Success(counter.value);
    }

    function Find(rows: seq<Row>, key: nat): (r: Option<Row>)
      ensures r.Some? ==> r.value in rows && r.value.key == key
      ensures r.None? ==> forall x | x in rows :: x.key != key
    {
      if rows == [] then None
      else if rows[0].key == key then Some(rows[0])
      else Find(rows[1..], key)
    }

    /** Removes delivered receipts; either every row is honoured or nothing changes. */
    method Acknowledge(rows: seq<Row>) returns (error: Option<Error>)
      requires Valid()
      modifies this`cursors, this`pending, this`counter
      ensures Valid()
      ensures Matches(old(pending), rows) ==> error.None? && Contents() == Acknowledged(old(Contents()), rows)
      ensures !Matches(old(pending), rows) ==>
                error == Some(AcknowledgementChanged) && Contents() == old(Contents())
    {
      if counter.None? {
        return Some(CounterInvalid);
      }
      var kept, count;
      kept, count, error := Deleted(rows, counter.value);
      if error.Some? {
        return;
      }
      AcknowledgeKeepsInvariant(Contents(), rows);
      pending := kept;
      if count == 0 {
        cursors := map k | k in cursors && cursors[k].state != Absent :: cursors[k];
      }
      counter := Some(count);
    }

    /** The loop of the transaction: what is left of the outbox, and how many rows that is. */
    method Deleted(rows: seq<Row>, stored: nat) returns (kept: seq<Row>, count: nat, error: Option<Error>)
      requires Ordered(pending, sequence) && stored == |pending|
      ensures Matches(pending, rows) ==>
                error.None? && kept == Without(pending, Keys(rows)) && count == |kept|
      ensures !Matches(pending, rows) ==> error == Some(AcknowledgementChanged)
    {
      kept, count, error := pending, stored, None;
      WithoutNothing(pending);
      assert Keys(rows[..0]) == {};
      for i := 0 to |rows|
        invariant kept == Without(pending, Keys(rows[..i]))
        invariant count == |kept|
        invariant Matches(pending, rows[..i])
      {
        var r := rows[i];
        AcknowledgeStep(pending, rows, i, sequence);
        var found := Find(kept, r.key);
        if found.Some? {
          if found.value != r {
            return kept, count, Some(AcknowledgementChanged);
          }
          if count == 0 {
            return kept, count, Some(CounterUnderflow);
          }
          kept := Without(kept, {r.key});
          count := count - 1;
        }
      }
      assert rows[..|rows|] == rows;
    }

    /**
     One delivery attempt: `accepted` is the receiver's count, or nothing when it failed. Without
     receipts there is none.
     */
    method Deliver(accepted: Option<nat>) returns (delivered: seq<Row>, error: Option<Error>)
      requires Valid()
      modifies this`cursors, this`pending, this`counter
      ensures Valid()
      ensures delivered == old(pending)[..if |old(pending)| < BATCH_LIMIT then |old(pending)| else BATCH_LIMIT]
      ensures error == if delivered == [] || accepted == Some(|delivered|) then None else Some(NotAcknowledged)
      ensures delivered != [] && accepted == Some(|delivered|) ==>
                && Contents() == Acknowledged(old(Contents()), delivered)
                && pending == old(pending)[|delivered|..]
      ensures delivered == [] || accepted != Some(|delivered|) ==> Contents() == old(Contents())
    {
      error := None;
      delivered := Batch(BATCH_LIMIT);
      if delivered == [] {
        return;
      }
      if accepted != Some(|delivered|) {
        return delivered, Some(NotAcknowledged);
      }
      PrefixMatches(pending, sequence, |delivered|);
      WithoutPrefix(pending, sequence, |delivered|);
      error := Acknowledge(delivered);
    }
  }

  /** One iteration over the rows, for each of the three things the outbox can hold under a key. */
  lemma AcknowledgeStep(pending: seq<Row>, rows: seq<Row>, i: nat, sequence: nat)
    requires i < |rows| && Ordered(pending, sequence)
    requires Matches(pending, rows[..i])
    ensures var kept := Without(pending, Keys(rows[..i]));
            var next := Without(pending, Keys(rows[..i + 1]));
            && next == Without(kept, {rows[i].key})
            && (rows[i] in kept ==> |next| == |kept| - 1 && Matches(pending, rows[..i + 1]))
            && ((forall x | x in kept :: x.key != rows[i].key) ==> next == kept && Matches(pending, rows[..i + 1]))
            && (forall x | x in kept && x.key == rows[i].key && x != rows[i] :: !Matches(pending, rows))
  {
    var r, before := rows[i], Keys(rows[..i]);
    var kept := Without(pending, before);
    assert rows[..i + 1] == rows[..i] + [r];
    assert Keys(rows[..i + 1]) == before + {r.key};
    WithoutTwice(pending, before, {r.key});
    WithoutKeepsOrder(pending, sequence, before);
    if r in kept {
      WithoutOne(kept, sequence, r);
      forall x | x in kept && x.key == r.key ensures x == r {
      }
      MatchesOneMore(pending, rows, i);
    }
    if forall x | x in kept :: x.key != r.key {
      WithoutAbsent(kept, {r.key});
      MatchesOneMore(pending, rows, i);
    }
  }

  lemma MatchesOneMore(pending: seq<Row>, rows: seq<Row>, i: nat)
    requires i < |rows| && Matches(pending, rows[..i])
    requires forall x | x in Without(pending, Keys(rows[..i])) && x.key == rows[i].key :: x == rows[i]
    ensures Matches(pending, rows[..i + 1])
  {
    var upto := rows[..i + 1];
    forall k | 0 <= k < |upto| && upto[k].key !in Keys(upto[..k])
      ensures forall x | x in pending && x.key == upto[k].key :: x == upto[k]
    {
      assert upto[..k] == rows[..k];
      if k < i {
        assert rows[..i][k] == rows[k] && rows[..i][..k] == rows[..k];
      }
    }
  }

  lemma PrefixMatches(pending: seq<Row>, sequence: nat, n: nat)
    requires Ordered(pending, sequence) && n <= |pending|
    ensures Matches(pending, pending[..n])
  {
  }

  lemma {:induction false} WithoutAppend(a: seq<Row>, b: seq<Row>, keys: set<nat>)
    ensures Without(a + b, keys) == Without(a, keys) + Without(b, keys)
  {
    if a == [] {
      assert a + b == b;
    } else {
      assert (a + b)[1..] == a[1..] + b;
      WithoutAppend(a[1..], b, keys);
    }
  }

  lemma {:induction false} WithoutAll(pending: seq<Row>, keys: set<nat>)
    requires forall r | r in pending :: r.key in keys
    ensures Without(pending, keys) == []
  {
    if pending != [] {
      WithoutAll(pending[1..], keys);
    }
  }

  lemma YoungerKeys(pending: seq<Row>, sequence: nat, n: nat, r: Row, x: Row)
    requires Ordered(pending, sequence) && n <= |pending|
    requires x in pending[..n] && r in pending[n..]
    ensures x.key < r.key
  {
    var i :| 0 <= i < n && pending[i] == x;
    var j :| n <= j < |pending| && pending[j] == r;
  }

  /** Acknowledging the oldest rows leaves exactly the younger ones. */
  lemma WithoutPrefix(pending: seq<Row>, sequence: nat, n: nat)
    requires Ordered(pending, sequence) && n <= |pending|
    ensures Without(pending, Keys(pending[..n])) == pending[n..]
  {
    var oldest, young := pending[..n], pending[n..];
    var keys := Keys(oldest);
    forall r | r in young ensures r.key !in keys {
      forall x | x in oldest ensures x.key != r.key {
        YoungerKeys(pending, sequence, n, r, x);
      }
    }
    forall r | r in oldest ensures r.key in keys {
    }
    hide *;
    assert pending == oldest + young;
    WithoutAppend(oldest, young, keys);
    WithoutAll(oldest, keys);
    WithoutAbsent(young, keys);
  }
}
