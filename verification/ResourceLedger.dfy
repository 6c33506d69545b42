/**
 The accounting side of resource metering: an idempotent ledger of receipts that
 refuses overlapping confirmed intervals and values each receipt once, and an
 append-only table of tariff versions. One batch is one transaction.
 */
module ResourceLedger {
  import opened Wrappers
  import opened ResourceTypes
  import opened ResourcePricing

  const MAX_BATCH := 128

  datatype LedgerRow = LedgerRow(event: Event, valuation: seq<Segment>)

  datatype Ledger = Ledger(resources: map<Key, Identity>, rows: map<nat, LedgerRow>, rates: seq<Rate>)

  const EMPTY_LEDGER := Ledger(map[], map[], [])

  datatype Refusal =
    | InvalidBatch
    | IdentityChanged
    | ReceiptChanged
    | IntervalsOverlap
    | VersionChanged
    | NotInFuture

  // ----- Ingestion -----

  predicate Parsed(events: seq<Event>) {
    1 <= |events| <= MAX_BATCH && forall i | 0 <= i < |events| :: WellFormed(events[i])
  }

  function Valuation(rates: seq<Rate>, e: Event): seq<Segment> {
    ValueReceipt(e, if e.quality == Confirmed then Prefiltered(rates, e) else [])
  }

  predicate Conflicts(a: Event, b: Event) {
    KeyOf(a.resource) == KeyOf(b.resource) && Chargeable(a) && Chargeable(b) && Overlap(a, b)
  }

  function IngestOne(l: Ledger, e: Event): Result<Ledger, Refusal> {
    var key := KeyOf(e.resource);
    var l1 := if key in l.resources then l else l.(resources := l.resources[key := e.resource]);
    if l1.resources[key] != e.resource then Failure(IdentityChanged)
    else if e.id in l.rows then
      if l.rows[e.id].event != e then Failure(ReceiptChanged) else Success(l1)
    else if Chargeable(e) && exists id | id in l.rows :: Conflicts(l.rows[id].event, e) then
      Failure(IntervalsOverlap)
    else Success(l1.(rows := l.rows[e.id := LedgerRow(e, Valuation(l.rates, e))]))
  }

  function IngestAll(l: Ledger, events: seq<Event>): Result<Ledger, Refusal>
    decreases |events|
  {
    if events == [] then Success(l)
    else
      var one := IngestOne(l, events[0]);
      if one.Failure? then one else IngestAll(one.value, events[1..])
  }

  function Ingest(l: Ledger, events: seq<Event>): Result<Ledger, Refusal> {
    if !Parsed(events) then Failure(InvalidBatch) else IngestAll(l, events)
  }

  // ----- What a ledger always satisfies -----

  ghost predicate Invariant(l: Ledger) {
    && (forall id | id in l.rows :: l.rows[id].event.id == id)
    && (forall id | id in l.rows ::
          KeyOf(l.rows[id].event.resource) in l.resources
          && l.resources[KeyOf(l.rows[id].event.resource)] == l.rows[id].event.resource)
    && (forall id, id' | id in l.rows && id' in l.rows && id != id' ::
          !Conflicts(l.rows[id].event, l.rows[id'].event))
    && OneVersion(l.rates)
  }

  /** Nothing recorded is ever altered or dropped. */
  ghost predicate Extends(l: Ledger, later: Ledger) {
    && (forall k | k in l.resources :: k in later.resources && later.resources[k] == l.resources[k])
    && (forall id | id in l.rows :: id in later.rows && later.rows[id] == l.rows[id])
  }

  // ----- When a batch is accepted, whatever its order -----

  ghost predicate Compatible(l: Ledger, e: Event) {
    && (KeyOf(e.resource) in l.resources ==> l.resources[KeyOf(e.resource)] == e.resource)
    && (e.id in l.rows ==> l.rows[e.id].event == e)
    && (e.id !in l.rows ==> forall id | id in l.rows :: !Conflicts(l.rows[id].event, e))
  }

  ghost predicate Agree(a: Event, b: Event) {
    && (KeyOf(a.resource) == KeyOf(b.resource) ==> a.resource == b.resource)
    && (a.id == b.id ==> a == b)
    && (a.id != b.id ==> !Conflicts(a, b))
  }

  ghost predicate Admissible(l: Ledger, events: seq<Event>) {
    && (forall a | a in events :: Compatible(l, a))
    && (forall a, b | a in events && b in events :: Agree(a, b))
  }

  /** `later` is `l` plus exactly the given receipts. */
  ghost predicate Records(l: Ledger, events: seq<Event>, later: Ledger) {
    && Extends(l, later) && later.rates == l.rates
    && (forall e | e in events :: e.id in later.rows && later.rows[e.id].event == e)
    && (forall e | e in events :: KeyOf(e.resource) in later.resources
          && later.resources[KeyOf(e.resource)] == e.resource)
    && (forall id | id in later.rows && id !in l.rows ::
          later.rows[id].event in events && later.rows[id].event.id == id
          && later.rows[id].valuation == Valuation(l.rates, later.rows[id].event))
    && (forall k | k in later.resources && k !in l.resources :: exists e :: e in events && KeyOf(e.resource) == k)
  }

  lemma IngestOneExact(l: Ledger, e: Event)
    requires Invariant(l)
    ensures IngestOne(l, e).Success? <==> Compatible(l, e)
    ensures IngestOne(l, e).Success? ==> Records(l, [e], IngestOne(l, e).value)
  {
  }

  lemma IngestOneKeepsInvariant(l: Ledger, e: Event)
    requires Invariant(l) && Compatible(l, e)
    ensures IngestOne(l, e).Success? && Invariant(IngestOne(l, e).value)
  {
    var l' := IngestOne(l, e).value;
    forall id, id' | id in l'.rows && id' in l'.rows && id != id'
      ensures !Conflicts(l'.rows[id].event, l'.rows[id'].event)
    {
      hide Valuation;
      if e.id !in l.rows {
        if id == e.id {
          assert !Conflicts(l.rows[id'].event, e);
        } else if id' == e.id {
          assert !Conflicts(l.rows[id].event, e);
        }
      }
    }
  }

  /** Recording one receipt constrains the next one by exactly the pairwise agreement. */
  lemma CompatibleAfter(l: Ledger, e: Event, x: Event)
    requires Invariant(l) && Compatible(l, e)
    ensures Compatible(IngestOne(l, e).value, x) <==> Compatible(l, x) && Agree(e, x)
  {
    hide Valuation;
    var l' := IngestOne(l, e).value;
    assert e.id in l'.rows && l'.rows[e.id].event == e;
    assert Conflicts(e, x) ==> Conflicts(l'.rows[e.id].event, x);
    if Compatible(l, x) && Agree(e, x) {
      forall id | id in l'.rows && x.id !in l'.rows ensures !Conflicts(l'.rows[id].event, x) {
        if id == e.id {
        } else {
          assert l'.rows[id] == l.rows[id];
        }
      }
    }
    if Compatible(l', x) {
      forall id | id in l.rows && x.id !in l.rows ensures !Conflicts(l.rows[id].event, x) {
        assert l'.rows[id] == l.rows[id];
        if x.id == e.id {
          assert x == e;
        }
      }
      if x.id in l.rows && e.id !in l.rows {
        assert l.rows[x.id].event == x && !Conflicts(x, e);
      }
      if x.id in l.rows && e.id in l.rows && x.id != e.id {
        assert !Conflicts(l.rows[e.id].event, l.rows[x.id].event);
      }
    }
  }

  lemma AgreeSymmetric(a: Event, b: Event)
    ensures Agree(a, b) <==> Agree(b, a)
  {
  }

  lemma AdmissibleStep(l: Ledger, events: seq<Event>)
    requires Invariant(l) && events != []
    ensures Admissible(l, events) <==>
            Compatible(l, events[0]) && Admissible(IngestOne(l, events[0]).value, events[1..])
  {
    var e, rest := events[0], events[1..];
    assert forall x :: x in events <==> x == e || x in rest;
    if Compatible(l, e) {
      forall x | x in rest
        ensures Compatible(IngestOne(l, e).value, x) <==> Compatible(l, x) && Agree(e, x)
        ensures Agree(e, x) <==> Agree(x, e)
      {
        CompatibleAfter(l, e, x);
        AgreeSymmetric(e, x);
      }
      assert Agree(e, e);
      hide IngestOne, Compatible, Agree;
    }
  }

  lemma RecordsCompose(l: Ledger, e: Event, mid: Ledger, rest: seq<Event>, later: Ledger, events: seq<Event>)
    requires Records(l, [e], mid) && Records(mid, rest, later)
    requires events == [e] + rest
    ensures Records(l, events, later)
  {
    hide Valuation;
  }

  /** A batch is accepted exactly when its receipts agree with the ledger and with each other. */
  lemma IngestUnfolds(l: Ledger, events: seq<Event>)
    requires events != []
    ensures var one := IngestOne(l, events[0]);
            IngestAll(l, events) == if one.Failure? then one else IngestAll(one.value, events[1..])
  {
    hide IngestOne;
  }

  lemma {:induction false} IngestExact(l: Ledger, events: seq<Event>)
    requires Invariant(l)
    ensures IngestAll(l, events).Success? <==> Admissible(l, events)
    ensures IngestAll(l, events).Success? ==>
              Invariant(IngestAll(l, events).value) && Records(l, events, IngestAll(l, events).value)
    decreases |events|
  {
    hide Invariant, Admissible, Records, Compatible, IngestOne;
    if events == [] {
      EmptyBatch(l);
    } else {
      var e, rest := events[0], events[1..];
      IngestUnfolds(l, events);
      IngestOneExact(l, e);
      AdmissibleStep(l, events);
      hide IngestAll;
      if Compatible(l, e) {
        IngestOneKeepsInvariant(l, e);
        var mid := IngestOne(l, e).value;
        IngestExact(mid, rest);
        if IngestAll(mid, rest).Success? {
          RecordsCompose(l, e, mid, rest, IngestAll(mid, rest).value, events);
        }
      }
    }
  }

  lemma EmptyBatch(l: Ledger)
    ensures Admissible(l, []) && Records(l, [], l)
  {
  }

  lemma AdmissibleIsAccepted(l: Ledger, events: seq<Event>)
    requires Invariant(l) && Parsed(events) && Admissible(l, events)
    ensures Ingest(l, events).Success?
    ensures Invariant(Ingest(l, events).value) && Records(l, events, Ingest(l, events).value)
  {
    IngestExact(l, events);
    hide Invariant, Admissible, Records, IngestAll;
  }

  /** A confirmed receipt is stored at what all versions of its tenant and kind say it costs; any other has no price. */
  lemma StoredAtFullPrice(l: Ledger, events: seq<Event>, e: Event)
    requires Invariant(l) && Ingest(l, events).Success? && e in events && e.id !in l.rows
    ensures var l', own := Ingest(l, events).value, ForResource(l.rates, e);
            && e.id in l'.rows && l'.rows[e.id].event == e
            && var v := l'.rows[e.id].valuation;
            && (e.quality == Confirmed ==>
                  && v == ValueReceipt(e, own)
                  && forall i | 0 <= i < |v| ::
                       && AmountAt(v[i].customer, e, own, Customer, v[i].from, v[i].to)
                       && AmountAt(v[i].upstreamEstimate, e, own, UpstreamEstimate, v[i].from, v[i].to))
            && (e.quality == Unconfirmed ==>
                  v == [Segment(e.from, e.to, Withheld(e.reason), Withheld(e.reason))])
  {
    hide IngestAll, ValueReceipt, Prefiltered, ForResource, AmountAt, Invariant;
    IngestExact(l, events);
    OneVersionHolds(l);
    EventsAreParsed(l, events, e);
    var own := ForResource(l.rates, e);
    if e.quality == Confirmed {
      PrefilterIsExact(l.rates, e);
      forall i: nat | i < |ValueReceipt(e, own)|
        ensures var v := ValueReceipt(e, own)[i];
                && AmountAt(v.customer, e, own, Customer, v.from, v.to)
                && AmountAt(v.upstreamEstimate, e, own, UpstreamEstimate, v.from, v.to)
      {
        SegmentsArePricedByKind(e, own, i);
      }
    } else {
      WithheldWhole(e);
    }
  }

  lemma OneVersionHolds(l: Ledger)
    requires Invariant(l)
    ensures OneVersion(l.rates)
  {
  }

  lemma EventsAreParsed(l: Ledger, events: seq<Event>, e: Event)
    requires Ingest(l, events).Success? && e in events
    ensures WellFormed(e) && Parsed(events) && IngestAll(l, events) == Ingest(l, events)
  {
  }

  lemma WithheldWhole(e: Event)
    requires e.quality == Unconfirmed && e.from <= e.to
    ensures ValueReceipt(e, []) == [Segment(e.from, e.to, Withheld(e.reason), Withheld(e.reason))]
  {
    if e.from == e.to {
      assert Bounds([], e.from, e.to) == [e.from, e.to];
    } else {
      assert [e.from][1..] == [];
      assert Insert([e.from], e.to) == [e.from, e.to];
    }
  }

  /** The service sorts a batch only to order its locks: any order gives the same outcome and ledger. */
  lemma OrderIsIrrelevant(l: Ledger, a: seq<Event>, b: seq<Event>)
    requires Invariant(l)
    requires forall e :: e in a <==> e in b
    ensures IngestAll(l, a).Success? <==> IngestAll(l, b).Success?
    ensures IngestAll(l, a).Success? ==> IngestAll(l, a) == IngestAll(l, b)
  {
    IngestExact(l, a);
    IngestExact(l, b);
    assert Admissible(l, a) <==> Admissible(l, b);
    if IngestAll(l, a).Success? {
      RecordsUnique(l, a, IngestAll(l, a).value, b, IngestAll(l, b).value);
    }
  }

  lemma RecordsUnique(l: Ledger, a: seq<Event>, x: Ledger, b: seq<Event>, y: Ledger)
    requires Records(l, a, x) && Records(l, b, y)
    requires forall e :: e in a <==> e in b
    ensures x == y
  {
    RecordsWithin(l, a, x, b, y);
    RecordsWithin(l, b, y, a, x);
    MapsEqual(x.rows, y.rows);
    MapsEqual(x.resources, y.resources);
  }

  lemma MapsEqual<K, V>(x: map<K, V>, y: map<K, V>)
    requires forall k | k in x :: k in y && y[k] == x[k]
    requires forall k | k in y :: k in x && x[k] == y[k]
    ensures x == y
  {
    assert x.Keys == y.Keys;
  }

  lemma RecordsWithin(l: Ledger, a: seq<Event>, x: Ledger, b: seq<Event>, y: Ledger)
    requires Records(l, a, x) && Records(l, b, y)
    requires forall e :: e in a <==> e in b
    ensures forall id | id in x.rows :: id in y.rows && y.rows[id] == x.rows[id]
    ensures forall k | k in x.resources :: k in y.resources && y.resources[k] == x.resources[k]
    ensures x.rates == y.rates
  {
    hide Valuation;
    forall id | id in x.rows ensures id in y.rows && y.rows[id] == x.rows[id] {
      if id !in l.rows {
        var e := x.rows[id].event;
        assert e in b && y.rows[e.id].event == e;
      }
    }
    forall k | k in x.resources ensures k in y.resources && y.resources[k] == x.resources[k] {
      if k !in l.resources {
        var e :| e in a && KeyOf(e.resource) == k;
        assert e in b;
      }
    }
  }

  /** A receipt that is already recorded is recognised, in this ledger and in every later one. */
  lemma {:induction false} ReingestIsIdentity(l: Ledger, events: seq<Event>)
    requires forall e | e in events ::
               && e.id in l.rows && l.rows[e.id].event == e
               && KeyOf(e.resource) in l.resources && l.resources[KeyOf(e.resource)] == e.resource
    ensures IngestAll(l, events) == Success(l)
  {
    if events != [] {
      assert IngestOne(l, events[0]) == Success(l);
      ReingestIsIdentity(l, events[1..]);
    }
  }

  // ----- Tariff versions -----

  datatype RateInput = RateInput(kind: PriceKind, effectiveAt: int, currency: string, perHour: Tariff)

  function Version(id: nat, tenantId: Uuid, input: RateInput): Rate {
    Rate(id, tenantId, input.kind, input.effectiveAt, input.currency, input.perHour)
  }

  predicate SameSlot(r: Rate, x: Rate) {
    r.tenantId == x.tenantId && r.kind == x.kind && ResourceKind(r) == ResourceKind(x) && r.effectiveAt == x.effectiveAt
  }

  function Stored(rates: seq<Rate>, slot: Rate): (r: Option<Rate>)
    ensures r.Some? ==> r.value in rates && SameSlot(r.value, slot)
    ensures r.None? ==> forall x | x in rates :: !SameSlot(x, slot)
  {
    if rates == [] then None
    else if SameSlot(rates[0], slot) then Some(rates[0])
    else Stored(rates[1..], slot)
  }

  /** Returns the table and the version acknowledged; `now` is the database clock. */
  function CreateRate(rates: seq<Rate>, tenantId: Uuid, input: RateInput, now: int, id: nat)
    : Result<(seq<Rate>, Rate), Refusal>
  {
    var slot := Version(id, tenantId, input);
    var stored := Stored(rates, slot);
    if stored.Some? then
      if stored.value.(id := id) == slot then Success((rates, stored.value)) else Failure(VersionChanged)
    else if input.effectiveAt < now then Failure(NotInFuture)
    else Success((rates + [slot], slot))
  }

  // ----- Runs of the service -----

  datatype Call =
    | Post(events: seq<Event>)
    | NewRate(tenantId: Uuid, input: RateInput, now: int, id: nat)

  /** A refused call is an aborted transaction. */
  function After(l: Ledger, call: Call): Ledger {
    match call
    case Post(events) =>
      var r := Ingest(l, events);
      if r.Success? then r.value else l
    case NewRate(tenantId, input, now, id) =>
      var r := CreateRate(l.rates, tenantId, input, now, id);
      if r.Success? then l.(rates := r.value.0) else l
  }

  function Run(l: Ledger, calls: seq<Call>): Ledger
    decreases |calls|
  {
    if calls == [] then l else Run(After(l, calls[0]), calls[1..])
  }

  lemma AfterKeepsInvariant(l: Ledger, call: Call)
    requires Invariant(l)
    ensures Invariant(After(l, call)) && Extends(l, After(l, call))
  {
    if call.Post? {
      IngestExact(l, call.events);
    }
  }

  /**
   Over any calls, accepted or aborted: confirmed intervals of a resource stay
   disjoint, each receipt identity keeps one payload and one valuation, and a
   batch that was accepted once is accepted for good without effect.
   */
  lemma {:induction false} LedgerIsStable(l: Ledger, calls: seq<Call>)
    requires Invariant(l)
    ensures Invariant(Run(l, calls)) && Extends(l, Run(l, calls))
    decreases |calls|
  {
    if calls != [] {
      AfterKeepsInvariant(l, calls[0]);
      LedgerIsStable(After(l, calls[0]), calls[1..]);
    }
  }

  lemma AcceptedBatchesStayAccepted(l: Ledger, events: seq<Event>, calls: seq<Call>)
    requires Invariant(l) && Ingest(l, events).Success?
    ensures var later := Run(After(l, Post(events)), calls);
            Ingest(later, events) == Success(later)
  {
    IngestExact(l, events);
    AfterKeepsInvariant(l, Post(events));
    LedgerIsStable(After(l, Post(events)), calls);
    ReingestIsIdentity(Run(After(l, Post(events)), calls), events);
  }

  // ----- Delivery delay and price -----

  ghost predicate ClockAtLeast(calls: seq<Call>, clock: int) {
    forall i | 0 <= i < |calls| && calls[i].NewRate? :: calls[i].now >= clock
  }

  lemma {:induction false} ForResourceAppend(rates: seq<Rate>, r: Rate, e: Event)
    ensures ForResource(rates + [r], e) ==
            ForResource(rates, e) +
            (if r.tenantId == e.resource.tenantId && ResourceKind(r) == e.resource.kind then [r] else [])
  {
    if rates == [] {
      assert rates + [r] == [r] && [r][1..] == [];
    } else {
      assert (rates + [r])[1..] == rates[1..] + [r];
      ForResourceAppend(rates[1..], r, e);
    }
  }

  lemma {:induction false} LaterVersionNotInForce(rates: seq<Rate>, r: Rate, kind: PriceKind, at: int)
    requires r.effectiveAt > at
    ensures InForce(rates + [r], kind, at) == InForce(rates, kind, at)
  {
    if rates == [] {
      assert rates + [r] == [r] && [r][1..] == [];
    } else {
      assert (rates + [r])[1..] == rates[1..] + [r];
      LaterVersionNotInForce(rates[1..], r, kind, at);
    }
  }

  lemma {:induction false} LaterVersionNotWithin(rates: seq<Rate>, r: Rate, start: int, end: int)
    requires r.effectiveAt >= end
    ensures Within(rates + [r], start, end) == Within(rates, start, end)
  {
    if rates == [] {
      assert rates + [r] == [r] && [r][1..] == [];
    } else {
      assert (rates + [r])[1..] == rates[1..] + [r];
      LaterVersionNotWithin(rates[1..], r, start, end);
    }
  }

  lemma NewVersionKeepsValuation(rates: seq<Rate>, r: Rate, e: Event)
    requires r.effectiveAt >= e.to && r.effectiveAt > e.from
    ensures Valuation(rates + [r], e) == Valuation(rates, e)
  {
    var own, more := ForResource(rates, e), ForResource(rates + [r], e);
    ForResourceAppend(rates, r, e);
    LaterVersionNotInForce(own, r, Customer, e.from);
    LaterVersionNotInForce(own, r, UpstreamEstimate, e.from);
    LaterVersionNotWithin(own, r, e.from, e.to);
    assert more == own || more == own + [r];
    assert Prefiltered(rates + [r], e) == Prefiltered(rates, e);
  }

  /** A receipt that ends by the clock is valued the same now and after any later calls. */
  lemma {:induction false} DelayNeverChangesPrice(l: Ledger, calls: seq<Call>, clock: int, e: Event)
    requires ClockAtLeast(calls, clock)
    requires e.from <= e.to <= clock && e.from < clock
    ensures Valuation(Run(l, calls).rates, e) == Valuation(l.rates, e)
    decreases |calls|
  {
    if calls != [] {
      var call := calls[0];
      if call.NewRate? {
        var r := CreateRate(l.rates, call.tenantId, call.input, call.now, call.id);
        if r.Success? && r.value.0 != l.rates {
          NewVersionKeepsValuation(l.rates, r.value.1, e);
        }
      } else {
        IngestKeepsRates(l, call.events);
      }
      DelayNeverChangesPrice(After(l, call), calls[1..], clock, e);
    }
  }

  lemma {:induction false} IngestKeepsRates(l: Ledger, events: seq<Event>)
    ensures IngestAll(l, events).Success? ==> IngestAll(l, events).value.rates == l.rates
    decreases |events|
  {
    if events != [] && IngestOne(l, events[0]).Success? {
      IngestKeepsRates(IngestOne(l, events[0]).value, events[1..]);
    }
  }

  ghost predicate Versioned(rates: seq<Rate>, e: Event, kind: PriceKind, at: int) {
    exists r :: r in ForResource(rates, e) && r.kind == kind && r.effectiveAt == at
  }

  /**
   The one receipt whose price delay can change: length zero, exactly at the clock.
   It is settled exactly when both price kinds already have a version for that instant.
   */
  lemma ZeroLengthReceiptAtTheClock(l: Ledger, e: Event, clock: int)
    requires OneVersion(l.rates) && WellFormed(e) && e.quality == Confirmed && e.from == e.to == clock
    ensures (forall calls | ClockAtLeast(calls, clock) :: Valuation(Run(l, calls).rates, e) == Valuation(l.rates, e))
            <==> Versioned(l.rates, e, Customer, clock) && Versioned(l.rates, e, UpstreamEstimate, clock)
  {
    if Versioned(l.rates, e, Customer, clock) && Versioned(l.rates, e, UpstreamEstimate, clock) {
      forall calls | ClockAtLeast(calls, clock)
        ensures Valuation(Run(l, calls).rates, e) == Valuation(l.rates, e)
      {
        VersionedInstantIsSettled(l, calls, clock, e);
      }
    } else {
      var kind := if Versioned(l.rates, e, Customer, clock) then UpstreamEstimate else Customer;
      var calls := UnsettlingCall(l, e, kind, clock);
    }
  }

  lemma ZeroLengthValuation(rates: seq<Rate>, e: Event)
    requires e.from == e.to && e.quality == Confirmed
    ensures Valuation(rates, e) == [SegmentOf(e, Prefiltered(rates, e), e.from, e.from)]
  {
    var few := Prefiltered(rates, e);
    BoundsExact(few, e.from, e.to);
    NoCutInsideNothing(few, e.from);
  }

  lemma {:induction false} NoCutInsideNothing(rates: seq<Rate>, at: int)
    ensures Boundaries(rates, at, at) == [at]
  {
    if rates != [] {
      NoCutInsideNothing(rates[1..], at);
    }
  }

  lemma {:induction false} VersionedInstantIsSettled(l: Ledger, calls: seq<Call>, clock: int, e: Event)
    requires OneVersion(l.rates) && ClockAtLeast(calls, clock) && e.quality == Confirmed && e.from == e.to == clock
    requires Versioned(l.rates, e, Customer, clock) && Versioned(l.rates, e, UpstreamEstimate, clock)
    ensures Valuation(Run(l, calls).rates, e) == Valuation(l.rates, e)
    decreases |calls|
  {
    if calls != [] {
      VersionedInstantStep(l, calls[0], e);
      VersionedInstantIsSettled(After(l, calls[0]), calls[1..], clock, e);
    }
  }

  lemma VersionedInstantStep(l: Ledger, call: Call, e: Event)
    requires OneVersion(l.rates) && e.quality == Confirmed && e.from == e.to
    requires Versioned(l.rates, e, Customer, e.from) && Versioned(l.rates, e, UpstreamEstimate, e.from)
    ensures var more := After(l, call).rates;
            && OneVersion(more) && Valuation(more, e) == Valuation(l.rates, e)
            && Versioned(more, e, Customer, e.from) && Versioned(more, e, UpstreamEstimate, e.from)
  {
    var more := After(l, call).rates;
    if call.Post? {
      IngestKeepsRates(l, call.events);
    } else if more != l.rates {
      var r := Version(call.id, call.tenantId, call.input);
      NewSlotKeepsOneVersion(l.rates, r);
      ForResourceAppend(l.rates, r, e);
      InForceAtVersion(l.rates, more, e, Customer);
      InForceAtVersion(l.rates, more, e, UpstreamEstimate);
      ZeroLengthValuation(l.rates, e);
      ZeroLengthValuation(more, e);
    }
  }

  lemma NewSlotKeepsOneVersion(rates: seq<Rate>, r: Rate)
    requires OneVersion(rates) && Stored(rates, r).None?
    ensures OneVersion(rates + [r])
  {
  }

  lemma InForceAtVersion(rates: seq<Rate>, more: seq<Rate>, e: Event, kind: PriceKind)
    requires OneVersion(rates) && OneVersion(more) && e.from == e.to && Versioned(rates, e, kind, e.from)
    requires forall r | r in ForResource(rates, e) :: r in ForResource(more, e)
    ensures InForce(Prefiltered(more, e), kind, e.from) == InForce(Prefiltered(rates, e), kind, e.from)
    ensures Versioned(more, e, kind, e.from)
  {
    var r :| r in ForResource(rates, e) && r.kind == kind && r.effectiveAt == e.from;
    PrefilterKeepsInForce(rates, e, kind, e.from);
    PrefilterKeepsInForce(more, e, kind, e.from);
    InForceExact(ForResource(rates, e), kind, e.from);
    InForceExact(ForResource(more, e), kind, e.from);
    assert r in ForResource(more, e);
  }

  lemma UnsettlingCall(l: Ledger, e: Event, kind: PriceKind, clock: int) returns (calls: seq<Call>)
    requires OneVersion(l.rates) && WellFormed(e) && e.quality == Confirmed && e.from == e.to == clock
    requires !Versioned(l.rates, e, kind, clock)
    ensures ClockAtLeast(calls, clock) && Valuation(Run(l, calls).rates, e) != Valuation(l.rates, e)
  {
    var free: Tariffed := Price("0", "");
    var tariff := if e.resource.kind == Compute then ComputeTariff(free, free) else WorkspaceTariff(free);
    var before := InForce(ForResource(l.rates, e), kind, clock);
    var id := if before.Some? then before.value.id + 1 else 0;
    var input := RateInput(kind, clock, "USD", tariff);
    var r := Version(id, e.resource.tenantId, input);
    var call := NewRate(e.resource.tenantId, input, clock, id);
    calls := [call];
    FreeSlot(l.rates, r, e);
    assert calls[1..] == [];
    assert Run(l, calls).rates == l.rates + [r];
    UnsettlingVersion(l.rates, r, e, kind);
  }

  lemma FreeSlot(rates: seq<Rate>, r: Rate, e: Event)
    requires !Versioned(rates, e, r.kind, r.effectiveAt)
    requires r.tenantId == e.resource.tenantId && ResourceKind(r) == e.resource.kind
    ensures Stored(rates, r).None?
  {
    assert forall x | x in rates && SameSlot(x, r) :: x in ForResource(rates, e);
  }

  lemma {:induction false} UnsettlingVersion(rates: seq<Rate>, r: Rate, e: Event, kind: PriceKind)
    requires OneVersion(rates) && WellFormed(e) && e.quality == Confirmed && e.from == e.to == r.effectiveAt
    requires Stored(rates, r).None? && r.kind == kind
    requires r.tenantId == e.resource.tenantId && ResourceKind(r) == e.resource.kind
    requires InForce(ForResource(rates, e), kind, e.from).Some? ==>
               InForce(ForResource(rates, e), kind, e.from).value.id != r.id
    ensures Valuation(rates + [r], e) != Valuation(rates, e)
  {
    var own := ForResource(rates, e);
    ForResourceAppend(rates, r, e);
    NewSlotKeepsOneVersion(rates, r);
    ZeroLengthValuation(rates, e);
    ZeroLengthValuation(rates + [r], e);
    PrefilterKeepsInForce(rates, e, kind, e.from);
    PrefilterKeepsInForce(rates + [r], e, kind, e.from);
    AppendedIsInForce(own, r, kind, e.from);
  }

  lemma AppendedIsInForce(own: seq<Rate>, r: Rate, kind: PriceKind, at: int)
    requires r.kind == kind && r.effectiveAt == at
    requires forall x | x in own && x.kind == kind :: x.effectiveAt != at
    ensures InForce(own + [r], kind, at) == Some(r)
  {
    InForceExact(own + [r], kind, at);
    assert r in own + [r];
  }

  // ----- The service in place -----

  class ResourceMeteringService {
    var resources: map<Key, Identity>
    var rows: map<nat, LedgerRow>
    var rates: seq<Rate>

    ghost function Contents(): Ledger
      reads this
    {
      Ledger(resources, rows, rates)
    }

    ghost predicate Valid()
      reads this
    {
      Invariant(Contents())
    }

    constructor ()
      ensures Valid() && Contents() == EMPTY_LEDGER
    {
      resources, rows, rates := map[], map[], [];
    }

    /** `ordered` is the batch as sorted for locking; a refusal rolls the whole batch back. */
    method Ingest(events: seq<Event>, ordered: seq<Event>) returns (r: Result<nat, Refusal>)
      requires Valid()
      requires multiset(ordered) == multiset(events)
      modifies this`resources, this`rows
      ensures Valid()
      ensures r.Success? <==> Parsed(events) && Admissible(old(Contents()), events)
      ensures r.Success? ==> r.value == |events| && Records(old(Contents()), events, Contents())
      ensures Contents() == After(old(Contents()), Post(events))
    {
      hide Admissible, Records, Extends, Invariant, IngestAll, After, Parsed;
      RefusedChangesNothing(Contents(), events);
      var parsed := IsParsed(events);
      if !parsed {
        return Failure(InvalidBatch);
      }
      SameMembers(ordered, events);
      BatchOutcome(Contents(), events, ordered);
      var tx := Transaction(ordered);
      if tx.Failure? {
        return Failure(tx.error);
      }
      resources, rows := tx.value.resources, tx.value.rows;
      return Success(|events|);
    }

    method IsParsed(events: seq<Event>) returns (parsed: bool)
      ensures parsed == Parsed(events)
    {
      return 1 <= |events| <= MAX_BATCH && forall i | 0 <= i < |events| :: WellFormed(events[i]);
    }

    method Transaction(ordered: seq<Event>) returns (r: Result<Ledger, Refusal>)
      ensures r == IngestAll(Contents(), ordered)
    {
      var tx := Ledger(resources, rows, rates);
      for i := 0 to |ordered|
        invariant IngestAll(Contents(), ordered) == IngestAll(tx, ordered[i..])
      {
        assert ordered[i..][0] == ordered[i] && ordered[i..][1..] == ordered[i + 1..];
        var one := Admit(tx, ordered[i]);
        if one.Failure? {
          return one;
        }
        tx := one.value;
      }
      return Success(tx);
    }

    /** One receipt inside the transaction. */
    method Admit(tx: Ledger, e: Event) returns (r: Result<Ledger, Refusal>)
      ensures r == IngestOne(tx, e)
    {
      var next, key := tx, KeyOf(e.resource);
      if key !in next.resources {
        next := next.(resources := next.resources[key := e.resource]);
      }
      if next.resources[key] != e.resource {
        return Failure(IdentityChanged);
      }
      if e.id in next.rows {
        if next.rows[e.id].event != e {
          return Failure(ReceiptChanged);
        }
        return Success(next);
      }
      if Chargeable(e) {
        if exists id | id in next.rows :: Conflicts(next.rows[id].event, e) {
          return Failure(IntervalsOverlap);
        }
      }
      var read := if e.quality == Confirmed then Prefiltered(next.rates, e) else [];
      return Success(next.(rows := next.rows[e.id := LedgerRow(e, ValueReceipt(e, read))]));
    }

    method NewVersion(tenantId: Uuid, input: RateInput, now: int, id: nat) returns (r: Result<Rate, Refusal>)
      requires Valid()
      modifies this`rates
      ensures Valid()
      ensures Contents() == After(old(Contents()), NewRate(tenantId, input, now, id))
      ensures r.Success? ==> r.value in rates && r.value.(id := id) == Version(id, tenantId, input)
      ensures r.Failure? <==>
                (exists x :: x in old(rates) && SameSlot(x, Version(id, tenantId, input))
                             && x.(id := id) != Version(id, tenantId, input))
                || (input.effectiveAt < now && forall x | x in old(rates) :: !SameSlot(x, Version(id, tenantId, input)))
    {
      var slot := Version(id, tenantId, input);
      var stored := Stored(rates, slot);
      if stored.Some? {
        if stored.value.(id := id) != slot {
          return Failure(VersionChanged);
        }
        return Success(stored.value);
      }
      if input.effectiveAt < now {
        return Failure(NotInFuture);
      }
      rates := rates + [slot];
      return Success(slot);
    }
  }

  lemma BatchOutcome(l: Ledger, events: seq<Event>, ordered: seq<Event>)
    requires Invariant(l) && Parsed(events)
    requires forall e :: e in ordered <==> e in events
    ensures IngestAll(l, ordered).Success? <==> Admissible(l, events)
    ensures IngestAll(l, ordered).Success? ==>
              var later := IngestAll(l, ordered).value;
              && later == After(l, Post(events)) && later.rates == l.rates
              && Invariant(later) && Records(l, events, later)
    ensures IngestAll(l, ordered).Failure? ==> After(l, Post(events)) == l
  {
    OrderIsIrrelevant(l, ordered, events);
    IngestExact(l, events);
    IngestKeepsRates(l, ordered);
  }

  lemma RefusedChangesNothing(l: Ledger, events: seq<Event>)
    ensures !Parsed(events) ==> After(l, Post(events)) == l
  {
  }

  lemma SameMembers(a: seq<Event>, b: seq<Event>)
    requires multiset(a) == multiset(b)
    ensures |a| == |b| && forall e :: e in a <==> e in b
  {
    assert |multiset(a)| == |a| && |multiset(b)| == |b|;
    assert forall e :: e in a <==> e in multiset(a);
    assert forall e :: e in b <==> e in multiset(b);
  }
}
