/**
 The whole path of a receipt: captures, failed captures, restarts, deliveries,
 lost acknowledgements and duplicate deliveries, in any order, against the ledger
 of the accounting service. A `World` also records history that no component keeps.
 */
module MeteringPipeline {
  import opened Wrappers
  import opened ResourceTypes
  import opened J = ResourceJournal
  import L = ResourceLedger

  /** The latest capture of a resource by the running process. */
  datatype Attempt = Attempt(sample: Sample, succeeded: bool)

  /** One stretch of a cursor's advance: covered by a receipt, or left uncovered by a sample. */
  datatype Piece =
    | Receipt(event: Event)
    | Uncovered(from: int, to: int, prior: Cursor, sample: Sample)

  /** How a cursor advanced since its first capture, and how many receipts preceded that. */
  datatype Coverage = Coverage(start: int, since: nat, pieces: seq<Piece>)

  datatype World = World(
    journal: State,
    ledger: L.Ledger,
    emitted: seq<Event>,
    boots: set<nat>,
    batches: set<seq<Row>>,
    accepted: set<seq<Row>>,
    attempts: map<Key, Attempt>,
    coverage: map<Key, Coverage>)

  datatype Step =
    | Capture(sample: Sample, eventId: nat, io: Io)
    | Restart(bootId: nat)
    | Read
    | Post(rows: seq<Row>)
    | Acknowledge(rows: seq<Row>)
    | NewRate(tenantId: Uuid, input: L.RateInput, now: int, id: nat)

  function Initial(sourceId: string, bootId: nat): World {
    World(State(EMPTY_STORE.(counter := Some(0)), sourceId, bootId, map[]), L.EMPTY_LEDGER, [],
          {bootId}, {}, {}, map[], map[])
  }

  function Events(rows: seq<Row>): seq<Event> {
    seq(|rows|, i requires 0 <= i < |rows| => rows[i].event)
  }

  // ----- Steps -----

  /** A new cursor keeps the owner, and charges may follow it only where none was made before. */
  predicate Resumes(s: Sample, e: Event) {
    e.resource == s.resource && (s.state != Absent && Chargeable(e) ==> e.to <= s.at)
  }

  /**
   The assumption on callers: when a capture creates a cursor for a resource that already
   has receipts, so that its former cursor was collected, the sample resumes from each of them.
   */
  ghost predicate Continues(w: World, s: Sample, eventId: nat, io: Io) {
    ContinuesTo(w, CaptureStep(w, s, eventId, io), s)
  }

  ghost predicate ContinuesTo(w: World, w': World, s: Sample) {
    KeyOf(s.resource) !in w.journal.store.cursors && KeyOf(s.resource) in w'.journal.store.cursors ==>
      forall e | e in w.emitted && KeyOf(e.resource) == KeyOf(s.resource) :: Resumes(s, e)
  }

  /** What the environment guarantees by itself: fresh identifiers, and messages that were sent. */
  ghost predicate Possible(w: World, step: Step) {
    match step
    case Capture(_, eventId, _) => forall e | e in w.emitted :: e.id != eventId
    case Restart(bootId) => bootId !in w.boots
    case Post(rows) => rows in w.batches
    case Acknowledge(rows) => rows in w.accepted
    case _ => true
  }

  ghost predicate Enabled(w: World, step: Step) {
    Possible(w, step) && (step.Capture? ==> Continues(w, step.sample, step.eventId, step.io))
  }

  function Pieces(prior: Cursor, next: Cursor, e: Option<Event>, s: Sample): seq<Piece> {
    if e.None? then [Uncovered(prior.at, next.at, prior, s)]
    else [Uncovered(prior.at, e.value.from, prior, s), Receipt(e.value), Uncovered(e.value.to, next.at, prior, s)]
  }

  function CoverageAfter(w: World, s: Sample, c: Committed): map<Key, Coverage>
    requires KeyOf(s.resource) in c.store.cursors
  {
    var key := KeyOf(s.resource);
    var was := if key in w.coverage then w.coverage[key] else Coverage(0, 0, []);
    w.coverage[key :=
      if key !in w.journal.store.cursors then Coverage(s.at, |w.emitted| + 1, [])
      else was.(pieces := was.pieces + Pieces(w.journal.store.cursors[key], c.store.cursors[key], c.emitted, s))]
  }

  function CaptureStep(w: World, s: Sample, eventId: nat, io: Io): World {
    var out := Outcome(w.journal, s, eventId, io);
    var key := KeyOf(s.resource);
    var w' := w.(journal := Captured(w.journal, s, eventId, io),
                 attempts := if Acceptable(s) then w.attempts[key := Attempt(s, out.Success?)] else w.attempts);
    if out.Failure? || !out.value.captured || key !in out.value.store.cursors then w' else
    w'.(emitted := if out.value.emitted.Some? then w.emitted + [out.value.emitted.value] else w.emitted,
        coverage := CoverageAfter(w, s, out.value))
  }

  ghost function Next(w: World, step: Step): World {
    match step
    case Capture(s, eventId, io) => CaptureStep(w, s, eventId, io)
    case Restart(bootId) =>
      w.(journal := w.journal.(bootId := bootId, observations := map[]),
         boots := w.boots + {bootId}, attempts := map[])
    case Read =>
      var pending := w.journal.store.pending;
      var rows := pending[..if |pending| < BATCH_LIMIT then |pending| else BATCH_LIMIT];
      if rows == [] then w else w.(batches := w.batches + {rows})
    case Post(rows) =>
      var r := L.Ingest(w.ledger, Events(rows));
      if r.Failure? then w else w.(ledger := r.value, accepted := w.accepted + {rows})
    case Acknowledge(rows) =>
      if Matches(w.journal.store.pending, rows) then w.(journal := Acknowledged(w.journal, rows)) else w
    case NewRate(tenantId, input, now, id) =>
      w.(ledger := L.After(w.ledger, L.NewRate(tenantId, input, now, id)))
  }

  ghost predicate Legal(w: World, steps: seq<Step>)
    decreases |steps|
  {
    steps == [] || (Enabled(w, steps[0]) && Legal(Next(w, steps[0]), steps[1..]))
  }

  ghost function Run(w: World, steps: seq<Step>): World
    decreases |steps|
  {
    if steps == [] then w else Run(Next(w, steps[0]), steps[1..])
  }

  // ----- What every reachable world satisfies -----

  ghost predicate Issued(w: World, row: Row) {
    0 < row.key <= |w.emitted| && row.event == w.emitted[row.key - 1]
  }

  ghost predicate Recorded(l: L.Ledger, e: Event) {
    && e.id in l.rows && l.rows[e.id].event == e
    && KeyOf(e.resource) in l.resources && l.resources[KeyOf(e.resource)] == e.resource
  }

  /** Row keys name receipts for good, in the outbox, in batches and in acknowledgements. */
  ghost predicate RowsIssued(w: World) {
    && w.journal.store.sequence == |w.emitted|
    && (forall r | r in w.journal.store.pending :: Issued(w, r))
    && (forall b | b in w.batches :: 1 <= |b| <= BATCH_LIMIT && forall r | r in b :: Issued(w, r))
    && (forall b | b in w.accepted :: forall r | r in b :: Issued(w, r) && Recorded(w.ledger, r.event))
  }

  /** No receipt is lost: it is in the outbox or in the ledger, and the ledger holds nothing else. */
  ghost predicate Conserved(w: World) {
    && (forall i | 0 <= i < |w.emitted| ::
          Recorded(w.ledger, w.emitted[i]) || Row(i + 1, w.emitted[i]) in w.journal.store.pending)
    && (forall id | id in w.ledger.rows :: w.ledger.rows[id].event in w.emitted)
    && (forall k | k in w.ledger.resources ::
          exists e :: e in w.emitted && KeyOf(e.resource) == k && e.resource == w.ledger.resources[k])
  }

  /** Receipts are distinct, and those of one resource name one owner and charge disjoint time in order. */
  ghost predicate Consistent(emitted: seq<Event>) {
    && (forall i | 0 <= i < |emitted| :: WellFormed(emitted[i]))
    && (forall i, j | 0 <= i < j < |emitted| :: emitted[i].id != emitted[j].id)
    && (forall i, j | 0 <= i < j < |emitted| && KeyOf(emitted[i].resource) == KeyOf(emitted[j].resource) ::
          emitted[i].resource == emitted[j].resource
          && (Chargeable(emitted[i]) && Chargeable(emitted[j]) ==> emitted[i].to <= emitted[j].from))
  }

  /** A cursor that can still lead to a charge is never behind the time its resource was charged for. */
  ghost predicate CursorsLead(w: World) {
    && (forall k, i | k in w.journal.store.cursors && 0 <= i < |w.emitted| && KeyOf(w.emitted[i].resource) == k ::
          w.emitted[i].resource == w.journal.store.cursors[k].resource
          && (w.journal.store.cursors[k].state != Absent && Chargeable(w.emitted[i]) ==>
                w.emitted[i].to <= w.journal.store.cursors[k].at))
    && (forall i | 0 <= i < |w.emitted| && KeyOf(w.emitted[i].resource) !in w.journal.store.cursors ::
          Recorded(w.ledger, w.emitted[i]))
  }

  ghost predicate Booted(w: World) {
    && w.journal.bootId in w.boots
    && (forall k | k in w.journal.store.cursors :: w.journal.store.cursors[k].bootId in w.boots)
  }

  /** What the delivery of receipts relies on. */
  ghost predicate Delivering(w: World) {
    J.Invariant(w.journal) && L.Invariant(w.ledger) && RowsIssued(w) && Conserved(w) && Consistent(w.emitted)
  }

  ghost predicate Delivers(w: World) {
    Delivering(w) && CursorsLead(w) && Booted(w)
  }

  // ----- Captures -----

  /** A capture does nothing to the records, or moves one cursor forward and may append one receipt. */
  ghost predicate CaptureEffect(w: World, w': World, s: Sample, eventId: nat) {
    var key, prior := KeyOf(s.resource), Lookup(w.journal.store.cursors, KeyOf(s.resource));
    var next := Lookup(w'.journal.store.cursors, KeyOf(s.resource));
    && w'.ledger == w.ledger && w'.batches == w.batches && w'.accepted == w.accepted
    && w'.boots == w.boots && w'.journal.bootId == w.journal.bootId
    && (forall k | k != key :: Lookup(w'.journal.store.cursors, k) == Lookup(w.journal.store.cursors, k))
    && (if w'.journal.store == w.journal.store && w'.emitted == w.emitted then true
        else
          && next.Some? && next.value.resource == s.resource && next.value.bootId == w.journal.bootId
          && (prior.Some? ==> prior.value.resource == s.resource)
          && next.value.state == s.state && (prior.Some? && prior.value.state == Absent ==> s.state == Absent)
          && next.value.at == (if prior.None? then s.at else Max(s.at, prior.value.at))
          && (if w'.emitted == w.emitted then
                w'.journal.store.pending == w.journal.store.pending
                && w'.journal.store.sequence == w.journal.store.sequence
              else
                && |w'.emitted| == |w.emitted| + 1 && w'.emitted[..|w.emitted|] == w.emitted
                && w'.journal.store.sequence == w.journal.store.sequence + 1
                && var e := w'.emitted[|w.emitted|];
                && w'.journal.store.pending == w.journal.store.pending + [Row(w'.journal.store.sequence, e)]
                && e.id == eventId && e.resource == s.resource && WellFormed(e) && e.to <= next.value.at
                && (prior.Some? ==> prior.value.at <= e.from)
                && (Chargeable(e) ==> prior.Some? && prior.value.state != Absent)))
  }

  lemma CaptureFacts(j: State, s: Sample, eventId: nat, io: Io)
    requires J.Invariant(j) && Outcome(j, s, eventId, io).Success?
    ensures var c := Outcome(j, s, eventId, io).value;
            var key, prior := KeyOf(s.resource), Lookup(j.store.cursors, KeyOf(s.resource));
            && (prior.Some? ==> prior.value.resource == s.resource)
            && (forall k | k != key :: Lookup(c.store.cursors, k) == Lookup(j.store.cursors, k))
            && (!c.captured ==> c.store == j.store && c.emitted.None?)
            && (c.captured ==>
                  && key in c.store.cursors && c.store.cursors[key].resource == s.resource
                  && c.store.cursors[key].bootId == j.bootId && c.store.cursors[key].state == s.state
                  && (prior.Some? && prior.value.state == Absent ==> s.state == Absent)
                  && c.store.cursors[key].at == (if prior.None? then s.at else Max(s.at, prior.value.at)))
            && (c.emitted.None? ==> c.store.pending == j.store.pending && c.store.sequence == j.store.sequence)
            && (c.emitted.Some? ==>
                  var e := c.emitted.value;
                  && c.captured && e.id == eventId && e.resource == s.resource && WellFormed(e)
                  && e.to <= c.store.cursors[key].at
                  && (prior.Some? ==> prior.value.at <= e.from)
                  && (Chargeable(e) ==> prior.Some? && prior.value.state != Absent)
                  && c.store.sequence == j.store.sequence + 1
                  && c.store.pending == j.store.pending + [Row(c.store.sequence, e)])
  {
    var s' := Annotated(s, Lookup(j.observations, KeyOf(s.resource)));
    ReceiptWithinCursorMove(j.store, s', j.sourceId, j.bootId, eventId);
    ChargeShape(j.store, s', j.sourceId, j.bootId, eventId);
    TransactMovesOneCursor(j.store, s', j.sourceId, j.bootId, eventId);
  }

  lemma CaptureHasEffect(w: World, s: Sample, eventId: nat, io: Io)
    requires J.Invariant(w.journal)
    ensures CaptureEffect(w, CaptureStep(w, s, eventId, io), s, eventId)
  {
    if Outcome(w.journal, s, eventId, io).Success? {
      CaptureFacts(w.journal, s, eventId, io);
      hide Outcome, J.Invariant;
    }
  }

  /** A new receipt names the owner of the earlier ones and charges only later time. */
  ghost predicate Follows(emitted: seq<Event>, e: Event) {
    && (forall x | x in emitted :: x.id != e.id)
    && (forall x | x in emitted && KeyOf(x.resource) == KeyOf(e.resource) ::
          x.resource == e.resource && (Chargeable(x) && Chargeable(e) ==> x.to <= e.from))
  }

  lemma AppendKeepsConsistent(emitted: seq<Event>, e: Event)
    requires Consistent(emitted) && WellFormed(e) && Follows(emitted, e)
    ensures Consistent(emitted + [e])
  {
    forall i | 0 <= i < |emitted| ensures (emitted + [e])[i] == emitted[i] && emitted[i] in emitted {
    }
    hide WellFormed, Chargeable;
  }

  lemma CaptureKeepsConsistent(w: World, w': World, s: Sample, eventId: nat)
    requires CaptureEffect(w, w', s, eventId)
    requires Consistent(w.emitted) && CursorsLead(w) && ContinuesTo(w, w', s)
    requires forall e | e in w.emitted :: e.id != eventId
    ensures Consistent(w'.emitted)
  {
    if w'.emitted != w.emitted {
      var e := w'.emitted[|w.emitted|];
      assert w'.emitted == w.emitted + [e];
      forall x | x in w.emitted && KeyOf(x.resource) == KeyOf(e.resource)
        ensures x.resource == e.resource && (Chargeable(x) && Chargeable(e) ==> x.to <= e.from)
      {
        var i :| 0 <= i < |w.emitted| && w.emitted[i] == x;
      }
      AppendKeepsConsistent(w.emitted, e);
    }
  }

  lemma CaptureKeepsCursors(w: World, w': World, s: Sample, eventId: nat)
    requires CaptureEffect(w, w', s, eventId)
    requires CursorsLead(w) && Booted(w) && ContinuesTo(w, w', s)
    ensures CursorsLead(w') && Booted(w')
  {
    var cursors, cursors' := w.journal.store.cursors, w'.journal.store.cursors;
    forall k | k != KeyOf(s.resource)
      ensures k in cursors <==> k in cursors'
      ensures k in cursors ==> cursors'[k] == cursors[k]
    {
      assert Lookup(cursors', k) == Lookup(cursors, k);
    }
    forall i | 0 <= i < |w.emitted|
      ensures i < |w'.emitted| && w'.emitted[i] == w.emitted[i] && w.emitted[i] in w.emitted
    {
      assert w'.emitted != w.emitted ==> w'.emitted[i] == w'.emitted[..|w.emitted|][i];
    }
  }

  lemma CaptureKeepsRows(w: World, w': World, s: Sample, eventId: nat)
    requires CaptureEffect(w, w', s, eventId)
    requires RowsIssued(w) && Conserved(w)
    ensures RowsIssued(w') && Conserved(w')
  {
    forall i | 0 <= i < |w.emitted|
      ensures i < |w'.emitted| && w'.emitted[i] == w.emitted[i] && w.emitted[i] in w'.emitted
    {
      assert w'.emitted != w.emitted ==> w'.emitted[i] == w'.emitted[..|w.emitted|][i];
    }
    CaptureKeepsIssued(w, w', s, eventId);
  }

  lemma CaptureKeepsIssued(w: World, w': World, s: Sample, eventId: nat)
    requires CaptureEffect(w, w', s, eventId) && RowsIssued(w)
    ensures RowsIssued(w')
  {
    forall r: Row | Issued(w, r) ensures Issued(w', r) {
      assert w'.emitted != w.emitted ==> w'.emitted[r.key - 1] == w'.emitted[..|w.emitted|][r.key - 1];
    }
    hide Recorded, Lookup, WellFormed, Chargeable;
  }

  // ----- Deliveries -----

  lemma EmittedAgree(emitted: seq<Event>, a: Event, b: Event)
    requires Consistent(emitted) && a in emitted && b in emitted
    ensures L.Agree(a, b)
  {
    var i :| 0 <= i < |emitted| && emitted[i] == a;
    var j :| 0 <= j < |emitted| && emitted[j] == b;
  }

  /** What was emitted agrees with itself and with the ledger. */
  lemma EmittedIsAdmissible(w: World, e: Event)
    requires L.Invariant(w.ledger) && Conserved(w) && Consistent(w.emitted) && e in w.emitted
    ensures WellFormed(e) && L.Compatible(w.ledger, e)
    ensures forall x | x in w.emitted :: L.Agree(x, e)
  {
    hide Recorded;
    var i :| 0 <= i < |w.emitted| && w.emitted[i] == e;
    forall x | x in w.emitted ensures L.Agree(x, e) {
      EmittedAgree(w.emitted, x, e);
    }
    hide Consistent;
    var key := KeyOf(e.resource);
    if key in w.ledger.resources {
      var x :| x in w.emitted && KeyOf(x.resource) == key && x.resource == w.ledger.resources[key];
      assert L.Agree(x, e);
    }
  }

  lemma BatchWasEmitted(w: World, rows: seq<Row>)
    requires RowsIssued(w) && rows in w.batches
    ensures 1 <= |Events(rows)| <= BATCH_LIMIT
    ensures forall r | r in rows :: r.event in Events(rows) && r.event in w.emitted
    ensures forall e | e in Events(rows) :: e in w.emitted
  {
    var es := Events(rows);
    hide Recorded;
    forall e | e in es ensures e in w.emitted {
      var i :| 0 <= i < |rows| && es[i] == e;
      assert rows[i] in rows && Issued(w, rows[i]);
    }
    forall r | r in rows ensures r.event in es && r.event in w.emitted {
      var i :| 0 <= i < |rows| && rows[i] == r;
      assert es[i] == r.event;
    }
  }

  /** No batch the journal ever read is refused, however late or often it is posted. */
  lemma DeliveryIsAccepted(w: World, rows: seq<Row>)
    requires Delivering(w) && rows in w.batches
    ensures L.Ingest(w.ledger, Events(rows)).Success?
    ensures var l := L.Ingest(w.ledger, Events(rows)).value;
            L.Invariant(l) && L.Records(w.ledger, Events(rows), l)
    ensures forall r | r in rows :: r.event in Events(rows) && r.event in w.emitted
    ensures forall e | e in Events(rows) :: e in w.emitted
  {
    var es := Events(rows);
    BatchWasEmitted(w, rows);
    hide Recorded, J.Invariant, RowsIssued, Events, L.Compatible, L.Agree;
    forall e | e in es ensures WellFormed(e) && L.Compatible(w.ledger, e) && forall x | x in es :: L.Agree(x, e) {
      EmittedIsAdmissible(w, e);
    }
    hide Conserved, Consistent, L.Invariant, WellFormed, L.Ingest, L.Records;
    assert L.Parsed(es) && L.Admissible(w.ledger, es);
    L.AdmissibleIsAccepted(w.ledger, es);
  }

  lemma PostKeepsDelivering(w: World, rows: seq<Row>)
    requires Delivering(w) && rows in w.batches
    ensures var w' := Next(w, Post(rows));
            && Delivering(w') && rows in w'.accepted && w' == w.(ledger := w'.ledger, accepted := w.accepted + {rows})
            && (forall e | Recorded(w.ledger, e) :: Recorded(w'.ledger, e))
  {
    hide L.Ingest, L.Records, J.Invariant, L.Invariant, Consistent, Recorded, Events;
    hide RowsIssued, Conserved;
    DeliveryIsAccepted(w, rows);
    var w' := Next(w, Post(rows));
    RecordedGrows(w.ledger, Events(rows), w'.ledger);
    PostKeepsRows(w, w', rows);
    PostKeepsConserved(w, w', Events(rows));
  }

  lemma PostKeepsDelivers(w: World, rows: seq<Row>)
    requires Delivers(w) && rows in w.batches
    ensures Delivers(Next(w, Post(rows)))
  {
    hide Delivering, CursorsLead, Booted, Next, Recorded;
    PostKeepsDelivering(w, rows);
    PostKeepsCursors(w, Next(w, Post(rows)));
  }

  lemma PostKeepsCursors(w: World, w': World)
    requires CursorsLead(w) && Booted(w)
    requires w'.emitted == w.emitted && w'.journal == w.journal && w'.boots == w.boots
    requires forall e | Recorded(w.ledger, e) :: Recorded(w'.ledger, e)
    ensures CursorsLead(w') && Booted(w')
  {
    hide Recorded;
  }

  lemma RecordedGrows(l: L.Ledger, es: seq<Event>, later: L.Ledger)
    requires L.Records(l, es, later)
    ensures forall e | Recorded(l, e) :: Recorded(later, e)
    ensures forall e | e in es :: Recorded(later, e)
  {
  }

  lemma PostKeepsRows(w: World, w': World, rows: seq<Row>)
    requires RowsIssued(w) && rows in w.batches
    requires w' == w.(ledger := w'.ledger, accepted := w.accepted + {rows})
    requires forall e | Recorded(w.ledger, e) :: Recorded(w'.ledger, e)
    requires forall r | r in rows :: Recorded(w'.ledger, r.event)
    ensures RowsIssued(w')
  {
    forall r: Row ensures Issued(w', r) == Issued(w, r) {
    }
    hide Recorded;
  }

  lemma PostKeepsConserved(w: World, w': World, es: seq<Event>)
    requires Conserved(w) && w'.emitted == w.emitted && w'.journal == w.journal
    requires forall e | e in es :: e in w.emitted
    requires L.Records(w.ledger, es, w'.ledger)
    requires forall e | Recorded(w.ledger, e) :: Recorded(w'.ledger, e)
    ensures Conserved(w')
  {
    hide Recorded, L.Records;
    forall id | id in w'.ledger.rows ensures w'.ledger.rows[id].event in w.emitted {
      PostedRow(w.ledger, es, w'.ledger, id);
    }
    forall k | k in w'.ledger.resources
      ensures exists e :: e in w'.emitted && KeyOf(e.resource) == k && e.resource == w'.ledger.resources[k]
    {
      PostedResource(w.ledger, es, w'.ledger, k);
    }
  }

  lemma PostedRow(l: L.Ledger, es: seq<Event>, later: L.Ledger, id: nat)
    requires L.Records(l, es, later) && id in later.rows
    ensures (id in l.rows && later.rows[id] == l.rows[id]) || later.rows[id].event in es
  {
  }

  lemma PostedResource(l: L.Ledger, es: seq<Event>, later: L.Ledger, k: Key)
    requires L.Records(l, es, later) && k in later.resources
    ensures (k in l.resources && later.resources[k] == l.resources[k])
            || exists e :: e in es && KeyOf(e.resource) == k && e.resource == later.resources[k]
  {
  }

  /** An acknowledgement of delivered rows always finds the outbox unchanged under their keys. */
  lemma AcknowledgementMatches(w: World, rows: seq<Row>)
    requires Delivering(w) && rows in w.accepted
    ensures Matches(w.journal.store.pending, rows)
  {
    forall x, i | x in w.journal.store.pending && 0 <= i < |rows| && x.key == rows[i].key
      ensures x == rows[i]
    {
      assert Issued(w, x) && Issued(w, rows[i]);
    }
  }

  lemma AcknowledgeKeepsDelivering(w: World, rows: seq<Row>)
    requires Delivering(w) && rows in w.accepted
    ensures var w' := Next(w, Acknowledge(rows));
            && Delivering(w') && w' == w.(journal := Acknowledged(w.journal, rows))
            && (CursorsLead(w) ==> CursorsLead(w'))
  {
    AcknowledgementMatches(w, rows);
    AcknowledgeKeepsInvariant(w.journal, rows);
    var w' := w.(journal := Acknowledged(w.journal, rows));
    AcknowledgeNext(w, rows);
    hide Next, Matches;
    AcknowledgeKeepsConserved(w, rows, w');
    AcknowledgeKeepsRows(w, rows, w');
    hide Consistent, L.Invariant, J.Invariant, Conserved, RowsIssued, CursorsLead, Acknowledged;
  }

  lemma AcknowledgeKeepsDelivers(w: World, rows: seq<Row>)
    requires Delivers(w) && rows in w.accepted
    ensures Delivers(Next(w, Acknowledge(rows)))
  {
    hide Delivering, CursorsLead, Booted, Next, Acknowledged;
    AcknowledgeKeepsDelivering(w, rows);
    AcknowledgeKeepsBooted(w, rows);
  }

  lemma AcknowledgeNext(w: World, rows: seq<Row>)
    requires Matches(w.journal.store.pending, rows)
    ensures Next(w, Acknowledge(rows)) == w.(journal := Acknowledged(w.journal, rows))
  {
    hide Matches, Acknowledged;
  }

  lemma AcknowledgeKeepsBooted(w: World, rows: seq<Row>)
    requires Booted(w)
    ensures Booted(w.(journal := Acknowledged(w.journal, rows)))
  {
    hide Without;
  }

  lemma AcknowledgeKeepsRows(w: World, rows: seq<Row>, w': World)
    requires RowsIssued(w) && w' == w.(journal := Acknowledged(w.journal, rows))
    ensures RowsIssued(w')
  {
    forall r: Row ensures Issued(w', r) == Issued(w, r) {
    }
    hide Recorded;
  }

  lemma AcknowledgeKeepsConserved(w: World, rows: seq<Row>, w': World)
    requires RowsIssued(w) && Conserved(w) && rows in w.accepted
    requires w' == w.(journal := Acknowledged(w.journal, rows))
    ensures Conserved(w') && (CursorsLead(w) ==> CursorsLead(w'))
  {
    hide Recorded;
    var pending, pending' := w.journal.store.pending, w'.journal.store.pending;
    forall i | 0 <= i < |w.emitted| && Row(i + 1, w.emitted[i]) !in pending' ensures Recorded(w.ledger, w.emitted[i]) {
      if Row(i + 1, w.emitted[i]) in pending {
        assert i + 1 in Keys(rows);
        var r :| r in rows && r.key == i + 1;
        assert Issued(w, r);
      }
    }
    if pending' == [] {
      forall i | 0 <= i < |w.emitted| ensures Recorded(w.ledger, w.emitted[i]) {
        assert Row(i + 1, w.emitted[i]) !in pending';
      }
    }
  }

  /** Only the rates of the ledger change. */
  lemma RateKeepsDelivers(w: World, l: L.Ledger)
    requires Delivers(w) && L.Invariant(l) && l.rows == w.ledger.rows && l.resources == w.ledger.resources
    ensures Delivers(w.(ledger := l))
  {
    var w' := w.(ledger := l);
    hide L.Invariant, J.Invariant, Consistent;
    assert forall e :: Recorded(w'.ledger, e) == Recorded(w.ledger, e);
    hide Recorded;
    assert forall r: Row :: Issued(w', r) == Issued(w, r);
    hide Issued;
  }

  lemma RestartKeepsJournal(j: State, bootId: nat)
    requires J.Invariant(j) && forall k | k in j.store.cursors :: j.store.cursors[k].bootId != bootId
    ensures J.Invariant(j.(bootId := bootId, observations := map[]))
  {
    hide J.Sound;
  }

  lemma RestartKeepsDelivers(w: World, bootId: nat)
    requires Delivers(w) && bootId !in w.boots
    ensures Delivers(Next(w, Restart(bootId)))
  {
    var w' := Next(w, Restart(bootId));
    assert forall k | k in w.journal.store.cursors :: w.journal.store.cursors[k].bootId in w.boots;
    RestartKeepsJournal(w.journal, bootId);
    SameStore(w, w');
    hide L.Invariant, J.Invariant, Consistent, RowsIssued, Conserved, CursorsLead;
  }

  lemma SameStore(w: World, w': World)
    requires w'.journal.store == w.journal.store && w'.ledger == w.ledger && w'.emitted == w.emitted
    requires w'.batches == w.batches && w'.accepted == w.accepted
    ensures RowsIssued(w) ==> RowsIssued(w')
    ensures Conserved(w) ==> Conserved(w')
    ensures CursorsLead(w) ==> CursorsLead(w')
  {
    forall r: Row ensures Issued(w', r) == Issued(w, r) {
    }
    hide Issued, Recorded;
  }

  lemma ReadKeepsDelivering(w: World)
    requires Delivering(w)
    ensures Delivering(Next(w, Read)) && Next(w, Read) == w.(batches := Next(w, Read).batches)
    ensures w.journal.store.pending != [] ==>
              var pending := w.journal.store.pending;
              pending[..if |pending| < BATCH_LIMIT then |pending| else BATCH_LIMIT] in Next(w, Read).batches
  {
    var w' := Next(w, Read);
    hide L.Invariant, J.Invariant, Consistent, Recorded;
    assert forall r: Row :: Issued(w', r) == Issued(w, r);
    hide Issued;
  }

  lemma ReadKeepsDelivers(w: World)
    requires Delivers(w)
    ensures Delivers(Next(w, Read))
  {
    ReadKeepsDelivering(w);
    hide Delivering, Next, Recorded;
  }

  lemma CaptureKeepsDelivers(w: World, s: Sample, eventId: nat, io: Io)
    requires Delivers(w) && Continues(w, s, eventId, io) && forall e | e in w.emitted :: e.id != eventId
    ensures Delivers(CaptureStep(w, s, eventId, io))
  {
    var w' := CaptureStep(w, s, eventId, io);
    CaptureKeepsInvariant(w.journal, s, eventId, io);
    CaptureHasEffect(w, s, eventId, io);
    CaptureKeepsJournal(w, s, eventId, io);
    assert ContinuesTo(w, w', s);
    hide CaptureStep, Continues, ContinuesTo, J.Invariant, L.Invariant;
    CaptureKeepsConsistent(w, w', s, eventId);
    CaptureKeepsCursors(w, w', s, eventId);
    CaptureKeepsRows(w, w', s, eventId);
    assert w'.ledger == w.ledger;
    hide Consistent, RowsIssued, Conserved, CursorsLead, Booted, CaptureEffect;
  }

  lemma CaptureKeepsJournal(w: World, s: Sample, eventId: nat, io: Io)
    ensures CaptureStep(w, s, eventId, io).journal == Captured(w.journal, s, eventId, io)
  {
    hide Captured, Outcome;
  }

  lemma NewRateKeepsRows(l: L.Ledger, tenantId: Uuid, input: L.RateInput, now: int, id: nat)
    ensures var l' := L.After(l, L.NewRate(tenantId, input, now, id));
            l'.rows == l.rows && l'.resources == l.resources
  {
  }

  lemma NewRateKeepsDelivers(w: World, tenantId: Uuid, input: L.RateInput, now: int, id: nat)
    requires Delivers(w)
    ensures Delivers(Next(w, NewRate(tenantId, input, now, id)))
  {
    NewRateKeepsRows(w.ledger, tenantId, input, now, id);
    assert Delivering(w) && L.Invariant(w.ledger);
    hide Delivers, L.After, L.Invariant;
    L.AfterKeepsInvariant(w.ledger, L.NewRate(tenantId, input, now, id));
    RateKeepsDelivers(w, L.After(w.ledger, L.NewRate(tenantId, input, now, id)));
  }

  lemma StepKeepsDelivers(w: World, step: Step)
    requires Delivers(w) && Enabled(w, step)
    ensures Delivers(Next(w, step))
  {
    hide Delivers, CaptureStep, Continues;
    match step {
      case Capture(s, eventId, io) => CaptureKeepsDelivers(w, s, eventId, io);
      case Post(rows) => PostKeepsDelivers(w, rows);
      case Acknowledge(rows) => AcknowledgeKeepsDelivers(w, rows);
      case Restart(bootId) => RestartKeepsDelivers(w, bootId);
      case Read => ReadKeepsDelivers(w);
      case NewRate(tenantId, input, now, id) =>
        NewRateKeepsDelivers(w, tenantId, input, now, id);
    }
  }

  lemma {:induction false} RunKeepsDelivers(w: World, steps: seq<Step>)
    requires Delivers(w) && Legal(w, steps)
    ensures Delivers(Run(w, steps))
    decreases |steps|
  {
    if steps != [] {
      StepKeepsDelivers(w, steps[0]);
      RunKeepsDelivers(Next(w, steps[0]), steps[1..]);
    }
  }

  lemma InitialDelivers(sourceId: string, bootId: nat)
    ensures Delivers(Initial(sourceId, bootId))
  {
  }

  /** No instant of a resource is charged by both receipts. */
  ghost predicate ChargeDisjointTime(a: Event, b: Event) {
    KeyOf(a.resource) == KeyOf(b.resource) && a.quality == b.quality == Confirmed ==>
      forall t: int :: !(Within(a, t) && Within(b, t))
  }

  predicate Within(e: Event, t: int) {
    e.from <= t < e.to
  }

  /**
   End to end. After any run: a posted batch is accepted and its acknowledgement
   succeeds; every receipt is in the outbox or in the ledger; the ledger holds only
   receipts; the charges of one resource are emitted in time order, under one owner; and
   no instant of a resource is charged by two of them.
   */
  lemma NothingRefusedLostOrChargedTwice(sourceId: string, bootId: nat, steps: seq<Step>)
    requires Legal(Initial(sourceId, bootId), steps)
    ensures var w := Run(Initial(sourceId, bootId), steps);
            var ledger, pending := w.ledger, w.journal.store.pending;
            && (forall rows | rows in w.batches :: L.Ingest(ledger, Events(rows)).Success?)
            && (forall rows | rows in w.accepted :: Matches(pending, rows))
            && (forall i | 0 <= i < |w.emitted| ::
                  Recorded(ledger, w.emitted[i]) || Row(i + 1, w.emitted[i]) in pending)
            && (forall id | id in ledger.rows :: ledger.rows[id].event.id == id && ledger.rows[id].event in w.emitted)
            && (forall a, b | a in ledger.rows && b in ledger.rows && a != b ::
                  ChargeDisjointTime(ledger.rows[a].event, ledger.rows[b].event))
            && (forall i, j | 0 <= i < j < |w.emitted|
                              && KeyOf(w.emitted[i].resource) == KeyOf(w.emitted[j].resource) ::
                  w.emitted[i].resource == w.emitted[j].resource
                  && (Chargeable(w.emitted[i]) && Chargeable(w.emitted[j]) ==> w.emitted[i].to <= w.emitted[j].from))
  {
    InitialDelivers(sourceId, bootId);
    RunKeepsDelivers(Initial(sourceId, bootId), steps);
    var w := Run(Initial(sourceId, bootId), steps);
    hide Run, Legal, Initial, Delivers;
    NothingIsLost(w);
    LedgerChargesOnce(w);
    ChargesAreInOrder(w);
    hide Recorded, Matches, L.Ingest, ChargeDisjointTime;
    forall rows | rows in w.batches ensures L.Ingest(w.ledger, Events(rows)).Success? {
      DeliveryIsAccepted(w, rows);
    }
    forall rows | rows in w.accepted ensures Matches(w.journal.store.pending, rows) {
      AcknowledgementMatches(w, rows);
    }
  }

  lemma ChargesAreInOrder(w: World)
    requires Delivers(w)
    ensures forall i, j | 0 <= i < j < |w.emitted| && KeyOf(w.emitted[i].resource) == KeyOf(w.emitted[j].resource) ::
              w.emitted[i].resource == w.emitted[j].resource
              && (Chargeable(w.emitted[i]) && Chargeable(w.emitted[j]) ==> w.emitted[i].to <= w.emitted[j].from)
  {
  }

  lemma NothingIsLost(w: World)
    requires Delivers(w)
    ensures forall i | 0 <= i < |w.emitted| ::
              Recorded(w.ledger, w.emitted[i]) || Row(i + 1, w.emitted[i]) in w.journal.store.pending
  {
  }

  lemma LedgerChargesOnce(w: World)
    requires Delivers(w)
    ensures forall id | id in w.ledger.rows :: w.ledger.rows[id].event.id == id && w.ledger.rows[id].event in w.emitted
    ensures forall a, b | a in w.ledger.rows && b in w.ledger.rows && a != b ::
              ChargeDisjointTime(w.ledger.rows[a].event, w.ledger.rows[b].event)
  {
    forall a, b | a in w.ledger.rows && b in w.ledger.rows && a != b
      ensures ChargeDisjointTime(w.ledger.rows[a].event, w.ledger.rows[b].event)
    {
      assert !L.Conflicts(w.ledger.rows[a].event, w.ledger.rows[b].event);
    }
  }
}
