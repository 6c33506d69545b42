/**
 What a receipt is worth as evidence: confirmed receipts are sound in every run,
 a cursor's advance is tiled by receipts and justified gaps, and the condition on
 re-observing a collected resource is the right one.
 */
module MeteringHistory {
  import opened Wrappers
  import opened ResourceTypes
  import opened J = ResourceJournal
  import opened MeteringPipeline
  import L = ResourceLedger

  // ----- Soundness of confirmed receipts -----

  /** The observation behind a live cursor is the latest attempt on its resource in this boot. */
  ghost predicate Witnessed(w: World) {
    forall k | k in w.journal.store.cursors
      && w.journal.store.cursors[k].bootId == w.journal.bootId && w.journal.store.cursors[k].state != Absent ::
      WitnessedBy(w, k)
  }

  ghost predicate WitnessedBy(w: World, k: Key)
    requires k in w.journal.store.cursors
  {
    && k in w.journal.observations && k in w.attempts
    && var c, o, a := w.journal.store.cursors[k], w.journal.observations[k], w.attempts[k];
    && a.succeeded == !o.failed
    && (a.succeeded ==>
          && o.clock == a.sample.clock && o.at == a.sample.at <= c.at
          && c.state == a.sample.state && c.incarnation == a.sample.incarnation
          && (a.sample.state != Unknown ==> c.quantity == a.sample.quantity))
  }

  lemma CaptureKeepsWitnessed(w: World, s: Sample, eventId: nat, io: Io)
    requires J.Invariant(w.journal) && Witnessed(w)
    ensures Witnessed(CaptureStep(w, s, eventId, io))
  {
    var w' := CaptureStep(w, s, eventId, io);
    hide J.Invariant, WitnessedBy, CaptureStep;
    forall k | k in w'.journal.store.cursors
      && w'.journal.store.cursors[k].bootId == w'.journal.bootId && w'.journal.store.cursors[k].state != Absent
      ensures WitnessedBy(w', k)
    {
      if k == KeyOf(s.resource) {
        CaptureWitnessesSelf(w, s, eventId, io);
      } else {
        CaptureLeavesOthers(w, s, eventId, io, k);
      }
    }
  }

  lemma CaptureWitnessesSelf(w: World, s: Sample, eventId: nat, io: Io)
    requires J.Invariant(w.journal) && Witnessed(w)
    ensures var w', k := CaptureStep(w, s, eventId, io), KeyOf(s.resource);
            (k in w'.journal.store.cursors && w'.journal.store.cursors[k].bootId == w'.journal.bootId
             && w'.journal.store.cursors[k].state != Absent) ==> WitnessedBy(w', k)
  {
    var out := Outcome(w.journal, s, eventId, io);
    if out.Success? {
      CaptureFacts(w.journal, s, eventId, io);
      if out.value.captured {
        CaptureCursor(w.journal, s, eventId, io);
      }
    }
    hide Outcome, J.Invariant;
  }

  lemma CaptureLeavesOthers(w: World, s: Sample, eventId: nat, io: Io, k: Key)
    requires J.Invariant(w.journal) && k != KeyOf(s.resource)
    ensures var w' := CaptureStep(w, s, eventId, io);
            && w'.journal.bootId == w.journal.bootId
            && (k in w'.journal.store.cursors ==>
                  && k in w.journal.store.cursors && w'.journal.store.cursors[k] == w.journal.store.cursors[k]
                  && (WitnessedBy(w, k) ==> WitnessedBy(w', k)))
  {
    hide J.Invariant;
    if Outcome(w.journal, s, eventId, io).Success? {
      CaptureFacts(w.journal, s, eventId, io);
      hide Outcome;
      assert Lookup(Outcome(w.journal, s, eventId, io).value.store.cursors, k) == Lookup(w.journal.store.cursors, k);
    } else {
      hide Outcome;
    }
  }

  lemma CaptureCursor(j: State, s: Sample, eventId: nat, io: Io)
    requires Outcome(j, s, eventId, io).Success? && Outcome(j, s, eventId, io).value.captured
    ensures var cursors := Outcome(j, s, eventId, io).value.store.cursors;
            && KeyOf(s.resource) in cursors
            && var c := cursors[KeyOf(s.resource)];
            && c.state == s.state && c.incarnation == s.incarnation && s.at <= c.at
            && (s.state != Unknown ==> c.quantity == s.quantity)
  {
  }

  ghost predicate Sane(w: World) {
    Delivers(w) && Witnessed(w) && Tiled(w)
  }

  /** What makes a charge legitimate, in terms of the two observations that bound it. */
  ghost predicate Legitimate(w: World, s: Sample, e: Event) {
    var key := KeyOf(s.resource);
    && key in w.journal.store.cursors && w.journal.store.cursors[key].bootId == w.journal.bootId
    // The latest attempt in this boot succeeded, so none failed in between.
    && key in w.attempts && w.attempts[key].succeeded
    && var p := w.attempts[key].sample;
    && p.at <= e.from && e.to <= s.at
    && -MAXIMUM_DRIFT <= (s.at - p.at) - Milliseconds(s.clock - p.clock) <= MAXIMUM_DRIFT
    && (|| (Active(p.state) && Active(s.state) && p.incarnation == s.incarnation && p.quantity == s.quantity
            && e.to == s.at && e.to - e.from <= MAXIMUM_OBSERVED_INTERVAL)
        || (Active(p.state) && Stopped(s.state) && p.incarnation == s.incarnation && p.quantity == s.quantity
            && e.to == s.endedAt)
        || (p.state == Paused && Active(s.state) && p.incarnation != s.incarnation
            && e.from == s.startedAt && e.to == s.at && e.to - e.from <= MAXIMUM_OBSERVED_INTERVAL))
  }

  /** Without doubt on the sample, the observation before it neither failed nor drifted. */
  lemma UndoubtedSample(s: Sample, o: Option<Observation>)
    requires Annotated(s, o).uncertain.None?
    ensures o.Some? ==> !o.value.failed && !Drifted(s, o.value) && Annotated(s, o) == s
  {
  }

  lemma ChargesAreLegitimate(w: World, s: Sample, eventId: nat, io: Io)
    requires Sane(w)
    requires Outcome(w.journal, s, eventId, io).Success? && Outcome(w.journal, s, eventId, io).value.emitted.Some?
    requires Chargeable(Outcome(w.journal, s, eventId, io).value.emitted.value)
    ensures Legitimate(w, s, Outcome(w.journal, s, eventId, io).value.emitted.value)
  {
    hide Sane, Outcome, Transact, Annotated, Acceptable, Milliseconds;
    var e := Outcome(w.journal, s, eventId, io).value.emitted.value;
    OutcomeIsTransaction(w.journal, s, eventId, io);
    ShapeIsWarranted(w, s, eventId, e);
    LiveIsWitnessed(w, KeyOf(s.resource));
  }

  lemma OutcomeIsTransaction(j: State, s: Sample, eventId: nat, io: Io)
    requires Outcome(j, s, eventId, io).Success?
    ensures Acceptable(s)
    ensures var s' := Annotated(s, Lookup(j.observations, KeyOf(s.resource)));
            Outcome(j, s, eventId, io) == Transact(j.store, s', j.sourceId, j.bootId, eventId)
  {
    hide Transact, Annotated;
  }

  // ----- Conservation of time -----

  function Begin(p: Piece): int {
    if p.Receipt? then p.event.from else p.from
  }

  function End(p: Piece): int {
    if p.Receipt? then p.event.to else p.to
  }

  /** The pieces follow one another without hole or overlap. */
  ghost predicate Chain(pieces: seq<Piece>, start: int, end: int) {
    if pieces == [] then start == end
    else Begin(pieces[0]) == start && start <= End(pieces[0]) && Chain(pieces[1..], End(pieces[0]), end)
  }

  /** Idle between two equal paused or absent samples, before a verified resume, or after a reported end. */
  ghost predicate Justified(p: Piece) {
    p.Uncovered? ==>
      || p.from == p.to
      || (Stopped(p.sample.state) && p.prior.state == p.sample.state)
      || (VerifiedResume(p.prior, p.sample) && p.from == p.prior.at && p.to == p.sample.startedAt)
      || (Stopped(p.sample.state) && p.from == p.sample.endedAt)
  }

  /** The receipts among the pieces, in order. */
  function Receipts(pieces: seq<Piece>): seq<Event> {
    if pieces == [] then []
    else (if pieces[0].Receipt? then [pieces[0].event] else []) + Receipts(pieces[1..])
  }

  /** The receipts of one resource, in the order in which they were emitted. */
  function Of(emitted: seq<Event>, k: Key): seq<Event> {
    if emitted == [] then []
    else
      var last := emitted[|emitted| - 1];
      Of(emitted[..|emitted| - 1], k) + (if KeyOf(last.resource) == k then [last] else [])
  }

  /** The total length of receipts. */
  function Length(receipts: seq<Event>): int {
    if receipts == [] then 0 else receipts[0].to - receipts[0].from + Length(receipts[1..])
  }

  /**
   The pieces lead from the first capture to the cursor, and their receipts are exactly
   those emitted for the resource after the receipt of that first capture.
   */
  ghost predicate TiledBy(w: World, k: Key, c: Coverage, at: int) {
    && Chain(c.pieces, c.start, at)
    && (forall p | p in c.pieces :: Justified(p))
    && 0 < c.since <= |w.emitted|
    && KeyOf(w.emitted[c.since - 1].resource) == k && w.emitted[c.since - 1].to <= c.start
    && Receipts(c.pieces) == Of(w.emitted[c.since..], k)
  }

  ghost predicate Tiled(w: World) {
    forall k | k in w.journal.store.cursors ::
      k in w.coverage && TiledBy(w, k, w.coverage[k], w.journal.store.cursors[k].at)
  }

  lemma {:induction false} ReceiptsAppend(a: seq<Piece>, b: seq<Piece>)
    ensures Receipts(a + b) == Receipts(a) + Receipts(b)
  {
    hide Receipts;
    if a == [] {
      NoReceipts(a);
      assert a + b == b;
    } else {
      var tail := a[1..];
      assert [a[0]] + tail == a && [a[0]] + (tail + b) == a + b;
      ReceiptsCons(a[0], tail);
      ReceiptsCons(a[0], tail + b);
      ReceiptsAppend(tail, b);
    }
  }

  lemma NoReceipts(pieces: seq<Piece>)
    ensures pieces == [] ==> Receipts(pieces) == []
  {
  }

  lemma ReceiptsCons(p: Piece, rest: seq<Piece>)
    ensures Receipts([p] + rest) == (if p.Receipt? then [p.event] else []) + Receipts(rest)
  {
    assert ([p] + rest)[1..] == rest;
  }

  lemma OfAppend(emitted: seq<Event>, since: nat, e: Event, k: Key)
    requires since <= |emitted|
    ensures Of((emitted + [e])[since..], k) == Of(emitted[since..], k) + if KeyOf(e.resource) == k then [e] else []
  {
    var all := (emitted + [e])[since..];
    assert all[..|all| - 1] == emitted[since..] && all[|all| - 1] == e;
  }

  lemma {:induction false} ChainAppend(a: seq<Piece>, b: seq<Piece>, start: int, mid: int, end: int)
    requires Chain(a, start, mid) && Chain(b, mid, end)
    ensures Chain(a + b, start, end)
  {
    if a == [] {
      assert a + b == b;
    } else {
      assert (a + b)[1..] == a[1..] + b;
      ChainAppend(a[1..], b, End(a[0]), mid, end);
    }
  }

  lemma PiecesFit(j: State, s: Sample, eventId: nat, io: Io)
    requires J.Invariant(j) && Outcome(j, s, eventId, io).Success? && KeyOf(s.resource) in j.store.cursors
    ensures var c, key := Outcome(j, s, eventId, io).value, KeyOf(s.resource);
            && key in c.store.cursors
            && var prior, next := j.store.cursors[key], c.store.cursors[key];
            var pieces := Pieces(prior, next, c.emitted, s);
            && Chain(pieces, prior.at, next.at)
            && (forall p | p in pieces :: Justified(p))
            && Receipts(pieces) == if c.emitted.Some? then [c.emitted.value] else []
  {
    hide Transact, Outcome, J.Invariant, Annotated, Chain, Justified, Pieces, Receipts, Acceptable;
    var key := KeyOf(s.resource);
    var s' := Annotated(s, Lookup(j.observations, key));
    CaptureFacts(j, s, eventId, io);
    OutcomeIsTransaction(j, s, eventId, io);
    AnnotationKeepsShape(s, Lookup(j.observations, key));
    UncoveredTime(j.store, s', j.sourceId, j.bootId, eventId);
    var c := Outcome(j, s, eventId, io).value;
    if c.emitted.Some? {
      ReceiptPieces(j.store.cursors[key], c.store.cursors[key], c.emitted.value, s);
    } else {
      IdlePiece(j.store.cursors[key], c.store.cursors[key], s);
    }
  }

  lemma IdlePiece(prior: Cursor, next: Cursor, s: Sample)
    requires prior.at <= next.at
    requires || prior.at == next.at
             || (Stopped(s.state) && prior.state == s.state)
             || (VerifiedResume(prior, s) && next.at == s.startedAt)
    ensures var pieces := Pieces(prior, next, None, s);
            && Chain(pieces, prior.at, next.at)
            && (forall p | p in pieces :: Justified(p))
            && Receipts(pieces) == []
  {
    assert [Uncovered(prior.at, next.at, prior, s)][1..] == [];
  }

  lemma ReceiptPieces(prior: Cursor, next: Cursor, e: Event, s: Sample)
    requires prior.at <= e.from <= e.to <= next.at
    requires e.from == prior.at || (VerifiedResume(prior, s) && e.from == s.startedAt)
    requires e.to == next.at || (Stopped(s.state) && e.to == s.endedAt)
    ensures var pieces := Pieces(prior, next, Some(e), s);
            && Chain(pieces, prior.at, next.at)
            && (forall p | p in pieces :: Justified(p))
            && Receipts(pieces) == [e]
  {
    var first, mid, last := Uncovered(prior.at, e.from, prior, s), Receipt(e), Uncovered(e.to, next.at, prior, s);
    assert [first, mid, last][1..] == [mid, last] && [mid, last][1..] == [last] && [last][1..] == [];
    assert Chain([last], e.to, next.at);
    assert Chain([mid, last], e.from, next.at);
    NoReceipts([]);
    ReceiptsCons(last, []);
    ReceiptsCons(mid, [last]);
    ReceiptsCons(first, [mid, last]);
    hide Receipts;
    assert [last] + [] == [last] && [mid] + [last] == [mid, last] && [first] + [mid, last] == [first, mid, last];
  }

  lemma CaptureKeepsTiled(w: World, s: Sample, eventId: nat, io: Io)
    requires J.Invariant(w.journal) && Tiled(w)
    ensures Tiled(CaptureStep(w, s, eventId, io))
  {
    hide Outcome, J.Invariant, Chain, Justified, Pieces, Receipts, Of;
    var w' := CaptureStep(w, s, eventId, io);
    var key, out := KeyOf(s.resource), Outcome(w.journal, s, eventId, io);
    if out.Success? {
      CaptureFacts(w.journal, s, eventId, io);
      if key in w.journal.store.cursors {
        PiecesFit(w.journal, s, eventId, io);
      } else {
        FirstReceipt(w.journal, s, eventId, io);
      }
      if out.value.captured {
        forall k | k in w'.journal.store.cursors
          ensures k in w'.coverage && TiledBy(w', k, w'.coverage[k], w'.journal.store.cursors[k].at)
        {
          assert k != key ==> Lookup(w'.journal.store.cursors, k) == Lookup(w.journal.store.cursors, k);
          if k != key {
            OtherStaysTiled(w, w', k, s.resource);
          } else if key in w.journal.store.cursors {
            GrownStaysTiled(w, w', s, out.value);
          } else {
            FreshIsTiled(w', key, s.at);
          }
        }
      }
    }
  }

  /** The capture that creates a cursor always emits, and its receipt ends by then. */
  lemma FirstReceipt(j: State, s: Sample, eventId: nat, io: Io)
    requires J.Invariant(j) && Outcome(j, s, eventId, io).Success? && KeyOf(s.resource) !in j.store.cursors
    ensures var c := Outcome(j, s, eventId, io).value;
            c.captured ==>
              && c.emitted.Some? && c.emitted.value.resource == s.resource && c.emitted.value.to <= s.at
              && c.emitted.value.id == eventId
              && (c.store.counter == Some(|j.store.pending| + 1))
  {
    CaptureFacts(j, s, eventId, io);
  }

  lemma FreshIsTiled(w: World, k: Key, at: int)
    requires w.emitted != [] && KeyOf(w.emitted[|w.emitted| - 1].resource) == k && w.emitted[|w.emitted| - 1].to <= at
    ensures TiledBy(w, k, Coverage(at, |w.emitted|, []), at)
  {
    assert w.emitted[|w.emitted|..] == [];
  }

  lemma OtherStaysTiled(w: World, w': World, k: Key, r: Identity)
    requires k in w.journal.store.cursors && k in w.coverage && k in w'.coverage
    requires TiledBy(w, k, w.coverage[k], w.journal.store.cursors[k].at)
    requires k != KeyOf(r) && w'.coverage[k] == w.coverage[k]
    requires w'.emitted == w.emitted || (w'.emitted != [] && w'.emitted[..|w'.emitted| - 1] == w.emitted
                                         && w'.emitted[|w'.emitted| - 1].resource == r)
    ensures TiledBy(w', k, w.coverage[k], w.journal.store.cursors[k].at)
  {
    hide Chain, Justified, Receipts, Of;
    if w'.emitted != w.emitted {
      var e := w'.emitted[|w'.emitted| - 1];
      assert w'.emitted == w.emitted + [e];
      OfAppend(w.emitted, w.coverage[k].since, e, k);
    }
  }

  lemma GrownStaysTiled(w: World, w': World, s: Sample, c: Committed)
    requires var key := KeyOf(s.resource);
             && key in w.journal.store.cursors && key in c.store.cursors && key in w.coverage && key in w'.coverage
             && TiledBy(w, key, w.coverage[key], w.journal.store.cursors[key].at)
             && var pieces := Pieces(w.journal.store.cursors[key], c.store.cursors[key], c.emitted, s);
             && Chain(pieces, w.journal.store.cursors[key].at, c.store.cursors[key].at)
             && (forall p | p in pieces :: Justified(p))
             && Receipts(pieces) == (if c.emitted.Some? then [c.emitted.value] else [])
             && (c.emitted.Some? ==> c.emitted.value.resource == s.resource)
             && w'.coverage[key] == w.coverage[key].(pieces := w.coverage[key].pieces + pieces)
    requires w'.emitted == if c.emitted.Some? then w.emitted + [c.emitted.value] else w.emitted
    ensures TiledBy(w', KeyOf(s.resource), w'.coverage[KeyOf(s.resource)], c.store.cursors[KeyOf(s.resource)].at)
  {
    var key := KeyOf(s.resource);
    var was, pieces := w.coverage[key], Pieces(w.journal.store.cursors[key], c.store.cursors[key], c.emitted, s);
    ChainAppend(was.pieces, pieces, was.start, w.journal.store.cursors[key].at, c.store.cursors[key].at);
    ReceiptsAppend(was.pieces, pieces);
    if c.emitted.Some? {
      OfAppend(w.emitted, was.since, c.emitted.value, key);
    }
    hide Chain, Justified, Pieces, Receipts, Of;
  }

  // ----- Both hold in every run -----

  lemma StepKeepsSane(w: World, step: Step)
    requires Sane(w) && Enabled(w, step)
    ensures Sane(Next(w, step))
  {
    StepKeepsDelivers(w, step);
    hide RowsIssued, Conserved, Consistent, CursorsLead, L.Invariant, Witnessed, Tiled;
    if step.Capture? {
      CaptureKeepsWitnessed(w, step.sample, step.eventId, step.io);
      CaptureKeepsTiled(w, step.sample, step.eventId, step.io);
    } else {
      OthersKeepTiled(w, step);
      OthersKeepWitnessed(w, step);
    }
  }

  lemma OthersKeepTiled(w: World, step: Step)
    requires Tiled(w) && Enabled(w, step) && !step.Capture?
    ensures Tiled(Next(w, step))
  {
    var w' := Next(w, step);
    hide L.Ingest, L.After, TiledBy;
    assert w'.emitted == w.emitted && w'.coverage == w.coverage;
    forall k | k in w'.journal.store.cursors
      ensures k in w'.coverage && TiledBy(w', k, w'.coverage[k], w'.journal.store.cursors[k].at)
    {
      assert k in w.journal.store.cursors && w'.journal.store.cursors[k] == w.journal.store.cursors[k];
      SameReceiptsTiled(w, w', k, w.coverage[k], w.journal.store.cursors[k].at);
    }
  }

  lemma SameReceiptsTiled(w: World, w': World, k: Key, c: Coverage, at: int)
    requires TiledBy(w, k, c, at) && w'.emitted == w.emitted
    ensures TiledBy(w', k, c, at)
  {
    hide Chain, Justified, Receipts, Of;
  }

  lemma OthersKeepWitnessed(w: World, step: Step)
    requires Booted(w) && Witnessed(w) && Enabled(w, step) && !step.Capture?
    ensures Witnessed(Next(w, step))
  {
    var w' := Next(w, step);
    hide L.Ingest, L.After;
    forall k | k in w'.journal.store.cursors
      && w'.journal.store.cursors[k].bootId == w'.journal.bootId && w'.journal.store.cursors[k].state != Absent
      ensures WitnessedBy(w', k)
    {
      assert k in w.journal.store.cursors && w'.journal.store.cursors[k] == w.journal.store.cursors[k];
      assert !step.Restart?;
      assert WitnessedBy(w, k);
    }
  }

  lemma {:induction false} RunKeepsSane(w: World, steps: seq<Step>)
    requires Sane(w) && Legal(w, steps)
    ensures Sane(Run(w, steps))
    decreases |steps|
  {
    if steps != [] {
      StepKeepsSane(w, steps[0]);
      RunKeepsSane(Next(w, steps[0]), steps[1..]);
    }
  }

  /** After any run, whatever charge the next capture emits is legitimate. */
  lemma ConfirmedReceiptsAreSound(sourceId: string, bootId: nat, steps: seq<Step>, s: Sample, eventId: nat, io: Io)
    requires Legal(Initial(sourceId, bootId), steps)
    ensures var w := Run(Initial(sourceId, bootId), steps);
            var out := Outcome(w.journal, s, eventId, io);
            out.Success? && out.value.emitted.Some? && Chargeable(out.value.emitted.value) ==>
              Legitimate(w, s, out.value.emitted.value)
  {
    InitialDelivers(sourceId, bootId);
    RunKeepsSane(Initial(sourceId, bootId), steps);
    var w := Run(Initial(sourceId, bootId), steps);
    var out := Outcome(w.journal, s, eventId, io);
    if out.Success? && out.value.emitted.Some? && Chargeable(out.value.emitted.value) {
      ChargesAreLegitimate(w, s, eventId, io);
    }
  }

  // ----- Exactly what is charged -----

  /** The wall clock and the monotonic clock moved alike, to the second, since the latest attempt. */
  predicate Steady(s: Sample, last: Sample) {
    -1000 <= (s.at - last.at) - Milliseconds(s.clock - last.clock) <= 1000
  }

  lemma MillisecondsTruncates(n: nat)
    ensures Milliseconds(n) * 1_000_000 <= n < (Milliseconds(n) + 1) * 1_000_000
    ensures Milliseconds(-(n as int)) == -Milliseconds(n)
  {
  }

  /**
   The cursor is of this boot, the latest attempt on its resource succeeded, the clocks were
   steady since, the sample has no doubt of its own, and [from, to) is running time between
   two samples, up to a reported end, or since a reported resume.
   */
  ghost predicate Warranted(w: World, s: Sample, from: int, to: int) {
    var key := KeyOf(s.resource);
    && key in w.journal.store.cursors && key in w.attempts
    && var c, a := w.journal.store.cursors[key], w.attempts[key];
    && c.bootId == w.journal.bootId && a.succeeded && Steady(s, a.sample)
    && s.uncertain.None? && c.at <= s.at && from < to
    && (|| (Active(c.state) && Active(s.state) && c.incarnation == s.incarnation && c.quantity == s.quantity
            && from == c.at && to == s.at && to - from <= 90_000)
        || (Active(c.state) && Stopped(s.state) && c.incarnation == s.incarnation && c.quantity == s.quantity
            && from == c.at && to == s.endedAt <= s.at)
        || (c.state == Paused && Active(s.state) && c.incarnation != s.incarnation
            && c.at <= s.startedAt && from == s.startedAt && to == s.at && to - from <= 90_000))
  }

  /** Nothing but the sample itself decides: it is acceptable, there is room, and the transaction commits. */
  ghost predicate Unhindered(j: State, s: Sample, io: Io) {
    && Acceptable(s) && io.updateSucceeds && io.commits && |j.store.pending| < 65536
    && (KeyOf(s.resource) in j.store.cursors ==> j.store.cursors[KeyOf(s.resource)].resource == s.resource)
  }

  function ChargeFor(j: State, s: Sample, eventId: nat, from: int, to: int): Event {
    Event(eventId, s.resource, j.sourceId, j.bootId, s.incarnation, from, to, Confirmed, None, s.state, s.quantity)
  }

  /**
   After any run, an unhindered capture charges [from, to) if and only if the two observations
   warrant it, and then it appends that one receipt, for the sampled quantity.
   */
  lemma ChargedIffWarranted(sourceId: string, bootId: nat, steps: seq<Step>, s: Sample, eventId: nat, io: Io,
                            from: int, to: int)
    requires Legal(Initial(sourceId, bootId), steps)
    requires Unhindered(Run(Initial(sourceId, bootId), steps).journal, s, io)
    ensures var w := Run(Initial(sourceId, bootId), steps);
            var w' := CaptureStep(w, s, eventId, io);
            var charge := ChargeFor(w.journal, s, eventId, from, to);
            && (Warranted(w, s, from, to) <==>
                  w'.emitted == w.emitted + [charge] && from < to)
            && (Warranted(w, s, from, to) ==>
                  w'.journal.store.pending == w.journal.store.pending + [Row(w.journal.store.sequence + 1, charge)])
  {
    hide *;
    var w := Run(Initial(sourceId, bootId), steps);
    ReachedIsSane(sourceId, bootId, steps);
    if Warranted(w, s, from, to) {
      WarrantedIsCharged(w, s, eventId, io, from, to);
      WarrantedLasts(w, s, from, to);
    }
    ChargedIsWarranted(w, s, eventId, io, from, to);
  }

  lemma ReachedIsSane(sourceId: string, bootId: nat, steps: seq<Step>)
    requires Legal(Initial(sourceId, bootId), steps)
    ensures Sane(Run(Initial(sourceId, bootId), steps))
  {
    InitialDelivers(sourceId, bootId);
    RunKeepsSane(Initial(sourceId, bootId), steps);
  }

  lemma WarrantedLasts(w: World, s: Sample, from: int, to: int)
    requires Warranted(w, s, from, to)
    ensures from < to
  {
  }

  lemma WarrantedIsCharged(w: World, s: Sample, eventId: nat, io: Io, from: int, to: int)
    requires Sane(w) && Unhindered(w.journal, s, io) && Warranted(w, s, from, to)
    ensures var w' := CaptureStep(w, s, eventId, io);
            var charge := ChargeFor(w.journal, s, eventId, from, to);
            && w'.emitted == w.emitted + [charge]
            && w'.journal.store.pending == w.journal.store.pending + [Row(w.journal.store.sequence + 1, charge)]
  {
    hide *;
    hide J.Invariant;
    var j, charge := w.journal, ChargeFor(w.journal, s, eventId, from, to);
    WarrantedSample(w, s, from, to);
    WarrantedTransaction(w, s, eventId, io, from, to);
    var t := Transact(j.store, s, j.sourceId, j.bootId, eventId);
    UnhinderedCommits(w, s, eventId, io);
    ChargeIsEmitted(w, s, eventId, io, charge);
  }

  lemma LiveIsWitnessed(w: World, key: Key)
    requires Sane(w) && key in w.journal.store.cursors
    requires w.journal.store.cursors[key].bootId == w.journal.bootId && w.journal.store.cursors[key].state != Absent
    ensures WitnessedBy(w, key)
  {
    hide Delivers, Tiled, WitnessedBy;
    assert Witnessed(w);
  }

  /** A warranted sample is captured as it is: the observation before it adds no doubt. */
  lemma WarrantedSample(w: World, s: Sample, from: int, to: int)
    requires Sane(w) && Warranted(w, s, from, to)
    ensures Annotated(s, Lookup(w.journal.observations, KeyOf(s.resource))) == s
  {
    hide Sane, Annotated, Drifted, Milliseconds;
    LiveIsWitnessed(w, KeyOf(s.resource));
    SteadyIsUndoubted(s, w.journal.observations[KeyOf(s.resource)]);
  }

  lemma SteadyIsUndoubted(s: Sample, o: Observation)
    requires !o.failed && s.uncertain.None?
    ensures Drifted(s, o) <==> !(-1000 <= (s.at - o.at) - Milliseconds(s.clock - o.clock) <= 1000)
    ensures !Drifted(s, o) ==> Annotated(s, Some(o)) == s
  {
  }

  lemma WarrantedTransaction(w: World, s: Sample, eventId: nat, io: Io, from: int, to: int)
    requires Sane(w) && Unhindered(w.journal, s, io) && Warranted(w, s, from, to)
    ensures var t := Transact(w.journal.store, s, w.journal.sourceId, w.journal.bootId, eventId);
            var charge := ChargeFor(w.journal, s, eventId, from, to);
            && t.Success? && t.value.captured && t.value.emitted == Some(charge)
            && KeyOf(s.resource) in t.value.store.cursors
            && t.value.store.pending == w.journal.store.pending + [Row(w.journal.store.sequence + 1, charge)]
  {
    hide Sane, PlanFor, Transact, Sound, Acceptable, Steady;
    SaneIsSound(w);
    CounterOfSound(w.journal.store);
    WarrantedPlan(w.journal.store.cursors[KeyOf(s.resource)], s, w.journal.bootId, from, to);
    PlannedIsWritten(w.journal, s, eventId, from, to);
  }

  lemma CounterOfSound(store: Store)
    requires Sound(store)
    ensures store.counter == Some(|store.pending|)
  {
  }

  lemma PlannedIsWritten(j: State, s: Sample, eventId: nat, from: int, to: int)
    requires KeyOf(s.resource) in j.store.cursors && j.store.counter == Some(|j.store.pending|)
    requires var c := j.store.cursors[KeyOf(s.resource)];
             && c.resource == s.resource && c.state != Absent && s.state != Unknown
             && PlanFor(Some(c), s, j.bootId) == Plan(from, to, Confirmed, None, true)
    requires |j.store.pending| < 65536
    ensures var t := Transact(j.store, s, j.sourceId, j.bootId, eventId);
            var charge := ChargeFor(j, s, eventId, from, to);
            && t.Success? && t.value.captured && t.value.emitted == Some(charge)
            && KeyOf(s.resource) in t.value.store.cursors
            && t.value.store.pending == j.store.pending + [Row(j.store.sequence + 1, charge)]
  {
    hide PlanFor;
  }

  lemma SaneIsSound(w: World)
    requires Sane(w)
    ensures Sound(w.journal.store)
  {
  }

  /** The three shapes of a charge, taken from the two ends. */
  lemma WarrantedPlan(c: Cursor, s: Sample, bootId: nat, from: int, to: int)
    requires c.bootId == bootId && s.uncertain.None? && c.at <= s.at && from < to
    requires || (Active(c.state) && Active(s.state) && c.incarnation == s.incarnation && c.quantity == s.quantity
                 && from == c.at && to == s.at && to - from <= 90_000)
             || (Active(c.state) && Stopped(s.state) && c.incarnation == s.incarnation && c.quantity == s.quantity
                 && from == c.at && to == s.endedAt <= s.at)
             || (c.state == Paused && Active(s.state) && c.incarnation != s.incarnation
                 && c.at <= s.startedAt && from == s.startedAt && to == s.at && to - from <= 90_000)
    ensures PlanFor(Some(c), s, bootId) == Plan(from, to, Confirmed, None, true)
  {
  }

  lemma UnhinderedCommits(w: World, s: Sample, eventId: nat, io: Io)
    requires Unhindered(w.journal, s, io)
    requires Annotated(s, Lookup(w.journal.observations, KeyOf(s.resource))) == s
    ensures Outcome(w.journal, s, eventId, io)
            == Transact(w.journal.store, s, w.journal.sourceId, w.journal.bootId, eventId)
  {
    hide Transact, Annotated, Acceptable;
  }

  lemma ChargeIsEmitted(w: World, s: Sample, eventId: nat, io: Io, e: Event)
    requires var out := Outcome(w.journal, s, eventId, io);
             && out.Success? && out.value.captured && out.value.emitted == Some(e)
             && KeyOf(s.resource) in out.value.store.cursors
    ensures var w' := CaptureStep(w, s, eventId, io);
            && w'.emitted == w.emitted + [e]
            && w'.journal.store == Outcome(w.journal, s, eventId, io).value.store
  {
    hide Outcome, CoverageAfter;
  }

  lemma ChargedIsWarranted(w: World, s: Sample, eventId: nat, io: Io, from: int, to: int)
    requires Sane(w) && Unhindered(w.journal, s, io)
    ensures var w' := CaptureStep(w, s, eventId, io);
            w'.emitted == w.emitted + [ChargeFor(w.journal, s, eventId, from, to)] && from < to ==>
              Warranted(w, s, from, to)
  {
    hide *;
    var charge := ChargeFor(w.journal, s, eventId, from, to);
    if CaptureStep(w, s, eventId, io).emitted == w.emitted + [charge] && from < to {
      EmittedByCapture(w, s, eventId, io, charge);
      OutcomeIsTransaction(w.journal, s, eventId, io);
      ChargeIsChargeable(w.journal, s, eventId, from, to);
      ShapeIsWarranted(w, s, eventId, charge);
    }
  }

  lemma ChargeIsChargeable(j: State, s: Sample, eventId: nat, from: int, to: int)
    ensures var e := ChargeFor(j, s, eventId, from, to);
            e.from == from && e.to == to && (from < to ==> Chargeable(e))
  {
  }

  lemma ShapeIsWarranted(w: World, s: Sample, eventId: nat, e: Event)
    requires Sane(w) && Chargeable(e)
    requires var s' := Annotated(s, Lookup(w.journal.observations, KeyOf(s.resource)));
             var t := Transact(w.journal.store, s', w.journal.sourceId, w.journal.bootId, eventId);
             t.Success? && t.value.emitted == Some(e)
    ensures Warranted(w, s, e.from, e.to)
  {
    hide Sane, Transact, Annotated, Milliseconds, Drifted;
    var key := KeyOf(s.resource);
    var s' := Annotated(s, Lookup(w.journal.observations, key));
    ChargeShape(w.journal.store, s', w.journal.sourceId, w.journal.bootId, eventId);
    UndoubtedSample(s, Lookup(w.journal.observations, key));
    AnnotationKeepsShape(s, Lookup(w.journal.observations, key));
    LiveIsWitnessed(w, key);
    SteadyIsUndoubted(s, w.journal.observations[key]);
  }

  lemma AnnotationKeepsShape(s: Sample, o: Option<Observation>)
    ensures var s' := Annotated(s, o);
            && s'.resource == s.resource && s'.state == s.state && s'.incarnation == s.incarnation
            && s'.at == s.at && s'.startedAt == s.startedAt && s'.endedAt == s.endedAt && s'.quantity == s.quantity
  {
  }

  lemma EmittedByCapture(w: World, s: Sample, eventId: nat, io: Io, e: Event)
    requires CaptureStep(w, s, eventId, io).emitted == w.emitted + [e]
    ensures var out := Outcome(w.journal, s, eventId, io);
            out.Success? && out.value.emitted == Some(e)
  {
    var out := Outcome(w.journal, s, eventId, io);
    hide Outcome, Captured, CoverageAfter;
    var w' := CaptureStep(w, s, eventId, io);
    assert |w'.emitted| == |w.emitted| + 1;
    assert out.Success? && out.value.emitted.Some?;
    assert w'.emitted[|w.emitted|] == out.value.emitted.value;
  }

  // ----- What is reported besides charges -----

  /** A live cursor's stop is always reported, even when there is no time to report. */
  lemma StopsAreReported(j: State, s: Sample, eventId: nat, io: Io)
    requires J.Invariant(j) && Unhindered(j, s, io)
    requires KeyOf(s.resource) in j.store.cursors && Stopped(s.state)
    requires j.store.cursors[KeyOf(s.resource)].state != s.state
    requires j.store.cursors[KeyOf(s.resource)].state != Absent
    ensures var out := Outcome(j, s, eventId, io);
            && out.Success? && out.value.emitted.Some?
            && var e := out.value.emitted.value;
            && e.id == eventId && e.resource == s.resource && e.state == s.state && e.incarnation == s.incarnation
            && (j.store.cursors[KeyOf(s.resource)].at <= s.endedAt <= s.at ==> e.to == s.endedAt)
  {
    hide Drifted, Ordered;
    AnnotationKeepsShape(s, Lookup(j.observations, KeyOf(s.resource)));
    hide Annotated, Acceptable;
  }

  /** Time without evidence before a resource was first seen is reported from where it began. */
  lemma LostStartsAreReported(j: State, s: Sample, eventId: nat, io: Io)
    requires J.Invariant(j) && Unhindered(j, s, io) && KeyOf(s.resource) !in j.store.cursors
    requires s.coverageStartedAt > 0 || Active(s.state)
    ensures var out := Outcome(j, s, eventId, io);
            && out.Success? && out.value.emitted.Some?
            && var e := out.value.emitted.value;
            && e.id == eventId && e.resource == s.resource && e.quantity == s.quantity
            && (0 < s.coverageStartedAt <= s.at ==>
                  && e.quality == Unconfirmed && e.from == s.coverageStartedAt
                  && e.to == if Stopped(s.state) && s.coverageStartedAt <= s.endedAt <= s.at then s.endedAt
                             else if Stopped(s.state) && 0 < s.endedAt < s.coverageStartedAt then s.coverageStartedAt
                             else s.at)
            && (s.coverageStartedAt == 0 && KeyOf(s.resource) !in j.observations ==>
                  e.quality == Confirmed && e.from == e.to == s.at)
  {
    hide Drifted, Ordered;
    AnnotationKeepsShape(s, Lookup(j.observations, KeyOf(s.resource)));
  }

  function UncoveredTotal(pieces: seq<Piece>): int {
    if pieces == [] then 0
    else (if pieces[0].Receipt? then 0 else End(pieces[0]) - Begin(pieces[0])) + UncoveredTotal(pieces[1..])
  }

  lemma {:induction false} ChainAddsUp(pieces: seq<Piece>, start: int, end: int)
    requires Chain(pieces, start, end)
    ensures end - start == Length(Receipts(pieces)) + UncoveredTotal(pieces) && start <= end
  {
    if pieces != [] {
      ChainAddsUp(pieces[1..], End(pieces[0]), end);
      if pieces[0].Receipt? {
        assert Receipts(pieces)[1..] == Receipts(pieces[1..]);
      } else {
        assert Receipts(pieces) == Receipts(pieces[1..]);
      }
    }
  }

  /** Receipts follow one another from `start` to `end`. */
  ghost predicate InOrder(receipts: seq<Event>, start: int, end: int) {
    && (forall e | e in receipts :: start <= e.from <= e.to <= end)
    && (forall i, j | 0 <= i < j < |receipts| :: receipts[i].to <= receipts[j].from)
  }

  lemma InOrderCons(e: Event, rest: seq<Event>, end: int)
    requires InOrder(rest, e.to, end) && e.from <= e.to <= end
    ensures InOrder([e] + rest, e.from, end)
  {
    var all := [e] + rest;
    forall i, j | 0 <= i < j < |all| ensures all[i].to <= all[j].from {
      assert all[j] == rest[j - 1] && rest[j - 1] in rest;
      assert i > 0 ==> all[i] == rest[i - 1];
    }
  }

  lemma InOrderLater(receipts: seq<Event>, start: int, later: int, end: int)
    requires InOrder(receipts, later, end) && start <= later
    ensures InOrder(receipts, start, end)
  {
  }

  /** Receipts that tile a chain follow one another inside it. */
  lemma {:induction false} ReceiptsInOrder(pieces: seq<Piece>, start: int, end: int)
    requires Chain(pieces, start, end)
    ensures start <= end && InOrder(Receipts(pieces), start, end)
  {
    if pieces != [] {
      hide InOrder;
      var rest := Receipts(pieces[1..]);
      ReceiptsInOrder(pieces[1..], End(pieces[0]), end);
      if pieces[0].Receipt? {
        InOrderCons(pieces[0].event, rest, end);
      } else {
        InOrderLater(rest, start, End(pieces[0]), end);
        assert [] + rest == rest;
      }
    }
  }

  /**
   After any run, the advance of a cursor since its first capture is the total length of
   the receipts emitted for its resource since then, plus time that each has a stated
   reason to be uncovered. Those receipts follow one another inside that advance.
   */
  lemma TimeIsConserved(sourceId: string, bootId: nat, steps: seq<Step>, k: Key)
    requires Legal(Initial(sourceId, bootId), steps)
    requires k in Run(Initial(sourceId, bootId), steps).journal.store.cursors
    ensures var w := Run(Initial(sourceId, bootId), steps);
            && k in w.coverage
            && var c, at := w.coverage[k], w.journal.store.cursors[k].at;
            && 0 < c.since <= |w.emitted| && KeyOf(w.emitted[c.since - 1].resource) == k
            && w.emitted[c.since - 1].to <= c.start
            && var receipts := Of(w.emitted[c.since..], k);
            && at - c.start == Length(receipts) + UncoveredTotal(c.pieces)
            && receipts == Receipts(c.pieces) && Chain(c.pieces, c.start, at)
            && (forall p | p in c.pieces :: Justified(p))
            && InOrder(receipts, c.start, at)
  {
    InitialDelivers(sourceId, bootId);
    RunKeepsSane(Initial(sourceId, bootId), steps);
    var w := Run(Initial(sourceId, bootId), steps);
    hide Run, Legal, Delivers, Witnessed, Justified, Initial;
    var c, at := w.coverage[k], w.journal.store.cursors[k].at;
    assert TiledBy(w, k, c, at);
    ChainAddsUp(c.pieces, c.start, at);
    ReceiptsInOrder(c.pieces, c.start, at);
    hide Chain, Receipts, Of, Length, InOrder;
  }

  // ----- The condition on re-observation is exact -----

  lemma {:induction false} UnusedId(emitted: seq<Event>) returns (id: nat)
    ensures forall e | e in emitted :: e.id < id
  {
    if emitted == [] {
      id := 0;
    } else {
      var rest := UnusedId(emitted[1..]);
      id := if emitted[0].id < rest then rest else emitted[0].id + 1;
    }
  }

  /**
   A receipt that is not recorded and never will be: every batch with it is refused, in this and
   every later ledger.
   */
  ghost predicate Wedged(l: L.Ledger, e: Event) {
    && e.id !in l.rows
    && forall later, es | L.Invariant(later) && L.Extends(l, later) && e.id !in later.rows && e in es ::
         L.Ingest(later, es).Failure?
  }

  ghost predicate Unwedged(w: World) {
    forall e | e in w.emitted :: !Wedged(w.ledger, e)
  }

  /** However the run goes on, under the assumption, no receipt gets stuck. */
  ghost predicate NeverWedges(w: World) {
    forall steps | Legal(w, steps) :: Unwedged(Run(w, steps))
  }

  /**
   The assumption on re-observation is exact. A capture that the environment allows meets
   it if and only if no continuation of the run leaves a receipt that no ledger accepts.
   */
  lemma AssumptionIsExact(w: World, s: Sample, eventId: nat, io: Io)
    requires Delivers(w) && Possible(w, Capture(s, eventId, io))
    ensures Continues(w, s, eventId, io) <==> NeverWedges(Next(w, Capture(s, eventId, io)))
  {
    hide Delivers, Wedged, Next, Possible, Legal, Run;
    var w' := Next(w, Capture(s, eventId, io));
    if Continues(w, s, eventId, io) {
      EnabledWhenContinuing(w, s, eventId, io);
      hide Continues;
      StepKeepsDelivers(w, Capture(s, eventId, io));
      forall steps | Legal(w', steps) ensures Unwedged(Run(w', steps)) {
        RunKeepsDelivers(w', steps);
        DeliversUnwedged(Run(w', steps));
      }
    } else {
      hide Continues;
      var steps := ReobservationWedges(w, s, eventId, io);
    }
  }

  lemma EnabledWhenContinuing(w: World, s: Sample, eventId: nat, io: Io)
    ensures Possible(w, Capture(s, eventId, io)) && Continues(w, s, eventId, io) ==> Enabled(w, Capture(s, eventId, io))
  {
  }

  lemma DeliversUnwedged(w: World)
    requires Delivers(w)
    ensures Unwedged(w)
  {
    forall e | e in w.emitted ensures !Wedged(w.ledger, e) {
      EmittedIsAdmissible(w, e);
      assert L.Agree(e, e);
      hide Delivers, L.Compatible, L.Agree;
      AloneIsAccepted(w.ledger, e);
    }
  }

  lemma AloneIsAccepted(l: L.Ledger, e: Event)
    requires L.Invariant(l) && WellFormed(e) && L.Compatible(l, e) && L.Agree(e, e)
    ensures !Wedged(l, e)
  {
    hide L.Invariant, L.Ingest, L.Extends, L.Admissible, L.Compatible, L.Agree, L.Records;
    AloneIsAdmissible(l, e);
    L.AdmissibleIsAccepted(l, [e]);
    assert e in [e];
    ExtendsItself(l);
  }

  lemma AloneIsAdmissible(l: L.Ledger, e: Event)
    requires WellFormed(e) && L.Compatible(l, e) && L.Agree(e, e)
    ensures L.Admissible(l, [e]) && L.Parsed([e])
  {
    hide L.Compatible, L.Agree;
  }

  lemma ExtendsItself(l: L.Ledger)
    ensures L.Extends(l, l)
  {
  }

  lemma IncompatibleIsWedged(l: L.Ledger, e: Event)
    requires !L.Compatible(l, e) && e.id !in l.rows
    ensures Wedged(l, e)
  {
    forall later, es | L.Invariant(later) && L.Extends(l, later) && e.id !in later.rows && e in es
      ensures L.Ingest(later, es).Failure?
    {
      L.IngestExact(later, es);
      if KeyOf(e.resource) in l.resources && l.resources[KeyOf(e.resource)] != e.resource {
        assert !L.Compatible(later, e);
      } else {
        var id :| id in l.rows && L.Conflicts(l.rows[id].event, e);
        assert later.rows[id] == l.rows[id];
        assert !L.Compatible(later, e);
      }
    }
  }

  // ----- A capture against the assumption -----

  /** The cursor and the observation that a capture of this sample has just left. */
  ghost predicate Observed(w: World, s: Sample) {
    var key := KeyOf(s.resource);
    && Acceptable(s) && s.state != Absent
    && key in w.journal.store.cursors && key in w.journal.observations
    && w.journal.store.cursors[key] == Cursor(s.resource, s.quantity, s.incarnation, s.state, s.at, w.journal.bootId)
    && w.journal.observations[key] == Observation(s.clock, s.at, false, 0)
  }

  /** What creating a cursor leaves: one receipt that charges nothing. */
  lemma CreatingCapture(w: World, s: Sample, eventId: nat, io: Io)
    requires J.Invariant(w.journal) && KeyOf(s.resource) !in w.journal.store.cursors
    requires KeyOf(s.resource) in CaptureStep(w, s, eventId, io).journal.store.cursors
    ensures var w' := CaptureStep(w, s, eventId, io);
            && w'.ledger == w.ledger && J.Invariant(w'.journal)
            && |w'.emitted| == |w.emitted| + 1 && w'.emitted[..|w.emitted|] == w.emitted
            && var e := w'.emitted[|w.emitted|];
            && e.id == eventId && e.resource == s.resource && !Chargeable(e) && WellFormed(e)
            && (s.state != Absent ==> Observed(w', s))
  {
    CaptureKeepsInvariant(w.journal, s, eventId, io);
    CaptureFacts(w.journal, s, eventId, io);
    CaptureCursor(w.journal, s, eventId, io);
  }

  /** Against the assumption a receipt gets stuck: at once under another owner, or a few captures later. */
  lemma ReobservationWedges(w: World, s: Sample, eventId: nat, io: Io) returns (steps: seq<Step>)
    requires Delivers(w) && Possible(w, Capture(s, eventId, io)) && !Continues(w, s, eventId, io)
    ensures var w' := Next(w, Capture(s, eventId, io));
            Legal(w', steps) && !Unwedged(Run(w', steps))
  {
    var w' := CaptureStep(w, s, eventId, io);
    assert Next(w, Capture(s, eventId, io)) == w';
    assert J.Invariant(w.journal) && forall e | e in w.emitted :: e.id != eventId;
    CreatingCapture(w, s, eventId, io);
    var x :| x in w.emitted && KeyOf(x.resource) == KeyOf(s.resource) && !Resumes(s, x);
    CollectedIsRecorded(w, x);
    hide CaptureStep, Next, J.Invariant, Wedged, Legal, Run;
    if x.resource != s.resource {
      steps := [];
      assert Legal(w', []) && Run(w', []) == w' by {
        EmptyRun(w');
      }
      var e := w'.emitted[|w.emitted|];
      FreshIsUnrecorded(w, eventId);
      hide Delivers;
      IncompatibleIsWedged(w'.ledger, e);
      assert e in w'.emitted;
    } else {
      CreationKeepsDelivering(w, s, eventId, io, x);
      hide Delivers;
      steps := OverlapFollows(w', s, x);
    }
  }

  lemma EmptyRun(w: World)
    ensures Legal(w, []) && Run(w, []) == w
  {
  }

  lemma CollectedIsRecorded(w: World, x: Event)
    requires Delivers(w) && x in w.emitted && KeyOf(x.resource) !in w.journal.store.cursors
    ensures Recorded(w.ledger, x)
  {
    var i :| 0 <= i < |w.emitted| && w.emitted[i] == x;
  }

  lemma FreshIsUnrecorded(w: World, id: nat)
    requires Delivering(w) && forall e | e in w.emitted :: e.id != id
    ensures id !in w.ledger.rows
  {
    assert forall i | i in w.ledger.rows :: w.ledger.rows[i].event in w.emitted && w.ledger.rows[i].event.id == i;
  }

  /** Under the owner of the earlier receipts, the first one of a new cursor leaves delivery as it was. */
  lemma CreationKeepsDelivering(w: World, s: Sample, eventId: nat, io: Io, x: Event)
    requires Delivering(w) && (forall e | e in w.emitted :: e.id != eventId)
             && KeyOf(s.resource) !in w.journal.store.cursors
    requires KeyOf(s.resource) in CaptureStep(w, s, eventId, io).journal.store.cursors
    requires x in w.emitted && x.resource == s.resource
    ensures Delivering(CaptureStep(w, s, eventId, io))
  {
    hide CaptureStep, J.Invariant, L.Invariant, RowsIssued, Conserved, Consistent, CaptureEffect;
    var w' := CaptureStep(w, s, eventId, io);
    CaptureHasEffect(w, s, eventId, io);
    CreatingCapture(w, s, eventId, io);
    CaptureKeepsRows(w, w', s, eventId);
    var e := w'.emitted[|w.emitted|];
    assert w'.emitted == w.emitted + [e];
    SameOwnerFollows(w.emitted, x, e);
    AppendKeepsConsistent(w.emitted, e);
  }

  lemma SameOwnerFollows(emitted: seq<Event>, x: Event, e: Event)
    requires Consistent(emitted) && x in emitted && x.resource == e.resource && !Chargeable(e)
    requires forall y | y in emitted :: y.id != e.id
    ensures Follows(emitted, e)
  {
    forall y | y in emitted && KeyOf(y.resource) == KeyOf(e.resource) ensures y.resource == e.resource {
      EmittedAgree(emitted, x, y);
    }
    hide Consistent, Chargeable;
  }

  // ----- The captures that overlap a charge -----

  function Awake(s: Sample): Sample {
    if Active(s.state) then s else s.(state := Retained)
  }

  /** The same resource seen running at a later time. */
  function Seen(s: Sample, at: int, clock: int): Sample {
    Awake(s).(at := at, clock := clock, uncertain := None)
  }

  const COMMITTING := Io(true, true)

  lemma SeenIsAcceptable(s: Sample, at: int, clock: int)
    requires Acceptable(s) && at >= s.at && clock != 0
    ensures Acceptable(Seen(s, at, clock)) && Active(Seen(s, at, clock).state)
    ensures KeyOf(Seen(s, at, clock).resource) == KeyOf(s.resource)
  {
  }

  /** Whatever was seen before, an active sample moves the cursor. */
  lemma LaterCapture(w: World, s: Sample, at: int, clock: int, id: nat)
    requires J.Invariant(w.journal) && Observed(w, s) && at >= s.at && clock != 0
    requires |w.journal.store.pending| < MAX_PENDING
    ensures var w' := CaptureStep(w, Seen(s, at, clock), id, COMMITTING);
            && Observed(w', Seen(s, at, clock)) && w'.ledger == w.ledger && J.Invariant(w'.journal)
            && |w'.journal.store.pending| <= |w.journal.store.pending| + 1
  {
    var next := Seen(s, at, clock);
    SeenIsAcceptable(s, at, clock);
    CaptureKeepsInvariant(w.journal, next, id, COMMITTING);
    LaterTransaction(w.journal, s, next, id);
    hide Transact, J.Invariant, Acceptable;
  }

  lemma LaterTransaction(j: State, s: Sample, next: Sample, id: nat)
    requires Sound(j.store) && |j.store.pending| < MAX_PENDING
    requires KeyOf(s.resource) in j.store.cursors && next.resource == s.resource && Active(next.state)
    requires j.store.cursors[KeyOf(s.resource)]
             == Cursor(s.resource, next.quantity, next.incarnation, s.state, s.at, j.bootId)
    requires s.state != Absent && next.at >= s.at
    ensures var a := Annotated(next, Lookup(j.observations, KeyOf(s.resource)));
            var t := Transact(j.store, a, j.sourceId, j.bootId, id);
            && t.Success? && t.value.captured && KeyOf(s.resource) in t.value.store.cursors
            && t.value.store.cursors[KeyOf(s.resource)]
               == Cursor(next.resource, next.quantity, next.incarnation, next.state, next.at, j.bootId)
            && |t.value.store.pending| <= |j.store.pending| + 1
  {
  }

  /** One millisecond on, an undisturbed active resource is charged. */
  lemma ChargingCapture(w: World, s: Sample, id: nat)
    requires J.Invariant(w.journal) && Observed(w, s) && Active(s.state) && s.uncertain.None?
    requires |w.journal.store.pending| < MAX_PENDING && s.clock > 0
    ensures var w' := CaptureStep(w, Seen(s, s.at + 1, s.clock + 1_000_000), id, COMMITTING);
            && w'.ledger == w.ledger && |w'.emitted| == |w.emitted| + 1
            && var e := w'.emitted[|w.emitted|];
            && Chargeable(e) && e.from == s.at && e.to == s.at + 1 && e.id == id && e.resource == s.resource
  {
    var next := Seen(s, s.at + 1, s.clock + 1_000_000);
    assert Milliseconds(1_000_000) == 1;
    assert Annotated(next, Some(w.journal.observations[KeyOf(s.resource)])) == next;
  }

  lemma IdsStayBelow(w: World, s: Sample, id: nat)
    requires J.Invariant(w.journal) && forall y | y in w.emitted :: y.id < id
    ensures forall y | y in CaptureStep(w, s, id, COMMITTING).emitted :: y.id < id + 1
  {
    var w' := CaptureStep(w, s, id, COMMITTING);
    CaptureHasEffect(w, s, id, COMMITTING);
    if w'.emitted != w.emitted {
      assert w'.emitted == w'.emitted[..|w.emitted|] + [w'.emitted[|w.emitted|]];
    }
  }

  lemma OverlapIsIncompatible(l: L.Ledger, x: Event, e: Event)
    requires Recorded(l, x) && e.id !in l.rows && KeyOf(x.resource) == KeyOf(e.resource)
    requires Chargeable(x) && Chargeable(e) && Overlap(x, e)
    ensures !L.Compatible(l, e)
  {
    assert L.Conflicts(l.rows[x.id].event, e);
  }

  /** A cursor behind a recorded charge is led to charge the same time again. */
  ghost predicate Behind(w: World, s: Sample, x: Event) {
    && Delivering(w) && Observed(w, s) && Recorded(w.ledger, x)
    && KeyOf(x.resource) == KeyOf(s.resource) && Chargeable(x) && s.at < x.to
  }

  lemma OverlapFollows(w: World, s: Sample, x: Event) returns (steps: seq<Step>)
    requires Behind(w, s, x)
    ensures Legal(w, steps) && !Unwedged(Run(w, steps))
  {
    var drain, w1 := MakeRoom(w, s, x);
    hide Behind, Legal, Run, Unwedged;
    var rest := TwoCaptures(w1, s, x);
    steps := drain + rest;
    RunAppend(w, drain, rest);
  }

  lemma {:induction false} RunAppend(w: World, a: seq<Step>, b: seq<Step>)
    requires Legal(w, a) && Legal(Run(w, a), b)
    ensures Legal(w, a + b) && Run(w, a + b) == Run(Run(w, a), b)
    decreases |a|
  {
    hide Enabled, Next;
    if a == [] {
      assert a + b == b;
    } else {
      assert (a + b)[0] == a[0] && (a + b)[1..] == a[1..] + b;
      RunAppend(Next(w, a[0]), a[1..], b);
    }
  }

  lemma DeliveryKeepsObserved(w: World, rows: seq<Row>, s: Sample)
    requires Observed(w, s)
    ensures Observed(w.(journal := Acknowledged(w.journal, rows)), s)
  {
    hide Without, Acceptable;
  }

  lemma SameCursorObserved(w: World, w': World, s: Sample)
    requires Observed(w, s) && w'.journal == w.journal
    ensures Observed(w', s)
  {
  }

  /** A full outbox is emptied by one delivery first. */
  lemma MakeRoom(w: World, s: Sample, x: Event) returns (steps: seq<Step>, w': World)
    requires Behind(w, s, x)
    ensures Legal(w, steps) && Run(w, steps) == w' && Behind(w', s, x)
    ensures |w'.journal.store.pending| + 2 <= MAX_PENDING
  {
    if |w.journal.store.pending| + 2 <= MAX_PENDING {
      steps, w' := [], w;
      EmptyRun(w);
    } else {
      steps, w' := DeliverOnce(w, s, x);
    }
  }

  lemma DeliverOnce(w: World, s: Sample, x: Event) returns (steps: seq<Step>, w': World)
    requires Behind(w, s, x) && |w.journal.store.pending| + 2 > MAX_PENDING
    ensures Legal(w, steps) && Run(w, steps) == w' && Behind(w', s, x)
    ensures |w'.journal.store.pending| + 2 <= MAX_PENDING
  {
    BehindMeans(w, s, x);
    hide Delivering, Recorded, Next, Without, Observed, Behind, Run, Legal, Ordered;
    var pending := w.journal.store.pending;
    var rows := pending[..BATCH_LIMIT];
    steps := [Read, Post(rows), Acknowledge(rows)];
    WithoutPrefix(pending, w.journal.store.sequence, BATCH_LIMIT);
    var w2 := ReadAndPosted(w, rows);
    SameCursorObserved(w, w2, s);
    AcknowledgeKeepsDelivering(w2, rows);
    DeliveryKeepsObserved(w2, rows, s);
    w' := Next(w2, Acknowledge(rows));
    RunThree(w, steps[0], steps[1], steps[2]);
    IsBehind(w', s, x);
  }

  lemma ReadAndPosted(w: World, rows: seq<Row>) returns (w2: World)
    requires Delivering(w) && |w.journal.store.pending| >= BATCH_LIMIT && rows == w.journal.store.pending[..BATCH_LIMIT]
    ensures w2 == Next(Next(w, Read), Post(rows)) && Delivering(w2) && rows in w2.accepted && w2.journal == w.journal
    ensures Enabled(w, Read) && Enabled(Next(w, Read), Post(rows)) && Enabled(w2, Acknowledge(rows))
    ensures forall e | Recorded(w.ledger, e) :: Recorded(w2.ledger, e)
  {
    hide Delivering, Recorded, Next;
    ReadKeepsDelivering(w);
    PostKeepsDelivering(Next(w, Read), rows);
    w2 := Next(Next(w, Read), Post(rows));
  }

  lemma BehindMeans(w: World, s: Sample, x: Event)
    requires Behind(w, s, x)
    ensures Delivering(w) && Observed(w, s) && Recorded(w.ledger, x)
    ensures KeyOf(x.resource) == KeyOf(s.resource) && Chargeable(x) && s.at < x.to
    ensures J.Invariant(w.journal) && Ordered(w.journal.store.pending, w.journal.store.sequence)
    ensures |w.journal.store.pending| <= MAX_PENDING
  {
  }

  lemma IsBehind(w: World, s: Sample, x: Event)
    requires Delivering(w) && Observed(w, s) && Recorded(w.ledger, x)
    requires KeyOf(x.resource) == KeyOf(s.resource) && Chargeable(x) && s.at < x.to
    ensures Behind(w, s, x)
  {
  }

  lemma RunThree(w: World, a: Step, b: Step, c: Step)
    ensures Run(w, [a, b, c]) == Next(Next(Next(w, a), b), c)
    ensures Enabled(w, a) && Enabled(Next(w, a), b) && Enabled(Next(Next(w, a), b), c) ==> Legal(w, [a, b, c])
  {
    assert [a, b, c][0] == a && [a, b, c][1..] == [b, c];
    RunTwo(Next(w, a), b, c);
    hide Next, Enabled;
  }

  lemma RunTwo(w: World, a: Step, b: Step)
    ensures Run(w, [a, b]) == Next(Next(w, a), b)
    ensures Enabled(w, a) && Enabled(Next(w, a), b) ==> Legal(w, [a, b])
  {
    var w1, w2 := Next(w, a), Next(Next(w, a), b);
    hide Next, Enabled;
    assert [a, b][1..] == [b] && [b][1..] == [];
    assert Run(w2, []) == w2 && Run(w1, [b]) == w2;
    assert Legal(w2, []);
  }

  /** Once a cursor is there the assumption asks nothing. */
  lemma KnownResourceIsEnabled(w: World, s: Sample, id: nat)
    requires KeyOf(s.resource) in w.journal.store.cursors && forall e | e in w.emitted :: e.id < id
    ensures Enabled(w, Capture(s, id, COMMITTING))
    ensures Next(w, Capture(s, id, COMMITTING)) == CaptureStep(w, s, id, COMMITTING)
  {
    hide CaptureStep;
  }

  lemma TwoCaptures(w: World, s: Sample, x: Event) returns (steps: seq<Step>)
    requires Behind(w, s, x) && |w.journal.store.pending| + 2 <= MAX_PENDING
    ensures Legal(w, steps) && !Unwedged(Run(w, steps))
  {
    var at, clock := Max(s.at, x.from), if s.clock > 0 then s.clock else 1;
    var id := UnusedId(w.emitted);
    BehindMeans(w, s, x);
    FreshIsUnrecorded(w, id + 1);
    hide CaptureStep, Behind, Delivering, J.Invariant, Observed, Legal, Run;
    hide Wedged, Enabled, Next, Recorded, Acceptable, Seen;
    var first := Seen(s, at, clock);
    var second := Seen(first, at + 1, clock + 1_000_000);
    var w1 := CaptureStep(w, first, id, COMMITTING);
    var w2 := CaptureStep(w1, second, id + 1, COMMITTING);
    ChargedAgain(w, s, at, clock, id);
    steps := [Capture(first, id, COMMITTING), Capture(second, id + 1, COMMITTING)];
    RunTwo(w, steps[0], steps[1]);
    var e := w2.emitted[|w1.emitted|];
    OverlapIsIncompatible(w2.ledger, x, e);
    IncompatibleIsWedged(w2.ledger, e);
    assert e in w2.emitted;
  }

  lemma ChargedAgain(w: World, s: Sample, at: int, clock: int, id: nat)
    requires J.Invariant(w.journal) && Observed(w, s) && at >= s.at && clock > 0
    requires |w.journal.store.pending| + 2 <= MAX_PENDING && forall e | e in w.emitted :: e.id < id
    ensures var first := Seen(s, at, clock);
            var second := Seen(first, at + 1, clock + 1_000_000);
            var w1 := CaptureStep(w, first, id, COMMITTING);
            var w2 := CaptureStep(w1, second, id + 1, COMMITTING);
            && Enabled(w, Capture(first, id, COMMITTING)) && Next(w, Capture(first, id, COMMITTING)) == w1
            && Enabled(w1, Capture(second, id + 1, COMMITTING)) && Next(w1, Capture(second, id + 1, COMMITTING)) == w2
            && w2.ledger == w.ledger && |w2.emitted| == |w1.emitted| + 1
            && var e := w2.emitted[|w1.emitted|];
            && Chargeable(e) && e.from == at && e.to == at + 1 && e.id == id + 1 && e.resource == s.resource
  {
    var first := Seen(s, at, clock);
    var second := Seen(first, at + 1, clock + 1_000_000);
    SeenMeans(s, at, clock);
    SeenMeans(first, at + 1, clock + 1_000_000);
    hide CaptureStep, J.Invariant, Enabled, Next, Acceptable, Seen, Chargeable;
    var w1 := CaptureStep(w, first, id, COMMITTING);
    ObservedHasCursor(w, s);
    KnownResourceIsEnabled(w, first, id);
    LaterCapture(w, s, at, clock, id);
    IdsStayBelow(w, first, id);
    ObservedHasCursor(w1, first);
    KnownResourceIsEnabled(w1, second, id + 1);
    hide Observed;
    ChargingCapture(w1, first, id + 1);
  }

  lemma SeenMeans(s: Sample, at: int, clock: int)
    ensures var next := Seen(s, at, clock);
            next.resource == s.resource && next.at == at && next.clock == clock && next.uncertain.None?
                && Active(next.state)
  {
  }

  lemma ObservedHasCursor(w: World, s: Sample)
    requires Observed(w, s)
    ensures KeyOf(s.resource) in w.journal.store.cursors
  {
  }
}
