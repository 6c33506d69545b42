/**
 Capture of what one admitted model request reports. The request's terminal receipt
 waits for every producer of usage that is still held, and the journal's active row
 stands in for it until then, across crashes.
 */
module UsageCapture {
  import opened Wrappers
  import opened UsageJournal

  datatype Capture = Capture(context: Attribution, producers: nat, finished: Option<Event>, settled: bool)

  /** One request's capture with the journal it reports to. */
  datatype Held = Held(store: Store, failures: nat, capture: Capture)

  /** `io` says whether the disk takes the transaction. */
  predicate Writes(h: Held, encode: Encoder, e: Event, io: bool) {
    io && Append(h.store, encode, e).Success?
  }

  function Reported(h: Held, encode: Encoder, e: Event, io: bool): Held {
    if Writes(h, encode, e, io) then h.(store := Append(h.store, encode, e).value) else h.(failures := h.failures + 1)
  }

  predicate Due(c: Capture) {
    !c.settled && c.finished.Some? && c.producers == 0
  }

  predicate Settles(h: Held, encode: Encoder, io: bool) {
    Due(h.capture) && Writes(h, encode, h.capture.finished.value, io)
  }

  function Settled(h: Held, encode: Encoder, io: bool): Held {
    if !Due(h.capture) then h
    else
      Reported(h, encode, h.capture.finished.value, io)
      .(capture := h.capture.(settled := Writes(h, encode, h.capture.finished.value, io)))
  }

  function Ending(h: Held, e: Event): Held {
    if h.capture.finished.None? then h.(capture := h.capture.(finished := Some(e))) else h
  }

  /** A producer that comes after the terminal receipt is counted as a failure and admitted again. */
  function Retained(h: Held, capacity: nat, encode: Encoder, io: bool): Held {
    var c := h.capture.(producers := h.capture.producers + 1);
    if !h.capture.settled then h.(capture := c)
    else
      Held(if Readmits(h, capacity, encode, io) then Admit(h.store, capacity, encode, c.context).value else h.store,
           h.failures + 1, c.(settled := false))
  }

  predicate Readmits(h: Held, capacity: nat, encode: Encoder, io: bool) {
    h.capture.settled && io && Admit(h.store, capacity, encode, h.capture.context).Success?
  }

  function Leaving(h: Held): Held
    requires h.capture.producers > 0
  {
    h.(capture := h.capture.(producers := h.capture.producers - 1))
  }

  // ----- All requests, crashes and deliveries -----

  /** The history of the journal: admissions, and receipts with the capture that wrote them. */
  datatype Entry =
    | Admitted(invocation: string)
    | Journaled(writer: Option<nat>, event: Event)

  /** `clean` is history: the captures of earlier processes in which none ever failed. */
  datatype World = World(
    capacity: nat,
    encode: Encoder,
    store: Store,
    running: bool,
    failures: nat,
    captures: map<nat, Capture>,
    serials: nat,
    batch: seq<Item>,
    accepted: bool,
    delivered: set<Item>,
    log: seq<Entry>,
    clean: set<nat>)

  datatype Step =
    | Begin(ctx: Attribution)
    | Finish(c: nat, event: Event, io: bool)
    | Retain(c: nat, io: bool)
    | Release(c: nat, io: bool)
    | Record(c: nat, event: Event, io: bool)
    | Restart(order: seq<string>, now: string)
    | Read(items: seq<Item>)
    | Deliver
    | Remove

  function Initial(capacity: nat, encode: Encoder): World {
    World(capacity, encode, EMPTY, true, 0, map[], 0, [], false, {}, [], {})
  }

  function HeldBy(w: World, c: nat): Held
    requires c in w.captures
  {
    Held(w.store, w.failures, w.captures[c])
  }

  function With(w: World, c: nat, h: Held, entries: seq<Entry>): World {
    w.(store := h.store, failures := h.failures, captures := w.captures[c := h.capture], log := w.log + entries)
  }

  ghost predicate Enabled(w: World, step: Step) {
    match step
    case Begin(_) => w.running
    case Finish(c, e, _) =>
      c in w.captures && e.kind == Finished && e.context == w.captures[c].context && e.execution == ""
    case Retain(c, _) => c in w.captures
    case Release(c, _) => c in w.captures && w.captures[c].producers > 0
    // Receipts come from a producer that is held.
    case Record(c, e, _) =>
      && c in w.captures && w.captures[c].producers > 0
      && (e.kind == Attempt || e.kind == Usage) && e.context == w.captures[c].context
    case Restart(order, _) => Visits(w.store.active, order)
    case Read(items) => w.running && w.batch == [] && items != [] && Batch(w.store, items)
    case Deliver => w.batch != []
    case Remove => w.batch != [] && w.accepted
  }

  /** The receipt of the settlement, if it is written. */
  function Settlement(c: nat, h: Held, encode: Encoder, io: bool): seq<Entry> {
    if Settles(h, encode, io) then [Journaled(Some(c), h.capture.finished.value)] else []
  }

  function Interruptions(active: map<string, Attribution>, order: seq<string>, now: string): seq<Entry>
    requires forall i | i in order :: i in active
  {
    seq(|order|, k requires 0 <= k < |order| => Journaled(None, Interruption(active[order[k]], now)))
  }

  ghost function Next(w: World, step: Step): World
    requires Enabled(w, step)
  {
    match step
    case Begin(ctx) =>
      var r := Admit(w.store, w.capacity, w.encode, ctx);
      if r.Failure? then w
      else
        w.(store := r.value, captures := w.captures[w.serials := Capture(ctx, 0, None, false)],
            serials := w.serials + 1,
           log := w.log + [Admitted(ctx.invocation), Journaled(Some(w.serials), StartOf(ctx))])
    case Finish(c, e, io) =>
      var h := Ending(HeldBy(w, c), e);
      With(w, c, Settled(h, w.encode, io), Settlement(c, h, w.encode, io))
    case Retain(c, io) =>
      var h := HeldBy(w, c);
      With(w, c, Retained(h, w.capacity, w.encode, io),
           if Readmits(h, w.capacity, w.encode, io)
           then [Admitted(h.capture.context.invocation), Journaled(Some(c), StartOf(h.capture.context))] else [])
    case Release(c, io) =>
      var h := Leaving(HeldBy(w, c));
      With(w, c, Settled(h, w.encode, io), Settlement(c, h, w.encode, io))
    case Record(c, e, io) =>
      var h := HeldBy(w, c);
      With(w, c, Reported(h, w.encode, e, io), if Writes(h, w.encode, e, io) then [Journaled(Some(c), e)] else [])
    case Restart(order, now) =>
      var r := Recover(w.store, w.encode, order, now);
      var died := w.(failures := 0, captures := map[], batch := [], accepted := false,
                     clean := if w.failures == 0 then w.clean + w.captures.Keys else w.clean);
      if r.Failure? then died.(running := false)
      else died.(running := true, store := r.value, log := w.log + Interruptions(w.store.active, order, now))
    case Read(items) => w.(batch := items, accepted := false)
    case Deliver => w.(accepted := true, delivered := w.delivered + set item | item in w.batch)
    case Remove =>
      var r := Acknowledge(w.store, w.batch);
      if r.Failure? then w.(batch := [], accepted := false)
      else w.(store := r.value, batch := [], accepted := false)
  }

  ghost predicate Legal(w: World, steps: seq<Step>)
    decreases |steps|
  {
    steps == [] || (Enabled(w, steps[0]) && Legal(Next(w, steps[0]), steps[1..]))
  }

  ghost function Run(w: World, steps: seq<Step>): World
    requires Legal(w, steps)
    decreases |steps|
  {
    if steps == [] then w else Run(Next(w, steps[0]), steps[1..])
  }

  // ----- What every reachable world satisfies -----

  predicate Terminal(entry: Entry, invocation: string) {
    entry.Journaled? && (entry.event.kind == Finished || entry.event.kind == Interrupted)
    && entry.event.context.invocation == invocation
  }

  /** The admission at `i` was answered by a terminal receipt. */
  ghost predicate Answered(log: seq<Entry>, i: nat, invocation: string) {
    exists j :: i < j < |log| && Terminal(log[j], invocation)
  }

  /** Every admission is still active or was answered. */
  ghost predicate Attributable(log: seq<Entry>, active: map<string, Attribution>) {
    forall i | 0 <= i < |log| && log[i].Admitted? ::
      log[i].invocation in active || Answered(log, i, log[i].invocation)
  }

  ghost predicate Safe(w: World, e: Event) {
    (Id(e) in w.store.pending && w.store.pending[Id(e)] == w.encode(e)) || Item(Id(e), w.encode(e)) in w.delivered
  }

  /** Every receipt ever journaled is still stored or was delivered. */
  ghost predicate Conserved(w: World) {
    forall i | 0 <= i < |w.log| && w.log[i].Journaled? :: Safe(w, w.log[i].event)
  }

  ghost predicate BatchSound(w: World) {
    && (forall item | item in w.batch :: item.key in w.store.pending && w.store.pending[item.key] == item.raw)
    && (w.accepted ==> forall item | item in w.batch :: item in w.delivered)
  }

  predicate Finishes(entry: Entry, c: nat) {
    entry.Journaled? && entry.writer == Some(c) && entry.event.kind == Finished
  }

  ghost predicate Ended(log: seq<Entry>, c: nat) {
    exists i :: 0 <= i < |log| && Finishes(log[i], c)
  }

  /** The terminal receipt of a capture comes after all its others. */
  ghost predicate LastWord(log: seq<Entry>, c: nat) {
    forall i, j | 0 <= i < j < |log| && Finishes(log[i], c) && log[j].Journaled? :: log[j].writer != Some(c)
  }

  ghost predicate CaptureSound(w: World, c: nat)
    requires c in w.captures
  {
    var k := w.captures[c];
    && (k.finished.Some? ==> k.finished.value.kind == Finished && k.finished.value.context == k.context)
    && (k.settled ==> k.producers == 0 && k.finished.Some? && Ended(w.log, c))
    && (w.failures == 0 ==>
          && (Ended(w.log, c) ==> k.settled)
          && (!k.settled ==> k.context.invocation in w.store.active)
          && (k.finished.Some? && k.producers == 0 ==> k.settled)
          && LastWord(w.log, c))
  }

  /** Nobody writes for a request of an earlier process any more. */
  ghost predicate CleanSound(w: World) {
    forall c | c in w.clean :: c < w.serials && c !in w.captures && LastWord(w.log, c)
  }

  ghost predicate Sound(w: World) {
    && CleanSound(w) && UsageJournal.Invariant(w.store)
    && Attributable(w.log, w.store.active) && Conserved(w) && BatchSound(w)
    && (forall c | c in w.captures :: c < w.serials && CaptureSound(w, c))
    && (forall i | 0 <= i < |w.log| && w.log[i].Journaled? && w.log[i].writer.Some? ::
          w.log[i].writer.value < w.serials)
    && (w.failures == 0 ==>
          forall c, d | c in w.captures && d in w.captures && !w.captures[c].settled && !w.captures[d].settled
                        && w.captures[c].context.invocation == w.captures[d].context.invocation :: c == d)
  }

  // ----- The journal's history -----

  ghost predicate Keeps(pending: map<string, string>, later: map<string, string>) {
    forall k | k in pending :: k in later && later[k] == pending[k]
  }

  /** What a step adds to the history, and why nothing that was promised before is lost. */
  ghost predicate Grows(w: World, w': World, entries: seq<Entry>) {
    && w'.log == w.log + entries && w'.encode == w.encode && w.delivered <= w'.delivered
    && Keeps(w.store.pending, w'.store.pending)
    && (forall i | i in w.store.active :: i in w'.store.active || exists e :: e in entries && Terminal(e, i))
    && (forall e | e in entries && e.Admitted? :: e.invocation in w'.store.active)
    && (forall e | e in entries && e.Journaled? :: Safe(w', e.event))
  }

  lemma GrowthKeepsAttributable(w: World, w': World, entries: seq<Entry>)
    requires Grows(w, w', entries) && Attributable(w.log, w.store.active)
    ensures Attributable(w'.log, w'.store.active)
  {
    hide Keeps, Safe, Terminal;
    forall i | 0 <= i < |w'.log| && w'.log[i].Admitted?
      ensures w'.log[i].invocation in w'.store.active || Answered(w'.log, i, w'.log[i].invocation)
    {
      if i < |w.log| {
        AnswersStay(w.log, entries, i, w.log[i].invocation);
        if w.log[i].invocation in w.store.active && w.log[i].invocation !in w'.store.active {
          var e :| e in entries && Terminal(e, w.log[i].invocation);
          var j :| 0 <= j < |entries| && entries[j] == e;
          assert w'.log[|w.log| + j] == e;
        }
      } else {
        assert w'.log[i] in entries;
      }
    }
  }

  lemma AnswersStay(log: seq<Entry>, entries: seq<Entry>, i: nat, invocation: string)
    ensures Answered(log, i, invocation) ==> Answered(log + entries, i, invocation)
  {
    if Answered(log, i, invocation) {
      var j :| i < j < |log| && Terminal(log[j], invocation);
      assert (log + entries)[j] == log[j];
    }
  }

  lemma GrowthKeepsConserved(w: World, w': World, entries: seq<Entry>)
    requires Grows(w, w', entries) && Conserved(w)
    ensures Conserved(w')
  {
    forall i | 0 <= i < |w'.log| && w'.log[i].Journaled? ensures Safe(w', w'.log[i].event) {
      if i < |w.log| {
        assert Safe(w, w.log[i].event);
      } else {
        assert w'.log[i] in entries;
      }
    }
  }

  // ----- Steps of one capture -----

  /** What an append does to the store. */
  lemma AppendFacts(s: Store, encode: Encoder, e: Event)
    requires UsageJournal.Invariant(s) && Append(s, encode, e).Success?
    ensures var s' := Append(s, encode, e).value;
            && UsageJournal.Invariant(s') && Keeps(s.pending, s'.pending)
            && Id(e) in s'.pending && s'.pending[Id(e)] == encode(e)
            && s'.active == if e.kind == Finished then s.active - {e.context.invocation} else s.active
  {
    PutFacts(s, encode, e);
  }

  lemma AdmitFacts(s: Store, capacity: nat, encode: Encoder, ctx: Attribution)
    requires UsageJournal.Invariant(s) && Admit(s, capacity, encode, ctx).Success?
    ensures var s', e := Admit(s, capacity, encode, ctx).value, StartOf(ctx);
            && UsageJournal.Invariant(s') && Keeps(s.pending, s'.pending)
            && Id(e) in s'.pending && s'.pending[Id(e)] == encode(e)
            && ctx.invocation !in s.active && s'.active == s.active[ctx.invocation := ctx]
  {
    PutFacts(s.(active := s.active[ctx.invocation := ctx]), encode, StartOf(ctx));
  }

  /** What a capture's step may do: to its own flags, to the journal, and to the history. */
  ghost predicate Moves(w: World, w': World, c: nat, entries: seq<Entry>) {
    && c in w.captures && c in w'.captures
    && w' == w.(store := w'.store, failures := w'.failures, captures := w.captures[c := w'.captures[c]],
                log := w.log + entries)
    && w.failures <= w'.failures && w'.captures[c].context == w.captures[c].context
    && UsageJournal.Invariant(w'.store) && Keeps(w.store.pending, w'.store.pending)
    && (forall e | e in entries && e.Journaled? :: e.writer == Some(c) && Safe(w', e.event))
    && (forall e | e in entries && e.Admitted? :: e.invocation in w'.store.active)
    && (if exists e :: e in entries && Finishes(e, c)
        then
          && |entries| == 1
          && w'.store.active == w.store.active - {w.captures[c].context.invocation}
          && Terminal(entries[0], w.captures[c].context.invocation)
          && w'.captures[c].settled && !w.captures[c].settled && w'.captures[c].producers == 0
        else w.store.active.Keys <= w'.store.active.Keys)
    && (w'.failures == 0 && entries != [] && !Finishes(entries[0], c) ==> w.captures[c].producers > 0)
  }

  lemma SettlementMoves(w: World, c: nat, h: Held, io: bool)
    requires Sound(w) && c in w.captures
    requires h == Held(w.store, w.failures, h.capture) && h.capture.context == w.captures[c].context
    requires h.capture.settled == w.captures[c].settled
    requires h.capture.finished.Some? ==>
               h.capture.finished.value.kind == Finished && h.capture.finished.value.context == h.capture.context
    ensures Moves(w, With(w, c, Settled(h, w.encode, io), Settlement(c, h, w.encode, io)), c,
            Settlement(c, h, w.encode, io))
  {
    hide Attributable, Conserved, BatchSound, CaptureSound;
    var entries := Settlement(c, h, w.encode, io);
    if Settles(h, w.encode, io) {
      var e := h.capture.finished.value;
      AppendFacts(w.store, w.encode, e);
      assert Finishes(entries[0], c) && entries[0] in entries;
    } else {
      assert entries == [];
    }
  }

  lemma ReportMoves(w: World, c: nat, e: Event, io: bool)
    requires Sound(w) && Enabled(w, Record(c, e, io))
    ensures Moves(w, Next(w, Record(c, e, io)), c,
                  if Writes(HeldBy(w, c), w.encode, e, io) then [Journaled(Some(c), e)] else [])
  {
    hide Attributable, Conserved, BatchSound, CaptureSound;
    if Writes(HeldBy(w, c), w.encode, e, io) {
      AppendFacts(w.store, w.encode, e);
    }
  }

  lemma RetainMoves(w: World, c: nat, io: bool)
    requires Sound(w) && Enabled(w, Retain(c, io))
    ensures Moves(w, Next(w, Retain(c, io)), c,
                  if Readmits(HeldBy(w, c), w.capacity, w.encode, io)
                  then [Admitted(w.captures[c].context.invocation),
                      Journaled(Some(c), StartOf(w.captures[c].context))] else [])
  {
    StoreIsSound(w);
    if Readmits(HeldBy(w, c), w.capacity, w.encode, io) {
      ReadmissionMoves(w, c, io);
    } else {
      SilentRetainMoves(w, c, io);
    }
    hide Sound, Moves, Next, Enabled, Readmits;
  }

  lemma ReadmissionMoves(w: World, c: nat, io: bool)
    requires UsageJournal.Invariant(w.store) && c in w.captures && Readmits(HeldBy(w, c), w.capacity, w.encode, io)
    ensures Moves(w, Next(w, Retain(c, io)), c,
                  [Admitted(w.captures[c].context.invocation), Journaled(Some(c), StartOf(w.captures[c].context))])
  {
    AdmitFacts(w.store, w.capacity, w.encode, w.captures[c].context);
    hide Admit, Id, UsageJournal.Invariant;
  }

  lemma SilentRetainMoves(w: World, c: nat, io: bool)
    requires UsageJournal.Invariant(w.store) && c in w.captures && !Readmits(HeldBy(w, c), w.capacity, w.encode, io)
    ensures Moves(w, Next(w, Retain(c, io)), c, [])
  {
    hide Admit, UsageJournal.Invariant;
  }

  lemma MoveGrows(w: World, w': World, c: nat, entries: seq<Entry>)
    requires Moves(w, w', c, entries)
    ensures Grows(w, w', entries)
  {
    hide Safe, Keeps, Finishes;
    forall i | i in w.store.active ensures i in w'.store.active || exists e :: e in entries && Terminal(e, i) {
      if exists e :: e in entries && Finishes(e, c) {
        assert entries[0] in entries;
      }
    }
  }

  lemma EndedGrows(log: seq<Entry>, entries: seq<Entry>, d: nat)
    ensures Ended(log + entries, d) <==> Ended(log, d) || Ended(entries, d)
  {
    hide Finishes;
    if Ended(log, d) {
      var i :| 0 <= i < |log| && Finishes(log[i], d);
      assert Finishes((log + entries)[i], d);
    }
    if Ended(entries, d) {
      var i :| 0 <= i < |entries| && Finishes(entries[i], d);
      assert Finishes((log + entries)[|log| + i], d);
    }
    if Ended(log + entries, d) {
      var i :| 0 <= i < |log + entries| && Finishes((log + entries)[i], d);
      assert if i < |log| then Finishes(log[i], d) else Finishes(entries[i - |log|], d);
    }
  }

  lemma LastWordGrows(log: seq<Entry>, entries: seq<Entry>, d: nat)
    requires LastWord(log, d) && LastWord(entries, d)
    requires Ended(log, d) ==> forall e | e in entries && e.Journaled? :: e.writer != Some(d)
    ensures LastWord(log + entries, d)
  {
    var all := log + entries;
    forall i, j | 0 <= i < j < |all| && Finishes(all[i], d) && all[j].Journaled? ensures all[j].writer != Some(d) {
      if i < |log| {
        assert Finishes(log[i], d);
        if j >= |log| {
          assert all[j] in entries;
        }
      } else {
        assert all[i] == entries[i - |log|] && all[j] == entries[j - |log|];
      }
    }
  }

  lemma MoveEnds(w: World, w': World, c: nat, entries: seq<Entry>, d: nat)
    requires Moves(w, w', c, entries)
    ensures Ended(entries, d) <==> d == c && entries != [] && Finishes(entries[0], c)
    ensures LastWord(entries, d)
    ensures d != c ==> forall e | e in entries && e.Journaled? :: e.writer != Some(d)
  {
    hide Safe, Keeps, Terminal;
    if Ended(entries, d) {
      var i :| 0 <= i < |entries| && Finishes(entries[i], d);
      assert entries[i] in entries;
    }
    if entries != [] && Finishes(entries[0], c) {
      assert entries[0] in entries;
      assert Ended(entries, c);
    }
  }

  /** A capture that reported without failure is not reported about again after its last word. */
  lemma MoveKeepsLastWord(w: World, w': World, c: nat, entries: seq<Entry>, d: nat)
    requires Moves(w, w', c, entries) && Sound(w) && d in w.captures && w'.failures == 0
    ensures LastWord(w'.log, d)
    ensures Ended(w'.log, d) <==> Ended(w.log, d) || (d == c && entries != [] && Finishes(entries[0], c))
  {
    assert CaptureSound(w, d) && CaptureSound(w, c);
    hide Sound, Safe, Keeps, Finishes, Terminal, Ended, LastWord;
    MoveEnds(w, w', c, entries, d);
    EndedGrows(w.log, entries, d);
    ReportingIsUnsettled(w, w', c, entries);
    LastWordGrows(w.log, entries, d);
  }

  lemma ReportingIsUnsettled(w: World, w': World, c: nat, entries: seq<Entry>)
    requires Moves(w, w', c, entries) && w'.failures == 0
    ensures entries != [] ==> !w.captures[c].settled || w.captures[c].producers > 0
  {
    hide Safe, Keeps;
    if entries != [] {
      assert entries[0] in entries;
    }
  }

  /** How a step leaves the flags of its capture. */
  ghost predicate Flags(w: World, w': World, c: nat, entries: seq<Entry>)
    requires c in w.captures && c in w'.captures
  {
    var k, k' := w.captures[c], w'.captures[c];
    && (k'.finished.Some? ==> k'.finished.value.kind == Finished && k'.finished.value.context == k'.context)
    && (k'.settled ==>
          && k'.producers == 0 && k'.finished.Some?
          && (k.settled || (entries != [] && Finishes(entries[0], c))))
    && (w'.failures == 0 ==>
          && (k.settled ==> k'.settled)
          && (k'.finished.Some? && k'.producers == 0 ==> k'.settled))
  }

  lemma MoveKeepsCaptures(w: World, w': World, c: nat, entries: seq<Entry>, d: nat)
    requires Moves(w, w', c, entries) && Sound(w) && Flags(w, w', c, entries) && d in w'.captures
    ensures CaptureSound(w', d)
  {
    assert CaptureSound(w, c) && CaptureSound(w, d);
    EndedStays(w.log, entries, d);
    if w'.failures == 0 {
      MoveKeepsLastWord(w, w', c, entries, d);
      if d != c && !w.captures[d].settled && entries != [] && Finishes(entries[0], c) {
        assert entries[0] in entries;
        assert w.captures[d].context.invocation != w.captures[c].context.invocation;
      }
      MoveKeepsActive(w, w', c, entries, w'.captures[d].context.invocation);
    }
    if entries != [] && Finishes(entries[0], c) {
      assert entries[0] in entries;
      assert w'.log[|w.log|] == entries[0];
    }
    hide Sound, Safe, Keeps, Finishes, LastWord;
  }

  lemma EndedStays(log: seq<Entry>, entries: seq<Entry>, d: nat)
    ensures Ended(log, d) ==> Ended(log + entries, d)
  {
    EndedGrows(log, entries, d);
  }

  lemma MoveKeepsActive(w: World, w': World, c: nat, entries: seq<Entry>, i: string)
    requires Moves(w, w', c, entries)
    ensures i in w.store.active ==>
              i in w'.store.active || (i == w.captures[c].context.invocation && entries != []
                  && Finishes(entries[0], c))
  {
    hide Safe, Keeps, Terminal;
  }

  /** Entries of one capture, or of none, add nothing to those of another. */
  lemma ForeignEntries(log: seq<Entry>, entries: seq<Entry>, d: nat)
    requires LastWord(log, d) && forall e | e in entries && e.Journaled? :: e.writer != Some(d)
    ensures LastWord(log + entries, d)
  {
    assert LastWord(entries, d) by {
      forall i | 0 <= i < |entries| ensures !Finishes(entries[i], d) {
        assert entries[i] in entries;
      }
    }
    LastWordGrows(log, entries, d);
  }

  lemma MoveKeepsClean(w: World, w': World, c: nat, entries: seq<Entry>)
    requires Moves(w, w', c, entries) && CleanSound(w)
    ensures CleanSound(w')
  {
    hide Safe, Keeps, LastWord, Finishes, Terminal;
    forall d | d in w'.clean ensures LastWord(w'.log, d) {
      ForeignEntries(w.log, entries, d);
    }
  }

  lemma MoveKeepsSound(w: World, w': World, c: nat, entries: seq<Entry>)
    requires Moves(w, w', c, entries) && Sound(w) && Flags(w, w', c, entries)
    ensures Sound(w')
  {
    MoveGrows(w, w', c, entries);
    GrowthKeepsAttributable(w, w', entries);
    GrowthKeepsConserved(w, w', entries);
    forall d | d in w'.captures ensures CaptureSound(w', d) {
      MoveKeepsCaptures(w, w', c, entries, d);
    }
    MoveKeepsWriters(w, w', c, entries);
    MoveKeepsBatch(w, w', c, entries);
    MoveKeepsClean(w, w', c, entries);
    hide Attributable, Conserved, CaptureSound, BatchSound, UsageJournal.Invariant, Grows, Finishes, Safe, Keeps;
    hide CleanSound;
  }

  lemma MoveKeepsWriters(w: World, w': World, c: nat, entries: seq<Entry>)
    requires Moves(w, w', c, entries) && Sound(w)
    ensures forall i | 0 <= i < |w'.log| && w'.log[i].Journaled? && w'.log[i].writer.Some? ::
            w'.log[i].writer.value < w'.serials
  {
    hide Attributable, Conserved, CaptureSound, BatchSound, UsageJournal.Invariant, Finishes, Safe, Keeps;
    WritersGrow(w.log, entries, w.serials);
  }

  lemma MoveKeepsBatch(w: World, w': World, c: nat, entries: seq<Entry>)
    requires Moves(w, w', c, entries) && BatchSound(w)
    ensures BatchSound(w')
  {
    hide Safe, Finishes, Terminal;
  }

  // ----- Every step -----

  lemma FinishKeepsSound(w: World, c: nat, e: Event, io: bool)
    requires Sound(w) && Enabled(w, Finish(c, e, io))
    ensures Sound(Next(w, Finish(c, e, io)))
  {
    var h := Ending(HeldBy(w, c), e);
    assert CaptureSound(w, c);
    hide Sound;
    var w' := With(w, c, Settled(h, w.encode, io), Settlement(c, h, w.encode, io));
    SettlementMoves(w, c, h, io);
    MoveKeepsSound(w, w', c, Settlement(c, h, w.encode, io));
  }

  lemma ReleaseKeepsSound(w: World, c: nat, io: bool)
    requires Sound(w) && Enabled(w, Release(c, io))
    ensures Sound(Next(w, Release(c, io)))
  {
    var h := Leaving(HeldBy(w, c));
    assert CaptureSound(w, c);
    hide Sound;
    var w' := With(w, c, Settled(h, w.encode, io), Settlement(c, h, w.encode, io));
    SettlementMoves(w, c, h, io);
    MoveKeepsSound(w, w', c, Settlement(c, h, w.encode, io));
  }

  lemma RetainKeepsSound(w: World, c: nat, io: bool)
    requires Sound(w) && Enabled(w, Retain(c, io))
    ensures Sound(Next(w, Retain(c, io)))
  {
    assert CaptureSound(w, c);
    hide Sound;
    RetainMoves(w, c, io);
    var entries := if Readmits(HeldBy(w, c), w.capacity, w.encode, io)
      then [Admitted(w.captures[c].context.invocation), Journaled(Some(c), StartOf(w.captures[c].context))] else [];
    MoveKeepsSound(w, Next(w, Retain(c, io)), c, entries);
  }

  lemma RecordKeepsSound(w: World, c: nat, e: Event, io: bool)
    requires Sound(w) && Enabled(w, Record(c, e, io))
    ensures Sound(Next(w, Record(c, e, io)))
  {
    assert CaptureSound(w, c);
    hide Sound;
    ReportMoves(w, c, e, io);
    var entries := if Writes(HeldBy(w, c), w.encode, e, io) then [Journaled(Some(c), e)] else [];
    MoveKeepsSound(w, Next(w, Record(c, e, io)), c, entries);
  }

  lemma BeginGrows(w: World, ctx: Attribution)
    requires Sound(w) && w.running && Admit(w.store, w.capacity, w.encode, ctx).Success?
    ensures var w' := Next(w, Begin(ctx));
            && Grows(w, w', [Admitted(ctx.invocation), Journaled(Some(w.serials), StartOf(ctx))])
            && UsageJournal.Invariant(w'.store) && w'.store.active == w.store.active[ctx.invocation := ctx]
  {
    AdmitFacts(w.store, w.capacity, w.encode, ctx);
    hide Sound, UsageJournal.Invariant, Admit, Id;
  }

  lemma BeginKeepsSound(w: World, ctx: Attribution)
    requires Sound(w) && w.running
    ensures Sound(Next(w, Begin(ctx)))
  {
    if Admit(w.store, w.capacity, w.encode, ctx).Success? {
      AdmissionKeepsSound(w, ctx);
    }
    hide Sound, Admit;
  }

  /** The world after an admission, field by field. */
  ghost predicate Begun(w: World, w': World, ctx: Attribution, entries: seq<Entry>) {
    && entries == [Admitted(ctx.invocation), Journaled(Some(w.serials), StartOf(ctx))]
    && w' == w.(store := w'.store, captures := w.captures[w.serials := Capture(ctx, 0, None, false)],
                serials := w.serials + 1, log := w.log + entries)
    && ctx.invocation !in w.store.active && w'.store.active == w.store.active[ctx.invocation := ctx]
    && UsageJournal.Invariant(w'.store) && Keeps(w.store.pending, w'.store.pending)
  }

  lemma AdmissionBegins(w: World, ctx: Attribution)
    requires Sound(w) && w.running && Admit(w.store, w.capacity, w.encode, ctx).Success?
    ensures Begun(w, Next(w, Begin(ctx)), ctx, [Admitted(ctx.invocation), Journaled(Some(w.serials), StartOf(ctx))])
  {
    AdmitFacts(w.store, w.capacity, w.encode, ctx);
    hide Sound, UsageJournal.Invariant, Admit, Id;
  }

  lemma BegunKeepsCaptures(w: World, w': World, ctx: Attribution, entries: seq<Entry>)
    requires Sound(w) && Begun(w, w', ctx, entries)
    ensures forall c | c in w'.captures :: c < w'.serials && CaptureSound(w', c)
    ensures w'.failures == 0 ==>
              forall c, d | c in w'.captures && d in w'.captures && !w'.captures[c].settled && !w'.captures[d].settled
                            && w'.captures[c].context.invocation == w'.captures[d].context.invocation :: c == d
  {
    forall d | d in w'.captures ensures d < w'.serials && CaptureSound(w', d) {
      BeginKeepsCapture(w, w', ctx, d);
    }
    assert w.failures == 0 ==> forall d | d in w.captures && !w.captures[d].settled ::
        CaptureSound(w, d) && w.captures[d].context.invocation in w.store.active;
    hide CaptureSound, Attributable, Conserved, CleanSound, BatchSound, UsageJournal.Invariant, Keeps;
  }

  lemma AdmissionKeepsSound(w: World, ctx: Attribution)
    requires Sound(w) && w.running && Admit(w.store, w.capacity, w.encode, ctx).Success?
    ensures Sound(Next(w, Begin(ctx)))
  {
    var w', c := Next(w, Begin(ctx)), w.serials;
    var entries := [Admitted(ctx.invocation), Journaled(Some(c), StartOf(ctx))];
    BeginGrows(w, ctx);
    AdmissionBegins(w, ctx);
    hide Admit, Next, CaptureSound, Attributable, Conserved, UsageJournal.Invariant, CleanSound, Grows;
    BegunKeepsCaptures(w, w', ctx, entries);
    GrowthKeepsAttributable(w, w', entries);
    GrowthKeepsConserved(w, w', entries);
    WritersGrow(w.log, entries, w'.serials);
    BeginKeepsClean(w, w', c, entries);
  }

  lemma BeginKeepsClean(w: World, w': World, c: nat, entries: seq<Entry>)
    requires CleanSound(w) && c == w.serials && w'.serials == c + 1 && w'.clean == w.clean
    requires w'.log == w.log + entries && w'.captures.Keys == w.captures.Keys + {c}
    requires forall e | e in entries && e.Journaled? :: e.writer == Some(c)
    ensures CleanSound(w')
  {
    hide LastWord;
    forall d | d in w'.clean ensures LastWord(w'.log, d) {
      ForeignEntries(w.log, entries, d);
    }
  }

  lemma BeginKeepsCapture(w: World, w': World, ctx: Attribution, d: nat)
    requires Sound(w) && d in w'.captures
    requires var entries := [Admitted(ctx.invocation), Journaled(Some(w.serials), StartOf(ctx))];
             && w' == w.(store := w'.store, captures := w.captures[w.serials := Capture(ctx, 0, None, false)],
                         serials := w.serials + 1, log := w.log + entries)
             && w'.store.active == w.store.active[ctx.invocation := ctx]
    ensures CaptureSound(w', d)
  {
    var entries := [Admitted(ctx.invocation), Journaled(Some(w.serials), StartOf(ctx))];
    EndedGrows(w.log, entries, d);
    hide Attributable, Conserved, BatchSound, UsageJournal.Invariant;
    if d == w.serials {
      assert !Ended(w.log, d);
      assert LastWord(w.log, d);
    } else {
      assert CaptureSound(w, d);
    }
    assert !Ended(entries, d) && LastWord(entries, d);
    if w.failures == 0 {
      LastWordGrows(w.log, entries, d);
    }
    hide Sound, LastWord, Ended;
  }

  lemma InterruptionsAnswer(w: World, order: seq<string>, now: string)
    requires UsageJournal.Invariant(w.store) && Visits(w.store.active, order)
    ensures forall i | i in w.store.active ::
              exists e :: e in Interruptions(w.store.active, order, now) && Terminal(e, i)
  {
    var entries := Interruptions(w.store.active, order, now);
    forall i | i in w.store.active ensures exists e :: e in entries && Terminal(e, i) {
      var k :| 0 <= k < |order| && order[k] == i;
      assert entries[k] in entries && Terminal(entries[k], i);
    }
  }

  lemma InterruptionsAreStored(w: World, order: seq<string>, now: string)
    requires UsageJournal.Invariant(w.store) && Visits(w.store.active, order)
    requires Recover(w.store, w.encode, order, now).Success?
    ensures forall e | e in Interruptions(w.store.active, order, now) ::
              e.Journaled? && e.writer == None && Safe(Next(w, Restart(order, now)), e.event)
  {
    var w', entries := Next(w, Restart(order, now)), Interruptions(w.store.active, order, now);
    RecoverFacts(w.store, w.encode, order, now);
    hide Recover, UsageJournal.Invariant, Id;
    forall e | e in entries ensures e.Journaled? && e.writer == None && Safe(w', e.event) {
      var k :| 0 <= k < |entries| && entries[k] == e;
      assert order[k] in w.store.active;
    }
  }

  lemma RestartGrows(w: World, order: seq<string>, now: string)
    requires UsageJournal.Invariant(w.store) && Visits(w.store.active, order)
    requires Recover(w.store, w.encode, order, now).Success?
    ensures var w', entries := Next(w, Restart(order, now)), Interruptions(w.store.active, order, now);
            Grows(w, w', entries) && UsageJournal.Invariant(w'.store)
    ensures forall e | e in Interruptions(w.store.active, order, now) :: e.Journaled? && e.writer == None
  {
    RecoverFacts(w.store, w.encode, order, now);
    InterruptionsAnswer(w, order, now);
    InterruptionsAreStored(w, order, now);
    hide Recover, UsageJournal.Invariant, Id, Interruptions, Terminal, Safe, Visits;
  }

  lemma WritersGrow(log: seq<Entry>, entries: seq<Entry>, bound: nat)
    requires forall i | 0 <= i < |log| && log[i].Journaled? && log[i].writer.Some? :: log[i].writer.value < bound
    requires forall e | e in entries && e.Journaled? && e.writer.Some? :: e.writer.value < bound
    ensures var all := log + entries;
            forall i | 0 <= i < |all| && all[i].Journaled? && all[i].writer.Some? :: all[i].writer.value < bound
  {
    forall i | |log| <= i < |log + entries| ensures (log + entries)[i] in entries {
    }
  }

  /** The log and the captures of a process that opened the journal. */
  lemma ReopenedWorld(w: World, order: seq<string>, now: string)
    requires Visits(w.store.active, order) && Recover(w.store, w.encode, order, now).Success?
    ensures var w' := Next(w, Restart(order, now));
            && w'.log == w.log + Interruptions(w.store.active, order, now)
            && w'.captures == map[] && w'.batch == [] && w'.serials == w.serials && w'.failures == 0
            && w'.clean == if w.failures == 0 then w.clean + w.captures.Keys else w.clean
  {
    hide Recover;
  }

  lemma ReopenKeepsSound(w: World, order: seq<string>, now: string)
    requires Sound(w) && Visits(w.store.active, order) && Recover(w.store, w.encode, order, now).Success?
    ensures Sound(Next(w, Restart(order, now)))
  {
    var w', entries := Next(w, Restart(order, now)), Interruptions(w.store.active, order, now);
    ReopenedWorld(w, order, now);
    RestartGrows(w, order, now);
    hide Next, Interruptions, Recover, Grows, CaptureSound, Visits, CleanSound, LastWord;
    hide Attributable, Conserved, UsageJournal.Invariant;
    GrowthKeepsAttributable(w, w', entries);
    GrowthKeepsConserved(w, w', entries);
    WritersGrow(w.log, entries, w.serials);
    RestartKeepsClean(w, w', entries);
  }

  lemma ShutKeepsSound(w: World, order: seq<string>, now: string)
    requires Sound(w) && Visits(w.store.active, order) && Recover(w.store, w.encode, order, now).Failure?
    ensures Sound(Next(w, Restart(order, now)))
  {
    var w' := Next(w, Restart(order, now));
    hide CaptureSound, Visits, CleanSound, LastWord, Recover, Attributable, UsageJournal.Invariant, Conserved;
    SameReceiptsConserved(w, w');
    assert w.log + [] == w.log;
    RestartKeepsClean(w, w', []);
  }

  lemma RestartKeepsSound(w: World, order: seq<string>, now: string)
    requires Sound(w) && Visits(w.store.active, order)
    ensures Sound(Next(w, Restart(order, now)))
  {
    hide Sound, Next, Recover;
    if Recover(w.store, w.encode, order, now).Success? {
      ReopenKeepsSound(w, order, now);
    } else {
      ShutKeepsSound(w, order, now);
    }
  }

  /** The requests of a process that ends without a failure have had their last word, or will have none. */
  lemma RestartKeepsClean(w: World, w': World, entries: seq<Entry>)
    requires Sound(w) && w'.log == w.log + entries && w'.captures == map[] && w'.serials == w.serials
    requires w'.clean == if w.failures == 0 then w.clean + w.captures.Keys else w.clean
    requires forall e | e in entries :: e.Journaled? && e.writer == None
    ensures CleanSound(w')
  {
    forall c | c in w'.clean ensures c < w'.serials && LastWord(w'.log, c) {
      assert c !in w.clean ==> CaptureSound(w, c);
      ForeignEntries(w.log, entries, c);
    }
  }

  lemma SameReceiptsConserved(w: World, w': World)
    requires Conserved(w) && w'.log == w.log && w'.encode == w.encode && w.delivered <= w'.delivered
    requires forall k | k in w.store.pending ::
               (k in w'.store.pending && w'.store.pending[k] == w.store.pending[k])
               || Item(k, w.store.pending[k]) in w'.delivered
    ensures Conserved(w')
  {
    forall i | 0 <= i < |w'.log| && w'.log[i].Journaled? ensures Safe(w', w'.log[i].event) {
      assert Safe(w, w.log[i].event);
    }
  }

  /** The batch in flight is acknowledged exactly as it was read. */
  lemma {:induction false} BatchIsAcknowledged(s: Store, batch: seq<Item>)
    requires forall item | item in batch :: item.key in s.pending ==> s.pending[item.key] == item.raw
    ensures Acknowledge(s, batch).Success?
    decreases |batch|
  {
    if batch != [] {
      if batch[0].key in s.pending {
        BatchIsAcknowledged(Dropped(s, batch[0].key), batch[1..]);
      } else {
        BatchIsAcknowledged(s, batch[1..]);
      }
    }
  }

  lemma DeliveryKeepsSound(w: World, step: Step)
    requires Sound(w) && Enabled(w, step) && (step.Read? || step.Deliver? || step.Remove?)
    ensures Sound(Next(w, step))
  {
    var w' := Next(w, step);
    if step.Remove? {
      BatchIsAcknowledged(w.store, w.batch);
      AcknowledgeFacts(w.store, w.batch);
    }
    SameReceiptsConserved(w, w');
    DeliveryKeepsCaptures(w, w');
    hide Conserved, Attributable, CaptureSound, UsageJournal.Invariant;
    if step.Read? {
      assert BatchSound(w') by {
        forall item | item in w'.batch ensures item.key in w.store.pending && w.store.pending[item.key] == item.raw {
          var i :| 0 <= i < |w'.batch| && w'.batch[i] == item;
        }
      }
    }
  }

  lemma DeliveryKeepsCaptures(w: World, w': World)
    requires Sound(w) && w'.log == w.log && w'.captures == w.captures && w'.failures == w.failures
    requires w'.store.active == w.store.active
    ensures forall c | c in w'.captures :: CaptureSound(w', c)
  {
    forall c | c in w'.captures ensures CaptureSound(w', c) {
      assert CaptureSound(w, c);
    }
  }

  lemma StepKeepsSound(w: World, step: Step)
    requires Sound(w) && Enabled(w, step)
    ensures Sound(Next(w, step))
  {
    match step {
      case Begin(ctx) => BeginKeepsSound(w, ctx);
      case Finish(c, e, io) => FinishKeepsSound(w, c, e, io);
      case Retain(c, io) => RetainKeepsSound(w, c, io);
      case Release(c, io) => ReleaseKeepsSound(w, c, io);
      case Record(c, e, io) => RecordKeepsSound(w, c, e, io);
      case Restart(order, now) => RestartKeepsSound(w, order, now);
      case _ => DeliveryKeepsSound(w, step);
    }
  }

  lemma {:induction false} RunKeepsSound(w: World, steps: seq<Step>)
    requires Sound(w) && Legal(w, steps)
    ensures Sound(Run(w, steps))
    decreases |steps|
  {
    if steps != [] {
      StepKeepsSound(w, steps[0]);
      RunKeepsSound(Next(w, steps[0]), steps[1..]);
    }
  }

  lemma InitialIsSound(capacity: nat, encode: Encoder)
    ensures Sound(Initial(capacity, encode))
  {
    assert Weights(map[]) == map[];
  }

  /**
   After any run of requests, failures, crashes and deliveries: every admission is still
   active or was answered later by a terminal receipt, and every receipt is stored or delivered.
   The terminal receipt of a request is its last, in this process as long as no capture failed
   and for good in every earlier process that ended without a failure.
   */
  lemma EveryAdmissionIsAttributable(capacity: nat, encode: Encoder, steps: seq<Step>)
    requires Legal(Initial(capacity, encode), steps)
    ensures var w := Run(Initial(capacity, encode), steps);
            && (forall i | 0 <= i < |w.log| && w.log[i].Admitted? ::
                  w.log[i].invocation in w.store.active || Answered(w.log, i, w.log[i].invocation))
            && (forall i | 0 <= i < |w.log| && w.log[i].Journaled? :: Safe(w, w.log[i].event))
            && (w.failures == 0 ==> forall c | c in w.captures :: LastWord(w.log, c))
            && (forall c | c in w.clean :: LastWord(w.log, c))
  {
    InitialIsSound(capacity, encode);
    RunKeepsSound(Initial(capacity, encode), steps);
    var w := Run(Initial(capacity, encode), steps);
    hide Run, Legal, Initial;
    forall c | c in w.captures && w.failures == 0 ensures LastWord(w.log, c) {
      assert CaptureSound(w, c);
    }
  }

  // ----- New receipts are stored -----

  /** What is stored was journaled, under its own key. */
  ghost predicate Keyed(w: World) {
    forall k | k in w.store.pending :: Logged(w.log, w.encode, k, w.store.pending[k])
  }

  ghost predicate Logged(log: seq<Entry>, encode: Encoder, key: string, raw: string) {
    exists i :: 0 <= i < |log| && log[i].Journaled? && Id(log[i].event) == key && encode(log[i].event) == raw
  }

  /** Whatever a step adds to the store, it adds to the history. */
  ghost predicate Adds(w: World, w': World, entries: seq<Entry>) {
    && w'.log == w.log + entries && w'.encode == w.encode
    && (forall k | k in w'.store.pending ::
          || (k in w.store.pending && w'.store.pending[k] == w.store.pending[k])
          || Logged(entries, w.encode, k, w'.store.pending[k]))
  }

  lemma AddsKeepsKeyed(w: World, w': World, entries: seq<Entry>)
    requires Keyed(w) && Adds(w, w', entries)
    ensures Keyed(w')
  {
    hide Logged;
    forall k | k in w'.store.pending ensures Logged(w'.log, w'.encode, k, w'.store.pending[k]) {
      LoggedStays(w.log, entries, w.encode, k, w'.store.pending[k]);
    }
  }

  lemma LoggedStays(log: seq<Entry>, entries: seq<Entry>, encode: Encoder, key: string, raw: string)
    ensures Logged(log, encode, key, raw) || Logged(entries, encode, key, raw) ==>
              Logged(log + entries, encode, key, raw)
  {
    if Logged(log, encode, key, raw) {
      var i :| 0 <= i < |log| && log[i].Journaled? && Id(log[i].event) == key && encode(log[i].event) == raw;
      assert (log + entries)[i] == log[i];
    } else if Logged(entries, encode, key, raw) {
      var i :| 0 <= i < |entries| && entries[i].Journaled? && Id(entries[i].event) == key
               && encode(entries[i].event) == raw;
      assert (log + entries)[|log| + i] == entries[i];
    }
  }

  /** A transaction that stores one receipt adds that one key. */
  ghost predicate Stores(s: Store, s': Store, encode: Encoder, e: Event) {
    && (forall k | k in s'.pending :: k == Id(e) || (k in s.pending && s'.pending[k] == s.pending[k]))
    && Id(e) in s'.pending && s'.pending[Id(e)] == encode(e)
  }

  lemma AppendStores(s: Store, encode: Encoder, e: Event)
    ensures Append(s, encode, e).Success? ==> Stores(s, Append(s, encode, e).value, encode, e)
  {
  }

  lemma AdmitStores(s: Store, capacity: nat, encode: Encoder, ctx: Attribution)
    ensures Admit(s, capacity, encode, ctx).Success? ==>
              Stores(s, Admit(s, capacity, encode, ctx).value, encode, StartOf(ctx))
  {
  }

  lemma StoringAdds(w: World, w': World, entries: seq<Entry>, writer: Option<nat>, e: Event)
    requires w'.log == w.log + entries && w'.encode == w.encode
    requires Journaled(writer, e) in entries && Stores(w.store, w'.store, w.encode, e)
    ensures Adds(w, w', entries)
  {
    var i :| 0 <= i < |entries| && entries[i] == Journaled(writer, e);
    assert Logged(entries, w.encode, Id(e), w.encode(e));
  }

  lemma NothingAdds(w: World, w': World)
    requires w'.log == w.log && w'.encode == w.encode
    requires forall k | k in w'.store.pending :: k in w.store.pending && w'.store.pending[k] == w.store.pending[k]
    ensures Adds(w, w', [])
  {
    assert w.log + [] == w.log;
  }

  lemma {:induction false} InterruptStores(s: Store, encode: Encoder, order: seq<string>, now: string)
    requires (forall i | i in order :: i in s.active) && Interrupt(s, encode, order, now).Success?
    ensures var s' := Interrupt(s, encode, order, now).value;
            forall k | k in s'.pending ::
              || (k in s.pending && s'.pending[k] == s.pending[k])
              || Logged(Interruptions(s.active, order, now), encode, k, s'.pending[k])
    decreases |order|
  {
    if order != [] {
      var e := Interruption(s.active[order[0]], now);
      var entries, rest := Interruptions(s.active, order, now), Interruptions(s.active, order[1..], now);
      var s1 := Put(s, encode, e).value;
      InterruptStores(s1, encode, order[1..], now);
      assert entries == [Journaled(None, e)] + rest;
      assert Logged([Journaled(None, e)], encode, Id(e), encode(e)) by {
        assert [Journaled(None, e)][0] == Journaled(None, e);
      }
      hide Logged, Id, Interruptions;
      forall k | k in Interrupt(s, encode, order, now).value.pending
        ensures var s' := Interrupt(s, encode, order, now).value;
                (k in s.pending && s'.pending[k] == s.pending[k]) || Logged(entries, encode, k, s'.pending[k])
      {
        LoggedStays([Journaled(None, e)], rest, encode, k, Interrupt(s, encode, order, now).value.pending[k]);
      }
    }
  }

  lemma StepKeepsKeyed(w: World, step: Step)
    requires Sound(w) && Keyed(w) && Enabled(w, step)
    ensures Keyed(Next(w, step))
  {
    match step {
      case Begin(ctx) => BeginKeepsKeyed(w, ctx);
      case Finish(c, e, io) => SettlingKeepsKeyed(w, c, Ending(HeldBy(w, c), e), io);
      case Retain(c, io) => RetainKeepsKeyed(w, c, io);
      case Release(c, io) => SettlingKeepsKeyed(w, c, Leaving(HeldBy(w, c)), io);
      case Record(c, e, io) => RecordKeepsKeyed(w, c, e, io);
      case Restart(order, now) => RestartKeepsKeyed(w, order, now);
      case _ => DeliveryKeepsKeyed(w, step);
    }
  }

  lemma BeginKeepsKeyed(w: World, ctx: Attribution)
    requires Keyed(w) && w.running
    ensures Keyed(Next(w, Begin(ctx)))
  {
    hide Admit, Keyed, Stores, Adds;
    AdmitStores(w.store, w.capacity, w.encode, ctx);
    var w' := Next(w, Begin(ctx));
    if Admit(w.store, w.capacity, w.encode, ctx).Success? {
      var entries := [Admitted(ctx.invocation), Journaled(Some(w.serials), StartOf(ctx))];
      assert entries[1] in entries;
      StoringAdds(w, w', entries, Some(w.serials), StartOf(ctx));
      AddsKeepsKeyed(w, w', entries);
    }
  }

  lemma SettlingKeepsKeyed(w: World, c: nat, h: Held, io: bool)
    requires Keyed(w) && c in w.captures && h.store == w.store
    ensures Keyed(With(w, c, Settled(h, w.encode, io), Settlement(c, h, w.encode, io)))
  {
    hide Append, Keyed, Stores, Adds;
    var entries := Settlement(c, h, w.encode, io);
    var w' := With(w, c, Settled(h, w.encode, io), entries);
    if Settles(h, w.encode, io) {
      AppendStores(w.store, w.encode, h.capture.finished.value);
      assert entries[0] in entries;
      StoringAdds(w, w', entries, Some(c), h.capture.finished.value);
    } else {
      assert w'.log == w.log;
      NothingAdds(w, w');
    }
    AddsKeepsKeyed(w, w', entries);
  }

  lemma RetainKeepsKeyed(w: World, c: nat, io: bool)
    requires Keyed(w) && c in w.captures
    ensures Keyed(Next(w, Retain(c, io)))
  {
    hide Admit, Keyed, Stores, Adds;
    var w', ctx := Next(w, Retain(c, io)), w.captures[c].context;
    if Readmits(HeldBy(w, c), w.capacity, w.encode, io) {
      AdmitStores(w.store, w.capacity, w.encode, ctx);
      var entries := [Admitted(ctx.invocation), Journaled(Some(c), StartOf(ctx))];
      assert entries[1] in entries;
      StoringAdds(w, w', entries, Some(c), StartOf(ctx));
      AddsKeepsKeyed(w, w', entries);
    } else {
      assert w'.log == w.log;
      NothingAdds(w, w');
      AddsKeepsKeyed(w, w', []);
    }
  }

  lemma RecordKeepsKeyed(w: World, c: nat, e: Event, io: bool)
    requires Keyed(w) && Enabled(w, Record(c, e, io))
    ensures Keyed(Next(w, Record(c, e, io)))
  {
    hide Append, Keyed, Stores, Adds;
    var w' := Next(w, Record(c, e, io));
    if Writes(HeldBy(w, c), w.encode, e, io) {
      AppendStores(w.store, w.encode, e);
      assert [Journaled(Some(c), e)][0] in [Journaled(Some(c), e)];
      StoringAdds(w, w', [Journaled(Some(c), e)], Some(c), e);
      AddsKeepsKeyed(w, w', [Journaled(Some(c), e)]);
    } else {
      assert w'.log == w.log;
      NothingAdds(w, w');
      AddsKeepsKeyed(w, w', []);
    }
  }

  lemma RestartKeepsKeyed(w: World, order: seq<string>, now: string)
    requires Keyed(w) && Visits(w.store.active, order)
    ensures Keyed(Next(w, Restart(order, now)))
  {
    hide Keyed, Interrupt, Logged;
    var w' := Next(w, Restart(order, now));
    if Recover(w.store, w.encode, order, now).Success? {
      InterruptStores(w.store, w.encode, order, now);
      AddsKeepsKeyed(w, w', Interruptions(w.store.active, order, now));
    } else {
      NothingAdds(w, w');
      AddsKeepsKeyed(w, w', []);
    }
  }

  lemma DeliveryKeepsKeyed(w: World, step: Step)
    requires Sound(w) && Keyed(w) && Enabled(w, step) && (step.Read? || step.Deliver? || step.Remove?)
    ensures Keyed(Next(w, step))
  {
    if step.Remove? {
      BatchIsAcknowledged(w.store, w.batch);
      AcknowledgeFacts(w.store, w.batch);
    }
    hide Sound, Keyed, Adds, Acknowledge;
    NothingAdds(w, Next(w, step));
    AddsKeepsKeyed(w, Next(w, step), []);
  }

  lemma {:induction false} RunKeepsKeyed(w: World, steps: seq<Step>)
    requires Sound(w) && Keyed(w) && Legal(w, steps)
    ensures Keyed(Run(w, steps))
    decreases |steps|
  {
    if steps != [] {
      hide Sound, Keyed, Next, Enabled;
      StepKeepsSound(w, steps[0]);
      StepKeepsKeyed(w, steps[0]);
      RunKeepsKeyed(Next(w, steps[0]), steps[1..]);
    }
  }

  /** Nothing that was journaled has the same invocation, kind and execution, and identifiers are apart. */
  ghost predicate Unheard(log: seq<Entry>, e: Event) {
    forall i | 0 <= i < |log| && log[i].Journaled? ::
      var f := log[i].event;
      if f.context.invocation == e.context.invocation then f.kind != e.kind || f.execution != e.execution
      else Apart(f.context.invocation, e.context.invocation)
  }

  lemma UnheardHasNoKey(w: World, e: Event)
    requires Keyed(w) && Unheard(w.log, e)
    ensures Id(e) !in w.store.pending
  {
    if Id(e) in w.store.pending {
      assert Logged(w.log, w.encode, Id(e), w.store.pending[Id(e)]);
      var i :| 0 <= i < |w.log| && w.log[i].Journaled? && Id(w.log[i].event) == Id(e);
      hide Id;
      KeysDiffer(w.log[i].event, e);
    }
  }

  /**
   After any run, a receipt of a held producer that was not journaled before, whose encoding
   fits and whose write the disk takes, is stored beside all others and is no failure.
   */
  lemma NewReceiptIsStored(capacity: nat, encode: Encoder, steps: seq<Step>, c: nat, e: Event)
    requires Legal(Initial(capacity, encode), steps)
    requires Enabled(Run(Initial(capacity, encode), steps), Record(c, e, true))
    requires Unheard(Run(Initial(capacity, encode), steps).log, e) && |encode(e)| <= 8192
    ensures var w := Run(Initial(capacity, encode), steps);
            var w' := Next(w, Record(c, e, true));
            && w'.failures == w.failures
            && w'.log == w.log + [Journaled(Some(c), e)]
            && w'.store.pending == w.store.pending[Id(e) := encode(e)] && Id(e) !in w.store.pending
            && w'.store.active == w.store.active && w'.captures == w.captures
  {
    var w := Run(Initial(capacity, encode), steps);
    InitialIsSound(capacity, encode);
    RunKeepsKeyed(Initial(capacity, encode), steps);
    RunKeepsEncoder(Initial(capacity, encode), steps);
    hide Sound, Keyed, Run, Legal, Unheard, Id;
    UnheardHasNoKey(w, e);
  }

  /**
   After any run, the terminal receipt of a request that holds no producer is stored at once,
   when it is the first for its invocation, fits, and the disk takes it: the request is settled
   and no longer active.
   */
  lemma FirstFinishSettles(capacity: nat, encode: Encoder, steps: seq<Step>, c: nat, e: Event)
    requires Legal(Initial(capacity, encode), steps)
    requires Enabled(Run(Initial(capacity, encode), steps), Finish(c, e, true))
    requires Unheard(Run(Initial(capacity, encode), steps).log, e) && |encode(e)| <= 8192
    requires var k := Run(Initial(capacity, encode), steps).captures[c];
             k.finished.None? && k.producers == 0 && !k.settled
    ensures var w := Run(Initial(capacity, encode), steps);
            var w' := Next(w, Finish(c, e, true));
            && w'.failures == w.failures && w'.captures[c].settled
            && w'.log == w.log + [Journaled(Some(c), e)]
            && w'.store.pending == w.store.pending[Id(e) := encode(e)] && Id(e) !in w.store.pending
            && w'.store.active == w.store.active - {e.context.invocation}
  {
    var w := Run(Initial(capacity, encode), steps);
    InitialIsSound(capacity, encode);
    RunKeepsKeyed(Initial(capacity, encode), steps);
    RunKeepsEncoder(Initial(capacity, encode), steps);
    hide Sound, Keyed, Run, Legal, Unheard, Id;
    UnheardHasNoKey(w, e);
  }

  /**
   After any run, a request whose start was not journaled before and fits is admitted if and only
   if it is not active and 32 KiB for it and for each active one fit beside what is stored.
   */
  lemma NewRequestIsAdmitted(capacity: nat, encode: Encoder, steps: seq<Step>, ctx: Attribution)
    requires Legal(Initial(capacity, encode), steps) && Run(Initial(capacity, encode), steps).running
    requires Unheard(Run(Initial(capacity, encode), steps).log, StartOf(ctx)) && |encode(StartOf(ctx))| <= 8192
    ensures var w := Run(Initial(capacity, encode), steps);
            var w' := Next(w, Begin(ctx));
            if ctx.invocation !in w.store.active && w.store.size + 32768 * (|w.store.active| + 1) <= w.capacity
            then
              && w'.captures == w.captures[w.serials := Capture(ctx, 0, None, false)]
              && w'.store.active == w.store.active[ctx.invocation := ctx]
              && w'.store.pending == w.store.pending[Id(StartOf(ctx)) := encode(StartOf(ctx))]
            else w' == w
  {
    var w := Run(Initial(capacity, encode), steps);
    InitialIsSound(capacity, encode);
    RunKeepsKeyed(Initial(capacity, encode), steps);
    RunKeepsEncoder(Initial(capacity, encode), steps);
    hide Sound, Keyed, Run, Legal, Unheard, Id;
    UnheardHasNoKey(w, StartOf(ctx));
  }

  /** What the service reports as delivered: nothing stored, nothing active, and no capture failed. */
  predicate Evidence(w: World) {
    w.store.pending == map[] && w.store.active == map[] && w.failures == 0
  }

  /** Then every admission has a terminal receipt that was delivered, and every request has had its last word. */
  lemma EvidenceIsComplete(capacity: nat, encode: Encoder, steps: seq<Step>)
    requires Legal(Initial(capacity, encode), steps) && Evidence(Run(Initial(capacity, encode), steps))
    ensures var w := Run(Initial(capacity, encode), steps);
            && (forall i | 0 <= i < |w.log| && w.log[i].Admitted? ::
                  exists j :: i < j < |w.log| && Terminal(w.log[j], w.log[i].invocation)
                              && Item(Id(w.log[j].event), encode(w.log[j].event)) in w.delivered)
            && (forall c | c in w.captures :: w.captures[c].settled && Ended(w.log, c) && LastWord(w.log, c))
  {
    InitialIsSound(capacity, encode);
    RunKeepsSound(Initial(capacity, encode), steps);
    RunKeepsEncoder(Initial(capacity, encode), steps);
    var w := Run(Initial(capacity, encode), steps);
    hide Run, Legal, Initial;
    forall i | 0 <= i < |w.log| && w.log[i].Admitted?
      ensures exists j :: i < j < |w.log| && Terminal(w.log[j], w.log[i].invocation)
                          && Item(Id(w.log[j].event), encode(w.log[j].event)) in w.delivered
    {
      assert Answered(w.log, i, w.log[i].invocation);
      var j :| i < j < |w.log| && Terminal(w.log[j], w.log[i].invocation);
      assert Safe(w, w.log[j].event);
    }
    forall c | c in w.captures ensures w.captures[c].settled && Ended(w.log, c) && LastWord(w.log, c) {
      assert CaptureSound(w, c);
    }
  }

  lemma {:induction false} RunKeepsEncoder(w: World, steps: seq<Step>)
    requires Legal(w, steps)
    ensures Run(w, steps).encode == w.encode
    decreases |steps|
  {
    if steps != [] {
      RunKeepsEncoder(Next(w, steps[0]), steps[1..]);
    }
  }

  // ----- The watermark under requests -----

  /** The transaction that a step makes of the journal, if it changes it. */
  function JournalStep(w: World, step: Step): Option<UsageJournal.Step>
    requires step.Finish? || step.Retain? || step.Release? || step.Record? ==> step.c in w.captures
    requires step.Release? ==> w.captures[step.c].producers > 0
  {
    match step
    case Begin(ctx) => Some(Admission(ctx))
    case Finish(c, e, io) => Settling(Ending(HeldBy(w, c), e), w.encode, io)
    case Release(c, io) => Settling(Leaving(HeldBy(w, c)), w.encode, io)
    case Retain(c, io) =>
      if Readmits(HeldBy(w, c), w.capacity, w.encode, io) then Some(Admission(w.captures[c].context)) else None
    case Record(c, e, io) => if Writes(HeldBy(w, c), w.encode, e, io) then Some(UsageJournal.Report(e)) else None
    case Restart(order, now) => Some(Reopening(order, now))
    case Remove => Some(Acknowledgement(w.batch))
    case _ => None
  }

  function Settling(h: Held, encode: Encoder, io: bool): Option<UsageJournal.Step> {
    if Settles(h, encode, io) then Some(UsageJournal.Report(h.capture.finished.value)) else None
  }

  ghost function AccountAfter(a: Account, w: World, step: Step): Account
    requires Enabled(w, step) && a.store == w.store
  {
    var js := JournalStep(w, step);
    if js.None? then a else UsageJournal.Next(a, w.capacity, w.encode, js.value)
  }

  /** The account of a step is that of its transaction. */
  lemma AccountFollows(a: Account, w: World, step: Step)
    requires Sound(w) && Enabled(w, step) && a.store == w.store
    ensures AccountAfter(a, w, step).store == Next(w, step).store
  {
    var js := JournalStep(w, step);
    if js.Some? {
      NextIsTheTransaction(a, w.capacity, w.encode, js.value);
    }
    if step.Remove? {
      BatchIsAcknowledged(w.store, w.batch);
    }
    hide UsageJournal.Next, Sound, Append, Admit, Recover, Acknowledge, Visits;
  }

  /** The account of a run; it never loses the journal's store, as `AccountStaysCovered` says. */
  ghost function AccountOver(a: Account, w: World, steps: seq<Step>): Account
    requires Legal(w, steps)
    decreases |steps|
  {
    if steps == [] || a.store != w.store then a
    else AccountOver(AccountAfter(a, w, steps[0]), Next(w, steps[0]), steps[1..])
  }

  /** Interruptions draw on the reservations of the invocations that they end. */
  lemma {:induction false} InterruptionsAreNotStray(a: Account, encode: Encoder, order: seq<string>, now: string)
    requires Named(a.store) && a.spent.Keys == a.store.active.Keys && (forall i | i in order :: i in a.store.active)
    requires Interrupt(a.store, encode, order, now).Success?
    ensures ChargedAll(a, encode, order, now).stray == a.stray
    decreases |order|
  {
    if order != [] {
      InterruptionsAreNotStray(Charged(a, encode, Interruption(a.store.active[order[0]], now)), encode, order[1..],
          now);
    }
  }

  /** Bytes reported for an active invocation, or in an admission, are not stray. */
  lemma InsideIsNotStray(a: Account, capacity: nat, encode: Encoder, js: UsageJournal.Step)
    requires UsageJournal.Enabled(a, js) && Named(a.store) && a.spent.Keys == a.store.active.Keys
    requires js.Report? ==> js.event.context.invocation in a.store.active
    ensures UsageJournal.Next(a, capacity, encode, js).stray == a.stray
  {
    hide Put, Interrupt, ChargedAll;
    if js.Reopening? && Recover(a.store, encode, js.order, js.now).Success? {
      InterruptionsAreNotStray(a, encode, js.order, js.now);
    }
  }

  /** An open capture stands for an active invocation, and a settled one holds no producer. */
  ghost predicate Shelter(w: World, c: nat)
    requires c in w.captures
  {
    var k := w.captures[c];
    && (k.finished.Some? ==> k.finished.value.kind == Finished && k.finished.value.context == k.context)
    && (if k.settled then k.producers == 0 else k.context.invocation in w.store.active)
  }

  /** What reports rely on to fall inside an admission; failed writes do not disturb it. */
  ghost predicate Sheltered(w: World) {
    && (forall c | c in w.captures :: c < w.serials && Shelter(w, c))
    && (forall c, d | c in w.captures && d in w.captures && !w.captures[c].settled && !w.captures[d].settled
                      && w.captures[c].context.invocation == w.captures[d].context.invocation :: c == d)
  }

  /** No producer is retained after the settlement, unless its invocation is admitted again. */
  predicate Punctual(w: World, step: Step) {
    step.Retain? && step.c in w.captures && w.captures[step.c].settled ==>
      Readmits(HeldBy(w, step.c), w.capacity, w.encode, step.io)
  }

  /** One capture moves, and the active row of its invocation with it. */
  ghost predicate Shifts(w: World, w': World, c: nat) {
    && c in w.captures && c in w'.captures && w'.captures == w.captures[c := w'.captures[c]] && w'.serials == w.serials
    && var k, k', i := w.captures[c], w'.captures[c], w.captures[c].context.invocation;
    && k'.context == k.context && Shelter(w', c)
    && (forall x | x in w.store.active && x != i :: x in w'.store.active)
    && (k.settled && k'.settled ==> w'.store.active == w.store.active)
    && (k.settled && !k'.settled ==> i !in w.store.active)
  }

  lemma ShiftKeepsSheltered(w: World, w': World, c: nat)
    requires Sheltered(w) && Shifts(w, w', c)
    ensures Sheltered(w')
  {
    forall d | d in w'.captures ensures d < w'.serials && Shelter(w', d) {
      assert Shelter(w, d) && Shelter(w, c);
    }
    assert forall d | d in w.captures && !w.captures[d].settled :: Shelter(w, d);
  }

  lemma SettlingShifts(w: World, c: nat, h: Held, io: bool)
    requires UsageJournal.Invariant(w.store) && c in w.captures && Shelter(w, c)
    requires h == Held(w.store, w.failures, h.capture) && h.capture.context == w.captures[c].context
    requires h.capture.settled == w.captures[c].settled && (h.capture.settled ==> h.capture.producers == 0)
    requires h.capture.finished.Some? ==>
               h.capture.finished.value.kind == Finished && h.capture.finished.value.context == h.capture.context
    ensures Shifts(w, With(w, c, Settled(h, w.encode, io), Settlement(c, h, w.encode, io)), c)
  {
    if Settles(h, w.encode, io) {
      AppendFacts(w.store, w.encode, h.capture.finished.value);
    }
    hide Append, UsageJournal.Invariant;
  }

  lemma RetainShifts(w: World, c: nat, io: bool)
    requires UsageJournal.Invariant(w.store) && c in w.captures && Shelter(w, c) && Punctual(w, Retain(c, io))
    ensures Shifts(w, Next(w, Retain(c, io)), c)
  {
    if w.captures[c].settled {
      AdmitFacts(w.store, w.capacity, w.encode, w.captures[c].context);
    }
    hide Admit, UsageJournal.Invariant;
  }

  lemma RecordShifts(w: World, c: nat, e: Event, io: bool)
    requires UsageJournal.Invariant(w.store) && c in w.captures && Shelter(w, c) && Enabled(w, Record(c, e, io))
    ensures Shifts(w, Next(w, Record(c, e, io)), c)
  {
    if Writes(HeldBy(w, c), w.encode, e, io) {
      AppendFacts(w.store, w.encode, e);
    }
    hide Append, UsageJournal.Invariant;
  }

  lemma RequestKeepsSheltered(w: World, step: Step)
    requires UsageJournal.Invariant(w.store) && Sheltered(w) && Enabled(w, step) && Punctual(w, step)
    requires step.Finish? || step.Retain? || step.Release? || step.Record?
    ensures Sheltered(Next(w, step))
  {
    assert Shelter(w, step.c);
    hide UsageJournal.Invariant, Sheltered, Shifts;
    match step {
      case Finish(c, e, io) => SettlingShifts(w, c, Ending(HeldBy(w, c), e), io);
      case Release(c, io) => SettlingShifts(w, c, Leaving(HeldBy(w, c)), io);
      case Retain(c, io) => RetainShifts(w, c, io);
      case Record(c, e, io) => RecordShifts(w, c, e, io);
      case _ =>
    }
    ShiftKeepsSheltered(w, Next(w, step), step.c);
  }

  lemma BeginKeepsSheltered(w: World, ctx: Attribution)
    requires UsageJournal.Invariant(w.store) && Sheltered(w) && w.running
    ensures Sheltered(Next(w, Begin(ctx)))
  {
    if Admit(w.store, w.capacity, w.encode, ctx).Success? {
      AdmitFacts(w.store, w.capacity, w.encode, ctx);
      var w' := Next(w, Begin(ctx));
      hide Admit, UsageJournal.Invariant;
      forall d | d in w'.captures ensures d < w'.serials && Shelter(w', d) {
        assert d in w.captures ==> Shelter(w, d);
      }
      assert forall d | d in w.captures && !w.captures[d].settled :: Shelter(w, d);
    }
  }

  lemma StepKeepsSheltered(w: World, step: Step)
    requires Sound(w) && Sheltered(w) && Enabled(w, step) && Punctual(w, step)
    ensures Sheltered(Next(w, step))
  {
    StoreIsSound(w);
    hide Sound;
    if step.Begin? {
      BeginKeepsSheltered(w, step.ctx);
    } else if step.Finish? || step.Retain? || step.Release? || step.Record? {
      RequestKeepsSheltered(w, step);
    } else {
      DeliveryKeepsActive(w, step);
      var w' := Next(w, step);
      hide Next;
      forall d | d in w'.captures ensures d < w'.serials && Shelter(w', d) {
        assert Shelter(w, d);
      }
    }
  }

  lemma StoreIsSound(w: World)
    requires Sound(w)
    ensures UsageJournal.Invariant(w.store)
  {
  }

  lemma DeliveryKeepsActive(w: World, step: Step)
    requires UsageJournal.Invariant(w.store) && Enabled(w, step)
    requires step.Restart? || step.Read? || step.Deliver? || step.Remove?
    ensures var w' := Next(w, step);
            w'.captures == map[]
            || (w'.captures == w.captures && w'.serials == w.serials && w'.store.active == w.store.active)
  {
    if step.Remove? && Acknowledge(w.store, w.batch).Success? {
      AcknowledgeFacts(w.store, w.batch);
    }
    hide Acknowledge, Recover;
  }

  /** Under shelter a report is made for an active invocation, whatever writes failed before. */
  lemma ReportsFallInsideAdmission(w: World, step: Step)
    requires Sheltered(w) && Enabled(w, step)
    ensures step.Record? ==> step.event.context.invocation in w.store.active
    ensures step.Finish? && !w.captures[step.c].settled ==> step.event.context.invocation in w.store.active
    ensures var js := JournalStep(w, step);
            js.Some? && js.value.Report? ==> js.value.event.context.invocation in w.store.active
  {
    if step.Finish? || step.Release? || step.Record? {
      assert Shelter(w, step.c);
    }
    hide Sheltered;
  }

  lemma NothingIsStray(a: Account, w: World, step: Step, capacity: nat)
    requires Sheltered(w) && Enabled(w, step) && a.store == w.store && Covered(a, capacity)
    ensures AccountAfter(a, w, step).stray == a.stray
  {
    var js := JournalStep(w, step);
    if js.Some? {
      ReportsFallInsideAdmission(w, step);
      hide Sheltered, Next, Covered;
      NamedInside(a, capacity);
      InsideIsNotStray(a, w.capacity, w.encode, js.value);
      hide Enabled, JournalStep, UsageJournal.Next;
    }
  }

  lemma NamedInside(a: Account, capacity: nat)
    requires Covered(a, capacity)
    ensures Named(a.store) && a.spent.Keys == a.store.active.Keys
  {
  }

  /** At no time of the run is a producer retained too late. */
  ghost predicate AlwaysPunctual(w: World, steps: seq<Step>)
    requires Legal(w, steps)
    decreases |steps|
  {
    steps == [] || (Punctual(w, steps[0]) && AlwaysPunctual(Next(w, steps[0]), steps[1..]))
  }

  /** No capture failed at any time of the run, in any of its processes. */
  ghost predicate NeverFails(w: World, steps: seq<Step>)
    requires Legal(w, steps)
    decreases |steps|
  {
    w.failures == 0 && (steps == [] || NeverFails(Next(w, steps[0]), steps[1..]))
  }

  /** A producer that comes too late is counted as a failure. */
  lemma {:induction false} WithoutFailuresAlwaysPunctual(w: World, steps: seq<Step>)
    requires Legal(w, steps) && NeverFails(w, steps)
    ensures AlwaysPunctual(w, steps)
    decreases |steps|
  {
    if steps != [] {
      assert NeverFails(Next(w, steps[0]), steps[1..]);
      WithoutFailuresAlwaysPunctual(Next(w, steps[0]), steps[1..]);
      LateIsFailure(w, steps[0]);
      hide Next, Enabled, Punctual;
    }
  }

  lemma LateIsFailure(w: World, step: Step)
    requires Enabled(w, step) && Next(w, step).failures == 0
    ensures Punctual(w, step)
  {
  }

  lemma {:induction false} AccountStaysCovered(a: Account, w: World, steps: seq<Step>)
    requires Sound(w) && Legal(w, steps) && a.store == w.store && Covered(a, w.capacity)
    ensures var end := AccountOver(a, w, steps);
            && end.store == Run(w, steps).store && Covered(end, w.capacity)
            && (Sheltered(w) && AlwaysPunctual(w, steps) ==> end.stray == a.stray)
    decreases |steps|
  {
    if steps != [] {
      var step := steps[0];
      var a', w' := AccountAfter(a, w, step), Next(w, step);
      AccountFollows(a, w, step);
      StepKeepsSound(w, step);
      StepCovers(a, w, step);
      hide Sound, Covered, AccountAfter, Enabled, Sheltered, Punctual;
      if Sheltered(w) && AlwaysPunctual(w, steps) {
        StepKeepsSheltered(w, step);
        NothingIsStray(a, w, step, w.capacity);
      }
      CapacityStays(w, step);
      AccountStaysCovered(a', w', steps[1..]);
    }
  }

  lemma StepCovers(a: Account, w: World, step: Step)
    requires Enabled(w, step) && a.store == w.store && Covered(a, w.capacity)
    ensures Covered(AccountAfter(a, w, step), w.capacity)
  {
    var js := JournalStep(w, step);
    if js.Some? {
      hide Covered, UsageJournal.Next;
      StepKeepsCovered(a, w.capacity, w.encode, js.value);
    }
  }

  lemma CapacityStays(w: World, step: Step)
    requires Enabled(w, step)
    ensures Next(w, step).capacity == w.capacity
  {
  }

  /**
   Over any run of requests, failed writes, crashes and deliveries in which no producer is
   retained after the settlement without being admitted again, every byte is reported inside
   an admission, and the stored receipts stay within capacity as long as no admission
   journals more than its reservation. A run without failures is such a run.
   */
  lemma CapacityHolds(capacity: nat, encode: Encoder, steps: seq<Step>)
    requires Legal(Initial(capacity, encode), steps)
    requires AlwaysPunctual(Initial(capacity, encode), steps) || NeverFails(Initial(capacity, encode), steps)
    ensures var a, w := AccountOver(NO_ACCOUNT, Initial(capacity, encode), steps),
            Run(Initial(capacity, encode), steps);
            && a.store == w.store && a.stray == 0
            && (a.peak <= RESERVATION ==> w.store.size <= capacity)
  {
    assert Weights(map[]) == map[] && Reserved(map[]) == map[];
    InitialIsSound(capacity, encode);
    assert Sheltered(Initial(capacity, encode)) && Covered(NO_ACCOUNT, capacity);
    hide Run, Legal, AlwaysPunctual, NeverFails, AccountOver, Sound, Sheltered;
    if NeverFails(Initial(capacity, encode), steps) {
      WithoutFailuresAlwaysPunctual(Initial(capacity, encode), steps);
    }
    AccountStaysCovered(NO_ACCOUNT, Initial(capacity, encode), steps);
  }

  // ----- The capture in place -----

  class RequestCapture {
    const journal: Journal
    const context: Attribution
    var producers: nat
    var finished: Option<Event>
    var settled: bool

    ghost function State(): Held
      reads this, journal
    {
      Held(journal.Contents(), journal.captureFailures, Capture(context, producers, finished, settled))
    }

    /** A capture exists only for an invocation that the journal admitted. */
    constructor (journal: Journal, context: Attribution)
      ensures this.journal == journal && this.context == context
      ensures State() == Held(journal.Contents(), journal.captureFailures, Capture(context, 0, None, false))
    {
      this.journal, this.context := journal, context;
      producers, finished, settled := 0, None, false;
    }

    method AppendReceipt(e: Event, io: bool) returns (written: bool)
      requires journal.Valid()
      modifies journal
      ensures journal.Valid() && journal.producers == old(journal.producers)
      ensures State() == Reported(old(State()), journal.encode, e, io)
      ensures written == Writes(old(State()), journal.encode, e, io)
    {
      written := false;
      if io {
        var error := journal.AppendEvent(e);
        written := error.None?;
      }
      if !written {
        journal.captureFailures := journal.captureFailures + 1;
      }
    }

    method Settle(io: bool)
      requires journal.Valid()
      modifies this`settled, journal
      ensures journal.Valid() && journal.producers == old(journal.producers)
      ensures State() == Settled(old(State()), journal.encode, io)
    {
      if !settled && finished.Some? && producers == 0 {
        settled := AppendReceipt(finished.value, io);
      }
    }

    method Finish(e: Event, io: bool)
      requires journal.Valid()
      modifies this`finished, this`settled, journal
      ensures journal.Valid() && journal.producers == old(journal.producers)
      ensures State() == Settled(Ending(old(State()), e), journal.encode, io)
    {
      if finished.None? {
        finished := Some(e);
      }
      Settle(io);
    }

    method RetainProducer(io: bool)
      requires journal.Valid()
      modifies this`producers, this`settled, journal
      ensures journal.Valid() && journal.producers == old(journal.producers) + 1
      ensures State() == Retained(old(State()), journal.capacity, journal.encode, io)
    {
      journal.producers := journal.producers + 1;
      if settled {
        journal.captureFailures := journal.captureFailures + 1;
        if io {
          var error := journal.AdmitInvocation(context);
        }
        settled := false;
      }
      producers := producers + 1;
    }

    method ReleaseProducer(io: bool)
      requires journal.Valid() && producers > 0 && journal.producers > 0
      modifies this`producers, this`settled, journal
      ensures journal.Valid() && journal.producers == old(journal.producers) - 1
      ensures State() == Settled(Leaving(old(State())), journal.encode, io)
    {
      producers := producers - 1;
      Settle(io);
      journal.producers := journal.producers - 1;
    }

    /** An attempt or its usage: the producer is held while the receipt is written. */
    method RecordReceipt(e: Event, retain: bool, write: bool, release: bool)
      requires journal.Valid()
      modifies this`producers, this`settled, journal
      ensures journal.Valid() && journal.producers == old(journal.producers)
      ensures var held := Retained(old(State()), journal.capacity, journal.encode, retain);
              State() == Settled(Leaving(Reported(held, journal.encode, e, write)), journal.encode, release)
    {
      RetainProducer(retain);
      var written := AppendReceipt(e, write);
      ReleaseProducer(release);
    }
  }
}
