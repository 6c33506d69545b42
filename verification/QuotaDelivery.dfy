/**
 The quota manager together with the delivery of its receipts: volumes, crashes, batches,
 lost acknowledgements and the ledger of the accounting service, in any order.
 */
module QuotaDelivery {
  import opened Wrappers
  import opened ResourceTypes
  import opened WorkspaceQuota
  import opened QuotaLineage
  import J = ResourceJournal
  import L = ResourceLedger
  import M = MeteringPipeline
  import Q = QuotaPool

  /** The pool and the pipeline share one journal. */
  datatype Joint = Joint(pool: Q.Pool, pipeline: M.World)

  datatype Step =
    | Manage(step: Q.Step)
    | Read
    | Post(rows: seq<J.Row>)
    | Acknowledge(rows: seq<J.Row>)
    | NewRate(tenantId: Uuid, input: L.RateInput, now: int, id: nat)

  ghost predicate Enabled(j: Joint, step: Step) {
    match step
    case Manage(s) =>
      && Admits(j.pool, s) && !s.Acknowledge?
      && (s.Advance? ==> forall e | e in j.pipeline.emitted :: e.id != s.meets.eventId)
      && (s.Crash? ==> s.bootId !in j.pipeline.boots)
    case Post(rows) => rows in j.pipeline.batches
    case Acknowledge(rows) => rows in j.pipeline.accepted
    case _ => true
  }

  /** What a step of the manager is to the pipeline. */
  function Metering(w: Q.Pool, step: Q.Step): Option<M.Step>
    requires step.Advance? ==> step.volume in w.operations
  {
    match step
    case Advance(v, meets) =>
      var sample := Q.SampleOf(Q.LocalOf(w, v), meets.now, meets.clock);
      if sample.None? then None else Some(M.Capture(sample.value, meets.eventId, meets.io))
    case Crash(bootId) => Some(M.Restart(bootId))
    case _ => None
  }

  ghost function Next(j: Joint, step: Step): Joint
    requires Enabled(j, step)
  {
    match step
    case Manage(s) =>
      var m := Metering(j.pool, s);
      Joint(Q.Next(j.pool, s), if m.None? then j.pipeline else M.Next(j.pipeline, m.value))
    case Read => j.(pipeline := M.Next(j.pipeline, M.Read))
    case Post(rows) => j.(pipeline := M.Next(j.pipeline, M.Post(rows)))
    case Acknowledge(rows) =>
      Joint(Q.Next(j.pool, Q.Acknowledge(rows)), M.Next(j.pipeline, M.Acknowledge(rows)))
    case NewRate(tenantId, input, now, id) =>
      j.(pipeline := M.Next(j.pipeline, M.NewRate(tenantId, input, now, id)))
  }

  ghost predicate Legal(j: Joint, steps: seq<Step>)
    decreases |steps|
  {
    steps == [] || (Enabled(j, steps[0]) && Legal(Next(j, steps[0]), steps[1..]))
  }

  ghost function Run(j: Joint, steps: seq<Step>): Joint
    requires Legal(j, steps)
    decreases |steps|
  {
    if steps == [] then j else Run(Next(j, steps[0]), steps[1..])
  }

  function Initial(sequence: nat, sourceId: string, bootId: nat): Joint {
    Joint(Q.Initial(sequence, sourceId, bootId), M.Initial(sourceId, bootId))
  }

  ghost predicate Joined(j: Joint) {
    && Q.Sound(j.pool) && Lineage(j.pool) && M.Delivers(j.pipeline)
    && j.pipeline.journal == j.pool.journal && j.pipeline.emitted == Receipts(j.pool.emitted)
  }

  /** A capture is the same to both. */
  lemma CaptureAgrees(w: M.World, s: J.Sample, eventId: nat, io: J.Io)
    requires J.Invariant(w.journal)
    ensures var w', out := M.CaptureStep(w, s, eventId, io), J.Outcome(w.journal, s, eventId, io);
            && w'.journal == J.Captured(w.journal, s, eventId, io)
            && w'.emitted == if out.Success? && out.value.emitted.Some? then w.emitted + [out.value.emitted.value]
                             else w.emitted
  {
    M.CaptureKeepsJournal(w, s, eventId, io);
    if J.Outcome(w.journal, s, eventId, io).Success? {
      M.CaptureFacts(w.journal, s, eventId, io);
    }
    hide J.Outcome, J.Captured, J.Invariant;
  }

  lemma ReceiptsAppend(emitted: seq<Q.Emission>, m: Q.Emission)
    ensures Receipts(emitted + [m]) == Receipts(emitted) + [m.event]
  {
  }

  lemma AdvanceKeepsJoined(j: Joint, v: string, meets: Q.Meets)
    requires Joined(j) && Enabled(j, Manage(Q.Advance(v, meets)))
    ensures Joined(Next(j, Manage(Q.Advance(v, meets))))
  {
    var w, step := j.pool, Q.Advance(v, meets);
    var sample := Q.SampleOf(Q.LocalOf(w, v), meets.now, meets.clock);
    Q.StepKeepsSound(w, step);
    StepKeepsLineage(w, step);
    Q.AdvanceEmits(w, v, meets);
    PipelineInvariant(j);
    hide Q.Sound, Lineage, M.Delivers, Q.LocalOf, Q.SampleOf, Q.Advances, M.Continues, J.Invariant;
    if sample.Some? {
      SampleContinues(w, v, meets, j.pipeline);
      CaptureStepJoins(j, sample.value, meets);
      CaptureAgrees(j.pipeline, sample.value, meets.eventId, meets.io);
      var out := J.Outcome(w.journal, sample.value, meets.eventId, meets.io);
      hide J.Outcome, J.Captured, M.CaptureStep;
      if out.Success? && out.value.emitted.Some? {
        ReceiptsAppend(w.emitted, Q.Emission(w.operations[v].record.request.identity, Q.ProjectOf(w, v),
                                             out.value.emitted.value));
      }
    }
  }

  lemma PipelineInvariant(j: Joint)
    requires Joined(j)
    ensures J.Invariant(j.pipeline.journal)
  {
  }

  lemma CaptureStepJoins(j: Joint, s: J.Sample, meets: Q.Meets)
    requires M.Delivers(j.pipeline) && M.Continues(j.pipeline, s, meets.eventId, meets.io)
    requires forall e | e in j.pipeline.emitted :: e.id != meets.eventId
    ensures var w' := M.Next(j.pipeline, M.Capture(s, meets.eventId, meets.io));
            M.Delivers(w') && w' == M.CaptureStep(j.pipeline, s, meets.eventId, meets.io)
  {
    hide M.Delivers, M.Continues, M.CaptureStep;
    M.StepKeepsDelivers(j.pipeline, M.Capture(s, meets.eventId, meets.io));
  }

  /** A crash restarts the journal of both. */
  lemma CrashAgrees(w: Q.Pool, pipeline: M.World, bootId: nat)
    requires Q.Enabled(w, Q.Crash(bootId)) && pipeline.journal == w.journal
    ensures var w', pipeline' := Q.Next(w, Q.Crash(bootId)), M.Next(pipeline, M.Restart(bootId));
            && pipeline'.journal == w'.journal && w'.emitted == w.emitted && pipeline'.emitted == pipeline.emitted
  {
  }

  lemma CrashKeepsJoined(j: Joint, bootId: nat)
    requires Joined(j) && Enabled(j, Manage(Q.Crash(bootId)))
    ensures Joined(Next(j, Manage(Q.Crash(bootId))))
  {
    var crash := Q.Crash(bootId);
    hide Q.Sound, Lineage, M.Delivers, Q.Next, M.Next;
    assert Admits(j.pool, crash) && Q.Enabled(j.pool, crash) && M.Enabled(j.pipeline, M.Restart(bootId));
    hide Q.Enabled, M.Enabled, Admits;
    Q.StepKeepsSound(j.pool, crash);
    StepKeepsLineage(j.pool, crash);
    M.StepKeepsDelivers(j.pipeline, M.Restart(bootId));
    CrashAgrees(j.pool, j.pipeline, bootId);
    NextOfCrash(j, bootId);
    hide Enabled, Next;
  }

  lemma NextOfCrash(j: Joint, bootId: nat)
    requires Enabled(j, Manage(Q.Crash(bootId)))
    ensures Next(j, Manage(Q.Crash(bootId)))
            == Joint(Q.Next(j.pool, Q.Crash(bootId)), M.Next(j.pipeline, M.Restart(bootId)))
  {
    hide Q.Next, M.Next, Admits;
  }

  /** Most of what the manager does is no matter of the journal. */
  lemma OtherStepsKeepJournal(w: Q.Pool, step: Q.Step)
    requires Q.Enabled(w, step) && !step.Advance? && !step.Crash? && !step.Acknowledge?
    ensures Q.Next(w, step).journal == w.journal && Q.Next(w, step).emitted == w.emitted
  {
    hide EnsureRefusal, ReleaseRefusal, AlreadyApplied, Q.LocalOf, EnsureOperation, ReleaseOperation;
  }

  /** Delivered rows leave the outbox of both. */
  lemma AcknowledgementAgrees(w: Q.Pool, pipeline: M.World, rows: seq<J.Row>)
    requires M.Delivering(pipeline) && rows in pipeline.accepted && pipeline.journal == w.journal
    ensures var w', pipeline' := Q.Next(w, Q.Acknowledge(rows)), M.Next(pipeline, M.Acknowledge(rows));
            && pipeline'.journal == w'.journal && w'.emitted == w.emitted && pipeline'.emitted == pipeline.emitted
  {
    hide M.Delivering;
    M.AcknowledgeKeepsDelivering(pipeline, rows);
    hide M.Next, J.Acknowledged, J.Keys;
  }

  lemma AcknowledgeKeepsJoined(j: Joint, rows: seq<J.Row>)
    requires Joined(j) && rows in j.pipeline.accepted
    ensures Joined(Next(j, Acknowledge(rows)))
  {
    var step := Q.Acknowledge(rows);
    hide Q.Sound, Lineage, M.Delivers, M.Delivering, Q.Next, M.Next;
    assert Admits(j.pool, step) && Q.Enabled(j.pool, step) && M.Enabled(j.pipeline, M.Acknowledge(rows));
    hide Q.Enabled, M.Enabled, Admits;
    DeliversMeans(j.pipeline);
    Q.StepKeepsSound(j.pool, step);
    StepKeepsLineage(j.pool, step);
    M.StepKeepsDelivers(j.pipeline, M.Acknowledge(rows));
    AcknowledgementAgrees(j.pool, j.pipeline, rows);
    hide Enabled;
  }

  lemma DeliversMeans(w: M.World)
    requires M.Delivers(w)
    ensures M.Delivering(w)
  {
  }

  lemma DeliveryKeepsJoined(j: Joint, step: Step)
    requires Joined(j) && Enabled(j, step) && (step.Read? || step.Post? || step.NewRate?)
    ensures Joined(Next(j, step))
  {
    hide Q.Sound, Lineage, M.Delivers;
    match step {
      case Read => M.StepKeepsDelivers(j.pipeline, M.Read);
      case Post(rows) => M.StepKeepsDelivers(j.pipeline, M.Post(rows));
      case NewRate(tenantId, input, now, id) =>
        M.StepKeepsDelivers(j.pipeline, M.NewRate(tenantId, input, now, id));
      case _ =>
    }
    hide L.Ingest, L.After, M.Events;
  }

  lemma StepKeepsJoined(j: Joint, step: Step)
    requires Joined(j) && Enabled(j, step)
    ensures Joined(Next(j, step))
  {
    match step {
      case Manage(s) =>
        match s {
          case Advance(v, meets) => AdvanceKeepsJoined(j, v, meets);
          case Crash(bootId) => CrashKeepsJoined(j, bootId);
          case _ => QuietStepKeepsJoined(j, s);
        }
      case Acknowledge(rows) => AcknowledgeKeepsJoined(j, rows);
      case _ => DeliveryKeepsJoined(j, step);
    }
  }

  lemma QuietStepKeepsJoined(j: Joint, s: Q.Step)
    requires Joined(j) && Enabled(j, Manage(s)) && !s.Advance? && !s.Crash?
    ensures Joined(Next(j, Manage(s)))
  {
    Q.StepKeepsSound(j.pool, s);
    StepKeepsLineage(j.pool, s);
    OtherStepsKeepJournal(j.pool, s);
    hide Q.Sound, Lineage, M.Delivers, Q.Next, Q.Enabled;
  }

  lemma {:induction false} RunKeepsJoined(j: Joint, steps: seq<Step>)
    requires Joined(j) && Legal(j, steps)
    ensures Joined(Run(j, steps))
    decreases |steps|
  {
    if steps != [] {
      hide Joined, Enabled, Next;
      StepKeepsJoined(j, steps[0]);
      RunKeepsJoined(Next(j, steps[0]), steps[1..]);
    }
  }

  lemma InitialIsJoined(sequence: nat, sourceId: string, bootId: nat)
    ensures Joined(Initial(sequence, sourceId, bootId))
  {
    Q.InitialIsSound(sequence, sourceId, bootId);
    InitialIsTraced(sequence, sourceId, bootId);
    M.InitialDelivers(sourceId, bootId);
    hide Q.Sound, Lineage, M.Delivers;
  }

  /**
   After any run of the manager and its deliveries, crash by crash: no batch is refused, no
   receipt is lost, and every record that is being deleted has its one terminal receipt in
   the ledger.
   */
  lemma ManagerIsDelivered(sequence: nat, sourceId: string, bootId: nat, steps: seq<Step>)
    requires Legal(Initial(sequence, sourceId, bootId), steps)
    ensures var j := Run(Initial(sequence, sourceId, bootId), steps);
            var w, ledger := j.pool, j.pipeline.ledger;
            && (forall rows | rows in j.pipeline.batches :: L.Ingest(ledger, M.Events(rows)).Success?)
            && (forall i | 0 <= i < |w.emitted| ::
                  || M.Recorded(ledger, w.emitted[i].event)
                  || J.Row(i + 1, w.emitted[i].event) in w.journal.store.pending)
            && (forall v | v in w.operations && w.operations[v].Collecting? ::
                  && v in w.records
                  && exists i :: Q.OnlyTerminal(w, w.records[v], i) && M.Recorded(ledger, w.emitted[i].event))
  {
    InitialIsJoined(sequence, sourceId, bootId);
    RunKeepsJoined(Initial(sequence, sourceId, bootId), steps);
    var j := Run(Initial(sequence, sourceId, bootId), steps);
    hide Run, Legal, Initial, Joined, L.Ingest, M.Recorded, Q.OnlyTerminal;
    forall rows | rows in j.pipeline.batches ensures L.Ingest(j.pipeline.ledger, M.Events(rows)).Success? {
      BatchIsAccepted(j, rows);
    }
    forall i | 0 <= i < |j.pool.emitted|
      ensures M.Recorded(j.pipeline.ledger, j.pool.emitted[i].event)
              || J.Row(i + 1, j.pool.emitted[i].event) in j.pool.journal.store.pending
    {
      ReceiptIsSafe(j, i);
    }
    forall v | v in j.pool.operations && j.pool.operations[v].Collecting?
      ensures v in j.pool.records
      ensures exists i :: Q.OnlyTerminal(j.pool, j.pool.records[v], i)
                          && M.Recorded(j.pipeline.ledger, j.pool.emitted[i].event)
    {
      CollectedIsRecorded(j, v);
    }
  }

  lemma BatchIsAccepted(j: Joint, rows: seq<J.Row>)
    requires Joined(j) && rows in j.pipeline.batches
    ensures L.Ingest(j.pipeline.ledger, M.Events(rows)).Success?
  {
    DeliversMeans(j.pipeline);
    hide M.Delivering;
    M.DeliveryIsAccepted(j.pipeline, rows);
  }

  lemma ReceiptIsSafe(j: Joint, i: int)
    requires Joined(j) && 0 <= i < |j.pool.emitted|
    ensures M.Recorded(j.pipeline.ledger, j.pool.emitted[i].event)
            || J.Row(i + 1, j.pool.emitted[i].event) in j.pool.journal.store.pending
  {
    M.NothingIsLost(j.pipeline);
    hide M.Delivers, Q.Sound, Lineage, M.Recorded;
    assert j.pipeline.emitted[i] == j.pool.emitted[i].event;
  }

  lemma CollectedIsRecorded(j: Joint, v: string)
    requires Joined(j) && v in j.pool.operations && j.pool.operations[v].Collecting?
    ensures v in j.pool.records
    ensures exists i :: Q.OnlyTerminal(j.pool, j.pool.records[v], i)
                        && M.Recorded(j.pipeline.ledger, j.pool.emitted[i].event)
  {
    assert Q.Sound(j.pool);
    Q.CollectingIsAcknowledged(j.pool, v);
    var i :| Q.OnlyTerminal(j.pool, j.pool.records[v], i) && i + 1 in j.pool.acknowledged;
    ReceiptIsSafe(j, i);
    hide Joined, M.Recorded, Q.Sound;
    assert KeyOf(j.pool.emitted[i].event.resource) == Q.KeyOfVolume(j.pool.records[v].request.identity);
  }
}
