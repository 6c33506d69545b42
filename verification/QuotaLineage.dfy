/**
 When no metered volume comes back under its generation after its record was collected,
 every receipt of a resource belongs to one record: the manager then meets by itself what
 the metering pipeline asks of its callers, and no resource is ever reported gone twice.
 */
module QuotaLineage {
  import opened Wrappers
  import opened ResourceTypes
  import opened WorkspaceQuota
  import opened QuotaPool
  import J = ResourceJournal
  import M = MeteringPipeline

  /** The volume was metered under this generation, and its record is gone or being deleted. */
  ghost predicate Collected(w: Pool, v: string, generation: string) {
    && (exists i :: 0 <= i < |w.emitted| && w.emitted[i].identity.volume == v
                    && w.emitted[i].identity.generation == generation)
    && !(v in w.records && w.records[v].request.identity.generation == generation
         && !(v in w.operations && w.operations[v].Collecting?))
  }

  /** Such a volume does not come back. */
  ghost predicate Admits(w: Pool, step: Step) {
    Enabled(w, step) && (step.MakeDirectory? ==> !Collected(w, step.volume, step.generation))
  }

  ghost predicate Proceeds(w: Pool, steps: seq<Step>)
    decreases |steps|
  {
    steps == [] || (Admits(w, steps[0]) && Proceeds(Next(w, steps[0]), steps[1..]))
  }

  /** The record that a receipt was committed for. */
  predicate Current(w: Pool, m: Emission) {
    var v := m.identity.volume;
    v in w.records && w.records[v].request.identity == m.identity && w.records[v].project == m.project
  }

  /** Neither a record nor a volume carries the generation any more. */
  predicate Retired(w: Pool, i: VolumeIdentity) {
    && (i.volume in w.records ==> w.records[i.volume].request.identity.generation != i.generation)
    && (i.volume in w.directories ==> w.directories[i.volume].generation != i.generation)
  }

  /** A record is deleted only while its volume is not there. */
  ghost predicate VolumesTraced(w: Pool) {
    forall v | v in w.operations && w.operations[v].Collecting? && v in w.directories ::
      w.directories[v].generation != w.operations[v].record.request.identity.generation
  }

  ghost predicate Traced(w: Pool, m: Emission) {
    && |m.identity.volume| == VOLUME_LENGTH && m.event.resource == ResourceOf(m.identity)
    && (Current(w, m) || Retired(w, m.identity))
    && (Current(w, m) && !w.records[m.identity.volume].meteringClosed ==>
          KeyOfVolume(m.identity) in w.journal.store.cursors)
  }

  predicate SameVolume(a: VolumeIdentity, b: VolumeIdentity) {
    a.volume == b.volume && a.generation == b.generation
  }

  ghost predicate Lineage(w: Pool) {
    && VolumesTraced(w)
    && (forall i | 0 <= i < |w.emitted| :: Traced(w, w.emitted[i]))
    && (forall i, j | 0 <= i < |w.emitted| && 0 <= j < |w.emitted|
                      && SameVolume(w.emitted[i].identity, w.emitted[j].identity) ::
          w.emitted[i].project == w.emitted[j].project)
  }

  lemma KeysAgree(a: VolumeIdentity, b: VolumeIdentity)
    requires |a.volume| == VOLUME_LENGTH && |b.volume| == VOLUME_LENGTH && KeyOfVolume(a) == KeyOfVolume(b)
    ensures SameVolume(a, b)
  {
    KeysDiffer(a, b);
    var x, y := a.volume + ":" + a.generation, b.volume + ":" + b.generation;
    assert x == y && x[VOLUME_LENGTH + 1..] == a.generation && y[VOLUME_LENGTH + 1..] == b.generation;
  }

  // ----- Steps that keep the history -----

  lemma DirectoriesKnown(w: Pool, step: Step)
    requires Enabled(w, step) && !step.Advance?
    ensures var w' := Next(w, step);
            forall v | v in w'.directories ::
              || (v in w.directories && w'.directories[v].generation == w.directories[v].generation)
              || (step.MakeDirectory? && step.volume == v && step.generation == w'.directories[v].generation)
  {
    hide EnsureRefusal, ReleaseRefusal, AlreadyApplied, LocalOf, EnsureOperation, ReleaseOperation;
  }

  /** A deletion begins only where no volume is. */
  lemma CollectingKnown(w: Pool, step: Step, v: string)
    requires Enabled(w, step) && !step.Advance? && v in Next(w, step).operations
             && Next(w, step).operations[v].Collecting?
    ensures (v in w.operations && w.operations[v] == Next(w, step).operations[v]) || v !in Next(w, step).directories
  {
    hide EnsureRefusal, ReleaseRefusal, AlreadyApplied, LocalOf;
  }

  /** A record that is being deleted has receipts. */
  lemma CollectingIsMetered(w: Pool, v: string)
    requires Sound(w) && Lineage(w) && v in w.operations && w.operations[v].Collecting?
    ensures Collected(w, v, w.operations[v].record.request.identity.generation)
  {
    CollectingIsAcknowledged(w, v);
    OperationVolume(w, v);
    hide Sound;
    var i :| OnlyTerminal(w, w.records[v], i) && i + 1 in w.acknowledged;
    assert Traced(w, w.emitted[i]);
    KeysAgree(w.emitted[i].identity, w.records[v].request.identity);
  }

  /** No volume comes back under a record that is being deleted. */
  lemma QuietStepKeepsVolumes(w: Pool, step: Step)
    requires Sound(w) && Lineage(w) && Admits(w, step) && !step.Advance?
    ensures VolumesTraced(Next(w, step))
  {
    var w' := Next(w, step);
    DirectoriesKnown(w, step);
    assert VolumesTraced(w);
    hide Sound, Lineage, Next, Enabled, Collected;
    forall v | v in w'.operations && w'.operations[v].Collecting? && v in w'.directories
      ensures w'.directories[v].generation != w'.operations[v].record.request.identity.generation
    {
      CollectingKnown(w, step, v);
      CollectingIsMetered(w, v);
    }
  }

  /** Only cursors of resources that are gone are collected. */
  lemma CursorsStay(w: Pool, step: Step, k: Key)
    requires Enabled(w, step) && !step.Advance? && k in w.journal.store.cursors && !Gone(w, k)
    ensures k in Next(w, step).journal.store.cursors && Next(w, step).emitted == w.emitted
  {
    hide EnsureRefusal, ReleaseRefusal, AlreadyApplied, LocalOf, EnsureOperation, ReleaseOperation, J.Without;
  }

  lemma QuietStepKeepsTraced(w: Pool, step: Step, m: Emission)
    requires Sound(w) && m in w.emitted && Traced(w, m) && Admits(w, step) && !step.Advance?
    ensures Traced(Next(w, step), m)
  {
    var w', v := Next(w, step), m.identity.volume;
    OtherStepsKeepRecord(w, step, v, 0);
    DirectoriesKnown(w, step);
    var k := KeyOfVolume(m.identity);
    if Current(w, m) && !w.records[v].meteringClosed {
      OpenIsNotGone(w, m);
      CursorsStay(w, step, k);
    }
    if Retired(w, m.identity) && step.MakeDirectory? {
      RetiredStaysAway(w, step, m);
    }
    hide Sound, Next, Enabled, Gone, KeyOfVolume, Collected;
  }

  lemma RetiredStaysAway(w: Pool, step: Step, m: Emission)
    requires m in w.emitted && Retired(w, m.identity) && Admits(w, step) && step.MakeDirectory?
    ensures !(step.volume == m.identity.volume && step.generation == m.identity.generation)
  {
    var i :| 0 <= i < |w.emitted| && w.emitted[i] == m;
  }

  lemma OpenIsNotGone(w: Pool, m: Emission)
    requires Sound(w) && Current(w, m) && !w.records[m.identity.volume].meteringClosed
             && |m.identity.volume| == VOLUME_LENGTH
    ensures !Gone(w, KeyOfVolume(m.identity))
  {
    var k := KeyOfVolume(m.identity);
    if Gone(w, k) {
      var u :| ClosedVolume(w, u, k);
      VolumeIsSound(w, u);
      hide LocalSound;
      KeysDiffer(w.records[u].request.identity, m.identity);
    }
  }

  lemma QuietStepKeepsLineage(w: Pool, step: Step)
    requires Sound(w) && Lineage(w) && Admits(w, step) && !step.Advance?
    ensures Lineage(Next(w, step))
  {
    var w' := Next(w, step);
    QuietStepKeepsVolumes(w, step);
    SameHistory(w, step);
    hide Sound, VolumesTraced, Traced, Next, Enabled, Collected;
    forall i | 0 <= i < |w'.emitted| ensures Traced(w', w'.emitted[i]) {
      QuietStepKeepsTraced(w, step, w.emitted[i]);
    }
  }

  lemma SameHistory(w: Pool, step: Step)
    requires Enabled(w, step) && !step.Advance?
    ensures Next(w, step).emitted == w.emitted
  {
    hide EnsureRefusal, ReleaseRefusal, AlreadyApplied, LocalOf, EnsureOperation, ReleaseOperation;
  }

  // ----- Effects -----

  /** What an effect leaves of a volume's identity, its directory and its release. */
  lemma EffectOnIdentity(l: Local, v: string, now: nat, closed: bool)
    requires LocalSound(l, v) && l.operation.Some?
    ensures var l' := Advanced(l, now, closed);
            && (l.directory.Some? <==> l'.directory.Some?)
            && (l.directory.Some? ==> l'.directory.value.generation == l.directory.value.generation)
            && (l.record.Some? && l'.record.Some? ==>
                  && l'.record.value.request.identity == l.record.value.request.identity
                  && l'.record.value.project == l.record.value.project
                  && (l.record.value.meteringClosed ==> l'.record.value.meteringClosed))
            && (l.record.None? && l'.record.Some? ==>
                  l.directory.Some? && l'.record.value.request.identity.generation == l.directory.value.generation)
            && (l.record.Some? && l'.record.None? ==>
                  l.operation.value.Collecting? && l.operation.value.record == l.record.value)
            && (l'.operation.Some? ==> !l'.operation.value.Collecting?)
  {
  }

  lemma AdvanceDirectories(w: Pool, v: string, meets: Meets)
    requires v in w.operations
    ensures var w', l' := Advances(w, v, meets), Advanced(LocalOf(w, v), meets.now, Closes(w, v, meets));
            && J.Lookup(w'.directories, v) == l'.directory
            && (forall u | u != v :: J.Lookup(w'.directories, u) == J.Lookup(w.directories, u))
  {
    hide LocalOf, Advanced, J.Outcome, J.Captured, SampleOf, Closes;
  }

  /** The volume of an effect before and after it. */
  ghost predicate Turned(w: Pool, w': Pool, v: string, l: Local, l': Local) {
    && l.record == J.Lookup(w.records, v) && l.directory == J.Lookup(w.directories, v)
       && l.operation == J.Lookup(w.operations, v)
    && l'.record == J.Lookup(w'.records, v) && l'.directory == J.Lookup(w'.directories, v)
    && l'.operation == J.Lookup(w'.operations, v)
    && forall u | u != v ::
         && J.Lookup(w'.records, u) == J.Lookup(w.records, u)
            && J.Lookup(w'.directories, u) == J.Lookup(w.directories, u)
         && J.Lookup(w'.operations, u) == J.Lookup(w.operations, u)
  }

  lemma AdvanceTurns(w: Pool, v: string, meets: Meets)
    requires Sound(w) && v in w.operations
    ensures Turned(w, Advances(w, v, meets), v, LocalOf(w, v), Advanced(LocalOf(w, v), meets.now, Closes(w, v, meets)))
  {
    AdvanceRecord(w, v, meets);
    AdvanceDirectories(w, v, meets);
    forall u | u != v
      ensures J.Lookup(Advances(w, v, meets).records, u) == J.Lookup(w.records, u)
      ensures J.Lookup(Advances(w, v, meets).operations, u) == J.Lookup(w.operations, u)
    {
      AdvanceFrame(w, v, meets, u);
    }
    hide Advances, Advanced, Closes, Sound, ProjectOf;
  }

  lemma TurnKeepsVolumes(w: Pool, w': Pool, v: string, l: Local, l': Local, now: nat, closed: bool)
    requires VolumesTraced(w) && Turned(w, w', v, l, l')
    requires LocalSound(l, v) && l.operation.Some? && l' == Advanced(l, now, closed)
    ensures VolumesTraced(w')
  {
    EffectOnIdentity(l, v, now, closed);
    hide Advanced, LocalSound;
    forall u | u in w'.operations && w'.operations[u].Collecting? && u in w'.directories
      ensures w'.directories[u].generation != w'.operations[u].record.request.identity.generation
    {
      assert J.Lookup(w'.directories, u).Some? && J.Lookup(w'.operations, u).Some?;
      assert u != v && J.Lookup(w.directories, u).Some? && J.Lookup(w.operations, u).Some?;
    }
  }

  /** Earlier receipts keep their record, or see it retired. */
  lemma TurnKeepsOrigin(w: Pool, w': Pool, v: string, l: Local, l': Local, now: nat, closed: bool, m: Emission)
    requires VolumesTraced(w) && Turned(w, w', v, l, l')
    requires LocalSound(l, v) && l.operation.Some? && l' == Advanced(l, now, closed)
    requires Current(w, m) || Retired(w, m.identity)
    ensures Current(w', m) || Retired(w', m.identity)
    ensures Current(w', m) && !w'.records[m.identity.volume].meteringClosed ==>
              Current(w, m) && !w.records[m.identity.volume].meteringClosed
  {
    EffectOnIdentity(l, v, now, closed);
    hide Advanced, LocalSound;
    var u := m.identity.volume;
    assert J.Lookup(w'.records, u).Some? == (u in w'.records)
           && J.Lookup(w'.directories, u).Some? == (u in w'.directories);
    assert J.Lookup(w.records, u).Some? == (u in w.records) && J.Lookup(w.directories, u).Some? == (u in w.directories);
    if Current(w, m) && u !in w'.records {
      assert u == v && v in w.operations && w.operations[v].Collecting?;
    }
  }

  /** A capture loses no cursor, and one that emits has the cursor of its resource. */
  lemma CaptureKeepsCursors(j: J.State, s: J.Sample, eventId: nat, io: J.Io, k: Key)
    ensures var j', out := J.Captured(j, s, eventId, io), J.Outcome(j, s, eventId, io);
            && (k in j.store.cursors ==> k in j'.store.cursors)
            && (out.Success? && out.value.emitted.Some? ==>
                  KeyOf(s.resource) in j'.store.cursors && out.value.emitted.value.resource == s.resource)
  {
    if J.Acceptable(s) {
      var s' := J.Annotated(s, J.Lookup(j.observations, KeyOf(s.resource)));
      J.TransactMovesOneCursor(j.store, s', j.sourceId, j.bootId, eventId);
      assert k != KeyOf(s.resource) && k in j.store.cursors ==> J.Lookup(j.store.cursors, k).Some?;
      hide J.Annotated;
    }
  }

  /** What an effect adds to the history belongs to the record it is for. */
  lemma NewReceiptIsTraced(w: Pool, v: string, meets: Meets)
    requires Sound(w) && VolumesTraced(w) && v in w.operations && meets.now > 0
    ensures var w' := Advances(w, v, meets);
            && (forall k | k in w.journal.store.cursors :: k in w'.journal.store.cursors)
            && (w'.emitted == w.emitted
                || exists m :: w'.emitted == w.emitted + [m] && Traced(w', m) && Current(w', m)
                               && m.project == ProjectOf(w, v) && m.identity.volume == v)
  {
    var w', l := Advances(w, v, meets), LocalOf(w, v);
    var sample := SampleOf(l, meets.now, meets.clock);
    AdvanceEmits(w, v, meets);
    if sample.Some? {
      SampleStates(l, meets.now, meets.clock);
      forall k | k in w.journal.store.cursors ensures k in w'.journal.store.cursors {
        CaptureKeepsCursors(w.journal, sample.value, meets.eventId, meets.io, k);
      }
      CaptureKeepsCursors(w.journal, sample.value, meets.eventId, meets.io, KeyOf(sample.value.resource));
      SamplerKeepsRecord(w, v, meets);
      hide Advances, J.Captured, J.Outcome, SampleOf, LocalOf, Sound;
      if w'.emitted != w.emitted {
        var m := w'.emitted[|w.emitted|];
        assert w'.emitted == w.emitted + [m];
        assert Traced(w', m) && Current(w', m);
      }
    }
  }

  /** A volume that is sampled has its record, before and after. */
  lemma SamplerKeepsRecord(w: Pool, v: string, meets: Meets)
    requires Sound(w) && VolumesTraced(w) && v in w.operations && SampleOf(LocalOf(w, v), meets.now, meets.clock).Some?
    ensures var w', r := Advances(w, v, meets), w.operations[v].record;
            && v in w.records && w.records[v] == r && r.project == ProjectOf(w, v) && !r.meteringClosed
            && r.request.identity.volume == v && |v| == VOLUME_LENGTH
            && v in w'.records && w'.records[v].request.identity == r.request.identity
               && w'.records[v].project == r.project
  {
    var l, closed := LocalOf(w, v), Closes(w, v, meets);
    VolumeIsSound(w, v);
    OperationVolume(w, v);
    AdvanceRecord(w, v, meets);
    AdvanceDirectories(w, v, meets);
    SampledRecordStays(l, v, meets.now, meets.clock, closed);
    hide Advances, Sound, LocalSound, Advanced, SampleOf;
  }

  lemma SampledRecordStays(l: Local, v: string, now: nat, clock: int, closed: bool)
    requires LocalSound(l, v) && SampleOf(l, now, clock).Some?
    ensures l.operation.Some? && l.record == Some(l.operation.value.record) && !l.record.value.meteringClosed
    ensures var l' := Advanced(l, now, closed);
            l'.record.Some? && l'.record.value.request.identity == l.record.value.request.identity
            && l'.record.value.project == l.record.value.project
  {
  }

  lemma AdvanceKeepsLineage(w: Pool, v: string, meets: Meets)
    requires Sound(w) && Lineage(w) && v in w.operations && meets.now > 0
    ensures Lineage(Advances(w, v, meets))
  {
    var w', l, closed := Advances(w, v, meets), LocalOf(w, v), Closes(w, v, meets);
    VolumeIsSound(w, v);
    OperatedHasProject(w, v);
    AdvanceTurns(w, v, meets);
    NewReceiptIsTraced(w, v, meets);
    var l' := Advanced(l, meets.now, closed);
    hide Sound, LocalSound, Advanced, Advances, LocalOf, Closes, Turned;
    TurnKeepsVolumes(w, w', v, l, l', meets.now, closed);
    forall i | 0 <= i < |w.emitted| ensures w'.emitted[i] == w.emitted[i] && Traced(w', w.emitted[i]) {
      assert Traced(w, w.emitted[i]);
      TurnKeepsOrigin(w, w', v, l, l', meets.now, closed, w.emitted[i]);
    }
    hide VolumesTraced;
    LineageGrows(w, w');
  }

  lemma LineageGrows(w: Pool, w': Pool)
    requires Lineage(w) && VolumesTraced(w') && forall i | 0 <= i < |w.emitted| ::
             i < |w'.emitted| && w'.emitted[i] == w.emitted[i]
    requires forall i | 0 <= i < |w.emitted| :: Traced(w', w.emitted[i])
    requires w'.emitted == w.emitted || exists m :: w'.emitted == w.emitted + [m] && Traced(w', m) && Current(w', m)
    ensures Lineage(w')
  {
    hide VolumesTraced;
    if w'.emitted != w.emitted {
      var m :| w'.emitted == w.emitted + [m] && Traced(w', m) && Current(w', m);
      forall i | 0 <= i < |w.emitted| && SameVolume(w.emitted[i].identity, m.identity)
        ensures w.emitted[i].project == m.project
      {
        assert Traced(w', w.emitted[i]);
      }
    }
  }

  lemma StepKeepsLineage(w: Pool, step: Step)
    requires Sound(w) && Lineage(w) && Admits(w, step)
    ensures Lineage(Next(w, step))
  {
    hide Sound, Lineage;
    if step.Advance? {
      AdvanceKeepsLineage(w, step.volume, step.meets);
    } else {
      QuietStepKeepsLineage(w, step);
    }
  }

  lemma {:induction false} RunKeepsLineage(w: Pool, steps: seq<Step>)
    requires Sound(w) && Lineage(w) && Proceeds(w, steps)
    ensures Legal(w, steps) && Sound(Run(w, steps)) && Lineage(Run(w, steps))
    decreases |steps|
  {
    if steps != [] {
      hide Sound, Lineage;
      StepKeepsSound(w, steps[0]);
      StepKeepsLineage(w, steps[0]);
      RunKeepsLineage(Next(w, steps[0]), steps[1..]);
    }
  }

  lemma InitialIsTraced(sequence: nat, sourceId: string, bootId: nat)
    ensures Lineage(Initial(sequence, sourceId, bootId))
  {
  }

  // ----- What follows -----

  function Receipts(emitted: seq<Emission>): seq<Event> {
    seq(|emitted|, i requires 0 <= i < |emitted| => emitted[i].event)
  }

  /** A sample that finds no cursor finds no receipt of its resource either. */
  lemma SampledAfresh(w: Pool, v: string, meets: Meets, i: int)
    requires Sound(w) && Lineage(w) && v in w.operations && 0 <= i < |w.emitted|
    requires SampleOf(LocalOf(w, v), meets.now, meets.clock).Some?
    ensures var s := SampleOf(LocalOf(w, v), meets.now, meets.clock).value;
            KeyOf(w.emitted[i].event.resource) == KeyOf(s.resource) ==> KeyOf(s.resource) in w.journal.store.cursors
  {
    var m := w.emitted[i];
    assert Traced(w, m);
    SampleStates(LocalOf(w, v), meets.now, meets.clock);
    SamplerKeepsRecord(w, v, meets);
    hide Sound, LocalOf, SampleOf, Advances;
    if KeyOf(m.event.resource) == KeyOfVolume(w.records[v].request.identity) {
      KeysAgree(m.identity, w.records[v].request.identity);
    }
  }

  lemma SampleContinues(w: Pool, v: string, meets: Meets, pipeline: M.World)
    requires Sound(w) && Lineage(w) && v in w.operations
    requires SampleOf(LocalOf(w, v), meets.now, meets.clock).Some?
    requires pipeline.journal == w.journal && pipeline.emitted == Receipts(w.emitted)
    ensures M.Continues(pipeline, SampleOf(LocalOf(w, v), meets.now, meets.clock).value, meets.eventId, meets.io)
  {
    hide Sound, Lineage, LocalOf, SampleOf, M.CaptureStep;
    forall i | 0 <= i < |w.emitted|
      ensures var s := SampleOf(LocalOf(w, v), meets.now, meets.clock).value;
              KeyOf(w.emitted[i].event.resource) == KeyOf(s.resource) ==> KeyOf(s.resource) in w.journal.store.cursors
    {
      SampledAfresh(w, v, meets, i);
    }
  }

  /**
   After any run, whatever sample the manager takes next meets the assumption that the
   metering pipeline makes of its callers, whatever else that pipeline has done.
   */
  lemma EverySampleContinues(
    sequence: nat, sourceId: string, bootId: nat, steps: seq<Step>, v: string, meets: Meets, pipeline: M.World)
    requires Proceeds(Initial(sequence, sourceId, bootId), steps)
    requires Legal(Initial(sequence, sourceId, bootId), steps)
    requires var w := Run(Initial(sequence, sourceId, bootId), steps);
             && v in w.operations && SampleOf(LocalOf(w, v), meets.now, meets.clock).Some?
             && pipeline.journal == w.journal && pipeline.emitted == Receipts(w.emitted)
    ensures var w := Run(Initial(sequence, sourceId, bootId), steps);
            M.Continues(pipeline, SampleOf(LocalOf(w, v), meets.now, meets.clock).value, meets.eventId, meets.io)
  {
    InitialIsSound(sequence, sourceId, bootId);
    InitialIsTraced(sequence, sourceId, bootId);
    RunKeepsLineage(Initial(sequence, sourceId, bootId), steps);
    hide Run, Legal, Initial, Proceeds, Sound, Lineage, LocalOf, SampleOf, M.Continues;
    SampleContinues(Run(Initial(sequence, sourceId, bootId), steps), v, meets, pipeline);
  }

  /** After any run no resource was ever reported gone twice, whatever records it had. */
  lemma OneTerminalReceiptPerResource(sequence: nat, sourceId: string, bootId: nat, steps: seq<Step>, i: int, j: int)
    requires Proceeds(Initial(sequence, sourceId, bootId), steps)
    requires Legal(Initial(sequence, sourceId, bootId), steps)
    requires var emitted := Run(Initial(sequence, sourceId, bootId), steps).emitted;
             && 0 <= i < |emitted| && 0 <= j < |emitted| && emitted[i].event.state == Absent
                && emitted[j].event.state == Absent
             && KeyOf(emitted[i].event.resource) == KeyOf(emitted[j].event.resource)
    ensures i == j
  {
    InitialIsSound(sequence, sourceId, bootId);
    InitialIsTraced(sequence, sourceId, bootId);
    RunKeepsLineage(Initial(sequence, sourceId, bootId), steps);
    var w := Run(Initial(sequence, sourceId, bootId), steps);
    hide Run, Legal, Initial, Proceeds;
    var p := w.emitted[i].project;
    assert Traced(w, w.emitted[i]) && Traced(w, w.emitted[j]);
    KeysAgree(w.emitted[i].identity, w.emitted[j].identity);
    assert w.emitted[j].project == p && |Terminals(w.emitted, p)| <= 1;
    hide Sound, Lineage;
    TerminalsAre(w.emitted, p);
    hide Terminals;
  }
}
