/**
 All volumes of a storage pool: operations on different volumes interleave effect by
 effect, the process dies at any point, and the records share one database with the
 metering journal, so that a record and its terminal receipt are closed together.
 */
module QuotaPool {
  import opened Wrappers
  import opened ResourceTypes
  import opened WorkspaceQuota
  import J = ResourceJournal

  const VOLUME_LENGTH := 52

  /** A receipt that was committed to the outbox, and the record it was committed for. */
  datatype Emission = Emission(identity: VolumeIdentity, project: nat, event: Event)

  /** The last two are history: all receipts in the order of their rows, and the keys of acknowledged rows. */
  datatype Pool = Pool(
    records: map<string, Record>,
    directories: map<string, Directory>,
    operations: map<string, Operation>,
    kernel: map<nat, Quota>,
    sequence: nat,
    journal: J.State,
    emitted: seq<Emission>,
    acknowledged: set<nat>)

  function QuotaOf(w: Pool, p: nat): Quota {
    if p in w.kernel then w.kernel[p] else NO_QUOTA
  }

  /** The project of a volume: that of its record, or the one just allocated for it. */
  function ProjectOf(w: Pool, v: string): nat {
    if v in w.operations && w.operations[v].Ensuring? then w.operations[v].record.project
    else if v in w.records then w.records[v].project
    else 0
  }

  function LocalOf(w: Pool, v: string): Local {
    Local(J.Lookup(w.records, v), QuotaOf(w, ProjectOf(w, v)), J.Lookup(w.directories, v), J.Lookup(w.operations, v))
  }

  function Set<K, V>(m: map<K, V>, k: K, v: Option<V>): map<K, V> {
    if v.Some? then m[k := v.value] else m - {k}
  }

  /** Writes back what an effect on one volume changed. */
  function Put(w: Pool, v: string, l: Local): Pool {
    w.(records := Set(w.records, v, l.record),
       directories := Set(w.directories, v, l.directory),
       operations := Set(w.operations, v, l.operation),
       kernel := if ProjectOf(w, v) == 0 || l.quota == QuotaOf(w, ProjectOf(w, v)) then w.kernel
                 else w.kernel[ProjectOf(w, v) := l.quota])
  }

  // ----- Metering of a volume -----

  function ResourceOf(i: VolumeIdentity): Identity {
    Identity(Workspace, i.volume + ":" + i.generation, i.tenant, i.workspace)
  }

  function CoverageStart(r: Record): nat {
    if r.enforcedAt > 0 then r.enforcedAt else r.acceptedAt
  }

  /** A retained volume is sampled with the kernel's limit; without one it is unknown. */
  function RetainedSample(r: Record, quota: Quota, retained: bool, now: nat, clock: int): J.Sample {
    var enforced := retained && quota.limit > 0;
    J.Sample(ResourceOf(r.request.identity),
             Quantity(Workspace, 0, 0, if enforced then quota.limit else r.request.capacity),
             r.request.identity.generation, if enforced then Retained
                 else Unknown, now, clock, 0, 0, None, CoverageStart(r))
  }

  function TerminalSample(r: Record, now: nat, clock: int): J.Sample {
    J.Sample(ResourceOf(r.request.identity), Quantity(Workspace, 0, 0, r.releasedCapacity),
             r.request.identity.generation, Absent, now, clock, 0, r.releasedAt,
             if r.releaseUncertain then Some(CollectionUnavailable) else None, CoverageStart(r))
  }

  /** The sample that the next effect of an operation takes, if it takes one. */
  function SampleOf(l: Local, now: nat, clock: int): Option<J.Sample> {
    match l.operation
    case Some(Ensuring(_, r, Accounting)) => Some(RetainedSample(r, l.quota, true, now, clock))
    case Some(Ensuring(_, r, Reporting)) => Some(RetainedSample(r, l.quota, true, now, clock))
    case Some(Releasing(r, Closing)) => Some(TerminalSample(r, now, clock))
    case Some(Sampling(r, Observing(adopted))) =>
      var read := ReadVolume(l, r.request.identity);
      Some(RetainedSample(r, l.quota, adopted && read.Success? && read.value.ready, now, clock))
    case _ => None
  }

  predicate AtClosing(l: Local) {
    l.operation.Some? && l.operation.value.Releasing? && l.operation.value.phase.Closing?
  }

  // ----- Steps -----

  /** What an effect meets: the wall and monotonic clocks, a fresh receipt identifier, the disk. */
  datatype Meets = Meets(now: nat, clock: int, eventId: nat, io: J.Io)

  datatype Step =
    | BeginEnsure(request: Request, poolBytes: nat, now: nat)
    | BeginRelease(identity: VolumeIdentity, now: nat)
    | BeginSample(volume: string)
    | BeginCollect(volume: string)
    | Advance(volume: string, meets: Meets)
    | Abort(volume: string)
    | Crash(bootId: nat)
    | MakeDirectory(volume: string, generation: string)
    | RemoveDirectory(volume: string)
    | Use(project: nat, used: nat, inodes: nat)
    | Fill(volume: string, workspaceEmpty: bool, stagingEmpty: bool)
    | Acknowledge(rows: seq<J.Row>)

  predicate Enabled(w: Pool, step: Step) {
    match step
    // The lock file of a volume admits one operation at a time.
    case BeginEnsure(q, _, now) =>
      q.identity.volume !in w.operations && |q.identity.volume| == VOLUME_LENGTH && now > 0
    case BeginRelease(i, now) => i.volume !in w.operations && now > 0
    case BeginSample(v) => v !in w.operations
    case BeginCollect(v) => v !in w.operations
    case Advance(v, meets) => v in w.operations && meets.now > 0
    case Abort(v) => v in w.operations
    case Crash(bootId) => forall k | k in w.journal.store.cursors :: w.journal.store.cursors[k].bootId != bootId
    case MakeDirectory(v, _) => v !in w.directories
    // An ensure holds the volume's own lock, which its removal needs.
    case RemoveDirectory(v) => v in w.operations ==> !w.operations[v].Ensuring?
    // Files inherit their project from a directory that has it.
    case Use(p, used, inodes) => (inodes > 0 ==> QuotaOf(w, p).inodes > 0) && (used > 0 ==> inodes > 0)
    case Fill(v, _, _) => v in w.directories
    case Acknowledge(_) => true
  }

  function Begun(w: Pool, v: string, op: Operation): Pool {
    w.(operations := w.operations[v := op])
  }

  function EnsureBegun(w: Pool, q: Request, poolBytes: nat, now: nat): Pool {
    var v := q.identity.volume;
    var l := LocalOf(w, v);
    if EnsureRefusal(l, q, poolBytes).Some? then w
    else if l.record.Some? then
      if AlreadyApplied(l, q) then w else Begun(w, v, EnsureOperation(l, q, 0, now))
    else
      // The identifier is spent even when it is out of range.
      var spent := w.(sequence := w.sequence + 1);
      if w.sequence + 1 > MAX_PROJECT then spent else Begun(spent, v, EnsureOperation(l, q, w.sequence + 1, now))
  }

  predicate Collectable(w: Pool, v: string) {
    && w.journal.store.pending == [] && v in w.records && w.records[v].released && w.records[v].meteringClosed
    && v !in w.directories && QuotaOf(w, w.records[v].project) == NO_QUOTA
  }

  /** The terminal receipts committed under a project. */
  function Terminals(emitted: seq<Emission>, p: nat): seq<Event> {
    if emitted == [] then []
    else
      var last := emitted[|emitted| - 1];
      Terminals(emitted[..|emitted| - 1], p)
      + (if last.project == p && last.event.state == Absent then [last.event] else [])
  }

  /** A capture for a record, as the journal's transaction and in the history. */
  function Metered(w: Pool, i: VolumeIdentity, project: nat, s: J.Sample, meets: Meets): Pool {
    var out := J.Outcome(w.journal, s, meets.eventId, meets.io);
    w.(journal := J.Captured(w.journal, s, meets.eventId, meets.io),
       emitted := if out.Success? && out.value.emitted.Some?
                  then w.emitted + [Emission(i, project, out.value.emitted.value)] else w.emitted)
  }

  predicate Closes(w: Pool, v: string, meets: Meets) {
    var l := LocalOf(w, v);
    AtClosing(l) && J.Outcome(w.journal, TerminalSample(l.operation.value.record, meets.now, meets.clock),
        meets.eventId, meets.io).Success?
  }

  /** The journal's transaction and the effect on the volume are one. */
  function Advances(w: Pool, v: string, meets: Meets): Pool
    requires v in w.operations
  {
    var l := LocalOf(w, v);
    var sample := SampleOf(l, meets.now, meets.clock);
    var next := Put(w, v, Advanced(l, meets.now, Closes(w, v, meets)));
    if sample.None? then next
    else Metered(next, l.operation.value.record.request.identity, ProjectOf(w, v), sample.value, meets)
  }

  function Next(w: Pool, step: Step): Pool
    requires Enabled(w, step)
  {
    match step
    case BeginEnsure(q, poolBytes, now) => EnsureBegun(w, q, poolBytes, now)
    case BeginRelease(i, now) =>
      var l := LocalOf(w, i.volume);
      if ReleaseRefusal(l, i).Some? then w else Begun(w, i.volume, ReleaseOperation(l.record.value, l.quota, now))
    case BeginSample(v) =>
      if v in w.records && !w.records[v].meteringClosed then Begun(w, v, SampleOperation(w.records[v])) else w
    case BeginCollect(v) => if Collectable(w, v) then Begun(w, v, Collecting(w.records[v])) else w
    case Advance(v, meets) => Advances(w, v, meets)
    case Abort(v) => w.(operations := w.operations - {v})
    case Crash(bootId) => w.(operations := map[], journal := w.journal.(bootId := bootId, observations := map[]))
    case MakeDirectory(v, g) =>
      w.(directories := w.directories[v := Directory(g, None, 0, true, 0, true)])
    case RemoveDirectory(v) => w.(directories := w.directories - {v})
    case Use(p, used, inodes) =>
      if p !in w.kernel then w else w.(kernel := w.kernel[p := w.kernel[p].(used := used, inodes := inodes)])
    case Fill(v, we, se) =>
      w.(directories := w.directories[v := w.directories[v].(workspaceEmpty := we, stagingEmpty := se)])
    case Acknowledge(rows) =>
      w.(journal := J.Acknowledged(w.journal, rows),
         acknowledged := w.acknowledged + (set r | r in w.journal.store.pending && r.key in J.Keys(rows) :: r.key))
  }

  predicate Legal(w: Pool, steps: seq<Step>)
    decreases |steps|
  {
    steps == [] || (Enabled(w, steps[0]) && Legal(Next(w, steps[0]), steps[1..]))
  }

  function Run(w: Pool, steps: seq<Step>): Pool
    requires Legal(w, steps)
    decreases |steps|
  {
    if steps == [] then w else Run(Next(w, steps[0]), steps[1..])
  }

  /** A new pool: identifiers start above every project that the kernel already knows. */
  function Initial(sequence: nat, sourceId: string, bootId: nat): Pool {
    Pool(map[], map[], map[], map[], sequence,
         J.State(J.EMPTY_STORE.(counter := Some(0)), sourceId, bootId, map[]), [], {})
  }

  // ----- What every reachable pool satisfies -----

  ghost predicate VolumesSound(w: Pool) {
    && (forall v :: LocalSound(LocalOf(w, v), v))
    && (forall v | v in w.records || v in w.operations :: |v| == VOLUME_LENGTH)
  }

  /** Every limit belongs to one volume, and identifiers come from the sequence. */
  ghost predicate ProjectsSound(w: Pool) {
    && (forall u, v | ProjectOf(w, u) == ProjectOf(w, v) && ProjectOf(w, u) != 0 :: u == v)
    && (forall v :: ProjectOf(w, v) <= w.sequence)
    && (forall p | p in w.kernel :: p > 0 && QuotaSound(w.kernel[p]))
    && (forall p | QuotaOf(w, p) != NO_QUOTA :: exists v :: ProjectOf(w, v) == p)
  }

  predicate Gone(w: Pool, k: Key) {
    k in w.journal.store.cursors && w.journal.store.cursors[k].state == Absent
  }

  /** The resource is not gone, and no receipt of it waits for an acknowledgement. */
  ghost predicate Settled(w: Pool, k: Key) {
    !Gone(w, k) && forall r | r in w.journal.store.pending :: KeyOf(r.event.resource) != k
  }

  function KeyOfVolume(i: VolumeIdentity): Key {
    KeyOf(ResourceOf(i))
  }

  ghost predicate ClosedVolume(w: Pool, v: string, k: Key) {
    v in w.records && w.records[v].meteringClosed && KeyOfVolume(w.records[v].request.identity) == k
  }

  /** A terminal cursor belongs to a record that is closed and not being collected. */
  ghost predicate CursorsSound(w: Pool) {
    && J.Invariant(w.journal)
    && (forall k | Gone(w, k) :: exists v :: ClosedVolume(w, v, k))
    && (forall v | v in w.operations && w.operations[v].Collecting? ::
          Settled(w, KeyOfVolume(w.operations[v].record.request.identity)))
  }

  function TerminalQuantity(r: Record): Quantity {
    Quantity(Workspace, 0, 0, r.releasedCapacity)
  }

  /** A closed record has one terminal receipt, of its own resource and released capacity; an open one has none. */
  ghost predicate TerminalOf(w: Pool, v: string) {
    var terminals := Terminals(w.emitted, ProjectOf(w, v));
    if v in w.records && w.records[v].meteringClosed then
      && |terminals| == 1 && terminals[0].state == Absent
      && terminals[0].resource == ResourceOf(w.records[v].request.identity)
      && terminals[0].quantity == TerminalQuantity(w.records[v])
    else terminals == []
  }

  ghost predicate TerminalsSound(w: Pool) {
    && (forall v | ProjectOf(w, v) != 0 :: TerminalOf(w, v))
    && (forall p: nat :: |Terminals(w.emitted, p)| <= 1 && (p > w.sequence ==> Terminals(w.emitted, p) == []))
  }

  /** The rows of the outbox are the receipts by number; a receipt that is no longer there was acknowledged. */
  ghost predicate RowsSound(w: Pool) {
    && w.journal.store.sequence == |w.emitted|
    && (forall r | r in w.journal.store.pending :: 0 < r.key <= |w.emitted| && r.event == w.emitted[r.key - 1].event)
    && (forall i | 0 <= i < |w.emitted| ::
          J.Row(i + 1, w.emitted[i].event) in w.journal.store.pending || i + 1 in w.acknowledged)
  }

  ghost predicate Sound(w: Pool) {
    VolumesSound(w) && ProjectsSound(w) && CursorsSound(w) && TerminalsSound(w) && RowsSound(w)
  }

  // ----- Frames -----

  function LocalProject(l: Local): nat {
    if l.operation.Some? && l.operation.value.Ensuring? then l.operation.value.record.project
    else if l.record.Some? then l.record.value.project
    else 0
  }

  lemma ProjectIsLocal(w: Pool, v: string)
    ensures ProjectOf(w, v) == LocalProject(LocalOf(w, v))
  {
  }

  /** An effect keeps the volume's project, or leaves it without record, operation and quota. */
  lemma EffectKeepsProject(l: Local, v: string, now: nat, closed: bool)
    requires LocalSound(l, v) && l.operation.Some?
    ensures var l' := Advanced(l, now, closed);
            && LocalProject(l) > 0
            && (LocalProject(l') == LocalProject(l)
                || (l'.record.None? && l'.operation.None? && l'.quota == NO_QUOTA && l.operation.value.Collecting?))
  {
  }

  /** What changes in one volume is not seen in another. */
  lemma PutFrame(w: Pool, v: string, l': Local, u: string)
    requires VolumesSound(w) && ProjectsSound(w) && u != v
    ensures var w' := Put(w, v, l');
            LocalOf(w', u) == LocalOf(w, u) && ProjectOf(w', u) == ProjectOf(w, u)
  {
    hide LocalSound;
    assert ProjectOf(w, u) == ProjectOf(w, v) != 0 ==> u == v;
  }

  lemma PutSelf(w: Pool, v: string, l': Local)
    requires ProjectOf(w, v) != 0
    ensures var w' := Put(w, v, l');
            && ProjectOf(w', v) == LocalProject(l')
            && (LocalProject(l') == ProjectOf(w, v) ==> LocalOf(w', v) == l')
            && (forall p | p != ProjectOf(w, v) :: QuotaOf(w', p) == QuotaOf(w, p))
            && QuotaOf(w', ProjectOf(w, v)) == l'.quota
  {
    var w' := Put(w, v, l');
    assert J.Lookup(w'.records, v) == l'.record;
    assert J.Lookup(w'.operations, v) == l'.operation;
    assert J.Lookup(w'.directories, v) == l'.directory;
  }

  lemma PutKeepsVolumes(w: Pool, v: string, l': Local)
    requires VolumesSound(w) && ProjectsSound(w) && ProjectOf(w, v) != 0 && QuotaOf(Put(w, v, l'), 0) == NO_QUOTA
    requires LocalSound(l', v) && (v in w.operations || v in w.records)
    requires LocalProject(l') == ProjectOf(w, v) || (l'.record.None? && l'.operation.None?)
    ensures VolumesSound(Put(w, v, l'))
  {
    var w' := Put(w, v, l');
    PutSelf(w, v, l');
    assert l'.directory.Some? ==> MarkerCovers(l'.directory.value);
    hide LocalOf, LocalSound;
    forall u ensures LocalSound(LocalOf(w', u), u) {
      if u != v {
        PutFrame(w, v, l', u);
      } else if LocalProject(l') != ProjectOf(w, v) {
        VacantIsSound(w', u);
      }
    }
  }

  lemma VacantIsSound(w: Pool, v: string)
    requires v !in w.records && v !in w.operations && QuotaOf(w, 0) == NO_QUOTA
    requires v in w.directories ==> MarkerCovers(w.directories[v])
    ensures LocalSound(LocalOf(w, v), v)
  {
  }

  lemma PutKeepsProjects(w: Pool, v: string, l': Local)
    requires VolumesSound(w) && ProjectsSound(w) && ProjectOf(w, v) != 0 && QuotaSound(l'.quota)
    requires LocalProject(l') == ProjectOf(w, v) || (LocalProject(l') == 0 && l'.quota == NO_QUOTA)
    ensures ProjectsSound(Put(w, v, l'))
  {
    var w' := Put(w, v, l');
    PutSelf(w, v, l');
    forall u | u != v ensures ProjectOf(w', u) == ProjectOf(w, u) {
      PutFrame(w, v, l', u);
    }
    hide LocalOf, LocalSound, VolumesSound;
    forall p | QuotaOf(w', p) != NO_QUOTA ensures exists u :: ProjectOf(w', u) == p {
      if p == ProjectOf(w, v) {
        assert ProjectOf(w', v) == p;
      } else {
        var u :| ProjectOf(w, u) == p;
        assert ProjectOf(w', u) == p;
      }
    }
    forall t, u | ProjectOf(w', t) == ProjectOf(w', u) && ProjectOf(w', t) != 0 ensures t == u {
      assert ProjectOf(w, t) == ProjectOf(w', t);
      assert ProjectOf(w, u) == ProjectOf(w', u);
    }
  }

  // ----- Metering -----

  /** A terminal sample of a resource that is not gone is always receipted. */
  lemma TerminalIsReceipted(j: J.State, s: J.Sample, eventId: nat, io: J.Io)
    requires s.state == Absent && s.coverageStartedAt > 0 && J.Outcome(j, s, eventId, io).Success?
    requires KeyOf(s.resource) in j.store.cursors ==> j.store.cursors[KeyOf(s.resource)].state != Absent
    ensures var e := J.Outcome(j, s, eventId, io).value.emitted;
            e.Some? && e.value.state == Absent && e.value.resource == s.resource && e.value.quantity == s.quantity
  {
  }

  /** A capture makes a resource gone only if that is what it reports. */
  lemma CaptureGone(j: J.State, s: J.Sample, eventId: nat, io: J.Io, k: Key)
    requires J.Invariant(j)
    ensures var j' := J.Captured(j, s, eventId, io);
            && J.Invariant(j')
            && (k in j'.store.cursors && j'.store.cursors[k].state == Absent ==>
                  || (k in j.store.cursors && j.store.cursors[k].state == Absent)
                  || (k == KeyOf(s.resource) && s.state == Absent && J.Outcome(j, s, eventId, io).Success?))
  {
    J.CaptureKeepsInvariant(j, s, eventId, io);
    if J.Acceptable(s) {
      var s' := J.Annotated(s, J.Lookup(j.observations, KeyOf(s.resource)));
      J.TransactMovesOneCursor(j.store, s', j.sourceId, j.bootId, eventId);
      assert J.Lookup(j.store.cursors, k) == (if k in j.store.cursors then Some(j.store.cursors[k]) else None);
      hide J.Transact, J.Invariant, J.Annotated;
    }
  }

  /** A capture adds at most a receipt of its own resource. */
  lemma CapturePending(j: J.State, s: J.Sample, eventId: nat, io: J.Io)
    ensures var j' := J.Captured(j, s, eventId, io);
            forall r | r in j'.store.pending :: r in j.store.pending || r.event.resource == s.resource
  {
  }

  /** The guard of the closing transaction never refuses: the terminal coverage is always known. */
  lemma TerminalCoverageIsKnown(l: Local, v: string)
    requires LocalSound(l, v) && AtClosing(l)
    ensures var r := l.operation.value.record;
            r.released && CoverageStart(r) > 0 && r.releasedAt > 0 && r.releasedCapacity > 0
  {
  }

  lemma KeysDiffer(a: VolumeIdentity, b: VolumeIdentity)
    requires |a.volume| == VOLUME_LENGTH && |b.volume| == VOLUME_LENGTH && KeyOfVolume(a) == KeyOfVolume(b)
    ensures a.volume == b.volume
  {
    var x, y := a.volume + ":" + a.generation, b.volume + ":" + b.generation;
    assert x == y && x[..VOLUME_LENGTH] == a.volume && y[..VOLUME_LENGTH] == b.volume;
  }

  /** A record that is about to be closed has no terminal cursor yet. */
  lemma ClosingIsFirst(w: Pool, v: string)
    requires Sound(w) && AtClosing(LocalOf(w, v))
    ensures v in w.records && w.records[v] == LocalOf(w, v).operation.value.record && !w.records[v].meteringClosed
    ensures !Gone(w, KeyOfVolume(w.records[v].request.identity))
  {
    assert LocalSound(LocalOf(w, v), v);
    var k := KeyOfVolume(w.records[v].request.identity);
    if Gone(w, k) {
      var u :| ClosedVolume(w, u, k);
      assert LocalSound(LocalOf(w, u), u);
      KeysDiffer(w.records[u].request.identity, w.records[v].request.identity);
    }
  }

  // ----- An effect keeps everything -----

  /** Journal and history aside, the pools are the same. */
  predicate SameVolumes(w: Pool, w': Pool) {
    && w'.records == w.records && w'.directories == w.directories && w'.operations == w.operations
    && w'.kernel == w.kernel && w'.sequence == w.sequence
  }

  lemma SameVolumesSound(w: Pool, w': Pool)
    requires SameVolumes(w, w')
    ensures VolumesSound(w) ==> VolumesSound(w')
    ensures ProjectsSound(w) ==> ProjectsSound(w')
  {
    forall v ensures LocalOf(w', v) == LocalOf(w, v) && ProjectOf(w', v) == ProjectOf(w, v) {
    }
    hide LocalOf, LocalSound;
    forall p ensures QuotaOf(w', p) == QuotaOf(w, p) {
    }
    if ProjectsSound(w) {
      forall p | QuotaOf(w', p) != NO_QUOTA ensures exists v :: ProjectOf(w', v) == p {
        var v :| ProjectOf(w, v) == p;
        assert ProjectOf(w', v) == p;
      }
    }
  }

  lemma OperatedHasProject(w: Pool, v: string)
    requires VolumesSound(w) && v in w.operations
    ensures 0 < ProjectOf(w, v) <= MAX_PROJECT && LocalOf(w, v).operation == Some(w.operations[v])
  {
    assert LocalSound(LocalOf(w, v), v);
  }

  lemma AdvanceKeepsVolumes(w: Pool, v: string, meets: Meets)
    requires VolumesSound(w) && ProjectsSound(w) && v in w.operations && meets.now > 0
    ensures VolumesSound(Advances(w, v, meets)) && ProjectsSound(Advances(w, v, meets))
  {
    var l, closed := LocalOf(w, v), Closes(w, v, meets);
    OperatedHasProject(w, v);
    AdvanceKeepsSound(l, v, meets.now, closed);
    EffectKeepsProject(l, v, meets.now, closed);
    ProjectIsLocal(w, v);
    var l' := Advanced(l, meets.now, closed);
    hide LocalSound, Advanced, LocalOf, J.Outcome, J.Captured, SampleOf, VolumesSound, ProjectsSound;
    AdvancedPut(w, v, l');
    SameVolumesSound(Put(w, v, l'), Advances(w, v, meets));
  }

  lemma AdvancedPut(w: Pool, v: string, l': Local)
    requires VolumesSound(w) && ProjectsSound(w) && v in w.operations && ProjectOf(w, v) != 0 && LocalSound(l', v)
    requires LocalProject(l') == ProjectOf(w, v)
             || (l'.record.None? && l'.operation.None? && l'.quota == NO_QUOTA && LocalProject(l') == 0)
    ensures VolumesSound(Put(w, v, l')) && ProjectsSound(Put(w, v, l'))
  {
    assert QuotaSound(l'.quota);
    hide LocalSound, LocalOf;
    PutKeepsProjects(w, v, l');
    PutKeepsVolumes(w, v, l');
  }

  /** What an effect leaves of the flags that metering depends on. */
  lemma EffectOnClosure(l: Local, v: string, now: nat, closed: bool)
    requires LocalSound(l, v) && l.operation.Some?
    ensures var l' := Advanced(l, now, closed);
            && (l'.record.Some? ==>
                  l'.record.value.meteringClosed ==
                  (if AtClosing(l) then closed else l.record.Some? && l.record.value.meteringClosed))
            && (l'.record.Some? && l.record.Some? ==>
                  l'.record.value.request.identity == l.record.value.request.identity)
            && (l'.operation.Some? ==> !l'.operation.value.Collecting?)
            && (l.record.Some? && l.record.value.meteringClosed ==> l.operation.value.Collecting?)
            && (AtClosing(l) ==> l'.record.Some?)
  {
  }

  lemma AdvanceFrame(w: Pool, v: string, meets: Meets, u: string)
    requires Sound(w) && v in w.operations && u != v
    ensures var w' := Advances(w, v, meets);
            && J.Lookup(w'.records, u) == J.Lookup(w.records, u)
            && J.Lookup(w'.operations, u) == J.Lookup(w.operations, u)
            && ProjectOf(w', u) == ProjectOf(w, u) && (ProjectOf(w, u) != 0 ==> ProjectOf(w, u) != ProjectOf(w, v))
  {
    hide LocalSound, Advanced, J.Outcome, J.Captured, SampleOf, Closes, TerminalsSound, CursorsSound, VolumesSound;
  }

  lemma AdvanceRecord(w: Pool, v: string, meets: Meets)
    requires v in w.operations
    ensures var w', l' := Advances(w, v, meets), Advanced(LocalOf(w, v), meets.now, Closes(w, v, meets));
            J.Lookup(w'.records, v) == l'.record && J.Lookup(w'.operations, v) == l'.operation
            && ProjectOf(w', v) == LocalProject(l')
  {
    hide LocalOf, Advanced, J.Outcome, J.Captured, SampleOf, Closes;
  }

  lemma TerminalsAppend(emitted: seq<Emission>, m: Emission, p: nat)
    ensures Terminals(emitted + [m], p)
            == Terminals(emitted, p) + if m.project == p && m.event.state == Absent then [m.event] else []
  {
    assert (emitted + [m])[..|emitted + [m]| - 1] == emitted;
  }

  /** What a capture adds to the outbox and to the history. */
  lemma CaptureRows(j: J.State, s: J.Sample, eventId: nat, io: J.Io)
    ensures var j', out := J.Captured(j, s, eventId, io), J.Outcome(j, s, eventId, io);
            if out.Success? && out.value.emitted.Some? then
              var e := out.value.emitted.value;
              && e.state == s.state && e.resource == s.resource
              && j'.store.sequence == j.store.sequence + 1
              && j'.store.pending == j.store.pending + [J.Row(j.store.sequence + 1, e)]
            else j'.store.sequence == j.store.sequence && j'.store.pending == j.store.pending
  {
  }

  /** The history after an effect: the same, or one receipt of the operation's record more. */
  lemma AdvanceEmits(w: Pool, v: string, meets: Meets)
    requires v in w.operations
    ensures var w', l := Advances(w, v, meets), LocalOf(w, v);
            var sample := SampleOf(l, meets.now, meets.clock);
            && w'.acknowledged == w.acknowledged && w'.sequence == w.sequence
            && (if sample.Some? then
                  w'.journal == J.Captured(w.journal, sample.value, meets.eventId, meets.io)
                  && var out := J.Outcome(w.journal, sample.value, meets.eventId, meets.io);
                  w'.emitted == if out.Success? && out.value.emitted.Some?
                                then w.emitted + [Emission(w.operations[v].record.request.identity, ProjectOf(w, v),
                                    out.value.emitted.value)]
                                else w.emitted
                else w'.journal == w.journal && w'.emitted == w.emitted)
  {
    hide Advanced, J.Captured, J.Outcome, SampleOf, Closes;
  }

  lemma AdvanceKeepsRows(w: Pool, v: string, meets: Meets)
    requires RowsSound(w) && v in w.operations
    ensures RowsSound(Advances(w, v, meets))
  {
    hide Advances, J.Captured, J.Outcome, SampleOf, LocalOf, RowsSound;
    var w', l := Advances(w, v, meets), LocalOf(w, v);
    var sample := SampleOf(l, meets.now, meets.clock);
    AdvanceEmits(w, v, meets);
    if sample.Some? {
      CaptureRows(w.journal, sample.value, meets.eventId, meets.io);
      var out := J.Outcome(w.journal, sample.value, meets.eventId, meets.io);
      if out.Success? && out.value.emitted.Some? {
        RowAppended(w, w');
      } else {
        SameRows(w, w');
      }
    } else {
      SameRows(w, w');
    }
  }

  lemma SameRows(w: Pool, w': Pool)
    requires RowsSound(w) && w'.emitted == w.emitted && w'.acknowledged == w.acknowledged
    requires w'.journal.store.sequence == w.journal.store.sequence
    requires w'.journal.store.pending == w.journal.store.pending
    ensures RowsSound(w')
  {
  }

  lemma RowAppended(w: Pool, w': Pool)
    requires RowsSound(w) && w'.acknowledged == w.acknowledged
    requires w'.emitted != [] && w'.emitted[..|w'.emitted| - 1] == w.emitted
    requires w'.journal.store.sequence == w.journal.store.sequence + 1
    requires w'.journal.store.pending
             == w.journal.store.pending + [J.Row(w'.journal.store.sequence, w'.emitted[|w'.emitted| - 1].event)]
    ensures RowsSound(w')
  {
    forall i | 0 <= i < |w.emitted| ensures w'.emitted[i] == w.emitted[i] {
    }
  }

  /** Only a closing sample is terminal. */
  lemma SampleStates(l: Local, now: nat, clock: int)
    requires SampleOf(l, now, clock).Some?
    ensures var s := SampleOf(l, now, clock).value;
            && l.operation.Some? && s.resource == ResourceOf(l.operation.value.record.request.identity)
            && (s.state == Absent <==> AtClosing(l))
            && (AtClosing(l) ==> s == TerminalSample(l.operation.value.record, now, clock))
  {
  }

  lemma TerminalCount(w: Pool, v: string, meets: Meets)
    requires Sound(w) && v in w.operations && meets.now > 0
    ensures var w' := Advances(w, v, meets);
            && w'.sequence == w.sequence
            && (forall p | p != ProjectOf(w, v) :: Terminals(w'.emitted, p) == Terminals(w.emitted, p))
            && var before, after := Terminals(w.emitted, ProjectOf(w, v)), Terminals(w'.emitted, ProjectOf(w, v));
            if Closes(w, v, meets) then
              && before == [] && v in w.records && |after| == 1 && after[0].state == Absent
              && after[0].resource == ResourceOf(w.records[v].request.identity)
              && after[0].quantity == TerminalQuantity(w.records[v])
            else after == before
  {
    var l := LocalOf(w, v);
    var sample := SampleOf(l, meets.now, meets.clock);
    OperatedHasProject(w, v);
    AdvanceEmits(w, v, meets);
    if sample.Some? {
      SampleStates(l, meets.now, meets.clock);
      CaptureRows(w.journal, sample.value, meets.eventId, meets.io);
      if AtClosing(l) {
        ClosingReceipt(w, v, meets);
      }
      var out := J.Outcome(w.journal, sample.value, meets.eventId, meets.io);
      hide LocalOf, Advances, J.Outcome, J.Captured, Sound, SampleOf, TerminalSample;
      if out.Success? && out.value.emitted.Some? {
        var m := Emission(w.operations[v].record.request.identity, ProjectOf(w, v), out.value.emitted.value);
        forall p: nat ensures Terminals(w.emitted + [m], p)
                              == Terminals(w.emitted, p) + if m.project == p && m.event.state == Absent
                                  then [m.event] else []
        {
          TerminalsAppend(w.emitted, m, p);
        }
      }
    }
  }

  /** A closing that commits writes the first terminal receipt of its record. */
  lemma ClosingReceipt(w: Pool, v: string, meets: Meets)
    requires Sound(w) && v in w.operations && AtClosing(LocalOf(w, v))
    ensures Terminals(w.emitted, ProjectOf(w, v)) == []
    ensures v in w.records && w.records[v] == w.operations[v].record
    ensures var s := TerminalSample(w.operations[v].record, meets.now, meets.clock);
            var out := J.Outcome(w.journal, s, meets.eventId, meets.io);
            out.Success? ==>
              && out.value.emitted.Some? && out.value.emitted.value.state == Absent
              && out.value.emitted.value.resource == ResourceOf(w.records[v].request.identity)
              && out.value.emitted.value.quantity == TerminalQuantity(w.records[v])
  {
    var l := LocalOf(w, v);
    OperatedHasProject(w, v);
    ClosingIsFirst(w, v);
    assert LocalSound(l, v) && TerminalOf(w, v);
    TerminalCoverageIsKnown(l, v);
    var s := TerminalSample(l.operation.value.record, meets.now, meets.clock);
    hide Sound, LocalSound;
    if J.Outcome(w.journal, s, meets.eventId, meets.io).Success? {
      TerminalIsReceipted(w.journal, s, meets.eventId, meets.io);
    }
    hide J.Outcome;
  }

  /** An open record keeps what its terminal receipt will say or says. */
  lemma EffectKeepsTerminal(l: Local, v: string, now: nat, closed: bool)
    requires LocalSound(l, v) && l.operation.Some? && l.record.Some? && Advanced(l, now, closed).record.Some?
    ensures var r, r' := l.record.value, Advanced(l, now, closed).record.value;
            AtClosing(l) ==> r'.releasedCapacity == r.releasedCapacity && r'.request == r.request
  {
  }

  lemma AdvanceKeepsTerminals(w: Pool, v: string, meets: Meets)
    requires Sound(w) && v in w.operations && meets.now > 0
    ensures TerminalsSound(Advances(w, v, meets))
  {
    var w', l, closed := Advances(w, v, meets), LocalOf(w, v), Closes(w, v, meets);
    OperatedHasProject(w, v);
    TerminalCount(w, v, meets);
    assert TerminalsSound(w) && ProjectOf(w, v) <= w.sequence;
    forall u | ProjectOf(w', u) != 0 ensures TerminalOf(w', u) {
      if u == v {
        OwnTerminal(w, v, meets);
      } else {
        AdvanceFrame(w, v, meets, u);
        assert TerminalOf(w, u);
        hide Advances, Terminals, LocalOf, Sound;
      }
    }
    hide Advances, Terminals, LocalOf, Sound, TerminalOf, ProjectOf;
  }

  lemma OwnTerminal(w: Pool, v: string, meets: Meets)
    requires Sound(w) && v in w.operations && meets.now > 0 && ProjectOf(Advances(w, v, meets), v) != 0
    ensures TerminalOf(Advances(w, v, meets), v)
  {
    var w', l, closed := Advances(w, v, meets), LocalOf(w, v), Closes(w, v, meets);
    OperatedHasProject(w, v);
    assert LocalSound(l, v) && TerminalOf(w, v);
    TerminalCount(w, v, meets);
    hide Sound;
    EffectOnClosure(l, v, meets.now, closed);
    EffectKeepsProject(l, v, meets.now, closed);
    ProjectIsLocal(w, v);
    AdvanceRecord(w, v, meets);
    if l.record.Some? && Advanced(l, meets.now, closed).record.Some? {
      EffectKeepsTerminal(l, v, meets.now, closed);
    }
    hide LocalOf, Advanced, Advances, LocalSound, Closes, Terminals;
  }

  lemma AdvanceCursors(w: Pool, v: string, meets: Meets, k: Key)
    requires Sound(w) && v in w.operations && meets.now > 0
    ensures var w' := Advances(w, v, meets);
            && J.Invariant(w'.journal)
            && (Gone(w', k) ==>
                  || Gone(w, k)
                  || (Closes(w, v, meets) && v in w.records && k == KeyOfVolume(w.records[v].request.identity)))
            && (Settled(w, k) && k != KeyOfVolume(w.operations[v].record.request.identity) ==> Settled(w', k))
  {
    assert J.Invariant(w.journal);
    hide Sound, J.Outcome, J.Captured, J.Invariant, Advanced, LocalOf, LocalSound, SampleOf, TerminalSample;
    var l := LocalOf(w, v);
    assert l.operation == Some(w.operations[v]) by {
      OperationIsLocal(w, v);
    }
    var sample := SampleOf(l, meets.now, meets.clock);
    if sample.Some? {
      SampleStates(l, meets.now, meets.clock);
      CaptureGone(w.journal, sample.value, meets.eventId, meets.io, k);
      CapturePending(w.journal, sample.value, meets.eventId, meets.io);
      if sample.value.state == Absent {
        ClosingIsFirst(w, v);
      }
    }
  }

  lemma OperationIsLocal(w: Pool, v: string)
    ensures LocalOf(w, v).operation == J.Lookup(w.operations, v)
  {
  }

  lemma GoneStaysClosed(w: Pool, v: string, meets: Meets, k: Key)
    requires Sound(w) && v in w.operations && meets.now > 0 && Gone(Advances(w, v, meets), k)
    ensures exists u :: ClosedVolume(Advances(w, v, meets), u, k)
  {
    var w', l := Advances(w, v, meets), LocalOf(w, v);
    OperatedHasProject(w, v);
    assert LocalSound(l, v);
    EffectOnClosure(l, v, meets.now, Closes(w, v, meets));
    AdvanceRecord(w, v, meets);
    AdvanceCursors(w, v, meets, k);
    hide LocalOf, Advanced, J.Outcome, J.Captured, J.Invariant, SampleOf;
    hide LocalSound, Advances, ProjectsSound, TerminalsSound;
    if Gone(w, k) {
      var u :| ClosedVolume(w, u, k);
      if u == v {
        CollectedIsNotGone(w, v);
      } else {
        AdvanceFrame(w, v, meets, u);
      }
      assert ClosedVolume(w', u, k);
    } else {
      assert ClosedVolume(w', v, k);
    }
  }

  lemma CollectingStaysSettled(w: Pool, v: string, meets: Meets, u: string)
    requires Sound(w) && v in w.operations && meets.now > 0
    requires u in Advances(w, v, meets).operations && Advances(w, v, meets).operations[u].Collecting?
    ensures Settled(Advances(w, v, meets), KeyOfVolume(Advances(w, v, meets).operations[u].record.request.identity))
  {
    var l := LocalOf(w, v);
    OperatedHasProject(w, v);
    EffectOnClosure(l, v, meets.now, Closes(w, v, meets));
    AdvanceRecord(w, v, meets);
    hide LocalOf, Advanced, J.Outcome, J.Captured, J.Invariant, SampleOf;
    hide LocalSound, Advances, ProjectsSound, TerminalsSound;
    assert u != v;
    AdvanceFrame(w, v, meets, u);
    AdvanceCursors(w, v, meets, KeyOfVolume(w.operations[u].record.request.identity));
    OtherKey(w, u, v);
  }

  lemma AdvanceKeepsCursors(w: Pool, v: string, meets: Meets)
    requires Sound(w) && v in w.operations && meets.now > 0
    ensures CursorsSound(Advances(w, v, meets))
  {
    var w' := Advances(w, v, meets);
    AdvanceCursors(w, v, meets, KeyOfVolume(w.operations[v].record.request.identity));
    hide Sound, Advances, J.Invariant, Gone, Settled, ClosedVolume;
    forall k | Gone(w', k) ensures exists u :: ClosedVolume(w', u, k) {
      GoneStaysClosed(w, v, meets, k);
    }
    forall u | u in w'.operations && w'.operations[u].Collecting?
      ensures Settled(w', KeyOfVolume(w'.operations[u].record.request.identity))
    {
      CollectingStaysSettled(w, v, meets, u);
    }
  }

  lemma CollectedIsNotGone(w: Pool, v: string)
    requires Sound(w) && v in w.operations && v in w.records && w.records[v].meteringClosed
    ensures w.operations[v].Collecting? && Settled(w, KeyOfVolume(w.records[v].request.identity))
  {
    assert LocalSound(LocalOf(w, v), v);
  }

  lemma OtherKey(w: Pool, u: string, v: string)
    requires VolumesSound(w) && u != v && u in w.operations && v in w.operations
    ensures KeyOfVolume(w.operations[u].record.request.identity) != KeyOfVolume(w.operations[v].record.request.identity)
  {
    OperationVolume(w, u);
    OperationVolume(w, v);
    hide LocalSound, LocalOf;
    if KeyOfVolume(w.operations[u].record.request.identity) == KeyOfVolume(w.operations[v].record.request.identity) {
      KeysDiffer(w.operations[u].record.request.identity, w.operations[v].record.request.identity);
    }
  }

  lemma OperationVolume(w: Pool, v: string)
    requires VolumesSound(w) && v in w.operations
    ensures w.operations[v].record.request.identity.volume == v && |v| == VOLUME_LENGTH
  {
    assert LocalSound(LocalOf(w, v), v);
  }

  // ----- All other steps -----

  /** Only the operation of one volume changes, and not its project. */
  lemma BegunKeepsSound(w: Pool, v: string, op: Operation)
    requires Sound(w) && v !in w.operations && |v| == VOLUME_LENGTH
    requires LocalSound(LocalOf(w, v).(operation := Some(op)), v)
    requires v in w.records
    requires op.Collecting? ==> Settled(w, KeyOfVolume(op.record.request.identity))
    ensures Sound(Begun(w, v, op))
  {
    var w' := Begun(w, v, op);
    forall u ensures ProjectOf(w', u) == ProjectOf(w, u) {
      BegunProject(w, v, op, u);
    }
    hide ProjectsSound, CursorsSound, TerminalsSound, RowsSound, LocalSound;
    BegunKeepsVolumes(w, v, op);
    hide VolumesSound, LocalOf, ProjectOf;
    KeepsProjects(w, w');
    CollectingBegun(w, v, op);
    KeepsCursors(w, w');
    KeepsTerminals(w, w');
    KeepsRows(w, w');
  }

  lemma BegunKeepsVolumes(w: Pool, v: string, op: Operation)
    requires VolumesSound(w) && v !in w.operations && v in w.records && |v| == VOLUME_LENGTH
    requires LocalSound(LocalOf(w, v).(operation := Some(op)), v)
    ensures VolumesSound(Begun(w, v, op))
  {
    var w' := Begun(w, v, op);
    BegunProject(w, v, op, v);
    assert LocalOf(w', v) == LocalOf(w, v).(operation := Some(op));
    forall u | u != v ensures LocalOf(w', u) == LocalOf(w, u) {
    }
    hide LocalOf, LocalSound;
  }

  lemma CollectingBegun(w: Pool, v: string, op: Operation)
    requires CursorsSound(w) && (op.Collecting? ==> Settled(w, KeyOfVolume(op.record.request.identity)))
    ensures var w' := Begun(w, v, op);
            forall u | u in w'.operations && w'.operations[u].Collecting? ::
              Settled(w, KeyOfVolume(w'.operations[u].record.request.identity))
  {
    hide Settled, KeyOfVolume, J.Invariant;
  }

  lemma KeepsRows(w: Pool, w': Pool)
    requires RowsSound(w) && w'.journal.store == w.journal.store && w'.emitted == w.emitted
    requires w.acknowledged <= w'.acknowledged
    ensures RowsSound(w')
  {
  }

  lemma BegunProject(w: Pool, v: string, op: Operation, u: string)
    requires v !in w.operations && LocalSound(LocalOf(w, v).(operation := Some(op)), v) && v in w.records
    ensures ProjectOf(Begun(w, v, op), u) == ProjectOf(w, u)
  {
  }

  lemma KeepsProjects(w: Pool, w': Pool)
    requires ProjectsSound(w) && w'.kernel == w.kernel && w.sequence <= w'.sequence
    requires forall u :: ProjectOf(w', u) == ProjectOf(w, u)
    ensures ProjectsSound(w')
  {
    forall p | QuotaOf(w', p) != NO_QUOTA ensures exists u :: ProjectOf(w', u) == p {
      assert QuotaOf(w, p) != NO_QUOTA;
      var u :| ProjectOf(w, u) == p;
      assert ProjectOf(w', u) == p;
    }
    hide ProjectOf;
  }

  lemma KeepsCursors(w: Pool, w': Pool)
    requires CursorsSound(w) && w'.records == w.records && w'.journal == w.journal
    requires forall v | v in w'.operations && w'.operations[v].Collecting? ::
               Settled(w, KeyOfVolume(w'.operations[v].record.request.identity))
    ensures CursorsSound(w')
  {
    hide J.Invariant;
    forall k | Gone(w', k) ensures exists v :: ClosedVolume(w', v, k) {
      assert Gone(w, k);
      var v :| ClosedVolume(w, v, k);
      assert ClosedVolume(w', v, k);
    }
  }

  lemma KeepsTerminals(w: Pool, w': Pool)
    requires TerminalsSound(w) && w'.records == w.records && w'.emitted == w.emitted && w.sequence <= w'.sequence
    requires forall u | ProjectOf(w', u) != 0 ::
               ProjectOf(w', u) == ProjectOf(w, u) || (u !in w.records && ProjectOf(w', u) > w.sequence)
    ensures TerminalsSound(w')
  {
    hide ProjectOf, Terminals;
    forall u | ProjectOf(w', u) != 0 ensures TerminalOf(w', u) {
      assert ProjectOf(w', u) == ProjectOf(w, u) ==> TerminalOf(w, u);
    }
  }

  /** A new record starts under an identifier that no volume, limit or receipt was ever under. */
  lemma AllocationKeepsProjects(w: Pool, w': Pool, v: string)
    requires ProjectsSound(w) && w'.kernel == w.kernel && w'.sequence == w.sequence + 1
    requires ProjectOf(w', v) == w'.sequence && ProjectOf(w, v) == 0
    requires forall u | u != v :: ProjectOf(w', u) == ProjectOf(w, u)
    ensures ProjectsSound(w')
  {
    hide ProjectOf;
    forall p | QuotaOf(w', p) != NO_QUOTA ensures exists u :: ProjectOf(w', u) == p {
      assert QuotaOf(w, p) != NO_QUOTA;
      var u :| ProjectOf(w, u) == p;
      assert ProjectOf(w', u) == p || p == 0;
    }
  }

  /** The new volume of an allocation, and all others as they were. */
  lemma AllocationShape(w: Pool, v: string, op: Operation)
    requires Sound(w) && v !in w.operations && v !in w.records && op.Ensuring? && op.record.project == w.sequence + 1
    ensures var w' := Begun(w.(sequence := w.sequence + 1), v, op);
            && LocalOf(w', v) == Local(None, NO_QUOTA, J.Lookup(w.directories, v), Some(op))
            && ProjectOf(w', v) == w.sequence + 1 && ProjectOf(w, v) == 0
            && (forall u | u != v :: LocalOf(w', u) == LocalOf(w, u) && ProjectOf(w', u) == ProjectOf(w, u))
  {
    assert QuotaOf(w, w.sequence + 1) == NO_QUOTA;
    hide Sound;
  }

  lemma AllocationKeepsSound(w: Pool, v: string, op: Operation)
    requires Sound(w) && v !in w.operations && v !in w.records && |v| == VOLUME_LENGTH
    requires op.Ensuring? && op.record.project == w.sequence + 1
    requires LocalSound(Local(None, NO_QUOTA, J.Lookup(w.directories, v), Some(op)), v)
    ensures Sound(Begun(w.(sequence := w.sequence + 1), v, op))
  {
    var w' := Begun(w.(sequence := w.sequence + 1), v, op);
    AllocationShape(w, v, op);
    hide LocalOf, LocalSound, ProjectOf, ProjectsSound, CursorsSound, TerminalsSound, RowsSound;
    AllocationKeepsProjects(w, w', v);
    CollectingBegun(w, v, op);
    KeepsCursors(w, w');
    KeepsTerminals(w, w');
    KeepsRows(w, w');
  }

  lemma SpentKeepsSound(w: Pool)
    requires Sound(w)
    ensures Sound(w.(sequence := w.sequence + 1))
  {
    var w' := w.(sequence := w.sequence + 1);
    forall u ensures LocalOf(w', u) == LocalOf(w, u) && ProjectOf(w', u) == ProjectOf(w, u) {
    }
    hide LocalOf, LocalSound;
    KeepsProjects(w, w');
    KeepsCursors(w, w');
    KeepsTerminals(w, w');
  }

  lemma EnsureBegunKeepsSound(w: Pool, q: Request, poolBytes: nat, now: nat)
    requires Sound(w) && Enabled(w, BeginEnsure(q, poolBytes, now))
    ensures Sound(EnsureBegun(w, q, poolBytes, now))
  {
    var v := q.identity.volume;
    var l := LocalOf(w, v);
    assert LocalSound(l, v);
    AdmittedOperationsAreSound(l, v, now);
    if EnsureRefusal(l, q, poolBytes).None? {
      if v in w.records {
        assert LocalSound(l.(operation := Some(EnsureOperation(l, q, w.records[v].project, now))), v);
        assert EnsureOperation(l, q, w.records[v].project, now) == EnsureOperation(l, q, 0, now);
        hide LocalSound, Sound;
        BegunKeepsSound(w, v, EnsureOperation(l, q, 0, now));
      } else {
        SpentKeepsSound(w);
        assert l == Local(None, NO_QUOTA, J.Lookup(w.directories, v), None);
        hide Sound;
        if w.sequence + 1 <= MAX_PROJECT {
          AllocationKeepsSound(w, v, EnsureOperation(l, q, w.sequence + 1, now));
        }
      }
    }
  }

  lemma OtherBeginsKeepSound(w: Pool, step: Step)
    requires Sound(w) && Enabled(w, step) && (step.BeginRelease? || step.BeginSample? || step.BeginCollect?)
    ensures Sound(Next(w, step))
  {
    var v := if step.BeginRelease? then step.identity.volume else step.volume;
    var l := LocalOf(w, v);
    assert LocalSound(l, v);
    if v in w.records {
      assert l.record == Some(w.records[v]) && |v| == VOLUME_LENGTH;
      AdmittedOperationsAreSound(l, v, if step.BeginRelease? then step.now else 1);
      hide LocalSound, VolumesSound, ProjectsSound, TerminalsSound, LocalOf;
      match step {
        case BeginRelease(i, now) =>
          if ReleaseRefusal(l, i).None? {
            BegunKeepsSound(w, v, ReleaseOperation(w.records[v], l.quota, now));
          }
        case BeginSample(_) =>
          if !w.records[v].meteringClosed {
            BegunKeepsSound(w, v, SampleOperation(w.records[v]));
          }
        case BeginCollect(_) =>
          if Collectable(w, v) {
            DrainedIsSettled(w);
            BegunKeepsSound(w, v, Collecting(w.records[v]));
          }
        case _ =>
      }
    } else {
      assert Next(w, step) == w;
    }
  }

  /** When no receipt is pending, no terminal cursor is left either. */
  lemma DrainedIsSettled(w: Pool)
    requires CursorsSound(w) && w.journal.store.pending == []
    ensures forall k :: Settled(w, k)
  {
  }

  /** Operations end early without a trace outside of the stores. */
  lemma ForgottenKeepsSound(w: Pool, w': Pool)
    requires Sound(w) && w' == w.(operations := w'.operations, journal := w'.journal)
    requires forall v | v in w'.operations :: v in w.operations && w'.operations[v] == w.operations[v]
    requires J.Invariant(w'.journal) && w'.journal.store == w.journal.store
    ensures Sound(w')
  {
    forall v ensures LocalSound(LocalOf(w', v), v) && (ProjectOf(w', v) == ProjectOf(w, v) || ProjectOf(w', v) == 0)
      ensures ProjectOf(w', v) == 0 ==> QuotaOf(w, ProjectOf(w, v)) == NO_QUOTA
    {
      ForgottenVolume(w, w', v);
    }
    hide LocalOf, LocalSound;
    ForgottenKeepsProjects(w, w');
    ForgottenKeepsCursors(w, w');
    KeepsTerminals(w, w');
    hide ProjectsSound, CursorsSound, TerminalsSound;
  }

  lemma ForgottenVolume(w: Pool, w': Pool, v: string)
    requires VolumesSound(w) && ProjectsSound(w) && w' == w.(operations := w'.operations, journal := w'.journal)
    requires v in w'.operations ==> v in w.operations && w'.operations[v] == w.operations[v]
    ensures LocalSound(LocalOf(w', v), v) && (ProjectOf(w', v) == ProjectOf(w, v) || ProjectOf(w', v) == 0)
    ensures ProjectOf(w', v) == 0 ==> QuotaOf(w, ProjectOf(w, v)) == NO_QUOTA
  {
    assert LocalSound(LocalOf(w, v), v);
    assert QuotaOf(w, 0) == NO_QUOTA;
    hide ProjectsSound, VolumesSound;
  }

  lemma ForgottenKeepsProjects(w: Pool, w': Pool)
    requires ProjectsSound(w) && w'.kernel == w.kernel && w'.sequence == w.sequence
    requires forall v :: ProjectOf(w', v) == ProjectOf(w, v) || ProjectOf(w', v) == 0
    requires forall v | ProjectOf(w', v) == 0 :: QuotaOf(w, ProjectOf(w, v)) == NO_QUOTA
    ensures ProjectsSound(w')
  {
    hide ProjectOf;
    forall p | QuotaOf(w', p) != NO_QUOTA ensures exists u :: ProjectOf(w', u) == p {
      assert QuotaOf(w, p) != NO_QUOTA;
      var u :| ProjectOf(w, u) == p;
      assert ProjectOf(w', u) == p;
    }
  }

  lemma ForgottenKeepsCursors(w: Pool, w': Pool)
    requires CursorsSound(w) && w'.records == w.records && J.Invariant(w'.journal)
    requires w'.journal.store == w.journal.store
    requires forall v | v in w'.operations :: v in w.operations && w'.operations[v] == w.operations[v]
    ensures CursorsSound(w')
  {
    hide J.Invariant;
    forall k | Gone(w', k) ensures exists v :: ClosedVolume(w', v, k) {
      assert Gone(w, k);
      var v :| ClosedVolume(w, v, k);
      assert ClosedVolume(w', v, k);
    }
  }

  lemma CrashKeepsSound(w: Pool, bootId: nat)
    requires Sound(w) && Enabled(w, Crash(bootId))
    ensures Sound(Next(w, Crash(bootId)))
  {
    var w' := Next(w, Crash(bootId));
    assert J.Invariant(w'.journal) by {
      hide VolumesSound, ProjectsSound, TerminalsSound, J.Sound;
    }
    hide Sound, J.Invariant;
    ForgottenKeepsSound(w, w');
  }

  // ----- The environment -----

  lemma DirectoryIsAside(w: Pool, step: Step, v: string)
    requires Enabled(w, step) && (step.MakeDirectory? || step.RemoveDirectory? || step.Fill?)
    ensures var w', l, l' := Next(w, step), LocalOf(w, v), LocalOf(Next(w, step), v);
            && ProjectOf(w', v) == ProjectOf(w, v) && l' == l.(directory := l'.directory)
            && (SameTrees(l.directory, l'.directory) || l'.directory == l.directory
                || (Bare(l'.directory) && !(l.operation.Some? && l.operation.value.Ensuring? && l.directory.Some?)))
  {
  }

  lemma DirectoriesKeepSound(w: Pool, step: Step)
    requires Sound(w) && Enabled(w, step) && (step.MakeDirectory? || step.RemoveDirectory? || step.Fill?)
    ensures Sound(Next(w, step))
  {
    var w' := Next(w, step);
    hide LocalSound, LocalOf, ProjectOf, ProjectsSound, CursorsSound, TerminalsSound, RowsSound;
    forall v ensures LocalSound(LocalOf(w', v), v) && ProjectOf(w', v) == ProjectOf(w, v) {
      DirectoryIsAside(w, step, v);
      DirectoryKeepsLocal(LocalOf(w, v), v, LocalOf(w', v).directory);
    }
    KeepsProjects(w, w');
    KeepsCursors(w, w');
    KeepsTerminals(w, w');
    KeepsRows(w, w');
  }

  /** Only the contents of the trees changed. */
  predicate SameTrees(d: Option<Directory>, d': Option<Directory>) {
    d.Some? && d'.Some?
    && d'.value == d.value.(workspaceEmpty := d'.value.workspaceEmpty, stagingEmpty := d'.value.stagingEmpty)
  }

  /** A volume that was not there before. */
  predicate Bare(d: Option<Directory>) {
    d.None? || d.value.marker.None?
  }

  lemma DirectoryKeepsLocal(l: Local, v: string, d: Option<Directory>)
    requires LocalSound(l, v)
    requires SameTrees(l.directory, d) || d == l.directory
             || (Bare(d) && !(l.operation.Some? && l.operation.value.Ensuring? && l.directory.Some?))
    ensures LocalSound(l.(directory := d), v)
  {
  }

  lemma UsageIsAside(w: Pool, step: Step, v: string)
    requires Enabled(w, step) && step.Use? && LocalSound(LocalOf(w, v), v)
    ensures ProjectOf(Next(w, step), v) == ProjectOf(w, v) && LocalSound(LocalOf(Next(w, step), v), v)
  {
    var l, l' := LocalOf(w, v), LocalOf(Next(w, step), v);
    if ProjectOf(w, v) == step.project && step.project in w.kernel {
      assert l' == l.(quota := l.quota.(used := step.used, inodes := step.inodes));
      hide LocalSound;
      UsageKeepsLocal(l, v, step.used, step.inodes);
    } else {
      assert l' == l;
    }
  }

  lemma UsageKeepsSound(w: Pool, step: Step)
    requires Sound(w) && Enabled(w, step) && step.Use?
    ensures Sound(Next(w, step))
  {
    var w' := Next(w, step);
    hide LocalSound, LocalOf, ProjectOf;
    forall v ensures LocalSound(LocalOf(w', v), v) && ProjectOf(w', v) == ProjectOf(w, v) {
      UsageIsAside(w, step, v);
    }
    UsageKeepsProjects(w, step);
    KeepsCursors(w, w');
    KeepsTerminals(w, w');
    hide ProjectsSound, CursorsSound, TerminalsSound;
  }

  /** A project without inodes gets none from the environment. */
  lemma UsageKeepsLocal(l: Local, v: string, used: nat, inodes: nat)
    requires LocalSound(l, v) && (inodes > 0 ==> l.quota.inodes > 0) && (used > 0 ==> inodes > 0)
    ensures LocalSound(l.(quota := l.quota.(used := used, inodes := inodes)), v)
  {
  }

  lemma UsageKeepsProjects(w: Pool, step: Step)
    requires ProjectsSound(w) && Enabled(w, step) && step.Use?
    ensures ProjectsSound(Next(w, step))
  {
    var w' := Next(w, step);
    forall v ensures ProjectOf(w', v) == ProjectOf(w, v) {
    }
    hide ProjectOf;
    forall p | QuotaOf(w', p) != NO_QUOTA ensures exists u :: ProjectOf(w', u) == p {
      assert QuotaOf(w, p) != NO_QUOTA;
      var u :| ProjectOf(w, u) == p;
      assert ProjectOf(w', u) == p;
    }
  }

  lemma AcknowledgeKeepsCursors(w: Pool, rows: seq<J.Row>)
    requires CursorsSound(w)
    ensures CursorsSound(w.(journal := J.Acknowledged(w.journal, rows)))
  {
    var w' := w.(journal := J.Acknowledged(w.journal, rows));
    J.AcknowledgeKeepsInvariant(w.journal, rows);
    hide J.Invariant;
    forall k | Gone(w', k) ensures exists v :: ClosedVolume(w', v, k) {
      assert Gone(w, k);
      var v :| ClosedVolume(w, v, k);
      assert ClosedVolume(w', v, k);
    }
  }

  lemma AcknowledgeKeepsRows(w: Pool, rows: seq<J.Row>)
    requires RowsSound(w)
    ensures RowsSound(Next(w, Acknowledge(rows)))
  {
    var w' := Next(w, Acknowledge(rows));
    forall i | 0 <= i < |w.emitted|
      ensures J.Row(i + 1, w.emitted[i].event) in w'.journal.store.pending || i + 1 in w'.acknowledged
    {
      var r := J.Row(i + 1, w.emitted[i].event);
      if r in w.journal.store.pending && r.key in J.Keys(rows) {
        assert r.key in w'.acknowledged;
      }
    }
    hide J.Keys;
  }

  lemma AcknowledgeKeepsSound(w: Pool, rows: seq<J.Row>)
    requires Sound(w)
    ensures Sound(Next(w, Acknowledge(rows)))
  {
    var w', w1 := Next(w, Acknowledge(rows)), w.(journal := J.Acknowledged(w.journal, rows));
    AcknowledgeKeepsRows(w, rows);
    hide VolumesSound, ProjectsSound, CursorsSound, TerminalsSound, RowsSound, J.Acknowledged, J.Keys;
    SameVolumesSound(w, w');
    AcknowledgeKeepsCursors(w, rows);
    KeepsCursorsAside(w1, w');
    SameProjects(w, w');
    hide ProjectOf;
    KeepsTerminals(w, w');
  }

  lemma SameProjects(w: Pool, w': Pool)
    requires SameVolumes(w, w')
    ensures forall v :: ProjectOf(w', v) == ProjectOf(w, v)
  {
  }

  /** The history of acknowledgements is aside from the cursors. */
  lemma KeepsCursorsAside(w: Pool, w': Pool)
    requires CursorsSound(w) && w' == w.(acknowledged := w'.acknowledged)
    ensures CursorsSound(w')
  {
    KeepsCursors(w, w');
  }

  lemma StepKeepsSound(w: Pool, step: Step)
    requires Sound(w) && Enabled(w, step)
    ensures Sound(Next(w, step))
  {
    match step {
      case BeginEnsure(q, poolBytes, now) => EnsureBegunKeepsSound(w, q, poolBytes, now);
      case BeginRelease(_, _) => OtherBeginsKeepSound(w, step);
      case BeginSample(_) => OtherBeginsKeepSound(w, step);
      case BeginCollect(_) => OtherBeginsKeepSound(w, step);
      case Advance(v, meets) => AdvanceKeepsPool(w, v, meets);
      case Abort(v) => ForgottenKeepsSound(w, Next(w, step));
      case Crash(bootId) => CrashKeepsSound(w, bootId);
      case Use(_, _, _) => UsageKeepsSound(w, step);
      case Acknowledge(rows) => AcknowledgeKeepsSound(w, rows);
      case _ => DirectoriesKeepSound(w, step);
    }
  }

  lemma AdvanceKeepsPool(w: Pool, v: string, meets: Meets)
    requires Sound(w) && v in w.operations && meets.now > 0
    ensures Sound(Advances(w, v, meets))
  {
    AdvanceKeepsVolumes(w, v, meets);
    AdvanceKeepsCursors(w, v, meets);
    AdvanceKeepsTerminals(w, v, meets);
    AdvanceKeepsRows(w, v, meets);
    hide RowsSound, VolumesSound, ProjectsSound, CursorsSound, TerminalsSound, Advances;
  }

  lemma {:induction false} RunKeepsSound(w: Pool, steps: seq<Step>)
    requires Sound(w) && Legal(w, steps)
    ensures Sound(Run(w, steps))
    decreases |steps|
  {
    if steps != [] {
      StepKeepsSound(w, steps[0]);
      RunKeepsSound(Next(w, steps[0]), steps[1..]);
    }
  }

  lemma InitialIsSound(sequence: nat, sourceId: string, bootId: nat)
    ensures Sound(Initial(sequence, sourceId, bootId))
  {
  }

  // ----- What the manager promises -----

  /**
   After any run, crash by crash: limits stay within the accepted capacity, no inode is
   accounted without a limit, no two volumes share a project, and a release that finds the
   volume gone and empty is never refused.
   */
  lemma LimitsAreSafe(sequence: nat, sourceId: string, bootId: nat, steps: seq<Step>)
    requires Legal(Initial(sequence, sourceId, bootId), steps)
    ensures var w := Run(Initial(sequence, sourceId, bootId), steps);
            && (forall v | v in w.records && !w.records[v].released ::
                  QuotaOf(w, w.records[v].project).limit <= w.records[v].request.capacity)
            && (forall p | QuotaOf(w, p).limit == 0 :: QuotaOf(w, p).inodes == 0)
            && (forall v | v in w.records :: 0 < w.records[v].project <= MAX_PROJECT)
            && (forall u, v | u in w.records && v in w.records && w.records[u].project == w.records[v].project ::
                  u == v)
            && (forall i: VolumeIdentity | i.volume in w.records && i.volume !in w.operations ::
                  ReleaseRefusal(LocalOf(w, i.volume), i) != Some(IdentityUnconfirmed))
  {
    InitialIsSound(sequence, sourceId, bootId);
    RunKeepsSound(Initial(sequence, sourceId, bootId), steps);
    var w := Run(Initial(sequence, sourceId, bootId), steps);
    hide Run, Legal, Initial, Sound;
    forall v | v in w.records
      ensures 0 < w.records[v].project <= MAX_PROJECT
      ensures !w.records[v].released ==> QuotaOf(w, w.records[v].project).limit <= w.records[v].request.capacity
    {
      RecordLimits(w, v);
    }
    forall i: VolumeIdentity | i.volume in w.records && i.volume !in w.operations
      ensures ReleaseRefusal(LocalOf(w, i.volume), i) != Some(IdentityUnconfirmed)
    {
      VolumeIsSound(w, i.volume);
      ReleaseIsNeverUnconfirmed(LocalOf(w, i.volume), i.volume, i);
    }
    forall u, v | u in w.records && v in w.records && w.records[u].project == w.records[v].project ensures u == v {
      SoleProject(w, u, v);
    }
    forall p | QuotaOf(w, p).limit == 0 ensures QuotaOf(w, p).inodes == 0 {
      QuotasAreSound(w, p);
    }
    hide LocalOf, StoredSound, ReleaseRefusal, QuotaOf;
  }

  lemma VolumeIsSound(w: Pool, v: string)
    requires Sound(w)
    ensures LocalSound(LocalOf(w, v), v) && StoredSound(LocalOf(w, v), v)
  {
  }

  lemma QuotasAreSound(w: Pool, p: nat)
    requires Sound(w)
    ensures QuotaSound(QuotaOf(w, p))
  {
    hide VolumesSound, CursorsSound, TerminalsSound, RowsSound;
  }

  lemma RecordLimits(w: Pool, v: string)
    requires Sound(w) && v in w.records
    ensures ProjectOf(w, v) == w.records[v].project && 0 < w.records[v].project <= MAX_PROJECT
    ensures !w.records[v].released ==> QuotaOf(w, w.records[v].project).limit <= w.records[v].request.capacity
  {
    VolumeIsSound(w, v);
    hide Sound;
  }

  lemma SoleProject(w: Pool, u: string, v: string)
    requires Sound(w) && u in w.records && v in w.records && w.records[u].project == w.records[v].project
    ensures u == v
  {
    RecordLimits(w, u);
    RecordLimits(w, v);
    hide VolumesSound, CursorsSound, TerminalsSound, RowsSound, ProjectOf;
  }

  /**
   At every moment of every run: a reader that is told `ready` reads the limit that the
   kernel enforces on both trees of the volume, and that is the capacity last accepted.
   */
  lemma ReadyIsEnforced(sequence: nat, sourceId: string, bootId: nat, steps: seq<Step>, i: VolumeIdentity)
    requires Legal(Initial(sequence, sourceId, bootId), steps)
    ensures var w := Run(Initial(sequence, sourceId, bootId), steps);
            var read := ReadVolume(LocalOf(w, i.volume), i);
            read.Success? && read.value.ready ==>
              && i.volume in w.records && i.volume in w.directories
              && var r, d := w.records[i.volume], w.directories[i.volume];
              && r.request.identity == i && r.applied && !r.released
              && d.marker == Some(Marker(i, r.project, r.enforcedAt))
              && d.workspace == r.project && d.staging == r.project
              && QuotaOf(w, r.project).limit == r.request.capacity == read.value.capacity > 0
              && read.value.revision == r.request.revision
  {
    InitialIsSound(sequence, sourceId, bootId);
    RunKeepsSound(Initial(sequence, sourceId, bootId), steps);
    var w := Run(Initial(sequence, sourceId, bootId), steps);
    hide Run, Legal, Initial, Sound;
    VolumeIsSound(w, i.volume);
    ReadyMeansEnforced(LocalOf(w, i.volume), i.volume, i);
    hide ReadVolume, LocalSound, StoredSound;
    if i.volume in w.records {
      RecordLimits(w, i.volume);
    }
  }

  /** A project identifier that was spent and is no longer in use is never in use again. */
  lemma {:induction false} ProjectsAreNeverReused(w: Pool, steps: seq<Step>, p: nat)
    requires Sound(w) && Legal(w, steps) && 0 < p <= w.sequence && forall v :: ProjectOf(w, v) != p
    ensures forall v :: ProjectOf(Run(w, steps), v) != p
    decreases |steps|
  {
    if steps != [] {
      var w' := Next(w, steps[0]);
      hide Sound, ProjectOf, Enabled, Next;
      StepKeepsSound(w, steps[0]);
      ProjectsComeFromTheSequence(w, steps[0], "");
      forall v ensures ProjectOf(w', v) != p {
        ProjectsComeFromTheSequence(w, steps[0], v);
      }
      ProjectsAreNeverReused(w', steps[1..], p);
    }
  }

  lemma ProjectsComeFromTheSequence(w: Pool, step: Step, v: string)
    requires Sound(w) && Enabled(w, step)
    ensures var w' := Next(w, step);
            && w.sequence <= w'.sequence
            && (ProjectOf(w', v) == ProjectOf(w, v) || ProjectOf(w', v) == 0 || ProjectOf(w', v) == w.sequence + 1)
  {
    match step {
      case Advance(u, meets) => AdvanceKeepsProject(w, u, meets, v);
      case BeginEnsure(_, _, _) => BeginTakesProject(w, step, v);
      case BeginRelease(_, _) => BeginTakesProject(w, step, v);
      case BeginSample(_) => BeginTakesProject(w, step, v);
      case BeginCollect(_) => BeginTakesProject(w, step, v);
      case _ => OthersKeepProject(w, step, v);
    }
    hide Sound, Enabled, Next, ProjectOf;
  }

  lemma OthersKeepProject(w: Pool, step: Step, v: string)
    requires Sound(w) && Enabled(w, step) && !step.Advance?
    requires !step.BeginEnsure? && !step.BeginRelease? && !step.BeginSample? && !step.BeginCollect?
    ensures var w' := Next(w, step);
            && w.sequence <= w'.sequence
            && (ProjectOf(w', v) == ProjectOf(w, v) || ProjectOf(w', v) == 0 || ProjectOf(w', v) == w.sequence + 1)
  {
    assert LocalSound(LocalOf(w, v), v);
    hide Sound;
  }

  lemma AdvanceKeepsProject(w: Pool, u: string, meets: Meets, v: string)
    requires Sound(w) && u in w.operations && meets.now > 0
    ensures var w' := Advances(w, u, meets);
            w.sequence == w'.sequence && (ProjectOf(w', v) == ProjectOf(w, v) || ProjectOf(w', v) == 0)
  {
    TerminalCount(w, u, meets);
    if u == v {
      OperatedHasProject(w, v);
      assert LocalSound(LocalOf(w, v), v);
      EffectKeepsProject(LocalOf(w, v), v, meets.now, Closes(w, v, meets));
      AdvanceRecord(w, v, meets);
      ProjectIsLocal(w, v);
    } else {
      AdvanceFrame(w, u, meets, v);
    }
    hide Advances, Closes, Advanced, LocalOf, Sound;
  }

  lemma BeginTakesProject(w: Pool, step: Step, v: string)
    requires Enabled(w, step)
    requires step.BeginEnsure? || step.BeginRelease? || step.BeginSample? || step.BeginCollect?
    ensures var w' := Next(w, step);
            && w.sequence <= w'.sequence
            && (ProjectOf(w', v) == ProjectOf(w, v) || ProjectOf(w', v) == w.sequence + 1)
  {
    hide ProjectOf, EnsureRefusal, AlreadyApplied;
    match step {
      case BeginEnsure(q, poolBytes, now) =>
        var l, u := LocalOf(w, q.identity.volume), q.identity.volume;
        if u in w.records {
          BegunTakesProject(w, u, EnsureOperation(l, q, 0, now), v);
        } else {
          BegunTakesProject(w.(sequence := w.sequence + 1), u, EnsureOperation(l, q, w.sequence + 1, now), v);
          SequenceAside(w, v);
        }
      case BeginRelease(i, now) =>
        if i.volume in w.records {
          BegunTakesProject(w, i.volume, ReleaseOperation(w.records[i.volume], LocalOf(w, i.volume).quota, now), v);
        }
      case BeginSample(u) =>
        if u in w.records {
          BegunTakesProject(w, u, SampleOperation(w.records[u]), v);
        }
      case BeginCollect(u) =>
        if u in w.records {
          BegunTakesProject(w, u, Collecting(w.records[u]), v);
        }
    }
  }

  lemma BegunTakesProject(w: Pool, u: string, op: Operation, v: string)
    requires u !in w.operations
    requires op.Ensuring? && u in w.records ==> op.record.project == w.records[u].project
    ensures ProjectOf(Begun(w, u, op), v) == ProjectOf(w, v)
            || (op.Ensuring? && u !in w.records && ProjectOf(Begun(w, u, op), v) == op.record.project)
  {
  }

  lemma SequenceAside(w: Pool, v: string)
    ensures ProjectOf(w.(sequence := w.sequence + 1), v) == ProjectOf(w, v)
  {
  }

  /** How a record and its kernel limit may develop while the record lives. */
  predicate Develops(r: Record, q: Quota, r': Record, q': Quota) {
    && r'.project == r.project && r'.request.identity == r.request.identity
    && r.request.revision <= r'.request.revision && r.request.capacity <= r'.request.capacity
    && (r.released ==> r'.released) && (ReleaseRecorded(r) ==> ReleaseRecorded(r'))
    && (!ReleaseRecorded(r') ==> q.limit <= q'.limit)
  }

  lemma EffectDevelops(l: Local, v: string, now: nat, closed: bool)
    requires LocalSound(l, v) && l.operation.Some?
    ensures var l' := Advanced(l, now, closed);
            l.record.Some? && l'.record.Some? ==> Develops(l.record.value, l.quota, l'.record.value, l'.quota)
  {
  }

  predicate Lives(w: Pool, v: string, p: nat) {
    v in w.records && w.records[v].project == p
  }

  lemma StepDevelops(w: Pool, step: Step, v: string, p: nat)
    requires Sound(w) && Enabled(w, step) && Lives(w, v, p) && Lives(Next(w, step), v, p)
    ensures var w' := Next(w, step);
            Develops(w.records[v], QuotaOf(w, p), w'.records[v], QuotaOf(w', p))
  {
    assert LocalSound(LocalOf(w, v), v);
    match step {
      case Advance(u, meets) => AdvanceDevelops(w, u, meets, v, p);
      case _ =>
        hide Sound;
        OtherStepsKeepRecord(w, step, v, p);
    }
  }

  lemma OtherStepsKeepRecord(w: Pool, step: Step, v: string, p: nat)
    requires Enabled(w, step) && !step.Advance?
    ensures Next(w, step).records == w.records && QuotaOf(Next(w, step), p).limit == QuotaOf(w, p).limit
  {
    hide EnsureRefusal, ReleaseRefusal, AlreadyApplied, EnsureOperation, ReleaseOperation, LocalOf;
  }

  lemma AdvanceDevelops(w: Pool, u: string, meets: Meets, v: string, p: nat)
    requires Sound(w) && u in w.operations && meets.now > 0 && Lives(w, v, p) && Lives(Advances(w, u, meets), v, p)
    ensures var w' := Advances(w, u, meets);
            Develops(w.records[v], QuotaOf(w, p), w'.records[v], QuotaOf(w', p))
  {
    var l := LocalOf(w, v);
    assert LocalSound(l, v) && l.record == Some(w.records[v]);
    LivesUnder(w, v, p);
    if u == v {
      OperatedHasProject(w, v);
      EffectDevelops(l, v, meets.now, Closes(w, v, meets));
      EffectKeepsProject(l, v, meets.now, Closes(w, v, meets));
      AdvanceRecord(w, v, meets);
      ProjectIsLocal(w, v);
      AdvanceQuota(w, v, meets, p);
    } else {
      AdvanceFrame(w, u, meets, v);
      AdvanceQuota(w, u, meets, p);
    }
    hide Advances, Advanced, LocalOf, Sound, Closes, LocalSound;
  }

  lemma LivesUnder(w: Pool, v: string, p: nat)
    requires VolumesSound(w) && Lives(w, v, p)
    ensures ProjectOf(w, v) == p > 0 && QuotaOf(w, p) == LocalOf(w, v).quota
  {
    assert LocalSound(LocalOf(w, v), v);
  }

  lemma AdvanceQuota(w: Pool, u: string, meets: Meets, p: nat)
    requires u in w.operations && ProjectOf(w, u) != 0
    ensures var w' := Advances(w, u, meets);
            QuotaOf(w', p) == if p == ProjectOf(w, u) then Advanced(LocalOf(w, u), meets.now, Closes(w, u, meets)).quota
                              else QuotaOf(w, p)
  {
    PutSelf(w, u, Advanced(LocalOf(w, u), meets.now, Closes(w, u, meets)));
    hide LocalOf, Advanced, J.Outcome, J.Captured, SampleOf, Closes;
  }

  /**
   Over any run, as long as a record lives: its accepted revision and capacity never
   decrease, and its kernel limit never shrinks before a release was recorded.
   */
  lemma {:induction false} AcceptedOnlyGrowsOverRuns(w: Pool, steps: seq<Step>, v: string, p: nat)
    requires Sound(w) && Legal(w, steps) && Lives(w, v, p) && Lives(Run(w, steps), v, p)
    ensures Develops(w.records[v], QuotaOf(w, p), Run(w, steps).records[v], QuotaOf(Run(w, steps), p))
    decreases |steps|
  {
    if steps != [] {
      var w', end := Next(w, steps[0]), Run(w, steps);
      StepKeepsSound(w, steps[0]);
      LivesUnder(w, v, p);
      if Lives(w', v, p) {
        StepDevelops(w, steps[0], v, p);
        AcceptedOnlyGrowsOverRuns(w', steps[1..], v, p);
      } else {
        DeadStaysDead(w, steps, v, p);
        RunKeepsSound(w, steps);
        LivesUnder(end, v, p);
        assert false;
      }
    }
  }

  lemma DeadStaysDead(w: Pool, steps: seq<Step>, v: string, p: nat)
    requires Sound(w) && Legal(w, steps) && steps != [] && Lives(w, v, p) && !Lives(Next(w, steps[0]), v, p)
    ensures forall u :: ProjectOf(Run(w, steps), u) != p
  {
    var w' := Next(w, steps[0]);
    StepKeepsSound(w, steps[0]);
    LivesUnder(w, v, p);
    assert p <= w.sequence && forall u | ProjectOf(w, u) == p :: u == v;
    LostProject(w, steps[0], v, p);
    forall u ensures ProjectOf(w', u) != p {
      ProjectsComeFromTheSequence(w, steps[0], u);
    }
    ProjectsComeFromTheSequence(w, steps[0], v);
    hide Sound, ProjectOf, Next, Lives;
    ProjectsAreNeverReused(w', steps[1..], p);
  }

  /** A record that stops living gave up its project. */
  lemma LostProject(w: Pool, step: Step, v: string, p: nat)
    requires Sound(w) && Enabled(w, step) && Lives(w, v, p) && !Lives(Next(w, step), v, p)
    ensures ProjectOf(Next(w, step), v) != p
  {
    LivesUnder(w, v, p);
    match step {
      case Advance(u, meets) =>
        if u == v {
          var l := LocalOf(w, v);
          assert LocalSound(l, v);
          EffectKeepsProject(l, v, meets.now, Closes(w, v, meets));
          EffectDevelops(l, v, meets.now, Closes(w, v, meets));
          EffectKeepsRecord(l, v, meets.now, Closes(w, v, meets));
          AdvanceRecord(w, v, meets);
        } else {
          AdvanceFrame(w, u, meets, v);
        }
      case _ => OtherStepsKeepRecord(w, step, v, p);
    }
    hide LocalOf, Advances, Advanced, Sound, Closes, LocalSound;
  }

  lemma EffectKeepsRecord(l: Local, v: string, now: nat, closed: bool)
    requires LocalSound(l, v) && l.operation.Some? && l.record.Some?
    ensures Advanced(l, now, closed).record.None? ==> Advanced(l, now, closed).operation.None?
  {
  }

  /** Of all receipts ever committed for the record, the one at `i` is terminal, and no other. */
  ghost predicate OnlyTerminal(w: Pool, r: Record, i: int) {
    && 0 <= i < |w.emitted| && w.emitted[i].project == r.project
    && w.emitted[i].event.state == Absent && w.emitted[i].event.resource == ResourceOf(r.request.identity)
    && w.emitted[i].event.quantity == TerminalQuantity(r)
    && forall j | 0 <= j < |w.emitted| && j != i && w.emitted[j].project == r.project ::
          w.emitted[j].event.state != Absent
  }

  lemma {:induction false} TerminalsAre(emitted: seq<Emission>, p: nat)
    ensures Terminals(emitted, p) == [] ==>
              forall j | 0 <= j < |emitted| && emitted[j].project == p :: emitted[j].event.state != Absent
    ensures |Terminals(emitted, p)| == 1 ==>
              exists i :: 0 <= i < |emitted| && emitted[i].project == p && emitted[i].event.state == Absent
                          && emitted[i].event == Terminals(emitted, p)[0]
                          && forall j | 0 <= j < |emitted| && j != i && emitted[j].project == p ::
                                emitted[j].event.state != Absent
    decreases |emitted|
  {
    if emitted != [] {
      var front, last := emitted[..|emitted| - 1], emitted[|emitted| - 1];
      TerminalsAre(front, p);
      forall j | 0 <= j < |front| ensures emitted[j] == front[j] {
      }
      if |Terminals(emitted, p)| == 1 {
        if last.project == p && last.event.state == Absent {
          var i := |emitted| - 1;
          assert Terminals(front, p) == [];
          assert emitted[i].event == Terminals(emitted, p)[0];
        } else {
          var i :| 0 <= i < |front| && front[i].project == p && front[i].event.state == Absent
                   && front[i].event == Terminals(front, p)[0]
                   && forall j | 0 <= j < |front| && j != i && front[j].project == p :: front[j].event.state != Absent;
          assert emitted[i] == front[i];
        }
      }
    }
  }

  lemma TerminalIndex(w: Pool, v: string)
    requires Sound(w) && v in w.records
    ensures w.records[v].meteringClosed ==> exists i :: OnlyTerminal(w, w.records[v], i)
    ensures !w.records[v].meteringClosed ==>
              forall j | 0 <= j < |w.emitted| && w.emitted[j].project == w.records[v].project ::
                  w.emitted[j].event.state != Absent
    ensures w.records[v].meteringClosed ==> w.records[v].released
  {
    var p := w.records[v].project;
    LivesUnder(w, v, p);
    assert TerminalOf(w, v) && LocalSound(LocalOf(w, v), v);
    TerminalsAre(w.emitted, p);
    hide Sound, LocalSound, LocalOf, Terminals, ProjectOf;
    if w.records[v].meteringClosed {
      var i :| 0 <= i < |w.emitted| && w.emitted[i].project == p && w.emitted[i].event.state == Absent
               && w.emitted[i].event == Terminals(w.emitted, p)[0]
               && forall j | 0 <= j < |w.emitted| && j != i && w.emitted[j].project == p ::
                     w.emitted[j].event.state != Absent;
      assert OnlyTerminal(w, w.records[v], i);
    }
  }

  /**
   After any run: among all receipts ever committed, a closed record has exactly one that
   is terminal, of its own resource and released capacity, and an open record has none.
   Once a record is gone its project still has no second one.
   */
  lemma OneTerminalReceiptPerRecord(sequence: nat, sourceId: string, bootId: nat, steps: seq<Step>)
    requires Legal(Initial(sequence, sourceId, bootId), steps)
    ensures var w := Run(Initial(sequence, sourceId, bootId), steps);
            && (forall v | v in w.records && w.records[v].meteringClosed ::
                  w.records[v].released && exists i :: OnlyTerminal(w, w.records[v], i))
            && (forall v, j | v in w.records && !w.records[v].meteringClosed && 0 <= j < |w.emitted|
                              && w.emitted[j].project == w.records[v].project :: w.emitted[j].event.state != Absent)
            && (forall p: nat :: |Terminals(w.emitted, p)| <= 1)
  {
    InitialIsSound(sequence, sourceId, bootId);
    RunKeepsSound(Initial(sequence, sourceId, bootId), steps);
    var w := Run(Initial(sequence, sourceId, bootId), steps);
    hide Run, Legal, Initial, VolumesSound, ProjectsSound, CursorsSound, RowsSound, Terminals, OnlyTerminal;
    forall v | v in w.records
      ensures w.records[v].meteringClosed ==> w.records[v].released && exists i :: OnlyTerminal(w, w.records[v], i)
      ensures !w.records[v].meteringClosed ==>
                forall j | 0 <= j < |w.emitted| && w.emitted[j].project == w.records[v].project ::
                    w.emitted[j].event.state != Absent
    {
      TerminalIndex(w, v);
    }
  }

  /**
   After any run: a record that is being deleted was released and closed, and its one
   terminal receipt was acknowledged and waits no more, nor does any other of its resource.
   */
  lemma CollectionFollowsAcknowledgement(sequence: nat, sourceId: string, bootId: nat, steps: seq<Step>, v: string)
    requires Legal(Initial(sequence, sourceId, bootId), steps)
    requires v in Run(Initial(sequence, sourceId, bootId), steps).operations
    requires Run(Initial(sequence, sourceId, bootId), steps).operations[v].Collecting?
    ensures var w := Run(Initial(sequence, sourceId, bootId), steps);
            && v in w.records && w.operations[v].record == w.records[v]
            && w.records[v].released && w.records[v].meteringClosed
            && QuotaOf(w, w.records[v].project) == NO_QUOTA
            && (exists i :: OnlyTerminal(w, w.records[v], i) && i + 1 in w.acknowledged)
            && (forall r | r in w.journal.store.pending ::
                  KeyOf(r.event.resource) != KeyOfVolume(w.records[v].request.identity))
  {
    InitialIsSound(sequence, sourceId, bootId);
    RunKeepsSound(Initial(sequence, sourceId, bootId), steps);
    var w := Run(Initial(sequence, sourceId, bootId), steps);
    hide Run, Legal, Initial;
    CollectingIsAcknowledged(w, v);
  }

  lemma CollectingIsAcknowledged(w: Pool, v: string)
    requires Sound(w) && v in w.operations && w.operations[v].Collecting?
    ensures v in w.records && w.operations[v].record == w.records[v]
    ensures w.records[v].released && w.records[v].meteringClosed && QuotaOf(w, w.records[v].project) == NO_QUOTA
    ensures exists i :: OnlyTerminal(w, w.records[v], i) && i + 1 in w.acknowledged
    ensures Settled(w, KeyOfVolume(w.records[v].request.identity))
  {
    assert LocalSound(LocalOf(w, v), v);
    TerminalIndex(w, v);
    hide LocalOf, LocalSound, VolumesSound, ProjectsSound, TerminalsSound, J.Invariant;
    var i :| OnlyTerminal(w, w.records[v], i);
    assert J.Row(i + 1, w.emitted[i].event) !in w.journal.store.pending;
  }

  /** A record leaves the pool in no other way than by its collection. */
  lemma RecordsGoOnlyWhenAcknowledged(w: Pool, step: Step, v: string)
    requires Sound(w) && Enabled(w, step) && v in w.records && v !in Next(w, step).records
    ensures w.records[v].meteringClosed && QuotaOf(w, w.records[v].project) == NO_QUOTA
    ensures exists i :: OnlyTerminal(w, w.records[v], i) && i + 1 in w.acknowledged
  {
    LossIsCollection(w, step, v);
    hide Next, Enabled, Sound, OnlyTerminal;
    CollectingIsAcknowledged(w, v);
  }

  lemma LossIsCollection(w: Pool, step: Step, v: string)
    requires Sound(w) && Enabled(w, step) && v in w.records && v !in Next(w, step).records
    ensures v in w.operations && w.operations[v].Collecting?
  {
    if step.Advance? {
      if step.volume == v {
        var l, closed := LocalOf(w, v), Closes(w, v, step.meets);
        assert LocalSound(l, v);
        hide Sound;
        AdvanceRecord(w, v, step.meets);
        RecordLostInCollection(l, v, step.meets.now, closed);
        hide Advanced, Advances, LocalSound;
      } else {
        AdvanceFrame(w, step.volume, step.meets, v);
        hide Advances, Sound;
      }
    } else {
      hide Sound;
      OtherStepsKeepRecord(w, step, v, 0);
      hide Next, Enabled;
    }
  }

  lemma RecordLostInCollection(l: Local, v: string, now: nat, closed: bool)
    requires LocalSound(l, v) && l.operation.Some? && l.record.Some?
    ensures Advanced(l, now, closed).record.None? ==> l.operation.value.Collecting?
  {
  }
}
