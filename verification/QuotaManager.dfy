/**
 The quota manager in place. Each method performs the durable effects of one operation
 in order; `meets` holds what each effect meets, and an operation that has no further
 one died there. A method leaves exactly what the steps of `QuotaPool` leave.
 */
module QuotaManager {
  import opened Wrappers
  import opened ResourceTypes
  import opened WorkspaceQuota
  import opened QuotaPool
  import J = ResourceJournal

  /** An operation runs effect by effect until it is done or cut. */
  function Operated(w: Pool, v: string, meets: seq<Meets>): Pool
    decreases |meets|
  {
    if meets == [] || v !in w.operations then w else Operated(Advances(w, v, meets[0]), v, meets[1..])
  }

  /** Nothing of an operation outlives it but its effects. */
  function Dropped(w: Pool): Pool {
    w.(operations := map[])
  }

  predicate Ticking(meets: seq<Meets>) {
    forall i | 0 <= i < |meets| :: meets[i].now > 0
  }

  lemma {:induction false} OperatedKeepsSound(w: Pool, v: string, meets: seq<Meets>)
    requires Sound(w) && Ticking(meets)
    ensures Sound(Operated(w, v, meets))
    decreases |meets|
  {
    if meets != [] && v in w.operations {
      AdvanceKeepsPool(w, v, meets[0]);
      OperatedKeepsSound(Advances(w, v, meets[0]), v, meets[1..]);
    }
  }

  lemma OperationKeepsSound(w: Pool, v: string, meets: seq<Meets>)
    requires Sound(w) && Ticking(meets)
    ensures Sound(Dropped(Operated(w, v, meets)))
  {
    OperatedKeepsSound(w, v, meets);
    ForgottenKeepsSound(Operated(w, v, meets), Dropped(Operated(w, v, meets)));
  }

  lemma OperatedOnce(w: Pool, v: string, meets: seq<Meets>)
    requires meets != [] && v in w.operations
    ensures Operated(w, v, meets) == Operated(Advances(w, v, meets[0]), v, meets[1..])
  {
  }

  function Busy(w: Pool, v: string, op: Operation): Pool {
    w.(operations := map[v := op])
  }

  lemma EnsureRefused(w: Pool, q: Request, poolBytes: nat, now: nat, meets: seq<Meets>)
    requires w.operations == map[] && EnsureRefusal(LocalOf(w, q.identity.volume), q, poolBytes).Some?
    ensures Dropped(Operated(EnsureBegun(w, q, poolBytes, now), q.identity.volume, meets)) == w
  {
    hide EnsureRefusal;
  }

  lemma EnsureResumed(w: Pool, q: Request, poolBytes: nat, now: nat, meets: seq<Meets>)
    requires w.operations == map[] && EnsureRefusal(LocalOf(w, q.identity.volume), q, poolBytes).None?
    requires q.identity.volume in w.records
    ensures var v, r := q.identity.volume, w.records[q.identity.volume];
            Dropped(Operated(EnsureBegun(w, q, poolBytes, now), v, meets)) ==
            if AlreadyApplied(LocalOf(w, v), q) then w
            else Dropped(Operated(Busy(w, v, Ensuring(q, r, if r.applied then Accounting else Saving)), v, meets))
  {
    NothingToOperate(w, q.identity.volume, meets);
    hide EnsureRefusal, AlreadyApplied, Operated;
  }

  lemma BegunAllocates(w: Pool, q: Request, poolBytes: nat, now: nat)
    requires w.operations == map[] && EnsureRefusal(LocalOf(w, q.identity.volume), q, poolBytes).None?
    requires q.identity.volume !in w.records
    ensures var v, spent := q.identity.volume, w.(sequence := w.sequence + 1);
            EnsureBegun(w, q, poolBytes, now) ==
            if w.sequence + 1 > MAX_PROJECT then spent
            else Busy(spent, v, Ensuring(q, Accepted(q, w.sequence + 1, now), Saving))
  {
    hide EnsureRefusal, AlreadyApplied;
  }

  lemma EnsureAllocates(w: Pool, q: Request, poolBytes: nat, now: nat, meets: seq<Meets>)
    requires w.operations == map[] && EnsureRefusal(LocalOf(w, q.identity.volume), q, poolBytes).None?
    requires q.identity.volume !in w.records
    ensures var v, spent := q.identity.volume, w.(sequence := w.sequence + 1);
            Dropped(Operated(EnsureBegun(w, q, poolBytes, now), v, meets)) ==
            if w.sequence + 1 > MAX_PROJECT then spent
            else Dropped(Operated(Busy(spent, v, Ensuring(q, Accepted(q, w.sequence + 1, now), Saving)), v, meets))
  {
    hide EnsureRefusal, LocalOf, EnsureBegun, Operated, Busy, Accepted;
    BegunAllocates(w, q, poolBytes, now);
    NothingToOperate(w.(sequence := w.sequence + 1), q.identity.volume, meets);
  }

  // ----- An operation as its volume sees it -----

  /** What each effect meets, as far as the volume alone is concerned. */
  function Ticks(w: Pool, v: string, meets: seq<Meets>): (ticks: seq<Tick>)
    ensures |ticks| == |meets|
    decreases |meets|
  {
    if meets == [] then []
    else
      var tick := Tick(meets[0].now, Closes(w, v, meets[0]));
      [tick] + Ticks(if v in w.operations then Advances(w, v, meets[0]) else w, v, meets[1..])
  }

  lemma {:induction false} TicksAreClocked(w: Pool, v: string, meets: seq<Meets>)
    requires Ticking(meets)
    ensures Clocked(Ticks(w, v, meets))
    decreases |meets|
  {
    if meets != [] {
      TicksAreClocked(if v in w.operations then Advances(w, v, meets[0]) else w, v, meets[1..]);
      hide Advances, Closes;
    }
  }

  lemma AdvanceIsLocal(w: Pool, v: string, meets: Meets)
    requires Sound(w) && v in w.operations && !w.operations[v].Collecting? && meets.now > 0
    ensures LocalOf(Advances(w, v, meets), v) == Advanced(LocalOf(w, v), meets.now, Closes(w, v, meets))
    ensures var w' := Advances(w, v, meets); v in w'.operations ==> !w'.operations[v].Collecting?
  {
    var l, closed := LocalOf(w, v), Closes(w, v, meets);
    assert LocalSound(l, v);
    OperatedHasProject(w, v);
    EffectKeepsProject(l, v, meets.now, closed);
    EffectOnClosure(l, v, meets.now, closed);
    ProjectIsLocal(w, v);
    AdvanceRecord(w, v, meets);
    hide Sound, LocalSound, Advanced, LocalOf, J.Outcome, J.Captured, SampleOf, Closes;
    PutSelf(w, v, Advanced(l, meets.now, closed));
    MeteringIsElsewhere(Put(w, v, Advanced(l, meets.now, closed)), Advances(w, v, meets), v);
  }

  lemma MeteringIsElsewhere(w: Pool, w': Pool, v: string)
    requires w' == w.(journal := w'.journal, emitted := w'.emitted)
    ensures LocalOf(w', v) == LocalOf(w, v)
  {
  }

  /** What the whole pool does to one volume is what the volume's own effects do. */
  lemma {:induction false} OperatedIsDriven(w: Pool, v: string, meets: seq<Meets>)
    requires Sound(w) && Ticking(meets) && (v in w.operations ==> !w.operations[v].Collecting?)
    ensures LocalOf(Operated(w, v, meets), v) == Driven(LocalOf(w, v), Ticks(w, v, meets))
    decreases |meets|
  {
    var ticks := Ticks(w, v, meets);
    assert LocalOf(w, v).operation == J.Lookup(w.operations, v);
    if meets != [] && v in w.operations {
      AdvanceIsLocal(w, v, meets[0]);
      AdvanceKeepsPool(w, v, meets[0]);
      var w1 := Advances(w, v, meets[0]);
      hide Sound, LocalOf, Advances, Advanced, Closes;
      OperatedIsDriven(w1, v, meets[1..]);
      assert ticks[0] == Tick(meets[0].now, Closes(w, v, meets[0])) && ticks[1..] == Ticks(w1, v, meets[1..]);
    }
  }

  /** The volume reads as the request wants it. */
  predicate Fulfilled(l: Local, q: Request) {
    var read := ReadVolume(l, q.identity);
    read.Success? && read.value.ready && read.value.capacity == q.capacity && read.value.revision == q.revision
  }

  lemma DropIsElsewhere(w: Pool, v: string)
    requires LocalOf(w, v).operation.None?
    ensures LocalOf(Dropped(w), v) == LocalOf(w, v)
  {
  }

  lemma AppliedIsFulfilled(l: Local, volume: string, q: Request, poolBytes: nat)
    requires LocalSound(l, volume) && EnsureRefusal(l, q, poolBytes).None? && AlreadyApplied(l, q)
    ensures Fulfilled(l, q)
  {
  }

  /** The project of a request's volume: its record's, whatever is given, or the next one. */
  function NextProject(w: Pool, v: string): nat {
    if v in w.records then 1 else w.sequence + 1
  }

  lemma BegunVolume(w: Pool, q: Request, poolBytes: nat, now: nat)
    requires Sound(w) && w.operations == map[] && EnsureRefusal(LocalOf(w, q.identity.volume), q, poolBytes).None?
    requires !AlreadyApplied(LocalOf(w, q.identity.volume), q)
    requires q.identity.volume in w.records || w.sequence < MAX_PROJECT
    ensures var v, w' := q.identity.volume, EnsureBegun(w, q, poolBytes, now);
            var l := LocalOf(w, v);
            && v in w'.operations && !w'.operations[v].Collecting?
            && LocalOf(w', v) == l.(operation := Some(EnsureOperation(l, q, NextProject(w, v), now)))
  {
    var v := q.identity.volume;
    var l := LocalOf(w, v);
    if v !in w.records {
      AllocationShape(w, v, EnsureOperation(l, q, w.sequence + 1, now));
      NoRecordNoQuota(w, v);
    }
    hide Sound, EnsureRefusal, AlreadyApplied;
  }

  lemma NoRecordNoQuota(w: Pool, v: string)
    requires Sound(w) && v !in w.operations && v !in w.records
    ensures LocalOf(w, v) == Local(None, NO_QUOTA, J.Lookup(w.directories, v), None)
  {
  }

  lemma FulfilledByDriving(
    l: Local, volume: string, q: Request, poolBytes: nat, project: nat, now: nat, ticks: seq<Tick>)
    requires LocalSound(l, volume) && l.operation.None? && now > 0 && q.identity.volume == volume
    requires EnsureRefusal(l, q, poolBytes).None? && Prepared(l) && 0 < project <= MAX_PROJECT
    requires Clocked(ticks) && |ticks| >= 8
    ensures var done := Driven(l.(operation := Some(EnsureOperation(l, q, project, now))), ticks);
            done.operation.None? && Fulfilled(done, q)
  {
    hide Driven, ReadVolume, EnsureRefusal;
    EnsureReachesReady(l, volume, q, poolBytes, project, now, ticks);
  }

  /** An admissible request on a prepared volume that is not cut short fulfils itself. */
  lemma AdmissibleIsFulfilled(w: Pool, q: Request, poolBytes: nat, now: nat, meets: seq<Meets>)
    requires Sound(w) && w.operations == map[] && |q.identity.volume| == VOLUME_LENGTH
    requires now > 0 && Ticking(meets) && |meets| >= 8
    requires Wanted(w, q, poolBytes)
    ensures EnsureRefusal(LocalOf(w, q.identity.volume), q, poolBytes).None?
    ensures var v := q.identity.volume;
            Fulfilled(LocalOf(Dropped(Operated(EnsureBegun(w, q, poolBytes, now), v, meets)), v), q)
  {
    var v := q.identity.volume;
    var l := LocalOf(w, v);
    var begun := EnsureBegun(w, q, poolBytes, now);
    assert LocalSound(l, v) && l.operation.None?;
    AdmittedIffAdmissible(l, q, poolBytes);
    hide Operated, EnsureBegun, Fulfilled, Ticks, Prepared, Admissible, EnsureRefusal, Sound, LocalSound,
         AlreadyApplied;
    if AlreadyApplied(l, q) {
      AppliedIsFulfilled(l, v, q, poolBytes);
      EnsureApplied(w, q, poolBytes, now, meets);
    } else {
      BegunVolume(w, q, poolBytes, now);
      EnsureBegunKeepsSound(w, q, poolBytes, now);
      hide LocalOf;
      OperatedIsDriven(begun, v, meets);
      TicksAreClocked(begun, v, meets);
      FulfilledByDriving(l, v, q, poolBytes, NextProject(w, v), now, Ticks(begun, v, meets));
      DropIsElsewhere(Operated(begun, v, meets), v);
    }
  }

  lemma EnsureApplied(w: Pool, q: Request, poolBytes: nat, now: nat, meets: seq<Meets>)
    requires w.operations == map[] && AlreadyApplied(LocalOf(w, q.identity.volume), q)
    ensures Dropped(Operated(EnsureBegun(w, q, poolBytes, now), q.identity.volume, meets)) == w
  {
    hide EnsureRefusal;
  }

  /** The request is admissible, its volume is prepared, and there is an identifier for it. */
  predicate Wanted(w: Pool, q: Request, poolBytes: nat) {
    var v := q.identity.volume;
    && Admissible(J.Lookup(w.records, v), J.Lookup(w.directories, v), q, poolBytes)
    && Prepared(LocalOf(w, v)) && (v in w.records || w.sequence < MAX_PROJECT)
  }

  // ----- What single effects change in the pool -----

  predicate Sole(w: Pool, v: string, op: Operation) {
    w.operations == map[v := op]
  }

  lemma SetBack<K, V>(m: map<K, V>, k: K)
    ensures Set(m, k, J.Lookup(m, k)) == m
  {
  }

  lemma EnsureEffect(w: Pool, v: string, q: Request, r: Record, stage: EnsureStage, meets: Meets)
    requires Sole(w, v, Ensuring(q, r, stage)) && r.project > 0
    ensures var quota, now := QuotaOf(w, r.project), meets.now;
            Advances(w, v, meets) ==
            match stage
            case Accounting =>
              Metered(w.(operations := map[v := Ensuring(q, r, Saving)]), r.request.identity, r.project,
                      RetainedSample(r, quota, true, now, meets.clock), meets)
            case Saving =>
              var saved := r.(request := q, applied := false);
              w.(records := w.records[v := saved], operations := map[v := Ensuring(q, saved, Setting)])
            case Confirming =>
              w.(records := w.records[v := r], operations := map[v := Ensuring(q, r, Reporting)])
            case Reporting =>
              Metered(w.(operations := map[]), r.request.identity, r.project,
                      RetainedSample(r, quota, true, now, meets.clock), meets)
            case _ => Put(w, v, Ensured(LocalOf(w, v), q, r, stage, now))
  {
    var l := LocalOf(w, v);
    assert l.operation == Some(Ensuring(q, r, stage)) && !Closes(w, v, meets);
    SetBack(w.records, v);
    SetBack(w.directories, v);
    assert map[v := Ensuring(q, r, stage)] - {v} == map[];
    hide J.Captured, J.Outcome;
  }

  lemma SettingEffect(w: Pool, v: string, q: Request, r: Record, meets: Meets)
    requires Sole(w, v, Ensuring(q, r, Setting)) && r.project > 0
    ensures var quota := QuotaOf(w, r.project);
            Advances(w, v, meets) ==
            if quota.limit > q.capacity then Dropped(w)
            else if quota.limit == q.capacity then w.(operations := map[v := Ensuring(q, r, AssigningWorkspace)])
            else w.(kernel := w.kernel[r.project := quota.(limit := q.capacity)],
                    operations := map[v := Ensuring(q, r, AssigningWorkspace)])
  {
    EnsureEffect(w, v, q, r, Setting, meets);
    SetBack(w.records, v);
    SetBack(w.directories, v);
    hide Advances, Advanced;
  }

  /** Writes back a tree that now belongs to the project; it cost an inode unless it did before. */
  function TreeAssigned(w: Pool, v: string, d: Directory, project: nat, taken: bool): Pool {
    var quota := QuotaOf(w, project);
    w.(directories := w.directories[v := d],
       kernel := if taken then w.kernel[project := quota.(inodes := quota.inodes + 1)] else w.kernel)
  }

  /** The pool after the workspace tree was taken for the project, unless it cannot be. */
  function WorkspaceTaken(w: Pool, v: string, project: nat): Option<Pool> {
    if v !in w.directories then None
    else
      var d := w.directories[v];
      if d.workspace != project && (d.workspace != 0 || !d.workspaceEmpty) then None
      else Some(TreeAssigned(w, v, d.(workspace := project), project, d.workspace != project))
  }

  function StagingTaken(w: Pool, v: string, project: nat): Option<Pool> {
    if v !in w.directories then None
    else
      var d := w.directories[v];
      if d.staging != project && (d.staging != 0 || !d.stagingEmpty) then None
      else Some(TreeAssigned(w, v, d.(staging := project), project, d.staging != project))
  }

  lemma WorkspaceEffect(w: Pool, v: string, q: Request, r: Record, meets: Meets)
    requires w.operations == map[] && r.project > 0
    ensures var taken := WorkspaceTaken(w, v, r.project);
            Advances(Busy(w, v, Ensuring(q, r, AssigningWorkspace)), v, meets) ==
            if taken.None? then w else Busy(taken.value, v, Ensuring(q, r, AssigningStaging))
  {
    var busy := Busy(w, v, Ensuring(q, r, AssigningWorkspace));
    EnsureEffect(busy, v, q, r, AssigningWorkspace, meets);
    SetBack(w.records, v);
    SetBack(w.directories, v);
    hide Advanced, Advances;
  }

  lemma WorkspaceTurn(w: Pool, v: string, q: Request, r: Record, meets: seq<Meets>)
    requires w.operations == map[] && r.project > 0 && meets != []
    ensures var taken := WorkspaceTaken(w, v, r.project);
            Operated(Busy(w, v, Ensuring(q, r, AssigningWorkspace)), v, meets) ==
            if taken.None? then w else Operated(Busy(taken.value, v, Ensuring(q, r, AssigningStaging)), v, meets[1..])
  {
    hide Advances, WorkspaceTaken;
    WorkspaceEffect(w, v, q, r, meets[0]);
  }

  lemma StagingEffect(w: Pool, v: string, q: Request, r: Record, meets: Meets)
    requires w.operations == map[] && r.project > 0
    ensures var taken := StagingTaken(w, v, r.project);
            Advances(Busy(w, v, Ensuring(q, r, AssigningStaging)), v, meets) ==
            if taken.None? then w else Busy(taken.value, v, Ensuring(q, r, Publishing))
  {
    var busy := Busy(w, v, Ensuring(q, r, AssigningStaging));
    EnsureEffect(busy, v, q, r, AssigningStaging, meets);
    SetBack(w.records, v);
    SetBack(w.directories, v);
    hide Advanced, Advances;
  }

  lemma StagingTurn(w: Pool, v: string, q: Request, r: Record, meets: seq<Meets>)
    requires w.operations == map[] && r.project > 0 && meets != []
    ensures var taken := StagingTaken(w, v, r.project);
            Operated(Busy(w, v, Ensuring(q, r, AssigningStaging)), v, meets) ==
            if taken.None? then w else Operated(Busy(taken.value, v, Ensuring(q, r, Publishing)), v, meets[1..])
  {
    hide Advances, StagingTaken;
    StagingEffect(w, v, q, r, meets[0]);
  }

  lemma PublishingEffect(w: Pool, v: string, q: Request, r: Record, meets: Meets)
    requires Sole(w, v, Ensuring(q, r, Publishing)) && r.project > 0
    ensures Advances(w, v, meets) ==
            if v !in w.directories || QuotaOf(w, r.project).limit != q.capacity then Dropped(w)
            else
              var d := w.directories[v];
              var since := EnforcedSince(d, r, meets.now);
              if since.None? then Dropped(w)
              else
                w.(directories := w.directories[v := d.(marker := Some(Marker(r.request.identity, r.project,
                    since.value)))],
                   operations := map[v := Ensuring(q, r.(enforcedAt := since.value, applied := true), Confirming)])
  {
    EnsureEffect(w, v, q, r, Publishing, meets);
    SetBack(w.records, v);
    SetBack(w.directories, v);
    hide Advances, Advanced;
  }

  lemma ReleaseEffect(w: Pool, v: string, r: Record, phase: ReleaseStage, meets: Meets)
    requires Sole(w, v, Releasing(r, phase)) && v in w.records && w.records[v].project == r.project > 0
    requires phase != Closing
    ensures var quota := QuotaOf(w, r.project);
            Advances(w, v, meets) ==
            match phase
            case Recording => w.(records := w.records[v := r], operations := map[v := Releasing(r, Zeroing)])
            case Zeroing =>
              w.(kernel := if quota.limit == 0 then w.kernel else w.kernel[r.project := quota.(limit := 0)],
                 operations := map[v := Releasing(r, Finishing)])
            case _ =>
              var done := r.(released := true, releasedAt := meets.now);
              w.(records := w.records[v := done], operations := map[v := Releasing(done, Closing)])
  {
    var l := LocalOf(w, v);
    assert l.operation == Some(Releasing(r, phase)) && !Closes(w, v, meets);
    SetBack(w.records, v);
    SetBack(w.directories, v);
    hide J.Captured, J.Outcome;
  }

  lemma ClosingEffect(w: Pool, v: string, r: Record, meets: Meets)
    requires Sole(w, v, Releasing(r, Closing)) && v in w.records && w.records[v] == r && r.project > 0
    ensures var sample := TerminalSample(r, meets.now, meets.clock);
            var out := J.Outcome(w.journal, sample, meets.eventId, meets.io);
            Advances(w, v, meets) ==
            Metered(w.(operations := map[],
                       records := if out.Success? then w.records[v := r.(meteringClosed := true)] else w.records),
                    r.request.identity, r.project, sample, meets)
  {
    var l := LocalOf(w, v);
    assert l.operation == Some(Releasing(r, Closing)) && AtClosing(l);
    SetBack(w.records, v);
    SetBack(w.directories, v);
    assert map[v := Releasing(r, Closing)] - {v} == map[];
    hide J.Captured, J.Outcome;
  }

  lemma SampleEffect(w: Pool, v: string, r: Record, step: SampleStage, meets: Meets)
    requires Sole(w, v, Sampling(r, step)) && v in w.records && w.records[v] == r && r.project > 0
    ensures var l := LocalOf(w, v);
            var read := ReadVolume(l, r.request.identity);
            Advances(w, v, meets) ==
            match step
            case Adopting =>
              var next := Sampled(l, r, Adopting);
              w.(records := w.records[v := next.record.value], operations := map[v := next.operation.value])
            case Observing(adopted) =>
              Metered(w.(operations := map[]), r.request.identity, r.project,
                      RetainedSample(r, l.quota, adopted && read.Success?
                          && read.value.ready, meets.now, meets.clock), meets)
  {
    var l := LocalOf(w, v);
    assert l.operation == Some(Sampling(r, step)) && l.record == Some(r) && !Closes(w, v, meets);
    SetBack(w.records, v);
    SetBack(w.directories, v);
    assert w.records[v := r] == w.records;
    assert map[v := Sampling(r, step)] - {v} == map[];
    hide J.Captured, J.Outcome;
  }

  class Manager {
    const journal: J.Journal
    var records: map<string, Record>
    var directories: map<string, Directory>
    var kernel: map<nat, Quota>
    var sequence: nat
    ghost var emitted: seq<Emission>
    ghost var acknowledged: set<nat>

    ghost function During(operations: map<string, Operation>): Pool
      reads this, journal
    {
      Pool(records, directories, operations, kernel, sequence, journal.Contents(), emitted, acknowledged)
    }

    ghost function Contents(): Pool
      reads this, journal
    {
      During(map[])
    }

    ghost predicate Valid()
      reads this, journal
    {
      Sound(Contents())
    }

    constructor (journal: J.Journal, records: map<string, Record>, directories: map<string, Directory>,
                 kernel: map<nat, Quota>, sequence: nat, ghost history: Pool)
      requires history == Pool(records, directories, map[], kernel, sequence, journal.Contents(),
                               history.emitted, history.acknowledged)
      requires Sound(history)
      ensures Valid() && this.journal == journal && Contents() == history
    {
      this.journal, this.records, this.directories := journal, records, directories;
      this.kernel, this.sequence := kernel, sequence;
      emitted, acknowledged := history.emitted, history.acknowledged;
    }

    method ReadQuota(project: nat) returns (quota: Quota)
      ensures quota == QuotaOf(Contents(), project)
    {
      return if project in kernel then kernel[project] else NO_QUOTA;
    }

    /** The journal's transaction, noted in the history. */
    method Submit(i: VolumeIdentity, project: nat, sample: J.Sample, meets: Meets) returns (committed: bool)
      requires journal.Valid()
      modifies journal, this`emitted
      ensures journal.Valid()
      ensures Contents() == Metered(old(Contents()), i, project, sample, meets)
      ensures committed == J.Outcome(old(journal.Contents()), sample, meets.eventId, meets.io).Success?
    {
      var result := journal.CaptureAndUpdate(sample, meets.eventId, meets.io);
      committed := result.Success?;
      if committed && result.value.Some? {
        emitted := emitted + [Emission(i, project, result.value.value)];
      }
    }

    method Capture(r: Record, retained: bool, meets: Meets)
      requires journal.Valid()
      modifies journal, this`emitted
      ensures journal.Valid()
      ensures Contents() == Metered(old(Contents()), r.request.identity, r.project,
                                    RetainedSample(r, old(QuotaOf(Contents(), r.project)), retained, meets.now,
                                        meets.clock), meets)
    {
      var quantity, state := r.request.capacity, if retained then Retained else Unknown;
      if state == Retained {
        var quota := ReadQuota(r.project);
        if quota.limit == 0 {
          state := Unknown;
        } else {
          quantity := quota.limit;
        }
      }
      var start := if r.enforcedAt > 0 then r.enforcedAt else r.acceptedAt;
      var committed := Submit(
        r.request.identity, r.project,
        J.Sample(ResourceOf(r.request.identity), Quantity(Workspace, 0, 0, quantity), r.request.identity.generation,
                 state, meets.now, meets.clock, 0, 0, None, start),
        meets);
    }

    // ----- Ensure -----

    /** The request's own directory, and a record that stands for the request. */
    ghost predicate Holding(q: Request, r: Record)
      reads this
    {
      && q.identity.volume in directories && directories[q.identity.volume].generation == q.identity.generation
      && q.capacity > 0 && r.project > 0 && r.request.identity == q.identity
    }

    /** The limit and the marker are those that the record is about to claim. */
    ghost predicate Enforced(q: Request, r: Record)
      reads this, journal
    {
      && Holding(q, r) && r.request == q && r.applied && r.enforcedAt > 0
      && QuotaOf(Contents(), r.project).limit == q.capacity
      && directories[q.identity.volume].marker == Some(Marker(q.identity, r.project, r.enforcedAt))
    }

    /** What a caller that was told `ready` would read. */
    ghost predicate ReadsReady(q: Request)
      reads this, journal
    {
      Fulfilled(LocalOf(Contents(), q.identity.volume), q)
    }

    method Ensure(q: Request, poolBytes: nat, now: nat, meets: seq<Meets>) returns (ready: bool)
      requires Valid() && |q.identity.volume| == VOLUME_LENGTH && now > 0 && Ticking(meets)
      modifies this, journal
      ensures Valid()
      ensures Contents() == Dropped(Operated(EnsureBegun(old(Contents()), q, poolBytes, now), q.identity.volume, meets))
      ensures ready ==> ReadsReady(q)
      ensures |meets| >= 8 ==>
                (ready <==>
                   EnsureRefusal(old(LocalOf(Contents(), q.identity.volume)), q, poolBytes).None? && ReadsReady(q))
      ensures |meets| >= 8 && Wanted(old(Contents()), q, poolBytes) ==> ready && ReadsReady(q)
    {
      var v := q.identity.volume;
      ghost var w := Contents();
      EnsureBegunKeepsSound(w, q, poolBytes, now);
      OperationKeepsSound(EnsureBegun(w, q, poolBytes, now), v, meets);
      RecordedProject(w, v);
      if |meets| >= 8 && Wanted(w, q, poolBytes) {
        AdmissibleIsFulfilled(w, q, poolBytes, now, meets);
      }
      assert journal.Valid();
      hide Sound, Operated, Wanted, Fulfilled, EnsureRefusal, EnsureBegun, LocalOf;
      ready := AdmitRequest(q, poolBytes, now, meets);
    }

    /** The request is malformed, or contradicts what was accepted before. */
    method Refuses(q: Request, poolBytes: nat) returns (refused: bool)
      ensures refused == EnsureRefusal(LocalOf(Contents(), q.identity.volume), q, poolBytes).Some?
    {
      var v := q.identity.volume;
      if q.revision == 0 || q.revision > SAFE_MAXIMUM || q.capacity < BLOCK || q.capacity > SAFE_MAXIMUM
         || q.capacity % BLOCK != 0 || q.capacity > poolBytes || v !in directories
         || directories[v].generation != q.identity.generation
      {
        return true;
      }
      if v !in records {
        return false;
      }
      var r := records[v];
      return r.request.identity != q.identity || r.released || q.revision < r.request.revision
             || (q.revision == r.request.revision && q.capacity != r.request.capacity)
             || q.capacity < r.request.capacity;
    }

    /** An earlier call already did all of it. */
    method IsApplied(q: Request, r: Record) returns (applied: bool)
      requires q.identity.volume in records && records[q.identity.volume] == r
      requires Holding(q, r) && (r.request.revision == q.revision ==> r.request.capacity == q.capacity)
      requires r.applied ==> r.enforcedAt > 0
      ensures applied == AlreadyApplied(LocalOf(Contents(), q.identity.volume), q)
      ensures applied ==> ReadsReady(q)
    {
      var quota := ReadQuota(r.project);
      return r.applied && r.request.revision == q.revision
             && directories[q.identity.volume].marker == Some(Marker(r.request.identity, r.project, r.enforcedAt))
             && quota.limit == q.capacity;
    }

    method AdmitRequest(q: Request, poolBytes: nat, now: nat, meets: seq<Meets>) returns (ready: bool)
      requires journal.Valid() && now > 0 && Ticking(meets)
      requires q.identity.volume in records ==>
                 RecordSound(records[q.identity.volume], q.identity.volume)
      modifies this, journal
      ensures Contents() == Dropped(Operated(EnsureBegun(old(Contents()), q, poolBytes, now), q.identity.volume, meets))
      ensures ready ==> ReadsReady(q)
      ensures |meets| >= 8 ==>
                (ready <==>
                   EnsureRefusal(old(LocalOf(Contents(), q.identity.volume)), q, poolBytes).None? && ReadsReady(q))
    {
      hide ReadVolume, Fulfilled, EnsureBegun, LocalOf, EnsureRefusal, AlreadyApplied, Operated, Dropped, Busy,
           Accepted;
      ghost var w := Contents();
      var refused := Refuses(q, poolBytes);
      if refused {
        EnsureRefused(w, q, poolBytes, now, meets);
        return false;
      }
      HeldIfAdmitted(w, q, poolBytes);
      if q.identity.volume !in records {
        EnsureAllocates(w, q, poolBytes, now, meets);
        ready := Allocate(q, now, meets);
      } else {
        EnsureResumed(w, q, poolBytes, now, meets);
        ready := Resume(q, records[q.identity.volume], meets);
      }
    }

    /** A known volume needs nothing, or is brought to the request. */
    method Resume(q: Request, r: Record, meets: seq<Meets>) returns (ready: bool)
      requires journal.Valid() && Ticking(meets) && J.Lookup(records, q.identity.volume) == Some(r)
      requires Holding(q, r) && (r.request.revision == q.revision ==> r.request.capacity == q.capacity)
      requires r.applied ==> r.enforcedAt > 0
      modifies this, journal
      ensures Contents() == if AlreadyApplied(old(LocalOf(Contents(), q.identity.volume)), q) then old(Contents())
                            else Dropped(Operated(Busy(old(Contents()), q.identity.volume,
                                                       Ensuring(q, r, if r.applied then Accounting else Saving)),
                                                  q.identity.volume, meets))
      ensures ready ==> ReadsReady(q)
      ensures |meets| >= 8 ==> (ready <==> ReadsReady(q))
    {
      hide Operated, ReadVolume, Fulfilled, LocalOf, AlreadyApplied;
      ready := IsApplied(q, r);
      if !ready {
        ready := Start(q, r, meets);
      }
    }

    /** A first request gets the next project identifier, which is spent even if it is out of range. */
    method Allocate(q: Request, now: nat, meets: seq<Meets>) returns (ready: bool)
      requires journal.Valid() && Ticking(meets) && q.capacity > 0 && q.identity.volume !in records
      requires q.identity.volume in directories && directories[q.identity.volume].generation == q.identity.generation
      modifies this, journal
      ensures var spent := old(Contents()).(sequence := old(sequence) + 1);
              Contents() == if old(sequence) + 1 > MAX_PROJECT then spent
                            else Dropped(Operated(Busy(spent, q.identity.volume,
                                                       Ensuring(q, Accepted(q, old(sequence) + 1, now), Saving)),
                                                  q.identity.volume, meets))
      ensures ready ==> ReadsReady(q)
      ensures |meets| >= 8 ==> (ready <==> ReadsReady(q))
    {
      hide Operated, ReadVolume, Fulfilled, LocalOf, Dropped;
      sequence := sequence + 1;
      if sequence > MAX_PROJECT {
        UnappliedIsNotReady(Contents(), q);
        return false;
      }
      ready := Start(q, Accepted(q, sequence, now), meets);
    }

    method Start(q: Request, r: Record, meets: seq<Meets>) returns (ready: bool)
      requires journal.Valid() && Holding(q, r) && Ticking(meets)
      modifies this, journal
      ensures Contents() == Dropped(Operated(old(At(q, r, if r.applied then Accounting else Saving)),
              q.identity.volume, meets))
      ensures ready ==> ReadsReady(q)
      ensures |meets| >= 8 ==> (ready <==> ReadsReady(q))
    {
      if r.applied {
        ready := AccountStage(q, r, meets);
      } else {
        ready := SaveStage(q, r, meets);
      }
    }

    /** The pool while this request is at `stage`. */
    ghost function At(q: Request, r: Record, stage: EnsureStage): Pool
      reads this, journal
    {
      During(map[q.identity.volume := Ensuring(q, r, stage)])
    }

    method AccountStage(q: Request, r: Record, meets: seq<Meets>) returns (ready: bool)
      requires journal.Valid() && Holding(q, r) && Ticking(meets)
      modifies this, journal
      ensures Contents() == Dropped(Operated(old(At(q, r, Accounting)), q.identity.volume, meets))
      ensures ready ==> ReadsReady(q)
      ensures |meets| >= 8 ==> (ready <==> ReadsReady(q))
    {
      if |meets| == 0 {
        return false;
      }
      OperatedOnce(At(q, r, Accounting), q.identity.volume, meets);
      EnsureEffect(At(q, r, Accounting), q.identity.volume, q, r, Accounting, meets[0]);
      hide Operated, Advances, Sole, ReadVolume, Fulfilled, LocalOf, Metered;
      Capture(r, true, meets[0]);
      ready := SaveStage(q, r, meets[1..]);
    }

    method SaveStage(q: Request, r: Record, meets: seq<Meets>) returns (ready: bool)
      requires journal.Valid() && Holding(q, r) && Ticking(meets)
      modifies this, journal
      ensures Contents() == Dropped(Operated(old(At(q, r, Saving)), q.identity.volume, meets))
      ensures ready ==> ReadsReady(q)
      ensures |meets| >= 7 ==> (ready <==> ReadsReady(q))
    {
      if |meets| == 0 {
        return false;
      }
      OperatedOnce(At(q, r, Saving), q.identity.volume, meets);
      EnsureEffect(At(q, r, Saving), q.identity.volume, q, r, Saving, meets[0]);
      hide Operated, Advances, Sole, ReadVolume, Fulfilled, LocalOf, Metered;
      var saved := r.(request := q, applied := false);
      records := records[q.identity.volume := saved];
      ready := SetStage(q, saved, meets[1..]);
    }

    /** A nonzero limit comes before any inode of the project. */
    method SetStage(q: Request, r: Record, meets: seq<Meets>) returns (ready: bool)
      requires journal.Valid() && Holding(q, r) && r.request == q && Ticking(meets)
      requires J.Lookup(records, q.identity.volume) == Some(r) && !r.applied
      modifies this, journal
      ensures Contents() == Dropped(Operated(old(At(q, r, Setting)), q.identity.volume, meets))
      ensures ready ==> ReadsReady(q)
      ensures |meets| >= 6 ==> (ready <==> ReadsReady(q))
    {
      if |meets| == 0 {
        return false;
      }
      OperatedOnce(At(q, r, Setting), q.identity.volume, meets);
      SettingEffect(At(q, r, Setting), q.identity.volume, q, r, meets[0]);
      hide Operated, Advances, Sole, ReadVolume, Fulfilled, LocalOf, Metered;
      var quota := ReadQuota(r.project);
      if quota.limit > q.capacity {
        UnappliedIsNotReady(Contents(), q);
        return false;
      }
      if quota.limit != q.capacity {
        kernel := kernel[r.project := quota.(limit := q.capacity)];
      }
      ready := WorkspaceStage(q, r, meets[1..]);
    }

    /** Takes an empty tree for the project; a tree of the project is taken already. */
    method AssignTree(tree: nat, vacant: bool, project: nat) returns (ok: bool)
      modifies this`kernel
      ensures ok <==> tree == project || (tree == 0 && vacant)
      ensures kernel == if ok && tree != project
                        then old(kernel)[project := old(QuotaOf(Contents(),
                            project)).(inodes := old(QuotaOf(Contents(), project)).inodes + 1)]
                        else old(kernel)
    {
      if tree == project {
        return true;
      }
      if tree != 0 || !vacant {
        return false;
      }
      var quota := ReadQuota(project);
      kernel := kernel[project := quota.(inodes := quota.inodes + 1)];
      return true;
    }

    method TakeWorkspace(v: string, project: nat) returns (ok: bool)
      modifies this`kernel, this`directories
      ensures var taken := old(WorkspaceTaken(Contents(), v, project));
              ok == taken.Some? && Contents() == if ok then taken.value else old(Contents())
      ensures ok ==> v in directories && directories[v].generation == old(directories)[v].generation
    {
      if v !in directories {
        return false;
      }
      var d := directories[v];
      ok := AssignTree(d.workspace, d.workspaceEmpty, project);
      if ok {
        directories := directories[v := d.(workspace := project)];
      }
    }

    method TakeStaging(v: string, project: nat) returns (ok: bool)
      modifies this`kernel, this`directories
      ensures var taken := old(StagingTaken(Contents(), v, project));
              ok == taken.Some? && Contents() == if ok then taken.value else old(Contents())
      ensures ok ==> v in directories && directories[v].generation == old(directories)[v].generation
    {
      if v !in directories {
        return false;
      }
      var d := directories[v];
      ok := AssignTree(d.staging, d.stagingEmpty, project);
      if ok {
        directories := directories[v := d.(staging := project)];
      }
    }

    method WorkspaceStage(q: Request, r: Record, meets: seq<Meets>) returns (ready: bool)
      requires journal.Valid() && Holding(q, r) && r.request == q && Ticking(meets)
      requires J.Lookup(records, q.identity.volume) == Some(r) && !r.applied
      modifies this, journal
      ensures Contents() == Dropped(Operated(old(At(q, r, AssigningWorkspace)), q.identity.volume, meets))
      ensures ready ==> ReadsReady(q)
      ensures |meets| >= 5 ==> (ready <==> ReadsReady(q))
    {
      if |meets| == 0 {
        return false;
      }
      WorkspaceTurn(Contents(), q.identity.volume, q, r, meets);
      hide Operated, ReadVolume, Fulfilled, LocalOf, WorkspaceTaken;
      var ok := TakeWorkspace(q.identity.volume, r.project);
      if !ok {
        UnappliedIsNotReady(Contents(), q);
        return false;
      }
      ready := StagingStage(q, r, meets[1..]);
    }

    method StagingStage(q: Request, r: Record, meets: seq<Meets>) returns (ready: bool)
      requires journal.Valid() && Holding(q, r) && r.request == q && Ticking(meets)
      requires J.Lookup(records, q.identity.volume) == Some(r) && !r.applied
      modifies this, journal
      ensures Contents() == Dropped(Operated(old(At(q, r, AssigningStaging)), q.identity.volume, meets))
      ensures ready ==> ReadsReady(q)
      ensures |meets| >= 4 ==> (ready <==> ReadsReady(q))
    {
      if |meets| == 0 {
        return false;
      }
      StagingTurn(Contents(), q.identity.volume, q, r, meets);
      hide Operated, ReadVolume, Fulfilled, LocalOf, StagingTaken;
      var ok := TakeStaging(q.identity.volume, r.project);
      if !ok {
        UnappliedIsNotReady(Contents(), q);
        return false;
      }
      ready := PublishStage(q, r, meets[1..]);
    }

    /** The marker is published only when the kernel really has the requested limit. */
    method PublishStage(q: Request, r: Record, meets: seq<Meets>) returns (ready: bool)
      requires journal.Valid() && Holding(q, r) && r.request == q && Ticking(meets)
      requires J.Lookup(records, q.identity.volume) == Some(r) && !r.applied
      modifies this, journal
      ensures Contents() == Dropped(Operated(old(At(q, r, Publishing)), q.identity.volume, meets))
      ensures ready ==> ReadsReady(q)
      ensures |meets| >= 3 ==> (ready <==> ReadsReady(q))
    {
      var v := q.identity.volume;
      if |meets| == 0 {
        return false;
      }
      OperatedOnce(At(q, r, Publishing), v, meets);
      PublishingEffect(At(q, r, Publishing), v, q, r, meets[0]);
      hide Operated, Advances, Sole, ReadVolume, Fulfilled, LocalOf, Metered;
      var quota := ReadQuota(r.project);
      if v !in directories || quota.limit != q.capacity {
        UnappliedIsNotReady(Contents(), q);
        return false;
      }
      var d := directories[v];
      var since;
      if d.marker.Some? {
        var m := d.marker.value;
        if m.identity != r.request.identity || m.enforcedAt == 0 || m.project != r.project
           || (r.enforcedAt != 0 && r.enforcedAt != m.enforcedAt)
        {
          UnappliedIsNotReady(Contents(), q);
          return false;
        }
        since := m.enforcedAt;
      } else {
        since := if r.enforcedAt == 0 then meets[0].now else r.enforcedAt;
      }
      directories := directories[v := d.(marker := Some(Marker(r.request.identity, r.project, since)))];
      ready := ConfirmStage(q, r.(enforcedAt := since, applied := true), meets[1..]);
    }

    method ConfirmStage(q: Request, r: Record, meets: seq<Meets>) returns (ready: bool)
      requires journal.Valid() && Enforced(q, r) && Ticking(meets)
      modifies this, journal
      ensures Contents() == Dropped(Operated(old(At(q, r, Confirming)), q.identity.volume, meets))
      ensures ready ==> ReadsReady(q)
      ensures |meets| >= 2 ==> (ready <==> ReadsReady(q))
    {
      if |meets| == 0 {
        return false;
      }
      OperatedOnce(At(q, r, Confirming), q.identity.volume, meets);
      EnsureEffect(At(q, r, Confirming), q.identity.volume, q, r, Confirming, meets[0]);
      hide Operated, Advances, Sole, ReadVolume, Fulfilled, LocalOf, Metered;
      records := records[q.identity.volume := r];
      ready := ReportStage(q, r, meets[1..]);
    }

    method ReportStage(q: Request, r: Record, meets: seq<Meets>) returns (ready: bool)
      requires journal.Valid() && Enforced(q, r) && J.Lookup(records, q.identity.volume) == Some(r) && Ticking(meets)
      modifies this, journal
      ensures Contents() == Dropped(Operated(old(At(q, r, Reporting)), q.identity.volume, meets))
      ensures ready ==> ReadsReady(q)
      ensures |meets| >= 1 ==> (ready <==> ReadsReady(q))
    {
      if |meets| == 0 {
        return false;
      }
      OperatedOnce(At(q, r, Reporting), q.identity.volume, meets);
      EnsureEffect(At(q, r, Reporting), q.identity.volume, q, r, Reporting, meets[0]);
      hide Advances, Sole, Metered;
      Capture(r, true, meets[0]);
      return true;
    }

    // ----- Release -----

    ghost function Releases(r: Record, phase: ReleaseStage): Pool
      reads this, journal
    {
      During(map[r.request.identity.volume := Releasing(r, phase)])
    }

    ghost predicate Known(r: Record)
      reads this
    {
      r.request.identity.volume in records && records[r.request.identity.volume].project == r.project > 0
    }

    method Release(i: VolumeIdentity, now: nat, meets: seq<Meets>) returns (error: Option<Error>)
      requires Valid() && now > 0 && Ticking(meets)
      modifies this, journal
      ensures Valid()
      ensures error != Some(IdentityUnconfirmed)
      ensures error == ReleaseRefusal(LocalOf(old(Contents()), i.volume), i)
      ensures error.None? <==>
                && i.volume !in old(directories) && i.volume in old(records)
                && var r := old(records)[i.volume];
                && r.request.identity == i && !r.released
                && old(QuotaOf(Contents(), r.project)).used == 0 && old(QuotaOf(Contents(), r.project)).inodes == 0
      ensures error.None? && |meets| >= 4 ==>
                var l := LocalOf(Contents(), i.volume);
                l.record.Some? && l.record.value.released && l.quota == NO_QUOTA
      ensures Contents() == Dropped(Operated(Next(old(Contents()), BeginRelease(i, now)), i.volume, meets))
    {
      ghost var w := Contents();
      ReleaseIsPrepared(w, i, now, meets);
      RecordedProject(w, i.volume);
      if ReleaseRefusal(LocalOf(w, i.volume), i).None? && |meets| >= 4 {
        ReleaseIsFulfilled(w, i, now, meets);
      }
      hide Sound, Operated;
      if i.volume in directories {
        return Some(DirectoryPresent);
      }
      if i.volume !in records {
        return Some(NothingToDo);
      }
      var r := records[i.volume];
      if r.request.identity != i {
        return Some(Conflict);
      }
      if r.released {
        return Some(NothingToDo);
      }
      var quota := ReadQuota(r.project);
      if quota.used != 0 || quota.inodes != 0 {
        return Some(StillReferenced);
      }
      if quota.limit > 0 {
        RecordStage(r.(releasedCapacity := quota.limit, releaseStarted := now), meets);
      } else {
        if r.releasedCapacity == 0 && r.releaseStarted == 0 && !r.applied && r.enforcedAt == 0 {
          r := r.(releasedCapacity := r.request.capacity);
        } else if r.releasedCapacity == 0 || r.releaseStarted == 0 {
          return Some(IdentityUnconfirmed);
        }
        FinishStage(r.(releaseUncertain := true), meets);
      }
      return None;
    }

    method RecordStage(r: Record, meets: seq<Meets>)
      requires journal.Valid() && Known(r)
      modifies this, journal
      ensures Contents() == Dropped(Operated(old(Releases(r, Recording)), r.request.identity.volume, meets))
    {
      if |meets| > 0 {
        OperatedOnce(Releases(r, Recording), r.request.identity.volume, meets);
        ReleaseEffect(Releases(r, Recording), r.request.identity.volume, r, Recording, meets[0]);
        hide Operated, Advances, Sole;
        records := records[r.request.identity.volume := r];
        ZeroStage(r, meets[1..]);
      }
    }

    method ZeroStage(r: Record, meets: seq<Meets>)
      requires journal.Valid() && Known(r)
      modifies this, journal
      ensures Contents() == Dropped(Operated(old(Releases(r, Zeroing)), r.request.identity.volume, meets))
    {
      if |meets| > 0 {
        OperatedOnce(Releases(r, Zeroing), r.request.identity.volume, meets);
        ReleaseEffect(Releases(r, Zeroing), r.request.identity.volume, r, Zeroing, meets[0]);
        hide Operated, Advances, Sole;
        var quota := ReadQuota(r.project);
        if quota.limit != 0 {
          kernel := kernel[r.project := quota.(limit := 0)];
        }
        FinishStage(r, meets[1..]);
      }
    }

    method FinishStage(r: Record, meets: seq<Meets>)
      requires journal.Valid() && Known(r)
      modifies this, journal
      ensures Contents() == Dropped(Operated(old(Releases(r, Finishing)), r.request.identity.volume, meets))
    {
      if |meets| > 0 {
        OperatedOnce(Releases(r, Finishing), r.request.identity.volume, meets);
        ReleaseEffect(Releases(r, Finishing), r.request.identity.volume, r, Finishing, meets[0]);
        hide Operated, Advances, Sole;
        var done := r.(released := true, releasedAt := meets[0].now);
        records := records[r.request.identity.volume := done];
        CloseMetering(done, meets[1..]);
      }
    }

    /** The terminal receipt and the record's flag are one transaction of the shared database. */
    method CloseMetering(r: Record, meets: seq<Meets>)
      requires journal.Valid() && Known(r) && records[r.request.identity.volume] == r
      modifies this, journal
      ensures journal.Valid()
      ensures Contents() == Dropped(Operated(old(Releases(r, Closing)), r.request.identity.volume, meets))
    {
      if |meets| > 0 {
        var v, m := r.request.identity.volume, meets[0];
        OperatedOnce(Releases(r, Closing), v, meets);
        ClosingEffect(Releases(r, Closing), v, r, m);
        hide Advances, Sole, Metered;
        var start := if r.enforcedAt > 0 then r.enforcedAt else r.acceptedAt;
        var committed := Submit(
          r.request.identity, r.project,
          J.Sample(ResourceOf(r.request.identity), Quantity(Workspace, 0, 0, r.releasedCapacity),
                   r.request.identity.generation, Absent, m.now, m.clock, 0, r.releasedAt,
                   if r.releaseUncertain then Some(CollectionUnavailable) else None, start),
          m);
        if committed {
          records := records[v := r.(meteringClosed := true)];
        }
      }
    }

    // ----- Read and Sample -----

    method Read(i: VolumeIdentity) returns (r: Result<Snapshot, Error>)
      requires i.volume in records ==> records[i.volume].project > 0
      ensures r == ReadVolume(LocalOf(Contents(), i.volume), i)
    {
      var v := i.volume;
      if v !in directories || directories[v].generation != i.generation {
        return Failure(Unavailable);
      }
      if directories[v].marker.None? {
        return Success(Snapshot(false, 0, 0, 0));
      }
      var m := directories[v].marker.value;
      if m.identity != i || m.project == 0 || m.enforcedAt == 0 || v !in records
         || records[v].request.identity != i || records[v].project != m.project
      {
        return Failure(Conflict);
      }
      var record := records[v];
      var quota := ReadQuota(record.project);
      if quota.limit == 0 {
        return Failure(Unavailable);
      }
      var ready := record.applied && quota.limit == record.request.capacity;
      return Success(Snapshot(ready, quota.limit, quota.used, record.request.revision));
    }

    ghost function Samples(r: Record, step: SampleStage): Pool
      reads this, journal
    {
      During(map[r.request.identity.volume := Sampling(r, step)])
    }

    /** One volume's turn of the sampler. */
    method Sample(v: string, meets: seq<Meets>)
      requires Valid() && Ticking(meets)
      modifies this, journal
      ensures Valid()
      ensures Contents() == Dropped(Operated(Next(old(Contents()), BeginSample(v)), v, meets))
    {
      SampleIsPrepared(Contents(), v, meets);
      RecordedProject(Contents(), v);
      hide Sound, Operated;
      if v in records && !records[v].meteringClosed {
        var r := records[v];
        if r.released {
          CloseMetering(r, meets);
        } else if !r.applied || r.enforcedAt == 0 {
          AdoptApplied(r, meets);
        } else {
          Observe(r, true, meets);
        }
      } else {
        NothingToOperate(Contents(), v, meets);
      }
    }

    /** Records a completed application that died before it was recorded; the kernel is not touched. */
    method Adopt(r: Record) returns (adopted: bool, current: Record)
      requires Known(r) && records[r.request.identity.volume] == r
      modifies this`records
      ensures var v := r.request.identity.volume;
              var next := Sampled(old(LocalOf(Contents(), v)), r, Adopting);
              && records == old(records)[v := current]
              && next.record == Some(current) && next.operation == Some(Sampling(current, Observing(adopted)))
      ensures current.project == r.project && current.request == r.request
    {
      var v := r.request.identity.volume;
      adopted, current := false, r;
      if v in directories && directories[v].generation == r.request.identity.generation {
        var marker := directories[v].marker;
        if marker.None? {
          adopted := true;
        } else {
          var m := marker.value;
          if m.identity == r.request.identity && m.project == r.project && m.enforcedAt != 0
             && (r.enforcedAt == 0 || r.enforcedAt == m.enforcedAt)
          {
            adopted := true;
            var quota := ReadQuota(r.project);
            if quota.limit == r.request.capacity {
              current := r.(applied := true, enforcedAt := m.enforcedAt);
            }
          }
        }
      }
      records := records[v := current];
    }

    method AdoptApplied(r: Record, meets: seq<Meets>)
      requires journal.Valid() && Known(r) && records[r.request.identity.volume] == r
      modifies this, journal
      ensures Contents() == Dropped(Operated(old(Samples(r, Adopting)), r.request.identity.volume, meets))
    {
      if |meets| > 0 {
        var v := r.request.identity.volume;
        OperatedOnce(Samples(r, Adopting), v, meets);
        SampleEffect(Samples(r, Adopting), v, r, Adopting, meets[0]);
        SampledIgnoresOperation(Contents(), Samples(r, Adopting), v, r);
        hide Operated, Advances, Sole, Sampled, LocalOf, ReadVolume;
        var adopted, current := Adopt(r);
        Observe(current, adopted, meets[1..]);
      }
    }

    method Observe(r: Record, adopted: bool, meets: seq<Meets>)
      requires journal.Valid() && Known(r) && records[r.request.identity.volume] == r
      modifies this, journal
      ensures Contents() == Dropped(Operated(old(Samples(r, Observing(adopted))), r.request.identity.volume, meets))
    {
      if |meets| > 0 {
        var v := r.request.identity.volume;
        OperatedOnce(Samples(r, Observing(adopted)), v, meets);
        SampleEffect(Samples(r, Observing(adopted)), v, r, Observing(adopted), meets[0]);
        hide Advances, Sole, Metered;
        var read := Read(r.request.identity);
        ReadIgnoresOperation(Contents(), Samples(r, Observing(adopted)), v, r.request.identity);
        Capture(r, adopted && read.Success? && read.value.ready, meets[0]);
      }
    }

    // ----- Collect -----

    /** Deletes the record of one volume whose closure was acknowledged. */
    method Collect(v: string, meets: Meets) returns (deleted: bool)
      requires Valid() && meets.now > 0
      modifies this`records
      ensures Valid()
      ensures deleted == Collectable(old(Contents()), v)
      ensures records == if deleted then old(records) - {v} else old(records)
    {
      ghost var w := Contents();
      RecordedProject(w, v);
      if |journal.pending| != 0 || v !in records || !records[v].released || !records[v].meteringClosed
          || v in directories {
        return false;
      }
      var quota := ReadQuota(records[v].project);
      if quota.limit != 0 || quota.used != 0 || quota.inodes != 0 {
        return false;
      }
      CollectingIsSound(w, v, meets);
      records := records - {v};
      return true;
    }
  }

  // ----- What a release and a sampler's turn come to -----

  /** An admitted release that is not cut short leaves a released record without any quota. */
  lemma ReleaseIsFulfilled(w: Pool, i: VolumeIdentity, now: nat, meets: seq<Meets>)
    requires Sound(w) && w.operations == map[] && now > 0 && Ticking(meets) && |meets| >= 4
    requires ReleaseRefusal(LocalOf(w, i.volume), i).None?
    ensures var l := LocalOf(Dropped(Operated(Next(w, BeginRelease(i, now)), i.volume, meets)), i.volume);
            l.record.Some? && l.record.value.released && l.quota == NO_QUOTA
  {
    var v, begun := i.volume, Next(w, BeginRelease(i, now));
    var l := LocalOf(w, v);
    assert LocalSound(l, v) && l.operation.None? && l.record.Some?;
    StepKeepsSound(w, BeginRelease(i, now));
    BegunRelease(w, i, now);
    hide Sound, LocalSound, Operated, LocalOf, ReleaseRefusal, Ticks, Driven, ReleaseOperation;
    OperatedIsDriven(begun, v, meets);
    TicksAreClocked(begun, v, meets);
    ReleaseByDriving(l, v, i, now, Ticks(begun, v, meets));
    DropIsElsewhere(Operated(begun, v, meets), v);
  }

  lemma BegunRelease(w: Pool, i: VolumeIdentity, now: nat)
    requires w.operations == map[] && ReleaseRefusal(LocalOf(w, i.volume), i).None? && now > 0
    ensures var begun, l := Next(w, BeginRelease(i, now)), LocalOf(w, i.volume);
            && i.volume in begun.operations && !begun.operations[i.volume].Collecting?
            && LocalOf(begun, i.volume) == l.(operation := Some(ReleaseOperation(l.record.value, l.quota, now)))
  {
  }

  lemma ReleaseByDriving(l: Local, volume: string, i: VolumeIdentity, now: nat, ticks: seq<Tick>)
    requires LocalSound(l, volume) && l.operation.None? && ReleaseRefusal(l, i).None? && now > 0
    requires Clocked(ticks) && |ticks| >= 4
    ensures var done := Driven(l.(operation := Some(ReleaseOperation(l.record.value, l.quota, now))), ticks);
            done.operation.None? && done.record.Some? && done.record.value.released && done.quota == NO_QUOTA
  {
    hide Driven, ReleaseRefusal, ReleaseOperation;
    ReleaseCompletes(l, volume, i, now, ticks);
  }

  /** A volume's turn, from the pool between operations to the pool between operations. */
  function Turn(w: Pool, v: string, meets: seq<Meets>): Pool
    requires v !in w.operations
  {
    Dropped(Operated(Next(w, BeginSample(v)), v, meets))
  }

  /** A volume that reads ready is metered as retained, with the capacity that a reader is told. */
  lemma ReadyIsRetained(w: Pool, i: VolumeIdentity, meets: seq<Meets>)
    requires Sound(w) && w.operations == map[] && meets != []
    requires var read := ReadVolume(LocalOf(w, i.volume), i);
             read.Success? && read.value.ready && !w.records[i.volume].released
    ensures var r, read := w.records[i.volume], ReadVolume(LocalOf(w, i.volume), i).value;
            Turn(w, i.volume, meets)
            == Metered(w, i, r.project,
                       J.Sample(ResourceOf(i), Quantity(Workspace, 0, 0, read.capacity), i.generation, Retained,
                                meets[0].now, meets[0].clock, 0, 0, None, r.enforcedAt), meets[0])
  {
    var v := i.volume;
    var r := w.records[v];
    assert LocalSound(LocalOf(w, v), v);
    hide Sound, Operated, Metered, LocalSound;
    ObservedTurn(w, v, meets);
  }

  /** A volume whose application is recorded but that does not read ready is unknown, at its accepted capacity. */
  lemma UnreadyIsUnknown(w: Pool, v: string, meets: seq<Meets>)
    requires Sound(w) && w.operations == map[] && meets != []
    requires v in w.records && w.records[v].applied && !w.records[v].released
    requires var read := ReadVolume(LocalOf(w, v), w.records[v].request.identity);
             !(read.Success? && read.value.ready)
    ensures var r := w.records[v];
            var i := r.request.identity;
            Turn(w, v, meets)
            == Metered(w, i, r.project,
                       J.Sample(ResourceOf(i), Quantity(Workspace, 0, 0, r.request.capacity), i.generation, Unknown,
                                meets[0].now, meets[0].clock, 0, 0, None, r.enforcedAt), meets[0])
  {
    assert LocalSound(LocalOf(w, v), v);
    hide Sound, Operated, Metered, LocalSound, ReadVolume;
    ObservedTurn(w, v, meets);
  }

  lemma ObservedTurn(w: Pool, v: string, meets: seq<Meets>)
    requires w.operations == map[] && meets != [] && v in w.records && w.records[v].project > 0
    requires var r := w.records[v]; r.applied && r.enforcedAt > 0 && !r.released && !r.meteringClosed
    ensures var r, l := w.records[v], LocalOf(w, v);
            var read := ReadVolume(l, r.request.identity);
            Turn(w, v, meets)
            == Metered(w, r.request.identity, r.project,
                       RetainedSample(r, l.quota, read.Success? && read.value.ready, meets[0].now, meets[0].clock),
                       meets[0])
  {
    var r := w.records[v];
    var begun := Next(w, BeginSample(v));
    SampleEffect(begun, v, r, Observing(true), meets[0]);
    ReadIgnoresOperation(w, begun, v, r.request.identity);
    OperatedOnce(begun, v, meets);
    hide Advances, ReadVolume;
    OperatedIdle(Advances(begun, v, meets[0]), v, meets[1..]);
    MeteredThenDropped(w, begun, v);
  }

  lemma OperatedIdle(w: Pool, v: string, meets: seq<Meets>)
    requires v !in w.operations
    ensures Operated(w, v, meets) == w
  {
  }

  lemma MeteredThenDropped(w: Pool, begun: Pool, v: string)
    requires w.operations == map[] && begun == w.(operations := begun.operations)
    ensures begun.(operations := map[]) == w
  {
  }

  /** An application that was completed but not recorded: marker and limit agree with the accepted record. */
  predicate Completed(l: Local) {
    && l.record.Some? && l.directory.Some? && l.directory.value.marker.Some?
    && var r, m := l.record.value, l.directory.value.marker.value;
    && !r.released && r.request.identity.generation == l.directory.value.generation
    && m.identity == r.request.identity && m.project == r.project && m.enforcedAt > 0
    && (r.enforcedAt == 0 || r.enforcedAt == m.enforcedAt)
    && l.quota.limit == r.request.capacity
  }

  /** The sampler adopts it: the volume reads ready at the accepted revision, though no kernel limit was set. */
  lemma CompletedIsAdopted(w: Pool, v: string, meets: seq<Meets>)
    requires Sound(w) && w.operations == map[] && meets != [] && Ticking(meets)
    requires v in w.records && !w.records[v].meteringClosed && Completed(LocalOf(w, v))
    ensures var w' := Turn(w, v, meets);
            && Fulfilled(LocalOf(w', v), w.records[v].request) && w'.kernel == w.kernel
            && v in w'.records && w'.records[v].applied
            && w'.records[v].enforcedAt == w.directories[v].marker.value.enforcedAt
  {
    var r := w.records[v];
    assert LocalSound(LocalOf(w, v), v);
    if r.applied && r.enforcedAt > 0 {
      ObservedTurn(w, v, meets);
      hide Sound, Operated, J.Captured, J.Outcome;
      MeteringIsElsewhere(w, Turn(w, v, meets), v);
    } else {
      AdoptedTurn(w, v, meets);
    }
  }

  lemma AdoptedTurn(w: Pool, v: string, meets: seq<Meets>)
    requires LocalSound(LocalOf(w, v), v) && w.operations == map[] && meets != []
    requires v in w.records && Completed(LocalOf(w, v)) && !w.records[v].meteringClosed
    requires !w.records[v].applied || w.records[v].enforcedAt == 0
    ensures var w' := Turn(w, v, meets);
            && Fulfilled(LocalOf(w', v), w.records[v].request) && w'.kernel == w.kernel
            && v in w'.records && w'.records[v].applied
            && w'.records[v].enforcedAt == w.directories[v].marker.value.enforcedAt
  {
    var r := w.records[v];
    var begun := Next(w, BeginSample(v));
    var adopted := r.(applied := true, enforcedAt := w.directories[v].marker.value.enforcedAt);
    var w1 := begun.(records := begun.records[v := adopted],
                     operations := map[v := Sampling(adopted, Observing(true))]);
    SampleEffect(begun, v, r, Adopting, meets[0]);
    OperatedOnce(begun, v, meets);
    assert Advances(begun, v, meets[0]) == w1;
    hide Advances;
    if |meets| > 1 {
      SampleEffect(w1, v, adopted, Observing(true), meets[1]);
      OperatedOnce(w1, v, meets[1..]);
      OperatedIdle(Advances(w1, v, meets[1]), v, meets[1..][1..]);
    }
    hide Operated, J.Captured, J.Outcome;
    AdoptedIsFulfilled(w1, Turn(w, v, meets), v, adopted);
  }

  lemma AdoptedIsFulfilled(w: Pool, w': Pool, v: string, r: Record)
    requires w' == w.(journal := w'.journal, emitted := w'.emitted, operations := map[])
    requires J.Lookup(w.records, v) == Some(r) && Completed(LocalOf(w', v)) && r.applied && r.request.capacity > 0
    requires r.project > 0 && r.enforcedAt > 0
    ensures Fulfilled(LocalOf(w', v), r.request) && w'.kernel == w.kernel && w'.records == w.records
  {
  }

  /** A released record is closed in its turn when nothing hinders the journal, and has its one terminal receipt. */
  lemma ReleasedIsClosed(w: Pool, v: string, meets: seq<Meets>)
    requires Sound(w) && w.operations == map[] && meets != [] && Ticking(meets)
    requires v in w.records && w.records[v].released && !w.records[v].meteringClosed
    requires J.Acceptable(TerminalSample(w.records[v], meets[0].now, meets[0].clock))
    requires meets[0].io == J.Io(true, true) && |w.journal.store.pending| < 65536
    requires var resource := ResourceOf(w.records[v].request.identity);
             var cursor := J.Lookup(w.journal.store.cursors, KeyOf(resource));
             cursor.Some? ==> cursor.value.resource == resource
    ensures var w', r := Turn(w, v, meets), w.records[v];
            && v in w'.records && w'.records[v] == r.(meteringClosed := true)
            && |Terminals(w'.emitted, r.project)| == 1
            && var e := Terminals(w'.emitted, r.project)[0];
            && e.resource == ResourceOf(r.request.identity) && e.quantity.capacityBytes == r.releasedCapacity
  {
    var r, w', begun := w.records[v], Turn(w, v, meets), Next(w, BeginSample(v));
    assert LocalSound(LocalOf(w, v), v);
    SampleIsPrepared(w, v, meets);
    AbsentIsCaptured(w.journal, TerminalSample(r, meets[0].now, meets[0].clock), meets[0].eventId, meets[0].io);
    ClosingEffect(begun, v, r, meets[0]);
    OperatedOnce(begun, v, meets);
    hide Advances, J.Outcome, J.Captured, LocalSound, J.Acceptable, Sound;
    OperatedIdle(Advances(begun, v, meets[0]), v, meets[1..]);
    OneTerminal(w', v);
  }

  lemma AbsentIsCaptured(j: J.State, s: J.Sample, eventId: nat, io: J.Io)
    requires J.Invariant(j) && J.Acceptable(s) && io.updateSucceeds && io.commits && |j.store.pending| < 65536
    requires var cursor := J.Lookup(j.store.cursors, KeyOf(s.resource));
             cursor.Some? ==> cursor.value.resource == s.resource
    requires s.state == Absent
    ensures J.Outcome(j, s, eventId, io).Success?
  {
    hide J.PlanFor, J.Drifted, J.Acceptable;
  }

  lemma OneTerminal(w: Pool, v: string)
    requires Sound(w) && v in w.records && w.records[v].meteringClosed && w.operations == map[]
    ensures var terminals := Terminals(w.emitted, w.records[v].project);
            && |terminals| == 1 && terminals[0].resource == ResourceOf(w.records[v].request.identity)
            && terminals[0].quantity.capacityBytes == w.records[v].releasedCapacity
  {
    assert LocalSound(LocalOf(w, v), v);
    assert TerminalOf(w, v);
  }

  lemma UnappliedIsNotReady(w: Pool, q: Request)
    ensures q.identity.volume !in w.records || !w.records[q.identity.volume].applied ==>
              !Fulfilled(LocalOf(w, q.identity.volume), q)
  {
  }

  lemma RecordedProject(w: Pool, v: string)
    requires Sound(w)
    ensures v in w.records ==> RecordSound(w.records[v], v)
    ensures J.Invariant(w.journal)
  {
    assert LocalSound(LocalOf(w, v), v);
  }

  lemma ReleaseIsPrepared(w: Pool, i: VolumeIdentity, now: nat, meets: seq<Meets>)
    requires Sound(w) && w.operations == map[] && now > 0 && Ticking(meets)
    ensures Sound(Dropped(Operated(Next(w, BeginRelease(i, now)), i.volume, meets)))
    ensures ReleaseRefusal(LocalOf(w, i.volume), i) != Some(IdentityUnconfirmed)
  {
    StepKeepsSound(w, BeginRelease(i, now));
    OperationKeepsSound(Next(w, BeginRelease(i, now)), i.volume, meets);
    assert LocalSound(LocalOf(w, i.volume), i.volume);
    ReleaseIsNeverUnconfirmed(LocalOf(w, i.volume), i.volume, i);
  }

  lemma CollectingIsSound(w: Pool, v: string, meets: Meets)
    requires Sound(w) && w.operations == map[] && Collectable(w, v) && meets.now > 0
    ensures Sound(w.(records := w.records - {v}))
  {
    var begun := Next(w, BeginCollect(v));
    StepKeepsSound(w, BeginCollect(v));
    AdvanceKeepsPool(begun, v, meets);
    CollectEffect(begun, v, w.records[v], meets);
    assert w.(operations := map[]) == w;
    hide Sound;
  }

  lemma CollectEffect(w: Pool, v: string, r: Record, meets: Meets)
    requires Sole(w, v, Collecting(r)) && v in w.records
    ensures Advances(w, v, meets) == w.(records := w.records - {v}, operations := map[])
  {
    var l := LocalOf(w, v);
    assert l.operation == Some(Collecting(r)) && !Closes(w, v, meets);
    SetBack(w.directories, v);
    assert map[v := Collecting(r)] - {v} == map[];
    hide J.Captured, J.Outcome;
  }

  lemma ReadIgnoresOperation(w: Pool, w': Pool, v: string, i: VolumeIdentity)
    requires w.operations == map[] && w' == w.(operations := w'.operations)
    requires v in w'.operations ==> !w'.operations[v].Ensuring?
    ensures ReadVolume(LocalOf(w', v), i) == ReadVolume(LocalOf(w, v), i)
  {
  }

  lemma SampledIgnoresOperation(w: Pool, w': Pool, v: string, r: Record)
    requires w.operations == map[] && w' == w.(operations := w'.operations)
    requires v in w'.operations ==> !w'.operations[v].Ensuring?
    requires v in w.records && w.records[v] == r
    ensures Sampled(LocalOf(w', v), r, Adopting).record == Sampled(LocalOf(w, v), r, Adopting).record
    ensures Sampled(LocalOf(w', v), r, Adopting).operation == Sampled(LocalOf(w, v), r, Adopting).operation
  {
  }

  lemma NothingToOperate(w: Pool, v: string, meets: seq<Meets>)
    requires w.operations == map[]
    ensures Dropped(Operated(w, v, meets)) == w
  {
  }

  lemma SampleIsPrepared(w: Pool, v: string, meets: seq<Meets>)
    requires Sound(w) && w.operations == map[] && Ticking(meets)
    ensures Sound(Dropped(Operated(Next(w, BeginSample(v)), v, meets)))
  {
    StepKeepsSound(w, BeginSample(v));
    OperationKeepsSound(Next(w, BeginSample(v)), v, meets);
  }

  lemma HeldIfAdmitted(w: Pool, q: Request, poolBytes: nat)
    ensures EnsureRefusal(LocalOf(w, q.identity.volume), q, poolBytes).None? ==>
              && q.identity.volume in w.directories
              && w.directories[q.identity.volume].generation == q.identity.generation && q.capacity > 0
              && (q.identity.volume in w.records ==>
                    var r := w.records[q.identity.volume];
                    r.request.identity == q.identity
                        && (r.request.revision == q.revision ==> r.request.capacity == q.capacity))
  {
  }
}
