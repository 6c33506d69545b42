/**
 Capacity of workspace volumes, kept across three stores that cannot be changed
 together: the manager's records, the kernel's project quotas and a marker file in the
 volume. An operation is a sequence of durable effects; the process may die between
 any two of them, and operations on different volumes interleave.
 */
module WorkspaceQuota {
  import opened Wrappers
  import opened ResourceTypes

  const SAFE_MAXIMUM := 9_007_199_254_740_991
  const MAX_PROJECT := 0xFFFF_FFFF
  const BLOCK := 4096

  datatype VolumeIdentity = VolumeIdentity(tenant: Uuid, workspace: Uuid, volume: string, generation: string)

  datatype Request = Request(identity: VolumeIdentity, revision: nat, capacity: nat)

  /** The durable record; a time of zero was never set. */
  datatype Record = Record(
    request: Request,
    project: nat,
    acceptedAt: nat,
    enforcedAt: nat,
    applied: bool,
    released: bool,
    releasedAt: nat,
    releasedCapacity: nat,
    releaseStarted: nat,
    releaseUncertain: bool,
    meteringClosed: bool)

  /** What the kernel accounts to a project; a limit of zero enforces nothing. */
  datatype Quota = Quota(limit: nat, used: nat, inodes: nat)

  const NO_QUOTA := Quota(0, 0, 0)

  datatype Marker = Marker(identity: VolumeIdentity, project: nat, enforcedAt: nat)

  /** The volume on disk. Project zero means that a tree was not assigned yet. */
  datatype Directory = Directory(
    generation: string,
    marker: Option<Marker>,
    workspace: nat,
    workspaceEmpty: bool,
    staging: nat,
    stagingEmpty: bool)

  datatype EnsureStage =
    | Accounting
    | Saving
    | Setting
    | AssigningWorkspace
    | AssigningStaging
    | Publishing
    | Confirming
    | Reporting

  datatype ReleaseStage = Recording | Zeroing | Finishing | Closing

  datatype SampleStage = Adopting | Observing(adopted: bool)

  /** An operation in progress, with the manager's own copy of the record. */
  datatype Operation =
    | Ensuring(request: Request, record: Record, stage: EnsureStage)
    | Releasing(record: Record, phase: ReleaseStage)
    | Sampling(record: Record, step: SampleStage)
    | Collecting(record: Record)

  /** All that concerns one volume. */
  datatype Local = Local(record: Option<Record>, quota: Quota, directory: Option<Directory>,
      operation: Option<Operation>)

  datatype Error =
    | InvalidCapacity
    | CapacityExceedsPool
    | Unavailable
    | Conflict
    | CanOnlyGrow
    | ProjectsExhausted
    | DirectoryPresent
    | StillReferenced
    | IdentityUnconfirmed
    | NothingToDo

  // ----- Admission of an operation -----

  predicate HeldFor(d: Option<Directory>, i: VolumeIdentity) {
    d.Some? && d.value.generation == i.generation
  }

  function Accepted(q: Request, project: nat, now: nat): Record {
    Record(q, project, now, 0, false, false, 0, 0, 0, false, false)
  }

  predicate MarkerMatches(d: Option<Directory>, r: Record) {
    && d.Some? && d.value.marker.Some?
    && d.value.marker.value == Marker(r.request.identity, r.project, r.enforcedAt)
  }

  /** An earlier call already brought the volume to the requested state. */
  predicate AlreadyApplied(l: Local, q: Request) {
    && l.record.Some? && l.record.value.applied && l.record.value.request.revision == q.revision
    && MarkerMatches(l.directory, l.record.value) && l.quota.limit == q.capacity
  }

  /** Why a request for an existing record is refused. */
  function EnsureRefusal(l: Local, q: Request, poolBytes: nat): Option<Error> {
    if q.revision == 0 || q.revision > SAFE_MAXIMUM || q.capacity < BLOCK || q.capacity > SAFE_MAXIMUM
       || q.capacity % BLOCK != 0 then Some(InvalidCapacity)
    else if q.capacity > poolBytes then Some(CapacityExceedsPool)
    else if !HeldFor(l.directory, q.identity) then Some(Unavailable)
    else if l.record.None? then None
    else
      var r := l.record.value;
      if r.request.identity != q.identity || r.released || q.revision < r.request.revision then Some(Conflict)
      else if q.revision == r.request.revision && q.capacity != r.request.capacity then Some(Conflict)
      else if q.capacity < r.request.capacity then Some(CanOnlyGrow)
      else None
  }

  /**
   What a caller can check before it asks: whole blocks that the pool and a number can hold, a
   revision in range, the volume at hand, and, where there is a record, a later revision of it
   that does not shrink it or the same one once more.
   */
  predicate Admissible(record: Option<Record>, directory: Option<Directory>, q: Request, pool: nat) {
    && q.capacity % 4096 == 0 && 4096 <= q.capacity <= pool && q.capacity <= 9_007_199_254_740_991
    && 1 <= q.revision <= 9_007_199_254_740_991
    && directory.Some? && directory.value.generation == q.identity.generation
    && (record.Some? ==>
          var r := record.value;
          && r.request.identity == q.identity && !r.released
          && (|| (q.revision > r.request.revision && q.capacity >= r.request.capacity)
              || (q.revision == r.request.revision && q.capacity == r.request.capacity)))
  }

  lemma AdmittedIffAdmissible(l: Local, q: Request, pool: nat)
    ensures EnsureRefusal(l, q, pool).None? <==> Admissible(l.record, l.directory, q, pool)
  {
  }

  /** The operation of an admitted request; `project` is the new identifier when there is no record. */
  function EnsureOperation(l: Local, q: Request, project: nat, now: nat): Operation {
    var r := if l.record.Some? then l.record.value else Accepted(q, project, now);
    Ensuring(q, r, if r.applied then Accounting else Saving)
  }

  /** A kernel limit of zero tells whether a release had been recorded, or nothing was ever enforced. */
  predicate NeverEnforced(r: Record) {
    r.releasedCapacity == 0 && r.releaseStarted == 0 && !r.applied && r.enforcedAt == 0
  }

  predicate ReleaseRecorded(r: Record) {
    r.releasedCapacity > 0 && r.releaseStarted > 0
  }

  function ReleaseRefusal(l: Local, i: VolumeIdentity): Option<Error> {
    if l.directory.Some? then Some(DirectoryPresent)
    else if l.record.None? then Some(NothingToDo)
    else
      var r := l.record.value;
      if r.request.identity != i then Some(Conflict)
      else if r.released then Some(NothingToDo)
      else if l.quota.used != 0 || l.quota.inodes != 0 then Some(StillReferenced)
      else if l.quota.limit == 0 && !NeverEnforced(r) && !ReleaseRecorded(r) then Some(IdentityUnconfirmed)
      else None
  }

  function ReleaseOperation(r: Record, quota: Quota, now: nat): Operation {
    if quota.limit > 0 then Releasing(r.(releasedCapacity := quota.limit, releaseStarted := now), Recording)
    else
      var confirmed := if NeverEnforced(r) then r.(releasedCapacity := r.request.capacity) else r;
      Releasing(confirmed.(releaseUncertain := true), Finishing)
  }

  function SampleOperation(r: Record): Operation {
    if r.released then Releasing(r, Closing)
    else Sampling(r, if !r.applied || r.enforcedAt == 0 then Adopting else Observing(true))
  }

  // ----- One durable effect -----

  function Stopped(l: Local): Local {
    l.(operation := None)
  }

  function AtStage(l: Local, q: Request, r: Record, stage: EnsureStage): Local {
    l.(operation := Some(Ensuring(q, r, stage)))
  }

  /** Only an empty tree without a project is assigned; a tree of the same project stays. */
  function Assigned(l: Local, tree: nat, vacant: bool, project: nat): Option<Quota> {
    if tree == project then Some(l.quota)
    else if tree != 0 || !vacant then None
    else Some(l.quota.(inodes := l.quota.inodes + 1))
  }

  /** The marker's time, which outlives the record's; none when the marker contradicts the record. */
  function EnforcedSince(d: Directory, r: Record, now: nat): Option<nat> {
    if d.marker.None? then Some(if r.enforcedAt == 0 then now else r.enforcedAt)
    else
      var m := d.marker.value;
      if m.identity != r.request.identity || m.project != r.project || m.enforcedAt == 0
         || (r.enforcedAt != 0 && r.enforcedAt != m.enforcedAt) then None
      else Some(m.enforcedAt)
  }

  function Ensured(l: Local, q: Request, r: Record, stage: EnsureStage, now: nat): Local {
    match stage
    case Accounting => AtStage(l, q, r, Saving)
    case Saving =>
      var saved := r.(request := q, applied := false);
      AtStage(l.(record := Some(saved)), q, saved, Setting)
    case Setting =>
      if l.quota.limit > q.capacity then Stopped(l)
      else AtStage(l.(quota := l.quota.(limit := q.capacity)), q, r, AssigningWorkspace)
    case AssigningWorkspace =>
      if l.directory.None? then Stopped(l)
      else
        var d := l.directory.value;
        var quota := Assigned(l, d.workspace, d.workspaceEmpty, r.project);
        if quota.None? then Stopped(l)
        else AtStage(l.(quota := quota.value, directory := Some(d.(workspace := r.project))), q, r, AssigningStaging)
    case AssigningStaging =>
      if l.directory.None? then Stopped(l)
      else
        var d := l.directory.value;
        var quota := Assigned(l, d.staging, d.stagingEmpty, r.project);
        if quota.None? then Stopped(l)
        else AtStage(l.(quota := quota.value, directory := Some(d.(staging := r.project))), q, r, Publishing)
    case Publishing =>
      if l.directory.None? || l.quota.limit != q.capacity then Stopped(l)
      else
        var d := l.directory.value;
        var since := EnforcedSince(d, r, now);
        if since.None? then Stopped(l)
        else
          var enforced := r.(enforcedAt := since.value, applied := true);
          AtStage(l.(directory := Some(d.(marker := Some(Marker(r.request.identity, r.project, since.value))))),
                  q, enforced, Confirming)
    case Confirming => AtStage(l.(record := Some(r)), q, r, Reporting)
    case Reporting => Stopped(l)
  }

  /** `closed` says that the terminal receipt was committed, and the record's flag with it. */
  function ReleasedStep(l: Local, r: Record, phase: ReleaseStage, now: nat, closed: bool): Local {
    match phase
    case Recording => l.(record := Some(r), operation := Some(Releasing(r, Zeroing)))
    case Zeroing => l.(quota := l.quota.(limit := 0), operation := Some(Releasing(r, Finishing)))
    case Finishing =>
      var done := r.(released := true, releasedAt := now);
      l.(record := Some(done), operation := Some(Releasing(done, Closing)))
    case Closing =>
      Stopped(if closed then l.(record := Some(r.(meteringClosed := true))) else l)
  }

  /** A sampler adopts an application that was completed but not recorded. */
  function Sampled(l: Local, r: Record, step: SampleStage): Local {
    match step
    case Adopting =>
      var d := l.directory;
      var since := if HeldFor(d, r.request.identity) && d.value.marker.Some? then EnforcedSince(d.value, r, 1)
          else None;
      var failed := !HeldFor(d, r.request.identity) || (d.value.marker.Some? && since.None?);
      if since.Some? && l.quota.limit == r.request.capacity then
        var adopted := r.(applied := true, enforcedAt := since.value);
        l.(record := Some(adopted), operation := Some(Sampling(adopted, Observing(true))))
      else l.(operation := Some(Sampling(r, Observing(!failed))))
    case Observing(_) => Stopped(l)
  }

  function Advanced(l: Local, now: nat, closed: bool): Local
    requires l.operation.Some?
  {
    match l.operation.value
    case Ensuring(q, r, stage) => Ensured(l, q, r, stage, now)
    case Releasing(r, phase) => ReleasedStep(l, r, phase, now, closed)
    case Sampling(r, step) => Sampled(l, r, step)
    case Collecting(_) => Stopped(l.(record := None))
  }

  /** What a reader of the volume is told. */
  datatype Snapshot = Snapshot(ready: bool, capacity: nat, used: nat, revision: nat)

  function ReadVolume(l: Local, i: VolumeIdentity): Result<Snapshot, Error> {
    if !HeldFor(l.directory, i) then Failure(Unavailable)
    else if l.directory.value.marker.None? then Success(Snapshot(false, 0, 0, 0))
    else
      var m := l.directory.value.marker.value;
      if m.identity != i || m.project == 0 || m.enforcedAt == 0 then Failure(Conflict)
      else if l.record.None? || l.record.value.request.identity != i || l.record.value.project != m.project then
        Failure(Conflict)
      else if l.quota.limit == 0 then Failure(Unavailable)
      else
        var r := l.record.value;
        Success(Snapshot(r.applied && l.quota.limit == r.request.capacity, l.quota.limit, l.quota.used,
            r.request.revision))
  }

  // ----- What holds of one volume after every effect -----

  /** Nothing is accounted to a project without a limit. */
  predicate QuotaSound(q: Quota) {
    (q.limit == 0 ==> q.inodes == 0) && (q.inodes == 0 ==> q.used == 0)
  }

  predicate RecordSound(r: Record, volume: string) {
    && r.request.identity.volume == volume && r.request.revision > 0 && r.request.capacity >= BLOCK
    && 0 < r.project <= MAX_PROJECT && r.acceptedAt > 0
    && (r.applied ==> r.enforcedAt > 0)
    && (r.released ==> r.releasedAt > 0 && r.releasedCapacity > 0)
    && (r.meteringClosed ==> r.released)
  }

  /** The kernel's limit, as far as the record explains it. */
  predicate Explains(r: Record, q: Quota) {
    if r.released then q == NO_QUOTA
    else
      && q.limit <= r.request.capacity
      && (q.limit == 0 ==> NeverEnforced(r) || ReleaseRecorded(r))
      && (r.applied && q.limit != 0 ==> q.limit == r.request.capacity)
  }

  /** A marker stands only in a volume whose trees belong to its project. */
  predicate MarkerCovers(d: Directory) {
    d.marker.Some? ==>
      && d.marker.value.project > 0 && d.marker.value.enforcedAt > 0
      && d.workspace == d.marker.value.project && d.staging == d.marker.value.project
  }

  /** A record that knows since when it is enforced agrees with its marker. */
  predicate MarkerAgrees(d: Directory, r: Record) {
    (d.marker.Some? && d.marker.value.identity == r.request.identity && d.marker.value.project == r.project
     && r.enforcedAt > 0) ==> d.marker.value.enforcedAt == r.enforcedAt
  }

  predicate StoredSound(l: Local, volume: string) {
    && QuotaSound(l.quota)
    && (l.directory.Some? ==> MarkerCovers(l.directory.value))
    && (l.directory.Some? && l.record.Some? ==> MarkerAgrees(l.directory.value, l.record.value))
    && (l.record.Some? ==> RecordSound(l.record.value, volume) && Explains(l.record.value, l.quota))
  }

  predicate Continues(r: Record, q: Request) {
    && !r.released && r.request.identity == q.identity
    && r.request.revision <= q.revision && r.request.capacity <= q.capacity
  }

  predicate EnsureSound(l: Local, volume: string, q: Request, r: Record, stage: EnsureStage) {
    && q.identity.volume == volume && q.revision > 0 && q.capacity >= BLOCK
    && RecordSound(r, volume) && Continues(r, q) && HeldFor(l.directory, q.identity)
    && (stage.AssigningStaging? || stage.Publishing? ==> l.directory.value.workspace == r.project)
    && (stage.Publishing? ==> l.directory.value.staging == r.project)
    && match stage
       case Accounting => l.record == Some(r)
       case Saving => l.record == Some(r) || (l.record.None? && NeverEnforced(r) && l.quota == NO_QUOTA)
       case Setting => l.record == Some(r) && r.request == q && !r.applied
       case Confirming =>
         && l.record.Some? && l.record.value.(enforcedAt := r.enforcedAt, applied := true) == r
         && r.request == q && l.quota.limit == q.capacity && MarkerMatches(l.directory, r)
       case Reporting =>
         && l.record == Some(r) && r.request == q && r.applied && l.quota.limit == q.capacity
         && MarkerMatches(l.directory, r)
       case _ => l.record == Some(r) && r.request == q && !r.applied && l.quota.limit == q.capacity
  }

  predicate ReleaseSound(l: Local, volume: string, r: Record, phase: ReleaseStage) {
    && RecordSound(r, volume) && l.record.Some?
    && var s := l.record.value;
    && match phase
       case Recording =>
         && s.(releasedCapacity := r.releasedCapacity, releaseStarted := r.releaseStarted) == r
         && !s.released && ReleaseRecorded(r) && l.quota == Quota(r.releasedCapacity, 0, 0)
       case Zeroing => s == r && !s.released && ReleaseRecorded(r) && l.quota.inodes == 0
       case Finishing =>
         && s.(releasedCapacity := r.releasedCapacity, releaseUncertain := r.releaseUncertain) == r
         && !s.released && r.releasedCapacity > 0 && l.quota == NO_QUOTA
       case Closing => s == r && r.released && !r.meteringClosed
  }

  predicate OperationSound(l: Local, volume: string) {
    match l.operation
    case None => true
    case Some(Ensuring(q, r, stage)) => EnsureSound(l, volume, q, r, stage)
    case Some(Releasing(r, phase)) => ReleaseSound(l, volume, r, phase)
    case Some(Sampling(r, _)) => l.record == Some(r) && !r.released
    case Some(Collecting(r)) => l.record == Some(r) && r.meteringClosed
  }

  predicate LocalSound(l: Local, volume: string) {
    StoredSound(l, volume) && OperationSound(l, volume)
  }

  lemma EnsureKeepsSound(l: Local, volume: string, now: nat)
    requires LocalSound(l, volume) && now > 0 && l.operation.Some? && l.operation.value.Ensuring?
    ensures LocalSound(Advanced(l, now, false), volume)
  {
    var stage := l.operation.value.stage;
    if stage.Publishing? {
      PublishKeepsSound(l, volume, now);
      hide LocalSound, Advanced;
    } else if stage.AssigningWorkspace? || stage.AssigningStaging? {
      AssignKeepsSound(l, volume, now);
      hide LocalSound, Advanced;
    } else if stage.Saving? || stage.Setting? {
      SaveKeepsSound(l, volume, now);
      hide LocalSound, Advanced;
    }
  }

  lemma SaveKeepsSound(l: Local, volume: string, now: nat)
    requires LocalSound(l, volume) && now > 0 && l.operation.Some? && l.operation.value.Ensuring?
    requires l.operation.value.stage.Saving? || l.operation.value.stage.Setting?
    ensures LocalSound(Advanced(l, now, false), volume)
  {
  }

  lemma AssignKeepsSound(l: Local, volume: string, now: nat)
    requires LocalSound(l, volume) && now > 0 && l.operation.Some? && l.operation.value.Ensuring?
    requires l.operation.value.stage.AssigningWorkspace? || l.operation.value.stage.AssigningStaging?
    ensures LocalSound(Advanced(l, now, false), volume)
  {
  }

  lemma PublishKeepsSound(l: Local, volume: string, now: nat)
    requires LocalSound(l, volume) && now > 0 && l.operation.Some? && l.operation.value.Ensuring?
    requires l.operation.value.stage.Publishing?
    ensures LocalSound(Advanced(l, now, false), volume)
  {
  }

  lemma ReleaseKeepsSound(l: Local, volume: string, now: nat, closed: bool)
    requires LocalSound(l, volume) && now > 0 && l.operation.Some? && l.operation.value.Releasing?
    ensures LocalSound(Advanced(l, now, closed), volume)
  {
  }

  lemma AdvanceKeepsSound(l: Local, volume: string, now: nat, closed: bool)
    requires LocalSound(l, volume) && now > 0 && l.operation.Some?
    ensures LocalSound(Advanced(l, now, closed), volume)
  {
    if l.operation.value.Ensuring? {
      EnsureKeepsSound(l, volume, now);
      EnsureIgnoresClosing(l, now, closed);
      hide LocalSound, Advanced;
    } else if l.operation.value.Releasing? {
      ReleaseKeepsSound(l, volume, now, closed);
      hide LocalSound, Advanced;
    }
  }

  lemma EnsureIgnoresClosing(l: Local, now: nat, closed: bool)
    requires l.operation.Some? && l.operation.value.Ensuring?
    ensures Advanced(l, now, closed) == Advanced(l, now, false)
  {
    hide Ensured;
  }

  lemma AdmittedOperationsAreSound(l: Local, volume: string, now: nat)
    requires StoredSound(l, volume) && l.operation.None? && now > 0
    ensures forall q: Request, pool, project ::
              EnsureRefusal(l, q, pool).None? && q.identity.volume == volume && 0 < project <= MAX_PROJECT
              && (l.record.None? ==> l.quota == NO_QUOTA) ==>
                LocalSound(l.(operation := Some(EnsureOperation(l, q, project, now))), volume)
    ensures forall i :: ReleaseRefusal(l, i).None? ==>
              LocalSound(l.(operation := Some(ReleaseOperation(l.record.value, l.quota, now))), volume)
    ensures l.record.Some? && !l.record.value.meteringClosed ==>
              LocalSound(l.(operation := Some(SampleOperation(l.record.value))), volume)
    ensures l.record.Some? && l.record.value.meteringClosed ==>
              LocalSound(l.(operation := Some(Collecting(l.record.value))), volume)
  {
  }

  /** The manager never meets a kernel limit of zero that its record does not explain. */
  lemma ReleaseIsNeverUnconfirmed(l: Local, volume: string, i: VolumeIdentity)
    requires StoredSound(l, volume)
    ensures ReleaseRefusal(l, i) != Some(IdentityUnconfirmed)
    ensures l.directory.None? && l.record.Some? && l.record.value.request.identity == i && l.quota.inodes == 0 ==>
              ReleaseRefusal(l, i) == if l.record.value.released then Some(NothingToDo) else None
  {
  }

  /** The kernel limit grows, or is cleared by a recorded release of a volume without any inode. */
  lemma LimitShrinksOnlyInRelease(l: Local, volume: string, now: nat, closed: bool)
    requires LocalSound(l, volume) && l.operation.Some?
    ensures var l' := Advanced(l, now, closed);
            l'.quota.limit < l.quota.limit ==>
              && l'.quota == NO_QUOTA && l.record.Some? && ReleaseRecorded(l.record.value)
              && l.operation.value.Releasing? && l'.record == l.record
  {
  }

  /** An inode is assigned only to a project with a limit. */
  lemma AssignmentIsLimited(l: Local, volume: string, now: nat, closed: bool)
    requires LocalSound(l, volume) && l.operation.Some?
    ensures var l' := Advanced(l, now, closed);
            (l'.quota.inodes > l.quota.inodes || (l'.directory != l.directory)) ==> l.quota.limit > 0
  {
  }

  /**
   A reader that is told `ready` can rely on more than it checked: both trees belong to
   the project whose limit it was told, and the marker is the record's in every field.
   Conversely an applied record with its marker and its limit in place reads as ready.
   */
  lemma ReadyMeansEnforced(l: Local, volume: string, i: VolumeIdentity)
    requires StoredSound(l, volume) && i.volume == volume
    ensures var read := ReadVolume(l, i);
            read.Success? && read.value.ready <==>
              && HeldFor(l.directory, i) && l.record.Some? && l.record.value.request.identity == i
              && l.record.value.applied && MarkerMatches(l.directory, l.record.value)
              && l.quota.limit == l.record.value.request.capacity
    ensures var read := ReadVolume(l, i);
            read.Success? && read.value.ready ==>
              var r, d := l.record.value, l.directory.value;
              && d.workspace == r.project && d.staging == r.project && r.project > 0
              && r.request.capacity == read.value.capacity > 0 && !r.released
              && read.value.revision == r.request.revision && read.value.used == l.quota.used
  {
  }

  // ----- Whole operations, and where they can be cut -----

  datatype Tick = Tick(now: nat, closed: bool)

  /** An operation runs until it is done or the process dies for want of a further tick. */
  function Driven(l: Local, ticks: seq<Tick>): Local
    decreases |ticks|
  {
    if ticks == [] || l.operation.None? then l
    else Driven(Advanced(l, ticks[0].now, ticks[0].closed), ticks[1..])
  }

  predicate Clocked(ticks: seq<Tick>) {
    forall i | 0 <= i < |ticks| :: ticks[i].now > 0
  }

  lemma {:induction false} DrivenKeepsSound(l: Local, volume: string, ticks: seq<Tick>)
    requires LocalSound(l, volume) && Clocked(ticks)
    ensures LocalSound(Driven(l, ticks), volume)
    decreases |ticks|
  {
    if ticks != [] && l.operation.Some? {
      AdvanceKeepsSound(l, volume, ticks[0].now, ticks[0].closed);
      DrivenKeepsSound(Advanced(l, ticks[0].now, ticks[0].closed), volume, ticks[1..]);
    }
  }

  /** Cut anywhere, forgotten, and admitted again: a release that is not cut short reaches its end. */
  lemma ReleaseSurvivesCrashes(l: Local, volume: string, i: VolumeIdentity, now: nat, cut: seq<Tick>, again: nat,
      rest: seq<Tick>)
    requires StoredSound(l, volume) && l.operation.None? && l.record.Some? && now > 0 && again > 0
    requires l.record.value.request.identity == i && !l.record.value.released
    requires l.directory.None? && l.quota.inodes == 0
    requires Clocked(cut) && Clocked(rest) && |rest| >= 4
    ensures ReleaseRefusal(l, i).None?
    ensures var first := Driven(l.(operation := Some(ReleaseOperation(l.record.value, l.quota, now))), cut);
            var retried := Stopped(first);
            && retried.record.Some?
            && (retried.record.value.released || ReleaseRefusal(retried, i).None?)
            && (!retried.record.value.released ==>
                  var done := Driven(retried.(operation := Some(ReleaseOperation(retried.record.value, retried.quota,
                      again))), rest);
                  done.operation.None? && done.record.Some? && done.record.value.released && done.quota == NO_QUOTA)
  {
    AdmittedOperationsAreSound(l, volume, now);
    ReleaseIsNeverUnconfirmed(l, volume, i);
    var begun := l.(operation := Some(ReleaseOperation(l.record.value, l.quota, now)));
    CutRelease(begun, volume, i, cut);
    var retried := Stopped(Driven(begun, cut));
    ReleaseIsNeverUnconfirmed(retried, volume, i);
    if !retried.record.value.released {
      ReleaseCompletes(retried, volume, i, again, rest);
    }
  }

  lemma {:induction false} CutRelease(l: Local, volume: string, i: VolumeIdentity, cut: seq<Tick>)
    requires LocalSound(l, volume) && l.directory.None? && l.quota.inodes == 0 && Clocked(cut)
    requires l.record.Some? && l.record.value.request.identity == i
    requires l.operation.Some? ==> l.operation.value.Releasing?
    ensures var l' := Driven(l, cut);
            && StoredSound(l', volume) && l'.directory.None? && l'.quota.inodes == 0
            && l'.record.Some? && l'.record.value.request.identity == i
    decreases |cut|
  {
    if cut != [] && l.operation.Some? {
      var next := Advanced(l, cut[0].now, cut[0].closed);
      AdvanceKeepsSound(l, volume, cut[0].now, cut[0].closed);
      CutRelease(next, volume, i, cut[1..]);
    }
  }

  lemma ReleaseCompletes(l: Local, volume: string, i: VolumeIdentity, now: nat, ticks: seq<Tick>)
    requires StoredSound(l, volume) && l.operation.None? && ReleaseRefusal(l, i).None? && now > 0
    requires Clocked(ticks) && |ticks| >= 4
    ensures var done := Driven(l.(operation := Some(ReleaseOperation(l.record.value, l.quota, now))), ticks);
            done.operation.None? && done.record.Some? && done.record.value.released && done.quota == NO_QUOTA
  {
    AdmittedOperationsAreSound(l, volume, now);
    var begun := l.(operation := Some(ReleaseOperation(l.record.value, l.quota, now)));
    ReleaseProgress(begun, volume, ticks);
  }

  function Left(phase: ReleaseStage): nat {
    match phase
    case Recording => 4
    case Zeroing => 3
    case Finishing => 2
    case Closing => 1
  }

  lemma {:induction false} ReleaseProgress(l: Local, volume: string, ticks: seq<Tick>)
    requires LocalSound(l, volume) && l.operation.Some? && l.operation.value.Releasing? && Clocked(ticks)
    requires |ticks| >= Left(l.operation.value.phase)
    ensures var done := Driven(l, ticks);
            done.operation.None? && done.record.Some? && done.record.value.released && done.quota == NO_QUOTA
    decreases |ticks|
  {
    var next := Advanced(l, ticks[0].now, ticks[0].closed);
    AdvanceKeepsSound(l, volume, ticks[0].now, ticks[0].closed);
    if next.operation.Some? {
      ReleaseProgress(next, volume, ticks[1..]);
    }
  }

  /** An admitted request that meets no obstacle brings the volume to `ready`, after any number of earlier cuts. */
  lemma EnsureReachesReady(l: Local, volume: string, q: Request, pool: nat, project: nat, now: nat, ticks: seq<Tick>)
    requires StoredSound(l, volume) && l.operation.None? && now > 0 && q.identity.volume == volume
    requires EnsureRefusal(l, q, pool).None? && 0 < project <= MAX_PROJECT
    requires l.record.None? ==> l.quota == NO_QUOTA
    requires Clocked(ticks) && |ticks| >= 8
    requires Unobstructed(l, EnsureOperation(l, q, project, now).record)
    ensures var done := Driven(l.(operation := Some(EnsureOperation(l, q, project, now))), ticks);
            && done.operation.None? && ReadVolume(done, q.identity).Success?
            && ReadVolume(done, q.identity).value.ready && ReadVolume(done, q.identity).value.capacity == q.capacity
            && ReadVolume(done, q.identity).value.revision == q.revision
  {
    AdmittedOperationsAreSound(l, volume, now);
    EnsureProgress(l.(operation := Some(EnsureOperation(l, q, project, now))), volume, ticks);
  }

  /** What a request needs of the volume, whether it has a record yet or not. */
  predicate Prepared(l: Local) {
    && l.directory.Some?
    && match l.record
       case Some(r) => Unobstructed(l, r)
       case None =>
         var d := l.directory.value;
         d.workspace == 0 && d.workspaceEmpty && d.staging == 0 && d.stagingEmpty && d.marker.None?
             && l.quota == NO_QUOTA
  }

  /** A request that was cut anywhere leaves the volume prepared, and itself still admissible. */
  predicate Resumable(l: Local, q: Request, pool: nat) {
    && Prepared(l) && EnsureRefusal(l, q, pool).None?
    && match l.operation
       case None => true
       case Some(op) => op.Ensuring? && op.request == q && Progressing(l, q)
  }

  lemma EnsureKeepsResumable(l: Local, volume: string, q: Request, pool: nat, now: nat, closed: bool)
    requires LocalSound(l, volume) && Resumable(l, q, pool) && l.operation.Some? && now > 0
    ensures Resumable(Advanced(l, now, closed), q, pool)
  {
    if l.operation.value.stage.Publishing? {
      PublishKeepsResumable(l, volume, q, pool, now, closed);
    }
  }

  lemma PublishKeepsResumable(l: Local, volume: string, q: Request, pool: nat, now: nat, closed: bool)
    requires LocalSound(l, volume) && Resumable(l, q, pool) && l.operation.Some? && now > 0
    requires l.operation.value.stage.Publishing?
    ensures Resumable(Advanced(l, now, closed), q, pool)
  {
  }

  lemma {:induction false} CutEnsure(l: Local, volume: string, q: Request, pool: nat, cut: seq<Tick>)
    requires LocalSound(l, volume) && Resumable(l, q, pool) && Clocked(cut)
    ensures LocalSound(Driven(l, cut), volume) && Resumable(Driven(l, cut), q, pool)
    decreases |cut|
  {
    if cut != [] && l.operation.Some? {
      AdvanceKeepsSound(l, volume, cut[0].now, cut[0].closed);
      EnsureKeepsResumable(l, volume, q, pool, cut[0].now, cut[0].closed);
      hide LocalSound, Resumable, Advanced;
      CutEnsure(Advanced(l, cut[0].now, cut[0].closed), volume, q, pool, cut[1..]);
    }
  }

  /**
   Cut anywhere, forgotten, and admitted again, under a new identifier if none was recorded:
   a request on a prepared volume that is not cut short brings it to `ready`.
   */
  lemma EnsureSurvivesCrashes(
    l: Local, volume: string, q: Request, pool: nat, project: nat, now: nat, cut: seq<Tick>,
    another: nat, again: nat, rest: seq<Tick>)
    requires StoredSound(l, volume) && l.operation.None? && now > 0 && again > 0 && q.identity.volume == volume
    requires Admissible(l.record, l.directory, q, pool) && Prepared(l)
    requires 0 < project <= MAX_PROJECT && 0 < another <= MAX_PROJECT
    requires Clocked(cut) && Clocked(rest) && |rest| >= 8
    ensures EnsureRefusal(l, q, pool).None?
    ensures var retried := Stopped(Driven(l.(operation := Some(EnsureOperation(l, q, project, now))), cut));
            && EnsureRefusal(retried, q, pool).None?
            && var done := Driven(retried.(operation := Some(EnsureOperation(retried, q, another, again))), rest);
            && done.operation.None? && ReadVolume(done, q.identity).Success?
            && ReadVolume(done, q.identity).value.ready && ReadVolume(done, q.identity).value.capacity == q.capacity
            && ReadVolume(done, q.identity).value.revision == q.revision
  {
    AdmittedIffAdmissible(l, q, pool);
    var begun := l.(operation := Some(EnsureOperation(l, q, project, now)));
    AdmittedOperationsAreSound(l, volume, now);
    BegunIsResumable(l, q, pool, project, now);
    CutEnsure(begun, volume, q, pool, cut);
    var retried := Stopped(Driven(begun, cut));
    StoppedIsPrepared(Driven(begun, cut), volume, q, pool, another, again);
    hide LocalSound, Resumable, Driven, EnsureOperation, Prepared, Unobstructed, ReadVolume, EnsureRefusal;
    EnsureReachesReady(retried, volume, q, pool, another, again, rest);
  }

  lemma BegunIsResumable(l: Local, q: Request, pool: nat, project: nat, now: nat)
    requires l.operation.None? && EnsureRefusal(l, q, pool).None? && Prepared(l)
    ensures Resumable(l.(operation := Some(EnsureOperation(l, q, project, now))), q, pool)
  {
  }

  lemma StoppedIsPrepared(l: Local, volume: string, q: Request, pool: nat, project: nat, now: nat)
    requires LocalSound(l, volume) && Resumable(l, q, pool)
    ensures var retried := Stopped(l);
            && StoredSound(retried, volume) && EnsureRefusal(retried, q, pool).None?
            && Unobstructed(retried, EnsureOperation(retried, q, project, now).record)
            && (retried.record.None? ==> retried.quota == NO_QUOTA)
  {
  }

  /** Both trees are empty or belong to the project already, and the marker is the record's or missing. */
  predicate Unobstructed(l: Local, r: Record) {
    && l.directory.Some?
    && var d := l.directory.value;
    && (d.workspace == r.project || (d.workspace == 0 && d.workspaceEmpty))
    && (d.staging == r.project || (d.staging == 0 && d.stagingEmpty))
    && EnforcedSince(d, r, 1).Some?
  }

  function StagesLeft(stage: EnsureStage): nat {
    match stage
    case Accounting => 8
    case Saving => 7
    case Setting => 6
    case AssigningWorkspace => 5
    case AssigningStaging => 4
    case Publishing => 3
    case Confirming => 2
    case Reporting => 1
  }

  predicate Progressing(l: Local, q: Request) {
    && l.operation.Some? && l.operation.value.Ensuring? && l.operation.value.request == q
    && var r := l.operation.value.record;
    && HeldFor(l.directory, q.identity)
    && (if l.operation.value.stage.Confirming? || l.operation.value.stage.Reporting?
        then MarkerMatches(l.directory, r) && r.enforcedAt > 0 && r.applied && r.request == q
        else Unobstructed(l, r))
  }

  lemma EnsureAdvances(l: Local, volume: string, q: Request, now: nat)
    requires LocalSound(l, volume) && Progressing(l, q) && now > 0 && !l.operation.value.stage.Reporting?
    ensures var next := Advanced(l, now, false);
            Progressing(next, q) && StagesLeft(next.operation.value.stage) < StagesLeft(l.operation.value.stage)
  {
  }

  lemma {:induction false} EnsureProgress(l: Local, volume: string, ticks: seq<Tick>)
    requires LocalSound(l, volume) && l.operation.Some? && l.operation.value.Ensuring? && Clocked(ticks)
    requires Progressing(l, l.operation.value.request) && |ticks| >= StagesLeft(l.operation.value.stage)
    ensures var done, q := Driven(l, ticks), l.operation.value.request;
            && done.operation.None? && ReadVolume(done, q.identity).Success?
            && ReadVolume(done, q.identity).value.ready && ReadVolume(done, q.identity).value.capacity == q.capacity
            && ReadVolume(done, q.identity).value.revision == q.revision
    decreases |ticks|
  {
    var q := l.operation.value.request;
    AdvanceKeepsSound(l, volume, ticks[0].now, ticks[0].closed);
    if l.operation.value.stage.Reporting? {
      assert Advanced(l, ticks[0].now, ticks[0].closed) == Stopped(l);
    } else {
      EnsureAdvances(l, volume, q, ticks[0].now);
      EnsureProgress(Advanced(l, ticks[0].now, ticks[0].closed), volume, ticks[1..]);
    }
  }
}
