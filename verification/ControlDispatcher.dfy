/**
 Dispatch of control tools from a replicated log. Owners of a log partition come
 and go, records are redelivered, commits are lost, handlers and replies fail; a
 tool that must not be repeated is still handed to its handler at most once.
 */
module ControlDispatcher {
  import opened Wrappers

  const MAX_ACTIVE := 128

  /** A tool invocation as the log carries it. `key` names tenant, session and operation. */
  datatype Reference = Reference(key: string, sequence: nat, taskId: nat, toolName: string, replayable: bool)

  datatype Execution = Repeatable | Once | Uncertain

  /** `serial` is the identity of the in-memory object. */
  datatype Pending = Pending(
    serial: nat,
    reference: Reference,
    partition: nat,
    execution: Execution,
    dirty: bool,
    done: bool,
    outcome: bool,
    reply: bool)

  datatype Stage = Loading | Handling | Encoding | Publishing

  /** A running task remembers the entry object and the generation it was started for. */
  datatype Task = Task(serial: nat, generation: nat, stage: Stage)

  datatype Dispatcher = Dispatcher(
    pending: map<string, Pending>,
    active: map<string, Task>,
    generation: nat,
    closed: bool,
    serials: nat)

  const IDLE := Dispatcher(map[], map[], 0, false, 0)

  // ----- One dispatcher -----

  /** An entry that exists is never replaced, whatever the new knowledge about it. */
  function Remember(d: Dispatcher, r: Reference, partition: nat, execution: Execution): Dispatcher {
    if r.key in d.pending then d
    else d.(pending := d.pending[r.key := Pending(d.serials, r, partition, execution, true, false, false, false)],
            serials := d.serials + 1)
  }

  predicate Changed(d: Dispatcher, r: Reference) {
    r.key in d.pending && d.pending[r.key].reference != r
  }

  /** Remembers references until one contradicts an existing entry. */
  function RememberAll(d: Dispatcher, refs: seq<Reference>, partition: nat, unsafe: Execution): Dispatcher
    decreases |refs|
  {
    if refs == [] || Changed(d, refs[0]) then d
    else
      RememberAll(
        Remember(d, refs[0], partition, if refs[0].replayable then Repeatable else unsafe),
        refs[1..], partition, unsafe)
  }

  function Removed(d: Dispatcher, key: string): Dispatcher {
    d.(pending := d.pending - {key})
  }

  function Reset(d: Dispatcher): Dispatcher {
    d.(generation := d.generation + 1, pending := map[])
  }

  predicate Startable(d: Dispatcher, key: string, owned: set<nat>) {
    && !d.closed && |d.active| < MAX_ACTIVE && key in d.pending && key !in d.active
    && !d.pending[key].done && d.pending[key].dirty && d.pending[key].partition in owned
  }

  function Started(d: Dispatcher, key: string): Dispatcher
    requires key in d.pending
  {
    d.(pending := d.pending[key := d.pending[key].(dirty := false)],
       active := d.active[key := Task(d.pending[key].serial, d.generation, Loading)])
  }

  /** A running task still speaks for its entry: same owner generation, same object, partition still owned. */
  predicate Current(d: Dispatcher, key: string, owned: set<nat>)
    requires key in d.active
  {
    && !d.closed && d.generation == d.active[key].generation && key in d.pending
    && d.pending[key].serial == d.active[key].serial && d.pending[key].partition in owned
  }

  function Finished(d: Dispatcher, key: string): Dispatcher {
    d.(active := d.active - {key})
  }

  function Staged(d: Dispatcher, key: string, entry: Pending, stage: Stage): Dispatcher
    requires key in d.active
  {
    d.(pending := d.pending[key := entry], active := d.active[key := d.active[key].(stage := stage)])
  }

  datatype LoadResult = LoadThrew | Missing | Found

  /** Whether the load that just returned hands the command to its handler. */
  predicate Fires(d: Dispatcher, key: string, owned: set<nat>, load: LoadResult)
    requires key in d.active
  {
    && Current(d, key, owned) && load == Found
    && !d.pending[key].reply && !d.pending[key].outcome && d.pending[key].execution != Uncertain
  }

  function Loaded(d: Dispatcher, key: string, owned: set<nat>, load: LoadResult): Dispatcher
    requires key in d.active
  {
    if load == LoadThrew || !Current(d, key, owned) then Finished(d, key)
    else
      var entry := d.pending[key];
      if load == Missing then Finished(Removed(d, key), key)
      else if entry.reply then Staged(d, key, entry, Publishing)
      else if Fires(d, key, owned, load) then
        // Marked before the handler is awaited.
        Staged(d, key, if entry.execution == Once then entry.(execution := Uncertain) else entry, Handling)
      else Staged(d, key, entry.(outcome := true), Encoding)
  }

  datatype HandlerResult = Threw | Waiting | Returned

  function Handled(d: Dispatcher, key: string, owned: set<nat>, result: HandlerResult): Dispatcher
    requires key in d.active
  {
    if result == Threw || !Current(d, key, owned) || result == Waiting then Finished(d, key)
    else Staged(d, key, d.pending[key].(outcome := true), Encoding)
  }

  function Encoded(d: Dispatcher, key: string, owned: set<nat>, succeeded: bool): Dispatcher
    requires key in d.active
  {
    if !succeeded || !Current(d, key, owned) then Finished(d, key)
    else Staged(d, key, d.pending[key].(outcome := false, reply := true), Publishing)
  }

  function Published(d: Dispatcher, key: string, owned: set<nat>, succeeded: bool): Dispatcher
    requires key in d.active
  {
    if !succeeded || !Current(d, key, owned) then Finished(d, key)
    else if d.pending[key].execution == Repeatable then Finished(Removed(d, key), key)
    else Finished(d.(pending := d.pending[key := d.pending[key].(done := true, reply := false)]), key)
  }

  // ----- The log, its owners and its committed offsets -----

  datatype Slot = Slot(partition: nat, offset: nat)

  /** A record whose offset is being committed before its unsafe references are remembered. */
  datatype Commit = Commit(offset: nat, rest: seq<Reference>, applied: bool)

  /** `positions` holds, per partition, the committed offset this owner knows of. */
  datatype Owner = Owner(dispatcher: Dispatcher, positions: map<nat, nat>, consuming: map<nat, Commit>)

  /** `fired` counts handler invocations; `granted` are the records admitted for effects. */
  datatype World = World(
    log: map<Slot, seq<Reference>>,
    owners: map<nat, Owner>,
    committed: map<nat, nat>,
    holder: map<nat, nat>,
    fired: map<string, nat>,
    granted: set<Slot>)

  function Count<K>(m: map<K, nat>, k: K): nat {
    if k in m then m[k] else 0
  }

  function Higher(a: nat, b: nat): nat {
    if a < b then b else a
  }

  datatype Step =
    | Assign(owner: nat, partitions: set<nat>)
    | Revoke(owner: nat)
    | Deliver(owner: nat, slot: Slot)
    | Apply(owner: nat, partition: nat)
    | Acknowledge(owner: nat, partition: nat)
    | Fail(owner: nat, partition: nat)
    | Progress(owner: nat, partition: nat, offset: nat, acknowledged: bool)
    | Recover(owner: nat, refs: seq<Reference>, partition: nat)
    | Wake(owner: nat, key: string)
    | Remove(owner: nat, key: string)
    | Start(owner: nat, key: string)
    | Load(owner: nat, key: string, load: LoadResult)
    | Handle(owner: nat, key: string, result: HandlerResult)
    | Encode(owner: nat, key: string, succeeded: bool)
    | Publish(owner: nat, key: string, succeeded: bool)
    | Close(owner: nat)

  ghost predicate Dispatched(log: map<Slot, seq<Reference>>, r: Reference) {
    exists s :: s in log && r in log[s]
  }

  predicate AtStage(w: World, owner: nat, key: string, stage: Stage)
    requires owner in w.owners
  {
    key in w.owners[owner].dispatcher.active && w.owners[owner].dispatcher.active[key].stage == stage
  }

  ghost predicate Enabled(w: World, step: Step) {
    step.owner in w.owners &&
    var o := w.owners[step.owner];
    match step
    // A new assignment waits for the record handlers of the previous one.
    case Assign(_, _) => o.consuming == map[]
    case Deliver(_, slot) =>
      slot in w.log && slot.partition in o.positions && slot.partition !in o.consuming && !o.dispatcher.closed
    // The broker applies a commit only for the current holder of the partition.
    case Apply(owner, p) =>
      p in o.consuming && !o.consuming[p].applied && p in w.holder && w.holder[p] == owner
    case Acknowledge(_, p) => p in o.consuming && o.consuming[p].applied
    case Fail(_, p) => p in o.consuming
    // Background commits cover processed records only, never the one being handled.
    case Progress(owner, p, offset, _) =>
      && p in o.positions && p in w.holder && w.holder[p] == owner
      && (p in o.consuming ==> offset <= o.consuming[p].offset)
    case Recover(_, refs, _) => forall r | r in refs :: Dispatched(w.log, r)
    case Start(_, key) => Startable(o.dispatcher, key, o.positions.Keys)
    case Load(owner, key, _) => AtStage(w, owner, key, Loading)
    case Handle(owner, key, _) => AtStage(w, owner, key, Handling)
    case Encode(owner, key, _) => AtStage(w, owner, key, Encoding)
    case Publish(owner, key, _) => AtStage(w, owner, key, Publishing)
    case _ => true
  }

  /** The leading references that may be repeated; the rest starts with one that must not be. */
  function Safe(refs: seq<Reference>): (n: nat)
    ensures n <= |refs|
    ensures forall i | 0 <= i < n :: refs[i].replayable
  {
    if refs != [] && refs[0].replayable then 1 + Safe(refs[1..]) else 0
  }

  /** A redelivered record is admitted as uncertain; a new one first asks for its offset to be committed. */
  function Delivered(o: Owner, refs: seq<Reference>, slot: Slot): Owner
    requires slot.partition in o.positions
  {
    var n := Safe(refs);
    var d := RememberAll(o.dispatcher, refs[..n], slot.partition, Uncertain);
    if n == |refs| then o.(dispatcher := d)
    else if slot.offset + 1 <= o.positions[slot.partition] then
      o.(dispatcher := RememberAll(d, refs[n..], slot.partition, Uncertain))
    else
      o.(dispatcher := d, consuming := o.consuming[slot.partition := Commit(slot.offset, refs[n..], false)])
  }

  /** The commit's receipt arrives: effects are admitted only if the assignment is still the same. */
  function Admitted(o: Owner, p: nat): Owner
    requires p in o.consuming
  {
    var c := o.consuming[p];
    if p in o.positions then
      Owner(RememberAll(o.dispatcher, c.rest, p, Once), o.positions[p := c.offset + 1], o.consuming - {p})
    else o.(consuming := o.consuming - {p})
  }

  function With(w: World, owner: nat, o: Owner): World {
    w.(owners := w.owners[owner := o])
  }

  function Woken(d: Dispatcher, key: string): Dispatcher {
    if key in d.pending then d.(pending := d.pending[key := d.pending[key].(dirty := true)]) else d
  }

  function Fired(w: World, key: string): map<string, nat> {
    w.fired[key := Count(w.fired, key) + 1]
  }

  ghost function Next(w: World, step: Step): World
    requires Enabled(w, step)
  {
    var owner, o, d := step.owner, w.owners[step.owner], w.owners[step.owner].dispatcher;
    var owned := o.positions.Keys;
    match step
    case Assign(_, parts) =>
      With(w, owner, o.(dispatcher := Reset(d), positions := map p | p in parts :: Count(w.committed, p)))
      .(holder := map p | p in w.holder.Keys + parts :: if p in parts then owner else w.holder[p])
    case Revoke(_) => With(w, owner, o.(dispatcher := Reset(d), positions := map[]))
    case Deliver(_, slot) => With(w, owner, Delivered(o, w.log[slot], slot))
    case Apply(_, p) =>
      With(w, owner, o.(consuming := o.consuming[p := o.consuming[p].(applied := true)]))
      .(committed := w.committed[p := Higher(Count(w.committed, p), o.consuming[p].offset + 1)])
    case Acknowledge(_, p) =>
      With(w, owner, Admitted(o, p))
      .(granted := if p in o.positions then w.granted + {Slot(p, o.consuming[p].offset)} else w.granted)
    case Fail(_, p) => With(w, owner, o.(consuming := o.consuming - {p}))
    case Progress(_, p, offset, acknowledged) =>
      With(w, owner, if acknowledged then o.(positions := o.positions[p := Higher(o.positions[p], offset)]) else o)
      .(committed := w.committed[p := Higher(Count(w.committed, p), offset)])
    case Recover(_, refs, p) => With(w, owner, o.(dispatcher := RememberAll(d, refs, p, Uncertain)))
    case Wake(_, key) => With(w, owner, o.(dispatcher := Woken(d, key)))
    case Remove(_, key) => With(w, owner, o.(dispatcher := Removed(d, key)))
    case Start(_, key) => With(w, owner, o.(dispatcher := Started(d, key)))
    case Load(_, key, load) =>
      With(w, owner, o.(dispatcher := Loaded(d, key, owned, load)))
      .(fired := if Fires(d, key, owned, load) then Fired(w, key) else w.fired)
    case Handle(_, key, result) => With(w, owner, o.(dispatcher := Handled(d, key, owned, result)))
    case Encode(_, key, ok) => With(w, owner, o.(dispatcher := Encoded(d, key, owned, ok)))
    case Publish(_, key, ok) => With(w, owner, o.(dispatcher := Published(d, key, owned, ok)))
    case Close(_) => With(w, owner, o.(dispatcher := Reset(d).(closed := true)))
  }

  ghost predicate Legal(w: World, steps: seq<Step>)
    decreases |steps|
  {
    steps == [] || (Enabled(w, steps[0]) && Legal(Next(w, steps[0]), steps[1..]))
  }

  ghost function Run(w: World, steps: seq<Step>): World
    requires Legal(w, steps)
    decreases |steps|
  {
    if steps == [] then w else Run(Next(w, steps[0]), steps[1..])
  }

  /** The environment's promise: one key is one invocation, published in one record. */
  ghost predicate OneRecordPerKey(log: map<Slot, seq<Reference>>) {
    forall s, t, q, r | s in log && t in log && q in log[s] && r in log[t] && q.key == r.key :: s == t && q == r
  }

  ghost predicate Fresh(w: World) {
    && OneRecordPerKey(w.log) && w.committed == map[] && w.holder == map[] && w.fired == map[] && w.granted == {}
    && forall i | i in w.owners :: w.owners[i] == Owner(IDLE, map[], map[])
  }

  // ----- Commits: a record is admitted for effects at most once -----

  /** An owner that may still be granted the record. */
  ghost predicate Claims(w: World, i: nat, s: Slot) {
    i in w.owners &&
    var o := w.owners[i];
    || (s.partition in o.positions && s.partition in w.holder && w.holder[s.partition] == i
        && o.positions[s.partition] <= s.offset)
    || (s.partition in o.positions && s.partition in o.consuming
        && o.consuming[s.partition].applied && o.consuming[s.partition].offset == s.offset)
  }

  ghost predicate Orderly(w: World, i: nat, p: nat)
    requires i in w.owners
  {
    var o := w.owners[i];
    && (p in o.consuming && o.consuming[p].applied ==> o.consuming[p].offset < Count(w.committed, p))
    && (p in o.consuming && p in o.positions ==> o.positions[p] <= o.consuming[p].offset)
    && (p in o.positions && p in w.holder && w.holder[p] == i ==> o.positions[p] <= Count(w.committed, p))
  }

  ghost predicate Exclusive(w: World) {
    && (forall i, j, s | Claims(w, i, s) && Claims(w, j, s) :: i == j)
    && (forall s | s in w.granted :: s.offset < Count(w.committed, s.partition) && forall i :: !Claims(w, i, s))
    && (forall i, p | i in w.owners :: Orderly(w, i, p))
  }

  lemma OthersClaimsShrink(w: World, step: Step, i: nat, s: Slot)
    requires Enabled(w, step) && i != step.owner
    ensures Claims(Next(w, step), i, s) ==> Claims(w, i, s)
  {
    hide RememberAll, Loaded, Handled, Encoded, Published, Started, Safe, Removed, Woken, Reset, Dispatched;
  }

  lemma ClaimsShrink(w: World, step: Step, i: nat, s: Slot)
    requires Enabled(w, step) && Exclusive(w)
    ensures Claims(Next(w, step), i, s) ==>
              Claims(w, i, s) || (step.Assign? && i == step.owner && Count(w.committed, s.partition) <= s.offset)
  {
    if i != step.owner {
      OthersClaimsShrink(w, step, i, s);
    } else {
      assert Orderly(w, i, s.partition);
      OwnClaimsShrink(w, step, s);
    }
    hide Exclusive, Enabled, Next, Claims;
  }

  lemma OwnClaimsShrink(w: World, step: Step, s: Slot)
    requires Enabled(w, step) && Orderly(w, step.owner, s.partition)
    ensures Claims(Next(w, step), step.owner, s) ==>
              Claims(w, step.owner, s) || (step.Assign? && Count(w.committed, s.partition) <= s.offset)
  {
    hide RememberAll, Loaded, Handled, Encoded, Published, Started, Safe, Removed, Woken, Reset, Dispatched;
  }

  lemma NewClaimIsSole(w: World, step: Step, i: nat, s: Slot)
    requires Enabled(w, step) && step.Assign? && Exclusive(w) && i != step.owner
    requires s.partition in step.partitions && Count(w.committed, s.partition) <= s.offset
    ensures !Claims(Next(w, step), i, s)
  {
    if i in w.owners {
      assert Orderly(w, i, s.partition);
    }
  }

  lemma AssignedClaims(w: World, step: Step, s: Slot)
    requires Enabled(w, step) && step.Assign? && Claims(Next(w, step), step.owner, s)
    ensures s.partition in step.partitions
  {
  }

  lemma StepKeepsExclusive(w: World, step: Step)
    requires Enabled(w, step) && Exclusive(w)
    ensures Exclusive(Next(w, step))
  {
    var w' := Next(w, step);
    forall i, s ensures Claims(w', i, s) ==>
                          Claims(w, i, s) || (step.Assign? && i == step.owner
                              && Count(w.committed, s.partition) <= s.offset)
    {
      ClaimsShrink(w, step, i, s);
    }
    ClaimsStayUnique(w, step);
    GrantsStayUnclaimed(w, step);
    BookkeepingHolds(w, step);
  }

  lemma ClaimsStayUnique(w: World, step: Step)
    requires Enabled(w, step) && Exclusive(w)
    ensures forall i, j, s | Claims(Next(w, step), i, s) && Claims(Next(w, step), j, s) :: i == j
  {
    var w' := Next(w, step);
    forall i, j, s | Claims(w', i, s) && Claims(w', j, s) ensures i == j {
      ClaimsShrink(w, step, i, s);
      ClaimsShrink(w, step, j, s);
      if step.Assign? && Count(w.committed, s.partition) <= s.offset && i != j {
        if i == step.owner {
          AssignedClaims(w, step, s);
          NewClaimIsSole(w, step, j, s);
        } else if j == step.owner {
          AssignedClaims(w, step, s);
          NewClaimIsSole(w, step, i, s);
        }
      }
      hide Next, Claims;
    }
  }

  lemma GrantsStayUnclaimed(w: World, step: Step)
    requires Enabled(w, step) && Exclusive(w)
    ensures var w' := Next(w, step);
            forall s | s in w'.granted :: s.offset < Count(w'.committed, s.partition) && forall i :: !Claims(w', i, s)
  {
    var w' := Next(w, step);
    forall s | s in w'.granted
      ensures s.offset < Count(w'.committed, s.partition) && forall i :: !Claims(w', i, s)
    {
      CommittedGrows(w, step, s.partition);
      if s in w.granted {
        forall i ensures !Claims(w', i, s) {
          ClaimsShrink(w, step, i, s);
        }
      } else {
        GrantEndsClaims(w, step, s);
      }
    }
  }

  lemma CommittedGrows(w: World, step: Step, p: nat)
    requires Enabled(w, step)
    ensures Count(w.committed, p) <= Count(Next(w, step).committed, p)
  {
  }

  lemma GrantEndsClaims(w: World, step: Step, s: Slot)
    requires Enabled(w, step) && Exclusive(w) && s in Next(w, step).granted && s !in w.granted
    ensures step.Acknowledge? && Claims(w, step.owner, s)
    ensures s.offset < Count(Next(w, step).committed, s.partition) && forall i :: !Claims(Next(w, step), i, s)
  {
    hide RememberAll;
    var w' := Next(w, step);
    assert Orderly(w, step.owner, s.partition);
    assert Claims(w, step.owner, s);
    forall i ensures !Claims(w', i, s) {
      ClaimsShrink(w, step, i, s);
    }
  }

  lemma BookkeepingHolds(w: World, step: Step)
    requires Enabled(w, step) && Exclusive(w)
    ensures forall i, p | i in Next(w, step).owners :: Orderly(Next(w, step), i, p)
  {
    forall i, p | i in Next(w, step).owners ensures Orderly(Next(w, step), i, p) {
      assert Orderly(w, i, p);
      StepKeepsOrderly(w, step, i, p);
    }
  }

  lemma StepKeepsOrderly(w: World, step: Step, i: nat, p: nat)
    requires Enabled(w, step) && i in w.owners && Orderly(w, i, p)
    ensures i in Next(w, step).owners && Orderly(Next(w, step), i, p)
  {
    hide RememberAll, Loaded, Handled, Encoded, Published, Started, Safe, Removed, Woken, Reset, Startable, Dispatched;
    if i != step.owner {
      OthersUntouched(w, step, i);
    }
  }

  // ----- Effects: an admitted invocation reaches its handler at most once -----

  ghost predicate Unsafe(log: map<Slot, seq<Reference>>, key: string) {
    exists r :: Dispatched(log, r) && r.key == key && !r.replayable
  }

  ghost predicate InRecord(w: World, s: Slot, key: string) {
    s in w.log && exists r :: r in w.log[s] && r.key == key
  }

  /** The record of this key was admitted for effects. */
  ghost predicate AdmittedKey(w: World, key: string) {
    exists s :: s in w.granted && InRecord(w, s, key)
  }

  /** An entry that will hand its command to the handler, and must do so only once. */
  ghost predicate Armed(w: World, i: nat, key: string) {
    i in w.owners && key in w.owners[i].dispatcher.pending
    && w.owners[i].dispatcher.pending[key].execution == Once
  }

  ghost predicate EntrySound(log: map<Slot, seq<Reference>>, key: string, entry: Pending) {
    && entry.reference.key == key && Dispatched(log, entry.reference)
    && (entry.execution == Repeatable <==> entry.reference.replayable)
  }

  ghost predicate OwnerSound(log: map<Slot, seq<Reference>>, o: Owner) {
    && (forall key | key in o.dispatcher.pending :: EntrySound(log, key, o.dispatcher.pending[key]))
    && (forall p | p in o.consuming ::
          Slot(p, o.consuming[p].offset) in log
          && forall r | r in o.consuming[p].rest :: r in log[Slot(p, o.consuming[p].offset)])
  }

  ghost predicate AtMostOnce(w: World) {
    && OneRecordPerKey(w.log) && Exclusive(w)
    && (forall i | i in w.owners :: OwnerSound(w.log, w.owners[i]))
    && (forall i, key | Armed(w, i, key) :: AdmittedKey(w, key) && Count(w.fired, key) == 0)
    && (forall i, j, key | Armed(w, i, key) && Armed(w, j, key) :: i == j)
    && (forall key | Unsafe(w.log, key) ::
          Count(w.fired, key) <= 1 && (Count(w.fired, key) == 1 ==> AdmittedKey(w, key)))
  }

  /** Remembering keeps every existing entry and adds only the given references. */
  lemma {:induction false} RememberAllFacts(d: Dispatcher, refs: seq<Reference>, p: nat, unsafe: Execution)
    ensures var d' := RememberAll(d, refs, p, unsafe);
            && d'.active == d.active && d'.generation == d.generation && d'.closed == d.closed
            && (forall k | k in d.pending :: k in d'.pending && d'.pending[k] == d.pending[k])
            && (forall k | k in d'.pending && k !in d.pending ::
                  && d'.pending[k].reference in refs && d'.pending[k].reference.key == k
                  && d'.pending[k].execution == if d'.pending[k].reference.replayable then Repeatable else unsafe)
    decreases |refs|
  {
    if refs != [] && !Changed(d, refs[0]) {
      var d1 := Remember(d, refs[0], p, if refs[0].replayable then Repeatable else unsafe);
      RememberAllFacts(d1, refs[1..], p, unsafe);
      assert forall r | r in refs[1..] :: r in refs;
    }
  }

  /** What a step makes of one entry: it keeps its reference, and `Once` can only become `Uncertain`. */
  ghost predicate Descends(d: Dispatcher, d': Dispatcher, key: string) {
    key in d'.pending ==>
      && key in d.pending && d'.pending[key].reference == d.pending[key].reference
      && d'.pending[key].serial == d.pending[key].serial
      && (d'.pending[key].execution == d.pending[key].execution
          || (d.pending[key].execution == Once && d'.pending[key].execution == Uncertain))
  }

  ghost predicate Remembers(step: Step) {
    step.Deliver? || step.Acknowledge? || step.Recover?
  }

  lemma OtherStepsDescend(w: World, step: Step, key: string)
    requires Enabled(w, step) && !Remembers(step)
    ensures Descends(w.owners[step.owner].dispatcher, Next(w, step).owners[step.owner].dispatcher, key)
  {
  }

  /** What a step that remembers references adds: entries of the given ones, armed only if `unsafe` is `Once`. */
  ghost predicate Adds(d: Dispatcher, d': Dispatcher, key: string, refs: seq<Reference>, unsafe: Execution) {
    && (key in d.pending ==> key in d'.pending && d'.pending[key] == d.pending[key])
    && (key in d'.pending && key !in d.pending ==>
          var entry := d'.pending[key];
          && entry.reference.key == key && entry.reference in refs
          && entry.execution == if entry.reference.replayable then Repeatable else unsafe)
  }

  lemma RememberingAdds(d: Dispatcher, refs: seq<Reference>, p: nat, unsafe: Execution, key: string)
    ensures Adds(d, RememberAll(d, refs, p, unsafe), key, refs, unsafe)
  {
    RememberAllFacts(d, refs, p, unsafe);
    hide RememberAll;
  }

  lemma DeliveryAdds(o: Owner, refs: seq<Reference>, slot: Slot, key: string)
    requires slot.partition in o.positions
    ensures Adds(o.dispatcher, Delivered(o, refs, slot).dispatcher, key, refs, Uncertain)
  {
    var n := Safe(refs);
    var d := RememberAll(o.dispatcher, refs[..n], slot.partition, Uncertain);
    RememberingAdds(o.dispatcher, refs[..n], slot.partition, Uncertain, key);
    RememberingAdds(d, refs[n..], slot.partition, Uncertain, key);
    hide RememberAll, Safe;
  }

  lemma RememberedEntries(w: World, step: Step, key: string)
    requires Enabled(w, step) && Remembers(step)
    ensures var d, d' := w.owners[step.owner].dispatcher, Next(w, step).owners[step.owner].dispatcher;
            && (key in d.pending ==> key in d'.pending && d'.pending[key] == d.pending[key])
            && (key in d'.pending && key !in d.pending ==>
                  var entry := d'.pending[key];
                  && entry.reference.key == key
                  && (entry.execution == Repeatable <==> entry.reference.replayable)
                  && (entry.execution == Once ==>
                        step.Acknowledge? && step.partition in w.owners[step.owner].positions
                        && entry.reference in w.owners[step.owner].consuming[step.partition].rest)
                  && (step.Deliver? ==> entry.reference in w.log[step.slot])
                  && (step.Recover? ==> entry.reference in step.refs)
                  && (step.Acknowledge? ==> entry.reference in w.owners[step.owner].consuming[step.partition].rest))
  {
    hide RememberAll, Delivered;
    var o := w.owners[step.owner];
    match step {
      case Deliver(_, slot) => DeliveryAdds(o, w.log[slot], slot, key);
      case Acknowledge(_, p) => RememberingAdds(o.dispatcher, o.consuming[p].rest, p, Once, key);
      case Recover(_, refs, p) => RememberingAdds(o.dispatcher, refs, p, Uncertain, key);
      case _ =>
    }
  }

  /** An existing entry of any owner is never made more permissive, by recovery or by anything else. */
  lemma NeverUpgraded(w: World, step: Step, i: nat, key: string)
    requires Enabled(w, step) && i in w.owners && key in w.owners[i].dispatcher.pending
    ensures var before := w.owners[i].dispatcher.pending[key];
            var pending := Next(w, step).owners[i].dispatcher.pending;
            key in pending ==>
              pending[key].serial == before.serial
              && (pending[key].execution == before.execution
                  || (before.execution == Once && pending[key].execution == Uncertain))
  {
    if i == step.owner {
      if Remembers(step) {
        RememberedEntries(w, step, key);
      } else {
        OtherStepsDescend(w, step, key);
      }
    }
  }

  lemma OthersUntouched(w: World, step: Step, i: nat)
    requires Enabled(w, step) && i in w.owners && i != step.owner
    ensures Next(w, step).owners[i] == w.owners[i]
  {
  }

  lemma ConsumingFromRecord(w: World, step: Step, p: nat)
    requires Enabled(w, step) && OwnerSound(w.log, w.owners[step.owner])
    requires p in Next(w, step).owners[step.owner].consuming
    ensures var c := Next(w, step).owners[step.owner].consuming[p];
            Slot(p, c.offset) in w.log && forall r | r in c.rest :: r in w.log[Slot(p, c.offset)]
  {
    hide RememberAll, Loaded, Handled, Encoded, Published, Started, EntrySound;
  }

  lemma StepKeepsEntrySound(w: World, step: Step, key: string)
    requires Enabled(w, step) && OwnerSound(w.log, w.owners[step.owner])
    requires step.owner in Next(w, step).owners && key in Next(w, step).owners[step.owner].dispatcher.pending
    ensures EntrySound(w.log, key, Next(w, step).owners[step.owner].dispatcher.pending[key])
  {
    var d, d' := w.owners[step.owner].dispatcher, Next(w, step).owners[step.owner].dispatcher;
    if Remembers(step) {
      RememberedEntries(w, step, key);
      if key !in d.pending {
        NewEntryDispatched(w, step, d'.pending[key].reference);
      }
    } else {
      OtherStepsDescend(w, step, key);
    }
    assert key in d.pending ==> EntrySound(w.log, key, d.pending[key]);
    hide Enabled, Next, OwnerSound, Dispatched;
  }

  lemma StepKeepsOwnersSound(w: World, step: Step, i: nat)
    requires Enabled(w, step) && i in w.owners && AtMostOnce(w)
    ensures i in Next(w, step).owners && OwnerSound(w.log, Next(w, step).owners[i])
  {
    assert OwnerSound(w.log, w.owners[i]);
    SameOwners(w, step, i);
    hide AtMostOnce, Next;
    if i != step.owner {
      OthersUntouched(w, step, i);
    } else {
      var o' := Next(w, step).owners[i];
      forall key | key in o'.dispatcher.pending ensures EntrySound(w.log, key, o'.dispatcher.pending[key]) {
        StepKeepsEntrySound(w, step, key);
      }
      forall p | p in o'.consuming
        ensures var c := o'.consuming[p];
                Slot(p, c.offset) in w.log && forall r | r in c.rest :: r in w.log[Slot(p, c.offset)]
      {
        ConsumingFromRecord(w, step, p);
      }
    }
  }

  lemma NewEntryDispatched(w: World, step: Step, r: Reference)
    requires Enabled(w, step) && OwnerSound(w.log, w.owners[step.owner]) && Remembers(step)
    requires step.Deliver? ==> r in w.log[step.slot]
    requires step.Recover? ==> r in step.refs
    requires step.Acknowledge? ==> r in w.owners[step.owner].consuming[step.partition].rest
    ensures Dispatched(w.log, r)
  {
  }

  /** A step arms a key only by granting its record, and fires it only from an armed or repeatable entry. */
  lemma NewlyArmed(w: World, step: Step, i: nat, key: string)
    requires Enabled(w, step) && AtMostOnce(w)
    requires Armed(Next(w, step), i, key) && !Armed(w, i, key)
    ensures i == step.owner && step.Acknowledge? && step.partition in w.owners[i].positions
    ensures var s := Slot(step.partition, w.owners[i].consuming[step.partition].offset);
            s in Next(w, step).granted && s !in w.granted && InRecord(w, s, key)
    ensures !AdmittedKey(w, key) && Unsafe(w.log, key)
  {
    hide OneRecordPerKey, Exclusive;
    if i != step.owner {
      OthersUntouched(w, step, i);
      assert false;
    }
    if !Remembers(step) {
      OtherStepsDescend(w, step, key);
      assert false;
    }
    RememberedEntries(w, step, key);
    StepKeepsOwnersSound(w, step, i);
    assert OwnerSound(w.log, w.owners[i]);
    var s := Slot(step.partition, w.owners[i].consuming[step.partition].offset);
    var r := Next(w, step).owners[i].dispatcher.pending[key].reference;
    assert r in w.log[s] && r.key == key && !r.replayable;
    UngrantedBefore(w, step, s);
    OnlyRecord(w, s, key);
  }

  lemma UngrantedBefore(w: World, step: Step, s: Slot)
    requires Enabled(w, step) && Exclusive(w) && step.Acknowledge? && step.partition in w.owners[step.owner].positions
    requires s == Slot(step.partition, w.owners[step.owner].consuming[step.partition].offset)
    ensures s !in w.granted && s in Next(w, step).granted
  {
    assert Claims(w, step.owner, s);
  }

  lemma OnlyRecord(w: World, s: Slot, key: string)
    requires OneRecordPerKey(w.log) && InRecord(w, s, key) && s !in w.granted
    ensures !AdmittedKey(w, key)
  {
  }

  lemma AdmissionGrows(w: World, step: Step, key: string)
    requires Enabled(w, step)
    ensures Next(w, step).log == w.log
    ensures AdmittedKey(w, key) ==> AdmittedKey(Next(w, step), key)
  {
    var w' := Next(w, step);
    assert w.granted <= w'.granted;
    forall s | s in w.granted && InRecord(w, s, key) ensures s in w'.granted && InRecord(w', s, key) {
    }
  }

  ghost predicate FiresNow(w: World, step: Step, key: string)
    requires Enabled(w, step)
  {
    step.Load? && step.key == key
    && Fires(w.owners[step.owner].dispatcher, key, w.owners[step.owner].positions.Keys, step.load)
  }

  lemma FiredCount(w: World, step: Step, key: string)
    requires Enabled(w, step)
    ensures Count(Next(w, step).fired, key) == Count(w.fired, key) + (if FiresNow(w, step, key) then 1 else 0)
  {
  }

  /** An unsafe key fires from its one armed entry. */
  lemma FiringWasArmed(w: World, step: Step, key: string)
    requires Enabled(w, step) && AtMostOnce(w) && FiresNow(w, step, key) && Unsafe(w.log, key)
    ensures Armed(w, step.owner, key) && Count(w.fired, key) == 0 && AdmittedKey(w, key)
  {
    hide OneRecordPerKey, Exclusive, Next, Loaded;
    var entry := w.owners[step.owner].dispatcher.pending[key];
    assert OwnerSound(w.log, w.owners[step.owner]);
    assert EntrySound(w.log, key, entry);
    UnsafeIsUnsafe(w.log, entry.reference);
    assert Armed(w, step.owner, key);
  }

  lemma LoadDisarms(d: Dispatcher, key: string, owned: set<nat>, load: LoadResult)
    requires key in d.active && Fires(d, key, owned, load)
    ensures key in Loaded(d, key, owned, load).pending && Loaded(d, key, owned, load).pending[key].execution != Once
  {
  }

  lemma LoadSetsDispatcher(w: World, step: Step)
    requires Enabled(w, step) && step.Load?
    ensures step.owner in Next(w, step).owners
    ensures var o := w.owners[step.owner];
            Next(w, step).owners[step.owner].dispatcher == Loaded(o.dispatcher, step.key, o.positions.Keys, step.load)
  {
    hide Loaded;
  }

  /** Firing disarms it. */
  lemma FiringDisarms(w: World, step: Step, key: string, i: nat)
    requires Enabled(w, step) && AtMostOnce(w) && FiresNow(w, step, key) && Unsafe(w.log, key)
    ensures !Armed(Next(w, step), i, key)
  {
    FiringWasArmed(w, step, key);
    hide OneRecordPerKey, Exclusive, OwnerSound, Next, Loaded;
    if i in w.owners && i != step.owner {
      OthersUntouched(w, step, i);
      assert !Armed(w, i, key);
    } else {
      SameOwners(w, step, i);
      var o := w.owners[step.owner];
      LoadDisarms(o.dispatcher, key, o.positions.Keys, step.load);
      LoadSetsDispatcher(w, step);
    }
  }

  lemma UnsafeIsUnsafe(log: map<Slot, seq<Reference>>, r: Reference)
    requires OneRecordPerKey(log) && Dispatched(log, r) && Unsafe(log, r.key)
    ensures !r.replayable
  {
    var q :| Dispatched(log, q) && q.key == r.key && !q.replayable;
    var s :| s in log && r in log[s];
    var t :| t in log && q in log[t];
  }

  lemma ArmedHasNotFired(w: World, step: Step, i: nat, key: string)
    requires Enabled(w, step) && AtMostOnce(w) && Armed(Next(w, step), i, key)
    ensures AdmittedKey(Next(w, step), key) && Count(Next(w, step).fired, key) == 0
  {
    AdmissionGrows(w, step, key);
    FiredCount(w, step, key);
    if Armed(w, i, key) {
      if FiresNow(w, step, key) {
        ArmedIsUnsafe(w, i, key);
        FiringDisarms(w, step, key, i);
      }
    } else {
      NewlyArmed(w, step, i, key);
      assert !FiresNow(w, step, key);
      var s := Slot(step.partition, w.owners[i].consuming[step.partition].offset);
      assert InRecord(Next(w, step), s, key);
      assert Count(w.fired, key) <= 1;
    }
  }

  lemma ArmedIsUnsafe(w: World, i: nat, key: string)
    requires AtMostOnce(w) && Armed(w, i, key)
    ensures Unsafe(w.log, key)
  {
    assert OwnerSound(w.log, w.owners[i]);
    assert EntrySound(w.log, key, w.owners[i].dispatcher.pending[key]);
  }

  lemma StepKeepsAtMostOnce(w: World, step: Step)
    requires Enabled(w, step) && AtMostOnce(w)
    ensures AtMostOnce(Next(w, step))
  {
    var w' := Next(w, step);
    StepKeepsExclusive(w, step);
    AdmissionGrows(w, step, "");
    hide Exclusive, OneRecordPerKey, Next, OwnerSound, Enabled, Armed, AdmittedKey, Unsafe, FiresNow;
    forall i | i in w'.owners ensures OwnerSound(w'.log, w'.owners[i]) {
      SameOwners(w, step, i);
      StepKeepsOwnersSound(w, step, i);
    }
    forall i, key | Armed(w', i, key) ensures AdmittedKey(w', key) && Count(w'.fired, key) == 0 {
      ArmedHasNotFired(w, step, i, key);
    }
    forall i, j, key | Armed(w', i, key) && Armed(w', j, key) ensures i == j {
      ArmedIsSole(w, step, i, j, key);
    }
    forall key | Unsafe(w'.log, key)
      ensures Count(w'.fired, key) <= 1 && (Count(w'.fired, key) == 1 ==> AdmittedKey(w', key))
    {
      AdmissionGrows(w, step, key);
      FiredCount(w, step, key);
      if FiresNow(w, step, key) {
        FiringWasArmed(w, step, key);
      }
    }
  }

  lemma SameOwners(w: World, step: Step, i: nat)
    requires Enabled(w, step)
    ensures i in Next(w, step).owners <==> i in w.owners
  {
  }

  lemma ArmedIsSole(w: World, step: Step, i: nat, j: nat, key: string)
    requires Enabled(w, step) && AtMostOnce(w) && Armed(Next(w, step), i, key) && Armed(Next(w, step), j, key)
    ensures i == j
  {
    hide Exclusive, OneRecordPerKey, Next, OwnerSound, Enabled, AdmittedKey, Unsafe;
    if !Armed(w, i, key) {
      NewlyArmed(w, step, i, key);
      if !Armed(w, j, key) {
        NewlyArmed(w, step, j, key);
      }
    } else if !Armed(w, j, key) {
      NewlyArmed(w, step, j, key);
    }
  }

  lemma {:induction false} RunKeepsAtMostOnce(w: World, steps: seq<Step>)
    requires AtMostOnce(w) && Legal(w, steps)
    ensures AtMostOnce(Run(w, steps)) && Run(w, steps).log == w.log
    decreases |steps|
  {
    if steps != [] {
      StepKeepsAtMostOnce(w, steps[0]);
      AdmissionGrows(w, steps[0], "");
      RunKeepsAtMostOnce(Next(w, steps[0]), steps[1..]);
    }
  }

  /**
   Over any run of any number of owners, the handler of an invocation that must not
   be repeated is called at most once, and only after its record's offset was
   committed, so that no later owner can be granted that record again.
   */
  lemma UnsafeToolsRunAtMostOnce(w: World, steps: seq<Step>, s: Slot, r: Reference)
    requires Fresh(w) && Legal(w, steps)
    requires s in w.log && r in w.log[s] && !r.replayable
    ensures var end := Run(w, steps);
            && Count(end.fired, r.key) <= 1
            && (Count(end.fired, r.key) == 1 ==> s in end.granted && s.offset < Count(end.committed, s.partition))
  {
    assert AtMostOnce(w) by {
      FreshIsSound(w);
    }
    RunKeepsAtMostOnce(w, steps);
    var end := Run(w, steps);
    hide Run, Legal;
    assert Dispatched(end.log, r) && Unsafe(end.log, r.key);
    if Count(end.fired, r.key) == 1 {
      var t :| t in end.granted && InRecord(end, t, r.key);
      var q :| q in end.log[t] && q.key == r.key;
      assert t == s;
    }
  }

  lemma FreshIsSound(w: World)
    requires Fresh(w)
    ensures AtMostOnce(w)
  {
    forall i, s ensures !Claims(w, i, s) {
    }
  }

  // ----- What does run -----

  /** A load that finds the command of a current task, not answered yet, runs it unless it may have run before. */
  lemma LoadRunsTheHandler(w: World, owner: nat, key: string)
    requires Enabled(w, Load(owner, key, Found)) && key in w.owners[owner].dispatcher.pending
    requires var o := w.owners[owner];
             var task, entry := o.dispatcher.active[key], o.dispatcher.pending[key];
             && !o.dispatcher.closed && task.generation == o.dispatcher.generation && task.serial == entry.serial
             && entry.partition in o.positions && !entry.reply && !entry.outcome
    ensures var w', uncertain := Next(w, Load(owner, key, Found)),
                                 w.owners[owner].dispatcher.pending[key].execution == Uncertain;
            && Count(w'.fired, key) == Count(w.fired, key) + (if uncertain then 0 else 1)
            && (forall k | k != key :: Count(w'.fired, k) == Count(w.fired, k))
            && AtStage(w', owner, key, if uncertain then Encoding else Handling)
            && key in w'.owners[owner].dispatcher.pending
            && (w'.owners[owner].dispatcher.pending[key].outcome <==> uncertain)
            && (w'.owners[owner].dispatcher.pending[key].execution == Repeatable
                <==> w.owners[owner].dispatcher.pending[key].execution == Repeatable)
  {
  }

  /** A handled command whose reply is encoded and published is over: forgotten if repeatable, else done. */
  lemma HandledIsAnswered(d: Dispatcher, key: string, owned: set<nat>)
    requires key in d.active && Current(d, key, owned)
    ensures var d1 := Handled(d, key, owned, Returned);
            && key in d1.active && d1.active[key].stage == Encoding
            && var d2 := Encoded(d1, key, owned, true);
            && key in d2.active && d2.active[key].stage == Publishing
            && var d3 := Published(d2, key, owned, true);
            && key !in d3.active
            && (if d.pending[key].execution == Repeatable then key !in d3.pending
                else key in d3.pending && d3.pending[key].done && !Startable(d3, key, owned))
  {
  }

  ghost predicate Ready(d: Dispatcher, r: Reference, p: nat, execution: Execution) {
    && r.key in d.pending
    && var entry := d.pending[r.key];
    && entry.reference == r && entry.partition == p && entry.execution == execution
    && entry.dirty && !entry.done && !entry.outcome && !entry.reply
  }

  /** No reference contradicts another one, or an existing entry. */
  ghost predicate Agreeing(d: Dispatcher, refs: seq<Reference>) {
    && (forall q | q in refs && q.key in d.pending :: d.pending[q.key].reference == q)
    && (forall q, r | q in refs && r in refs && q.key == r.key :: q == r)
  }

  lemma {:induction false} RememberedIsReady(
    d: Dispatcher, refs: seq<Reference>, p: nat, unsafe: Execution, r: Reference)
    requires r in refs && r.key !in d.pending && Agreeing(d, refs)
    ensures Ready(RememberAll(d, refs, p, unsafe), r, p, if r.replayable then Repeatable else unsafe)
    decreases |refs|
  {
    var d1 := Remember(d, refs[0], p, if refs[0].replayable then Repeatable else unsafe);
    assert refs[0] in refs && forall q | q in refs[1..] :: q in refs;
    if refs[0].key == r.key {
      RememberAllFacts(d1, refs[1..], p, unsafe);
    } else {
      assert Agreeing(d1, refs[1..]);
      RememberedIsReady(d1, refs[1..], p, unsafe, r);
    }
  }

  lemma RecordAgrees(log: map<Slot, seq<Reference>>, o: Owner, s: Slot, refs: seq<Reference>)
    requires OneRecordPerKey(log) && OwnerSound(log, o) && s in log && forall q | q in refs :: q in log[s]
    ensures Agreeing(o.dispatcher, refs)
  {
    forall q | q in refs && q.key in o.dispatcher.pending ensures o.dispatcher.pending[q.key].reference == q {
      var entry := o.dispatcher.pending[q.key];
      assert EntrySound(log, q.key, entry);
      var t :| t in log && entry.reference in log[t];
    }
  }

  /** A remembered invocation of an owned partition runs when it is started and loaded. */
  lemma ReadyRuns(w: World, owner: nat, r: Reference, p: nat, execution: Execution)
    requires owner in w.owners && p in w.owners[owner].positions
    requires Runnable(w.owners[owner].dispatcher, r, p, execution)
    ensures var run := [Start(owner, r.key), Load(owner, r.key, Found)];
            && Legal(w, run)
            && Count(Run(w, run).fired, r.key)
               == Count(w.fired, r.key) + (if execution == Uncertain then 0 else 1)
            && owner in Run(w, run).owners
            && AtStage(Run(w, run), owner, r.key, if execution == Uncertain then Encoding else Handling)
  {
    StartedIsCurrent(w, owner, r, p, execution);
    var w1 := Next(w, Start(owner, r.key));
    LoadRunsTheHandler(w1, owner, r.key);
    hide Next, Ready, Enabled;
    var w2 := Next(w1, Load(owner, r.key, Found));
    assert Legal(w2, []) && Run(w2, []) == w2;
    RunCons(w1, Load(owner, r.key, Found), []);
    assert [Load(owner, r.key, Found)] + [] == [Load(owner, r.key, Found)];
    RunCons(w, Start(owner, r.key), [Load(owner, r.key, Found)]);
    assert [Start(owner, r.key)] + [Load(owner, r.key, Found)] == [Start(owner, r.key), Load(owner, r.key, Found)];
  }

  lemma StartedIsCurrent(w: World, owner: nat, r: Reference, p: nat, execution: Execution)
    requires owner in w.owners && p in w.owners[owner].positions
    requires Runnable(w.owners[owner].dispatcher, r, p, execution)
    ensures Enabled(w, Start(owner, r.key))
    ensures var w' := Next(w, Start(owner, r.key));
            && w'.fired == w.fired && Enabled(w', Load(owner, r.key, Found))
            && var o := w'.owners[owner];
            && r.key in o.dispatcher.pending && !o.dispatcher.closed
            && var task, entry := o.dispatcher.active[r.key], o.dispatcher.pending[r.key];
            && task.generation == o.dispatcher.generation && task.serial == entry.serial
            && entry.partition in o.positions && !entry.reply && !entry.outcome && entry.execution == execution
  {
  }

  /** This owner may take the record, is not busy, and knows nothing of the key. */
  ghost predicate Takes(w: World, owner: nat, s: Slot, key: string) {
    && owner in w.owners && s in w.log
    && var o := w.owners[owner];
    && s.partition in o.positions && s.partition !in o.consuming
    && !o.dispatcher.closed && |o.dispatcher.active| < 128
    && key !in o.dispatcher.active && key !in o.dispatcher.pending
  }

  lemma {:induction false} SafeCovers(refs: seq<Reference>, i: nat)
    requires i < |refs|
    ensures i < Safe(refs) <==> forall j | 0 <= j <= i :: refs[j].replayable
  {
    if refs[0].replayable && i > 0 {
      SafeCovers(refs[1..], i - 1);
      forall j | 0 < j <= i ensures refs[j] == refs[1..][j - 1] {
      }
    }
  }

  /**
   After any run, a replayable invocation is handed to its handler once more by delivering its record
   to an owner of the partition, starting it and loading it, whether or not the record was seen before.
   */
  lemma ReplayableToolsRun(w0: World, steps: seq<Step>, owner: nat, s: Slot, i: nat)
    requires Fresh(w0) && Legal(w0, steps)
    requires var w := Run(w0, steps);
             && s in w.log && i < |w.log[s]| && (forall j | 0 <= j <= i :: w.log[s][j].replayable)
             && Takes(w, owner, s, w.log[s][i].key)
    ensures var w, key := Run(w0, steps), Run(w0, steps).log[s][i].key;
            var run := [Deliver(owner, s), Start(owner, key), Load(owner, key, Found)];
            Legal(w, run) && Count(Run(w, run).fired, key) == Count(w.fired, key) + 1
  {
    FreshIsSound(w0);
    RunKeepsAtMostOnce(w0, steps);
    var w := Run(w0, steps);
    hide Run, Legal;
    var r := w.log[s][i];
    SafeCovers(w.log[s], i);
    DeliveryIsReady(w, owner, s, r);
    hide AtMostOnce, Takes, Next;
    ReadyRuns(Next(w, Deliver(owner, s)), owner, r, s.partition, Repeatable);
    RunCons(w, Deliver(owner, s), [Start(owner, r.key), Load(owner, r.key, Found)]);
  }

  lemma RunCons(w: World, step: Step, rest: seq<Step>)
    requires Enabled(w, step) && Legal(Next(w, step), rest)
    ensures Legal(w, [step] + rest) && Run(w, [step] + rest) == Run(Next(w, step), rest)
  {
    assert ([step] + rest)[1..] == rest;
    hide Enabled, Next;
  }

  lemma DeliveryIsReady(w: World, owner: nat, s: Slot, r: Reference)
    requires AtMostOnce(w) && Takes(w, owner, s, r.key)
    requires r in w.log[s][..Safe(w.log[s])]
    ensures Enabled(w, Deliver(owner, s))
    ensures var w' := Next(w, Deliver(owner, s));
            && w'.fired == w.fired && owner in w'.owners
            && s.partition in w'.owners[owner].positions
            && Runnable(w'.owners[owner].dispatcher, r, s.partition, Repeatable)
  {
    var o := w.owners[owner];
    assert OwnerSound(w.log, o);
    OneRecordInAtMostOnce(w);
    hide AtMostOnce, OwnerSound, OneRecordPerKey, Delivered, Safe, Runnable;
    DeliveredIsReady(w.log, o, s, r);
  }

  ghost predicate Runnable(d: Dispatcher, r: Reference, p: nat, execution: Execution) {
    Ready(d, r, p, execution) && !d.closed && |d.active| < 128 && r.key !in d.active
  }

  lemma DeliveredIsReady(log: map<Slot, seq<Reference>>, o: Owner, s: Slot, r: Reference)
    requires OneRecordPerKey(log) && OwnerSound(log, o) && s in log && s.partition in o.positions
    requires r in log[s][..Safe(log[s])]
    requires !o.dispatcher.closed && |o.dispatcher.active| < 128
    requires r.key !in o.dispatcher.active && r.key !in o.dispatcher.pending
    ensures Runnable(Delivered(o, log[s], s).dispatcher, r, s.partition, Repeatable)
    ensures Delivered(o, log[s], s).positions == o.positions
  {
    hide OwnerSound, Safe, RememberAll, OneRecordPerKey, Agreeing, Ready;
    var refs, n := log[s], Safe(log[s]);
    SafePart(refs);
    RecordAgrees(log, o, s, refs[..n]);
    RememberedIsReady(o.dispatcher, refs[..n], s.partition, Uncertain, r);
    RememberAllFacts(o.dispatcher, refs[..n], s.partition, Uncertain);
    var d := RememberAll(o.dispatcher, refs[..n], s.partition, Uncertain);
    RememberAllFacts(d, refs[n..], s.partition, Uncertain);
    ReadyStays(d, RememberAll(d, refs[n..], s.partition, Uncertain), r, s.partition, Repeatable);
  }

  lemma SafePart(refs: seq<Reference>)
    ensures forall q | q in refs[..Safe(refs)] :: q in refs && q.replayable
  {
    hide Safe;
  }

  lemma ReadyStays(d: Dispatcher, d': Dispatcher, r: Reference, p: nat, execution: Execution)
    requires Ready(d, r, p, execution)
    requires forall k | k in d.pending :: k in d'.pending && d'.pending[k] == d.pending[k]
    ensures Ready(d', r, p, execution)
  {
  }

  lemma OneRecordInAtMostOnce(w: World)
    requires AtMostOnce(w)
    ensures OneRecordPerKey(w.log)
  {
  }

  /**
   After any run, an invocation that must not be repeated, in a record that the holder of its partition
   has not seen committed, is handed to its handler, for the only time, by delivering the record,
   committing it, and starting and loading the invocation.
   */
  lemma NewUnsafeToolsRun(w0: World, steps: seq<Step>, owner: nat, s: Slot, r: Reference)
    requires Fresh(w0) && Legal(w0, steps)
    requires var w := Run(w0, steps);
             && Takes(w, owner, s, r.key) && r in w.log[s] && !r.replayable
             && s.partition in w.holder && w.holder[s.partition] == owner
             && w.owners[owner].positions[s.partition] <= s.offset
    ensures var w, p := Run(w0, steps), s.partition;
            var run := [Deliver(owner, s), Apply(owner, p), Acknowledge(owner, p), Start(owner, r.key),
                        Load(owner, r.key, Found)];
            && Legal(w, run) && Count(Run(w, run).fired, r.key) == 1 && Count(w.fired, r.key) == 0
  {
    hide Fresh, AtMostOnce, Takes, Next, Enabled, Runnable, Run, Legal;
    FreshIsSound(w0);
    RunKeepsAtMostOnce(w0, steps);
    var w, p := Run(w0, steps), s.partition;
    CommitIsReady(w, owner, s, r);
    UngrantedHasNotFired(w, owner, s, r);
    var w1 := Next(w, Deliver(owner, s));
    var w2 := Next(w1, Apply(owner, p));
    ReadyRuns(Next(w2, Acknowledge(owner, p)), owner, r, p, Once);
    var tail := [Start(owner, r.key), Load(owner, r.key, Found)];
    RunCons(w2, Acknowledge(owner, p), tail);
    RunCons(w1, Apply(owner, p), [Acknowledge(owner, p)] + tail);
    RunCons(w, Deliver(owner, s), [Apply(owner, p)] + ([Acknowledge(owner, p)] + tail));
    assert [Deliver(owner, s)] + ([Apply(owner, p)] + ([Acknowledge(owner, p)] + tail))
           == [Deliver(owner, s), Apply(owner, p), Acknowledge(owner, p), Start(owner, r.key),
               Load(owner, r.key, Found)];
  }

  lemma UngrantedHasNotFired(w: World, owner: nat, s: Slot, r: Reference)
    requires AtMostOnce(w) && Takes(w, owner, s, r.key) && r in w.log[s] && !r.replayable
    requires s.partition in w.holder && w.holder[s.partition] == owner
    requires w.owners[owner].positions[s.partition] <= s.offset
    ensures Count(w.fired, r.key) == 0
  {
    assert Claims(w, owner, s);
    assert Dispatched(w.log, r) && Unsafe(w.log, r.key);
    assert InRecord(w, s, r.key);
    OnlyRecord(w, s, r.key);
    hide Claims, Exclusive, OneRecordPerKey, Dispatched, OwnerSound;
  }

  lemma CommitIsReady(w: World, owner: nat, s: Slot, r: Reference)
    requires AtMostOnce(w) && Takes(w, owner, s, r.key) && r in w.log[s] && !r.replayable
    requires s.partition in w.holder && w.holder[s.partition] == owner
    requires w.owners[owner].positions[s.partition] <= s.offset
    ensures Enabled(w, Deliver(owner, s))
    ensures var w1 := Next(w, Deliver(owner, s));
            && Enabled(w1, Apply(owner, s.partition))
            && var w2 := Next(w1, Apply(owner, s.partition));
            && Enabled(w2, Acknowledge(owner, s.partition))
            && var w3 := Next(w2, Acknowledge(owner, s.partition));
            && w3.fired == w.fired && owner in w3.owners
            && s.partition in w3.owners[owner].positions
            && Runnable(w3.owners[owner].dispatcher, r, s.partition, Once)
  {
    hide AtMostOnce, Safe, RememberAll, Runnable, Agreeing, Dispatched, Ready, Delivered, Admitted, Next, Enabled;
    UnsafeIsInRest(w, owner, s, r);
    CommittedIsReady(w.owners[owner], w.log[s], s, r);
    DeliverStep(w, owner, s);
    ApplyStep(Next(w, Deliver(owner, s)), owner, s.partition);
    AcknowledgeStep(Next(Next(w, Deliver(owner, s)), Apply(owner, s.partition)), owner, s.partition);
  }

  lemma DeliverStep(w: World, owner: nat, s: Slot)
    requires owner in w.owners && s in w.log
    requires var o := w.owners[owner];
             s.partition in o.positions && s.partition !in o.consuming && !o.dispatcher.closed
    ensures Enabled(w, Deliver(owner, s))
    ensures var w' := Next(w, Deliver(owner, s));
            && owner in w'.owners && w'.owners[owner] == Delivered(w.owners[owner], w.log[s], s)
            && w'.holder == w.holder && w'.fired == w.fired
  {
    hide Delivered;
  }

  lemma ApplyStep(w: World, owner: nat, p: nat)
    requires owner in w.owners && p in w.owners[owner].consuming && !w.owners[owner].consuming[p].applied
    requires p in w.holder && w.holder[p] == owner
    ensures Enabled(w, Apply(owner, p))
    ensures var w', o := Next(w, Apply(owner, p)), w.owners[owner];
            && owner in w'.owners && w'.fired == w.fired
            && w'.owners[owner] == o.(consuming := o.consuming[p := o.consuming[p].(applied := true)])
  {
  }

  lemma AcknowledgeStep(w: World, owner: nat, p: nat)
    requires owner in w.owners && p in w.owners[owner].consuming && w.owners[owner].consuming[p].applied
    ensures Enabled(w, Acknowledge(owner, p))
    ensures var w' := Next(w, Acknowledge(owner, p));
            && owner in w'.owners && w'.fired == w.fired && w'.owners[owner] == Admitted(w.owners[owner], p)
  {
    hide Admitted;
  }

  lemma CommittedIsReady(o: Owner, refs: seq<Reference>, s: Slot, r: Reference)
    requires s.partition in o.positions && s.partition !in o.consuming && o.positions[s.partition] <= s.offset
    requires !o.dispatcher.closed && |o.dispatcher.active| < 128 && r.key !in o.dispatcher.active && !r.replayable
    requires var n := Safe(refs);
             var d := RememberAll(o.dispatcher, refs[..n], s.partition, Uncertain);
             n < |refs| && r in refs[n..] && r.key !in d.pending && Agreeing(d, refs[n..])
    ensures var o1, p := Delivered(o, refs, s), s.partition;
            && o1.positions == o.positions && p in o1.consuming && !o1.consuming[p].applied
            && var o2 := o1.(consuming := o1.consuming[p := o1.consuming[p].(applied := true)]);
            var o3 := Admitted(o2, p);
            p in o3.positions && Runnable(o3.dispatcher, r, p, Once)
  {
    hide Safe, RememberAll, Agreeing, Ready, Delivered;
    var n, p := Safe(refs), s.partition;
    var d := RememberAll(o.dispatcher, refs[..n], p, Uncertain);
    DeliveredUncommitted(o, refs, s);
    RememberAllFacts(o.dispatcher, refs[..n], p, Uncertain);
    RememberedIsReady(d, refs[n..], p, Once, r);
    RememberAllFacts(d, refs[n..], p, Once);
  }

  lemma DeliveredUncommitted(o: Owner, refs: seq<Reference>, s: Slot)
    requires s.partition in o.positions && o.positions[s.partition] <= s.offset && Safe(refs) < |refs|
    ensures var n := Safe(refs);
            Delivered(o, refs, s)
            == o.(dispatcher := RememberAll(o.dispatcher, refs[..n], s.partition, Uncertain),
                  consuming := o.consuming[s.partition := Commit(s.offset, refs[n..], false)])
  {
    hide Safe, RememberAll;
  }

  /** The safe references before it leave it unknown, and agree with the rest of the record. */
  lemma UnsafeIsInRest(w: World, owner: nat, s: Slot, r: Reference)
    requires AtMostOnce(w) && Takes(w, owner, s, r.key) && r in w.log[s] && !r.replayable
    ensures var refs := w.log[s];
            var n := Safe(refs);
            var d := RememberAll(w.owners[owner].dispatcher, refs[..n], s.partition, Uncertain);
            n < |refs| && r in refs[n..] && r.key !in d.pending && Agreeing(d, refs[n..])
  {
    assert OwnerSound(w.log, w.owners[owner]);
    OneRecordInAtMostOnce(w);
    hide AtMostOnce, OwnerSound, Safe, RememberAll, OneRecordPerKey, Agreeing;
    RecordAgrees(w.log, w.owners[owner], s, w.log[s]);
    RestAgrees(w.owners[owner].dispatcher, w.log[s], Safe(w.log[s]), s.partition, r);
  }

  lemma RestAgrees(d: Dispatcher, refs: seq<Reference>, n: nat, p: nat, r: Reference)
    requires n <= |refs| && Agreeing(d, refs) && (forall i | 0 <= i < n :: refs[i].replayable)
    requires r in refs && !r.replayable && r.key !in d.pending
    ensures var d' := RememberAll(d, refs[..n], p, Uncertain);
            n < |refs| && r in refs[n..] && r.key !in d'.pending && Agreeing(d', refs[n..])
  {
    hide RememberAll;
    RememberAllFacts(d, refs[..n], p, Uncertain);
    var d' := RememberAll(d, refs[..n], p, Uncertain);
    var i :| 0 <= i < |refs| && refs[i] == r;
    assert refs[n..][i - n] == r;
    forall q | q in refs[..n] ensures q in refs && q.replayable && q.key != r.key {
    }
    forall q | q in refs[n..] ensures q in refs {
    }
  }

  // ----- The dispatcher in place -----

  class ControlToolDispatcher {
    var pending: map<string, Pending>
    var active: map<string, Task>
    var generation: nat
    var closed: bool
    var serials: nat

    ghost function Contents(): Dispatcher
      reads this
    {
      Dispatcher(pending, active, generation, closed, serials)
    }

    constructor ()
      ensures Contents() == IDLE
    {
      pending, active, generation, closed, serials := map[], map[], 0, false, 0;
    }

    method Note(reference: Reference, partition: nat, execution: Execution) returns (changed: bool)
      modifies this`pending, this`serials
      ensures changed == Changed(old(Contents()), reference)
      ensures Contents() == Remember(old(Contents()), reference, partition, execution)
    {
      if reference.key in pending {
        return pending[reference.key].reference != reference;
      }
      pending := pending[reference.key := Pending(serials, reference, partition, execution, true, false, false, false)];
      serials := serials + 1;
      return false;
    }

    /** One uninterrupted stretch of a record: `admitted` is the answer of the offset commit. */
    method Admit(refs: seq<Reference>, partition: nat, admitted: bool) returns (changed: bool)
      modifies this`pending, this`serials
      ensures Contents() == RememberAll(old(Contents()), refs, partition, if admitted then Once else Uncertain)
      ensures forall r | r in refs && !changed :: r.key in pending && pending[r.key].reference == r
      ensures forall k | k in old(pending) :: k in pending && pending[k] == old(pending)[k]
    {
      changed := false;
      var i := 0;
      while i < |refs| && !changed
        invariant 0 <= i <= |refs|
        invariant !changed ==>
                    RememberAll(old(Contents()), refs, partition, if admitted then Once else Uncertain)
                    == RememberAll(Contents(), refs[i..], partition, if admitted then Once else Uncertain)
        invariant changed ==>
                    RememberAll(old(Contents()), refs, partition, if admitted then Once else Uncertain) == Contents()
        invariant !changed ==> forall j | 0 <= j < i ::
                  refs[j].key in pending && pending[refs[j].key].reference == refs[j]
        invariant forall k | k in old(pending) :: k in pending && pending[k] == old(pending)[k]
        invariant active == old(active) && generation == old(generation) && closed == old(closed)
        decreases |refs| - i, !changed
      {
        assert refs[i..][0] == refs[i] && refs[i..][1..] == refs[i + 1..];
        var execution := if refs[i].replayable then Repeatable else if admitted then Once else Uncertain;
        changed := Note(refs[i], partition, execution);
        if !changed {
          i := i + 1;
        }
      }
    }

    method Remove(key: string)
      modifies this`pending
      ensures Contents() == Removed(old(Contents()), key)
    {
      pending := pending - {key};
    }

    method ResetAll()
      modifies this
      ensures Contents() == Reset(old(Contents()))
    {
      generation := generation + 1;
      pending := map[];
    }

    method Wake(key: string)
      modifies this`pending
      ensures Contents() == Woken(old(Contents()), key)
    {
      if key in pending {
        pending := pending[key := pending[key].(dirty := true)];
      }
    }

    /** One turn of the drain loop; the process may withhold its permission to start anything. */
    method TryStart(key: string, owned: set<nat>, permitted: bool) returns (started: bool)
      requires key in pending
      modifies this`pending, this`active
      ensures started == (permitted && Startable(old(Contents()), key, owned))
      ensures Contents() == if started then Started(old(Contents()), key) else old(Contents())
    {
      if closed || !permitted || |active| >= MAX_ACTIVE {
        return false;
      }
      var entry := pending[key];
      if entry.done || !entry.dirty || key in active || entry.partition !in owned {
        return false;
      }
      pending := pending[key := entry.(dirty := false)];
      active := active[key := Task(entry.serial, generation, Loading)];
      return true;
    }

    method IsCurrent(key: string, owned: set<nat>) returns (current: bool)
      requires key in active
      ensures current == Current(Contents(), key, owned)
    {
      return !closed && generation == active[key].generation && key in pending
             && pending[key].serial == active[key].serial && pending[key].partition in owned;
    }

    /** The command was loaded; returns whether its handler must now be invoked. */
    method AfterLoad(key: string, owned: set<nat>, load: LoadResult) returns (invoke: bool)
      requires key in active
      modifies this`pending, this`active
      ensures Contents() == Loaded(old(Contents()), key, owned, load)
      ensures invoke == Fires(old(Contents()), key, owned, load)
      ensures invoke ==> key in pending && pending[key].execution != Once
    {
      invoke := false;
      var task := active[key];
      var current := IsCurrent(key, owned);
      if load == LoadThrew || !current {
        active := active - {key};
        return;
      }
      if load == Missing {
        Remove(key);
        active := active - {key};
        return;
      }
      var entry := pending[key];
      if entry.reply {
        active := active[key := task.(stage := Publishing)];
        pending := pending[key := entry];
      } else if entry.outcome || entry.execution == Uncertain {
        active := active[key := task.(stage := Encoding)];
        pending := pending[key := entry.(outcome := true)];
      } else {
        if entry.execution == Once {
          entry := entry.(execution := Uncertain);
        }
        pending := pending[key := entry];
        active := active[key := task.(stage := Handling)];
        invoke := true;
      }
    }

    method AfterHandler(key: string, owned: set<nat>, result: HandlerResult)
      requires key in active
      modifies this`pending, this`active
      ensures Contents() == Handled(old(Contents()), key, owned, result)
    {
      var current := IsCurrent(key, owned);
      if result == Threw || !current || result == Waiting {
        active := active - {key};
      } else {
        pending := pending[key := pending[key].(outcome := true)];
        active := active[key := active[key].(stage := Encoding)];
      }
    }

    method AfterEncode(key: string, owned: set<nat>, succeeded: bool)
      requires key in active
      modifies this`pending, this`active
      ensures Contents() == Encoded(old(Contents()), key, owned, succeeded)
    {
      var current := IsCurrent(key, owned);
      if !succeeded || !current {
        active := active - {key};
      } else {
        pending := pending[key := pending[key].(outcome := false, reply := true)];
        active := active[key := active[key].(stage := Publishing)];
      }
    }

    method AfterPublish(key: string, owned: set<nat>, succeeded: bool)
      requires key in active
      modifies this`pending, this`active
      ensures Contents() == Published(old(Contents()), key, owned, succeeded)
    {
      var current := IsCurrent(key, owned);
      if succeeded && current {
        if pending[key].execution == Repeatable {
          Remove(key);
        } else {
          pending := pending[key := pending[key].(done := true, reply := false)];
        }
      }
      active := active - {key};
    }
  }
}
