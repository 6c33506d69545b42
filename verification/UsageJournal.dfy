/**
 The durable journal of model usage. New invocations are admitted against a
 watermark that leaves room for what the admitted ones may still report, so that
 an admitted result is never dropped for want of space.
 */
module UsageJournal {
  import opened Wrappers
  import opened Totals

  const MAX_ENVELOPE := 8192
  const RESERVATION := 32768
  const BATCH_LIMIT := 128

  datatype Attribution = Attribution(invocation: string, requestedAt: string, details: string)

  datatype Kind = Started | Attempt | Usage | Finished | Interrupted

  datatype Event = Event(context: Attribution, kind: Kind, occurredAt: string, execution: string, details: string)

  /** How a receipt is written out. */
  type Encoder = Event -> string

  datatype Store = Store(pending: map<string, string>, active: map<string, Attribution>, size: int)

  datatype Item = Item(key: string, raw: string)

  datatype Error = TooLarge | IdentityConflict | AtCapacity | AlreadyAdmitted | IdentityChanged

  const EMPTY := Store(map[], map[], 0)

  function KindName(kind: Kind): string {
    match kind
    case Started => "started"
    case Attempt => "attempt"
    case Usage => "usage"
    case Finished => "finished"
    case Interrupted => "interrupted"
  }

  function Id(e: Event): string {
    e.context.invocation + ":" + KindName(e.kind) + (if e.execution != "" then ":" + e.execution else "")
  }

  // ----- Transactions -----

  /** A receipt is stored once under its key; the same bytes again change nothing. */
  function Put(s: Store, encode: Encoder, e: Event): Result<Store, Error> {
    var key, raw := Id(e), encode(e);
    if |raw| > MAX_ENVELOPE then Failure(TooLarge)
    else if key in s.pending then
      if s.pending[key] != raw then Failure(IdentityConflict) else Success(s)
    else Success(s.(pending := s.pending[key := raw], size := s.size + |raw| + |key|))
  }

  function StartOf(ctx: Attribution): Event {
    Event(ctx, Started, ctx.requestedAt, "", "")
  }

  function Admit(s: Store, capacity: nat, encode: Encoder, ctx: Attribution): Result<Store, Error> {
    if s.size + (|s.active| + 1) * RESERVATION > capacity then Failure(AtCapacity)
    else if ctx.invocation in s.active then Failure(AlreadyAdmitted)
    else Put(s.(active := s.active[ctx.invocation := ctx]), encode, StartOf(ctx))
  }

  function Append(s: Store, encode: Encoder, e: Event): Result<Store, Error> {
    var r := Put(s, encode, e);
    if r.Failure? || e.kind != Finished then r
    else Success(r.value.(active := r.value.active - {e.context.invocation}))
  }

  function Interruption(ctx: Attribution, now: string): Event {
    Event(ctx, Interrupted, now, "", "")
  }

  /** Reports the invocations of a process that died, one after the other. */
  function Interrupt(s: Store, encode: Encoder, order: seq<string>, now: string): Result<Store, Error>
    requires forall i | i in order :: i in s.active
    decreases |order|
  {
    if order == [] then Success(s)
    else
      var r := Put(s, encode, Interruption(s.active[order[0]], now));
      if r.Failure? then r else Interrupt(r.value, encode, order[1..], now)
  }

  /** The active invocations in the order in which they are visited. */
  ghost predicate Visits(active: map<string, Attribution>, order: seq<string>) {
    && (forall i | i in order :: i in active)
    && (forall i | i in active :: i in order)
    && (forall a, b | 0 <= a < b < |order| :: order[a] != order[b])
    && (forall i | i in active :: active[i].invocation == i)
  }

  /** What opening the journal does to what an earlier process left. */
  function Recover(s: Store, encode: Encoder, order: seq<string>, now: string): Result<Store, Error>
    requires forall i | i in order :: i in s.active
  {
    var r := Interrupt(s, encode, order, now);
    if r.Failure? then r else Success(r.value.(active := map[]))
  }

  /** Deletes delivered receipts; one that is gone already is skipped. */
  function Acknowledge(s: Store, batch: seq<Item>): Result<Store, Error>
    decreases |batch|
  {
    if batch == [] then Success(s)
    else
      var item := batch[0];
      if item.key !in s.pending then Acknowledge(s, batch[1..])
      else if s.pending[item.key] != item.raw then Failure(IdentityChanged)
      else Acknowledge(Dropped(s, item.key), batch[1..])
  }

  function Dropped(s: Store, key: string): Store
    requires key in s.pending
  {
    s.(pending := s.pending - {key}, size := s.size - (|s.pending[key]| + |key|))
  }

  ghost predicate Batch(s: Store, batch: seq<Item>) {
    && |batch| == (if |s.pending| < BATCH_LIMIT then |s.pending| else BATCH_LIMIT)
    && (forall i | 0 <= i < |batch| :: batch[i].key in s.pending && s.pending[batch[i].key] == batch[i].raw)
    && (forall i, j | 0 <= i < j < |batch| :: batch[i].key != batch[j].key)
  }

  // ----- The stored size -----

  ghost function Weights(pending: map<string, string>): map<string, nat> {
    map k | k in pending :: |pending[k]| + |k|
  }

  ghost predicate Sized(s: Store) {
    s.size == Sum(Weights(s.pending))
  }

  ghost predicate Named(s: Store) {
    forall i | i in s.active :: s.active[i].invocation == i
  }

  ghost predicate Invariant(s: Store) {
    Sized(s) && Named(s)
  }

  lemma PutWeighs(pending: map<string, string>, key: string, raw: string)
    requires key !in pending
    ensures Sum(Weights(pending[key := raw])) == Sum(Weights(pending)) + |raw| + |key|
  {
    assert key !in Weights(pending) && Weights(pending[key := raw]) == Weights(pending)[key := |raw| + |key|];
    SumPut(Weights(pending), key, |raw| + |key|);
  }

  lemma DropWeighs(pending: map<string, string>, key: string)
    requires key in pending
    ensures Sum(Weights(pending - {key})) == Sum(Weights(pending)) - (|pending[key]| + |key|)
  {
    assert Weights(pending - {key}) == Weights(pending) - {key};
    SumSplit(Weights(pending), key);
  }

  /** A stored receipt is there afterwards, and no other receipt moves. */
  lemma PutFacts(s: Store, encode: Encoder, e: Event)
    requires Put(s, encode, e).Success? && Invariant(s)
    ensures var s' := Put(s, encode, e).value;
            && Invariant(s') && s'.active == s.active && s'.size >= s.size
            && Id(e) in s'.pending && s'.pending[Id(e)] == encode(e)
            && (forall k | k in s.pending :: k in s'.pending && s'.pending[k] == s.pending[k])
  {
    if Id(e) !in s.pending {
      PutWeighs(s.pending, Id(e), encode(e));
    }
  }

  lemma {:induction false} InterruptFacts(s: Store, encode: Encoder, order: seq<string>, now: string)
    requires Invariant(s) && (forall i | i in order :: i in s.active) && Interrupt(s, encode, order, now).Success?
    ensures var s' := Interrupt(s, encode, order, now).value;
            && Invariant(s') && s'.active == s.active
            && (forall k | k in s.pending :: k in s'.pending && s'.pending[k] == s.pending[k])
            && (forall i | i in order ::
                  var e := Interruption(s.active[i], now);
                  Id(e) in s'.pending && s'.pending[Id(e)] == encode(e))
    decreases |order|
  {
    if order != [] {
      PutFacts(s, encode, Interruption(s.active[order[0]], now));
      var next := Put(s, encode, Interruption(s.active[order[0]], now)).value;
      InterruptFacts(next, encode, order[1..], now);
    }
  }

  lemma {:induction false} AcknowledgeFacts(s: Store, batch: seq<Item>)
    requires Invariant(s) && Acknowledge(s, batch).Success?
    ensures var s' := Acknowledge(s, batch).value;
            && Invariant(s') && s'.active == s.active && s'.size <= s.size
            && (forall k | k in s'.pending :: k in s.pending && s'.pending[k] == s.pending[k])
            && (forall k | k in s.pending :: k in s'.pending || Item(k, s.pending[k]) in batch)
            && (forall item | item in batch :: item.key !in s'.pending)
    decreases |batch|
  {
    if batch != [] {
      var item := batch[0];
      if item.key in s.pending {
        DropWeighs(s.pending, item.key);
        assert Invariant(Dropped(s, item.key));
        AcknowledgeFacts(Dropped(s, item.key), batch[1..]);
      } else {
        AcknowledgeFacts(s, batch[1..]);
      }
    }
  }

  // ----- Keys -----

  /** Neither identifier is the other one with something appended after a colon. */
  predicate Apart(a: string, b: string) {
    !(a + ":" <= b) && !(b + ":" <= a)
  }

  predicate HexOrDash(s: string) {
    forall i | 0 <= i < |s| :: '0' <= s[i] <= '9' || 'a' <= s[i] <= 'f' || 'A' <= s[i] <= 'F' || s[i] == '-'
  }

  /** The text forms of a UUID: bare digits, with dashes, those in braces, or after a URN prefix. */
  predicate Identifier(s: string) {
    || ((|s| == 32 || |s| == 36) && HexOrDash(s))
    || (|s| == 38 && HexOrDash(s[1..37]))
    || (|s| == 45 && HexOrDash(s[9..]))
  }

  lemma IdentifiersAreApart(a: string, b: string)
    requires Identifier(a) && Identifier(b)
    ensures Apart(a, b)
  {
    NotContinued(a, b);
    NotContinued(b, a);
  }

  lemma NotContinued(a: string, b: string)
    requires Identifier(a) && Identifier(b)
    ensures !(a + ":" <= b)
  {
    if |a| < |b| {
      assert |b| == 38 ==> b[|a|] == b[1..37][|a| - 1];
      assert |b| == 45 ==> b[|a|] == b[9..][|a| - 9];
      assert b[|a|] != ':';
    }
  }

  function Tail(e: Event): string {
    KindName(e.kind) + if e.execution != "" then ":" + e.execution else ""
  }

  /** The kinds are told apart by their first letter, the executions by what follows the kind. */
  lemma TailsDiffer(a: Event, b: Event)
    requires Tail(a) == Tail(b)
    ensures a.kind == b.kind && a.execution == b.execution
  {
    assert KindName(a.kind)[0] == Tail(a)[0] == Tail(b)[0] == KindName(b.kind)[0];
    assert a.kind == b.kind;
    var n := |KindName(a.kind)|;
    assert Tail(a)[n..] == if a.execution != "" then ":" + a.execution else "";
    assert Tail(b)[n..] == if b.execution != "" then ":" + b.execution else "";
    assert (":" + a.execution)[1..] == a.execution && (":" + b.execution)[1..] == b.execution;
  }

  lemma IdParts(e: Event)
    ensures Id(e) == e.context.invocation + ":" + Tail(e)
  {
  }

  lemma PrefixesOfOne(x: string, y: string, s: string, t: string)
    requires x + ":" + s == y + ":" + t
    ensures x == y || !Apart(x, y)
    ensures x == y ==> s == t
  {
    var whole := x + ":" + s;
    var n := if |x| < |y| then |x| else |y|;
    assert x[..n] == whole[..n] == y[..n];
    assert |x| < |y| ==> whole[|x|] == ':' && x + ":" == whole[..|x| + 1] <= y;
    assert |y| < |x| ==> whole[|y|] == ':' && y + ":" == whole[..|y| + 1] <= x;
    assert |x| == |y| ==> s == whole[|x| + 1..] == (y + ":" + t)[|y| + 1..] == t;
  }

  /** Receipts of invocations that are apart share a key only when they agree in all that names them. */
  lemma KeysDiffer(a: Event, b: Event)
    requires a.context.invocation == b.context.invocation || Apart(a.context.invocation, b.context.invocation)
    ensures Id(a) == Id(b) <==>
            a.context.invocation == b.context.invocation && a.kind == b.kind && a.execution == b.execution
  {
    IdParts(a);
    IdParts(b);
    if Id(a) == Id(b) {
      PrefixesOfOne(a.context.invocation, b.context.invocation, Tail(a), Tail(b));
      TailsDiffer(a, b);
    }
  }

  /**
   An invocation is admitted if and only if it is not active, the reservations of all active
   ones and its own fit beside what is stored, and its start fits and contradicts no receipt.
   */
  lemma AdmittedIff(s: Store, capacity: nat, encode: Encoder, ctx: Attribution)
    ensures Admit(s, capacity, encode, ctx).Success? <==>
            && ctx.invocation !in s.active
            && s.size + 32768 * |s.active| + 32768 <= capacity
            && |encode(StartOf(ctx))| <= 8192
            && forall raw | Item(ctx.invocation + ":started", raw) in Items(s) :: raw == encode(StartOf(ctx))
  {
    var key := ctx.invocation + ":started";
    IdParts(StartOf(ctx));
    assert Id(StartOf(ctx)) == key;
    if key in s.pending {
      assert Item(key, s.pending[key]) in Items(s);
    }
  }

  function Items(s: Store): set<Item> {
    set k | k in s.pending :: Item(k, s.pending[k])
  }

  // ----- Opening after a crash -----

  /** The interruption of an active invocation can be stored. */
  ghost predicate Reportable(s: Store, encode: Encoder, i: string, now: string)
    requires i in s.active
  {
    var e := Interruption(s.active[i], now);
    |encode(e)| <= MAX_ENVELOPE && (Id(e) in s.pending ==> s.pending[Id(e)] == encode(e))
  }

  lemma InterruptionsDiffer(a: Attribution, b: Attribution, now: string)
    requires a.invocation != b.invocation
    ensures Id(Interruption(a, now)) != Id(Interruption(b, now))
  {
    var x, y := Id(Interruption(a, now)), Id(Interruption(b, now));
    var n := |":" + KindName(Interrupted)|;
    assert x[..|x| - n] == a.invocation;
    assert y[..|y| - n] == b.invocation;
  }

  lemma {:induction false} InterruptExact(s: Store, encode: Encoder, order: seq<string>, now: string)
    requires Named(s) && (forall i | i in order :: i in s.active)
    requires forall a, b | 0 <= a < b < |order| :: order[a] != order[b]
    ensures Interrupt(s, encode, order, now).Success? <==> forall i | i in order :: Reportable(s, encode, i, now)
    decreases |order|
  {
    if order != [] {
      var e := Interruption(s.active[order[0]], now);
      var r := Put(s, encode, e);
      assert r.Success? <==> Reportable(s, encode, order[0], now);
      if r.Success? {
        InterruptExact(r.value, encode, order[1..], now);
        forall i | i in order[1..] ensures Reportable(r.value, encode, i, now) == Reportable(s, encode, i, now) {
          assert i != order[0] by {
            var b :| 0 <= b < |order[1..]| && order[1..][b] == i;
            assert order[b + 1] == i;
          }
          InterruptionsDiffer(s.active[order[0]], s.active[i], now);
        }
      }
    }
  }

  /** The journal opens if and only if every interruption it has to report fits and contradicts no receipt. */
  lemma OpensExactly(s: Store, encode: Encoder, order: seq<string>, now: string)
    requires Visits(s.active, order)
    ensures Recover(s, encode, order, now).Success? <==> forall i | i in s.active :: Reportable(s, encode, i, now)
  {
    InterruptExact(s, encode, order, now);
  }

  /** Opening leaves nothing active, keeps every receipt and has reported every invocation that was active. */
  lemma RecoverFacts(s: Store, encode: Encoder, order: seq<string>, now: string)
    requires Invariant(s) && Visits(s.active, order) && Recover(s, encode, order, now).Success?
    ensures var s' := Recover(s, encode, order, now).value;
            && Invariant(s') && s'.active == map[]
            && (forall k | k in s.pending :: k in s'.pending && s'.pending[k] == s.pending[k])
            && (forall i | i in s.active ::
                  var e := Interruption(s.active[i], now);
                  Id(e) in s'.pending && s'.pending[Id(e)] == encode(e))
  {
    InterruptFacts(s, encode, order, now);
  }

  /** An invocation that is admitted once more after a crash, and dies again before delivery, keeps the journal shut. */
  lemma ReadmissionCanKeepItShut(
    capacity: nat, encode: Encoder, ctx: Attribution, first: string, second: string)
    requires forall e :: |encode(e)| <= MAX_ENVELOPE
    requires |ctx.invocation| <= 64 && capacity >= 3 * RESERVATION
    requires encode(Interruption(ctx, first)) != encode(Interruption(ctx, second))
    ensures var i := ctx.invocation;
            var admitted := Admit(EMPTY, capacity, encode, ctx);
            && admitted.Success?
            && i in admitted.value.active
            && var reopened := Recover(admitted.value, encode, [i], first);
            && reopened.Success?
            && var again := Admit(reopened.value, capacity, encode, ctx);
            && again.Success?
            && i in again.value.active
            && Recover(again.value, encode, [i], second) == Failure(IdentityConflict)
  {
    var i, started, died := ctx.invocation, StartOf(ctx), Interruption(ctx, first);
    var s1 := Admit(EMPTY, capacity, encode, ctx).value;
    assert |Id(started)| <= 64 + 20 && |Id(died)| <= 64 + 20;
    assert Id(started) != Id(died) by {
      assert |Id(started)| < |Id(died)|;
    }
    assert [i][1..] == [];
    assert Interrupt(s1, encode, [i], first) == Put(s1, encode, died) == Success(Put(s1, encode, died).value);
    var s2 := Recover(s1, encode, [i], first).value;
    var s3 := Admit(s2, capacity, encode, ctx).value;
    assert Id(Interruption(ctx, second)) == Id(died);
  }

  // ----- The watermark -----

  /**
   What each active invocation journaled since its admission, and what exceeded the
   reservations; the most that one admission journaled, and what was journaled outside of any.
   */
  datatype Account = Account(store: Store, spent: map<string, nat>, excess: nat, peak: nat, stray: nat)

  const NO_ACCOUNT := Account(EMPTY, map[], 0, 0, 0)

  datatype Step =
    | Admission(ctx: Attribution)
    | Report(event: Event)
    | Reopening(order: seq<string>, now: string)
    | Acknowledgement(batch: seq<Item>)

  function Over(bytes: nat): nat {
    if bytes > RESERVATION then bytes - RESERVATION else 0
  }

  function Remaining(bytes: nat): nat {
    if bytes > RESERVATION then 0 else RESERVATION - bytes
  }

  /** Bytes of an active invocation use up its reservation; all others are in excess. */
  function Charge(a: Account, invocation: string, bytes: nat): Account {
    if invocation !in a.spent then a.(excess := a.excess + bytes, stray := a.stray + bytes)
    else
      var before := a.spent[invocation];
      a.(spent := a.spent[invocation := before + bytes], excess := a.excess + Over(before + bytes) - Over(before),
         peak := if a.peak < before + bytes then before + bytes else a.peak)
  }

  /** A receipt is stored and charged. */
  function Charged(a: Account, encode: Encoder, e: Event): Account
    requires Put(a.store, encode, e).Success?
  {
    var s := Put(a.store, encode, e).value;
    Charge(a, e.context.invocation, if Id(e) in a.store.pending then 0 else |encode(e)| + |Id(e)|).(store := s)
  }

  function ChargedAll(a: Account, encode: Encoder, order: seq<string>, now: string): Account
    requires forall i | i in order :: i in a.store.active
    requires Interrupt(a.store, encode, order, now).Success?
    decreases |order|
  {
    if order == [] then a
    else ChargedAll(Charged(a, encode, Interruption(a.store.active[order[0]], now)), encode, order[1..], now)
  }

  ghost predicate Enabled(a: Account, step: Step) {
    match step
    case Reopening(order, _) => Visits(a.store.active, order)
    case _ => true
  }

  /** A refused step leaves everything as it was. */
  ghost function Next(a: Account, capacity: nat, encode: Encoder, step: Step): Account
    requires Enabled(a, step)
  {
    match step
    case Admission(ctx) =>
      if Admit(a.store, capacity, encode, ctx).Failure? then a
      else
        var i := ctx.invocation;
        Charged(a.(store := a.store.(active := a.store.active[i := ctx]), spent := a.spent[i := 0]), encode,
            StartOf(ctx))
    case Report(e) =>
      if Append(a.store, encode, e).Failure? then a
      else if e.kind != Finished then Charged(a, encode, e)
      else
        var b, i := Charged(a, encode, e), e.context.invocation;
        b.(store := b.store.(active := b.store.active - {i}), spent := b.spent - {i})
    case Reopening(order, now) =>
      if Recover(a.store, encode, order, now).Failure? then a
      else
        var b := ChargedAll(a, encode, order, now);
        b.(store := b.store.(active := map[]), spent := map[])
    case Acknowledgement(batch) =>
      var r := Acknowledge(a.store, batch);
      if r.Failure? then a else a.(store := r.value)
  }

  /** The account follows the journal's own transactions. */
  lemma NextIsTheTransaction(a: Account, capacity: nat, encode: Encoder, step: Step)
    requires Enabled(a, step)
    ensures var r := match step
                     case Admission(ctx) => Admit(a.store, capacity, encode, ctx)
                     case Report(e) => Append(a.store, encode, e)
                     case Reopening(order, now) => Recover(a.store, encode, order, now)
                     case Acknowledgement(batch) => Acknowledge(a.store, batch);
            Next(a, capacity, encode, step).store == if r.Success? then r.value else a.store
  {
    if step.Reopening? && Recover(a.store, encode, step.order, step.now).Success? {
      ChargedAllStore(a, encode, step.order, step.now);
    }
  }

  lemma {:induction false} ChargedAllStore(a: Account, encode: Encoder, order: seq<string>, now: string)
    requires forall i | i in order :: i in a.store.active
    requires Interrupt(a.store, encode, order, now).Success?
    ensures ChargedAll(a, encode, order, now).store == Interrupt(a.store, encode, order, now).value
    decreases |order|
  {
    if order != [] {
      ChargedAllStore(Charged(a, encode, Interruption(a.store.active[order[0]], now)), encode, order[1..], now);
    }
  }

  ghost function Reserved(spent: map<string, nat>): map<string, nat> {
    map i | i in spent :: Remaining(spent[i])
  }

  /** What is stored, and what the active invocations may still store, stays within capacity but for the excess. */
  ghost predicate Covered(a: Account, capacity: nat) {
    && Invariant(a.store) && a.spent.Keys == a.store.active.Keys
    && a.store.size + Sum(Reserved(a.spent)) <= capacity + a.excess
    && (a.peak <= RESERVATION ==> a.excess == a.stray)
  }

  lemma ChargeKeepsCovered(a: Account, capacity: nat, encode: Encoder, e: Event)
    requires Covered(a, capacity) && Put(a.store, encode, e).Success?
    ensures Covered(Charged(a, encode, e), capacity)
    ensures Charged(a, encode, e).store.active == a.store.active
  {
    var a', i := Charged(a, encode, e), e.context.invocation;
    PutFacts(a.store, encode, e);
    if i in a.spent {
      SpendingMoves(a.spent, i, a'.spent[i]);
      assert a'.spent == a.spent[i := a'.spent[i]];
    }
  }

  lemma SpendingMoves(spent: map<string, nat>, i: string, bytes: nat)
    ensures Sum(Reserved(spent[i := bytes]))
            == Sum(Reserved(spent)) + Remaining(bytes) - (if i in spent then Remaining(spent[i]) else 0)
  {
    assert i in Reserved(spent) <==> i in spent;
    assert Reserved(spent[i := bytes]) == Reserved(spent)[i := Remaining(bytes)];
    SumPut(Reserved(spent), i, Remaining(bytes));
  }

  lemma SpendingEnds(spent: map<string, nat>, i: string)
    ensures Sum(Reserved(spent - {i})) <= Sum(Reserved(spent))
  {
    if i in spent {
      assert Reserved(spent - {i}) == Reserved(spent) - {i};
      SumSplit(Reserved(spent), i);
    } else {
      assert spent - {i} == spent;
    }
  }

  lemma {:induction false} ReservationsBounded(spent: map<string, nat>)
    ensures Sum(Reserved(spent)) <= |spent| * RESERVATION
    decreases |spent|
  {
    if spent != map[] {
      var i :| i in spent;
      assert Reserved(spent - {i}) == Reserved(spent) - {i};
      SumSplit(Reserved(spent), i);
      assert spent == (spent - {i})[i := spent[i]];
      ReservationsBounded(spent - {i});
    }
  }

  lemma {:induction false} ChargedAllKeepsCovered(a: Account, capacity: nat, encode: Encoder, order: seq<string>,
      now: string)
    requires Covered(a, capacity) && (forall i | i in order :: i in a.store.active)
    requires Interrupt(a.store, encode, order, now).Success?
    ensures Covered(ChargedAll(a, encode, order, now), capacity)
    decreases |order|
  {
    if order != [] {
      var e := Interruption(a.store.active[order[0]], now);
      ChargeKeepsCovered(a, capacity, encode, e);
      ChargedAllKeepsCovered(Charged(a, encode, e), capacity, encode, order[1..], now);
    }
  }

  lemma AdmissionKeepsCovered(a: Account, capacity: nat, encode: Encoder, ctx: Attribution)
    requires Covered(a, capacity)
    ensures Covered(Next(a, capacity, encode, Admission(ctx)), capacity)
  {
    if Admit(a.store, capacity, encode, ctx).Success? {
      var i := ctx.invocation;
      var b := a.(store := a.store.(active := a.store.active[i := ctx]), spent := a.spent[i := 0]);
      SpendingMoves(a.spent, i, 0);
      ReservationsBounded(a.spent);
      assert |a.spent| == |a.store.active| by {
        assert |a.spent.Keys| == |a.spent| && |a.store.active.Keys| == |a.store.active|;
      }
      assert Covered(b, capacity);
      ChargeKeepsCovered(b, capacity, encode, StartOf(ctx));
    }
  }

  lemma ReportKeepsCovered(a: Account, capacity: nat, encode: Encoder, e: Event)
    requires Covered(a, capacity)
    ensures Covered(Next(a, capacity, encode, Report(e)), capacity)
  {
    if Append(a.store, encode, e).Success? {
      ChargeKeepsCovered(a, capacity, encode, e);
      SpendingEnds(Charged(a, encode, e).spent, e.context.invocation);
      hide Charged, Put, Reserved, Sum;
    }
  }

  lemma ReopeningKeepsCovered(a: Account, capacity: nat, encode: Encoder, order: seq<string>, now: string)
    requires Covered(a, capacity) && Visits(a.store.active, order)
    ensures Covered(Next(a, capacity, encode, Reopening(order, now)), capacity)
  {
    if Recover(a.store, encode, order, now).Success? {
      ChargedAllKeepsCovered(a, capacity, encode, order, now);
      assert Reserved(map[]) == map[];
      hide ChargedAll, Interrupt;
    }
  }

  lemma AcknowledgementKeepsCovered(a: Account, capacity: nat, encode: Encoder, batch: seq<Item>)
    requires Covered(a, capacity)
    ensures Covered(Next(a, capacity, encode, Acknowledgement(batch)), capacity)
  {
    if Acknowledge(a.store, batch).Success? {
      AcknowledgeFacts(a.store, batch);
      hide Acknowledge;
    }
  }

  lemma StepKeepsCovered(a: Account, capacity: nat, encode: Encoder, step: Step)
    requires Covered(a, capacity) && Enabled(a, step)
    ensures Covered(Next(a, capacity, encode, step), capacity)
  {
    hide Covered, Next;
    match step {
      case Admission(ctx) => AdmissionKeepsCovered(a, capacity, encode, ctx);
      case Report(e) => ReportKeepsCovered(a, capacity, encode, e);
      case Reopening(order, now) => ReopeningKeepsCovered(a, capacity, encode, order, now);
      case Acknowledgement(batch) => AcknowledgementKeepsCovered(a, capacity, encode, batch);
    }
  }

  ghost predicate Legal(a: Account, capacity: nat, encode: Encoder, steps: seq<Step>)
    decreases |steps|
  {
    steps == [] || (Enabled(a, steps[0]) && Legal(Next(a, capacity, encode, steps[0]), capacity, encode, steps[1..]))
  }

  ghost function Run(a: Account, capacity: nat, encode: Encoder, steps: seq<Step>): Account
    requires Legal(a, capacity, encode, steps)
    decreases |steps|
  {
    if steps == [] then a else Run(Next(a, capacity, encode, steps[0]), capacity, encode, steps[1..])
  }

  lemma {:induction false} RunKeepsCovered(a: Account, capacity: nat, encode: Encoder, steps: seq<Step>)
    requires Covered(a, capacity) && Legal(a, capacity, encode, steps)
    ensures Covered(Run(a, capacity, encode, steps), capacity)
    decreases |steps|
  {
    if steps != [] {
      StepKeepsCovered(a, capacity, encode, steps[0]);
      RunKeepsCovered(Next(a, capacity, encode, steps[0]), capacity, encode, steps[1..]);
    }
  }

  /**
   Over any run of admissions, reports, crashes and acknowledgements the stored size is
   that of the receipts, and exceeds the capacity at most by what invocations reported
   beyond their reservation or outside of their admission. If no admission reported more
   than its reservation, and nothing was reported outside of one, it never does.
   */
  lemma WatermarkHolds(capacity: nat, encode: Encoder, steps: seq<Step>)
    requires Legal(NO_ACCOUNT, capacity, encode, steps)
    ensures var a := Run(NO_ACCOUNT, capacity, encode, steps);
            && a.store.size == Sum(Weights(a.store.pending)) <= capacity + a.excess
            && (a.peak <= RESERVATION && a.stray == 0 ==> a.store.size + Sum(Reserved(a.spent)) <= capacity)
  {
    var start := NO_ACCOUNT;
    assert Weights(map[]) == map[] && Reserved(map[]) == map[];
    RunKeepsCovered(start, capacity, encode, steps);
  }

  // ----- The journal in place -----

  class Journal {
    const capacity: nat
    const encode: Encoder
    var pending: map<string, string>
    var active: map<string, Attribution>
    var size: int
    var captureFailures: nat
    var producers: nat

    ghost function Contents(): Store
      reads this
    {
      Store(pending, active, size)
    }

    ghost predicate Valid()
      reads this
    {
      Invariant(Contents())
    }

    constructor (capacity: nat, encode: Encoder)
      ensures Valid() && this.capacity == capacity && this.encode == encode && Contents() == EMPTY
      ensures captureFailures == 0 && producers == 0
    {
      this.capacity, this.encode := capacity, encode;
      pending, active, size := map[], map[], 0;
      captureFailures, producers := 0, 0;
      assert Weights(map[]) == map[];
    }

    /** A transaction commits as a whole; a refused one changes nothing. */
    method Commit(tx: Store)
      requires Invariant(tx)
      modifies this`pending, this`active, this`size
      ensures Contents() == tx && Valid()
    {
      pending, active, size := tx.pending, tx.active, tx.size;
    }

    method PutEvent(tx: Store, e: Event) returns (r: Result<Store, Error>)
      requires Invariant(tx)
      ensures r == Put(tx, encode, e)
      ensures r.Success? ==> Invariant(r.value)
      ensures r.Success? ==> Id(e) in r.value.pending && r.value.pending[Id(e)] == encode(e)
    {
      var key, raw := Id(e), encode(e);
      if |raw| > MAX_ENVELOPE {
        return Failure(TooLarge);
      }
      if key in tx.pending {
        return if tx.pending[key] != raw then Failure(IdentityConflict) else Success(tx);
      }
      PutWeighs(tx.pending, key, raw);
      return Success(tx.(pending := tx.pending[key := raw], size := tx.size + |raw| + |key|));
    }

    method AdmitInvocation(ctx: Attribution) returns (error: Option<Error>)
      requires Valid()
      modifies this`pending, this`active, this`size
      ensures Valid()
      ensures var r := Admit(old(Contents()), capacity, encode, ctx);
              && error.None? == r.Success?
              && (r.Success? ==> Contents() == r.value)
              && (r.Failure? ==> Contents() == old(Contents()) && error == Some(r.error))
    {
      if size + (|active| + 1) * RESERVATION > capacity {
        return Some(AtCapacity);
      }
      if ctx.invocation in active {
        return Some(AlreadyAdmitted);
      }
      var r := PutEvent(Store(pending, active[ctx.invocation := ctx], size), StartOf(ctx));
      if r.Failure? {
        return Some(r.error);
      }
      Commit(r.value);
      return None;
    }

    method AppendEvent(e: Event) returns (error: Option<Error>)
      requires Valid()
      modifies this`pending, this`active, this`size
      ensures Valid()
      ensures var r := Append(old(Contents()), encode, e);
              && error.None? == r.Success?
              && (r.Success? ==> Contents() == r.value)
              && (r.Failure? ==> Contents() == old(Contents()) && error == Some(r.error))
    {
      var r := PutEvent(Store(pending, active, size), e);
      if r.Failure? {
        return Some(r.error);
      }
      var tx := r.value;
      if e.kind == Finished {
        tx := tx.(active := tx.active - {e.context.invocation});
      }
      Commit(tx);
      return None;
    }

    /** Opens what an earlier process left behind; `order` is the order of the stored keys. */
    method Open(order: seq<string>, now: string) returns (error: Option<Error>)
      requires Valid() && Visits(active, order)
      modifies this`pending, this`active, this`size
      ensures Valid()
      ensures var r := Recover(old(Contents()), encode, order, now);
              && error.None? == r.Success?
              && (r.Success? ==> Contents() == r.value)
              && (r.Failure? ==> Contents() == old(Contents()) && error == Some(r.error))
    {
      var tx := Store(pending, active, size);
      var i := 0;
      assert order[0..] == order;
      while i < |order|
        invariant 0 <= i <= |order|
        invariant Contents() == old(Contents()) && tx.active == active && Invariant(tx)
        invariant Interrupt(old(Contents()), encode, order, now) == Interrupt(tx, encode, order[i..], now)
      {
        assert order[i..][0] == order[i] && order[i..][1..] == order[i + 1..];
        var r := PutEvent(tx, Interruption(active[order[i]], now));
        if r.Failure? {
          return Some(r.error);
        }
        tx := r.value;
        i := i + 1;
      }
      Commit(tx.(active := map[]));
      return None;
    }

    method ReadBatch() returns (batch: seq<Item>)
      ensures Batch(Contents(), batch)
    {
      batch := [];
      var keys := pending.Keys;
      assert |keys| == |pending|;
      while keys != {} && |batch| < BATCH_LIMIT
        invariant keys <= pending.Keys && |keys| + |batch| == |pending| && |batch| <= BATCH_LIMIT
        invariant forall i | 0 <= i < |batch| ::
                    batch[i].key in pending && batch[i].key !in keys && pending[batch[i].key] == batch[i].raw
        invariant forall i, j | 0 <= i < j < |batch| :: batch[i].key != batch[j].key
        decreases keys
      {
        var key :| key in keys;
        keys := keys - {key};
        batch := batch + [Item(key, pending[key])];
      }
    }

    method AcknowledgeBatch(batch: seq<Item>) returns (error: Option<Error>)
      requires Valid()
      modifies this`pending, this`active, this`size
      ensures Valid()
      ensures var r := Acknowledge(old(Contents()), batch);
              && error.None? == r.Success?
              && (r.Success? ==> Contents() == r.value)
              && (r.Failure? ==> Contents() == old(Contents()) && error == Some(r.error))
    {
      var tx := Store(pending, active, size);
      var i := 0;
      assert batch[0..] == batch;
      while i < |batch|
        invariant 0 <= i <= |batch|
        invariant Contents() == old(Contents()) && tx.active == active && Invariant(tx)
        invariant Acknowledge(old(Contents()), batch) == Acknowledge(tx, batch[i..])
      {
        assert batch[i..][0] == batch[i] && batch[i..][1..] == batch[i + 1..];
        var item := batch[i];
        if item.key in tx.pending {
          if tx.pending[item.key] != item.raw {
            return Some(IdentityChanged);
          }
          DropWeighs(tx.pending, item.key);
          tx := tx.(pending := tx.pending - {item.key}, size := tx.size - (|item.raw| + |item.key|));
        }
        i := i + 1;
      }
      Commit(tx);
      return None;
    }
  }
}
