/**
 The model provider keeps the context of a finished response, so that a request
 which extends that context may send only what is new. The cache remembers, per
 client, which response that is and the digests of what the provider holds.
 */
module ContinuationCache {
  import opened Wrappers
  import opened Totals

  const FIFTY_FIVE_MINUTES := 55 * 60 * 1000
  const FIVE_MINUTES := 5 * 60 * 1000
  const MAX_BASELINE_BYTES := 2 * 1024 * 1024
  const DIGEST_BYTES := 32
  const MAX_ATTEMPTS := 3

  type Digest = nat

  /** The digest of one input item; none when the item cannot be read. */
  type Hash = string -> Option<Digest>

  function Digests(hash: Hash, items: seq<string>): Option<seq<Digest>> {
    if items == [] then Some([])
    else
      var first, rest := hash(items[0]), Digests(hash, items[1..]);
      if first.None? || rest.None? then None else Some([first.value] + rest.value)
  }

  /** A request is read only when every item of its input has a digest. */
  datatype Request = Request(parameters: Digest, input: seq<string>, fingerprints: seq<Digest>)

  ghost predicate Parsed(hash: Hash, r: Request) {
    Digests(hash, r.input) == Some(r.fingerprints)
  }

  /** `serial` is the identity of the object; no parameters means none were recorded yet. */
  datatype Session = Session(
    serial: nat,
    id: nat,
    responseId: string,
    parameters: Option<Digest>,
    input: seq<Digest>,
    busy: bool,
    created: int,
    used: int,
    httpUntil: Option<int>)

  datatype Config = Config(idle: int, maxEntries: nat, maxInFlight: nat)

  /** `ids` counts the upstream sessions ever named, `closed` holds those that were closed. */
  datatype Cache = Cache(entries: map<string, Session>, inFlight: int, ids: nat, serials: nat, closed: set<nat>)

  datatype Refusal = Busy | CapacityExhausted

  // ----- The cache -----

  predicate HttpPreferred(s: Session, now: int) {
    s.httpUntil.Some? && now < s.httpUntil.value
  }

  predicate Usable(s: Session, config: Config, now: int) {
    && now - s.used < config.idle && now - s.created < FIFTY_FIVE_MINUTES
    && (s.httpUntil.None? || now < s.httpUntil.value)
  }

  predicate Expired(s: Session, config: Config, now: int) {
    !s.busy && (now - s.used >= config.idle || (s.httpUntil.Some? && now >= s.httpUntil.value))
  }

  function Removed(c: Cache, key: string): Cache
    requires key in c.entries
  {
    c.(entries := c.entries - {key}, closed := c.closed + {c.entries[key].id})
  }

  /** The idle entry that was used least recently. */
  ghost predicate Oldest(c: Cache, key: string) {
    && key in c.entries && !c.entries[key].busy
    && forall k | k in c.entries && !c.entries[k].busy :: c.entries[key].used <= c.entries[k].used
  }

  ghost predicate AllBusy(c: Cache) {
    forall k | k in c.entries :: c.entries[k].busy
  }

  predicate Reusable(c: Cache, config: Config, key: string, now: int) {
    key in c.entries && !c.entries[key].busy && Usable(c.entries[key], config, now)
  }

  /** What is left once a session of the caller that can no longer be used was dropped. */
  function Swept(c: Cache, key: string): Cache {
    if key in c.entries then Removed(c, key) else c
  }

  function Fresh(c: Cache, key: string, now: int): Cache {
    c.(entries := c.entries[key := Session(c.serials, c.ids, "", None, [], true, now, now, None)],
       ids := c.ids + 1, serials := c.serials + 1)
  }

  /** The possible results of asking for the session of `key`. */
  ghost predicate Acquires(c: Cache, config: Config, key: string, now: int, c': Cache, r: Option<Refusal>) {
    if key in c.entries && c.entries[key].busy then c' == c && r == Some(Busy)
    else if Reusable(c, config, key, now) then
      c' == c.(entries := c.entries[key := c.entries[key].(busy := true)]) && r == None
    else
      var swept := Swept(c, key);
      if |swept.entries| < config.maxEntries then c' == Fresh(swept, key, now) && r == None
      else if AllBusy(swept) then c' == swept && r == Some(CapacityExhausted)
      else r == None && exists victim :: Oldest(swept, victim) && c' == Fresh(Removed(swept, victim), key, now)
  }

  /** A failed session survives only to remember that its client should use plain HTTP for now. */
  function Returned(c: Cache, key: string, keep: bool, now: int): Cache
    requires key in c.entries
  {
    var s := c.entries[key];
    if keep then c.(entries := c.entries[key := s.(busy := false, used := now)])
    else if !HttpPreferred(s, now) then Removed(c, key)
    else
      c.(entries := c.entries[key := s.(id := c.ids, responseId := "", input := [], busy := false, used := now)],
         ids := c.ids + 1, closed := c.closed + {s.id})
  }

  // ----- One request -----

  datatype Payload = Payload(parameters: Digest, previous: Option<string>, input: seq<string>)

  /** The request repeats what the provider already holds, and adds to it. */
  predicate Extends(s: Session, r: Request) {
    s.responseId != "" && s.parameters == Some(r.parameters) && s.input <= r.fingerprints
  }

  function PayloadFor(s: Session, r: Request): Payload {
    if Extends(s, r) && |s.input| <= |r.input|
    then Payload(r.parameters, Some(s.responseId), r.input[|s.input|..])
    else Payload(r.parameters, None, r.input)
  }

  datatype Verdict = Sending | Kept | Dropped | Exhausted

  /** The state of the retry loop. */
  datatype Loop = Loop(incremental: bool, httpMode: bool, attempt: nat, verdict: Verdict)

  /** A session in the hands of the handler that serves a request with it. */
  datatype Exchange = Exchange(session: Session, ids: nat, closed: set<nat>, loop: Loop)

  /** Success over the kept connection, success of a plain stream, or a failure and its kind. */
  datatype Reply =
    | Completed(responseId: string, output: seq<string>)
    | Streamed
    | Failed(missing: bool, transport: bool)

  /**
   What one attempt did. `switched` is the time at which the provider turned to a plain
   stream, `written` says the client has seen output, `aborted` that the cancelled
   request closed its upstream session.
   */
  datatype Attempt = Attempt(
    reply: Reply,
    switched: Option<int>,
    written: bool,
    cancelled: bool,
    aborted: bool,
    now: int)

  predicate Outdated(s: Session, r: Request) {
    !Extends(s, r) && (s.responseId != "" || (s.parameters.Some? && s.parameters != Some(r.parameters)))
  }

  function Begun(s: Session, ids: nat, closed: set<nat>, r: Request, now: int): Exchange {
    if Outdated(s, r) then
      Exchange(s.(id := ids, responseId := "", input := [], created := now, httpUntil := None),
               ids + 1, closed + {s.id}, Loop(false, false, 0, Sending))
    else Exchange(s, ids, closed, Loop(Extends(s, r), HttpPreferred(s, now), 0, Sending))
  }

  function Ended(x: Exchange, verdict: Verdict): Exchange {
    x.(loop := x.loop.(verdict := verdict))
  }

  function Again(x: Exchange, r: Request): Exchange {
    x.(loop := x.loop.(incremental := Extends(x.session, r),
                       attempt := x.loop.attempt + 1,
                       verdict := if x.loop.attempt + 1 < MAX_ATTEMPTS then Sending else Exhausted))
  }

  /** The session as the attempt itself leaves it. */
  function Attempted(x: Exchange, a: Attempt): Exchange {
    x.(session := if a.switched.Some? then x.session.(httpUntil := Some(a.switched.value + FIVE_MINUTES))
        else x.session,
       closed := if a.aborted then x.closed + {x.session.id} else x.closed)
  }

  function ReplyId(reply: Reply): string {
    if reply.Completed? then reply.responseId else ""
  }

  function ReplyOutput(reply: Reply): seq<string> {
    if reply.Completed? then reply.output else []
  }

  function Succeeded(hash: Hash, x: Exchange, r: Request, a: Attempt): Exchange {
    var output := Digests(hash, ReplyOutput(a.reply));
    if x.loop.httpMode || HttpPreferred(x.session, a.now) then
      Ended(x.(session := x.session.(parameters := Some(r.parameters))), Kept)
    else if output.None? || (|r.fingerprints| + |output.value|) * DIGEST_BYTES > MAX_BASELINE_BYTES then
      Ended(x, Dropped)
    else
      Ended(x.(session := x.session.(parameters := Some(r.parameters),
                                     input := r.fingerprints + output.value,
                                     responseId := ReplyId(a.reply))), Kept)
  }

  /** The provider forgot the context: a new upstream session gets the whole input. */
  function Forgotten(x: Exchange): Exchange {
    Exchange(x.session.(id := x.ids, responseId := "", input := []), x.ids + 1, x.closed + {x.session.id}, x.loop)
  }

  /** The connection failed before any output: the whole input goes out by plain HTTP. */
  function Downgraded(x: Exchange, r: Request, now: int): Exchange {
    Exchange(x.session.(responseId := "", input := [], httpUntil := Some(now + FIVE_MINUTES),
                        parameters := Some(r.parameters)),
             x.ids, x.closed + {x.session.id}, x.loop.(httpMode := true))
  }

  /** One turn of the retry loop. */
  function Turn(hash: Hash, x: Exchange, r: Request, a: Attempt): Exchange {
    var y := Attempted(x, a);
    if !a.reply.Failed? then Succeeded(hash, y, r, a)
    else if a.cancelled then Ended(y, Dropped)
    else if !a.written && x.loop.incremental && a.reply.missing then Again(Forgotten(y), r)
    else if !a.written && !x.loop.httpMode && a.reply.transport then Again(Downgraded(y, r, a.now), r)
    else Ended(y, Dropped)
  }

  // ----- What the provider makes of what it is sent -----

  /** The context a response was produced from, with its own output. */
  datatype Context = Context(parameters: Digest, items: seq<Digest>)

  /** What the provider reads: the context it holds, then the new items. */
  ghost function Meaning(hash: Hash, contexts: map<string, Context>, p: Payload): Option<Context> {
    var added := Digests(hash, p.input);
    if added.None? then None
    else if p.previous.None? then Some(Context(p.parameters, added.value))
    else if p.previous.value !in contexts || contexts[p.previous.value].parameters != p.parameters then None
    else Some(Context(p.parameters, contexts[p.previous.value].items + added.value))
  }

  /** A completed response becomes a context that may be continued. */
  ghost function Remembered(hash: Hash, contexts: map<string, Context>, p: Payload, reply: Reply)
    : map<string, Context>
  {
    var read, output := Meaning(hash, contexts, p), Digests(hash, ReplyOutput(reply));
    if !reply.Completed? || read.None? || output.None? then contexts
    else contexts[reply.responseId := Context(p.parameters, read.value.items + output.value)]
  }

  /** The cached digests are those of a context the provider really holds. */
  ghost predicate Backed(contexts: map<string, Context>, s: Session) {
    s.responseId != "" ==>
      && s.parameters.Some? && s.responseId in contexts
      && contexts[s.responseId] == Context(s.parameters.value, s.input)
  }

  lemma {:induction false} DigestsSuffix(hash: Hash, items: seq<string>, n: nat)
    requires Digests(hash, items).Some? && n <= |items|
    ensures |Digests(hash, items).value| == |items|
    ensures Digests(hash, items[n..]) == Some(Digests(hash, items).value[n..])
  {
    if n > 0 {
      DigestsSuffix(hash, items[1..], n - 1);
      assert items[n..] == items[1..][n - 1..];
      assert Digests(hash, items).value[n..] == Digests(hash, items[1..]).value[n - 1..];
    } else if items != [] {
      DigestsSuffix(hash, items[1..], 0);
      assert items[0..] == items;
    }
  }

  /** A continuation refines the full request: the provider reads the same parameters and items. */
  lemma PayloadMeansTheRequest(hash: Hash, contexts: map<string, Context>, s: Session, r: Request)
    requires Parsed(hash, r) && Backed(contexts, s)
    ensures Meaning(hash, contexts, PayloadFor(s, r)) == Some(Context(r.parameters, r.fingerprints))
    ensures PayloadFor(s, r).previous.Some? <==> Extends(s, r)
  {
    DigestsSuffix(hash, r.input, 0);
    if Extends(s, r) {
      DigestsSuffix(hash, r.input, |s.input|);
      assert s.input + r.fingerprints[|s.input|..] == r.fingerprints;
    }
  }

  /** Each attempt leaves a session whose digests are backed by what the provider then holds. */
  lemma TurnKeepsBacked(hash: Hash, contexts: map<string, Context>, x: Exchange, r: Request, a: Attempt)
    requires Parsed(hash, r) && Backed(contexts, x.session)
    requires x.loop.incremental == Extends(x.session, r)
    requires x.session.responseId != "" ==> x.loop.incremental
    requires a.reply.Completed? ==> a.reply.responseId !in contexts
    ensures var y := Turn(hash, x, r, a);
            && Backed(Remembered(hash, contexts, PayloadFor(x.session, r), a.reply), y.session)
            && (y.loop.verdict.Sending? ==> !y.loop.incremental && y.session.responseId == "")
  {
    PayloadMeansTheRequest(hash, contexts, x.session, r);
  }

  // ----- All handlers together -----

  datatype Stage =
    | Reading
    | Serving(key: string, serial: nat, request: Request, loop: Loop)
    | Answered

  /** A handler counts the upload bytes that it reserved. */
  datatype Handler = Handler(reserved: nat, stage: Stage)

  datatype World = World(
    hash: Hash,
    config: Config,
    cache: Cache,
    handlers: map<nat, Handler>,
    contexts: map<string, Context>)

  datatype Step =
    | Arrive(h: nat)
    | Reserve(h: nat, bytes: nat)
    | Open(h: nat, key: string, request: Request, cache: Cache, refusal: Option<Refusal>, now: int)
    | Try(h: nat, attempt: Attempt)
    | Finish(h: nat, now: int)
    | Leave(h: nat)
    | Expire(key: string, serial: nat, now: int)

  predicate ReservationFits(c: Cache, config: Config, bytes: int) {
    !(bytes > 0 && c.inFlight + bytes > config.maxInFlight)
  }

  predicate Serves(w: World, h: nat) {
    h in w.handlers && w.handlers[h].stage.Serving?
  }

  /** The handler's session is still the cached one. */
  predicate Holds(w: World, h: nat) {
    Serves(w, h) &&
    var st := w.handlers[h].stage;
    st.key in w.cache.entries && w.cache.entries[st.key].serial == st.serial
  }

  ghost predicate Enabled(w: World, step: Step) {
    match step
    case Arrive(h) => h !in w.handlers
    case Reserve(h, _) => h in w.handlers && w.handlers[h].stage.Reading?
    case Open(h, key, request, cache, refusal, now) =>
      && h in w.handlers && w.handlers[h].stage.Reading? && Parsed(w.hash, request)
      && Acquires(w.cache, w.config, key, now, cache, refusal)
    // A provider never uses the identifier of an earlier response again.
    case Try(h, a) =>
      Holds(w, h) && w.handlers[h].stage.loop.verdict.Sending?
      && (a.reply.Completed? ==> a.reply.responseId !in w.contexts)
    case Finish(h, _) => Serves(w, h)
    case Leave(h) => h in w.handlers && !w.handlers[h].stage.Serving?
    case Expire(_, _, _) => true
  }

  function ExchangeOf(w: World, h: nat): Exchange
    requires Holds(w, h)
  {
    var st := w.handlers[h].stage;
    Exchange(w.cache.entries[st.key], w.cache.ids, w.cache.closed, st.loop)
  }

  function Restored(w: World, h: nat, x: Exchange): World
    requires Holds(w, h)
  {
    var st := w.handlers[h].stage;
    w.(cache := w.cache.(entries := w.cache.entries[st.key := x.session], ids := x.ids, closed := x.closed),
       handlers := w.handlers[h := w.handlers[h].(stage := st.(loop := x.loop))])
  }

  function AtStage(w: World, h: nat, stage: Stage): World
    requires h in w.handlers
  {
    w.(handlers := w.handlers[h := w.handlers[h].(stage := stage)])
  }

  ghost function Opened(w: World, h: nat, key: string, r: Request, cache: Cache, refusal: Option<Refusal>,
      now: int): World
    requires h in w.handlers && Acquires(w.cache, w.config, key, now, cache, refusal)
  {
    if refusal.Some? then AtStage(w.(cache := cache), h, Answered)
    else
      var held := AtStage(w.(cache := cache), h,
          Serving(key, cache.entries[key].serial, r, Loop(false, false, 0, Sending)));
      Restored(held, h, Begun(cache.entries[key], cache.ids, cache.closed, r, now))
  }

  ghost function Next(w: World, step: Step): World
    requires Enabled(w, step)
  {
    match step
    case Arrive(h) => w.(handlers := w.handlers[h := Handler(0, Reading)])
    case Reserve(h, bytes) =>
      if !ReservationFits(w.cache, w.config, bytes) then w
      else
        w.(cache := w.cache.(inFlight := w.cache.inFlight + bytes),
           handlers := w.handlers[h := w.handlers[h].(reserved := w.handlers[h].reserved + bytes)])
    case Open(h, key, request, cache, refusal, now) => Opened(w, h, key, request, cache, refusal, now)
    case Try(h, a) =>
      var x, r := ExchangeOf(w, h), w.handlers[h].stage.request;
      Restored(w, h, Turn(w.hash, x, r, a))
      .(contexts := Remembered(w.hash, w.contexts, PayloadFor(x.session, r), a.reply))
    case Finish(h, now) =>
      var keep := w.handlers[h].stage.loop.verdict.Kept?;
      AtStage(if Holds(w, h) then w.(cache := Returned(w.cache, w.handlers[h].stage.key, keep, now))
          else w, h, Answered)
    case Leave(h) =>
      w.(cache := w.cache.(inFlight := w.cache.inFlight - w.handlers[h].reserved), handlers := w.handlers - {h})
    case Expire(key, serial, now) =>
      if key in w.cache.entries && w.cache.entries[key].serial == serial && Expired(w.cache.entries[key], w.config, now)
      then w.(cache := Removed(w.cache, key)) else w
  }

  ghost predicate Legal(w: World, steps: seq<Step>)
    decreases |steps|
  {
    steps == [] || (Enabled(w, steps[0]) && Legal(Next(w, steps[0]), steps[1..]))
  }

  ghost function Run(w: World, steps: seq<Step>): World
    requires Legal(w, steps)
    decreases |steps|
  {
    if steps == [] then w else Run(Next(w, steps[0]), steps[1..])
  }

  function Initial(hash: Hash, config: Config): World {
    World(hash, config, Cache(map[], 0, 0, 0, {}), map[], map[])
  }

  // ----- What every reachable world satisfies -----

  /** The entries are at most as many as allowed, small, and hold every upstream session not yet closed. */
  ghost predicate Bounded(c: Cache, config: Config) {
    && |c.entries| <= config.maxEntries
    && (forall k | k in c.entries :: |c.entries[k].input| * DIGEST_BYTES <= MAX_BASELINE_BYTES)
    && (forall k | k in c.entries :: c.entries[k].serial < c.serials)
  }

  ghost predicate NoLeak(c: Cache) {
    && (forall id | 0 <= id < c.ids && id !in c.closed :: exists k :: k in c.entries && c.entries[k].id == id)
    && (forall k | k in c.entries :: c.entries[k].id < c.ids)
    && (forall k, l | k in c.entries && l in c.entries && k != l :: c.entries[k].id != c.entries[l].id)
  }

  ghost predicate AllBacked(contexts: map<string, Context>, c: Cache) {
    forall k | k in c.entries :: Backed(contexts, c.entries[k])
  }

  /** How many fallbacks are still open to the loop; each is taken at most once. */
  function Fallbacks(l: Loop): nat {
    (if l.incremental then 1 else 0) + (if l.httpMode then 0 else 1)
  }

  ghost predicate LoopSound(s: Session, r: Request, l: Loop) {
    && !l.verdict.Exhausted?
    && (l.verdict.Sending? ==>
          && l.incremental == Extends(s, r)
          && (s.responseId != "" ==> l.incremental)
          && l.attempt + Fallbacks(l) < MAX_ATTEMPTS)
  }

  /** A handler that serves has its session in the cache, busy and to itself. */
  ghost predicate Owned(w: World) {
    && (forall h | Serves(w, h) ::
          && Holds(w, h) && w.cache.entries[w.handlers[h].stage.key].busy
          && Parsed(w.hash, w.handlers[h].stage.request)
          && LoopSound(w.cache.entries[w.handlers[h].stage.key], w.handlers[h].stage.request, w.handlers[h].stage.loop))
    && (forall g, h | Serves(w, g) && Serves(w, h) && w.handlers[g].stage.key == w.handlers[h].stage.key :: g == h)
    && (forall k | k in w.cache.entries && w.cache.entries[k].busy ::
          exists h :: Serves(w, h) && w.handlers[h].stage.key == k)
  }

  ghost function Reservations(handlers: map<nat, Handler>): map<nat, nat> {
    map h | h in handlers :: handlers[h].reserved
  }

  ghost predicate Accounted(w: World) {
    w.cache.inFlight == Sum(Reservations(w.handlers)) && w.cache.inFlight <= w.config.maxInFlight
  }

  ghost predicate Sound(w: World) {
    && Bounded(w.cache, w.config) && NoLeak(w.cache) && AllBacked(w.contexts, w.cache)
    && Owned(w) && Accounted(w)
  }

  // ----- Steps on the cache -----

  /** An upstream session keeps its name, or takes the next one after the old one was closed. */
  predicate Renames(id: nat, ids: nat, closed: set<nat>, id': nat, ids': nat, closed': set<nat>) {
    closed <= closed' && ((id' == id && ids' == ids) || (id' == ids && ids' == ids + 1 && id in closed'))
  }

  ghost predicate CacheSound(c: Cache, config: Config, contexts: map<string, Context>) {
    Bounded(c, config) && NoLeak(c) && AllBacked(contexts, c)
  }

  lemma RemovedKeeps(c: Cache, config: Config, contexts: map<string, Context>, key: string)
    requires CacheSound(c, config, contexts) && key in c.entries
    ensures CacheSound(Removed(c, key), config, contexts)
    ensures |Removed(c, key).entries| == |c.entries| - 1
  {
    var c' := Removed(c, key);
    assert c.entries == c'.entries[key := c.entries[key]];
    forall id | 0 <= id < c'.ids && id !in c'.closed ensures exists k :: k in c'.entries && c'.entries[k].id == id {
      var k :| k in c.entries && c.entries[k].id == id;
      assert k in c'.entries;
    }
  }

  lemma FreshKeeps(c: Cache, config: Config, contexts: map<string, Context>, key: string, now: int)
    requires CacheSound(c, config, contexts) && key !in c.entries && |c.entries| < config.maxEntries
    ensures CacheSound(Fresh(c, key, now), config, contexts)
  {
    var c' := Fresh(c, key, now);
    forall id | 0 <= id < c'.ids && id !in c'.closed ensures exists k :: k in c'.entries && c'.entries[k].id == id {
      if id == c.ids {
        assert c'.entries[key].id == id;
      } else {
        var k :| k in c.entries && c.entries[k].id == id;
        assert c'.entries[k].id == id;
      }
    }
  }

  /** One session changes in place. */
  lemma UpdateKeeps(c: Cache, config: Config, contexts: map<string, Context>, key: string, s: Session, c': Cache)
    requires CacheSound(c, config, contexts) && key in c.entries
    requires c' == c.(entries := c.entries[key := s], ids := c'.ids, closed := c'.closed)
    requires Renames(c.entries[key].id, c.ids, c.closed, s.id, c'.ids, c'.closed)
    requires Backed(contexts, s) && s.serial == c.entries[key].serial
    requires |s.input| * DIGEST_BYTES <= MAX_BASELINE_BYTES
    ensures CacheSound(c', config, contexts)
  {
    assert |c'.entries| == |c.entries| by {
      assert c'.entries.Keys == c.entries.Keys;
      assert |c'.entries.Keys| == |c'.entries|;
    }
    forall id | 0 <= id < c'.ids && id !in c'.closed ensures exists k :: k in c'.entries && c'.entries[k].id == id {
      if id == s.id {
        assert c'.entries[key].id == id;
      } else {
        var k :| k in c.entries && c.entries[k].id == id;
        assert c'.entries[k].id == id;
      }
    }
  }

  lemma AcquireKeeps(
    c: Cache, config: Config, contexts: map<string, Context>, key: string, now: int, c': Cache, r: Option<Refusal>)
    requires CacheSound(c, config, contexts) && Acquires(c, config, key, now, c', r)
    ensures CacheSound(c', config, contexts)
  {
    if key in c.entries && c.entries[key].busy {
    } else if Reusable(c, config, key, now) {
      UpdateKeeps(c, config, contexts, key, c.entries[key].(busy := true), c');
    } else {
      if key in c.entries {
        RemovedKeeps(c, config, contexts, key);
      }
      ReplaceKeeps(Swept(c, key), config, contexts, key, now, c', r);
    }
  }

  lemma ReplaceKeeps(
    c: Cache, config: Config, contexts: map<string, Context>, key: string, now: int, c': Cache, r: Option<Refusal>)
    requires CacheSound(c, config, contexts) && key !in c.entries && Acquires(c, config, key, now, c', r)
    ensures CacheSound(c', config, contexts)
  {
    if |c.entries| < config.maxEntries {
      FreshKeeps(c, config, contexts, key, now);
    } else if !AllBusy(c) {
      var victim :| Oldest(c, victim) && c' == Fresh(Removed(c, victim), key, now);
      RemovedKeeps(c, config, contexts, victim);
      FreshKeeps(Removed(c, victim), config, contexts, key, now);
    }
  }

  // ----- Steps on one exchange -----

  /** The exchange that a handler works on, inside a sound world. */
  ghost predicate ExchangeSound(hash: Hash, contexts: map<string, Context>, x: Exchange, r: Request) {
    && Parsed(hash, r) && Backed(contexts, x.session) && LoopSound(x.session, r, x.loop)
    && |x.session.input| * DIGEST_BYTES <= MAX_BASELINE_BYTES
    && x.session.id < x.ids && x.session.busy
  }

  lemma BegunIsSound(hash: Hash, contexts: map<string, Context>, s: Session, ids: nat, closed: set<nat>, r: Request,
      now: int)
    requires Parsed(hash, r) && Backed(contexts, s) && |s.input| * DIGEST_BYTES <= MAX_BASELINE_BYTES
    requires s.id < ids && s.busy
    ensures var x := Begun(s, ids, closed, r, now);
            && ExchangeSound(hash, contexts, x, r) && x.session.serial == s.serial
            && Renames(s.id, ids, closed, x.session.id, x.ids, x.closed)
  {
  }

  /** A turn of the loop ends it or spends a fallback; a fourth attempt is never needed. */
  lemma TurnIsSound(hash: Hash, contexts: map<string, Context>, x: Exchange, r: Request, a: Attempt)
    requires ExchangeSound(hash, contexts, x, r) && x.loop.verdict.Sending?
    requires a.reply.Completed? ==> a.reply.responseId !in contexts
    ensures var y, contexts' := Turn(hash, x, r, a), Remembered(hash, contexts, PayloadFor(x.session, r), a.reply);
            && ExchangeSound(hash, contexts', y, r) && y.session.serial == x.session.serial
            && Renames(x.session.id, x.ids, x.closed, y.session.id, y.ids, y.closed)
            && (y.loop.verdict.Sending? ==> Fallbacks(y.loop) < Fallbacks(x.loop))
  {
    TurnKeepsBacked(hash, contexts, x, r, a);
  }

  /** What a provider remembers about earlier responses does not change. */
  lemma RememberedGrows(hash: Hash, contexts: map<string, Context>, p: Payload, reply: Reply)
    requires reply.Completed? ==> reply.responseId !in contexts
    ensures var contexts' := Remembered(hash, contexts, p, reply);
            forall id | id in contexts :: id in contexts' && contexts'[id] == contexts[id]
  {
  }

  // ----- Every step -----

  predicate ByHandler(step: Step, h: nat) {
    match step
    case Open(g, _, _, _, _, _) => g == h
    case Try(g, _) => g == h
    case Finish(g, _) => g == h
    case _ => false
  }

  /** A session in use is not evicted, timed out or changed by anyone but its handler. */
  lemma OthersLeaveHeldSession(w: World, step: Step, h: nat)
    requires Owned(w) && Enabled(w, step) && Serves(w, h) && !ByHandler(step, h)
    ensures var w', key := Next(w, step), w.handlers[h].stage.key;
            && Serves(w', h) && w'.handlers[h].stage == w.handlers[h].stage
            && Holds(w', h) && w'.cache.entries[key] == w.cache.entries[key]
  {
    var key := w.handlers[h].stage.key;
    assert Holds(w, h) && w.cache.entries[key].busy;
    match step {
      case Open(g, other, request, cache, refusal, now) =>
        AcquireLeavesBusy(w.cache, w.config, other, now, cache, refusal, key);
      case Try(g, a) => assert w.handlers[g].stage.key != key;
      case Finish(g, now) => assert w.handlers[g].stage.key != key;
      case _ =>
    }
  }

  lemma AcquireLeavesBusy(
    c: Cache, config: Config, key: string, now: int, c': Cache, r: Option<Refusal>, busy: string)
    requires Acquires(c, config, key, now, c', r) && busy in c.entries && c.entries[busy].busy
    ensures busy in c'.entries && c'.entries[busy] == c.entries[busy]
    ensures r == None ==> key != busy
    ensures r == None ==> key in c'.entries && c'.entries[key].busy
    ensures forall k | k in c'.entries && c'.entries[k].busy && (r.Some? || k != key) ::
            k in c.entries && c.entries[k].busy
  {
  }

  /** A handler that serves after a step served before, or has just opened its session. */
  lemma OwnStage(w: World, step: Step, h: nat)
    requires Sound(w) && Enabled(w, step) && ByHandler(step, h) && Serves(Next(w, step), h)
    ensures var w' := Next(w, step);
            var st := w'.handlers[h].stage;
            && Holds(w', h) && ExchangeSound(w'.hash, w'.contexts, ExchangeOf(w', h), st.request)
  {
    hide Sum;
    match step {
      case Open(_, key, r, cache, refusal, now) =>
        AcquireLeaves(w.cache, w.config, w.contexts, key, now, cache, refusal);
        BegunIsSound(w.hash, w.contexts, cache.entries[key], cache.ids, cache.closed, r, now);
      case Try(_, a) =>
        TurnIsSound(w.hash, w.contexts, ExchangeOf(w, h), w.handlers[h].stage.request, a);
      case _ =>
    }
  }

  lemma AcquireLeaves(
    c: Cache, config: Config, contexts: map<string, Context>, key: string, now: int, c': Cache, r: Option<Refusal>)
    requires CacheSound(c, config, contexts) && Acquires(c, config, key, now, c', r)
    ensures CacheSound(c', config, contexts)
    ensures r == None ==>
              && key in c'.entries && c'.entries[key].busy && Backed(contexts, c'.entries[key])
              && |c'.entries[key].input| * DIGEST_BYTES <= MAX_BASELINE_BYTES
              && c'.entries[key].id < c'.ids
  {
    AcquireKeeps(c, config, contexts, key, now, c', r);
  }

  lemma StepKeepsCacheSound(w: World, step: Step)
    requires Sound(w) && Enabled(w, step)
    ensures CacheSound(Next(w, step).cache, w.config, Next(w, step).contexts)
  {
    hide Sum;
    match step {
      case Open(h, key, r, cache, refusal, now) =>
        AcquireLeaves(w.cache, w.config, w.contexts, key, now, cache, refusal);
        if refusal.None? {
          var s := cache.entries[key];
          BegunIsSound(w.hash, w.contexts, s, cache.ids, cache.closed, r, now);
          var x := Begun(s, cache.ids, cache.closed, r, now);
          UpdateKeeps(cache, w.config, w.contexts, key, x.session, Next(w, step).cache);
        }
      case Try(h, a) => TryKeepsCacheSound(w, h, a);
      case Finish(h, now) => FinishKeepsCacheSound(w, h, now);
      case Expire(key, serial, now) =>
        if Next(w, step) != w {
          RemovedKeeps(w.cache, w.config, w.contexts, key);
        }
      case _ =>
    }
  }

  lemma TryKeepsCacheSound(w: World, h: nat, a: Attempt)
    requires Sound(w) && Enabled(w, Try(h, a))
    ensures CacheSound(Next(w, Try(h, a)).cache, w.config, Next(w, Try(h, a)).contexts)
  {
    hide Sum;
    var w', x, st := Next(w, Try(h, a)), ExchangeOf(w, h), w.handlers[h].stage;
    TurnIsSound(w.hash, w.contexts, x, st.request, a);
    RememberedGrows(w.hash, w.contexts, PayloadFor(x.session, st.request), a.reply);
    assert CacheSound(w.cache, w.config, w'.contexts);
    UpdateKeeps(w.cache, w.config, w'.contexts, st.key, w'.cache.entries[st.key], w'.cache);
  }

  lemma FinishKeepsCacheSound(w: World, h: nat, now: int)
    requires Sound(w) && Serves(w, h)
    ensures CacheSound(Next(w, Finish(h, now)).cache, w.config, w.contexts)
  {
    hide Sum;
    var w', key := Next(w, Finish(h, now)), w.handlers[h].stage.key;
    assert Holds(w, h);
    if key in w'.cache.entries {
      UpdateKeeps(w.cache, w.config, w.contexts, key, w'.cache.entries[key], w'.cache);
    } else {
      RemovedKeeps(w.cache, w.config, w.contexts, key);
    }
  }

  lemma ServingStage(w: World, step: Step, h: nat)
    requires Sound(w) && Enabled(w, step)
    ensures Serves(Next(w, step), h) && !ByHandler(step, h) ==> Serves(w, h)
    ensures Serves(Next(w, step), h) && ByHandler(step, h) && !step.Open? ==>
              Serves(w, h) && w.handlers[h].stage.key == Next(w, step).handlers[h].stage.key
  {
    hide Sum;
  }

  lemma HeldAfter(w: World, step: Step, h: nat)
    requires Sound(w) && Enabled(w, step) && Serves(Next(w, step), h)
    ensures var w' := Next(w, step);
            var st := w'.handlers[h].stage;
            && Holds(w', h) && w'.cache.entries[st.key].busy && Parsed(w'.hash, st.request)
            && LoopSound(w'.cache.entries[st.key], st.request, st.loop)
  {
    hide Sum;
    if ByHandler(step, h) {
      OwnStage(w, step, h);
    } else {
      ServingStage(w, step, h);
      OthersLeaveHeldSession(w, step, h);
    }
  }

  /** Nobody else serves under the key that a step opens. */
  lemma KeyIsOwn(w: World, step: Step, g: nat, h: nat)
    requires Sound(w) && Enabled(w, step) && Serves(Next(w, step), g) && Serves(Next(w, step), h)
    requires Next(w, step).handlers[g].stage.key == Next(w, step).handlers[h].stage.key && !ByHandler(step, g)
    ensures g == h
  {
    hide Sum;
    ServingStage(w, step, g);
    ServingStage(w, step, h);
    OthersLeaveHeldSession(w, step, g);
    if !ByHandler(step, h) {
      OthersLeaveHeldSession(w, step, h);
    } else if step.Open? {
      AcquireLeavesBusy(w.cache, w.config, step.key, step.now, step.cache, step.refusal, w.handlers[g].stage.key);
    }
  }

  lemma HolderOf(w: World, step: Step, k: string) returns (h: nat)
    requires Sound(w) && Enabled(w, step)
    requires k in Next(w, step).cache.entries && Next(w, step).cache.entries[k].busy
    ensures Serves(Next(w, step), h) && Next(w, step).handlers[h].stage.key == k
  {
    hide Sum;
    if step.Open? && step.refusal.None? && step.key == k {
      return step.h;
    }
    BusyBefore(w, step, k);
    h :| Serves(w, h) && w.handlers[h].stage.key == k;
    if ByHandler(step, h) {
      assert step.Try?;
    } else {
      OthersLeaveHeldSession(w, step, h);
    }
  }

  lemma BusyBefore(w: World, step: Step, k: string)
    requires Sound(w) && Enabled(w, step)
    requires k in Next(w, step).cache.entries && Next(w, step).cache.entries[k].busy
    requires !(step.Open? && step.refusal.None? && step.key == k)
    ensures k in w.cache.entries && w.cache.entries[k].busy
    ensures step.Finish? ==> w.handlers[step.h].stage.key != k
  {
    hide Sum, Bounded, NoLeak, AllBacked, Accounted, Parsed, Turn, Begun, Remembered, Extends;
    match step {
      case Open(h, key, r, cache, refusal, now) =>
        AcquireLeavesOthersIdle(w.cache, w.config, key, now, cache, refusal, k);
      case Try(h, a) =>
      case Finish(h, now) => assert Holds(w, h);
      case _ =>
    }
  }

  lemma AcquireLeavesOthersIdle(
    c: Cache, config: Config, key: string, now: int, c': Cache, r: Option<Refusal>, k: string)
    requires Acquires(c, config, key, now, c', r)
    requires k in c'.entries && c'.entries[k].busy && (r.Some? || k != key)
    ensures k in c.entries && c.entries[k].busy
  {
  }

  lemma StepKeepsOwned(w: World, step: Step)
    requires Sound(w) && Enabled(w, step)
    ensures Owned(Next(w, step))
  {
    var w' := Next(w, step);
    hide Sum, Sound, Next, LoopSound, Parsed, Holds, ByHandler;
    forall h | Serves(w', h)
      ensures var st := w'.handlers[h].stage;
              && Holds(w', h) && st.key in w'.cache.entries && w'.cache.entries[st.key].busy
                 && Parsed(w'.hash, st.request)
              && LoopSound(w'.cache.entries[st.key], st.request, st.loop)
    {
      HeldAfter(w, step, h);
      HoldsIsCached(w', h);
    }
    forall g, h | Serves(w', g) && Serves(w', h) && w'.handlers[g].stage.key == w'.handlers[h].stage.key
      ensures g == h
    {
      if !ByHandler(step, g) {
        KeyIsOwn(w, step, g, h);
      } else if !ByHandler(step, h) {
        KeyIsOwn(w, step, h, g);
      } else {
        SoleActor(step, g, h);
      }
    }
    forall k | k in w'.cache.entries && w'.cache.entries[k].busy
      ensures exists h :: Serves(w', h) && w'.handlers[h].stage.key == k
    {
      var h := HolderOf(w, step, k);
    }
  }

  lemma HoldsIsCached(w: World, h: nat)
    requires Holds(w, h)
    ensures w.handlers[h].stage.key in w.cache.entries
  {
  }

  lemma SoleActor(step: Step, g: nat, h: nat)
    requires ByHandler(step, g) && ByHandler(step, h)
    ensures g == h
  {
  }

  lemma ReservationMoves(w: World, h: nat, reserved: nat, stage: Stage)
    ensures Sum(Reservations(w.handlers[h := Handler(reserved, stage)]))
            == Sum(Reservations(w.handlers)) + reserved - (if h in w.handlers then w.handlers[h].reserved else 0)
  {
    var before := Reservations(w.handlers);
    assert Reservations(w.handlers[h := Handler(reserved, stage)]) == before[h := reserved];
    assert h in before <==> h in w.handlers;
    SumPut(before, h, reserved);
  }

  lemma ReservationEnds(w: World, h: nat)
    requires h in w.handlers
    ensures Sum(Reservations(w.handlers - {h})) == Sum(Reservations(w.handlers)) - w.handlers[h].reserved
  {
    var before := Reservations(w.handlers);
    assert Reservations(w.handlers - {h}) == before - {h};
    SumSplit(before, h);
  }

  lemma StepKeepsAccounted(w: World, step: Step)
    requires Enabled(w, step) && Accounted(w)
    ensures Accounted(Next(w, step))
  {
    hide Sum, Reservations;
    match step {
      case Arrive(h) => ReservationMoves(w, h, 0, Reading);
      case Reserve(h, bytes) => ReservationMoves(w, h, w.handlers[h].reserved + bytes, Reading);
      case Leave(h) => ReservationEnds(w, h);
      case _ => HandlersKeepReservations(w, step);
    }
  }

  lemma HandlersKeepReservations(w: World, step: Step)
    requires Enabled(w, step) && (step.Open? || step.Try? || step.Finish? || step.Expire?)
    ensures Reservations(Next(w, step).handlers) == Reservations(w.handlers)
    ensures Next(w, step).cache.inFlight == w.cache.inFlight
  {
    hide Parsed, Turn, Begun, Remembered, Expired, Extends;
    match step {
      case Open(h, key, r, cache, refusal, now) => OpenKeepsReservations(w, h, key, r, cache, refusal, now);
      case Try(h, a) => assert Next(w, step).handlers[h].reserved == w.handlers[h].reserved;
      case Finish(h, now) => assert Next(w, step).handlers[h].reserved == w.handlers[h].reserved;
      case _ =>
    }
  }

  /** Moving one handler on keeps what it reserved. */
  lemma StageKeepsReservations(handlers: map<nat, Handler>, h: nat, stage: Stage)
    requires h in handlers
    ensures Reservations(handlers[h := handlers[h].(stage := stage)]) == Reservations(handlers)
  {
  }

  lemma OpenKeepsReservations(
    w: World, h: nat, key: string, r: Request, cache: Cache, refusal: Option<Refusal>, now: int)
    requires h in w.handlers && Acquires(w.cache, w.config, key, now, cache, refusal)
    ensures var w' := Opened(w, h, key, r, cache, refusal, now);
            Reservations(w'.handlers) == Reservations(w.handlers) && w'.cache.inFlight == w.cache.inFlight
  {
    AcquireKeepsInFlight(w.cache, w.config, key, now, cache, refusal);
    hide Begun, Acquires, Reservations;
    var stage := Opened(w, h, key, r, cache, refusal, now).handlers[h].stage;
    StageKeepsReservations(w.handlers, h, stage);
    assert Opened(w, h, key, r, cache, refusal, now).handlers == w.handlers[h := w.handlers[h].(stage := stage)];
  }

  lemma AcquireKeepsInFlight(c: Cache, config: Config, key: string, now: int, c': Cache, r: Option<Refusal>)
    requires Acquires(c, config, key, now, c', r)
    ensures c'.inFlight == c.inFlight
  {
  }

  lemma StepKeepsSound(w: World, step: Step)
    requires Sound(w) && Enabled(w, step)
    ensures Sound(Next(w, step)) && Next(w, step).config == w.config && Next(w, step).hash == w.hash
  {
    StepKeepsCacheSound(w, step);
    StepKeepsOwned(w, step);
    StepKeepsAccounted(w, step);
    hide Owned, Accounted, NoLeak, Bounded, AllBacked;
  }

  lemma {:induction false} RunKeepsSound(w: World, steps: seq<Step>)
    requires Sound(w) && Legal(w, steps)
    ensures Sound(Run(w, steps)) && Run(w, steps).config == w.config && Run(w, steps).hash == w.hash
    decreases |steps|
  {
    if steps != [] {
      StepKeepsSound(w, steps[0]);
      RunKeepsSound(Next(w, steps[0]), steps[1..]);
    }
  }

  lemma InitialIsSound(hash: Hash, config: Config)
    ensures Sound(Initial(hash, config))
  {
    assert Reservations(map[]) == map[];
  }

  /**
   Whatever a handler is about to send, whichever attempt it is and whatever all the
   others did before: the provider reads exactly the parameters and items of the full request.
   */
  lemma EverySendMeansTheFullRequest(hash: Hash, config: Config, steps: seq<Step>, h: nat)
    requires Legal(Initial(hash, config), steps)
    requires Serves(Run(Initial(hash, config), steps), h)
    requires Run(Initial(hash, config), steps).handlers[h].stage.loop.verdict.Sending?
    ensures var w := Run(Initial(hash, config), steps);
            var r := w.handlers[h].stage.request;
            && Digests(hash, r.input) == Some(r.fingerprints)
            && Holds(w, h)
            && Meaning(hash, w.contexts, PayloadFor(ExchangeOf(w, h).session, r))
               == Some(Context(r.parameters, r.fingerprints))
  {
    InitialIsSound(hash, config);
    RunKeepsSound(Initial(hash, config), steps);
    var w := Run(Initial(hash, config), steps);
    hide Run, Legal;
    hide Sum;
    PayloadMeansTheRequest(hash, w.contexts, ExchangeOf(w, h).session, w.handlers[h].stage.request);
  }

  /**
   After any run: the cache is within its limit; a busy session has exactly one handler;
   an upstream session that was ever opened is closed or cached; the reserved bytes are
   those of the handlers at work; and no handler ran out of attempts.
   */
  lemma ResourcesAreBounded(hash: Hash, config: Config, steps: seq<Step>)
    requires Legal(Initial(hash, config), steps)
    ensures var w := Run(Initial(hash, config), steps);
            && |w.cache.entries| <= config.maxEntries
            && (forall k | k in w.cache.entries && w.cache.entries[k].busy ::
                  exists h :: Serves(w, h) && w.handlers[h].stage.key == k)
            && (forall g, h | Serves(w, g) && Serves(w, h) && w.handlers[g].stage.key == w.handlers[h].stage.key ::
                  g == h)
            && (forall id | 0 <= id < w.cache.ids && id !in w.cache.closed ::
                  exists k :: k in w.cache.entries && w.cache.entries[k].id == id)
            && w.cache.inFlight == Sum(Reservations(w.handlers)) <= config.maxInFlight
            && (forall h | Serves(w, h) :: !w.handlers[h].stage.loop.verdict.Exhausted?)
  {
    InitialIsSound(hash, config);
    RunKeepsSound(Initial(hash, config), steps);
    hide Run, Legal, Initial;
    hide Sum;
  }

  /** When nobody is served any more, nothing is reserved and every session is idle. */
  lemma NothingIsLeftBehind(w: World)
    requires Sound(w) && w.handlers == map[]
    ensures w.cache.inFlight == 0 && forall k | k in w.cache.entries :: !w.cache.entries[k].busy
  {
    assert Reservations(w.handlers) == map[];
  }

  // ----- The retry loop as a whole -----

  /** The loop run against the attempts it meets. */
  function Served(hash: Hash, x: Exchange, r: Request, attempts: seq<Attempt>): Exchange
    decreases |attempts|
  {
    if attempts == [] || !x.loop.verdict.Sending? then x
    else Served(hash, Turn(hash, x, r, attempts[0]), r, attempts[1..])
  }

  /** What it sends on the way. */
  function Sent(hash: Hash, x: Exchange, r: Request, attempts: seq<Attempt>): seq<Payload>
    decreases |attempts|
  {
    if attempts == [] || !x.loop.verdict.Sending? then []
    else [PayloadFor(x.session, r)] + Sent(hash, Turn(hash, x, r, attempts[0]), r, attempts[1..])
  }

  lemma TurnKeepsLoopSound(hash: Hash, x: Exchange, r: Request, a: Attempt)
    requires LoopSound(x.session, r, x.loop) && x.loop.verdict.Sending?
    ensures var y := Turn(hash, x, r, a);
            && LoopSound(y.session, r, y.loop) && (y.loop.verdict.Sending? ==> y.loop.attempt == x.loop.attempt + 1)
  {
  }

  lemma ServedOnce(hash: Hash, x: Exchange, r: Request, attempts: seq<Attempt>)
    requires attempts != [] && x.loop.verdict.Sending?
    ensures var y := Turn(hash, x, r, attempts[0]);
            && Served(hash, x, r, attempts) == Served(hash, y, r, attempts[1..])
            && Sent(hash, x, r, attempts) == [PayloadFor(x.session, r)] + Sent(hash, y, r, attempts[1..])
            && (!y.loop.verdict.Sending? ==>
                  Served(hash, y, r, attempts[1..]) == y && Sent(hash, y, r, attempts[1..]) == [])
  {
  }

  /** Three attempts always settle a request, and at most two of them send the whole input again. */
  lemma {:induction false} ServedEnds(hash: Hash, x: Exchange, r: Request, attempts: seq<Attempt>)
    requires LoopSound(x.session, r, x.loop)
    requires x.loop.verdict.Sending? ==> |attempts| + x.loop.attempt >= MAX_ATTEMPTS
    ensures Served(hash, x, r, attempts).loop.verdict in {Kept, Dropped}
    ensures |Sent(hash, x, r, attempts)| <= 1 + Fallbacks(x.loop)
    decreases |attempts|
  {
    if x.loop.verdict.Sending? {
      TurnKeepsLoopSound(hash, x, r, attempts[0]);
      SendingSpends(hash, x, r, attempts[0]);
      ServedEnds(hash, Turn(hash, x, r, attempts[0]), r, attempts[1..]);
    }
  }

  lemma SendingSpends(hash: Hash, x: Exchange, r: Request, a: Attempt)
    requires LoopSound(x.session, r, x.loop) && x.loop.verdict.Sending?
    ensures Turn(hash, x, r, a).loop.verdict.Sending? ==> Fallbacks(Turn(hash, x, r, a).loop) < Fallbacks(x.loop)
  {
  }

  lemma RequestEnds(hash: Hash, s: Session, ids: nat, closed: set<nat>, r: Request, now: int, attempts: seq<Attempt>)
    requires |attempts| >= MAX_ATTEMPTS
    ensures var x := Begun(s, ids, closed, r, now);
            && Served(hash, x, r, attempts).loop.verdict in {Kept, Dropped}
            && 1 <= |Sent(hash, x, r, attempts)| <= 1 + Fallbacks(x.loop)
  {
    ServedEnds(hash, Begun(s, ids, closed, r, now), r, attempts);
  }

  // ----- What a failure and a success lead to -----

  /** A connection that fails before any output is replaced by plain HTTP for five minutes, with the whole input. */
  lemma TransportFailureFallsBack(hash: Hash, x: Exchange, r: Request, a: Attempt)
    requires LoopSound(x.session, r, x.loop) && x.loop.verdict.Sending? && !x.loop.httpMode
    requires a.reply.Failed? && a.reply.transport && !(x.loop.incremental && a.reply.missing)
    requires !a.written && !a.cancelled
    ensures var y := Turn(hash, x, r, a);
            && y.loop == Loop(false, true, x.loop.attempt + 1, Sending)
            && PayloadFor(y.session, r) == Payload(r.parameters, None, r.input)
            && y.session.id == x.session.id && x.session.id in y.closed
            && y.session.httpUntil == Some(a.now + 300_000)
  {
  }

  /** A context that the provider forgot is replaced by the whole input under a new upstream session. */
  lemma MissingContextIsResent(hash: Hash, x: Exchange, r: Request, a: Attempt)
    requires LoopSound(x.session, r, x.loop) && x.loop.verdict.Sending? && x.loop.incremental
    requires a.reply.Failed? && a.reply.missing && !a.written && !a.cancelled
    ensures var y := Turn(hash, x, r, a);
            && y.loop == Loop(false, x.loop.httpMode, x.loop.attempt + 1, Sending)
            && PayloadFor(y.session, r) == Payload(r.parameters, None, r.input)
            && y.session.id == x.ids && y.ids == x.ids + 1 && x.session.id in y.closed
  {
  }

  /** Any other failure, and any failure after output, ends the request. */
  lemma OtherFailuresEnd(hash: Hash, x: Exchange, r: Request, a: Attempt)
    requires x.loop.verdict.Sending? && a.reply.Failed?
    requires a.cancelled || a.written
             || ((!a.reply.missing || !x.loop.incremental) && (!a.reply.transport || x.loop.httpMode))
    ensures Turn(hash, x, r, a).loop.verdict.Dropped?
  {
  }

  /**
   A client is refused only while its own session is busy, or when all others are and they fill the
   cache. It gets its own session back while that is usable; a new one costs no other client anything
   unless the cache is full, and then one idle session, used no later than any other idle one.
   */
  lemma AcquireIsExact(c: Cache, config: Config, key: string, now: int, c': Cache, r: Option<Refusal>)
    requires Acquires(c, config, key, now, c', r)
    ensures var usable := key in c.entries && Usable(c.entries[key], config, now);
            var full := |c.entries - {key}| >= config.maxEntries;
            && (r == Some(Busy) <==> key in c.entries && c.entries[key].busy)
            && (r == Some(CapacityExhausted) <==>
                  && (key in c.entries ==> !c.entries[key].busy) && !usable && full
                  && forall k | k in c.entries && k != key :: c.entries[k].busy)
            && (r.None? ==>
                  && key in c'.entries && c'.entries[key].busy
                  && (if usable then c'.entries[key] == c.entries[key].(busy := true)
                      else c'.entries[key].responseId == "" && c'.entries[key].input == []
                           && c'.entries[key].id == c.ids && c'.entries[key].serial == c.serials)
                  && forall k | k in c.entries && k != key ::
                       if k in c'.entries then c'.entries[k] == c.entries[k]
                       else !usable && full && !c.entries[k].busy
                            && forall j | j in c.entries && j != key && !c.entries[j].busy ::
                                 c.entries[k].used <= c.entries[j].used)
  {
    if !(key in c.entries && c.entries[key].busy) && !Reusable(c, config, key, now) {
      var swept := Swept(c, key);
      assert swept.entries == c.entries - {key};
      assert forall k :: k in swept.entries <==> k in c.entries && k != key;
      if |swept.entries| >= config.maxEntries && !AllBusy(swept) {
        var victim :| Oldest(swept, victim) && c' == Fresh(Removed(swept, victim), key, now);
        assert forall k | k in c.entries && k != key && k != victim :: k in c'.entries;
      }
    }
  }

  /** How long a session that was kept stays good for the next request of its client. */
  predicate StillGood(s: Session, config: Config, now: int) {
    now < s.used + config.idle && now < s.created + 3_300_000 && s.httpUntil.None?
  }

  /**
   A response over a kept connection makes the next request of the conversation short: the session
   stays cached and idle, is what its client gets back, and sends only the items after that response.
   */
  lemma ConversationContinues(hash: Hash, config: Config, c: Cache, key: string, x: Exchange, r: Request, a: Attempt,
                              done: int, next: Request, now: int, c': Cache, refusal: Option<Refusal>)
    requires x.loop.verdict.Sending? && !x.loop.httpMode && x.session.httpUntil.None?
    requires a.reply.Completed? && a.reply.responseId != "" && a.switched.None?
    requires Digests(hash, a.reply.output).Some?
    requires (|r.fingerprints| + |Digests(hash, a.reply.output).value|) * 32 <= 2_097_152
    requires var y := Turn(hash, x, r, a); key in c.entries && c.entries[key] == y.session
    requires var kept := Returned(c, key, true, done);
             StillGood(kept.entries[key], config, now) && Acquires(kept, config, key, now, c', refusal)
    requires next.parameters == r.parameters && |next.input| == |next.fingerprints|
    requires r.fingerprints + Digests(hash, a.reply.output).value <= next.fingerprints
    ensures Turn(hash, x, r, a).loop.verdict.Kept?
    ensures refusal.None? && key in c'.entries && c'.entries[key].id == x.session.id && c'.entries[key].busy
    ensures var begun := Begun(c'.entries[key], c'.ids, c'.closed, next, now);
            && begun.loop == Loop(true, false, 0, Sending) && begun.session == c'.entries[key]
            && PayloadFor(begun.session, next)
               == Payload(r.parameters, Some(a.reply.responseId),
                          next.input[|r.fingerprints| + |Digests(hash, a.reply.output).value|..])
  {
  }

  lemma SweptAcquires(c: Cache, config: Config, key: string, now: int, c': Cache, r: Option<Refusal>)
    requires !(key in c.entries && c.entries[key].busy) && !Reusable(c, config, key, now)
    requires Acquires(Swept(c, key), config, key, now, c', r)
    ensures Acquires(c, config, key, now, c', r)
  {
    assert key !in Swept(c, key).entries && Swept(Swept(c, key), key) == Swept(c, key);
  }

  lemma AcquiresHeld(c: Cache, config: Config, key: string, now: int)
    requires key in c.entries
    ensures c.entries[key].busy ==> Acquires(c, config, key, now, c, Some(Busy))
    ensures Reusable(c, config, key, now) ==>
              Acquires(c, config, key, now, c.(entries := c.entries[key := c.entries[key].(busy := true)]), None)
  {
  }

  lemma AcquiresFresh(c: Cache, config: Config, key: string, now: int)
    requires key !in c.entries
    ensures |c.entries| < config.maxEntries ==> Acquires(c, config, key, now, Fresh(c, key, now), None)
    ensures |c.entries| >= config.maxEntries && AllBusy(c) ==> Acquires(c, config, key, now, c, Some(CapacityExhausted))
  {
  }

  lemma AcquiresByEviction(c: Cache, config: Config, key: string, now: int, victim: string)
    requires key !in c.entries && |c.entries| >= config.maxEntries && Oldest(c, victim)
    ensures Acquires(c, config, key, now, Fresh(Removed(c, victim), key, now), None)
  {
    assert !AllBusy(c);
  }

  // ----- The cache in place -----

  function Prefixed(found: seq<Digest>, rest: Option<seq<Digest>>): Option<seq<Digest>> {
    if rest.None? then None else Some(found + rest.value)
  }

  /** Reads a request's items; an item without a digest refuses the request. */
  method Fingerprints(hash: Hash, items: seq<string>) returns (r: Option<seq<Digest>>)
    ensures r == Digests(hash, items)
  {
    var found: seq<Digest> := [];
    var i := 0;
    assert items[0..] == items;
    assert Digests(hash, items).Some? ==> [] + Digests(hash, items).value == Digests(hash, items).value;
    while i < |items|
      invariant 0 <= i <= |items|
      invariant Digests(hash, items) == Prefixed(found, Digests(hash, items[i..]))
    {
      assert items[i..][0] == items[i] && items[i..][1..] == items[i + 1..];
      var digest := hash(items[i]);
      if digest.None? {
        return None;
      }
      ghost var rest := Digests(hash, items[i + 1..]);
      assert rest.Some? ==> found + ([digest.value] + rest.value) == found + [digest.value] + rest.value;
      found := found + [digest.value];
      i := i + 1;
    }
    assert items[i..] == [] && found + [] == found;
    return Some(found);
  }

  class ModelSession {
    const key: string
    const serial: nat
    var id: nat
    var responseId: string
    var parameters: Option<Digest>
    var input: seq<Digest>
    var busy: bool
    var created: int
    var used: int
    var httpUntil: Option<int>

    ghost function Value(): Session
      reads this
    {
      Session(serial, id, responseId, parameters, input, busy, created, used, httpUntil)
    }

    constructor (key: string, serial: nat, id: nat, now: int)
      ensures this.key == key && Value() == Session(serial, id, "", None, [], true, now, now, None)
    {
      this.key, this.serial, this.id := key, serial, id;
      responseId, parameters, input, busy, created, used, httpUntil := "", None, [], true, now, now, None;
    }

    method Take()
      modifies this`busy
      ensures Value() == old(Value()).(busy := true)
    {
      busy := true;
    }

    method Release(now: int)
      modifies this`busy, this`used
      ensures Value() == old(Value()).(busy := false, used := now)
    {
      busy, used := false, now;
    }

    /** A new upstream session without any context. */
    method Rename(id: nat)
      modifies this`id, this`responseId, this`input
      ensures Value() == old(Value()).(id := id, responseId := "", input := [])
    {
      this.id, responseId, input := id, "", [];
    }

    /** No context, and plain HTTP until `until`. */
    method Downgrade(parameters: Digest, until: int)
      modifies this`responseId, this`input, this`httpUntil, this`parameters
      ensures Value() == old(Value()).(responseId := "", input := [], httpUntil := Some(until),
              parameters := Some(parameters))
    {
      responseId, input := "", [];
      httpUntil, this.parameters := Some(until), Some(parameters);
    }

    /** What to send for `r` over this session, and whether it continues the provider's context. */
    method BuildPayload(r: Request) returns (payload: Payload, incremental: bool)
      requires |r.input| == |r.fingerprints|
      ensures payload == PayloadFor(Value(), r) && incremental == Extends(Value(), r)
    {
      incremental := responseId != "" && parameters == Some(r.parameters) && |r.fingerprints| >= |input|;
      if incremental {
        var i := 0;
        while i < |input| && incremental
          invariant 0 <= i <= |input| <= |r.fingerprints|
          invariant incremental ==> input[..i] == r.fingerprints[..i]
          invariant !incremental ==> !(input <= r.fingerprints)
        {
          incremental := input[i] == r.fingerprints[i];
          i := i + 1;
        }
      }
      if incremental {
        payload := Payload(r.parameters, Some(responseId), r.input[|input|..]);
      } else {
        payload := Payload(r.parameters, None, r.input);
      }
    }
  }

  class ModelSessions {
    const config: Config
    var entries: map<string, ModelSession>
    var inFlight: int
    var ids: nat
    var serials: nat
    var closed: set<nat>

    ghost predicate Valid()
      reads this, entries.Values
    {
      forall k | k in entries :: entries[k].key == k
    }

    ghost function Contents(): Cache
      reads this, entries.Values
    {
      Cache(map k | k in entries :: entries[k].Value(), inFlight, ids, serials, closed)
    }

    /** The object is the one in the cache, not a predecessor under the same key. */
    ghost predicate Cached(s: ModelSession)
      reads this
    {
      s.key in entries && entries[s.key] == s
    }

    lemma ContentsFacts()
      ensures |Contents().entries| == |entries|
      ensures forall k :: k in entries <==> k in Contents().entries
      ensures forall k | k in entries :: Contents().entries[k] == entries[k].Value()
    {
      assert Contents().entries.Keys == entries.Keys;
    }

    constructor (config: Config)
      ensures Valid() && this.config == config && Contents() == Cache(map[], 0, 0, 0, {})
    {
      this.config, entries, inFlight, ids, serials, closed := config, map[], 0, 0, 0, {};
    }

    method RemoveLocked(s: ModelSession)
      requires Valid()
      modifies this`entries, this`closed, s`input
      ensures Valid() && !Cached(s)
      ensures entries == if old(Cached(s)) then old(entries) - {s.key} else old(entries)
      ensures old(Cached(s)) ==> Contents() == Removed(old(Contents()), s.key)
      ensures !old(Cached(s)) ==> Contents() == old(Contents())
    {
      if s.key !in entries || entries[s.key] != s {
        return;
      }
      entries := entries - {s.key};
      closed := closed + {s.id};
      s.input := [];
    }

    /** An idle entry with the earliest use, if any entry is idle. */
    method FindOldest() returns (oldest: Option<ModelSession>)
      requires Valid()
      ensures oldest.None? <==> AllBusy(Contents())
      ensures oldest.Some? ==> Cached(oldest.value) && Oldest(Contents(), oldest.value.key)
    {
      oldest := None;
      var keys := entries.Keys;
      while keys != {}
        invariant keys <= entries.Keys
        invariant oldest.None? ==> forall k | k in entries && k !in keys :: entries[k].busy
        invariant oldest.Some? ==>
                    && Cached(oldest.value) && !oldest.value.busy
                    && forall k | k in entries && k !in keys && !entries[k].busy :: oldest.value.used <= entries[k].used
        decreases keys
      {
        var k :| k in keys;
        keys := keys - {k};
        var s := entries[k];
        if !s.busy && (oldest.None? || s.used < oldest.value.used) {
          oldest := Some(s);
        }
      }
      ContentsFacts();
      assert oldest.Some? ==> !Contents().entries[oldest.value.key].busy;
    }

    method Acquire(key: string, now: int) returns (r: Result<ModelSession, Refusal>)
      requires Valid()
      modifies this, entries.Values
      ensures Valid() && fresh(entries.Values - old(entries.Values))
      ensures Acquires(old(Contents()), config, key, now, Contents(), if r.Success? then None else Some(r.error))
      ensures r.Success? ==> r.value.key == key && Cached(r.value)
    {
      hide Acquires, Oldest, AllBusy;
      if key in entries {
        AcquiresHeld(Contents(), config, key, now);
        var s := entries[key];
        if s.busy {
          return Failure(Busy);
        }
        if now - s.used < config.idle && now - s.created < FIFTY_FIVE_MINUTES
           && (s.httpUntil.None? || now < s.httpUntil.value)
        {
          s.Take();
          assert Contents().entries == old(Contents()).entries[key := s.Value()];
          return Success(s);
        }
        RemoveLocked(s);
      }
      assert Contents() == Swept(old(Contents()), key);
      r := Insert(key, now);
      SweptAcquires(old(Contents()), config, key, now, Contents(), if r.Success? then None else Some(r.error));
    }

    /** Room for a new session, by evicting the one idle for longest if need be. */
    method Insert(key: string, now: int) returns (r: Result<ModelSession, Refusal>)
      requires Valid() && key !in entries
      modifies this, entries.Values
      ensures Valid() && fresh(entries.Values - old(entries.Values))
      ensures Acquires(old(Contents()), config, key, now, Contents(), if r.Success? then None else Some(r.error))
      ensures r.Success? ==> r.value.key == key && Cached(r.value)
    {
      hide Acquires, Oldest, AllBusy;
      ContentsFacts();
      AcquiresFresh(Contents(), config, key, now);
      if |entries| >= config.maxEntries {
        var evicted := Evict(key, now);
        if !evicted {
          return Failure(CapacityExhausted);
        }
      }
      var s := Add(key, now);
      return Success(s);
    }

    method Evict(key: string, ghost now: int) returns (evicted: bool)
      requires Valid() && key !in entries && |entries| >= config.maxEntries
      modifies this`entries, this`closed, entries.Values
      ensures Valid() && entries.Values <= old(entries.Values) && key !in entries
      ensures !evicted ==> Contents() == old(Contents()) && AllBusy(Contents())
      ensures evicted ==> Acquires(old(Contents()), config, key, now, Fresh(Contents(), key, now), None)
    {
      hide Acquires, Oldest, AllBusy;
      ContentsFacts();
      var oldest := FindOldest();
      if oldest.None? {
        return false;
      }
      AcquiresByEviction(Contents(), config, key, now, oldest.value.key);
      RemoveLocked(oldest.value);
      return true;
    }

    method Add(key: string, now: int) returns (s: ModelSession)
      requires Valid() && key !in entries
      modifies this`entries, this`ids, this`serials
      ensures Valid() && fresh(s) && s.key == key && entries == old(entries)[key := s]
      ensures Contents() == Fresh(old(Contents()), key, now)
    {
      s := new ModelSession(key, serials, ids, now);
      entries := entries[key := s];
      ids, serials := ids + 1, serials + 1;
      assert Contents().entries == old(Contents()).entries[key := s.Value()];
    }

    method Finish(s: ModelSession, keep: bool, now: int)
      requires Valid()
      modifies this, s
      ensures Valid()
      ensures Contents() == if old(Cached(s)) then Returned(old(Contents()), s.key, keep, now) else old(Contents())
    {
      if s.key !in entries || entries[s.key] != s {
        return;
      }
      if !keep {
        if s.httpUntil.None? || now >= s.httpUntil.value {
          RemoveLocked(s);
          return;
        }
        closed := closed + {s.id};
        s.Rename(ids);
        ids := ids + 1;
      }
      s.Release(now);
      hide HttpPreferred;
      assert Contents().entries == old(Contents()).entries[s.key := s.Value()];
    }

    /** A timer that was set for `s`; it may fire long after the cache moved on. */
    method Expire(s: ModelSession, now: int)
      requires Valid()
      modifies this`entries, this`closed, s`input
      ensures Valid()
      ensures Contents() == if old(Cached(s)) && Expired(old(s.Value()), config, now)
                            then Removed(old(Contents()), s.key) else old(Contents())
    {
      if !s.busy && (now - s.used >= config.idle || (s.httpUntil.Some? && now >= s.httpUntil.value)) {
        RemoveLocked(s);
      }
    }

    method Reserve(bytes: int) returns (reserved: bool)
      modifies this`inFlight
      ensures reserved == ReservationFits(old(Contents()), config, bytes)
      ensures inFlight == old(inFlight) + if reserved then bytes else 0
    {
      if bytes > 0 && inFlight + bytes > config.maxInFlight {
        return false;
      }
      inFlight := inFlight + bytes;
      return true;
    }

    /** The state of the request that a handler serves with `s`. */
    ghost function Serving(s: ModelSession, loop: Loop): Exchange
      reads this, s
    {
      Exchange(s.Value(), ids, closed, loop)
    }

    /** A session whose context no longer fits the request starts over. */
    method Begin(s: ModelSession, r: Request, now: int) returns (payload: Payload, incremental: bool, httpMode: bool)
      requires |r.input| == |r.fingerprints|
      modifies s, this`ids, this`closed
      ensures s.Value() == Begun(old(s.Value()), old(ids), old(closed), r, now).session
      ensures Serving(s, Loop(incremental, httpMode, 0, Sending))
              == Begun(old(s.Value()), old(ids), old(closed), r, now)
      ensures payload == PayloadFor(s.Value(), r)
    {
      payload, incremental := s.BuildPayload(r);
      if !incremental && (s.responseId != "" || (s.parameters.Some? && s.parameters != Some(r.parameters))) {
        closed := closed + {s.id};
        s.Rename(ids);
        ids := ids + 1;
        s.created, s.httpUntil := now, None;
      }
      httpMode := s.httpUntil.Some? && now < s.httpUntil.value;
    }

    /** A response arrived: remember what the provider now holds, if it is to be continued. */
    method Settle(s: ModelSession, hash: Hash, r: Request, httpMode: bool, a: Attempt, ghost loop: Loop)
        returns (keep: bool)
      requires loop.httpMode == httpMode
      modifies s
      ensures Serving(s, loop.(verdict := if keep then Kept else Dropped))
              == Succeeded(hash, old(Serving(s, loop)), r, a)
    {
      if httpMode || (s.httpUntil.Some? && a.now < s.httpUntil.value) {
        s.parameters := Some(r.parameters);
        return true;
      }
      var output := Fingerprints(hash, if a.reply.Completed? then a.reply.output else []);
      if output.None? || (|r.fingerprints| + |output.value|) * DIGEST_BYTES > MAX_BASELINE_BYTES {
        return false;
      }
      s.parameters, s.input := Some(r.parameters), r.fingerprints + output.value;
      s.responseId := if a.reply.Completed? then a.reply.responseId else "";
      return true;
    }

    /** The effects of an attempt that the session and the cache see while it runs. */
    method Observe(s: ModelSession, a: Attempt, ghost loop: Loop)
      modifies s, this`closed
      ensures Serving(s, loop) == Attempted(old(Serving(s, loop)), a)
    {
      if a.switched.Some? {
        s.httpUntil := Some(a.switched.value + FIVE_MINUTES);
      }
      if a.aborted {
        closed := closed + {s.id};
      }
    }

    /** One attempt and its consequence: done, or another payload to send. */
    method Round(s: ModelSession, hash: Hash, r: Request, a: Attempt, incremental: bool, httpMode: bool,
        ghost attempt: nat)
      returns (again: bool, verdict: Verdict, payload: Payload, incremental': bool, httpMode': bool)
      requires |r.input| == |r.fingerprints|
      modifies s, this`ids, this`closed
      ensures var y := Turn(hash, old(Serving(s, Loop(incremental, httpMode, attempt, Sending))), r, a);
              && Serving(s, y.loop) == y
              && again == (y.loop.verdict.Sending? || y.loop.verdict.Exhausted?)
              && (!again ==> verdict == y.loop.verdict)
              && (again ==>
                    && incremental' == y.loop.incremental && httpMode' == y.loop.httpMode
                       && attempt + 1 == y.loop.attempt
                    && (y.loop.verdict.Sending? <==> attempt + 1 < MAX_ATTEMPTS)
                    && payload == PayloadFor(s.Value(), r))
    {
      payload, incremental', httpMode' := Payload(r.parameters, None, []), incremental, httpMode;
      ghost var loop := Loop(incremental, httpMode, attempt, Sending);
      Observe(s, a, loop);
      if !a.reply.Failed? {
        var keep := Settle(s, hash, r, httpMode, a, loop);
        return false, if keep then Kept else Dropped, payload, incremental', httpMode';
      }
      if a.cancelled {
        return false, Dropped, payload, incremental', httpMode';
      }
      if !a.written && incremental && a.reply.missing {
        closed := closed + {s.id};
        s.Rename(ids);
        ids := ids + 1;
      } else if !a.written && !httpMode && a.reply.transport {
        closed := closed + {s.id};
        s.Downgrade(r.parameters, a.now + FIVE_MINUTES);
        httpMode' := true;
      } else {
        return false, Dropped, payload, incremental', httpMode';
      }
      payload, incremental' := s.BuildPayload(r);
      return true, Sending, payload, incremental', httpMode';
    }

    /** Serves a request with an acquired session; `attempts` is how the provider will answer. */
    method Respond(s: ModelSession, hash: Hash, r: Request, attempts: seq<Attempt>, now: int)
      returns (verdict: Verdict, sent: seq<Payload>)
      requires |r.input| == |r.fingerprints| && |attempts| >= MAX_ATTEMPTS
      modifies s, this`ids, this`closed
      ensures var x := Begun(old(s.Value()), old(ids), old(closed), r, now);
              && Serving(s, Served(hash, x, r, attempts).loop) == Served(hash, x, r, attempts)
              && verdict == Served(hash, x, r, attempts).loop.verdict
              && sent == Sent(hash, x, r, attempts)
    {
      hide LoopSound, Turn, Begun, Extends, PayloadFor;
      var payload, incremental, httpMode := Begin(s, r, now);
      ghost var x := Serving(s, Loop(incremental, httpMode, 0, Sending));
      sent := [];
      assert attempts[0..] == attempts;
      for attempt := 0 to MAX_ATTEMPTS
        invariant payload == PayloadFor(s.Value(), r)
        invariant attempt < MAX_ATTEMPTS ==>
                    Served(hash, x, r, attempts)
                    == Served(hash, Serving(s, Loop(incremental, httpMode, attempt, Sending)), r, attempts[attempt..])
        invariant attempt < MAX_ATTEMPTS ==>
                    Sent(hash, x, r, attempts)
                    == sent + Sent(hash, Serving(s, Loop(incremental, httpMode, attempt, Sending)), r,
                        attempts[attempt..])
        invariant attempt == MAX_ATTEMPTS ==>
                    && Served(hash, x, r, attempts) == Serving(s, Loop(incremental, httpMode, attempt, Exhausted))
                    && Sent(hash, x, r, attempts) == sent
      {
        sent := sent + [payload];
        var a := attempts[attempt];
        ghost var loop := Loop(incremental, httpMode, attempt, Sending);
        ghost var before := Serving(s, loop);
        assert attempts[attempt..][0] == a && attempts[attempt..][1..] == attempts[attempt + 1..];
        ServedOnce(hash, before, r, attempts[attempt..]);
        var again;
        again, verdict, payload, incremental, httpMode :=
          Round(s, hash, r, a, incremental, httpMode, attempt);
        if !again {
          return;
        }
      }
      return Exhausted, sent;
    }
  }
}
