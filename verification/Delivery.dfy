/** What the consumer's delivery protocol promises about committed records, over every run with
    rebalances, failed requests of every kind, withheld commits and crashes at any point. */
module Delivery {
  import opened Events
  import opened Consumer
  import T = TimescaleSink

  // ---- Runs ----------------------------------------------------------------------------------

  /** How the external systems answer a dying process. A request that it no longer made is one that
      was refused, so the choice of replies covers every point of a round at which it can die. */
  datatype Replies = Replies(
    db: nat -> Outcome, flush: nat -> FlushReply, redis: nat -> Outcome, dlq: nat -> Outcome)

  datatype Life =
    | Live(turn: Turn)
    | Crash(turn: Turn, last: Replies)

  ghost function Under(cfg: Config, last: Replies): Config {
    cfg.(sink := match cfg.sink
                 case Timescale(c) => Timescale(c.(script := c.script.(outcome := last.db)))
                 case Direct(d) => Direct(d.(write := last.db, flush := last.flush)),
         dedup := if cfg.dedup.None? then None else Some(cfg.dedup.value.(outcome := last.redis)),
         dlq := if cfg.dlq.None? then None else Some(last.dlq))
  }

  /** The batch of a poll. */
  ghost function Polled(s: System, turn: Turn): seq<Record> {
    Fetched(Rewound(s.broker, turn.rewinds), turn.chunks).1
  }

  /** What the dying round leads to before its memory is lost. */
  ghost function Dying(cfg: Config, s: System, turn: Turn, last: Replies): World {
    Round(Under(cfg, last), s.w, Polled(s, turn)).0
  }

  /** The process dies somewhere in a round: what is durable stays, memory is lost, fetching restarts at
      the committed offsets, and what the dying round only logged does not count. */
  ghost function Crashed(cfg: Config, s: System, turn: Turn, last: Replies): System {
    var b := Fetched(Rewound(s.broker, turn.rewinds), turn.chunks).0;
    var w := Dying(cfg, s, turn, last);
    System(World(T.State(w.sink.db, [], []), w.redis, w.dlq, s.w.dropped, 0, 0, 0, [], []),
           b.(position := b.committed))
  }

  /** A system and, as history, the keys that some crash left claimed but not settled, and how many
      drops earlier lives of the process logged. */
  datatype Node = Node(sys: System, orphans: set<string>, logged: nat)

  ghost function Begin(s: System): Node {
    Node(s, {}, |s.w.dropped|)
  }

  ghost function Step(cfg: Config, n: Node, life: Life): Node {
    match life
    case Live(turn) => n.(sys := TurnDone(cfg, n.sys, turn))
    case Crash(turn, last) =>
      var s := Crashed(cfg, n.sys, turn, last);
      Node(s, n.orphans + set k | k in s.w.redis.keys && !SettledKey(cfg, s.w, k), |s.w.dropped|)
  }

  ghost function Reach(cfg: Config, n: Node, lives: seq<Life>): Node
    decreases |lives|
  {
    if lives == [] then n else Reach(cfg, Step(cfg, n, lives[0]), lives[1..])
  }

  // ---- Settled records -------------------------------------------------------------------------

  /** The letter reached the dead-letter topic or its loss was logged. */
  ghost predicate Noted(w: World, l: Letter) {
    l in w.dlq.letters || l in w.dropped
  }

  ghost predicate Settled(cfg: Config, w: World, r: Record) {
    || Noted(w, RawLetter(r))
    || (cfg.decode(r.value).Some? &&
        var e := cfg.decode(r.value).value;
        Id(e) in Ids(w.sink.db.table) || Noted(w, PoisonLetter(cfg, e)))
  }

  ghost predicate Pending(w: World, e: Event) {
    e in w.sink.buffer || e in w.sink.poisoned
  }

  ghost predicate Covered(cfg: Config, w: World, r: Record) {
    Settled(cfg, w, r) || (cfg.decode(r.value).Some? && Pending(w, cfg.decode(r.value).value))
  }

  /** Some event with key `k` is stored, dead-lettered or logged as dropped. */
  ghost predicate SettledKey(cfg: Config, w: World, k: string) {
    || (exists e :: e in w.sink.db.table && e.key == k)
    || (exists l :: Noted(w, l) && Carries(cfg, l, k))
  }

  ghost predicate Carries(cfg: Config, l: Letter, k: string) {
    cfg.decode(l.value).Some? && cfg.decode(l.value).value.key == k
  }

  ghost predicate HereKey(cfg: Config, w: World, k: string) {
    SettledKey(cfg, w, k) || exists e :: Pending(w, e) && e.key == k
  }

  // ---- Nothing is lost inside a round --------------------------------------------------------

  /** The retry loop that the sink in use depends on runs at least once. */
  ghost predicate Retrying(cfg: Config) {
    match cfg.sink
    case Timescale(c) => c.maxRetries >= 0
    case Direct(_) => cfg.maxRetries >= 0
  }

  ghost predicate Ok(cfg: Config, w: World) {
    match cfg.sink
    case Timescale(_) => Unique(w.sink.db.table)
    case Direct(d) => w.sink.poisoned == [] && (!d.flusher ==> w.sink.buffer == [])
  }

  ghost predicate Here(cfg: Config, w: World, e: Event) {
    Pending(w, e) || Id(e) in Ids(w.sink.db.table) || Noted(w, PoisonLetter(cfg, e))
  }

  /** The contract between the consumer and any sink: what was stored or noted stays so, and what
      was pending is pending, stored or dead-lettered. */
  ghost predicate Kept(cfg: Config, w: World, w': World) {
    && Ids(w.sink.db.table) <= Ids(w'.sink.db.table)
    && (forall l :: Noted(w, l) ==> Noted(w', l))
    && (forall e :: Pending(w, e) ==> Here(cfg, w', e))
  }

  lemma KeptTransitive(cfg: Config, a: World, b: World, c: World)
    requires Kept(cfg, a, b) && Kept(cfg, b, c)
    ensures Kept(cfg, a, c)
  {
  }

  lemma KeptCovers(cfg: Config, w: World, w': World, r: Record)
    requires Kept(cfg, w, w') && Covered(cfg, w, r)
    ensures Covered(cfg, w', r)
  {
  }

  /** A letter is on the topic unless there is none or it refused; it is counted as sent when the topic
      acknowledged it, and logged as dropped otherwise. Nothing else changes. */
  lemma SentKeeps(cfg: Config, w: World, l: Letter)
    ensures Kept(cfg, w, Sent(cfg, w, l)) && Noted(Sent(cfg, w, l), l)
    ensures Sent(cfg, w, l).sink == w.sink && Sent(cfg, w, l).redis == w.redis
    ensures var w' := Sent(cfg, w, l);
            var arrived := cfg.dlq.Some? && !cfg.dlq.value(w.dlq.tick).Refused?;
            var acknowledged := cfg.dlq.Some? && cfg.dlq.value(w.dlq.tick).Done?;
            && w'.dlq.letters == w.dlq.letters + (if arrived then [l] else [])
            && w'.dropped == w.dropped + (if acknowledged then [] else [l])
            && w'.dlqSent == w.dlqSent + (if acknowledged then 1 else 0)
            && w'.consumed == w.consumed && w'.deduped == w.deduped
  {
  }

  /** Persisting leaves the event in the sink's care or its record noted. */
  ghost predicate Taken(cfg: Config, w: World, d: Decoded) {
    Here(cfg, w, d.event) || Noted(w, RawLetter(d.record))
  }

  lemma TakenStays(cfg: Config, w: World, w': World, d: Decoded)
    requires Kept(cfg, w, w') && Taken(cfg, w, d)
    ensures Taken(cfg, w', d)
  {
  }

  lemma {:induction false} WriteTierKeeps(d: DirectConfig, s: T.State, e: Event, left: nat)
    ensures var (t, ok) := WriteTier(d, s, e, left);
            && T.Keeps(s, t) && t.poisoned == s.poisoned
            && (ok ==> e in t.buffer || Id(e) in Ids(t.db.table))
            && (!d.flusher ==> t.buffer == s.buffer)
    decreases left
  {
    if left > 0 {
      var (s1, ok) := DirectWrite(d, s, e);
      assert e in s.db.table + [e];
      assert forall x :: x in s.db.table ==> x in s.db.table + [e];
      assert e in s.buffer + [e];
      if !ok {
        WriteTierKeeps(d, s1, e, left - 1);
      }
    }
  }

  /** The retry loop of persist: writes stop with the first acknowledgement, and each write that was not
      refused leaves one copy of the event, pending in a flusher and stored in any other sink. */
  lemma {:induction false} WriteTierTries(d: DirectConfig, s: T.State, e: Event, left: nat) returns (tries: nat)
    ensures var (t, ok) := WriteTier(d, s, e, left);
            var copies := seq(Applied(d.write, s.db.tick, tries), i => e);
            && RetriesUntilDone(d.write, s.db.tick, left, tries, ok) && t.db.tick == s.db.tick + tries
            && t.poisoned == s.poisoned
            && t.buffer == s.buffer + (if d.flusher then copies else [])
            && t.db.table == s.db.table + (if d.flusher then [] else copies)
            && (ok <==> DoneWithin(d.write, s.db.tick, left))
    decreases left
  {
    if left == 0 {
      tries := 0;
    } else {
      var (s1, ok) := DirectWrite(d, s, e);
      if ok {
        tries := 1;
        assert Applied(d.write, s.db.tick, 1) == 1 + Applied(d.write, s.db.tick + 1, 0);
        assert seq(1, i => e) == [e];
      } else {
        var more := WriteTierTries(d, s1, e, left - 1);
        tries := more + 1;
        var rest := Applied(d.write, s.db.tick + 1, more);
        assert seq(rest + 1, i => e) == [e] + seq(rest, i => e);
      }
    }
  }

  lemma PersistedKeeps(cfg: Config, w: World, d: Decoded)
    requires Ok(cfg, w) && Retrying(cfg)
    ensures var w' := Persisted(cfg, w, d);
            Ok(cfg, w') && Kept(cfg, w, w') && Taken(cfg, w', d) && w'.redis == w.redis
  {
    match cfg.sink
    case Timescale(c) =>
      T.WriteKeeps(c, w.sink, d.event);
    case Direct(c) =>
      WriteTierKeeps(c, w.sink, d.event, Attempts(cfg.maxRetries));
      var s := WriteTier(c, w.sink, d.event, Attempts(cfg.maxRetries)).0;
      var w1 := w.(persisted := w.persisted + [d.event], sink := s);
      assert Kept(cfg, w, w1);
      SentKeeps(cfg, w1, RawLetter(d.record));
  }

  /** Without poison reporting, persist takes care of an event that nobody has yet exactly when the
      retry limit is not negative: otherwise nothing is written and the event counts as consumed. */
  lemma TakenIffRetries(cfg: Config, w: World, d: Decoded)
    requires Ok(cfg, w) && cfg.sink.Direct? && !Taken(cfg, w, d)
    ensures Taken(cfg, Persisted(cfg, w, d), d) <==> cfg.maxRetries >= 0
  {
    if cfg.maxRetries >= 0 {
      PersistedKeeps(cfg, w, d);
    }
  }

  lemma {:induction false} DecodeAllKeeps(cfg: Config, w: World, rs: seq<Record>)
    ensures var w' := DecodeAll(cfg, w, rs);
            && Kept(cfg, w, w') && w'.sink == w.sink && w'.redis == w.redis
            && (forall r :: r in rs && cfg.decode(r.value).None? ==> Noted(w', RawLetter(r)))
    decreases |rs|
  {
    if rs != [] {
      var w1 := DecodeOne(cfg, w, rs[0]);
      SentKeeps(cfg, w.(handled := w.handled + [rs[0]]), RawLetter(rs[0]));
      DecodeAllKeeps(cfg, w1, rs[1..]);
      KeptTransitive(cfg, w, w1, DecodeAll(cfg, w, rs));
    }
  }

  lemma {:induction false} PersistAllKeeps(cfg: Config, w: World, ds: seq<Decoded>, seen: seq<bool>)
    requires Ok(cfg, w) && Retrying(cfg) && |ds| == |seen|
    ensures var w' := PersistAll(cfg, w, ds, seen);
            && Ok(cfg, w') && Kept(cfg, w, w') && w'.redis == w.redis
            && (forall i :: 0 <= i < |ds| && !seen[i] ==> Taken(cfg, w', ds[i]))
    decreases |ds|
  {
    if ds != [] {
      var w1 := PersistOne(cfg, w, ds[0], seen[0]);
      if !seen[0] {
        PersistedKeeps(cfg, w, ds[0]);
      }
      PersistAllKeeps(cfg, w1, ds[1..], seen[1..]);
      var w' := PersistAll(cfg, w, ds, seen);
      KeptTransitive(cfg, w, w1, w');
      if !seen[0] {
        TakenStays(cfg, w1, w', ds[0]);
      }
      forall i | 0 <= i < |ds| && !seen[i]
        ensures Taken(cfg, w', ds[i])
      {
        if i > 0 {
          assert ds[i] == ds[1..][i - 1] && seen[i] == seen[1..][i - 1];
        }
      }
    }
  }

  lemma FlushSinkKeeps(cfg: Config, w: World)
    requires Ok(cfg, w) && Retrying(cfg)
    ensures var (w', ok) := FlushSink(cfg, w);
            Ok(cfg, w') && Kept(cfg, w, w') && w'.redis == w.redis && (ok ==> w'.sink.buffer == [])
  {
    match cfg.sink
    case Timescale(c) => T.FlushSettles(c, w.sink);
    case Direct(c) =>
      if c.flusher {
        DirectFlushKeeps(c, w.sink);
      }
  }

  /** A flush moves pending events into the table in order, all of them if it succeeds; a failed one
      loses nothing. */
  lemma DirectFlushKeeps(c: DirectConfig, s: T.State)
    ensures var (t, ok) := DirectFlush(c, s);
            && T.Keeps(s, t) && t.poisoned == s.poisoned && (ok ==> t.buffer == [])
            && t.db.table + t.buffer == s.db.table + s.buffer && s.db.table <= t.db.table
            && (ok <==> c.flush(s.db.tick).ok) && t.db.tick == s.db.tick + 1
  {
  }

  lemma {:induction false} SentAllKeeps(cfg: Config, w: World, es: seq<Event>)
    ensures var w' := SentAll(cfg, w, es);
            && Kept(cfg, w, w') && w'.sink == w.sink && w'.redis == w.redis
            && (forall e :: e in es ==> Noted(w', PoisonLetter(cfg, e)))
    decreases |es|
  {
    if es != [] {
      SentKeeps(cfg, w, PoisonLetter(cfg, es[0]));
      SentAllKeeps(cfg, Sent(cfg, w, PoisonLetter(cfg, es[0])), es[1..]);
    }
  }

  lemma PoisonDrainedKeeps(cfg: Config, w: World)
    requires Ok(cfg, w)
    ensures var w' := PoisonDrained(cfg, w);
            && Ok(cfg, w') && Kept(cfg, w, w') && w'.redis == w.redis
            && w'.sink.poisoned == [] && w'.sink.buffer == w.sink.buffer
  {
    if cfg.sink.Timescale? {
      SentAllKeeps(cfg, w.(sink := w.sink.(poisoned := [])), w.sink.poisoned);
    }
  }

  /** All the decoded records of a batch are asked about; none is lost by the answer. */
  lemma HandledKeeps(cfg: Config, w: World, rs: seq<Record>)
    requires Ok(cfg, w) && Retrying(cfg)
    ensures var w' := Handled(cfg, w, rs);
            && Ok(cfg, w') && Kept(cfg, w, w')
            && (forall r :: r in rs && cfg.decode(r.value).None? ==> Noted(w', RawLetter(r)))
            && (cfg.dedup.None? ==> forall d :: d in Decodable(cfg, rs) ==> Taken(cfg, w', d))
  {
    var ds := Decodable(cfg, rs);
    DecodeAllKeeps(cfg, w, rs);
    var w1 := DecodeAll(cfg, w, rs);
    if ds != [] {
      var (w2, seen) := Asked(cfg, w1, ds);
      PersistAllKeeps(cfg, w2, ds, seen);
      KeptTransitive(cfg, w, w2, Handled(cfg, w, rs));
    }
  }

  lemma RoundKeeps(cfg: Config, w: World, rs: seq<Record>)
    requires Ok(cfg, w) && Retrying(cfg)
    ensures var (w', commit) := Round(cfg, w, rs);
            && Ok(cfg, w') && Kept(cfg, w, w') && Kept(cfg, Handled(cfg, w, rs), w')
            && w'.redis == Handled(cfg, w, rs).redis
            && (commit ==> w'.sink.buffer == [] && w'.sink.poisoned == [])
  {
    HandledKeeps(cfg, w, rs);
    var h := Handled(cfg, w, rs);
    FlushSinkKeeps(cfg, h);
    var (f, ok) := FlushSink(cfg, h);
    KeptTransitive(cfg, w, h, f);
    if ok {
      PoisonDrainedKeeps(cfg, f);
      KeptTransitive(cfg, h, f, PoisonDrained(cfg, f));
      KeptTransitive(cfg, w, h, PoisonDrained(cfg, f));
    }
  }

  lemma {:induction false} DecodableHas(cfg: Config, rs: seq<Record>, r: Record)
    requires r in rs && cfg.decode(r.value).Some?
    ensures Decoded(r, cfg.decode(r.value).value) in Decodable(cfg, rs)
    decreases |rs|
  {
    var init := rs[..|rs| - 1];
    if r != rs[|rs| - 1] {
      assert r in init;
      DecodableHas(cfg, init, r);
    }
  }

  lemma {:induction false} DecodableIs(cfg: Config, rs: seq<Record>)
    ensures forall d :: d in Decodable(cfg, rs) ==> d.record in rs && cfg.decode(d.record.value) == Some(d.event)
    decreases |rs|
  {
    if rs != [] {
      DecodableIs(cfg, rs[..|rs| - 1]);
    }
  }

  // ---- Offsets ---------------------------------------------------------------------------------

  ghost predicate BrokerOk(b: Broker) {
    && b.position.Keys == b.committed.Keys == b.log.Keys
    && (forall p :: p in b.log ==> b.committed[p] <= b.position[p] <= |b.log[p]|)
  }

  lemma {:induction false} FetchedFacts(b: Broker, chunks: seq<Chunk>)
    requires BrokerOk(b)
    ensures var (b', rs) := Fetched(b, chunks);
            && BrokerOk(b') && b'.log == b.log && b'.committed == b.committed
            && (forall p, o :: p in b.log && 0 <= o < b'.position[p] ==> o < b.position[p] || b.log[p][o] in rs)
    decreases |chunks|
  {
    if chunks != [] {
      if Available(b, chunks[0]) {
        var Chunk(q, n) := chunks[0];
        var from := b.position[q];
        var b1 := b.(position := b.position[q := from + n]);
        FetchedFacts(b1, chunks[1..]);
        var (b', rs) := Fetched(b, chunks);
        forall p, o | p in b.log && 0 <= o < b'.position[p]
          ensures o < b.position[p] || b.log[p][o] in rs
        {
          if p == q && from <= o < from + n {
            assert b.log[p][from..from + n][o - from] == b.log[p][o];
          }
        }
      } else {
        FetchedFacts(b, chunks[1..]);
      }
    }
  }

  /** The records of one partition, in order. */
  ghost function Of(rs: seq<Record>, p: int): seq<Record> {
    if rs == [] then [] else (if rs[0].partition == p then [rs[0]] else []) + Of(rs[1..], p)
  }

  /** Every record lies in the partition that it names. */
  ghost predicate InPlace(b: Broker) {
    forall p, o :: p in b.log && 0 <= o < |b.log[p]| ==> b.log[p][o].partition == p
  }

  ghost function Wanted(chunks: seq<Chunk>, p: int): nat {
    if chunks == [] then 0 else (if chunks[0].partition == p then chunks[0].count else 0) + Wanted(chunks[1..], p)
  }

  lemma {:induction false} OfConcat(a: seq<Record>, b: seq<Record>, p: int)
    ensures Of(a + b, p) == Of(a, p) + Of(b, p)
    decreases |a|
  {
    if a == [] {
      assert a + b == b;
    } else {
      assert (a + b)[1..] == a[1..] + b && (a + b)[0] == a[0];
      OfConcat(a[1..], b, p);
      var head := if a[0].partition == p then [a[0]] else [];
      assert head + (Of(a[1..], p) + Of(b, p)) == (head + Of(a[1..], p)) + Of(b, p);
    }
  }

  lemma {:induction false} OfSame(rs: seq<Record>, q: int, p: int)
    requires forall i :: 0 <= i < |rs| ==> rs[i].partition == q
    ensures Of(rs, p) == if p == q then rs else []
    decreases |rs|
  {
    if rs != [] {
      OfSame(rs[1..], q, p);
    }
  }

  /** One chunk on its own. */
  lemma ChunkSlice(b: Broker, c: Chunk, p: int)
    requires BrokerOk(b) && InPlace(b) && Available(b, c) && p in b.log
    ensures BrokerOk(Moved(b, c))
    ensures var from := b.position[c.partition];
            Of(b.log[c.partition][from..from + c.count], p)
            == if p == c.partition then b.log[p][from..from + c.count] else []
  {
    var from := b.position[c.partition];
    OfSame(b.log[c.partition][from..from + c.count], c.partition, p);
  }

  ghost function Moved(b: Broker, c: Chunk): Broker
    requires Available(b, c)
  {
    b.(position := b.position[c.partition := b.position[c.partition] + c.count])
  }

  lemma JoinSlices(log: seq<Record>, i: nat, j: nat, k: nat)
    requires i <= j <= k <= |log|
    ensures log[i..j] + log[j..k] == log[i..k]
  {
  }

  /** What a poll gave of one partition: the log from the old position to the new one. */
  ghost predicate Slice(b: Broker, b': Broker, rs: seq<Record>, p: int) {
    && p in b.log && p in b.position && p in b'.position && b.position[p] <= b'.position[p] <= |b.log[p]|
    && Of(rs, p) == b.log[p][b.position[p]..b'.position[p]]
  }

  lemma ChunkFirst(b: Broker, c: Chunk, b': Broker, rest: seq<Record>, p: int)
    requires BrokerOk(b) && InPlace(b) && Available(b, c) && Slice(Moved(b, c), b', rest, p)
    ensures var from := b.position[c.partition];
            Slice(b, b', b.log[c.partition][from..from + c.count] + rest, p)
  {
    var q, from := c.partition, b.position[c.partition];
    ChunkSlice(b, c, p);
    OfConcat(b.log[q][from..from + c.count], rest, p);
    if p == q {
      JoinSlices(b.log[p], from, from + c.count, b'.position[p]);
    }
  }

  /** A poll hands out, for each partition, exactly the log from the old position to the new one, in order,
      without gaps or repetitions; and all that was asked for, where the log has it. */
  lemma {:induction false} FetchedSlices(b: Broker, chunks: seq<Chunk>, p: int)
    requires BrokerOk(b) && InPlace(b) && p in b.log
    ensures Slice(b, Fetched(b, chunks).0, Fetched(b, chunks).1, p)
    ensures var b' := Fetched(b, chunks).0;
            b.position[p] + Wanted(chunks, p) <= |b.log[p]| ==> b'.position[p] == b.position[p] + Wanted(chunks, p)
    decreases |chunks|
  {
    if chunks != [] {
      if Available(b, chunks[0]) {
        ChunkSlice(b, chunks[0], p);
        FetchedSlices(Moved(b, chunks[0]), chunks[1..], p);
        var (b', rest) := Fetched(Moved(b, chunks[0]), chunks[1..]);
        ChunkFirst(b, chunks[0], b', rest, p);
      } else {
        FetchedSlices(b, chunks[1..], p);
      }
    }
  }

  /** The same for a whole poll: partitions that a rebalance took back start at their committed offset. */
  lemma PolledSlices(s: System, turn: Turn, p: int)
    requires BrokerOk(s.broker) && InPlace(s.broker) && p in s.broker.log
    ensures p in Fetched(Rewound(s.broker, turn.rewinds), turn.chunks).0.position
    ensures var from := if p in turn.rewinds then s.broker.committed[p] else s.broker.position[p];
            var to := Fetched(Rewound(s.broker, turn.rewinds), turn.chunks).0.position[p];
            && from <= to <= |s.broker.log[p]| && Of(Polled(s, turn), p) == s.broker.log[p][from..to]
            && (from + Wanted(turn.chunks, p) <= |s.broker.log[p]| ==> to == from + Wanted(turn.chunks, p))
  {
    FetchedSlices(Rewound(s.broker, turn.rewinds), turn.chunks, p);
  }

  lemma PolledFacts(b: Broker, turn: Turn)
    requires BrokerOk(b)
    ensures var (b', rs) := Fetched(Rewound(b, turn.rewinds), turn.chunks);
            && BrokerOk(b') && b'.log == b.log && b'.committed == b.committed
            && (forall p, o :: p in b.log && 0 <= o < b'.position[p] ==> o < b.position[p] || b.log[p][o] in rs)
  {
    FetchedFacts(Rewound(b, turn.rewinds), turn.chunks);
  }

  // ---- Without dedup: committed means settled ------------------------------------------------

  ghost predicate AllCovered(cfg: Config, s: System)
    requires BrokerOk(s.broker)
  {
    forall p, o :: p in s.broker.log && 0 <= o < s.broker.position[p] ==> Covered(cfg, s.w, s.broker.log[p][o])
  }

  ghost predicate AllSettled(cfg: Config, s: System)
    requires BrokerOk(s.broker)
  {
    forall p, o :: p in s.broker.log && 0 <= o < s.broker.committed[p] ==> Settled(cfg, s.w, s.broker.log[p][o])
  }

  ghost predicate AtLeastOnce(cfg: Config, s: System) {
    && Ok(cfg, s.w) && BrokerOk(s.broker)
    && AllCovered(cfg, s) && AllSettled(cfg, s)
  }

  lemma RoundCovers(cfg: Config, w: World, rs: seq<Record>, r: Record)
    requires Ok(cfg, w) && Retrying(cfg) && cfg.dedup.None? && r in rs
    ensures Covered(cfg, Round(cfg, w, rs).0, r)
  {
    HandledKeeps(cfg, w, rs);
    RoundKeeps(cfg, w, rs);
    if cfg.decode(r.value).Some? {
      DecodableHas(cfg, rs, r);
      var d := Decoded(r, cfg.decode(r.value).value);
      assert Taken(cfg, Handled(cfg, w, rs), d);
    }
    assert Covered(cfg, Handled(cfg, w, rs), r);
    KeptCovers(cfg, Handled(cfg, w, rs), Round(cfg, w, rs).0, r);
  }

  lemma LiveKeepsAtLeastOnce(cfg: Config, s: System, turn: Turn)
    requires AtLeastOnce(cfg, s) && Retrying(cfg) && cfg.dedup.None?
    ensures AtLeastOnce(cfg, TurnDone(cfg, s, turn))
  {
    PolledFacts(s.broker, turn);
    var (b, rs) := Fetched(Rewound(s.broker, turn.rewinds), turn.chunks);
    var (w, commit) := Round(cfg, s.w, rs);
    RoundKeeps(cfg, s.w, rs);
    var s' := TurnDone(cfg, s, turn);
    forall p, o | p in b.log && 0 <= o < b.position[p]
      ensures Covered(cfg, w, b.log[p][o])
    {
      if o < s.broker.position[p] {
        KeptCovers(cfg, s.w, w, b.log[p][o]);
      } else {
        RoundCovers(cfg, s.w, rs, b.log[p][o]);
      }
    }
    assert AllCovered(cfg, s');
    forall p, o | p in b.log && 0 <= o < s'.broker.committed[p]
      ensures Settled(cfg, w, b.log[p][o])
    {
      if o >= s.broker.committed[p] {
        assert commit && Covered(cfg, w, b.log[p][o]);
      }
    }
  }

  /** The one kind of sink whose flush can fail, so that Run withholds the commit. */
  ghost predicate CanWithhold(cfg: Config) {
    cfg.sink.Direct? && cfg.sink.d.flusher
  }

  /** Whether the round gets as far as its commit: always, unless the sink is a flusher that reports a
      failed flush. */
  ghost predicate FlushSucceeds(cfg: Config, s: System, turn: Turn) {
    CanWithhold(cfg) ==> cfg.sink.d.flush(Handled(cfg, s.w, Polled(s, turn)).sink.db.tick).ok
  }

  /** Every round commits, for every sink and with or without dedup: the committed offsets are then the
      positions up to which records were fetched. They stay as they were exactly when the flush failed or
      the request was refused. */
  lemma RoundCommits(cfg: Config, s: System, turn: Turn)
    ensures var b := TurnDone(cfg, s, turn).broker;
            && b.position == Fetched(Rewound(s.broker, turn.rewinds), turn.chunks).0.position && b.log == s.broker.log
            && b.committed == (if FlushSucceeds(cfg, s, turn) && !cfg.commit(s.broker.tick).Refused?
                               then b.position else s.broker.committed)
  {
    FetchKeeps(Rewound(s.broker, turn.rewinds), turn.chunks);
  }

  /** The commit does move: with dedup off, a round whose flush did not fail and whose commit is not
      refused leaves every record fetched so far committed and settled, whatever the sink. */
  lemma CommitCatchesUp(cfg: Config, s: System, turn: Turn)
    requires AtLeastOnce(cfg, s) && Retrying(cfg) && cfg.dedup.None?
    requires FlushSucceeds(cfg, s, turn) && !cfg.commit(s.broker.tick).Refused?
    ensures var b := TurnDone(cfg, s, turn).broker;
            b.committed == b.position && AtLeastOnce(cfg, TurnDone(cfg, s, turn))
  {
    RoundCommits(cfg, s, turn);
    LiveKeepsAtLeastOnce(cfg, s, turn);
  }

  lemma {:induction false} FetchKeeps(b: Broker, chunks: seq<Chunk>)
    ensures var b' := Fetched(b, chunks).0;
            b'.tick == b.tick && b'.committed == b.committed && b'.log == b.log
    decreases |chunks|
  {
    if chunks != [] {
      if Available(b, chunks[0]) {
        var Chunk(p, n) := chunks[0];
        FetchKeeps(b.(position := b.position[p := b.position[p] + n]), chunks[1..]);
      } else {
        FetchKeeps(b, chunks[1..]);
      }
    }
  }

  lemma CrashKeepsAtLeastOnce(cfg: Config, s: System, turn: Turn, last: Replies)
    requires AtLeastOnce(cfg, s) && Retrying(cfg)
    ensures AtLeastOnce(cfg, Crashed(cfg, s, turn, last))
  {
    PolledFacts(s.broker, turn);
    DyingKeeps(cfg, s, turn, last);
    DurableGrows(cfg, s, turn, last);
  }

  /** The replies of the dying round do not matter to what a round keeps. */
  lemma DyingKeeps(cfg: Config, s: System, turn: Turn, last: Replies)
    requires Ok(cfg, s.w) && Retrying(cfg)
    ensures Ok(cfg, Dying(cfg, s, turn, last)) && Kept(cfg, s.w, Dying(cfg, s, turn, last))
  {
    var c := Under(cfg, last);
    RoundKeeps(c, s.w, Polled(s, turn));
    assert forall e :: PoisonLetter(c, e) == PoisonLetter(cfg, e);
  }

  /** A dying round takes nothing out of the table, the dead-letter topic or the drop log. */
  lemma DurableGrows(cfg: Config, s: System, turn: Turn, last: Replies)
    requires Ok(cfg, s.w) && Retrying(cfg)
    ensures var w' := Crashed(cfg, s, turn, last).w;
            && Ids(s.w.sink.db.table) <= Ids(w'.sink.db.table)
            && (forall l :: Noted(s.w, l) ==> Noted(w', l))
  {
    DyingKeeps(cfg, s, turn, last);
    RoundSends(Under(cfg, last), s.w, Polled(s, turn));
  }

  /** The dead-letter topic is append-only. */
  lemma RoundSends(cfg: Config, w: World, rs: seq<Record>)
    ensures forall l :: l in w.dlq.letters ==> l in Round(cfg, w, rs).0.dlq.letters
  {
    var ds := Decodable(cfg, rs);
    DecodeAllSends(cfg, w, rs);
    var (w2, seen) := Asked(cfg, DecodeAll(cfg, w, rs), ds);
    PersistAllSends(cfg, w2, ds, seen);
    var (f, ok) := FlushSink(cfg, Handled(cfg, w, rs));
    SentAllSends(cfg, f.(sink := f.sink.(poisoned := [])), f.sink.poisoned);
  }

  lemma {:induction false} DecodeAllSends(cfg: Config, w: World, rs: seq<Record>)
    ensures forall l :: l in w.dlq.letters ==> l in DecodeAll(cfg, w, rs).dlq.letters
    decreases |rs|
  {
    if rs != [] {
      DecodeAllSends(cfg, DecodeOne(cfg, w, rs[0]), rs[1..]);
    }
  }

  lemma {:induction false} PersistAllSends(cfg: Config, w: World, ds: seq<Decoded>, seen: seq<bool>)
    requires |ds| == |seen|
    ensures forall l :: l in w.dlq.letters ==> l in PersistAll(cfg, w, ds, seen).dlq.letters
    decreases |ds|
  {
    if ds != [] {
      PersistAllSends(cfg, PersistOne(cfg, w, ds[0], seen[0]), ds[1..], seen[1..]);
    }
  }

  lemma {:induction false} SentAllSends(cfg: Config, w: World, es: seq<Event>)
    ensures forall l :: l in w.dlq.letters ==> l in SentAll(cfg, w, es).dlq.letters
    decreases |es|
  {
    if es != [] {
      SentAllSends(cfg, Sent(cfg, w, PoisonLetter(cfg, es[0])), es[1..]);
    }
  }

  /** A process that has just started: nothing in memory, nothing committed yet. */
  ghost predicate Fresh(cfg: Config, s: System) {
    && Ok(cfg, s.w) && BrokerOk(s.broker) && s.w.sink.buffer == [] && s.w.sink.poisoned == []
    && (forall p :: p in s.broker.log ==> s.broker.position[p] == 0)
  }

  lemma {:induction false} RunKeepsAtLeastOnce(cfg: Config, n: Node, lives: seq<Life>)
    requires AtLeastOnce(cfg, n.sys) && Retrying(cfg) && cfg.dedup.None?
    ensures AtLeastOnce(cfg, Reach(cfg, n, lives).sys)
    decreases |lives|
  {
    if lives != [] {
      match lives[0] {
        case Live(turn) => LiveKeepsAtLeastOnce(cfg, n.sys, turn);
        case Crash(turn, last) => CrashKeepsAtLeastOnce(cfg, n.sys, turn, last);
      }
      RunKeepsAtLeastOnce(cfg, Step(cfg, n, lives[0]), lives[1..]);
    }
  }

  /** With dedup off, every record below a committed offset is settled, in every state of every
      run, for a TimescaleSink as for any other sink. */
  lemma CommittedIsSettled(cfg: Config, s: System, lives: seq<Life>)
    requires Fresh(cfg, s) && Retrying(cfg) && cfg.dedup.None?
    ensures var f := Reach(cfg, Begin(s), lives).sys;
            BrokerOk(f.broker) && AllSettled(cfg, f)
  {
    RunKeepsAtLeastOnce(cfg, Begin(s), lives);
  }
}
