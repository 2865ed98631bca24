/** internal/consumer/consumer.go: poll, decode, dedup, write, flush, drain poison, commit. */
module Consumer {
  import opened Events
  import DB = Database
  import T = TimescaleSink
  import D = Dedup

  datatype Record = Record(topic: string, partition: int, offset: int, key: string, value: string)

  datatype Decoded = Decoded(record: Record, event: Event)

  /** A record on the dead-letter topic. */
  datatype Letter = Letter(topic: string, partition: int, offset: int, key: string, value: string)

  datatype Dlq = Dlq(letters: seq<Letter>, tick: nat)

  // ---- The broker ------------------------------------------------------------------------

  datatype Broker = Broker(
    log: map<int, seq<Record>>, position: map<int, nat>, committed: map<int, nat>, tick: nat)

  /** `count` further records of one partition. */
  datatype Chunk = Chunk(partition: int, count: nat)

  /** One poll: partitions that a rebalance sent back to their committed offset, then a fetch. */
  datatype Turn = Turn(rewinds: set<int>, chunks: seq<Chunk>)

  function Rewound(b: Broker, rewinds: set<int>): Broker {
    b.(position := map p | p in b.position ::
      if p in rewinds && p in b.committed then b.committed[p] else b.position[p])
  }

  predicate Available(b: Broker, c: Chunk) {
    c.partition in b.log && c.partition in b.position
    && b.position[c.partition] + c.count <= |b.log[c.partition]|
  }

  function Fetched(b: Broker, chunks: seq<Chunk>): (r: (Broker, seq<Record>))
    decreases |chunks|
  {
    if chunks == [] then (b, []) else
    if !Available(b, chunks[0]) then Fetched(b, chunks[1..]) else
      var Chunk(p, n) := chunks[0];
      var from := b.position[p];
      var (b', rest) := Fetched(b.(position := b.position[p := from + n]), chunks[1..]);
      (b', b.log[p][from..from + n] + rest)
  }

  /** CommitUncommittedOffsets: everything fetched so far, unless the request is refused. */
  function Committed(commit: nat -> Outcome, b: Broker): Broker {
    if commit(b.tick).Refused? then b.(tick := b.tick + 1)
    else b.(committed := b.position, tick := b.tick + 1)
  }

  // ---- Sinks without poison reporting --------------------------------------------------------

  /** `moved` is how much of what is pending a failed flush nevertheless stores. */
  datatype FlushReply = FlushReply(ok: bool, moved: nat)

  datatype DirectConfig = DirectConfig(flusher: bool, write: nat -> Outcome, flush: nat -> FlushReply)

  /** A flusher keeps what it accepted pending until a flush; any other sink stores it at once. */
  function DirectWrite(c: DirectConfig, s: T.State, e: Event): (T.State, bool) {
    var o := c.write(s.db.tick);
    var tick := s.db.tick + 1;
    if o.Refused? then (s.(db := DB.Db(s.db.table, tick)), false)
    else if c.flusher then (s.(db := DB.Db(s.db.table, tick), buffer := s.buffer + [e]), o.Done?)
    else (s.(db := DB.Db(s.db.table + [e], tick)), o.Done?)
  }

  /** A successful flush stores all that is pending; a failed one loses nothing. */
  function DirectFlush(c: DirectConfig, s: T.State): (T.State, bool) {
    var reply := c.flush(s.db.tick);
    var n := if reply.ok || reply.moved > |s.buffer| then |s.buffer| else reply.moved;
    (T.State(DB.Db(s.db.table + s.buffer[..n], s.db.tick + 1), s.buffer[n..], s.poisoned), reply.ok)
  }

  class DirectSink {
    const c: DirectConfig
    var s: T.State

    constructor (c: DirectConfig, s: T.State)
      ensures this.c == c && this.s == s
    {
      this.c, this.s := c, s;
    }

    method Write(e: Event) returns (ok: bool)
      modifies this
      ensures (s, ok) == DirectWrite(c, old(s), e)
    {
      var (s', done) := DirectWrite(c, s, e);
      s, ok := s', done;
    }

    method Flush() returns (ok: bool)
      modifies this
      ensures (s, ok) == DirectFlush(c, old(s))
    {
      var (s', done) := DirectFlush(c, s);
      s, ok := s', done;
    }
  }

  /** internal/dlq/dlq.go */
  class Producer {
    const outcome: nat -> Outcome
    var client: Dlq

    constructor (outcome: nat -> Outcome, client: Dlq)
      ensures this.outcome == outcome && this.client == client
    {
      this.outcome, this.client := outcome, client;
    }

    method Send(l: Letter) returns (ok: bool)
      modifies this
      ensures client == Delivered(outcome, old(client), l)
      ensures ok == outcome(old(client).tick).Done?
    {
      ok := outcome(client.tick).Done?;
      client := Delivered(outcome, client, l);
    }
  }

  function Delivered(outcome: nat -> Outcome, q: Dlq, l: Letter): Dlq {
    Dlq(if outcome(q.tick).Refused? then q.letters else q.letters + [l], q.tick + 1)
  }

  // ---- What the consumer computes ------------------------------------------------------------

  datatype SinkConfig = Timescale(c: T.Config) | Direct(d: DirectConfig)

  datatype Config = Config(
    decode: string -> Option<Event>, encode: Event -> string, topic: string, maxRetries: int,
    sink: SinkConfig, dedup: Option<D.Config>, dlq: Option<nat -> Outcome>, commit: nat -> Outcome)

  /** Everything the consumer reads and writes except the broker. `dropped` holds the letters whose
      loss was only logged; `handled` and `persisted` are history. */
  datatype World = World(
    sink: T.State, redis: D.Redis, dlq: Dlq, dropped: seq<Letter>,
    consumed: nat, deduped: nat, dlqSent: nat,
    handled: seq<Record>, persisted: seq<Event>)

  function RawLetter(r: Record): Letter {
    Letter(r.topic, r.partition, r.offset, r.key, r.value)
  }

  function PoisonLetter(cfg: Config, e: Event): Letter {
    Letter(cfg.topic, -1, -1, e.device, cfg.encode(e))
  }

  ghost function Sent(cfg: Config, w: World, l: Letter): World {
    if cfg.dlq.None? then w.(dropped := w.dropped + [l]) else
      var q := Delivered(cfg.dlq.value, w.dlq, l);
      if cfg.dlq.value(w.dlq.tick).Done? then w.(dlq := q, dlqSent := w.dlqSent + 1)
      else w.(dlq := q, dropped := w.dropped + [l])
  }

  ghost function WriteTier(d: DirectConfig, s: T.State, e: Event, left: nat): (T.State, bool)
    decreases left
  {
    if left == 0 then (s, false) else
      var (s1, ok) := DirectWrite(d, s, e);
      if ok then (s1, true) else WriteTier(d, s1, e, left - 1)
  }

  ghost function Persisted(cfg: Config, w: World, d: Decoded): World {
    var w := w.(persisted := w.persisted + [d.event]);
    match cfg.sink
    case Timescale(c) => w.(sink := T.Written(c, w.sink, d.event), consumed := w.consumed + 1)
    case Direct(c) =>
      var (s, ok) := WriteTier(c, w.sink, d.event, Attempts(cfg.maxRetries));
      if ok || Attempts(cfg.maxRetries) == 0
      then w.(sink := s, consumed := w.consumed + 1)
      else Sent(cfg, w.(sink := s), RawLetter(d.record))
  }

  ghost function DecodeOne(cfg: Config, w: World, r: Record): World {
    var w := w.(handled := w.handled + [r]);
    if cfg.decode(r.value).None? then Sent(cfg, w, RawLetter(r)) else w
  }

  ghost function DecodeAll(cfg: Config, w: World, rs: seq<Record>): World
    decreases |rs|
  {
    if rs == [] then w else DecodeAll(cfg, DecodeOne(cfg, w, rs[0]), rs[1..])
  }

  /** The decodable records, in order. */
  ghost function Decodable(cfg: Config, rs: seq<Record>): seq<Decoded> {
    if rs == [] then [] else
      var init, r := rs[..|rs| - 1], rs[|rs| - 1];
      match cfg.decode(r.value)
      case None => Decodable(cfg, init)
      case Some(e) => Decodable(cfg, init) + [Decoded(r, e)]
  }

  ghost function KeysOf(ds: seq<Decoded>): seq<string> {
    seq(|ds|, i requires 0 <= i < |ds| => ds[i].event.key)
  }

  ghost function NoneSeen(n: nat): seq<bool> {
    seq(n, i => false)
  }

  /** Which of the decoded records are dropped as duplicates. On a dedup error: none. */
  ghost function Asked(cfg: Config, w: World, ds: seq<Decoded>): (r: (World, seq<bool>))
    ensures |r.1| == |ds|
  {
    if cfg.dedup.None? then (w, NoneSeen(|ds|)) else
      var (r, seen) := D.SeenEach(cfg.dedup.value, w.redis, KeysOf(ds));
      (w.(redis := r), if seen.None? then NoneSeen(|ds|) else seen.value)
  }

  ghost function PersistOne(cfg: Config, w: World, d: Decoded, seen: bool): World {
    if seen then w.(deduped := w.deduped + 1) else Persisted(cfg, w, d)
  }

  ghost function PersistAll(cfg: Config, w: World, ds: seq<Decoded>, seen: seq<bool>): World
    requires |ds| == |seen|
    decreases |ds|
  {
    if ds == [] then w else PersistAll(cfg, PersistOne(cfg, w, ds[0], seen[0]), ds[1..], seen[1..])
  }

  ghost function Handled(cfg: Config, w: World, rs: seq<Record>): World {
    var ds := Decodable(cfg, rs);
    var w1 := DecodeAll(cfg, w, rs);
    if ds == [] then w1 else
      var (w2, seen) := Asked(cfg, w1, ds);
      PersistAll(cfg, w2, ds, seen)
  }

  ghost function FlushSink(cfg: Config, w: World): (World, bool) {
    match cfg.sink
    case Timescale(c) => (w.(sink := T.Flushed(c, w.sink)), true)
    case Direct(c) =>
      if !c.flusher then (w, true) else
        var (s, ok) := DirectFlush(c, w.sink);
        (w.(sink := s), ok)
  }

  ghost function SentAll(cfg: Config, w: World, es: seq<Event>): World
    decreases |es|
  {
    if es == [] then w else SentAll(cfg, Sent(cfg, w, PoisonLetter(cfg, es[0])), es[1..])
  }

  ghost function PoisonDrained(cfg: Config, w: World): World {
    if cfg.sink.Direct? then w else
      SentAll(cfg, w.(sink := w.sink.(poisoned := [])), w.sink.poisoned)
  }

  /** One round up to the commit; the commit is withheld when the flush failed. */
  ghost function Round(cfg: Config, w: World, rs: seq<Record>): (World, bool) {
    var (w1, ok) := FlushSink(cfg, Handled(cfg, w, rs));
    if ok then (PoisonDrained(cfg, w1), true) else (w1, false)
  }

  datatype System = System(w: World, broker: Broker)

  ghost function TurnDone(cfg: Config, s: System, turn: Turn): System {
    var (b, rs) := Fetched(Rewound(s.broker, turn.rewinds), turn.chunks);
    var (w, commit) := Round(cfg, s.w, rs);
    System(w, if commit then Committed(cfg.commit, b) else b)
  }

  ghost function TurnsDone(cfg: Config, s: System, turns: seq<Turn>): System
    decreases |turns|
  {
    if turns == [] then s else TurnsDone(cfg, TurnDone(cfg, s, turns[0]), turns[1..])
  }

  // ---- The consumer itself -------------------------------------------------------------------

  datatype SinkRef = TimescaleRef(t: T.Sink) | DirectRef(d: DirectSink)

  class Consumer {
    const cfg: Config
    const sink: SinkRef
    const dedup: D.Deduper?
    const dlq: Producer?
    var client: Broker
    var consumed: nat
    var deduped: nat
    var dlqSent: nat
    ghost var dropped: seq<Letter>
    ghost var handled: seq<Record>
    ghost var persisted: seq<Event>

    ghost predicate Valid() {
      && (match sink
          case TimescaleRef(t) => cfg.sink == Timescale(t.c)
          case DirectRef(d) => cfg.sink == Direct(d.c))
      && (if dedup == null then cfg.dedup.None? else cfg.dedup == Some(dedup.c))
      && (if dlq == null then cfg.dlq.None? else cfg.dlq == Some(dlq.outcome))
    }

    ghost function Objects(): set<object> {
      {this} + (match sink case TimescaleRef(t) => {t as object} case DirectRef(d) => {d as object})
      + (if dedup == null then {} else {dedup as object}) + (if dlq == null then {} else {dlq as object})
    }

    ghost function SinkValue(): T.State
      reads Objects()
    {
      match sink case TimescaleRef(t) => t.Value() case DirectRef(d) => d.s
    }

    /** A missing dedup store or dead-letter topic stands empty. */
    ghost function Value(): World
      reads Objects()
    {
      World(SinkValue(),
            if dedup == null then D.Redis(map[], 0) else dedup.client,
            if dlq == null then Dlq([], 0) else dlq.client,
            dropped, consumed, deduped, dlqSent, handled, persisted)
    }

    constructor (cfg: Config, sink: SinkRef, dedup: D.Deduper?, dlq: Producer?, client: Broker)
      ensures this.cfg == cfg && this.sink == sink && this.dedup == dedup && this.dlq == dlq && this.client == client
      ensures consumed == deduped == dlqSent == 0 && dropped == [] && handled == [] && persisted == []
    {
      this.cfg, this.sink, this.dedup, this.dlq, this.client := cfg, sink, dedup, dlq, client;
      consumed, deduped, dlqSent := 0, 0, 0;
      dropped, handled, persisted := [], [], [];
    }

    method SendToDLQ(l: Letter)
      requires Valid()
      modifies Objects()
      ensures client == old(client) && Value() == Sent(cfg, old(Value()), l)
    {
      if dlq == null {
        dropped := dropped + [l];
        return;
      }
      var ok := dlq.Send(l);
      if !ok {
        dropped := dropped + [l];
        return;
      }
      dlqSent := dlqSent + 1;
    }

    method Persist(d: Decoded)
      requires Valid()
      modifies Objects()
      ensures client == old(client) && Value() == Persisted(cfg, old(Value()), d)
    {
      persisted := persisted + [d.event];
      match sink
      case TimescaleRef(t) =>
        t.Write(d.event);
        consumed := consumed + 1;
      case DirectRef(direct) =>
        var failed := WriteWithRetry(direct, d.event);
        if failed {
          SendToDLQ(RawLetter(d.record));
          return;
        }
        consumed := consumed + 1;
    }

    method WriteWithRetry(direct: DirectSink, e: Event) returns (failed: bool)
      modifies direct
      ensures var (s, ok) := WriteTier(direct.c, old(direct.s), e, Attempts(cfg.maxRetries));
              direct.s == s && failed == (!ok && Attempts(cfg.maxRetries) > 0)
    {
      failed := false;
      var attempt := 0;
      while attempt <= cfg.maxRetries
        invariant 0 <= attempt <= Attempts(cfg.maxRetries)
        invariant WriteTier(direct.c, old(direct.s), e, Attempts(cfg.maxRetries))
               == WriteTier(direct.c, direct.s, e, Attempts(cfg.maxRetries) - attempt)
        invariant failed == (attempt > 0)
      {
        var ok := direct.Write(e);
        failed := !ok;
        if ok {
          break;
        }
        attempt := attempt + 1;
      }
    }

    method DecodeRecord(record: Record) returns (e: Option<Event>)
      requires Valid()
      modifies Objects()
      ensures e == cfg.decode(record.value)
      ensures client == old(client) && Value() == DecodeOne(cfg, old(Value()), record)
    {
      handled := handled + [record];
      e := cfg.decode(record.value);
      if e.None? {
        SendToDLQ(RawLetter(record));
      }
    }

    method DecodeRecords(records: seq<Record>) returns (decoded: seq<Decoded>)
      requires Valid()
      modifies Objects()
      ensures decoded == Decodable(cfg, records)
      ensures client == old(client) && Value() == DecodeAll(cfg, old(Value()), records)
    {
      decoded := [];
      var i := 0;
      while i < |records|
        invariant 0 <= i <= |records|
        invariant decoded == Decodable(cfg, records[..i]) && client == old(client)
        invariant DecodeAll(cfg, old(Value()), records) == DecodeAll(cfg, Value(), records[i..])
      {
        var record := records[i];
        assert records[..i + 1][..i] == records[..i];
        assert records[i..][1..] == records[i + 1..];
        var e := DecodeRecord(record);
        if e.Some? {
          decoded := decoded + [Decoded(record, e.value)];
        }
        i := i + 1;
      }
      assert records[..i] == records;
    }

    method AskDedup(decoded: seq<Decoded>) returns (seen: seq<bool>)
      requires Valid()
      modifies Objects()
      ensures client == old(client) && (Value(), seen) == Asked(cfg, old(Value()), decoded)
    {
      seen := seq(|decoded|, i => false);
      if dedup != null {
        var keys := seq(|decoded|, i requires 0 <= i < |decoded| => decoded[i].event.key);
        assert keys == KeysOf(decoded);
        var s := dedup.SeenBatch(keys);
        if s.Some? {
          seen := s.value;
        }
      }
    }

    method HandleBatch(records: seq<Record>)
      requires Valid()
      modifies Objects()
      ensures client == old(client) && Value() == Handled(cfg, old(Value()), records)
    {
      var decoded := DecodeRecords(records);
      if |decoded| == 0 {
        return;
      }
      ghost var w1 := Value();
      var seen := AskDedup(decoded);
      assert (Value(), seen) == Asked(cfg, w1, decoded);
      PersistUnseen(decoded, seen);
    }

    method PersistUnseen(decoded: seq<Decoded>, seen: seq<bool>)
      requires Valid() && |decoded| == |seen|
      modifies Objects()
      ensures client == old(client) && Value() == PersistAll(cfg, old(Value()), decoded, seen)
    {
      var i := 0;
      while i < |decoded|
        invariant 0 <= i <= |decoded|
        invariant client == old(client)
        invariant PersistAll(cfg, old(Value()), decoded, seen) == PersistAll(cfg, Value(), decoded[i..], seen[i..])
      {
        assert decoded[i..][1..] == decoded[i + 1..] && seen[i..][1..] == seen[i + 1..];
        if seen[i] {
          deduped := deduped + 1;
        } else {
          Persist(decoded[i]);
        }
        i := i + 1;
      }
    }

    method FlushIfFlusher() returns (ok: bool)
      requires Valid()
      modifies Objects()
      ensures client == old(client) && (Value(), ok) == FlushSink(cfg, old(Value()))
    {
      match sink
      case TimescaleRef(t) =>
        t.Flush();
        ok := true;
      case DirectRef(d) =>
        ok := true;
        if d.c.flusher {
          ok := d.Flush();
        }
    }

    method DrainPoison()
      requires Valid()
      modifies Objects()
      ensures client == old(client) && Value() == PoisonDrained(cfg, old(Value()))
    {
      match sink
      case DirectRef(_) =>
      case TimescaleRef(t) =>
        var ps := t.DrainPoisoned();
        ghost var w := Value();
        var i := 0;
        while i < |ps|
          invariant 0 <= i <= |ps| && client == old(client)
          invariant SentAll(cfg, w, ps) == SentAll(cfg, Value(), ps[i..])
        {
          assert ps[i..][1..] == ps[i + 1..];
          SendToDLQ(PoisonLetter(cfg, ps[i]));
          i := i + 1;
        }
    }

    /** The body of Run's loop. */
    method RunRound(turn: Turn)
      requires Valid()
      modifies Objects()
      ensures System(Value(), client) == TurnDone(cfg, System(old(Value()), old(client)), turn)
    {
      var (b, records) := Fetched(Rewound(client, turn.rewinds), turn.chunks);
      client := b;
      assert Value() == old(Value());
      HandleBatch(records);
      var ok := FlushIfFlusher();
      if !ok {
        return;
      }
      DrainPoison();
      ghost var w := Value();
      client := Committed(cfg.commit, client);
      assert Value() == w;
    }

    /** Run until the context is cancelled after `turns` polls. */
    method Run(turns: seq<Turn>)
      requires Valid()
      modifies Objects()
      ensures System(Value(), client) == TurnsDone(cfg, System(old(Value()), old(client)), turns)
    {
      var i := 0;
      while i < |turns|
        invariant 0 <= i <= |turns|
        invariant TurnsDone(cfg, System(old(Value()), old(client)), turns)
               == TurnsDone(cfg, System(Value(), client), turns[i..])
      {
        assert turns[i..][1..] == turns[i + 1..];
        RunRound(turns[i]);
        i := i + 1;
      }
    }
  }
}
