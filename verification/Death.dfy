/** Why `Delivery.Crashed` reaches every crash point: from the moment on when every request is
    refused, no stage of a round changes anything durable. A process killed at some point of a
    round therefore leaves what the same round leaves under replies that refuse the rest. */
module Death {
  import opened Events
  import opened Consumer
  import DB = Database
  import T = TimescaleSink
  import D = Dedup

  ghost predicate DeadFrom(script: nat -> Outcome, t: nat) {
    forall u: nat :: u >= t ==> script(u).Refused?
  }

  ghost predicate SinkDead(sink: SinkConfig, tick: nat) {
    match sink
    case Timescale(c) => DeadFrom(c.script.outcome, tick)
    case Direct(d) => DeadFrom(d.write, tick) && forall u: nat :: u >= tick ==> d.flush(u) == FlushReply(false, 0)
  }

  ghost predicate Dead(cfg: Config, w: World) {
    && SinkDead(cfg.sink, w.sink.db.tick)
    && (cfg.dedup.Some? ==> DeadFrom(cfg.dedup.value.outcome, w.redis.tick))
    && (cfg.dlq.Some? ==> DeadFrom(cfg.dlq.value, w.dlq.tick))
  }

  /** The durable parts agree and time went on. */
  ghost predicate SameSink(s: T.State, t: T.State) {
    s.db.table == t.db.table && s.db.tick <= t.db.tick
  }

  ghost predicate NoTrace(w: World, w': World) {
    && SameSink(w.sink, w'.sink)
    && w.redis.keys == w'.redis.keys && w.redis.tick <= w'.redis.tick
    && w.dlq.letters == w'.dlq.letters && w.dlq.tick <= w'.dlq.tick
  }

  lemma {:induction false} DeadCopies(c: T.Config, db: DB.Db, batch: seq<Event>, left: nat)
    requires DeadFrom(c.script.outcome, db.tick)
    ensures var (d, ok) := T.CopyTier(c, db, batch, left);
            !ok && d.table == db.table && d.tick >= db.tick
    decreases left
  {
    if left > 0 {
      assert c.script.outcome(db.tick).Refused?;
      DeadCopies(c, DB.CopyIn(c.script, db, batch).0, batch, left - 1);
    }
  }

  lemma {:induction false} DeadRow(c: T.Config, db: DB.Db, e: Event, left: nat)
    requires DeadFrom(c.script.outcome, db.tick)
    ensures var d := T.RowTier(c, db, e, left).0;
            d.table == db.table && d.tick >= db.tick
    decreases left
  {
    if left > 0 {
      assert c.script.outcome(db.tick).Refused?;
      DeadRow(c, DB.InsertRow(c.script, db, e).0, e, left - 1);
    }
  }

  lemma {:induction false} DeadRows(c: T.Config, s: T.State, batch: seq<Event>)
    requires DeadFrom(c.script.outcome, s.db.tick)
    ensures SameSink(s, T.RowByRow(c, s, batch))
    decreases |batch|
  {
    if batch != [] {
      DeadRow(c, s.db, batch[0], Attempts(c.maxRetries));
      DeadRows(c, T.OneRow(c, s, batch[0]), batch[1..]);
    }
  }

  lemma DeadFlush(c: T.Config, s: T.State)
    requires DeadFrom(c.script.outcome, s.db.tick)
    ensures SameSink(s, T.Flushed(c, s))
  {
    DeadCopies(c, s.db, s.buffer, Attempts(c.maxRetries));
    var d := T.CopyTier(c, s.db, s.buffer, Attempts(c.maxRetries)).0;
    DeadRows(c, T.State(d, [], s.poisoned), s.buffer);
  }

  lemma {:induction false} DeadWrites(d: DirectConfig, s: T.State, e: Event, left: nat)
    requires DeadFrom(d.write, s.db.tick)
    ensures SameSink(s, WriteTier(d, s, e, left).0)
    decreases left
  {
    if left > 0 {
      assert d.write(s.db.tick).Refused?;
      DeadWrites(d, DirectWrite(d, s, e).0, e, left - 1);
    }
  }

  lemma DeadSend(cfg: Config, w: World, l: Letter)
    requires Dead(cfg, w)
    ensures NoTrace(w, Sent(cfg, w, l)) && Dead(cfg, Sent(cfg, w, l))
  {
  }

  lemma DeadPersist(cfg: Config, w: World, d: Decoded)
    requires Dead(cfg, w)
    ensures NoTrace(w, Persisted(cfg, w, d)) && Dead(cfg, Persisted(cfg, w, d))
  {
    match cfg.sink
    case Timescale(c) => DeadFlush(c, w.sink.(buffer := w.sink.buffer + [d.event]));
    case Direct(c) =>
      DeadWrites(c, w.sink, d.event, Attempts(cfg.maxRetries));
      var s := WriteTier(c, w.sink, d.event, Attempts(cfg.maxRetries)).0;
      DeadSend(cfg, w.(persisted := w.persisted + [d.event], sink := s), RawLetter(d.record));
  }

  lemma {:induction false} DeadDecode(cfg: Config, w: World, rs: seq<Record>)
    requires Dead(cfg, w)
    ensures NoTrace(w, DecodeAll(cfg, w, rs)) && Dead(cfg, DecodeAll(cfg, w, rs))
    decreases |rs|
  {
    if rs != [] {
      DeadSend(cfg, w.(handled := w.handled + [rs[0]]), RawLetter(rs[0]));
      DeadDecode(cfg, DecodeOne(cfg, w, rs[0]), rs[1..]);
    }
  }

  lemma {:induction false} DeadClaims(c: D.Config, r: D.Redis, keys: seq<string>)
    requires DeadFrom(c.outcome, r.tick)
    ensures var r' := D.SeenEach(c, r, keys).0;
            r'.keys == r.keys && r'.tick >= r.tick
    decreases |keys|
  {
    if keys != [] {
      assert c.outcome(r.tick).Refused?;
      DeadClaims(c, D.SeenOne(c, r, keys[0]).0, keys[1..]);
    }
  }

  lemma {:induction false} DeadPersistAll(cfg: Config, w: World, ds: seq<Decoded>, seen: seq<bool>)
    requires Dead(cfg, w) && |ds| == |seen|
    ensures NoTrace(w, PersistAll(cfg, w, ds, seen)) && Dead(cfg, PersistAll(cfg, w, ds, seen))
    decreases |ds|
  {
    if ds != [] {
      DeadPersist(cfg, w, ds[0]);
      DeadPersistAll(cfg, PersistOne(cfg, w, ds[0], seen[0]), ds[1..], seen[1..]);
    }
  }

  lemma DeadFlushSink(cfg: Config, w: World)
    requires Dead(cfg, w)
    ensures NoTrace(w, FlushSink(cfg, w).0) && Dead(cfg, FlushSink(cfg, w).0)
  {
    match cfg.sink
    case Timescale(c) => DeadFlush(c, w.sink);
    case Direct(c) =>
      assert c.flush(w.sink.db.tick) == FlushReply(false, 0);
      assert w.sink.db.table + w.sink.buffer[..0] == w.sink.db.table;
  }

  lemma {:induction false} DeadDrain(cfg: Config, w: World, es: seq<Event>)
    requires Dead(cfg, w)
    ensures NoTrace(w, SentAll(cfg, w, es)) && Dead(cfg, SentAll(cfg, w, es))
    decreases |es|
  {
    if es != [] {
      DeadSend(cfg, w, PoisonLetter(cfg, es[0]));
      DeadDrain(cfg, Sent(cfg, w, PoisonLetter(cfg, es[0])), es[1..]);
    }
  }
}
