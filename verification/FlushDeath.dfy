/** The crash points inside one flush of the sink: between any two of its statements. */
module FlushDeath {
  import opened Events
  import opened Consumer
  import DB = Database
  import T = TimescaleSink
  import X = Death
  import R = RoundDeath

  /** How far a flush has come: after n failed COPY attempts, or after the first n rows and `tries`
      failed attempts for the next one. */
  datatype FlushPoint = Copies(n: nat) | Rows(n: nat, tries: nat)

  ghost predicate InFlush(c: T.Config, s: T.State, p: FlushPoint) {
    var all := Attempts(c.maxRetries);
    match p
    case Copies(n) => s.buffer != [] && n <= all && !T.CopyTier(c, s.db, s.buffer, n).1
    case Rows(n, tries) =>
      && n < |s.buffer| && tries <= all && !T.CopyTier(c, s.db, s.buffer, all).1
      && !T.RowTier(c, AfterRows(c, s, n).db, s.buffer[n], tries).1
  }

  ghost function AfterRows(c: T.Config, s: T.State, n: nat): T.State
    requires n <= |s.buffer|
  {
    T.RowByRow(c, T.State(T.CopyTier(c, s.db, s.buffer, Attempts(c.maxRetries)).0, [], s.poisoned), s.buffer[..n])
  }

  ghost function FlushAt(c: T.Config, s: T.State, p: FlushPoint): DB.Db
    requires InFlush(c, s, p)
  {
    match p
    case Copies(n) => T.CopyTier(c, s.db, s.buffer, n).0
    case Rows(n, tries) => T.RowTier(c, AfterRows(c, s, n).db, s.buffer[n], tries).0
  }

  lemma {:induction false} CopySplit(c: T.Config, db: DB.Db, batch: seq<Event>, n: nat, left: nat)
    requires n <= left && !T.CopyTier(c, db, batch, n).1
    ensures T.CopyTier(c, db, batch, left) == T.CopyTier(c, T.CopyTier(c, db, batch, n).0, batch, left - n)
    decreases n
  {
    if n > 0 {
      CopySplit(c, DB.CopyIn(c.script, db, batch).0, batch, n - 1, left - 1);
    }
  }

  lemma {:induction false} RowSplit(c: T.Config, db: DB.Db, e: Event, n: nat, left: nat)
    requires n <= left && !T.RowTier(c, db, e, n).1
    ensures T.RowTier(c, db, e, left) == T.RowTier(c, T.RowTier(c, db, e, n).0, e, left - n)
    decreases n
  {
    if n > 0 {
      RowSplit(c, DB.InsertRow(c.script, db, e).0, e, n - 1, left - 1);
    }
  }

  lemma {:induction false} RowsSplit(c: T.Config, s: T.State, batch: seq<Event>, n: nat)
    requires n <= |batch|
    ensures T.RowByRow(c, s, batch) == T.RowByRow(c, T.RowByRow(c, s, batch[..n]), batch[n..])
    decreases n
  {
    if n > 0 {
      RowsSplit(c, T.OneRow(c, s, batch[0]), batch[1..], n - 1);
      assert batch[..n][1..] == batch[1..][..n - 1] && batch[n..] == batch[1..][n - 1..];
    } else {
      assert batch[n..] == batch;
    }
  }

  lemma DeathInCopies(c: T.Config, s: T.State, n: nat)
    requires InFlush(c, s, Copies(n)) && X.DeadFrom(c.script.outcome, FlushAt(c, s, Copies(n)).tick)
    ensures var d, t := FlushAt(c, s, Copies(n)), T.Flushed(c, s).db;
            t.table == d.table && t.tick >= d.tick
  {
    var all := Attempts(c.maxRetries);
    CopySplit(c, s.db, s.buffer, n, all);
    X.DeadCopies(c, FlushAt(c, s, Copies(n)), s.buffer, all - n);
    X.DeadRows(c, T.State(T.CopyTier(c, s.db, s.buffer, all).0, [], s.poisoned), s.buffer);
  }

  lemma DeathInRow(c: T.Config, s: T.State, batch: seq<Event>, tries: nat)
    requires batch != [] && tries <= Attempts(c.maxRetries) && !T.RowTier(c, s.db, batch[0], tries).1
    requires X.DeadFrom(c.script.outcome, T.RowTier(c, s.db, batch[0], tries).0.tick)
    ensures var d, t := T.RowTier(c, s.db, batch[0], tries).0, T.RowByRow(c, s, batch).db;
            t.table == d.table && t.tick >= d.tick
  {
    var all := Attempts(c.maxRetries);
    RowSplit(c, s.db, batch[0], tries, all);
    X.DeadRow(c, T.RowTier(c, s.db, batch[0], tries).0, batch[0], all - tries);
    X.DeadRows(c, T.OneRow(c, s, batch[0]), batch[1..]);
  }

  /** The same inside a flush, between any two of its statements. */
  lemma DeathInFlushLeavesThePoint(c: T.Config, s: T.State, p: FlushPoint)
    requires InFlush(c, s, p) && X.DeadFrom(c.script.outcome, FlushAt(c, s, p).tick)
    ensures var d, t := FlushAt(c, s, p), T.Flushed(c, s).db;
            t.table == d.table && t.tick >= d.tick
  {
    match p
    case Copies(n) => DeathInCopies(c, s, n);
    case Rows(n, tries) =>
      var copied := T.CopyTier(c, s.db, s.buffer, Attempts(c.maxRetries)).0;
      RowsSplit(c, T.State(copied, [], s.poisoned), s.buffer, n);
      DeathInRow(c, AfterRows(c, s, n), s.buffer[n..], tries);
  }

  // ---- The flushes of a round ---------------------------------------------------------------------

  /** The world with the database of a point inside a flush; the dead process makes no request more. */
  ghost predicate DeadAt(cfg: Config, w: World, d: DB.Db) {
    cfg.sink.Timescale? && X.Dead(cfg, w.(sink := w.sink.(db := d)))
  }

  /** The durable parts of the round are those of `w`, with the database as it was at the point. */
  ghost predicate Leaves(w: World, d: DB.Db, w': World) {
    w'.sink.db.table == d.table && w'.redis.keys == w.redis.keys && w'.dlq.letters == w.dlq.letters
  }

  /** Dying inside the flush at the end of a round. */
  lemma DeathInRoundFlush(cfg: Config, w: World, rs: seq<Record>, p: FlushPoint)
    requires cfg.sink.Timescale? && InFlush(cfg.sink.c, Handled(cfg, w, rs).sink, p)
    requires DeadAt(cfg, Handled(cfg, w, rs), FlushAt(cfg.sink.c, Handled(cfg, w, rs).sink, p))
    ensures Leaves(Handled(cfg, w, rs), FlushAt(cfg.sink.c, Handled(cfg, w, rs).sink, p), Round(cfg, w, rs).0)
  {
    var h := Handled(cfg, w, rs);
    DeathInFlushLeavesThePoint(cfg.sink.c, h.sink, p);
    var f := FlushSink(cfg, h).0;
    assert R.At(cfg, w, rs, R.Draining(0)) == R.Emptied(f);
    R.DeathLeavesThePoint(cfg, w, rs, R.Draining(0));
  }

  /** The sink when record n of the decoded batch has just been appended to its buffer. */
  ghost function Filled(w: World, d: Decoded): T.State {
    w.sink.(buffer := w.sink.buffer + [d.event])
  }

  /** Record n of the decoded batch is not a duplicate, and its Write flushes. */
  ghost predicate WriteFlushes(cfg: Config, w: World, rs: seq<Record>, n: nat) {
    var ds := Decodable(cfg, rs);
    && cfg.sink.Timescale? && n < |ds| && !Asked(cfg, DecodeAll(cfg, w, rs), ds).1[n]
    && |R.At(cfg, w, rs, R.Persisting(n)).sink.buffer| + 1 >= cfg.sink.c.batchSize
  }

  lemma PersistStep(cfg: Config, w: World, rs: seq<Record>, n: nat)
    requires n < |Decodable(cfg, rs)|
    ensures var ds := Decodable(cfg, rs);
            var seen := Asked(cfg, DecodeAll(cfg, w, rs), ds).1;
            R.At(cfg, w, rs, R.Persisting(n + 1)) == PersistOne(cfg, R.At(cfg, w, rs, R.Persisting(n)), ds[n], seen[n])
  {
    var ds := Decodable(cfg, rs);
    var (w2, seen) := Asked(cfg, DecodeAll(cfg, w, rs), ds);
    R.PersistAllSplit(cfg, w2, ds[..n + 1], seen[..n + 1], n);
    assert ds[..n + 1][..n] == ds[..n] && seen[..n + 1][..n] == seen[..n];
    assert ds[..n + 1][n..] == [ds[n]] && seen[..n + 1][n..] == [seen[n]];
    assert [ds[n]][1..] == [] && [seen[n]][1..] == [];
    var wn := PersistAll(cfg, w2, ds[..n], seen[..n]);
    assert PersistAll(cfg, wn, [ds[n]], [seen[n]]) == PersistAll(cfg, PersistOne(cfg, wn, ds[n], seen[n]), [], []);
  }

  /** Dying inside the flush of a Write in the middle of a round. */
  lemma DeathInWriteFlush(cfg: Config, w: World, rs: seq<Record>, n: nat, p: FlushPoint)
    requires WriteFlushes(cfg, w, rs, n)
    requires InFlush(cfg.sink.c, Filled(R.At(cfg, w, rs, R.Persisting(n)), Decodable(cfg, rs)[n]), p)
    requires var wn := R.At(cfg, w, rs, R.Persisting(n));
             DeadAt(cfg, wn, FlushAt(cfg.sink.c, Filled(wn, Decodable(cfg, rs)[n]), p))
    ensures var wn := R.At(cfg, w, rs, R.Persisting(n));
            Leaves(wn, FlushAt(cfg.sink.c, Filled(wn, Decodable(cfg, rs)[n]), p), Round(cfg, w, rs).0)
  {
    var wn, d := R.At(cfg, w, rs, R.Persisting(n)), Decodable(cfg, rs)[n];
    DeathInFlushLeavesThePoint(cfg.sink.c, Filled(wn, d), p);
    PersistStep(cfg, w, rs, n);
    R.DeathLeavesThePoint(cfg, w, rs, R.Persisting(n + 1));
  }
}
