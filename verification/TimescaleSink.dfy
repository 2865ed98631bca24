/** internal/sink/timescale.go, one caller at a time. SinkThreads.dfy treats the interleavings. */
module TimescaleSink {
  import opened Events
  import opened Database

  datatype Config = Config(script: Script, batchSize: int, maxRetries: int)

  /** The database and the two slices guarded by the mutex. */
  datatype State = State(db: Db, buffer: seq<Event>, poisoned: seq<Event>)

  // ---- What the operations compute -------------------------------------------------------

  /** Tier one: the whole batch, `left` times at most. */
  ghost function CopyTier(c: Config, db: Db, batch: seq<Event>, left: nat): (Db, bool)
    decreases left
  {
    if left == 0 then (db, false) else
      var (d, ok) := CopyIn(c.script, db, batch);
      if ok then (d, true) else CopyTier(c, d, batch, left - 1)
  }

  /** Tier two, one row, `left` times at most. */
  ghost function RowTier(c: Config, db: Db, e: Event, left: nat): (Db, bool)
    decreases left
  {
    if left == 0 then (db, false) else
      var (d, ok) := InsertRow(c.script, db, e);
      if ok then (d, true) else RowTier(c, d, e, left - 1)
  }

  /** A row is poisoned when it was tried and the last try failed. */
  ghost function OneRow(c: Config, s: State, e: Event): State {
    var (d, ok) := RowTier(c, s.db, e, Attempts(c.maxRetries));
    State(d, s.buffer, if ok || Attempts(c.maxRetries) == 0 then s.poisoned else s.poisoned + [e])
  }

  ghost function RowByRow(c: Config, s: State, batch: seq<Event>): State
    decreases |batch|
  {
    if batch == [] then s else RowByRow(c, OneRow(c, s, batch[0]), batch[1..])
  }

  ghost function Flushed(c: Config, s: State): State {
    if s.buffer == [] then s else
      var (d, ok) := CopyTier(c, s.db, s.buffer, Attempts(c.maxRetries));
      var drained := State(d, [], s.poisoned);
      if ok then drained else RowByRow(c, drained, s.buffer)
  }

  ghost function Written(c: Config, s: State, e: Event): State {
    var s1 := s.(buffer := s.buffer + [e]);
    if |s1.buffer| >= c.batchSize then Flushed(c, s1) else s1
  }

  // ---- The sink itself -------------------------------------------------------------------

  class Sink {
    const c: Config
    var pool: Db
    var buffer: seq<Event>
    var poisoned: seq<Event>

    ghost function Value(): State
      reads this
    {
      State(pool, buffer, poisoned)
    }

    constructor (c: Config, pool: Db)
      ensures this.c == c && Value() == State(pool, [], [])
    {
      this.c, this.pool, buffer, poisoned := c, pool, [], [];
    }

    method Write(e: Event)
      modifies this
      ensures Value() == Written(c, old(Value()), e)
    {
      buffer := buffer + [e];
      var shouldFlush := |buffer| >= c.batchSize;
      if shouldFlush {
        Flush();
      }
    }

    method DrainBuffer() returns (batch: seq<Event>)
      modifies this`buffer
      ensures batch == old(buffer) && buffer == []
    {
      batch := buffer;
      buffer := [];
    }

    method MarkPoisoned(e: Event)
      modifies this`poisoned
      ensures poisoned == old(poisoned) + [e]
    {
      poisoned := poisoned + [e];
    }

    method DrainPoisoned() returns (p: seq<Event>)
      modifies this`poisoned
      ensures p == old(poisoned) && poisoned == []
    {
      p := poisoned;
      poisoned := [];
    }

    method CopyBatch(batch: seq<Event>) returns (ok: bool)
      modifies this`pool
      ensures (pool, ok) == CopyIn(c.script, old(pool), batch)
    {
      var (d, done) := CopyIn(c.script, pool, batch);
      pool, ok := d, done;
    }

    method InsertOne(e: Event) returns (ok: bool)
      modifies this`pool
      ensures (pool, ok) == InsertRow(c.script, old(pool), e)
    {
      var (d, done) := InsertRow(c.script, pool, e);
      pool, ok := d, done;
    }

    /** The inner retry loop of the fallback. */
    method InsertWithRetry(e: Event) returns (failed: bool)
      modifies this`pool
      ensures var (d, ok) := RowTier(c, old(pool), e, Attempts(c.maxRetries));
              pool == d && failed == (!ok && Attempts(c.maxRetries) > 0)
    {
      failed := false;
      var attempt := 0;
      while attempt <= c.maxRetries
        invariant 0 <= attempt <= Attempts(c.maxRetries)
        invariant RowTier(c, old(pool), e, Attempts(c.maxRetries))
               == RowTier(c, pool, e, Attempts(c.maxRetries) - attempt)
        invariant failed == (attempt > 0)
      {
        var ok := InsertOne(e);
        failed := !ok;
        if ok {
          break;
        }
        attempt := attempt + 1;
      }
    }

    method Flush()
      modifies this
      ensures Value() == Flushed(c, old(Value()))
    {
      var batch := DrainBuffer();
      if |batch| == 0 {
        return;
      }
      ghost var start := pool;
      var attempt := 0;
      while attempt <= c.maxRetries
        invariant 0 <= attempt <= Attempts(c.maxRetries)
        invariant buffer == [] && poisoned == old(poisoned)
        invariant CopyTier(c, start, batch, Attempts(c.maxRetries))
               == CopyTier(c, pool, batch, Attempts(c.maxRetries) - attempt)
      {
        var ok := CopyBatch(batch);
        if ok {
          return;
        }
        attempt := attempt + 1;
      }
      ghost var fallback := Value();
      var i := 0;
      while i < |batch|
        invariant 0 <= i <= |batch|
        invariant RowByRow(c, fallback, batch) == RowByRow(c, Value(), batch[i..])
      {
        ghost var before := Value();
        var failed := InsertWithRetry(batch[i]);
        if failed {
          MarkPoisoned(batch[i]);
        }
        assert Value() == OneRow(c, before, batch[i]);
        assert batch[i..][1..] == batch[i + 1..];
        i := i + 1;
      }
    }
  }

  // ---- Nothing is lost, under every script -----------------------------------------------

  /** What every sink operation keeps: the index holds, no row is deleted, and each event that
      was held is still held, stored under its id, or poisoned. */
  ghost predicate Keeps(s: State, t: State) {
    && Ids(s.db.table) <= Ids(t.db.table)
    && (forall e :: e in s.poisoned ==> e in t.poisoned)
    && (forall e :: e in s.buffer ==> Held(t, e))
  }

  ghost predicate Held(t: State, e: Event) {
    e in t.buffer || Id(e) in Ids(t.db.table) || e in t.poisoned
  }

  lemma {:induction false} CopyTierFacts(c: Config, db: Db, batch: seq<Event>, left: nat)
    requires Unique(db.table)
    ensures var (d, ok) := CopyTier(c, db, batch, left);
            && Unique(d.table) && Ids(db.table) <= Ids(d.table)
            && (d.table == db.table || (d.table == db.table + batch && forall e :: e in batch ==> !c.script.bad(e))
                || batch == [])
            && (ok ==> d.table == db.table + batch && Ids(batch) <= Ids(d.table))
    decreases left
  {
    if left > 0 {
      CopyFacts(c.script, db, batch);
      var (d, ok) := CopyIn(c.script, db, batch);
      if !ok {
        CopyTierFacts(c, d, batch, left - 1);
        if d.table != db.table && batch != [] {
          StuckCopy(c, d, db.table, batch, left - 1);
        }
      }
    }
  }

  /** Once a batch is in the table, copying it again can never succeed. */
  lemma {:induction false} StuckCopy(c: Config, db: Db, rest: seq<Event>, batch: seq<Event>, left: nat)
    requires db.table == rest + batch && batch != []
    ensures CopyTier(c, db, batch, left).0.table == db.table
    ensures !CopyTier(c, db, batch, left).1
    decreases left
  {
    if left > 0 {
      var rows := db.table + batch;
      assert rows[|rest|] == batch[0] && rows[|db.table|] == batch[0];
      StuckCopy(c, CopyIn(c.script, db, batch).0, rest, batch, left - 1);
    }
  }

  lemma {:induction false} RowTierFacts(c: Config, db: Db, e: Event, left: nat)
    requires Unique(db.table)
    ensures var (d, ok) := RowTier(c, db, e, left);
            && Unique(d.table) && Ids(db.table) <= Ids(d.table)
            && (ok ==> Id(e) in Ids(d.table))
            && (d.table == db.table || d.table == InsertOrIgnore(db.table, e))
            && (ok ==> d.table == InsertOrIgnore(db.table, e))
            && (c.script.bad(e) ==> d.table == db.table)
            && (ok <==> !c.script.bad(e) && DoneWithin(c.script.outcome, db.tick, left))
    decreases left
  {
    if left > 0 {
      InsertFacts(c.script, db, e);
      InsertKeepsUnique(db.table, e);
      var (d, ok) := InsertRow(c.script, db, e);
      if !ok {
        RowTierFacts(c, d, e, left - 1);
      }
    }
  }

  /** The retry loop of a row: statements stop with the first acknowledgement, and the row is stored as
      soon as one of them was carried out. */
  lemma {:induction false} RowTierTries(c: Config, db: Db, e: Event, left: nat) returns (tries: nat)
    requires Unique(db.table)
    ensures var (d, ok) := RowTier(c, db, e, left);
            && d.tick == db.tick + tries
            && (c.script.bad(e) ==> !ok && tries == left)
            && (!c.script.bad(e) ==> RetriesUntilDone(c.script.outcome, db.tick, left, tries, ok))
            && d.table == (if !c.script.bad(e) && Applied(c.script.outcome, db.tick, tries) > 0
                           then InsertOrIgnore(db.table, e) else db.table)
    decreases left
  {
    if left == 0 {
      tries := 0;
    } else {
      InsertFacts(c.script, db, e);
      InsertKeepsUnique(db.table, e);
      var (d, ok) := InsertRow(c.script, db, e);
      if ok {
        tries := 1;
        assert Applied(c.script.outcome, db.tick, 1) == 1 + Applied(c.script.outcome, db.tick + 1, 0);
      } else {
        var more := RowTierTries(c, d, e, left - 1);
        tries := more + 1;
      }
    }
  }

  /** The retry loop of the batch: it ends with the first acknowledgement, which only an admissible batch
      gets, and only as long as no earlier COPY of it was carried out unnoticed. */
  lemma {:induction false} CopyTierTries(c: Config, db: Db, batch: seq<Event>, left: nat) returns (tries: nat)
    requires Unique(db.table) && batch != []
    ensures var (d, ok) := CopyTier(c, db, batch, left);
            var fits := Admissible(c.script, db.table, batch);
            && d.tick == db.tick + tries && tries <= left && (!ok ==> tries == left)
            && (ok ==> fits && tries > 0 && c.script.outcome(db.tick + tries - 1).Done?
                       && forall k :: db.tick <= k < db.tick + tries - 1 ==> c.script.outcome(k).Refused?)
            && (!ok && fits ==> forall k :: db.tick <= k < db.tick + left && c.script.outcome(k).Done? ==>
                  exists l :: db.tick <= l < k && !c.script.outcome(l).Refused?)
            && d.table == (if fits && Applied(c.script.outcome, db.tick, tries) > 0 then db.table + batch else db.table)
    decreases left
  {
    if left == 0 {
      tries := 0;
    } else {
      CopyFacts(c.script, db, batch);
      var (d, ok) := CopyIn(c.script, db, batch);
      if ok {
        tries := 1;
        assert Applied(c.script.outcome, db.tick, 1) == 1 + Applied(c.script.outcome, db.tick + 1, 0);
      } else {
        var more := CopyTierTries(c, d, batch, left - 1);
        tries := more + 1;
        if d.table != db.table {
          StuckCopy(c, d, db.table, batch, left - 1);
        }
      }
    }
  }

  lemma {:induction false} RowByRowKeeps(c: Config, s: State, batch: seq<Event>)
    requires Unique(s.db.table)
    ensures var t := RowByRow(c, s, batch);
            && Unique(t.db.table) && Keeps(s, t) && t.buffer == s.buffer
            && (c.maxRetries >= 0 ==> forall e :: e in batch ==> Id(e) in Ids(t.db.table) || e in t.poisoned)
    decreases |batch|
  {
    if batch != [] {
      RowTierFacts(c, s.db, batch[0], Attempts(c.maxRetries));
      RowByRowKeeps(c, OneRow(c, s, batch[0]), batch[1..]);
      assert forall e :: e in batch ==> e == batch[0] || e in batch[1..];
    }
  }

  /** For every script and every batch, replays and internal duplicates included. */
  lemma FlushSettles(c: Config, s: State)
    requires Unique(s.db.table) && c.maxRetries >= 0
    ensures var t := Flushed(c, s);
            && Unique(t.db.table) && t.buffer == [] && Keeps(s, t)
            && (forall e :: e in s.buffer ==> Id(e) in Ids(t.db.table) || e in t.poisoned)
  {
    if s.buffer != [] {
      CopyTierFacts(c, s.db, s.buffer, Attempts(c.maxRetries));
      var (d, ok) := CopyTier(c, s.db, s.buffer, Attempts(c.maxRetries));
      assert forall e :: e in s.buffer ==> Id(e) in Ids(s.buffer);
      RowByRowKeeps(c, State(d, [], s.poisoned), s.buffer);
    }
  }

  lemma WriteKeeps(c: Config, s: State, e: Event)
    requires Unique(s.db.table) && c.maxRetries >= 0
    ensures var t := Written(c, s, e);
            Unique(t.db.table) && Keeps(s, t) && Held(t, e)
    ensures c.batchSize >= 1 && |s.buffer| < c.batchSize ==> |Written(c, s, e).buffer| < c.batchSize
  {
    var s1 := s.(buffer := s.buffer + [e]);
    assert e in s1.buffer;
    assert forall x :: x in s.buffer ==> x in s1.buffer;
    FlushSettles(c, s1);
  }

  /** Batching: below the batch size a write only appends, without a statement; the write that reaches it
      leaves nothing buffered and all of the batch stored or poisoned. A flush of nothing does nothing. */
  lemma WriteBatches(c: Config, s: State, e: Event)
    requires Unique(s.db.table) && c.maxRetries >= 0
    ensures var t := Written(c, s, e);
            if |s.buffer| + 1 < c.batchSize then t.db == s.db && t.poisoned == s.poisoned && t.buffer == s.buffer + [e]
            else && t.buffer == [] && t.db.tick > s.db.tick
                 && forall x :: x in s.buffer + [e] ==> Id(x) in Ids(t.db.table) || x in t.poisoned
    ensures s.buffer == [] ==> Flushed(c, s) == s
  {
    var s1 := s.(buffer := s.buffer + [e]);
    FlushSettles(c, s1);
    var tries := CopyTierTries(c, s.db, s1.buffer, Attempts(c.maxRetries));
    var d := CopyTier(c, s.db, s1.buffer, Attempts(c.maxRetries)).0;
    RowsTick(c, State(d, [], s.poisoned), s1.buffer);
  }

  /** The fast path: if the k-th COPY is the first that is not refused, and it is acknowledged, then a
      flush is these k + 1 statements and appends the batch as it is. */
  lemma FlushIsOneCopy(c: Config, s: State, k: nat)
    requires Unique(s.db.table) && s.buffer != [] && Admissible(c.script, s.db.table, s.buffer)
    requires k <= c.maxRetries && c.script.outcome(s.db.tick + k).Done?
    requires forall j :: s.db.tick <= j < s.db.tick + k ==> c.script.outcome(j).Refused?
    ensures Flushed(c, s) == State(Db(s.db.table + s.buffer, s.db.tick + k + 1), [], s.poisoned)
  {
    FirstCopy(c, s.db, s.buffer, Attempts(c.maxRetries), k);
  }

  lemma {:induction false} FirstCopy(c: Config, db: Db, batch: seq<Event>, left: nat, k: nat)
    requires Unique(db.table) && Admissible(c.script, db.table, batch)
    requires k < left && c.script.outcome(db.tick + k).Done?
    requires forall j :: db.tick <= j < db.tick + k ==> c.script.outcome(j).Refused?
    ensures CopyTier(c, db, batch, left) == (Db(db.table + batch, db.tick + k + 1), true)
    decreases k
  {
    CopyFacts(c.script, db, batch);
    if k > 0 {
      FirstCopy(c, CopyIn(c.script, db, batch).0, batch, left - 1, k - 1);
    }
  }

  lemma {:induction false} RowsTick(c: Config, s: State, batch: seq<Event>)
    ensures RowByRow(c, s, batch).db.tick >= s.db.tick
    decreases |batch|
  {
    if batch != [] {
      RowTicks(c, s.db, batch[0], Attempts(c.maxRetries));
      RowsTick(c, OneRow(c, s, batch[0]), batch[1..]);
    }
  }

  lemma {:induction false} NoAttempts(c: Config, s: State, batch: seq<Event>)
    requires c.maxRetries < 0
    ensures RowByRow(c, s, batch) == s
    decreases |batch|
  {
    if batch != [] {
      NoAttempts(c, s, batch[1..]);
    }
  }

  /** A flush settles an event that is neither stored nor poisoned yet exactly when the retry
      limit is not negative: with a negative limit both loops are skipped and the batch is gone. */
  lemma SettlesIffRetries(c: Config, s: State, e: Event)
    requires Unique(s.db.table) && e in s.buffer
    requires Id(e) !in Ids(s.db.table) && e !in s.poisoned
    ensures Held(Flushed(c, s), e) <==> c.maxRetries >= 0
  {
    if c.maxRetries >= 0 {
      FlushSettles(c, s);
    } else {
      NoAttempts(c, State(s.db, [], s.poisoned), s.buffer);
    }
  }

  lemma {:induction false} RowsKeepBuffer(c: Config, s: State, batch: seq<Event>)
    ensures RowByRow(c, s, batch).buffer == s.buffer
    decreases |batch|
  {
    if batch != [] {
      RowsKeepBuffer(c, OneRow(c, s, batch[0]), batch[1..]);
    }
  }

  /** No flush, however it goes, keeps a batch for a later attempt: the buffer is empty afterwards. */
  lemma FlushKeepsNoBatch(c: Config, s: State)
    ensures Flushed(c, s).buffer == []
    ensures Flushed(c, s).buffer == s.buffer <==> s.buffer == []
  {
    if s.buffer != [] {
      var d := CopyTier(c, s.db, s.buffer, Attempts(c.maxRetries)).0;
      RowsKeepBuffer(c, State(d, [], s.poisoned), s.buffer);
    }
  }

  // ---- The two-tier flush refines insert-or-ignore -----------------------------------------

  /** Each row is bad for good, or is acknowledged within its own attempts. */
  ghost predicate RowsCalm(c: Config, db: Db, batch: seq<Event>)
    decreases |batch|
  {
    || batch == []
    || (&& c.maxRetries >= 0
        && (c.script.bad(batch[0]) || DoneWithin(c.script.outcome, db.tick, Attempts(c.maxRetries)))
        && RowsCalm(c, RowTier(c, db, batch[0], Attempts(c.maxRetries)).0, batch[1..]))
  }

  /** A flush from `s` finishes its work: a COPY is acknowledged, or else, no matter how the copy
      attempts failed, no row that could be stored runs out of attempts. */
  ghost predicate Gentle(c: Config, s: State) {
    s.buffer == [] ||
    var (d, ok) := CopyTier(c, s.db, s.buffer, Attempts(c.maxRetries));
    ok || RowsCalm(c, d, s.buffer)
  }

  lemma RowOutcome(c: Config, s: State, e: Event)
    requires Unique(s.db.table) && c.maxRetries >= 0
    ensures var t := OneRow(c, s, e);
            var calm := c.script.bad(e) || DoneWithin(c.script.outcome, s.db.tick, Attempts(c.maxRetries));
            && Unique(t.db.table) && t.buffer == s.buffer
            && (calm ==> t.db.table == if c.script.bad(e) then s.db.table else InsertOrIgnore(s.db.table, e))
            && t.poisoned == (if c.script.bad(e) || !calm then s.poisoned + [e] else s.poisoned)
  {
    RowTierFacts(c, s.db, e, Attempts(c.maxRetries));
  }

  /** A row is poisoned exactly when it is tried and none of its maxRetries + 1 statements is acknowledged. */
  lemma PoisonedIff(c: Config, s: State, e: Event)
    requires Unique(s.db.table)
    ensures var acknowledged := !c.script.bad(e) &&
              exists k :: s.db.tick <= k <= s.db.tick + c.maxRetries && c.script.outcome(k).Done?;
            OneRow(c, s, e).poisoned == s.poisoned + if c.maxRetries < 0 || acknowledged then [] else [e]
  {
    RowTierFacts(c, s.db, e, Attempts(c.maxRetries));
    DoneWithinMeans(c.script.outcome, s.db.tick, Attempts(c.maxRetries));
  }

  /** At least the bad rows are poisoned, and exactly these when the rows are calm. */
  lemma {:induction false} RowsRefineAbsorb(c: Config, s: State, batch: seq<Event>)
    requires Unique(s.db.table) && c.maxRetries >= 0
    ensures var t := RowByRow(c, s, batch);
            && t.buffer == s.buffer && |t.poisoned| >= |s.poisoned| + |Bad(c.script, batch)|
            && (|t.poisoned| == |s.poisoned| + |Bad(c.script, batch)| ==> RowsCalm(c, s.db, batch))
            && (RowsCalm(c, s.db, batch) ==>
                  && t.db.table == Absorb(s.db.table, Good(c.script, batch))
                  && t.poisoned == s.poisoned + Bad(c.script, batch))
    decreases |batch|
  {
    if batch != [] {
      RowOutcome(c, s, batch[0]);
      RowsRefineAbsorb(c, OneRow(c, s, batch[0]), batch[1..]);
      AbsorbGood(c.script, s.db.table, batch);
      BadHead(c.script, s.poisoned, batch);
    }
  }

  /** Whichever tier finished the work, the table is the fold of insert-or-ignore over the good
      events and the poison list grew by exactly the bad ones, in order. This holds exactly when
      no good row ran out of its own attempts after the copy attempts failed. */
  lemma FlushRefinesAbsorb(c: Config, s: State)
    requires Unique(s.db.table) && c.maxRetries >= 0
    ensures Flushed(c, s).buffer == []
    ensures var t := Flushed(c, s);
            Gentle(c, s) <==> && t.db.table == Absorb(s.db.table, Good(c.script, s.buffer))
                              && t.poisoned == s.poisoned + Bad(c.script, s.buffer)
  {
    var batch := s.buffer;
    if batch != [] {
      CopyTierFacts(c, s.db, batch, Attempts(c.maxRetries));
      var (d, ok) := CopyTier(c, s.db, batch, Attempts(c.maxRetries));
      RowsRefineAbsorb(c, State(d, [], s.poisoned), batch);
      if d.table != s.db.table {
        AllGood(c.script, batch);
        AbsorbFresh(s.db.table, batch);
        assert forall e :: e in batch ==> e in d.table;
        AbsorbKnown(d.table, batch);
      }
    }
  }

  /** No request is refused, or left unreported, more than maxRetries times in a row. */
  ghost predicate Calm(c: Config) {
    forall t: nat :: DoneWithin(c.script.outcome, t, Attempts(c.maxRetries))
  }

  lemma {:induction false} CalmRows(c: Config, db: Db, batch: seq<Event>)
    requires Calm(c)
    ensures RowsCalm(c, db, batch)
    decreases |batch|
  {
    assert DoneWithin(c.script.outcome, db.tick, Attempts(c.maxRetries));
    if batch != [] {
      CalmRows(c, RowTier(c, db, batch[0], Attempts(c.maxRetries)).0, batch[1..]);
    }
  }

  /** A condition on the database alone under which every flush is gentle. */
  lemma CalmIsGentle(c: Config, s: State)
    requires Calm(c)
    ensures Gentle(c, s)
  {
    CalmRows(c, CopyTier(c, s.db, s.buffer, Attempts(c.maxRetries)).0, s.buffer);
  }

  /** An outage of the COPY tier is gentle: whatever becomes of the copy attempts, it is enough that
      the database answers from then on. */
  lemma CopyOutageIsGentle(c: Config, s: State)
    requires c.maxRetries >= 0
    requires forall t: nat :: t >= s.db.tick + Attempts(c.maxRetries) ==> c.script.outcome(t).Done?
    ensures Gentle(c, s)
  {
    if s.buffer != [] {
      CopyTicks(c, s.db, s.buffer, Attempts(c.maxRetries));
      var (d, ok) := CopyTier(c, s.db, s.buffer, Attempts(c.maxRetries));
      if !ok {
        DoneRows(c, d, s.buffer);
      }
    }
  }

  lemma {:induction false} CopyTicks(c: Config, db: Db, batch: seq<Event>, left: nat)
    ensures var (d, ok) := CopyTier(c, db, batch, left);
            !ok ==> d.tick == db.tick + left
    decreases left
  {
    if left > 0 {
      CopyTicks(c, CopyIn(c.script, db, batch).0, batch, left - 1);
    }
  }

  lemma {:induction false} RowTicks(c: Config, db: Db, e: Event, left: nat)
    ensures RowTier(c, db, e, left).0.tick >= db.tick
    decreases left
  {
    if left > 0 {
      RowTicks(c, InsertRow(c.script, db, e).0, e, left - 1);
    }
  }

  lemma {:induction false} DoneRows(c: Config, db: Db, batch: seq<Event>)
    requires c.maxRetries >= 0 && forall t: nat :: t >= db.tick ==> c.script.outcome(t).Done?
    ensures RowsCalm(c, db, batch)
    decreases |batch|
  {
    if batch != [] {
      RowTicks(c, db, batch[0], Attempts(c.maxRetries));
      DoneRows(c, RowTier(c, db, batch[0], Attempts(c.maxRetries)).0, batch[1..]);
    }
  }
}
