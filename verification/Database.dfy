/** The telemetry table behind the sink: deploy/sql/schema.sql and the two statements of
    internal/sink/timescale.go, answered by an arbitrary outcome script. */
module Database {
  import opened Events

  /** `outcome(t)` answers the t-th statement; `bad` rows are never accepted. */
  datatype Script = Script(outcome: nat -> Outcome, bad: Event -> bool)

  datatype Db = Db(table: seq<Event>, tick: nat)

  function Good(script: Script, es: seq<Event>): seq<Event> {
    if es == [] then [] else
      (if script.bad(es[0]) then [] else [es[0]]) + Good(script, es[1..])
  }

  function Bad(script: Script, es: seq<Event>): seq<Event> {
    if es == [] then [] else
      (if script.bad(es[0]) then [es[0]] else []) + Bad(script, es[1..])
  }

  /** COPY: all or nothing, and refused whenever the unique index would be broken. */
  function CopyIn(script: Script, db: Db, batch: seq<Event>): (r: (Db, bool)) {
    var o := script.outcome(db.tick);
    if o.Refused? || !Unique(db.table + batch) || exists e :: e in batch && script.bad(e)
    then (db.(tick := db.tick + 1), false)
    else (Db(db.table + batch, db.tick + 1), o.Done?)
  }

  function InsertOrIgnore(table: seq<Event>, e: Event): seq<Event> {
    if Id(e) in Ids(table) then table else table + [e]
  }

  /** INSERT ... ON CONFLICT DO NOTHING for one row. */
  function InsertRow(script: Script, db: Db, e: Event): (r: (Db, bool)) {
    var o := script.outcome(db.tick);
    if o.Refused? || script.bad(e)
    then (db.(tick := db.tick + 1), false)
    else (Db(InsertOrIgnore(db.table, e), db.tick + 1), o.Done?)
  }

  /** The simple form of a flush: insert-or-ignore, one event after the other. */
  ghost function Absorb(table: seq<Event>, es: seq<Event>): seq<Event>
    decreases |es|
  {
    if es == [] then table else Absorb(InsertOrIgnore(table, es[0]), es[1..])
  }

  lemma InsertKeepsUnique(table: seq<Event>, e: Event)
    requires Unique(table)
    ensures Unique(InsertOrIgnore(table, e))
    ensures Ids(InsertOrIgnore(table, e)) == Ids(table) + {Id(e)}
  {
  }

  lemma {:induction false} AbsorbConcat(table: seq<Event>, a: seq<Event>, b: seq<Event>)
    ensures Absorb(table, a + b) == Absorb(Absorb(table, a), b)
    decreases |a|
  {
    if a == [] {
      assert a + b == b;
    } else {
      assert (a + b)[1..] == a[1..] + b;
      AbsorbConcat(InsertOrIgnore(table, a[0]), a[1..], b);
    }
  }

  lemma {:induction false} AbsorbIds(table: seq<Event>, es: seq<Event>)
    requires Unique(table)
    ensures Unique(Absorb(table, es))
    ensures Ids(Absorb(table, es)) == Ids(table) + Ids(es)
    decreases |es|
  {
    if es != [] {
      InsertKeepsUnique(table, es[0]);
      AbsorbIds(InsertOrIgnore(table, es[0]), es[1..]);
      assert forall x :: x in es <==> x == es[0] || x in es[1..];
    }
  }

  /** On rows the index lets through, a COPY and the row-by-row form agree. */
  lemma {:induction false} AbsorbFresh(table: seq<Event>, es: seq<Event>)
    requires Unique(table + es)
    ensures Absorb(table, es) == table + es
    decreases |es|
  {
    if es != [] {
      var rows := table + es;
      assert rows[|table|] == es[0];
      forall x | x in table
        ensures Id(x) != Id(es[0])
      {
        var i :| 0 <= i < |table| && table[i] == x;
        assert rows[i] == x;
      }
      assert (table + [es[0]]) + es[1..] == rows;
      AbsorbFresh(table + [es[0]], es[1..]);
    }
  }

  lemma {:induction false} AbsorbKnown(table: seq<Event>, es: seq<Event>)
    requires Ids(es) <= Ids(table)
    ensures Absorb(table, es) == table
    decreases |es|
  {
    if es != [] {
      assert Id(es[0]) in Ids(es);
      assert forall x :: x in es[1..] ==> Id(x) in Ids(es);
      AbsorbKnown(table, es[1..]);
    }
  }

  lemma {:induction false} GoodBadConcat(script: Script, a: seq<Event>, b: seq<Event>)
    ensures Good(script, a + b) == Good(script, a) + Good(script, b)
    ensures Bad(script, a + b) == Bad(script, a) + Bad(script, b)
    decreases |a|
  {
    if a == [] {
      assert a + b == b;
    } else {
      assert (a + b)[1..] == a[1..] + b;
      GoodBadConcat(script, a[1..], b);
    }
  }

  lemma {:induction false} AllGood(script: Script, es: seq<Event>)
    requires forall e :: e in es ==> !script.bad(e)
    ensures Good(script, es) == es && Bad(script, es) == []
    decreases |es|
  {
    if es != [] {
      AllGood(script, es[1..]);
      assert es == [es[0]] + es[1..];
    }
  }

  lemma AbsorbGood(script: Script, table: seq<Event>, es: seq<Event>)
    requires es != []
    ensures Absorb(table, Good(script, es))
         == Absorb(if script.bad(es[0]) then table else InsertOrIgnore(table, es[0]), Good(script, es[1..]))
  {
    if script.bad(es[0]) {
      assert Good(script, es) == Good(script, es[1..]);
    } else {
      assert Good(script, es)[1..] == Good(script, es[1..]);
    }
  }

  lemma BadHead(script: Script, before: seq<Event>, es: seq<Event>)
    requires es != []
    ensures before + Bad(script, es) == (if script.bad(es[0]) then before + [es[0]] else before) + Bad(script, es[1..])
  {
  }

  /** What a COPY may append without breaking the index or storing a bad row. */
  ghost predicate Admissible(script: Script, table: seq<Event>, batch: seq<Event>) {
    Unique(table + batch) && forall e :: e in batch ==> !script.bad(e)
  }

  /** All or nothing: an admissible batch is appended whole unless the request is refused, any other
      leaves the table alone; it is acknowledged exactly when it is admissible and the request is done. */
  lemma CopyFacts(script: Script, db: Db, batch: seq<Event>)
    requires Unique(db.table)
    ensures var (d, ok) := CopyIn(script, db, batch);
            && Unique(d.table) && Ids(db.table) <= Ids(d.table) && d.tick == db.tick + 1
            && (ok <==> Admissible(script, db.table, batch) && script.outcome(db.tick).Done?)
            && (Admissible(script, db.table, batch) && !script.outcome(db.tick).Refused? ==>
                  d.table == db.table + batch && Ids(db.table) !! Ids(batch) && Ids(batch) <= Ids(d.table))
            && (!Admissible(script, db.table, batch) || script.outcome(db.tick).Refused? ==> d.table == db.table)
  {
    if Admissible(script, db.table, batch) {
      NewIds(db.table, batch);
    }
  }

  lemma NewIds(table: seq<Event>, batch: seq<Event>)
    requires Unique(table + batch)
    ensures Ids(table) !! Ids(batch) && Unique(batch)
  {
    var rows := table + batch;
    forall i, j | 0 <= i < |table| && 0 <= j < |batch|
      ensures Id(table[i]) != Id(batch[j])
    {
      assert rows[i] == table[i] && rows[|table| + j] == batch[j];
    }
    forall i, j | 0 <= i < j < |batch|
      ensures Id(batch[i]) != Id(batch[j])
    {
      assert rows[|table| + i] == batch[i] && rows[|table| + j] == batch[j];
    }
  }

  /** The row is acknowledged exactly when it is not bad and the request is done. Unless it is bad or the
      request is refused its id is stored afterwards: by the row that had it, or else by this one, appended. */
  lemma InsertFacts(script: Script, db: Db, e: Event)
    requires Unique(db.table)
    ensures var (d, ok) := InsertRow(script, db, e);
            var applied := !script.bad(e) && !script.outcome(db.tick).Refused?;
            && Unique(d.table) && Ids(db.table) <= Ids(d.table) && d.tick == db.tick + 1
            && (ok <==> !script.bad(e) && script.outcome(db.tick).Done?)
            && (applied ==> Id(e) in Ids(d.table))
            && d.table == db.table + if applied && Id(e) !in Ids(db.table) then [e] else []
  {
    InsertKeepsUnique(db.table, e);
  }
}
