/** internal/sink/timescale.go under concurrency: any number of writers, the background ticker
    and the consumer's Run loop share one sink. Each step below is one critical section or one
    database statement, so every run is a sequence of steps in any order. */
module SinkThreads {
  import opened Events
  import opened Database
  import T = TimescaleSink

  const TICKER := 0
  const RUNNER := 1

  /** Where a thread stands inside Flush. */
  datatype Flight =
    | Idle
    | Copying(batch: seq<Event>, attempt: nat)
    | Inserting(rest: seq<Event>, attempt: nat)

  /** Where Run (and after it Close) stands. */
  datatype Phase = Handling | Flushing | Drained | Stopping | Closing | Closed

  /** A poisoned event and, as history, the thread that poisoned it. */
  datatype Poison = Poison(event: Event, culprit: nat)

  datatype Config = Config(script: Script, batchSize: int, maxRetries: int, writers: set<nat>)

  /** `writing` tells that persist waits for its Write; `consumed` is the counter it then adds to.
      `written`, `resolved` and `drained` are history. */
  datatype State = State(
    db: Db, buffer: seq<Event>, poisoned: seq<Poison>,
    flights: seq<Flight>, owes: set<nat>, phase: Phase, tickerGone: bool,
    writing: bool, consumed: nat,
    written: multiset<Event>, resolved: multiset<Event>, drained: multiset<Event>)

  datatype Action =
    | Append(t: nat, e: Event)  // Write up to its unlock
    | Count                     // persist counts the event once Write has returned
    | Start(t: nat)             // drainBuffer by the ticker or by a writer that owes a flush
    | TryCopy(t: nat)
    | FallBack(t: nat)          // the copy attempts are used up
    | TryInsert(t: nat)
    | GiveUp(t: nat)            // the attempts for one row are used up
    | RoundFlush                // Run calls Flush after handleBatch
    | Drain                     // Run calls DrainPoisoned
    | Commit                    // Run commits the offsets
    | Stop                      // Close closes the stop channel
    | TickerExit
    | CloseFlush                // Close flushes once the ticker is gone
    | CloseDone

  ghost predicate Free(s: State, t: nat) {
    t < |s.flights| && s.flights[t].Idle? && t !in s.owes
  }

  ghost predicate AtRow(s: State, t: nat) {
    t < |s.flights| && s.flights[t].Inserting? && s.flights[t].rest != []
  }

  ghost predicate Enabled(c: Config, s: State, a: Action) {
    match a
    case Append(t, _) =>
      t in c.writers && Free(s, t) && t != TICKER && (t == RUNNER ==> s.phase.Handling? && !s.writing)
    case Count => s.writing && Free(s, RUNNER)
    case Start(t) => t < |s.flights| && s.flights[t].Idle? && (t in s.owes || (t == TICKER && !s.tickerGone))
    case TryCopy(t) => t < |s.flights| && s.flights[t].Copying? && s.flights[t].attempt <= c.maxRetries
    case FallBack(t) => t < |s.flights| && s.flights[t].Copying? && s.flights[t].attempt > c.maxRetries
    case TryInsert(t) => AtRow(s, t) && s.flights[t].attempt <= c.maxRetries
    case GiveUp(t) => AtRow(s, t) && s.flights[t].attempt > c.maxRetries
    case RoundFlush => s.phase.Handling? && Free(s, RUNNER) && !s.writing
    case Drain => s.phase.Flushing? && Free(s, RUNNER)
    case Commit => s.phase.Drained?
    case Stop => s.phase.Handling? && Free(s, RUNNER) && !s.writing
    case TickerExit => s.phase.Stopping? && Free(s, TICKER)
    case CloseFlush => s.phase.Stopping? && s.tickerGone && Free(s, RUNNER)
    case CloseDone => s.phase.Closing? && Free(s, RUNNER)
  }

  ghost function Rows(rest: seq<Event>): Flight {
    if rest == [] then Idle else Inserting(rest, 0)
  }

  ghost function Take(s: State, t: nat): State
    requires t < |s.flights|
  {
    s.(buffer := [], owes := s.owes - {t},
       flights := s.flights[t := if s.buffer == [] then Idle else Copying(s.buffer, 0)])
  }

  ghost function Store(c: Config, s: State, t: nat, e: Event): State {
    var b := s.buffer + [e];
    s.(buffer := b, written := s.written + multiset{e}, writing := s.writing || t == RUNNER,
       owes := if |b| >= c.batchSize then s.owes + {t} else s.owes)
  }

  /** Thread `t` moves on to `f`, having resolved `done`. */
  ghost function Land(s: State, t: nat, f: Flight, d: Db, done: multiset<Event>): State
    requires t < |s.flights|
  {
    s.(db := d, flights := s.flights[t := f], resolved := s.resolved + done)
  }

  ghost function CopyOnce(c: Config, s: State, t: nat): State
    requires t < |s.flights| && s.flights[t].Copying?
  {
    var (d, ok) := CopyIn(c.script, s.db, s.flights[t].batch);
    Copied(s, t, d, ok)
  }

  ghost function Copied(s: State, t: nat, d: Db, ok: bool): State
    requires t < |s.flights| && s.flights[t].Copying?
  {
    var Copying(batch, attempt) := s.flights[t];
    if ok then Land(s, t, Idle, d, Load(s.flights[t])) else Land(s, t, Copying(batch, attempt + 1), d, multiset{})
  }

  ghost function InsertOnce(c: Config, s: State, t: nat): State
    requires AtRow(s, t)
  {
    var (d, ok) := InsertRow(c.script, s.db, s.flights[t].rest[0]);
    Inserted(s, t, d, ok)
  }

  ghost function Inserted(s: State, t: nat, d: Db, ok: bool): State
    requires AtRow(s, t)
  {
    var Inserting(rest, attempt) := s.flights[t];
    if ok then Land(s, t, Rows(rest[1..]), d, multiset{rest[0]})
    else Land(s, t, Inserting(rest, attempt + 1), d, multiset{})
  }

  ghost function SkipRow(s: State, t: nat): State
    requires AtRow(s, t)
  {
    var Inserting(rest, attempt) := s.flights[t];
    Land(s, t, Rows(rest[1..]), s.db, multiset{})
      .(poisoned := if attempt > 0 then s.poisoned + [Poison(rest[0], t)] else s.poisoned)
  }

  ghost function DrainAll(s: State): State {
    s.(phase := Drained, poisoned := [], drained := s.drained + multiset(Plain(s.poisoned)))
  }

  ghost function Step(c: Config, s: State, a: Action): State {
    if !Enabled(c, s, a) then s else
    match a
    case Append(t, e) => Store(c, s, t, e)
    case Count => s.(writing := false, consumed := s.consumed + 1)
    case Start(t) => Take(s, t)
    case TryCopy(t) => CopyOnce(c, s, t)
    case FallBack(t) => Land(s, t, Rows(s.flights[t].batch), s.db, multiset{})
    case TryInsert(t) => InsertOnce(c, s, t)
    case GiveUp(t) => SkipRow(s, t)
    case RoundFlush => Take(s, RUNNER).(phase := Flushing)
    case Drain => DrainAll(s)
    case Commit => s.(phase := Handling)
    case Stop => s.(phase := Stopping)
    case TickerExit => s.(tickerGone := true)
    case CloseFlush => Take(s, RUNNER).(phase := Closing)
    case CloseDone => s.(phase := Closed)
  }

  ghost function Reach(c: Config, s: State, run: seq<Action>): State
    decreases |run|
  {
    if run == [] then s else Reach(c, Step(c, s, run[0]), run[1..])
  }

  ghost predicate Init(s: State, rows: seq<Event>) {
    && Unique(rows) && s.db.table == rows && s.buffer == [] && s.poisoned == [] && s.owes == {}
    && |s.flights| >= 2 && (forall t :: 0 <= t < |s.flights| ==> s.flights[t].Idle?)
    && s.phase.Handling? && !s.tickerGone && !s.writing && s.consumed == 0
    && s.written == s.resolved == s.drained == multiset{}
  }

  // ---- Sums over the threads ---------------------------------------------------------------

  ghost function Load(f: Flight): multiset<Event> {
    match f
    case Idle => multiset{}
    case Copying(batch, _) => multiset(batch)
    case Inserting(rest, _) => multiset(rest)
  }

  /** How often `e` is among the unresolved parts of all in-flight batches. */
  ghost function InFlight(flights: seq<Flight>, e: Event): nat {
    if flights == [] then 0 else Load(flights[0])[e] + InFlight(flights[1..], e)
  }

  ghost function Plain(ps: seq<Poison>): seq<Event> {
    if ps == [] then [] else Plain(ps[..|ps| - 1]) + [ps[|ps| - 1].event]
  }

  lemma {:induction false} InFlightUpdate(fs: seq<Flight>, t: nat, f: Flight, e: Event)
    requires t < |fs|
    ensures InFlight(fs[t := f], e) == InFlight(fs, e) - Load(fs[t])[e] + Load(f)[e]
    decreases |fs|
  {
    if t == 0 {
      assert fs[0 := f][1..] == fs[1..];
    } else {
      assert fs[t := f][1..] == fs[1..][t - 1 := f];
      InFlightUpdate(fs[1..], t - 1, f, e);
    }
  }

  lemma {:induction false} InFlightIdle(fs: seq<Flight>, e: Event)
    requires forall t :: 0 <= t < |fs| ==> fs[t].Idle?
    ensures InFlight(fs, e) == 0
    decreases |fs|
  {
    if fs != [] {
      InFlightIdle(fs[1..], e);
    }
  }

  lemma PlainAppend(ps: seq<Poison>, p: Poison)
    ensures Plain(ps + [p]) == Plain(ps) + [p.event]
  {
  }

  lemma HeadAndTail(rest: seq<Event>)
    requires rest != []
    ensures multiset(rest) == multiset{rest[0]} + multiset(rest[1..])
    ensures Load(Rows(rest[1..])) == multiset(rest[1..])
  {
    assert rest == [rest[0]] + rest[1..];
  }

  // ---- What every step keeps -----------------------------------------------------------------

  /** No event vanishes between buffer, in-flight batches, table and poison list. */
  ghost predicate Conserved(s: State) {
    forall e: Event :: Balanced(s, e)
  }

  ghost predicate Balanced(s: State, e: Event) {
    s.written[e] == multiset(s.buffer)[e] + InFlight(s.flights, e)
                    + s.resolved[e] + multiset(Plain(s.poisoned))[e] + s.drained[e]
  }

  ghost predicate TableHolds(s: State) {
    Unique(s.db.table) && forall e :: e in s.resolved ==> Id(e) in Ids(s.db.table)
  }

  /** Each writer that pushed the buffer to its limit still owes its own flush. */
  ghost predicate Bounded(c: Config, s: State) {
    && (forall t :: t in s.owes ==> t < |s.flights| && s.flights[t].Idle? && t in c.writers && t != TICKER)
    && (c.batchSize >= 1 ==> |s.buffer| <= c.batchSize - 1 + |s.owes|)
  }

  ghost predicate Inv(c: Config, s: State) {
    && |s.flights| >= 2
    && Conserved(s) && TableHolds(s) && Bounded(c, s)
  }

  lemma TakeBalances(s: State, t: nat, x: Event)
    requires t < |s.flights| && s.flights[t].Idle? && Balanced(s, x)
    ensures Balanced(Take(s, t), x)
  {
    InFlightUpdate(s.flights, t, Take(s, t).flights[t], x);
  }

  lemma LandBalances(s: State, t: nat, f: Flight, d: Db, done: multiset<Event>, x: Event)
    requires t < |s.flights| && Balanced(s, x)
    requires Load(s.flights[t])[x] == Load(f)[x] + done[x]
    ensures Balanced(Land(s, t, f, d, done), x)
  {
    InFlightUpdate(s.flights, t, f, x);
  }

  lemma CopyBalances(c: Config, s: State, t: nat, x: Event)
    requires t < |s.flights| && s.flights[t].Copying? && Balanced(s, x)
    ensures Balanced(CopyOnce(c, s, t), x)
  {
    var (d, ok) := CopyIn(c.script, s.db, s.flights[t].batch);
    CopiedBalances(s, t, d, ok, x);
  }

  lemma CopiedBalances(s: State, t: nat, d: Db, ok: bool, x: Event)
    requires t < |s.flights| && s.flights[t].Copying? && Balanced(s, x)
    ensures Balanced(Copied(s, t, d, ok), x)
  {
    if ok {
      LandBalances(s, t, Idle, d, Load(s.flights[t]), x);
    } else {
      RetryBalances(s, t, Copying(s.flights[t].batch, s.flights[t].attempt + 1), d, x);
    }
  }

  lemma RetryBalances(s: State, t: nat, f: Flight, d: Db, x: Event)
    requires t < |s.flights| && Balanced(s, x) && Load(f) == Load(s.flights[t])
    ensures Balanced(Land(s, t, f, d, multiset{}), x)
  {
    LandBalances(s, t, f, d, multiset{}, x);
  }

  lemma ResolveBalances(s: State, t: nat, d: Db, x: Event)
    requires AtRow(s, t) && Balanced(s, x)
    ensures Balanced(Land(s, t, Rows(s.flights[t].rest[1..]), d, multiset{s.flights[t].rest[0]}), x)
  {
    HeadAndTail(s.flights[t].rest);
    LandBalances(s, t, Rows(s.flights[t].rest[1..]), d, multiset{s.flights[t].rest[0]}, x);
  }

  lemma InsertBalances(c: Config, s: State, t: nat, x: Event)
    requires AtRow(s, t) && Balanced(s, x)
    ensures Balanced(InsertOnce(c, s, t), x)
  {
    var (d, ok) := InsertRow(c.script, s.db, s.flights[t].rest[0]);
    InsertedBalances(s, t, d, ok, x);
  }

  lemma InsertedBalances(s: State, t: nat, d: Db, ok: bool, x: Event)
    requires AtRow(s, t) && Balanced(s, x)
    ensures Balanced(Inserted(s, t, d, ok), x)
  {
    var Inserting(rest, attempt) := s.flights[t];
    if ok {
      ResolveBalances(s, t, d, x);
    } else {
      RetryBalances(s, t, Inserting(rest, attempt + 1), d, x);
    }
  }

  lemma SkipBalances(s: State, t: nat, x: Event)
    requires AtRow(s, t) && s.flights[t].attempt > 0
    requires Balanced(s, x)
    ensures Balanced(SkipRow(s, t), x)
  {
    var rest := s.flights[t].rest;
    HeadAndTail(rest);
    PlainAppend(s.poisoned, Poison(rest[0], t));
    InFlightUpdate(s.flights, t, Rows(rest[1..]), x);
  }

  lemma StepBalances(c: Config, s: State, a: Action, x: Event)
    requires Balanced(s, x) && c.maxRetries >= 0 && Enabled(c, s, a)
    ensures Balanced(Step(c, s, a), x)
  {
    match a
    case Append(t, e) =>
    case Count =>
    case Start(t) => TakeBalances(s, t, x);
    case RoundFlush => TakeBalances(s, RUNNER, x);
    case CloseFlush => TakeBalances(s, RUNNER, x);
    case TryCopy(t) => CopyBalances(c, s, t, x);
    case FallBack(t) => LandBalances(s, t, Rows(s.flights[t].batch), s.db, multiset{}, x);
    case TryInsert(t) => InsertBalances(c, s, t, x);
    case GiveUp(t) => SkipBalances(s, t, x);
    case Drain =>
    case Commit =>
    case Stop =>
    case TickerExit =>
    case CloseDone =>
  }

  lemma StepConserves(c: Config, s: State, a: Action)
    requires Conserved(s) && c.maxRetries >= 0
    ensures Conserved(Step(c, s, a))
  {
    if Enabled(c, s, a) {
      forall x: Event
        ensures Balanced(Step(c, s, a), x)
      {
        assert Balanced(s, x);
        StepBalances(c, s, a, x);
      }
    }
  }

  lemma StepKeepsTable(c: Config, s: State, a: Action)
    requires TableHolds(s)
    ensures TableHolds(Step(c, s, a))
    ensures Ids(s.db.table) <= Ids(Step(c, s, a).db.table)
  {
    if Enabled(c, s, a) {
      match a
      case TryCopy(t) =>
        CopyFacts(c.script, s.db, s.flights[t].batch);
        assert forall e :: e in s.flights[t].batch ==> Id(e) in Ids(s.flights[t].batch);
      case TryInsert(t) => InsertFacts(c.script, s.db, s.flights[t].rest[0]);
      case _ =>
    }
  }

  lemma FlightBound(c: Config, s: State, t: nat, s': State)
    requires Bounded(c, s) && t < |s.flights| && !s.flights[t].Idle?
    requires s'.buffer == s.buffer && s'.owes == s.owes && |s'.flights| == |s.flights|
    requires forall u :: 0 <= u < |s.flights| && u != t ==> s'.flights[u] == s.flights[u]
    ensures Bounded(c, s')
  {
  }

  lemma TakeBound(c: Config, s: State, t: nat)
    requires Bounded(c, s) && t < |s.flights|
    ensures Bounded(c, Take(s, t))
  {
  }

  lemma StoreBound(c: Config, s: State, t: nat, e: Event)
    requires Bounded(c, s) && Enabled(c, s, Append(t, e))
    ensures Bounded(c, Store(c, s, t, e))
  {
  }

  lemma FlightStepBound(c: Config, s: State, a: Action)
    requires Bounded(c, s) && Enabled(c, s, a) && (a.TryCopy? || a.FallBack? || a.TryInsert? || a.GiveUp?)
    ensures Bounded(c, Step(c, s, a)) && |Step(c, s, a).flights| == |s.flights|
  {
    FlightBound(c, s, a.t, Step(c, s, a));
  }

  lemma StepKeepsBound(c: Config, s: State, a: Action)
    requires Bounded(c, s)
    ensures Bounded(c, Step(c, s, a)) && |Step(c, s, a).flights| == |s.flights|
  {
    if Enabled(c, s, a) {
      match a
      case Append(t, e) => StoreBound(c, s, t, e);
      case Count =>
      case Start(t) => TakeBound(c, s, t);
      case RoundFlush => TakeBound(c, s, RUNNER);
      case CloseFlush => TakeBound(c, s, RUNNER);
      case TryCopy(_) => FlightStepBound(c, s, a);
      case FallBack(_) => FlightStepBound(c, s, a);
      case TryInsert(_) => FlightStepBound(c, s, a);
      case GiveUp(_) => FlightStepBound(c, s, a);
      case Drain =>
      case Commit =>
      case Stop =>
      case TickerExit =>
      case CloseDone =>
    }
  }

  lemma StepKeepsInv(c: Config, s: State, a: Action)
    requires Inv(c, s) && c.maxRetries >= 0
    ensures Inv(c, Step(c, s, a))
  {
    StepConserves(c, s, a);
    StepKeepsTable(c, s, a);
    StepKeepsBound(c, s, a);
  }

  /** Conservation, the unique index and the buffer bound, in every state of every run. */
  lemma {:induction false} EveryRunKeepsInv(c: Config, s: State, run: seq<Action>)
    requires Inv(c, s) && c.maxRetries >= 0
    ensures Inv(c, Reach(c, s, run))
    decreases |run|
  {
    if run != [] {
      StepKeepsInv(c, s, run[0]);
      EveryRunKeepsInv(c, Step(c, s, run[0]), run[1..]);
    }
  }

  lemma InitInv(c: Config, s: State, rows: seq<Event>)
    requires Init(s, rows)
    ensures Inv(c, s)
  {
    forall e: Event
      ensures Balanced(s, e)
    {
      InFlightIdle(s.flights, e);
    }
  }

  // ---- The consumer: one writer, the ticker and Run -----------------------------------------

  ghost predicate Solo(c: Config, s: State) {
    && |s.flights| >= 2
    && (forall t :: 2 <= t < |s.flights| ==> s.flights[t].Idle?)
    && (forall t :: 0 <= t < |s.flights| ==> s.flights[t].Idle? || Load(s.flights[t]) != multiset{})
    && s.owes <= {RUNNER}
    && (!s.phase.Handling? ==> RUNNER !in s.owes)
    && (s.phase.Flushing? || s.phase.Drained? || s.phase.Closing? || s.phase.Closed? ==> s.buffer == [])
    && (s.phase.Drained? || s.phase.Stopping? || s.phase.Closed? ==> s.flights[RUNNER].Idle?)
    && (s.phase.Drained? ==> forall p :: p in s.poisoned ==> p.culprit == TICKER)
    && (s.tickerGone ==> s.flights[TICKER].Idle?)
    && (s.phase.Closing? || s.phase.Closed? ==> s.tickerGone)
    && (s.writing ==> s.phase.Handling?) && Counts(s)
  }

  /** The counter is behind by the one event whose Write has not returned. */
  ghost predicate Counts(s: State) {
    |s.written| == s.consumed + if s.writing then 1 else 0
  }

  lemma TakeSolo(c: Config, s: State, t: nat)
    requires Solo(c, s) && t < 2 && s.flights[t].Idle?
    requires t == RUNNER ==> s.phase.Handling? || (s.phase.Stopping? && s.tickerGone)
    requires t == TICKER ==> !s.tickerGone
    ensures t == TICKER || s.phase.Handling? ==> Solo(c, Take(s, t))
    ensures t == RUNNER && s.phase.Handling? && !s.writing ==> Solo(c, Take(s, t).(phase := Flushing))
    ensures t == RUNNER && s.phase.Stopping? ==> Solo(c, Take(s, t).(phase := Closing))
  {
    RowsLoad(s.buffer);
  }

  lemma SkipSolo(c: Config, s: State, t: nat)
    requires Solo(c, s) && AtRow(s, t)
    ensures Solo(c, SkipRow(s, t))
  {
  }

  lemma CopySolo(c: Config, s: State, t: nat)
    requires Solo(c, s) && t < |s.flights| && s.flights[t].Copying?
    ensures Solo(c, CopyOnce(c, s, t))
  {
  }

  lemma InsertSolo(c: Config, s: State, t: nat)
    requires Solo(c, s) && AtRow(s, t)
    ensures Solo(c, InsertOnce(c, s, t))
  {
  }

  lemma FallBackSolo(c: Config, s: State, t: nat)
    requires Solo(c, s) && t < |s.flights| && s.flights[t].Copying?
    ensures Solo(c, Land(s, t, Rows(s.flights[t].batch), s.db, multiset{}))
  {
  }

  lemma StepKeepsSolo(c: Config, s: State, a: Action)
    requires Solo(c, s) && c.writers == {RUNNER}
    ensures Solo(c, Step(c, s, a))
  {
    if Enabled(c, s, a) {
      match a
      case Append(t, e) =>
      case Count =>
      case Start(t) => TakeSolo(c, s, t);
      case RoundFlush => TakeSolo(c, s, RUNNER);
      case CloseFlush => TakeSolo(c, s, RUNNER);
      case TryCopy(t) => CopySolo(c, s, t);
      case FallBack(t) => FallBackSolo(c, s, t);
      case TryInsert(t) => InsertSolo(c, s, t);
      case GiveUp(t) => SkipSolo(c, s, t);
      case Drain =>
      case Commit =>
      case Stop =>
      case TickerExit =>
      case CloseDone =>
    }
  }

  lemma RowsLoad(rest: seq<Event>)
    ensures rest != [] ==> multiset(rest) != multiset{}
  {
    if rest != [] {
      assert rest[0] in multiset(rest);
    }
  }

  lemma {:induction false} EveryRunKeepsSolo(c: Config, s: State, run: seq<Action>)
    requires Solo(c, s) && c.writers == {RUNNER}
    ensures Solo(c, Reach(c, s, run))
    decreases |run|
  {
    if run != [] {
      StepKeepsSolo(c, s, run[0]);
      EveryRunKeepsSolo(c, Step(c, s, run[0]), run[1..]);
    }
  }

  lemma TwoThreads(fs: seq<Flight>, e: Event)
    requires |fs| >= 2 && forall t :: 2 <= t < |fs| ==> fs[t].Idle?
    ensures InFlight(fs, e) == Load(fs[TICKER])[e] + Load(fs[RUNNER])[e]
  {
    InFlightIdle(fs[2..], e);
    assert fs[1..][1..] == fs[2..];
  }

  /** What the two invariants say about a state, as multisets. */
  lemma SoloBalance(c: Config, s: State)
    requires Inv(c, s) && Solo(c, s)
    ensures s.written == multiset(s.buffer) + Load(s.flights[TICKER]) + Load(s.flights[RUNNER])
                         + s.resolved + multiset(Plain(s.poisoned)) + s.drained
  {
    forall e: Event
      ensures InFlight(s.flights, e) == Load(s.flights[TICKER])[e] + Load(s.flights[RUNNER])[e] && Balanced(s, e)
    {
      TwoThreads(s.flights, e);
    }
  }

  lemma Reached(c: Config, s: State, rows: seq<Event>, run: seq<Action>)
    requires Init(s, rows) && c.writers == {RUNNER} && c.maxRetries >= 0
    ensures Inv(c, Reach(c, s, run)) && Solo(c, Reach(c, s, run))
  {
    InitInv(c, s, rows);
    EveryRunKeepsInv(c, s, run);
    EveryRunKeepsSolo(c, s, run);
  }

  /** At a commit, all that is unsettled is the ticker's batch and what the ticker poisoned since
      the last drain. Everything is settled exactly when the ticker has neither. */
  lemma AtCommit(c: Config, s: State, rows: seq<Event>, run: seq<Action>)
    requires Init(s, rows) && c.writers == {RUNNER} && c.maxRetries >= 0
    requires Enabled(c, Reach(c, s, run), Commit)
    ensures |Reach(c, s, run).flights| >= 2
    ensures var f := Reach(c, s, run);
            && f.written == f.resolved + f.drained + Load(f.flights[TICKER]) + multiset(Plain(f.poisoned))
            && (forall p :: p in f.poisoned ==> p.culprit == TICKER)
            && (f.written == f.resolved + f.drained <==> f.flights[TICKER].Idle? && f.poisoned == [])
  {
    Reached(c, s, rows, run);
    var f := Reach(c, s, run);
    SoloBalance(c, f);
    CommitBalance(f, Load(f.flights[TICKER]), multiset(Plain(f.poisoned)));
    RowsLoad(Plain(f.poisoned));
  }

  lemma CommitBalance(f: State, held: multiset<Event>, poison: multiset<Event>)
    requires f.written == f.resolved + f.drained + held + poison
    ensures f.written == f.resolved + f.drained <==> held == multiset{} && poison == multiset{}
  {
    var settled := f.resolved + f.drained;
    assert forall e :: f.written[e] == settled[e] + held[e] + poison[e];
  }

  /** After Close nothing is buffered or in flight: all that was written is resolved or poisoned. */
  lemma AfterClose(c: Config, s: State, rows: seq<Event>, run: seq<Action>)
    requires Init(s, rows) && c.writers == {RUNNER} && c.maxRetries >= 0
    requires Reach(c, s, run).phase.Closed?
    ensures var f := Reach(c, s, run);
            && f.buffer == [] && (forall t :: 0 <= t < |f.flights| ==> f.flights[t].Idle?)
            && f.written == f.resolved + multiset(Plain(f.poisoned)) + f.drained
  {
    Reached(c, s, rows, run);
    ClosedState(c, Reach(c, s, run));
  }

  lemma ClosedState(c: Config, f: State)
    requires Inv(c, f) && Solo(c, f) && f.phase.Closed?
    ensures f.buffer == [] && forall t :: 0 <= t < |f.flights| ==> f.flights[t].Idle?
    ensures f.written == f.resolved + multiset(Plain(f.poisoned)) + f.drained
  {
    forall t | 0 <= t < |f.flights|
      ensures f.flights[t].Idle?
    {
      assert t == TICKER || t == RUNNER || t >= 2;
    }
    SoloBalance(c, f);
    assert multiset(f.buffer) + Load(f.flights[TICKER]) + Load(f.flights[RUNNER]) == multiset{};
  }

  lemma PlainSize(ps: seq<Poison>)
    ensures |Plain(ps)| == |ps|
  {
  }

  /** The consumer's counter, in every state of every run: consumed = buffered + in flight + resolved
      + poisoned + drained, but for the one event whose Write has not returned yet. */
  lemma ConsumedAddsUp(c: Config, s: State, rows: seq<Event>, run: seq<Action>)
    requires Init(s, rows) && c.writers == {RUNNER} && c.maxRetries >= 0
    ensures |Reach(c, s, run).flights| >= 2
    ensures var f := Reach(c, s, run);
            f.consumed + (if f.writing then 1 else 0) ==
            |f.buffer| + |Load(f.flights[TICKER])| + |Load(f.flights[RUNNER])|
            + |f.resolved| + |f.poisoned| + |f.drained|
  {
    Reached(c, s, rows, run);
    var f := Reach(c, s, run);
    SoloBalance(c, f);
    PlainSize(f.poisoned);
  }

  lemma {:induction false} EveryRunKeepsBound(c: Config, s: State, run: seq<Action>)
    requires Bounded(c, s)
    ensures Bounded(c, Reach(c, s, run))
    decreases |run|
  {
    if run != [] {
      StepKeepsBound(c, s, run[0]);
      EveryRunKeepsBound(c, Step(c, s, run[0]), run[1..]);
    }
  }

  /** Between two Writes of the consumer the buffer is below the batch size. */
  lemma SingleWriterBound(c: Config, s: State, rows: seq<Event>, run: seq<Action>)
    requires Init(s, rows) && c.writers == {RUNNER} && c.batchSize >= 1
    requires Free(Reach(c, s, run), RUNNER)
    ensures |Reach(c, s, run).buffer| < c.batchSize
  {
    EveryRunKeepsBound(c, s, run);
    EveryRunKeepsSolo(c, s, run);
    assert Reach(c, s, run).owes == {};
  }

  /** Commit-after-flush is not enough beside the ticker: the offsets of `e` are committed while
      `e` is only in the ticker's memory. */
  lemma TickerHoldsCommittedEvent(e: Event) returns (c: Config, s: State, run: seq<Action>)
    ensures Init(s, []) && c.writers == {RUNNER} && c.maxRetries >= 0 && c.batchSize >= 2
    ensures |run| > 0 && run[|run| - 1] == Commit
    ensures Enabled(c, Reach(c, s, run[..|run| - 1]), Commit)
    ensures var f := Reach(c, s, run);
            e in f.written && f.db.table == [] && f.poisoned == [] && f.drained == multiset{}
  {
    c := Config(Script((t: nat) => Done, (x: Event) => false), 2, 3, {RUNNER});
    s := Quiet();
    run := HoldingRun(e) + [Commit];
    assert run[..5] == HoldingRun(e);
    HoldingReached(c, e);
    ReachConcat(c, s, HoldingRun(e), [Commit]);
    OneStep(c, Holding(e), Commit);
  }

  lemma HoldingReached(c: Config, e: Event)
    requires c.writers == {RUNNER} && c.batchSize == 2
    ensures Reach(c, Quiet(), HoldingRun(e)) == Holding(e)
  {
    HoldingSteps(c, e);
    Unfold5(c, Quiet(), HoldingRun(e));
  }

  ghost function Quiet(): State {
    State(Db([], 0), [], [], [Idle, Idle], {}, Handling, false, false, 0, multiset{}, multiset{}, multiset{})
  }

  ghost function HoldingRun(e: Event): seq<Action> {
    [Append(RUNNER, e), Count, Start(TICKER), RoundFlush, Drain]
  }

  ghost function Holding(e: Event): State {
    Quiet().(flights := [Copying([e], 0), Idle], phase := Drained, consumed := 1, written := multiset{e})
  }

  /** After Append and Count, and after the ticker's drainBuffer. */
  ghost function Counted(e: Event): State {
    Quiet().(buffer := [e], written := multiset{e}, consumed := 1)
  }

  ghost function Ticking(e: Event): State {
    Counted(e).(buffer := [], flights := [Copying([e], 0), Idle])
  }

  lemma WriteSteps(c: Config, e: Event)
    requires c.writers == {RUNNER} && c.batchSize == 2
    ensures Step(c, Step(c, Quiet(), Append(RUNNER, e)), Count) == Counted(e)
  {
    var s := Quiet().(buffer := [e], written := multiset{e}, writing := true);
    assert Step(c, Quiet(), Append(RUNNER, e)) == s;
  }

  lemma RunSteps(c: Config, e: Event)
    ensures Step(c, Ticking(e), RoundFlush) == Ticking(e).(phase := Flushing)
    ensures Step(c, Ticking(e).(phase := Flushing), Drain) == Holding(e)
  {
    var s := Ticking(e);
    assert s.flights[RUNNER := Idle] == s.flights && s.owes - {RUNNER} == s.owes;
    assert Take(s, RUNNER) == s;
    assert Plain([]) == [];
  }

  lemma HoldingSteps(c: Config, e: Event)
    requires c.writers == {RUNNER} && c.batchSize == 2
    ensures var s2 := Step(c, Step(c, Quiet(), Append(RUNNER, e)), Count);
            Step(c, Step(c, Step(c, s2, Start(TICKER)), RoundFlush), Drain) == Holding(e)
  {
    WriteSteps(c, e);
    assert Step(c, Counted(e), Start(TICKER)) == Ticking(e);
    RunSteps(c, e);
  }

  lemma Unfold5(c: Config, s: State, run: seq<Action>)
    requires |run| == 5
    ensures Reach(c, s, run) == Step(c, Step(c, Step(c, Step(c, Step(c, s, run[0]), run[1]), run[2]), run[3]), run[4])
  {
    assert run[1..][1..] == run[2..] && run[2..][1..] == run[3..] && run[3..][1..] == run[4..] && run[4..][1..] == [];
    var s1 := Step(c, s, run[0]);
    var s2 := Step(c, s1, run[1]);
    var s3 := Step(c, s2, run[2]);
    var s4 := Step(c, s3, run[3]);
    assert Reach(c, s4, run[4..]) == Step(c, s4, run[4]);
    assert Reach(c, s3, run[3..]) == Reach(c, s4, run[4..]);
    assert Reach(c, s2, run[2..]) == Reach(c, s3, run[3..]);
    assert Reach(c, s1, run[1..]) == Reach(c, s2, run[2..]);
  }

  lemma {:induction false} ReachConcat(c: Config, s: State, a: seq<Action>, b: seq<Action>)
    ensures Reach(c, s, a + b) == Reach(c, Reach(c, s, a), b)
    decreases |a|
  {
    if a == [] {
      assert a + b == b;
    } else {
      assert (a + b)[1..] == a[1..] + b;
      ReachConcat(c, Step(c, s, a[0]), a[1..], b);
    }
  }

  // ---- The sequential flush is one of these runs ---------------------------------------------

  /** The sequential view of the shared state. */
  ghost function Alone(s: State): T.State {
    T.State(s.db, s.buffer, Plain(s.poisoned))
  }

  ghost function Sequential(c: Config): T.Config {
    T.Config(c.script, c.batchSize, c.maxRetries)
  }

  lemma OneStep(c: Config, s: State, a: Action)
    ensures Reach(c, s, [a]) == Step(c, s, a)
  {
  }

  /** Thread `t` has finished with the first of `rest`: it is stored, or else poisoned. */
  ghost predicate RowEnd(s: State, t: nat, rest: seq<Event>, f: State, d: Db, ok: bool) {
    && t < |s.flights| && rest != []
    && f.db == d && f.buffer == s.buffer && f.flights == s.flights[t := Rows(rest[1..])]
    && Plain(f.poisoned) == Plain(s.poisoned) + if ok then [] else [rest[0]]
  }

  lemma GiveUpEnds(c: Config, s: State, t: nat)
    requires AtRow(s, t) && s.flights[t].attempt > c.maxRetries && s.flights[t].attempt > 0
    ensures RowEnd(s, t, s.flights[t].rest, Step(c, s, GiveUp(t)), s.db, false)
  {
    PlainAppend(s.poisoned, Poison(s.flights[t].rest[0], t));
  }

  lemma InsertEnds(c: Config, s: State, t: nat)
    requires AtRow(s, t) && s.flights[t].attempt <= c.maxRetries && InsertRow(c.script, s.db, s.flights[t].rest[0]).1
    ensures RowEnd(s, t, s.flights[t].rest, Step(c, s, TryInsert(t)),
                   InsertRow(c.script, s.db, s.flights[t].rest[0]).0, true)
  {
  }

  /** One failed attempt for the row that a thread has come to. */
  lemma RetryStep(c: Config, s: State, t: nat)
    requires AtRow(s, t) && s.flights[t].attempt <= c.maxRetries && !InsertRow(c.script, s.db, s.flights[t].rest[0]).1
    ensures var s1 := Step(c, s, TryInsert(t));
            && s1.db == InsertRow(c.script, s.db, s.flights[t].rest[0]).0
            && s1.flights == s.flights[t := Inserting(s.flights[t].rest, s.flights[t].attempt + 1)]
            && s1.buffer == s.buffer && s1.poisoned == s.poisoned
  {
  }

  lemma RetryEnds(s: State, s1: State, t: nat, g: Flight, rest: seq<Event>, f: State, d: Db, ok: bool)
    requires t < |s.flights| && s1.flights == s.flights[t := g]
    requires s1.buffer == s.buffer && s1.poisoned == s.poisoned && RowEnd(s1, t, rest, f, d, ok)
    ensures RowEnd(s, t, rest, f, d, ok)
  {
  }

  /** The steps of a flush that is under way. */
  ghost predicate Attempting(run: seq<Action>) {
    forall i :: 0 <= i < |run| ==> run[i].TryCopy? || run[i].FallBack? || run[i].TryInsert? || run[i].GiveUp?
  }

  lemma {:induction false} RowRun(c: Config, s: State, t: nat, left: nat) returns (run: seq<Action>)
    requires AtRow(s, t) && c.maxRetries >= 0
    requires s.flights[t].attempt + left == c.maxRetries + 1
    ensures var (d, ok) := T.RowTier(Sequential(c), s.db, s.flights[t].rest[0], left);
            RowEnd(s, t, s.flights[t].rest, Reach(c, s, run), d, ok)
    ensures Attempting(run)
    decreases left
  {
    var rest, s1 := s.flights[t].rest, Step(c, s, TryInsert(t));
    if left == 0 {
      run := [GiveUp(t)];
      GiveUpEnds(c, s, t);
      OneStep(c, s, GiveUp(t));
    } else if InsertRow(c.script, s.db, rest[0]).1 {
      run := [TryInsert(t)];
      InsertEnds(c, s, t);
      OneStep(c, s, TryInsert(t));
    } else {
      RetryStep(c, s, t);
      var tail := RowRun(c, s1, t, left - 1);
      run := [TryInsert(t)] + tail;
      OneStep(c, s, TryInsert(t));
      ReachConcat(c, s, [TryInsert(t)], tail);
      var (d, ok) := T.RowTier(Sequential(c), s1.db, rest[0], left - 1);
      RetryEnds(s, s1, t, s1.flights[t], rest, Reach(c, s1, tail), d, ok);
    }
  }

  lemma {:induction false} RowsRun(c: Config, s: State, t: nat, batch: seq<Event>) returns (run: seq<Action>)
    requires t < |s.flights| && s.flights[t] == Rows(batch) && c.maxRetries >= 0
    ensures var f := Reach(c, s, run);
            Alone(f) == T.RowByRow(Sequential(c), Alone(s), batch) && f.flights == s.flights[t := Idle]
    ensures Attempting(run)
    decreases |batch|
  {
    if batch == [] {
      run := [];
      assert s.flights[t := Idle] == s.flights;
    } else {
      var head := RowRun(c, s, t, c.maxRetries + 1);
      var s1 := Reach(c, s, head);
      assert Alone(s1) == T.OneRow(Sequential(c), Alone(s), batch[0]);
      var tail := RowsRun(c, s1, t, batch[1..]);
      run := head + tail;
      ReachConcat(c, s, head, tail);
    }
  }

  lemma {:induction false} CopyRun(c: Config, s: State, t: nat, left: nat) returns (run: seq<Action>)
    requires t < |s.flights| && s.flights[t].Copying? && c.maxRetries >= 0
    requires s.flights[t].attempt + left == c.maxRetries + 1
    ensures var batch := s.flights[t].batch;
            var (d, ok) := T.CopyTier(Sequential(c), s.db, batch, left);
            var f := Reach(c, s, run);
            && Alone(f) == Alone(s).(db := d) && f.flights == s.flights[t := if ok then Idle else Rows(batch)]
    ensures Attempting(run)
    decreases left
  {
    var Copying(batch, attempt) := s.flights[t];
    if left == 0 {
      run := [FallBack(t)];
      assert Reach(c, s, run) == Step(c, s, FallBack(t));
    } else {
      var s1 := Step(c, s, TryCopy(t));
      if CopyIn(c.script, s.db, batch).1 {
        run := [TryCopy(t)];
        assert Reach(c, s, run) == s1;
      } else {
        var tail := CopyRun(c, s1, t, left - 1);
        run := [TryCopy(t)] + tail;
        ReachConcat(c, s, [TryCopy(t)], tail);
      }
    }
  }

  /** A flush that thread `t` has begun: the copy attempts, then the rows. */
  lemma FlightRun(c: Config, s: State, t: nat) returns (run: seq<Action>)
    requires t < |s.flights| && c.maxRetries >= 0 && s.flights[t].Copying? && s.flights[t].attempt == 0
    ensures var batch := s.flights[t].batch;
            var (d, ok) := T.CopyTier(Sequential(c), s.db, batch, c.maxRetries + 1);
            var copied := Alone(s).(db := d);
            Alone(Reach(c, s, run)) == if ok then copied else T.RowByRow(Sequential(c), copied, batch)
    ensures Reach(c, s, run).flights == s.flights[t := Idle] && Attempting(run)
  {
    var batch := s.flights[t].batch;
    run := CopyRun(c, s, t, c.maxRetries + 1);
    if !T.CopyTier(Sequential(c), s.db, batch, c.maxRetries + 1).1 {
      var s1 := Reach(c, s, run);
      var rows := RowsRun(c, s1, t, batch);
      ReachConcat(c, s, run, rows);
      run := run + rows;
      assert s1.flights[t := Idle] == s.flights[t := Idle];
    }
  }

  lemma FlushStarts(c: Config, s: State)
    requires |s.flights| >= 2 && Enabled(c, s, RoundFlush)
    ensures var s1 := Step(c, s, RoundFlush);
            && Alone(s1) == Alone(s).(buffer := [])
            && s1.flights == s.flights[RUNNER := if s.buffer == [] then Idle else Copying(s.buffer, 0)]
  {
  }

  /** The flush that TimescaleSink.Sink.Flush performs is the run in which no other thread moves. */
  lemma FlushIsARun(c: Config, s: State) returns (run: seq<Action>)
    requires |s.flights| >= 2 && Enabled(c, s, RoundFlush) && c.maxRetries >= 0
    ensures Alone(Reach(c, s, run)) == T.Flushed(Sequential(c), Alone(s))
    ensures Reach(c, s, run).flights == s.flights
  {
    var s1 := Step(c, s, RoundFlush);
    FlushStarts(c, s);
    OneStep(c, s, RoundFlush);
    assert s.flights[RUNNER := Idle] == s.flights;
    run := [RoundFlush];
    if s.buffer != [] {
      var rest := FlightRun(c, s1, RUNNER);
      ReachConcat(c, s, run, rest);
      run := run + rest;
      assert s1.flights[RUNNER := Idle] == s.flights;
    }
  }

  lemma AppendStep(c: Config, s: State, t: nat, e: Event)
    requires Enabled(c, s, Append(t, e))
    ensures var s1 := Step(c, s, Append(t, e));
            && Alone(s1) == Alone(s).(buffer := s.buffer + [e]) && s1.flights == s.flights
            && s1.owes == if |s.buffer| + 1 >= c.batchSize then s.owes + {t} else s.owes
  {
  }

  lemma StartStep(c: Config, s: State, t: nat)
    requires t < |s.flights| && s.flights[t].Idle? && t in s.owes && s.buffer != []
    ensures var s1 := Step(c, s, Start(t));
            && Alone(s1) == Alone(s).(buffer := []) && s1.owes == s.owes - {t}
            && s1.flights == s.flights[t := Copying(s.buffer, 0)]
  {
  }

  lemma {:induction false} OwesStay(c: Config, s: State, run: seq<Action>)
    requires Attempting(run)
    ensures Reach(c, s, run).owes == s.owes
    decreases |run|
  {
    if run != [] {
      OwesStay(c, Step(c, s, run[0]), run[1..]);
    }
  }

  /** A Write of the sequential sink is the run in which no other thread moves: it appends, and it flushes
      if and only if the buffer has reached the batch size; no flush is owed afterwards. */
  lemma WriteIsARun(c: Config, s: State, t: nat, e: Event) returns (run: seq<Action>)
    requires Enabled(c, s, Append(t, e)) && c.maxRetries >= 0
    ensures Alone(Reach(c, s, run)) == T.Written(Sequential(c), Alone(s), e)
    ensures Reach(c, s, run).flights == s.flights && Reach(c, s, run).owes == s.owes
  {
    var s1 := Step(c, s, Append(t, e));
    AppendStep(c, s, t, e);
    OneStep(c, s, Append(t, e));
    run := [Append(t, e)];
    if |s.buffer| + 1 >= c.batchSize {
      var s2 := Step(c, s1, Start(t));
      StartStep(c, s1, t);
      OneStep(c, s1, Start(t));
      ReachConcat(c, s, run, [Start(t)]);
      run := run + [Start(t)];
      var rest := FlightRun(c, s2, t);
      ReachConcat(c, s, run, rest);
      OwesStay(c, s2, rest);
      run := run + rest;
      assert s2.flights[t := Idle] == s.flights;
    }
  }
}
