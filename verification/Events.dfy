/** The values that travel through the pipeline (internal/sink/sink.go). */
module Events {

  datatype Option<+T> = None | Some(value: T)

  /** A decoded telemetry event. Go strings and byte slices are both `string` here. */
  datatype Event = Event(device: string, key: string, nanos: int, metric: string, value: real)

  /** The columns of the table's unique index: (idempotency_key, event_time). */
  datatype RowId = RowId(key: string, time: int)

  /** The stored timestamp; TIMESTAMPTZ keeps microseconds. No proof looks inside. */
  function EventTime(nanos: int): int {
    nanos / 1000
  }

  function Id(e: Event): RowId {
    RowId(e.key, EventTime(e.nanos))
  }

  function Ids(rows: seq<Event>): set<RowId> {
    set e | e in rows :: Id(e)
  }

  /** What the unique index demands of a table. */
  predicate Unique(rows: seq<Event>) {
    forall i, j :: 0 <= i < j < |rows| ==> Id(rows[i]) != Id(rows[j])
  }

  /** How an external system answers one request. */
  datatype Outcome =
    | Done        // carried out and acknowledged
    | Refused     // not carried out, an error is reported
    | Unreported  // carried out, but an error is reported

  /** The number of iterations of `for attempt := 0; attempt <= maxRetries; attempt++`. */
  function Attempts(maxRetries: int): nat {
    if maxRetries < 0 then 0 else maxRetries + 1
  }

  /** Some request among the next `n`, starting at tick `t`, is acknowledged. */
  ghost predicate DoneWithin(script: nat -> Outcome, t: nat, n: nat)
    decreases n
  {
    n > 0 && (script(t).Done? || DoneWithin(script, t + 1, n - 1))
  }

  /** How many of the `n` requests from tick `t` on are carried out, acknowledged or not. */
  ghost function Applied(script: nat -> Outcome, t: nat, n: nat): nat
    decreases n
  {
    if n == 0 then 0 else (if script(t).Refused? then 0 else 1) + Applied(script, t + 1, n - 1)
  }

  lemma {:induction false} DoneWithinMeans(script: nat -> Outcome, t: nat, n: nat)
    ensures DoneWithin(script, t, n) <==> exists k :: t <= k < t + n && script(k).Done?
    decreases n
  {
    if n > 0 {
      DoneWithinMeans(script, t + 1, n - 1);
    }
  }

  /** A loop of at most `left` attempts from tick `t` on makes `tries` of them: it goes on while an attempt
      is not acknowledged, and stops at the first that is. */
  ghost predicate RetriesUntilDone(script: nat -> Outcome, t: nat, left: nat, tries: nat, ok: bool) {
    && tries <= left && (forall k :: t <= k < t + tries - 1 ==> !script(k).Done?)
    && (if ok then tries > 0 && script(t + tries - 1).Done? else tries == left)
    && (!ok && tries > 0 ==> !script(t + tries - 1).Done?)
  }
}
