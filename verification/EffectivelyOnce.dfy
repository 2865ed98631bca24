/** What a consumer has done after any number of rounds: what its counters say in every life, and, as
    long as it does not crash, which events it persisted and that the cuts between polled batches do
    not matter. */
module EffectivelyOnce {
  import opened Events
  import opened Consumer
  import DB = Database
  import T = TimescaleSink
  import D = Dedup
  import L = Delivery
  import C = Claims

  // ---- Rounds ----------------------------------------------------------------------------------

  ghost function Rounds(cfg: Config, w: World, batches: seq<seq<Record>>): World
    decreases |batches|
  {
    if batches == [] then w else Rounds(cfg, Round(cfg, w, batches[0]).0, batches[1..])
  }

  /** The records of all batches in the order in which they were fetched. */
  ghost function Stream(batches: seq<seq<Record>>): seq<Record> {
    if batches == [] then [] else batches[0] + Stream(batches[1..])
  }

  /** What a run of turns hands to handleBatch, rewound partitions included. */
  ghost function Polls(cfg: Config, s: System, turns: seq<Turn>): seq<seq<Record>>
    decreases |turns|
  {
    if turns == [] then [] else
      [Fetched(Rewound(s.broker, turns[0].rewinds), turns[0].chunks).1]
      + Polls(cfg, TurnDone(cfg, s, turns[0]), turns[1..])
  }

  lemma {:induction false} TurnsAreRounds(cfg: Config, s: System, turns: seq<Turn>)
    ensures TurnsDone(cfg, s, turns).w == Rounds(cfg, s.w, Polls(cfg, s, turns))
    decreases |turns|
  {
    if turns != [] {
      var ps := Polls(cfg, s, turns);
      TurnsAreRounds(cfg, TurnDone(cfg, s, turns[0]), turns[1..]);
      assert ps[1..] == Polls(cfg, TurnDone(cfg, s, turns[0]), turns[1..]);
    }
  }

  // ---- Accounting ------------------------------------------------------------------------------

  ghost function Undecodable(cfg: Config, rs: seq<Record>): seq<Record> {
    if rs == [] then [] else
      var init, r := rs[..|rs| - 1], rs[|rs| - 1];
      Undecodable(cfg, init) + if cfg.decode(r.value).None? then [r] else []
  }

  /** The events among `ds` that are not dropped as duplicates. */
  ghost function Unseen(ds: seq<Decoded>, seen: seq<bool>): (es: seq<Event>)
    requires |ds| == |seen|
    ensures |es| <= |ds|
  {
    if ds == [] then [] else
      var n := |ds| - 1;
      Unseen(ds[..n], seen[..n]) + if seen[n] then [] else [ds[n].event]
  }

  lemma {:induction false} SplitConcat(cfg: Config, a: seq<Record>, b: seq<Record>)
    ensures Decodable(cfg, a + b) == Decodable(cfg, a) + Decodable(cfg, b)
    ensures Undecodable(cfg, a + b) == Undecodable(cfg, a) + Undecodable(cfg, b)
    decreases |b|
  {
    if b == [] {
      assert a + b == a;
    } else {
      var init := b[..|b| - 1];
      assert (a + b)[..|a + b| - 1] == a + init;
      SplitConcat(cfg, a, init);
    }
  }

  lemma {:induction false} SplitAll(cfg: Config, rs: seq<Record>)
    ensures |rs| == |Decodable(cfg, rs)| + |Undecodable(cfg, rs)|
    decreases |rs|
  {
    if rs != [] {
      SplitAll(cfg, rs[..|rs| - 1]);
    }
  }

  lemma {:induction false} UnseenHead(ds: seq<Decoded>, seen: seq<bool>)
    requires |ds| == |seen| > 0
    ensures Unseen(ds, seen) == (if seen[0] then [] else [ds[0].event]) + Unseen(ds[1..], seen[1..])
    decreases |ds|
  {
    var n := |ds| - 1;
    if n > 0 {
      UnseenHead(ds[..n], seen[..n]);
      assert ds[..n][1..] == ds[1..][..n - 1] && seen[..n][1..] == seen[1..][..n - 1];
    }
  }

  /** What the consumer put somewhere, whatever the sink. */
  ghost function Disposed(w: World): nat {
    w.consumed + w.deduped + w.dlqSent + |w.dropped|
  }

  lemma DecodeOneCounts(cfg: Config, w: World, r: Record)
    ensures var w' := DecodeOne(cfg, w, r);
            && w'.handled == w.handled + [r] && w'.persisted == w.persisted
            && w'.deduped == w.deduped && w'.consumed == w.consumed
            && Disposed(w') == Disposed(w) + if cfg.decode(r.value).None? then 1 else 0
  {
  }

  lemma {:induction false} DecodeAllCounts(cfg: Config, w: World, rs: seq<Record>)
    ensures var w' := DecodeAll(cfg, w, rs);
            && w'.handled == w.handled + rs && w'.persisted == w.persisted
            && w'.deduped == w.deduped && w'.consumed == w.consumed
            && Disposed(w') == Disposed(w) + |rs| - |Decodable(cfg, rs)|
    decreases |rs|
  {
    if rs != [] {
      DecodeOneCounts(cfg, w, rs[0]);
      DecodeAllCounts(cfg, DecodeOne(cfg, w, rs[0]), rs[1..]);
      DecodableHead(cfg, rs);
      assert w.handled + [rs[0]] + rs[1..] == w.handled + rs;
    }
  }

  lemma DecodableHead(cfg: Config, rs: seq<Record>)
    requires rs != []
    ensures |Decodable(cfg, rs)| == |Decodable(cfg, rs[1..])| + if cfg.decode(rs[0].value).None? then 0 else 1
  {
    assert [rs[0]] + rs[1..] == rs && [rs[0]][..0] == [];
    SplitConcat(cfg, [rs[0]], rs[1..]);
  }

  /** `n` decoded records were disposed of, and of these `passed` were handed to persist. */
  ghost predicate PersistCounts(cfg: Config, w: World, w': World, n: nat, passed: seq<Event>) {
    && w'.handled == w.handled && w'.persisted == w.persisted + passed
    && w'.deduped == w.deduped + n - |passed|
    && Disposed(w') == Disposed(w) + n
    && (cfg.sink.Timescale? ==> w'.consumed == w.consumed + |passed|)
  }

  lemma PersistOneCounts(cfg: Config, w: World, d: Decoded, seen: bool)
    ensures PersistCounts(cfg, w, PersistOne(cfg, w, d, seen), 1, if seen then [] else [d.event])
  {
  }

  lemma PersistCountsAdd(cfg: Config, a: World, b: World, c: World, n: nat, p: seq<Event>, m: nat, q: seq<Event>)
    requires PersistCounts(cfg, a, b, n, p) && PersistCounts(cfg, b, c, m, q)
    ensures PersistCounts(cfg, a, c, n + m, p + q)
  {
  }

  lemma {:induction false} PersistAllCounts(cfg: Config, w: World, ds: seq<Decoded>, seen: seq<bool>)
    requires |ds| == |seen|
    ensures PersistCounts(cfg, w, PersistAll(cfg, w, ds, seen), |ds|, Unseen(ds, seen))
    decreases |ds|
  {
    if ds != [] {
      var w1, first := PersistOne(cfg, w, ds[0], seen[0]), if seen[0] then [] else [ds[0].event];
      UnseenHead(ds, seen);
      PersistOneCounts(cfg, w, ds[0], seen[0]);
      PersistAllCounts(cfg, w1, ds[1..], seen[1..]);
      PersistCountsAdd(cfg, w, w1, PersistAll(cfg, w1, ds[1..], seen[1..]), 1, first, |ds| - 1,
                       Unseen(ds[1..], seen[1..]));
    }
  }

  lemma {:induction false} SentAllCounts(cfg: Config, w: World, es: seq<Event>)
    ensures var w' := SentAll(cfg, w, es);
            && w'.handled == w.handled && w'.persisted == w.persisted
            && w'.deduped == w.deduped && w'.consumed == w.consumed
    decreases |es|
  {
    if es != [] {
      SentAllCounts(cfg, Sent(cfg, w, PoisonLetter(cfg, es[0])), es[1..]);
    }
  }

  /** The events handed to persist in one round. */
  ghost function Passed(cfg: Config, w: World, rs: seq<Record>): seq<Event> {
    Unseen(Decodable(cfg, rs), Asked(cfg, w, Decodable(cfg, rs)).1)
  }

  /** The counters after one batch or one round, as far as they are the same for every sink. */
  ghost predicate Counted(cfg: Config, w: World, w': World, rs: seq<Record>) {
    var passed := Passed(cfg, w, rs);
    && w'.handled == w.handled + rs && w'.persisted == w.persisted + passed
    && w'.deduped == w.deduped + |Decodable(cfg, rs)| - |passed|
    && (cfg.sink.Timescale? ==> w'.consumed == w.consumed + |passed|)
    && (cfg.sink.Direct? ==> Disposed(w') == Disposed(w) + |rs|)
  }

  lemma HandledCounts(cfg: Config, w: World, rs: seq<Record>)
    ensures Counted(cfg, w, Handled(cfg, w, rs), rs)
  {
    var ds := Decodable(cfg, rs);
    DecodeAllCounts(cfg, w, rs);
    L.DecodeAllKeeps(cfg, w, rs);
    var w1 := DecodeAll(cfg, w, rs);
    if ds != [] {
      var (w2, seen) := Asked(cfg, w1, ds);
      assert seen == Asked(cfg, w, ds).1 && w2 == w1.(redis := w2.redis);
      PersistAllCounts(cfg, w2, ds, seen);
    }
  }

  lemma RoundCounts(cfg: Config, w: World, rs: seq<Record>)
    ensures Counted(cfg, w, Round(cfg, w, rs).0, rs)
  {
    HandledCounts(cfg, w, rs);
    var h := Handled(cfg, w, rs);
    var f := FlushSink(cfg, h).0;
    SentAllCounts(cfg, f.(sink := f.sink.(poisoned := [])), f.sink.poisoned);
  }

  /** What the counters of one life say: each handled record was undecodable, dropped as a duplicate or
      handed to persist; and the published counters add up, where `logged` is the number of drops that
      earlier lives logged. SinkThreads.ConsumedAddsUp takes the poison-reporting sink further. */
  ghost predicate Accounted(cfg: Config, w: World, logged: nat) {
    && |w.handled| == |Undecodable(cfg, w.handled)| + w.deduped + |w.persisted|
    && (cfg.sink.Direct? ==> w.consumed + w.deduped + w.dlqSent + |w.dropped| == |w.handled| + logged)
    && (cfg.sink.Timescale? ==> w.consumed == |w.persisted|)
  }

  lemma RoundAccounted(cfg: Config, w: World, rs: seq<Record>, logged: nat)
    requires Accounted(cfg, w, logged)
    ensures Accounted(cfg, Round(cfg, w, rs).0, logged)
  {
    RoundCounts(cfg, w, rs);
    SplitConcat(cfg, w.handled, rs);
    SplitAll(cfg, rs);
  }

  lemma {:induction false} RoundsAccounted(cfg: Config, w: World, batches: seq<seq<Record>>, logged: nat)
    requires Accounted(cfg, w, logged)
    ensures Accounted(cfg, Rounds(cfg, w, batches), logged)
    decreases |batches|
  {
    if batches != [] {
      RoundAccounted(cfg, w, batches[0], logged);
      RoundsAccounted(cfg, Round(cfg, w, batches[0]).0, batches[1..], logged);
    }
  }

  lemma {:induction false} RunAccounted(cfg: Config, n: L.Node, lives: seq<L.Life>)
    requires Accounted(cfg, n.sys.w, n.logged)
    ensures var f := L.Reach(cfg, n, lives);
            Accounted(cfg, f.sys.w, f.logged)
    decreases |lives|
  {
    if lives != [] {
      if lives[0].Live? {
        RoundAccounted(cfg, n.sys.w, L.Polled(n.sys, lives[0].turn), n.logged);
      }
      RunAccounted(cfg, L.Step(cfg, n, lives[0]), lives[1..]);
    }
  }

  /** In every state of every run, crashes included: the counters account for all that the present
      life of the process has handled. */
  lemma EveryLifeIsAccounted(cfg: Config, s: System, lives: seq<L.Life>)
    requires Started(s.w)
    ensures var f := L.Reach(cfg, L.Begin(s), lives);
            Accounted(cfg, f.sys.w, f.logged)
  {
    RunAccounted(cfg, L.Begin(s), lives);
  }

  ghost predicate Started(w: World) {
    w.consumed == w.deduped == w.dlqSent == 0 && w.handled == [] && w.persisted == []
  }

  // ---- First occurrences ------------------------------------------------------------------------

  /** The events whose key is neither known from the start nor carried by an earlier event. */
  ghost function NewByKey(known: set<string>, ds: seq<Decoded>): seq<Event> {
    if ds == [] then [] else
      var init, d := ds[..|ds| - 1], ds[|ds| - 1];
      if d.event.key in known || C.HasKey(init, d.event.key) then NewByKey(known, init)
      else NewByKey(known, init) + [d.event]
  }

  ghost function FirstByKey(ds: seq<Decoded>): seq<Event> {
    NewByKey({}, ds)
  }

  ghost predicate DistinctKeys(es: seq<Event>) {
    forall i, j :: 0 <= i < j < |es| ==> es[i].key != es[j].key
  }

  /** No event before the i-th has its key. */
  ghost predicate IsFirst(known: set<string>, ds: seq<Decoded>, i: nat)
    requires i < |ds|
  {
    ds[i].event.key !in known && !C.HasKey(ds[..i], ds[i].event.key)
  }

  /** `at` are, in increasing order, the places in the stream that `es` was taken from. */
  ghost predicate Picked(ds: seq<Decoded>, at: seq<nat>, es: seq<Event>) {
    && |at| == |es| && (forall i, j :: 0 <= i < j < |at| ==> at[i] < at[j])
    && (forall j :: 0 <= j < |at| ==> at[j] < |ds| && es[j] == ds[at[j]].event)
  }

  lemma PickMore(ds: seq<Decoded>, at: seq<nat>, es: seq<Event>)
    requires ds != [] && Picked(ds[..|ds| - 1], at, es)
    ensures Picked(ds, at, es) && Picked(ds, at + [|ds| - 1], es + [ds[|ds| - 1].event])
    ensures |ds| - 1 !in at
  {
  }

  /** NewByKey picks, in stream order, exactly the first event of every key that is not known. */
  lemma {:induction false} NewByKeyMeans(known: set<string>, ds: seq<Decoded>) returns (at: seq<nat>)
    ensures Picked(ds, at, NewByKey(known, ds))
    ensures forall i: nat :: i < |ds| ==> (i in at <==> IsFirst(known, ds, i))
    decreases |ds|
  {
    if ds == [] {
      at := [];
    } else {
      var n := |ds| - 1;
      var before := NewByKeyMeans(known, ds[..n]);
      var first := IsFirst(known, ds, n);
      PickMore(ds, before, NewByKey(known, ds[..n]));
      assert NewByKey(known, ds) == NewByKey(known, ds[..n]) + if first then [ds[n].event] else [];
      at := if first then before + [n] else before;
      forall i: nat | i < |ds|
        ensures i in at <==> IsFirst(known, ds, i)
      {
        if i < n {
          assert ds[..n][..i] == ds[..i];
        }
      }
    }
  }

  ghost predicate KeyAmong(es: seq<Event>, k: string) {
    exists e :: e in es && e.key == k
  }

  lemma {:induction false} FirstByKeyKeeps(ds: seq<Decoded>, k: string)
    ensures KeyAmong(FirstByKey(ds), k) <==> C.HasKey(ds, k)
    decreases |ds|
  {
    if ds != [] {
      var init, d := ds[..|ds| - 1], ds[|ds| - 1];
      FirstByKeyKeeps(init, k);
      assert forall x :: x in ds <==> x in init || x == d;
      var es, kept := FirstByKey(ds), FirstByKey(init);
      if es == kept + [d.event] {
        assert forall e :: e in es <==> e in kept || e == d.event;
      }
    }
  }

  /** Every key of the stream is kept, with an event of the stream, and exactly once. */
  lemma FirstByKeyMeans(ds: seq<Decoded>)
    ensures var es := FirstByKey(ds);
            && DistinctKeys(es)
            && (forall e :: e in es ==> exists d :: d in ds && d.event == e)
            && (forall k :: C.HasKey(ds, k) <==> KeyAmong(es, k))
  {
    var es := FirstByKey(ds);
    var at := NewByKeyMeans({}, ds);
    forall k
      ensures C.HasKey(ds, k) <==> KeyAmong(es, k)
    {
      FirstByKeyKeeps(ds, k);
    }
    forall e | e in es
      ensures exists d :: d in ds && d.event == e
    {
      var j :| 0 <= j < |es| && es[j] == e;
      assert ds[at[j]] in ds;
    }
    forall i, j | 0 <= i < j < |es|
      ensures es[i].key != es[j].key
    {
      assert at[j] in at && IsFirst({}, ds, at[j]);
      assert ds[at[i]] in ds[..at[j]];
    }
  }

  lemma HasKeyConcat(a: seq<Decoded>, b: seq<Decoded>, k: string)
    ensures C.HasKey(a + b, k) <==> C.HasKey(a, k) || C.HasKey(b, k)
  {
  }

  /** `seen` answers for `ds` after `a`: known, earlier in the stream, or earlier in the batch. */
  ghost predicate Filters(known: set<string>, a: seq<Decoded>, ds: seq<Decoded>, seen: seq<bool>) {
    |ds| == |seen| &&
    forall i :: 0 <= i < |ds| ==>
      (seen[i] <==> ds[i].event.key in known || C.HasKey(a, ds[i].event.key) || C.HasKey(ds[..i], ds[i].event.key))
  }

  /** Filtering a further batch continues NewByKey. */
  lemma {:induction false} NewByKeyConcat(known: set<string>, a: seq<Decoded>, ds: seq<Decoded>, seen: seq<bool>)
    requires Filters(known, a, ds, seen)
    ensures NewByKey(known, a + ds) == NewByKey(known, a) + Unseen(ds, seen)
    decreases |ds|
  {
    if ds == [] {
      assert a + ds == a;
    } else {
      var n := |ds| - 1;
      var init, k := ds[..n], ds[n].event.key;
      assert (a + ds)[..|a + ds| - 1] == a + init;
      assert Filters(known, a, init, seen[..n]) by {
        assert forall i :: 0 <= i < n ==> init[..i] == ds[..i];
      }
      NewByKeyConcat(known, a, init, seen[..n]);
      HasKeyConcat(a, init, k);
      assert seen[n] <==> k in known || C.HasKey(a + init, k);
    }
  }

  /** The store holds the keys it had at the start and those of the handled stream. */
  ghost predicate StoreMatches(cfg: Config, known: set<string>, w: World) {
    forall k :: k in w.redis.keys <==> k in known || C.HasKey(Decodable(cfg, w.handled), k)
  }

  lemma HasKeyOf(ds: seq<Decoded>, k: string)
    ensures C.HasKey(ds, k) <==> k in KeysOf(ds)
  {
    if C.HasKey(ds, k) {
      var d :| d in ds && d.event.key == k;
      var i :| 0 <= i < |ds| && ds[i] == d;
      assert KeysOf(ds)[i] == k;
    }
    if k in KeysOf(ds) {
      var i :| 0 <= i < |ds| && KeysOf(ds)[i] == k;
      assert ds[i] in ds;
    }
  }

  /** One round with a faithful store: the answers are the first-occurrence filter. */
  lemma RoundFiltersFirst(cfg: Config, known: set<string>, w: World, rs: seq<Record>)
    requires L.Ok(cfg, w) && L.Retrying(cfg) && C.Faithful(cfg, w) && StoreMatches(cfg, known, w)
    ensures var a, ds := Decodable(cfg, w.handled), Decodable(cfg, rs);
            NewByKey(known, a + ds) == NewByKey(known, a) + Passed(cfg, w, rs)
    ensures StoreMatches(cfg, known, Round(cfg, w, rs).0)
  {
    var a, ds := Decodable(cfg, w.handled), Decodable(cfg, rs);
    var keys := KeysOf(ds);
    C.FaithfulAnswers(cfg, w, rs);
    D.SeenBatchMeans(cfg.dedup.value, w.redis, keys);
    var seen := Asked(cfg, w, ds).1;
    forall i | 0 <= i < |ds|
      ensures var k := ds[i].event.key;
              seen[i] <==> k in known || C.HasKey(a, k) || C.HasKey(ds[..i], k)
    {
      HasKeyOf(ds[..i], ds[i].event.key);
      assert KeysOf(ds[..i]) == keys[..i];
      assert keys[i] == ds[i].event.key;
    }
    NewByKeyConcat(known, a, ds, seen);
    C.RoundClaims(cfg, w, rs);
    RoundCounts(cfg, w, rs);
    SplitConcat(cfg, w.handled, rs);
    forall k
      ensures k in Round(cfg, w, rs).0.redis.keys <==> k in known || C.HasKey(a + ds, k)
    {
      HasKeyOf(ds, k);
      HasKeyConcat(a, ds, k);
    }
  }

  /** What is persisted, as a function of the keys stored at the start and the handled stream. */
  ghost function Ideal(cfg: Config, known: set<string>, rs: seq<Record>): seq<Event> {
    var ds := Decodable(cfg, rs);
    if cfg.dedup.Some? then NewByKey(known, ds) else Unseen(ds, NoneSeen(|ds|))
  }

  ghost predicate OnceInv(cfg: Config, known: set<string>, w: World) {
    && L.Ok(cfg, w) && w.persisted == Ideal(cfg, known, w.handled)
    && (cfg.dedup.Some? ==> C.Faithful(cfg, w) && StoreMatches(cfg, known, w))
    && (cfg.dedup.None? ==> w.redis.keys.Keys == known)
  }

  lemma {:induction false} UnseenConcat(a: seq<Decoded>, b: seq<Decoded>)
    ensures Unseen(a + b, NoneSeen(|a + b|)) == Unseen(a, NoneSeen(|a|)) + Unseen(b, NoneSeen(|b|))
    decreases |b|
  {
    if b == [] {
      assert a + b == a;
    } else {
      var init := b[..|b| - 1];
      assert (a + b)[..|a + b| - 1] == a + init;
      assert NoneSeen(|a + b|)[..|a + b| - 1] == NoneSeen(|a + init|);
      assert NoneSeen(|b|)[..|b| - 1] == NoneSeen(|init|);
      UnseenConcat(a, init);
    }
  }

  lemma RoundKeepsOnce(cfg: Config, known: set<string>, w: World, rs: seq<Record>)
    requires OnceInv(cfg, known, w) && L.Retrying(cfg)
    ensures OnceInv(cfg, known, Round(cfg, w, rs).0)
  {
    L.RoundKeeps(cfg, w, rs);
    RoundCounts(cfg, w, rs);
    SplitConcat(cfg, w.handled, rs);
    if cfg.dedup.Some? {
      RoundFiltersFirst(cfg, known, w, rs);
      C.FaithfulAnswers(cfg, w, rs);
      C.RoundClaims(cfg, w, rs);
    } else {
      UnseenConcat(Decodable(cfg, w.handled), Decodable(cfg, rs));
      NoDedupNoClaims(cfg, w, rs);
    }
  }

  lemma NoDedupNoClaims(cfg: Config, w: World, rs: seq<Record>)
    requires L.Ok(cfg, w) && L.Retrying(cfg) && cfg.dedup.None?
    ensures Round(cfg, w, rs).0.redis == w.redis
  {
    var ds := Decodable(cfg, rs);
    L.DecodeAllKeeps(cfg, w, rs);
    L.RoundKeeps(cfg, w, rs);
    L.PersistAllKeeps(cfg, DecodeAll(cfg, w, rs), ds, NoneSeen(|ds|));
  }

  lemma {:induction false} RoundsKeepOnce(cfg: Config, known: set<string>, w: World, batches: seq<seq<Record>>)
    requires OnceInv(cfg, known, w) && L.Retrying(cfg)
    ensures OnceInv(cfg, known, Rounds(cfg, w, batches))
    decreases |batches|
  {
    if batches != [] {
      RoundKeepsOnce(cfg, known, w, batches[0]);
      RoundsKeepOnce(cfg, known, Round(cfg, w, batches[0]).0, batches[1..]);
    }
  }

  lemma RoundHandles(cfg: Config, w: World, rs: seq<Record>)
    ensures Round(cfg, w, rs).0.handled == w.handled + rs
  {
    RoundCounts(cfg, w, rs);
  }

  lemma {:induction false} RoundsHandle(cfg: Config, w: World, batches: seq<seq<Record>>)
    ensures Rounds(cfg, w, batches).handled == w.handled + Stream(batches)
    decreases |batches|
  {
    if batches != [] {
      RoundHandles(cfg, w, batches[0]);
      var rest := Stream(batches[1..]);
      RoundsHandle(cfg, Round(cfg, w, batches[0]).0, batches[1..]);
      assert w.handled + batches[0] + rest == w.handled + (batches[0] + rest);
    }
  }

  /** A process that has just started, over whatever earlier lives left in the table, the key store, the
      dead-letter topic and the drop log; the key store answers and expires nothing. */
  ghost predicate Blank(cfg: Config, w: World) {
    && L.Ok(cfg, w) && w.sink.buffer == [] && w.sink.poisoned == [] && Started(w)
    && (cfg.dedup.Some? ==> C.Faithful(cfg, w))
  }

  /** Over any polls, rewinds included, with no dedup error or expiry: persist receives exactly the
      first occurrence of every key of the decodable stream that was not stored before, in fetch order. */
  lemma PersistedIsNewByKey(cfg: Config, s: System, turns: seq<Turn>)
    requires Blank(cfg, s.w) && L.Retrying(cfg) && cfg.dedup.Some?
    ensures TurnsDone(cfg, s, turns).w.persisted
         == NewByKey(s.w.redis.keys.Keys, Decodable(cfg, Stream(Polls(cfg, s, turns))))
  {
    TurnsAreRounds(cfg, s, turns);
    RoundsKeepOnce(cfg, s.w.redis.keys.Keys, s.w, Polls(cfg, s, turns));
    RoundsHandle(cfg, s.w, Polls(cfg, s, turns));
    assert [] + Stream(Polls(cfg, s, turns)) == Stream(Polls(cfg, s, turns));
  }

  /** From an empty key store, every decoded key is persisted exactly once. */
  lemma PersistedIsFirstByKey(cfg: Config, s: System, turns: seq<Turn>)
    requires Blank(cfg, s.w) && L.Retrying(cfg) && cfg.dedup.Some? && s.w.redis.keys == map[]
    ensures var ds := Decodable(cfg, Stream(Polls(cfg, s, turns)));
            var es := TurnsDone(cfg, s, turns).w.persisted;
            es == FirstByKey(ds) && DistinctKeys(es) && forall k :: C.HasKey(ds, k) <==> KeyAmong(es, k)
  {
    assert s.w.redis.keys.Keys == {};
    PersistedIsNewByKey(cfg, s, turns);
    FirstByKeyMeans(Decodable(cfg, Stream(Polls(cfg, s, turns))));
  }

  // ---- What the table holds ---------------------------------------------------------------------

  /** Every flush that these records cause on their way into the sink is gentle. */
  ghost predicate GentleWrites(cfg: Config, w: World, ds: seq<Decoded>, seen: seq<bool>)
    requires |ds| == |seen| && cfg.sink.Timescale?
    decreases |ds|
  {
    ds == [] ||
    var c, full := cfg.sink.c, w.sink.(buffer := w.sink.buffer + [ds[0].event]);
    && (!seen[0] && |full.buffer| >= c.batchSize ==> T.Gentle(c, full))
    && GentleWrites(cfg, PersistOne(cfg, w, ds[0], seen[0]), ds[1..], seen[1..])
  }

  /** So is every flush of the round: no row that could be stored runs out of its attempts. */
  ghost predicate GentleRound(cfg: Config, w: World, rs: seq<Record>)
    requires cfg.sink.Timescale?
  {
    var ds := Decodable(cfg, rs);
    var (w2, seen) := Asked(cfg, DecodeAll(cfg, w, rs), ds);
    GentleWrites(cfg, w2, ds, seen) && T.Gentle(cfg.sink.c, Handled(cfg, w, rs).sink)
  }

  ghost predicate GentleRounds(cfg: Config, w: World, batches: seq<seq<Record>>)
    requires cfg.sink.Timescale?
    decreases |batches|
  {
    batches == [] ||
    (GentleRound(cfg, w, batches[0]) && GentleRounds(cfg, Round(cfg, w, batches[0]).0, batches[1..]))
  }

  /** A TimescaleSink whose retry loops run. */
  ghost predicate Storing(cfg: Config) {
    cfg.sink.Timescale? && L.Retrying(cfg)
  }

  /** Once the buffer is flushed, the table is a function of what was persisted. */
  ghost predicate TableOnCourse(cfg: Config, w: World, rows: seq<Event>)
    requires cfg.sink.Timescale?
  {
    var script, s := cfg.sink.c.script, w.sink;
    && Unique(s.db.table)
    && DB.Absorb(s.db.table, DB.Good(script, s.buffer)) == DB.Absorb(rows, DB.Good(script, w.persisted))
  }

  lemma FlushKeepsTable(cfg: Config, w: World, rows: seq<Event>)
    requires Storing(cfg) && TableOnCourse(cfg, w, rows) && T.Gentle(cfg.sink.c, w.sink)
    ensures TableOnCourse(cfg, w.(sink := T.Flushed(cfg.sink.c, w.sink)), rows)
  {
    T.FlushRefinesAbsorb(cfg.sink.c, w.sink);
    DB.AbsorbIds(w.sink.db.table, DB.Good(cfg.sink.c.script, w.sink.buffer));
  }

  /** Both sides grow by the same event. */
  lemma AppendKeepsTable(cfg: Config, w: World, e: Event, rows: seq<Event>)
    requires Storing(cfg) && TableOnCourse(cfg, w, rows)
    ensures TableOnCourse(cfg, Appended(w, e), rows)
  {
    var script, s, one := cfg.sink.c.script, w.sink, DB.Good(cfg.sink.c.script, [e]);
    DB.GoodBadConcat(script, s.buffer, [e]);
    DB.GoodBadConcat(script, w.persisted, [e]);
    DB.AbsorbConcat(s.db.table, DB.Good(script, s.buffer), one);
    DB.AbsorbConcat(rows, DB.Good(script, w.persisted), one);
  }

  /** The event is in the buffer and in the history of persisted events. */
  ghost function Appended(w: World, e: Event): World {
    w.(persisted := w.persisted + [e], sink := w.sink.(buffer := w.sink.buffer + [e]))
  }

  lemma {:induction false} PersistKeepsTable(
    cfg: Config, w: World, ds: seq<Decoded>, seen: seq<bool>, rows: seq<Event>)
    requires Storing(cfg) && TableOnCourse(cfg, w, rows) && |ds| == |seen| && GentleWrites(cfg, w, ds, seen)
    ensures TableOnCourse(cfg, PersistAll(cfg, w, ds, seen), rows)
    decreases |ds|
  {
    if ds != [] {
      var e := ds[0].event;
      if !seen[0] {
        AppendKeepsTable(cfg, w, e, rows);
        if |w.sink.buffer + [e]| >= cfg.sink.c.batchSize {
          FlushKeepsTable(cfg, Appended(w, e), rows);
        }
      }
      PersistKeepsTable(cfg, PersistOne(cfg, w, ds[0], seen[0]), ds[1..], seen[1..], rows);
    }
  }

  lemma RoundKeepsTable(cfg: Config, w: World, rs: seq<Record>, rows: seq<Event>)
    requires Storing(cfg) && TableOnCourse(cfg, w, rows) && GentleRound(cfg, w, rs)
    ensures var w' := Round(cfg, w, rs).0;
            TableOnCourse(cfg, w', rows) && w'.sink.buffer == [] && w'.sink.poisoned == []
  {
    var ds := Decodable(cfg, rs);
    L.DecodeAllKeeps(cfg, w, rs);
    DecodeAllCounts(cfg, w, rs);
    var (w2, seen) := Asked(cfg, DecodeAll(cfg, w, rs), ds);
    PersistKeepsTable(cfg, w2, ds, seen, rows);
    FlushKeepsTable(cfg, Handled(cfg, w, rs), rows);
    var f := FlushSink(cfg, Handled(cfg, w, rs)).0;
    L.SentAllKeeps(cfg, f.(sink := f.sink.(poisoned := [])), f.sink.poisoned);
    SentAllCounts(cfg, f.(sink := f.sink.(poisoned := [])), f.sink.poisoned);
    L.RoundKeeps(cfg, w, rs);
  }

  lemma {:induction false} RoundsKeepTable(cfg: Config, w: World, batches: seq<seq<Record>>, rows: seq<Event>)
    requires Storing(cfg) && TableOnCourse(cfg, w, rows) && GentleRounds(cfg, w, batches)
    requires w.sink.buffer == [] && w.sink.poisoned == []
    ensures var f := Rounds(cfg, w, batches);
            TableOnCourse(cfg, f, rows) && f.sink.buffer == [] && f.sink.poisoned == []
    decreases |batches|
  {
    if batches != [] {
      RoundKeepsTable(cfg, w, batches[0], rows);
      RoundsKeepTable(cfg, Round(cfg, w, batches[0]).0, batches[1..], rows);
    }
  }

  /** The table after any gentle rounds, whatever becomes of the dead letters. */
  lemma TableOutcome(cfg: Config, w: World, batches: seq<seq<Record>>)
    requires Blank(cfg, w) && Storing(cfg) && GentleRounds(cfg, w, batches)
    ensures Rounds(cfg, w, batches).sink.db.table
         == DB.Absorb(w.sink.db.table,
                      DB.Good(cfg.sink.c.script, Ideal(cfg, w.redis.keys.Keys, Stream(batches))))
  {
    RoundsKeepTable(cfg, w, batches, w.sink.db.table);
    RoundsKeepOnce(cfg, w.redis.keys.Keys, w, batches);
    RoundsHandle(cfg, w, batches);
    assert [] + Stream(batches) == Stream(batches);
  }

  // ---- What the dead-letter topic holds -----------------------------------------------------------

  ghost function Poisons(cfg: Config, es: seq<Event>): seq<Letter> {
    seq(|es|, i requires 0 <= i < |es| => PoisonLetter(cfg, es[i]))
  }

  ghost function Raws(rs: seq<Record>): seq<Letter> {
    seq(|rs|, i requires 0 <= i < |rs| => RawLetter(rs[i]))
  }

  /** The dead-letter topic, if there is one, acknowledges every letter. */
  ghost predicate Delivering(cfg: Config) {
    cfg.dlq.Some? ==> forall t: nat :: cfg.dlq.value(t).Done?
  }

  /** Where dead letters end up: on the topic, or in the log of a consumer that has none. */
  ghost function Mail(cfg: Config, w: World): seq<Letter> {
    if cfg.dlq.Some? then w.dlq.letters else w.dropped
  }

  /** Poison that is still to be sent: poisoned already, or bad and in the buffer. */
  ghost function Held(cfg: Config, w: World): seq<Letter>
    requires cfg.sink.Timescale?
  {
    Poisons(cfg, w.sink.poisoned + DB.Bad(cfg.sink.c.script, w.sink.buffer))
  }

  /** The letters of the bad events that were persisted. */
  ghost function BadMail(cfg: Config, w: World): seq<Letter>
    requires cfg.sink.Timescale?
  {
    Poisons(cfg, DB.Bad(cfg.sink.c.script, w.persisted))
  }

  /** Mail so far and poison still held, against earlier and raw mail and the letters of bad events. */
  ghost predicate SameMail(mail: seq<Letter>, held: seq<Letter>, prior: seq<Letter>, bad: seq<Letter>) {
    multiset(mail + held) == multiset(prior + bad)
  }

  ghost predicate MailCounted(cfg: Config, w: World, from: World) {
    && Unique(w.sink.db.table)
    && (if cfg.dlq.Some? then w.dropped == from.dropped else w.dlq.letters == from.dlq.letters)
    && w.dlqSent == (if cfg.dlq.Some? then from.dlqSent + |w.dlq.letters| - |from.dlq.letters| else from.dlqSent)
  }

  /** Once the poison is drained, the dead letters are a function of what was handled and persisted.
      `from` is the world at the start. */
  ghost predicate MailOnCourse(cfg: Config, w: World, from: World)
    requires cfg.sink.Timescale?
  {
    MailCounted(cfg, w, from) &&
    SameMail(Mail(cfg, w), Held(cfg, w), Mail(cfg, from) + Raws(Undecodable(cfg, w.handled)), BadMail(cfg, w))
  }

  lemma PoisonsConcat(cfg: Config, a: seq<Event>, b: seq<Event>)
    ensures Poisons(cfg, a + b) == Poisons(cfg, a) + Poisons(cfg, b)
  {
  }

  /** A letter more on both sides. */
  lemma SentMail(cfg: Config, w: World, l: Letter)
    requires Delivering(cfg)
    ensures var w' := Sent(cfg, w, l);
            && Mail(cfg, w') == Mail(cfg, w) + [l] && w'.sink == w.sink
            && w'.handled == w.handled && w'.persisted == w.persisted
            && (if cfg.dlq.Some? then w'.dropped == w.dropped && w'.dlqSent == w.dlqSent + 1
                else w'.dlq == w.dlq && w'.dlqSent == w.dlqSent)
  {
  }

  lemma FlushKeepsMail(cfg: Config, w: World, from: World)
    requires Storing(cfg) && MailOnCourse(cfg, w, from) && T.Gentle(cfg.sink.c, w.sink)
    ensures MailOnCourse(cfg, w.(sink := T.Flushed(cfg.sink.c, w.sink)), from)
  {
    var c := cfg.sink.c;
    T.FlushRefinesAbsorb(c, w.sink);
    DB.AbsorbIds(w.sink.db.table, DB.Good(c.script, w.sink.buffer));
    var t := T.Flushed(c, w.sink);
    assert t.poisoned + DB.Bad(c.script, t.buffer) == w.sink.poisoned + DB.Bad(c.script, w.sink.buffer);
  }

  lemma MorePoison(mail: seq<Letter>, held: seq<Letter>, prior: seq<Letter>, bad: seq<Letter>, more: seq<Letter>)
    requires SameMail(mail, held, prior, bad)
    ensures SameMail(mail, held + more, prior, bad + more)
  {
    assert mail + (held + more) == (mail + held) + more;
    assert prior + (bad + more) == (prior + bad) + more;
  }

  lemma HeldMore(cfg: Config, w: World, e: Event)
    requires cfg.sink.Timescale?
    ensures Held(cfg, Appended(w, e)) == Held(cfg, w) + Poisons(cfg, DB.Bad(cfg.sink.c.script, [e]))
  {
    var script, s := cfg.sink.c.script, w.sink;
    DB.GoodBadConcat(script, s.buffer, [e]);
    var held, more := s.poisoned + DB.Bad(script, s.buffer), DB.Bad(script, [e]);
    assert s.poisoned + (DB.Bad(script, s.buffer) + more) == held + more;
    PoisonsConcat(cfg, held, more);
  }

  lemma BadMailMore(cfg: Config, w: World, e: Event)
    requires cfg.sink.Timescale?
    ensures BadMail(cfg, Appended(w, e)) == BadMail(cfg, w) + Poisons(cfg, DB.Bad(cfg.sink.c.script, [e]))
  {
    var script := cfg.sink.c.script;
    DB.GoodBadConcat(script, w.persisted, [e]);
    PoisonsConcat(cfg, DB.Bad(script, w.persisted), DB.Bad(script, [e]));
  }

  lemma AppendKeepsMail(cfg: Config, w: World, e: Event, from: World)
    requires Storing(cfg) && MailOnCourse(cfg, w, from)
    ensures MailOnCourse(cfg, Appended(w, e), from)
  {
    HeldMore(cfg, w, e);
    BadMailMore(cfg, w, e);
    MorePoison(Mail(cfg, w), Held(cfg, w), Mail(cfg, from) + Raws(Undecodable(cfg, w.handled)), BadMail(cfg, w),
               Poisons(cfg, DB.Bad(cfg.sink.c.script, [e])));
  }

  lemma {:induction false} PersistKeepsMail(
    cfg: Config, w: World, ds: seq<Decoded>, seen: seq<bool>, from: World)
    requires Storing(cfg) && MailOnCourse(cfg, w, from) && |ds| == |seen| && GentleWrites(cfg, w, ds, seen)
    ensures MailOnCourse(cfg, PersistAll(cfg, w, ds, seen), from)
    decreases |ds|
  {
    if ds != [] {
      var e := ds[0].event;
      if !seen[0] {
        AppendKeepsMail(cfg, w, e, from);
        if |w.sink.buffer + [e]| >= cfg.sink.c.batchSize {
          FlushKeepsMail(cfg, Appended(w, e), from);
        }
      }
      PersistKeepsMail(cfg, PersistOne(cfg, w, ds[0], seen[0]), ds[1..], seen[1..], from);
    }
  }

  lemma MoreMail(mail: seq<Letter>, held: seq<Letter>, prior: seq<Letter>, bad: seq<Letter>, l: Letter)
    requires SameMail(mail, held, prior, bad)
    ensures SameMail(mail + [l], held, prior + [l], bad)
  {
    assert multiset((mail + [l]) + held) == multiset(mail + held) + multiset([l]);
    assert multiset((prior + [l]) + bad) == multiset(prior + bad) + multiset([l]);
  }

  lemma UndecodableMore(cfg: Config, rs: seq<Record>, r: Record)
    ensures Undecodable(cfg, rs + [r]) == Undecodable(cfg, rs) + if cfg.decode(r.value).None? then [r] else []
  {
    assert (rs + [r])[..|rs|] == rs;
  }

  lemma RawsMore(prior: seq<Letter>, rs: seq<Record>, r: Record)
    ensures prior + Raws(rs + [r]) == prior + Raws(rs) + [RawLetter(r)]
  {
  }

  /** The same sink and history of persisted events hold the same poison. */
  lemma SamePoison(cfg: Config, w: World, w': World)
    requires cfg.sink.Timescale? && w'.sink == w.sink && w'.persisted == w.persisted
    ensures Held(cfg, w') == Held(cfg, w) && BadMail(cfg, w') == BadMail(cfg, w)
  {
  }

  lemma RawKeepsMail(cfg: Config, w: World, r: Record, from: World)
    requires Storing(cfg) && Delivering(cfg) && MailOnCourse(cfg, w, from) && cfg.decode(r.value).None?
    ensures MailOnCourse(cfg, DecodeOne(cfg, w, r), from)
  {
    var und := Undecodable(cfg, w.handled);
    UndecodableMore(cfg, w.handled, r);
    SentMail(cfg, w.(handled := w.handled + [r]), RawLetter(r));
    SamePoison(cfg, w, DecodeOne(cfg, w, r));
    RawsMore(Mail(cfg, from), und, r);
    MoreMail(Mail(cfg, w), Held(cfg, w), Mail(cfg, from) + Raws(und), BadMail(cfg, w), RawLetter(r));
  }

  lemma DecodeKeepsMail(cfg: Config, w: World, r: Record, from: World)
    requires Storing(cfg) && Delivering(cfg) && MailOnCourse(cfg, w, from)
    ensures MailOnCourse(cfg, DecodeOne(cfg, w, r), from)
  {
    if cfg.decode(r.value).None? {
      RawKeepsMail(cfg, w, r, from);
    } else {
      UndecodableMore(cfg, w.handled, r);
      SamePoison(cfg, w, DecodeOne(cfg, w, r));
      assert Undecodable(cfg, w.handled) + [] == Undecodable(cfg, w.handled);
    }
  }

  lemma {:induction false} DecodeAllKeepsMail(cfg: Config, w: World, rs: seq<Record>, from: World)
    requires Storing(cfg) && Delivering(cfg) && MailOnCourse(cfg, w, from)
    ensures MailOnCourse(cfg, DecodeAll(cfg, w, rs), from)
    decreases |rs|
  {
    if rs != [] {
      DecodeKeepsMail(cfg, w, rs[0], from);
      DecodeAllKeepsMail(cfg, DecodeOne(cfg, w, rs[0]), rs[1..], from);
    }
  }

  /** Draining poison turns it into letters, one by one. */
  lemma {:induction false} DrainMail(cfg: Config, w: World, es: seq<Event>)
    requires Delivering(cfg)
    ensures var w' := SentAll(cfg, w, es);
            && Mail(cfg, w') == Mail(cfg, w) + Poisons(cfg, es) && w'.sink == w.sink
            && w'.handled == w.handled && w'.persisted == w.persisted
            && (if cfg.dlq.Some? then w'.dropped == w.dropped && w'.dlqSent == w.dlqSent + |es|
                else w'.dlq == w.dlq && w'.dlqSent == w.dlqSent)
    decreases |es|
  {
    if es != [] {
      SentMail(cfg, w, PoisonLetter(cfg, es[0]));
      DrainMail(cfg, Sent(cfg, w, PoisonLetter(cfg, es[0])), es[1..]);
      assert Poisons(cfg, es) == [PoisonLetter(cfg, es[0])] + Poisons(cfg, es[1..]);
    }
  }

  lemma DeliverMail(mail: seq<Letter>, held: seq<Letter>, prior: seq<Letter>, bad: seq<Letter>)
    requires SameMail(mail, held, prior, bad)
    ensures SameMail(mail + held, [], prior, bad)
  {
    assert mail + held + [] == mail + held;
  }

  /** Once the buffer is flushed, all that is held is on the poison list. */
  lemma HeldPoison(cfg: Config, w: World)
    requires cfg.sink.Timescale? && w.sink.buffer == []
    ensures Held(cfg, w) == Poisons(cfg, w.sink.poisoned)
  {
    assert w.sink.poisoned + [] == w.sink.poisoned;
  }

  lemma DrainKeepsMail(cfg: Config, w: World, from: World)
    requires Storing(cfg) && Delivering(cfg) && MailOnCourse(cfg, w, from) && w.sink.buffer == []
    ensures MailOnCourse(cfg, PoisonDrained(cfg, w), from)
  {
    var prior := Mail(cfg, from) + Raws(Undecodable(cfg, w.handled));
    DrainMail(cfg, w.(sink := w.sink.(poisoned := [])), w.sink.poisoned);
    HeldPoison(cfg, w);
    HeldPoison(cfg, PoisonDrained(cfg, w));
    assert Poisons(cfg, []) == [];
    DeliverMail(Mail(cfg, w), Held(cfg, w), prior, BadMail(cfg, w));
  }

  lemma RoundKeepsMail(cfg: Config, w: World, rs: seq<Record>, from: World)
    requires Storing(cfg) && Delivering(cfg) && MailOnCourse(cfg, w, from) && GentleRound(cfg, w, rs)
    ensures MailOnCourse(cfg, Round(cfg, w, rs).0, from)
  {
    var ds := Decodable(cfg, rs);
    DecodeAllKeepsMail(cfg, w, rs, from);
    var (w2, seen) := Asked(cfg, DecodeAll(cfg, w, rs), ds);
    assert MailOnCourse(cfg, w2, from);
    PersistKeepsMail(cfg, w2, ds, seen, from);
    var h := Handled(cfg, w, rs);
    FlushKeepsMail(cfg, h, from);
    T.FlushKeepsNoBatch(cfg.sink.c, h.sink);
    DrainKeepsMail(cfg, FlushSink(cfg, h).0, from);
  }

  lemma {:induction false} RoundsKeepMail(cfg: Config, w: World, batches: seq<seq<Record>>, from: World)
    requires Storing(cfg) && Delivering(cfg) && MailOnCourse(cfg, w, from) && GentleRounds(cfg, w, batches)
    ensures MailOnCourse(cfg, Rounds(cfg, w, batches), from)
    decreases |batches|
  {
    if batches != [] {
      RoundKeepsMail(cfg, w, batches[0], from);
      RoundsKeepMail(cfg, Round(cfg, w, batches[0]).0, batches[1..], from);
    }
  }

  // ---- The cuts between batches do not matter --------------------------------------------------

  /** What an operator can see of a consumer: rows, claimed keys, counters, dead letters and drops. */
  datatype View = View(
    table: seq<Event>, keys: set<string>, consumed: int, deduped: int, dlqSent: int,
    letters: multiset<Letter>, dropped: multiset<Letter>)

  ghost function Seen(w: World): View {
    View(w.sink.db.table, w.redis.keys.Keys, w.consumed, w.deduped, w.dlqSent,
         multiset(w.dlq.letters), multiset(w.dropped))
  }

  /** The view that a stream leads to from `w`, whatever the batches. */
  ghost function Canonical(cfg: Config, w: World, stream: seq<Record>): View
    requires cfg.sink.Timescale?
  {
    var script, known, und := cfg.sink.c.script, w.redis.keys.Keys, Undecodable(cfg, stream);
    var es := Ideal(cfg, known, stream);
    var mail := multiset(Raws(und)) + multiset(Poisons(cfg, DB.Bad(script, es)));
    var sent, logged := if cfg.dlq.Some? then mail else multiset{}, if cfg.dlq.Some? then multiset{} else mail;
    View(DB.Absorb(w.sink.db.table, DB.Good(script, es)),
         known + (if cfg.dedup.Some? then set k | k in KeysOf(Decodable(cfg, stream)) else {}),
         |es|, |stream| - |und| - |es|, |sent|,
         multiset(w.dlq.letters) + sent, multiset(w.dropped) + logged)
  }

  lemma ClaimedKeys(cfg: Config, w: World, batches: seq<seq<Record>>)
    requires Blank(cfg, w) && L.Retrying(cfg)
    ensures Rounds(cfg, w, batches).redis.keys.Keys
         == w.redis.keys.Keys + if cfg.dedup.Some? then set k | k in KeysOf(Decodable(cfg, Stream(batches))) else {}
  {
    var f, ds := Rounds(cfg, w, batches), Decodable(cfg, Stream(batches));
    RoundsKeepOnce(cfg, w.redis.keys.Keys, w, batches);
    RoundsHandle(cfg, w, batches);
    assert [] + Stream(batches) == Stream(batches);
    if cfg.dedup.Some? {
      forall k
        ensures k in f.redis.keys <==> k in w.redis.keys.Keys || k in KeysOf(ds)
      {
        HasKeyOf(ds, k);
      }
    }
  }

  lemma BlankMail(cfg: Config, w: World)
    requires Blank(cfg, w) && Storing(cfg)
    ensures MailOnCourse(cfg, w, w)
  {
    assert Mail(cfg, w) + Poisons(cfg, [] + []) == Mail(cfg, w);
    assert Mail(cfg, w) + Raws([]) + Poisons(cfg, []) == Mail(cfg, w);
  }

  lemma MailView(cfg: Config, w: World, f: World)
    requires Storing(cfg) && MailOnCourse(cfg, f, w) && w.dlqSent == 0
    requires f.sink.buffer == [] && f.sink.poisoned == []
    ensures var mail := multiset(Raws(Undecodable(cfg, f.handled)))
                        + multiset(Poisons(cfg, DB.Bad(cfg.sink.c.script, f.persisted)));
            && multiset(f.dlq.letters) == multiset(w.dlq.letters) + (if cfg.dlq.Some? then mail else multiset{})
            && multiset(f.dropped) == multiset(w.dropped) + (if cfg.dlq.Some? then multiset{} else mail)
            && f.dlqSent == if cfg.dlq.Some? then |mail| else 0
  {
    assert Mail(cfg, f) + Poisons(cfg, [] + []) == Mail(cfg, f);
    var raws, bad := Raws(Undecodable(cfg, f.handled)), Poisons(cfg, DB.Bad(cfg.sink.c.script, f.persisted));
    assert multiset(Mail(cfg, w) + raws + bad) == multiset(Mail(cfg, w)) + (multiset(raws) + multiset(bad));
    assert |multiset(Mail(cfg, f))| == |Mail(cfg, f)| && |multiset(Mail(cfg, w))| == |Mail(cfg, w)|;
  }

  lemma MailOutcome(cfg: Config, w: World, batches: seq<seq<Record>>)
    requires Blank(cfg, w) && Storing(cfg) && Delivering(cfg) && GentleRounds(cfg, w, batches)
    ensures var f, v := Rounds(cfg, w, batches), Canonical(cfg, w, Stream(batches));
            multiset(f.dlq.letters) == v.letters && multiset(f.dropped) == v.dropped && f.dlqSent == v.dlqSent
  {
    var f := Rounds(cfg, w, batches);
    BlankMail(cfg, w);
    RoundsKeepMail(cfg, w, batches, w);
    RoundsKeepTable(cfg, w, batches, w.sink.db.table);
    MailView(cfg, w, f);
    StreamOutcome(cfg, w, batches);
  }

  /** What was handled and persisted, and the counters that follow from it. */
  lemma StreamOutcome(cfg: Config, w: World, batches: seq<seq<Record>>)
    requires Blank(cfg, w) && Storing(cfg)
    ensures var f, v := Rounds(cfg, w, batches), Canonical(cfg, w, Stream(batches));
            && f.handled == Stream(batches) && f.persisted == Ideal(cfg, w.redis.keys.Keys, Stream(batches))
            && f.consumed == v.consumed && f.deduped == v.deduped
  {
    RoundsKeepOnce(cfg, w.redis.keys.Keys, w, batches);
    RoundsHandle(cfg, w, batches);
    RoundsAccounted(cfg, w, batches, |w.dropped|);
    assert [] + Stream(batches) == Stream(batches);
  }

  /** From any table, key store and mail: as long as no storable row runs out of attempts, no letter is
      refused and the key store answers, the outcome of any sequence of batches is the canonical view of
      its stream. */
  lemma RoundsOutcome(cfg: Config, w: World, batches: seq<seq<Record>>)
    requires Blank(cfg, w) && Storing(cfg) && Delivering(cfg) && GentleRounds(cfg, w, batches)
    ensures Seen(Rounds(cfg, w, batches)) == Canonical(cfg, w, Stream(batches))
  {
    TableOutcome(cfg, w, batches);
    ClaimedKeys(cfg, w, batches);
    StreamOutcome(cfg, w, batches);
    MailOutcome(cfg, w, batches);
  }

  /** Two ways of cutting the same stream into batches end in the same table, the same claimed keys,
      the same counters and the same dead letters. */
  lemma BatchCutsDoNotMatter(cfg: Config, w: World, a: seq<seq<Record>>, b: seq<seq<Record>>)
    requires Blank(cfg, w) && Storing(cfg) && Delivering(cfg) && Stream(a) == Stream(b)
    requires GentleRounds(cfg, w, a) && GentleRounds(cfg, w, b)
    ensures Seen(Rounds(cfg, w, a)) == Seen(Rounds(cfg, w, b))
  {
    RoundsOutcome(cfg, w, a);
    RoundsOutcome(cfg, w, b);
  }

  // ---- Databases over which every run is gentle -------------------------------------------------

  lemma {:induction false} CalmWrites(cfg: Config, w: World, ds: seq<Decoded>, seen: seq<bool>)
    requires cfg.sink.Timescale? && T.Calm(cfg.sink.c) && |ds| == |seen|
    ensures GentleWrites(cfg, w, ds, seen)
    decreases |ds|
  {
    if ds != [] {
      T.CalmIsGentle(cfg.sink.c, w.sink.(buffer := w.sink.buffer + [ds[0].event]));
      CalmWrites(cfg, PersistOne(cfg, w, ds[0], seen[0]), ds[1..], seen[1..]);
    }
  }

  /** With at most maxRetries failures in a row, every run is gentle. */
  lemma {:induction false} CalmRounds(cfg: Config, w: World, batches: seq<seq<Record>>)
    requires cfg.sink.Timescale? && T.Calm(cfg.sink.c)
    ensures GentleRounds(cfg, w, batches)
    decreases |batches|
  {
    if batches != [] {
      var ds := Decodable(cfg, batches[0]);
      var (w2, seen) := Asked(cfg, DecodeAll(cfg, w, batches[0]), ds);
      CalmWrites(cfg, w2, ds, seen);
      T.CalmIsGentle(cfg.sink.c, Handled(cfg, w, batches[0]).sink);
      CalmRounds(cfg, Round(cfg, w, batches[0]).0, batches[1..]);
    }
  }
}
