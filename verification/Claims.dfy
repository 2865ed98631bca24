/** The delivery protocol with dedup on. Keys are claimed before the flush, so a crash in between
    leaves a claim without an event; these orphaned claims are the only way to lose a record. */
module Claims {
  import opened Events
  import opened Consumer
  import opened Delivery
  import DB = Database
  import T = TimescaleSink
  import D = Dedup
  import R = RoundDeath
  import X = Death

  // ---- Nothing is invented inside a round --------------------------------------------------

  /** Limits on what may be pending, stored and noted. */
  datatype Zone = Zone(pending: Event -> bool, stored: Event -> bool, letter: Letter -> bool)

  ghost predicate Closed(cfg: Config, z: Zone) {
    forall e :: z.pending(e) ==> z.stored(e) && z.letter(PoisonLetter(cfg, e))
  }

  ghost predicate SinkWithin(s: T.State, z: Zone) {
    && (forall e :: e in s.db.table ==> z.stored(e))
    && (forall e :: e in s.buffer ==> z.pending(e))
    && (forall e :: e in s.poisoned ==> z.pending(e))
  }

  ghost predicate Within(w: World, z: Zone) {
    SinkWithin(w.sink, z) && forall l :: Noted(w, l) ==> z.letter(l)
  }

  lemma {:induction false} RowsWithin(c: T.Config, s: T.State, batch: seq<Event>, z: Zone)
    requires Unique(s.db.table) && SinkWithin(s, z)
    requires forall e :: e in batch ==> z.pending(e) && z.stored(e)
    ensures SinkWithin(T.RowByRow(c, s, batch), z)
    decreases |batch|
  {
    if batch != [] {
      T.RowTierFacts(c, s.db, batch[0], Attempts(c.maxRetries));
      RowsWithin(c, T.OneRow(c, s, batch[0]), batch[1..], z);
    }
  }

  lemma FlushedWithin(cfg: Config, c: T.Config, s: T.State, z: Zone)
    requires Unique(s.db.table) && SinkWithin(s, z) && Closed(cfg, z)
    ensures SinkWithin(T.Flushed(c, s), z)
  {
    if s.buffer != [] {
      T.CopyTierFacts(c, s.db, s.buffer, Attempts(c.maxRetries));
      var d := T.CopyTier(c, s.db, s.buffer, Attempts(c.maxRetries)).0;
      RowsWithin(c, T.State(d, [], s.poisoned), s.buffer, z);
    }
  }

  lemma {:induction false} WriteTierWithin(cfg: Config, d: DirectConfig, s: T.State, e: Event, left: nat, z: Zone)
    requires SinkWithin(s, z) && Closed(cfg, z) && z.pending(e)
    ensures SinkWithin(WriteTier(d, s, e, left).0, z)
    decreases left
  {
    if left > 0 {
      var (s1, ok) := DirectWrite(d, s, e);
      if !ok {
        WriteTierWithin(cfg, d, s1, e, left - 1, z);
      }
    }
  }

  lemma PersistedWithin(cfg: Config, w: World, d: Decoded, z: Zone)
    requires Ok(cfg, w) && Within(w, z) && Closed(cfg, z)
    requires z.pending(d.event) && z.letter(RawLetter(d.record))
    ensures Within(Persisted(cfg, w, d), z)
  {
    match cfg.sink
    case Timescale(c) =>
      FlushedWithin(cfg, c, w.sink.(buffer := w.sink.buffer + [d.event]), z);
    case Direct(c) =>
      WriteTierWithin(cfg, c, w.sink, d.event, Attempts(cfg.maxRetries), z);
  }

  lemma {:induction false} PersistAllWithin(cfg: Config, w: World, ds: seq<Decoded>, seen: seq<bool>, z: Zone)
    requires Ok(cfg, w) && Retrying(cfg) && Within(w, z) && Closed(cfg, z) && |ds| == |seen|
    requires forall i :: 0 <= i < |ds| && !seen[i] ==> z.pending(ds[i].event) && z.letter(RawLetter(ds[i].record))
    ensures Within(PersistAll(cfg, w, ds, seen), z)
    decreases |ds|
  {
    if ds != [] {
      if !seen[0] {
        PersistedKeeps(cfg, w, ds[0]);
        PersistedWithin(cfg, w, ds[0], z);
      }
      PersistAllWithin(cfg, PersistOne(cfg, w, ds[0], seen[0]), ds[1..], seen[1..], z);
    }
  }

  lemma {:induction false} DecodeAllWithin(cfg: Config, w: World, rs: seq<Record>, z: Zone)
    requires Within(w, z)
    requires forall r :: r in rs && cfg.decode(r.value).None? ==> z.letter(RawLetter(r))
    ensures Within(DecodeAll(cfg, w, rs), z)
    decreases |rs|
  {
    if rs != [] {
      DecodeAllWithin(cfg, DecodeOne(cfg, w, rs[0]), rs[1..], z);
    }
  }

  lemma {:induction false} SentAllWithin(cfg: Config, w: World, es: seq<Event>, z: Zone)
    requires Within(w, z) && Closed(cfg, z) && forall e :: e in es ==> z.pending(e)
    ensures Within(SentAll(cfg, w, es), z)
    decreases |es|
  {
    if es != [] {
      assert z.pending(es[0]);
      SentAllWithin(cfg, Sent(cfg, w, PoisonLetter(cfg, es[0])), es[1..], z);
    }
  }

  /** The records of a batch that are dead-lettered or persisted lie within the zone. */
  ghost predicate Admits(cfg: Config, w: World, rs: seq<Record>, z: Zone) {
    var ds := Decodable(cfg, rs);
    var seen := Asked(cfg, w, ds).1;
    && (forall r :: r in rs && cfg.decode(r.value).None? ==> z.letter(RawLetter(r)))
    && (forall i :: 0 <= i < |ds| && !seen[i] ==> z.pending(ds[i].event) && z.letter(RawLetter(ds[i].record)))
  }

  lemma RoundWithin(cfg: Config, w: World, rs: seq<Record>, z: Zone)
    requires Ok(cfg, w) && Retrying(cfg) && Within(w, z) && Closed(cfg, z) && Admits(cfg, w, rs, z)
    ensures Within(Round(cfg, w, rs).0, z)
  {
    var ds := Decodable(cfg, rs);
    DecodeAllKeeps(cfg, w, rs);
    DecodeAllWithin(cfg, w, rs, z);
    HandledKeeps(cfg, w, rs);
    var h := Handled(cfg, w, rs);
    if ds != [] {
      var (w2, seen) := Asked(cfg, DecodeAll(cfg, w, rs), ds);
      PersistAllWithin(cfg, w2, ds, seen, z);
    }
    assert Within(h, z);
    if cfg.sink.Timescale? {
      FlushedWithin(cfg, cfg.sink.c, h.sink, z);
      var f := FlushSink(cfg, h).0;
      SentAllWithin(cfg, f.(sink := f.sink.(poisoned := [])), f.sink.poisoned, z);
    } else if cfg.sink.d.flusher {
      DirectFlushWithin(cfg, cfg.sink.d, h.sink, z);
    }
  }

  lemma DirectFlushWithin(cfg: Config, c: DirectConfig, s: T.State, z: Zone)
    requires SinkWithin(s, z) && Closed(cfg, z)
    ensures SinkWithin(DirectFlush(c, s).0, z)
  {
  }

  // ---- Keys -----------------------------------------------------------------------------------

  /** What DecodeRecord read, marshalEvent writes back. */
  ghost predicate Codec(cfg: Config) {
    forall v: string :: cfg.decode(v).Some? ==> RoundTrips(cfg, cfg.decode(v).value)
  }

  ghost predicate RoundTrips(cfg: Config, e: Event) {
    cfg.decode(cfg.encode(e)) == Some(e)
  }

  ghost predicate Genuine(cfg: Config, w: World) {
    forall e :: Pending(w, e) ==> RoundTrips(cfg, e)
  }

  lemma RoundGenuine(cfg: Config, w: World, rs: seq<Record>)
    requires Ok(cfg, w) && Retrying(cfg) && Codec(cfg) && Genuine(cfg, w)
    ensures Genuine(cfg, Round(cfg, w, rs).0) && Genuine(cfg, Handled(cfg, w, rs))
  {
    var z := Zone((e: Event) => RoundTrips(cfg, e), (e: Event) => true, (l: Letter) => true);
    assert forall e :: Pending(w, e) ==> RoundTrips(cfg, e);
    DecodableIs(cfg, rs);
    var ds := Decodable(cfg, rs);
    forall i | 0 <= i < |ds|
      ensures z.pending(ds[i].event)
    {
      assert ds[i] in ds;
      assert RoundTrips(cfg, ds[i].event);
    }
    RoundWithin(cfg, w, rs, z);
    DecodeAllKeeps(cfg, w, rs);
    DecodeAllWithin(cfg, w, rs, z);
    if ds != [] {
      var (w2, seen) := Asked(cfg, DecodeAll(cfg, w, rs), ds);
      PersistAllWithin(cfg, w2, ds, seen, z);
    }
  }

  lemma SettledKeyStays(cfg: Config, w: World, w': World, k: string)
    requires Ids(w.sink.db.table) <= Ids(w'.sink.db.table) && forall l :: Noted(w, l) ==> Noted(w', l)
    requires SettledKey(cfg, w, k)
    ensures SettledKey(cfg, w', k)
  {
    if e :| e in w.sink.db.table && e.key == k {
      assert Id(e) in Ids(w'.sink.db.table);
    }
  }

  lemma HereKeyStays(cfg: Config, w: World, w': World, k: string)
    requires Kept(cfg, w, w') && Genuine(cfg, w) && HereKey(cfg, w, k)
    ensures HereKey(cfg, w', k)
  {
    if SettledKey(cfg, w, k) {
      SettledKeyStays(cfg, w, w', k);
    } else {
      var e :| Pending(w, e) && e.key == k;
      assert RoundTrips(cfg, e) && Here(cfg, w', e);
      if Noted(w', PoisonLetter(cfg, e)) {
        assert Carries(cfg, PoisonLetter(cfg, e), k);
      }
    }
  }

  lemma TakenIsHere(cfg: Config, w: World, d: Decoded)
    requires Taken(cfg, w, d) && cfg.decode(d.record.value) == Some(d.event) && RoundTrips(cfg, d.event)
    ensures HereKey(cfg, w, d.event.key)
  {
  }

  /** A key is accounted for when an event with it is settled or pending, or its claim is orphaned. */
  ghost predicate KeyCovered(cfg: Config, n: Node, k: string) {
    HereKey(cfg, n.sys.w, k) || k in n.orphans
  }

  // ---- One batch ------------------------------------------------------------------------------

  /** A record is only dropped as a duplicate when its key was stored before the batch or an earlier
      record of the batch was persisted under it. */
  lemma {:induction false} SeenKeyIsHere(cfg: Config, w: World, rs: seq<Record>, orphans: set<string>, i: nat)
    requires Ok(cfg, w) && Retrying(cfg) && Codec(cfg) && Genuine(cfg, w) && cfg.dedup.Some?
    requires forall k :: k in w.redis.keys ==> HereKey(cfg, w, k) || k in orphans
    requires i < |Decodable(cfg, rs)|
    ensures var k := Decodable(cfg, rs)[i].event.key;
            HereKey(cfg, Handled(cfg, w, rs), k) || k in orphans
    decreases i
  {
    var ds := Decodable(cfg, rs);
    var w1 := DecodeAll(cfg, w, rs);
    var (w2, seen) := Asked(cfg, w1, ds);
    var h := Handled(cfg, w, rs);
    var k := ds[i].event.key;
    DecodeAllKeeps(cfg, w, rs);
    PersistAllKeeps(cfg, w2, ds, seen);
    HandledKeeps(cfg, w, rs);
    if !seen[i] {
      DecodableIs(cfg, rs);
      assert ds[i] in ds;
      assert cfg.decode(ds[i].record.value) == Some(ds[i].event);
      TakenIsHere(cfg, h, ds[i]);
    } else {
      D.SeenEachShape(cfg.dedup.value, w.redis, KeysOf(ds));
      if k in w.redis.keys {
        if HereKey(cfg, w, k) {
          HereKeyStays(cfg, w, h, k);
        }
      } else {
        assert KeysOf(ds)[i] in KeysOf(ds)[..i];
        var j :| 0 <= j < i && KeysOf(ds)[j] == k;
        SeenKeyIsHere(cfg, w, rs, orphans, j);
      }
    }
  }

  /** After a batch, each of its keys and each stored key is accounted for. */
  lemma BatchKeysHere(cfg: Config, w: World, rs: seq<Record>, orphans: set<string>)
    requires Ok(cfg, w) && Retrying(cfg) && Codec(cfg) && Genuine(cfg, w) && cfg.dedup.Some?
    requires forall k :: k in w.redis.keys ==> HereKey(cfg, w, k) || k in orphans
    ensures var h := Handled(cfg, w, rs);
            && (forall k :: k in h.redis.keys ==> HereKey(cfg, h, k) || k in orphans)
            && (forall d :: d in Decodable(cfg, rs) ==> HereKey(cfg, h, d.event.key) || d.event.key in orphans)
  {
    var ds := Decodable(cfg, rs);
    var h := Handled(cfg, w, rs);
    HandledKeeps(cfg, w, rs);
    DecodeAllKeeps(cfg, w, rs);
    forall d | d in ds
      ensures HereKey(cfg, h, d.event.key) || d.event.key in orphans
    {
      var i :| 0 <= i < |ds| && ds[i] == d;
      SeenKeyIsHere(cfg, w, rs, orphans, i);
    }
    HandledRedis(cfg, w, rs);
    forall k | k in h.redis.keys
      ensures HereKey(cfg, h, k) || k in orphans
    {
      if k in w.redis.keys {
        if HereKey(cfg, w, k) {
          HereKeyStays(cfg, w, h, k);
        }
      } else {
        assert HasKey(ds, k);
      }
    }
  }

  ghost predicate HasKey(ds: seq<Decoded>, k: string) {
    exists d :: d in ds && d.event.key == k
  }

  /** Only keys of the batch are claimed by it. */
  lemma HandledRedis(cfg: Config, w: World, rs: seq<Record>)
    requires Ok(cfg, w) && Retrying(cfg) && cfg.dedup.Some?
    ensures var h := Handled(cfg, w, rs);
            var ds := Decodable(cfg, rs);
            && w.redis.keys.Keys <= h.redis.keys.Keys
            && (forall k :: k in h.redis.keys ==> k in w.redis.keys || HasKey(ds, k))
  {
    var ds := Decodable(cfg, rs);
    DecodeAllKeeps(cfg, w, rs);
    if ds != [] {
      var (w2, seen) := Asked(cfg, DecodeAll(cfg, w, rs), ds);
      PersistAllKeeps(cfg, w2, ds, seen);
      D.SeenEachShape(cfg.dedup.value, w.redis, KeysOf(ds));
      var h := Handled(cfg, w, rs);
      forall k | k in h.redis.keys
        ensures k in w.redis.keys || HasKey(ds, k)
      {
        if k !in w.redis.keys {
          assert k in KeysOf(ds);
          var i :| 0 <= i < |ds| && KeysOf(ds)[i] == k;
          assert ds[i] in ds && ds[i].event.key == k;
        }
      }
    }
  }

  // ---- Every run --------------------------------------------------------------------------------

  ghost predicate RecordCovered(cfg: Config, n: Node, r: Record) {
    match cfg.decode(r.value)
    case None => Noted(n.sys.w, RawLetter(r))
    case Some(e) => KeyCovered(cfg, n, e.key)
  }

  ghost predicate RecordSettled(cfg: Config, n: Node, r: Record) {
    match cfg.decode(r.value)
    case None => Noted(n.sys.w, RawLetter(r))
    case Some(e) => SettledKey(cfg, n.sys.w, e.key) || e.key in n.orphans
  }

  ghost predicate ClaimsInv(cfg: Config, n: Node) {
    var b := n.sys.broker;
    && Ok(cfg, n.sys.w) && Genuine(cfg, n.sys.w) && BrokerOk(b)
    && (forall k :: k in n.sys.w.redis.keys ==> KeyCovered(cfg, n, k))
    && (forall p, o :: p in b.log && 0 <= o < b.position[p] ==> RecordCovered(cfg, n, b.log[p][o]))
    && (forall p, o :: p in b.log && 0 <= o < b.committed[p] ==> RecordSettled(cfg, n, b.log[p][o]))
  }

  lemma CoveredStays(cfg: Config, n: Node, n': Node, r: Record)
    requires Kept(cfg, n.sys.w, n'.sys.w) && Genuine(cfg, n.sys.w) && n.orphans <= n'.orphans
    requires RecordCovered(cfg, n, r)
    ensures RecordCovered(cfg, n', r)
  {
    if cfg.decode(r.value).Some? {
      var k := cfg.decode(r.value).value.key;
      if HereKey(cfg, n.sys.w, k) {
        HereKeyStays(cfg, n.sys.w, n'.sys.w, k);
      }
    }
  }

  lemma SettledStays(cfg: Config, n: Node, n': Node, r: Record)
    requires Ids(n.sys.w.sink.db.table) <= Ids(n'.sys.w.sink.db.table)
    requires forall l :: Noted(n.sys.w, l) ==> Noted(n'.sys.w, l)
    requires n.orphans <= n'.orphans && RecordSettled(cfg, n, r)
    ensures RecordSettled(cfg, n', r)
  {
    if cfg.decode(r.value).Some? {
      var k := cfg.decode(r.value).value.key;
      if SettledKey(cfg, n.sys.w, k) {
        SettledKeyStays(cfg, n.sys.w, n'.sys.w, k);
      }
    }
  }

  lemma NewRecordCovered(cfg: Config, n: Node, rs: seq<Record>, r: Record, n': Node)
    requires ClaimsInv(cfg, n) && Retrying(cfg) && Codec(cfg) && cfg.dedup.Some? && r in rs
    requires n'.sys.w == Round(cfg, n.sys.w, rs).0 && n'.orphans == n.orphans
    ensures RecordCovered(cfg, n', r)
  {
    var h := Handled(cfg, n.sys.w, rs);
    HandledKeeps(cfg, n.sys.w, rs);
    RoundKeeps(cfg, n.sys.w, rs);
    RoundGenuine(cfg, n.sys.w, rs);
    if cfg.decode(r.value).Some? {
      DecodableHas(cfg, rs, r);
      BatchKeysHere(cfg, n.sys.w, rs, n.orphans);
    }
    assert RecordCovered(cfg, n.(sys := n.sys.(w := h)), r);
    CoveredStays(cfg, n.(sys := n.sys.(w := h)), n', r);
  }

  lemma StoredKeysCovered(cfg: Config, n: Node, rs: seq<Record>, n': Node)
    requires ClaimsInv(cfg, n) && Retrying(cfg) && Codec(cfg) && cfg.dedup.Some?
    requires n'.sys.w == Round(cfg, n.sys.w, rs).0 && n'.orphans == n.orphans
    ensures forall k :: k in n'.sys.w.redis.keys ==> KeyCovered(cfg, n', k)
  {
    var h := Handled(cfg, n.sys.w, rs);
    RoundKeeps(cfg, n.sys.w, rs);
    RoundGenuine(cfg, n.sys.w, rs);
    BatchKeysHere(cfg, n.sys.w, rs, n.orphans);
    forall k | k in n'.sys.w.redis.keys
      ensures KeyCovered(cfg, n', k)
    {
      if HereKey(cfg, h, k) {
        HereKeyStays(cfg, h, n'.sys.w, k);
      }
    }
  }

  lemma LiveKeepsClaims(cfg: Config, n: Node, turn: Turn)
    requires ClaimsInv(cfg, n) && Retrying(cfg) && Codec(cfg) && cfg.dedup.Some?
    ensures ClaimsInv(cfg, Step(cfg, n, Live(turn)))
  {
    PolledFacts(n.sys.broker, turn);
    var (b, rs) := Fetched(Rewound(n.sys.broker, turn.rewinds), turn.chunks);
    var (w, commit) := Round(cfg, n.sys.w, rs);
    RoundKeeps(cfg, n.sys.w, rs);
    RoundGenuine(cfg, n.sys.w, rs);
    var n' := Step(cfg, n, Live(turn));
    StoredKeysCovered(cfg, n, rs, n');
    forall p, o | p in b.log && 0 <= o < b.position[p]
      ensures RecordCovered(cfg, n', b.log[p][o])
    {
      if o < n.sys.broker.position[p] {
        CoveredStays(cfg, n, n', b.log[p][o]);
      } else {
        NewRecordCovered(cfg, n, rs, b.log[p][o], n');
      }
    }
    forall p, o | p in b.log && 0 <= o < n'.sys.broker.committed[p]
      ensures RecordSettled(cfg, n', b.log[p][o])
    {
      if o < n.sys.broker.committed[p] {
        SettledStays(cfg, n, n', b.log[p][o]);
      } else {
        assert commit && RecordCovered(cfg, n', b.log[p][o]);
      }
    }
  }

  lemma CrashKeepsClaims(cfg: Config, n: Node, turn: Turn, last: Replies)
    requires ClaimsInv(cfg, n) && Retrying(cfg)
    ensures ClaimsInv(cfg, Step(cfg, n, Crash(turn, last)))
  {
    PolledFacts(n.sys.broker, turn);
    DyingKeeps(cfg, n.sys, turn, last);
    DurableGrows(cfg, n.sys, turn, last);
    var b, n' := n.sys.broker, Step(cfg, n, Crash(turn, last));
    forall p, o | p in b.log && 0 <= o < b.committed[p]
      ensures RecordSettled(cfg, n', b.log[p][o]) && RecordCovered(cfg, n', b.log[p][o])
    {
      SettledStays(cfg, n, n', b.log[p][o]);
    }
  }

  lemma StepKeepsClaims(cfg: Config, n: Node, life: Life)
    requires ClaimsInv(cfg, n) && Retrying(cfg) && Codec(cfg) && cfg.dedup.Some?
    ensures ClaimsInv(cfg, Step(cfg, n, life)) && n.orphans <= Step(cfg, n, life).orphans
  {
    match life
    case Live(turn) => LiveKeepsClaims(cfg, n, turn);
    case Crash(turn, last) => CrashKeepsClaims(cfg, n, turn, last);
  }

  lemma {:induction false} RunKeepsClaims(cfg: Config, n: Node, lives: seq<Life>)
    requires ClaimsInv(cfg, n) && Retrying(cfg) && Codec(cfg) && cfg.dedup.Some?
    ensures ClaimsInv(cfg, Reach(cfg, n, lives)) && n.orphans <= Reach(cfg, n, lives).orphans
    decreases |lives|
  {
    if lives != [] {
      StepKeepsClaims(cfg, n, lives[0]);
      RunKeepsClaims(cfg, Step(cfg, n, lives[0]), lives[1..]);
    }
  }

  /** With dedup on, from an empty key store: every committed decodable record has an event with
      its key stored, dead-lettered or logged as dropped, unless a crash orphaned that key. */
  lemma CommittedOrOrphaned(cfg: Config, s: System, lives: seq<Life>)
    requires Fresh(cfg, s) && s.w.redis.keys == map[] && Retrying(cfg) && Codec(cfg) && cfg.dedup.Some?
    ensures var f := Reach(cfg, Begin(s), lives);
            && BrokerOk(f.sys.broker)
            && (forall p, o :: p in f.sys.broker.log && 0 <= o < f.sys.broker.committed[p] ==>
                  RecordSettled(cfg, f, f.sys.broker.log[p][o]))
  {
    RunKeepsClaims(cfg, Begin(s), lives);
  }

  // ---- Where orphans come from ----------------------------------------------------------------

  /** The replies of a dying round do not change what counts as settled. */
  lemma UnderKeys(cfg: Config, last: Replies, w: World, k: string)
    ensures SettledKey(Under(cfg, last), w, k) == SettledKey(cfg, w, k)
    ensures HereKey(Under(cfg, last), w, k) == HereKey(cfg, w, k)
  {
    assert forall l :: Carries(Under(cfg, last), l, k) == Carries(cfg, l, k);
  }

  lemma UnderGenuine(cfg: Config, last: Replies, w: World)
    requires Codec(cfg) && Genuine(cfg, w)
    ensures Codec(Under(cfg, last)) && Genuine(Under(cfg, last), w)
  {
    var c := Under(cfg, last);
    assert forall e :: RoundTrips(c, e) == RoundTrips(cfg, e);
    forall v: string | c.decode(v).Some?
      ensures RoundTrips(c, c.decode(v).value)
    {
      assert cfg.decode(v).Some?;
    }
  }

  /** Dedup in front of a sink that never makes Run withhold a commit and whose retry loops run. */
  ghost predicate Orderly(cfg: Config) {
    Retrying(cfg) && Codec(cfg) && cfg.dedup.Some? && !CanWithhold(cfg)
  }

  /** At the end of a dying round of such a sink every claimed key is settled or orphaned already, if
      what the round logged as dropped did count. */
  lemma DyingCovers(cfg: Config, n: Node, turn: Turn, last: Replies, k: string)
    requires ClaimsInv(cfg, n) && Orderly(cfg)
    requires k in Dying(cfg, n.sys, turn, last).redis.keys
    ensures SettledKey(cfg, Dying(cfg, n.sys, turn, last), k) || k in n.orphans
  {
    var c, rs := Under(cfg, last), Polled(n.sys, turn);
    UnderGenuine(cfg, last, n.sys.w);
    forall j | j in n.sys.w.redis.keys
      ensures HereKey(c, n.sys.w, j) || j in n.orphans
    {
      assert KeyCovered(cfg, n, j);
      UnderKeys(cfg, last, n.sys.w, j);
    }
    RoundKeeps(c, n.sys.w, rs);
    RoundGenuine(c, n.sys.w, rs);
    BatchKeysHere(c, n.sys.w, rs, n.orphans);
    if HereKey(c, Handled(c, n.sys.w, rs), k) {
      HereKeyStays(c, Handled(c, n.sys.w, rs), Round(c, n.sys.w, rs).0, k);
      UnderKeys(cfg, last, Dying(cfg, n.sys, turn, last), k);
    }
  }

  /** The dying round claimed `k`, and its flush and poison drain did not get an event with `k` off
      its hands: all it could do was to log the loss, and the log of a dying round does not count. */
  ghost predicate DyingClaim(cfg: Config, n: Node, life: Life, k: string) {
    life.Crash? &&
    var w := Dying(cfg, n.sys, life.turn, life.last);
    && k in w.redis.keys && k !in n.sys.w.redis.keys
    && (exists l :: l in w.dropped && l !in n.sys.w.dropped && Carries(cfg, l, k))
  }

  /** From a state with nothing pending a crash can only orphan keys that the dying round claimed
      without finishing with them. */
  lemma OrphansAreNewClaims(cfg: Config, n: Node, turn: Turn, last: Replies, k: string)
    requires Idle(cfg, n) && Orderly(cfg)
    requires k in Step(cfg, n, Crash(turn, last)).orphans && k !in n.orphans
    ensures DyingClaim(cfg, n, Crash(turn, last), k)
  {
    var w, w' := Dying(cfg, n.sys, turn, last), Crashed(cfg, n.sys, turn, last).w;
    DurableGrows(cfg, n.sys, turn, last);
    if k in n.sys.w.redis.keys {
      assert KeyCovered(cfg, n, k);
      SettledKeyStays(cfg, n.sys.w, w', k);
    }
    DyingCovers(cfg, n, turn, last, k);
    var l :| Noted(w, l) && Carries(cfg, l, k);
    assert !Noted(w', l);
  }

  /** Between the rounds of such a sink nothing is pending. */
  ghost predicate Idle(cfg: Config, n: Node) {
    ClaimsInv(cfg, n) && n.sys.w.sink.buffer == [] && n.sys.w.sink.poisoned == []
  }

  lemma StepKeepsIdle(cfg: Config, n: Node, life: Life)
    requires Idle(cfg, n) && Orderly(cfg)
    ensures Idle(cfg, Step(cfg, n, life))
  {
    match life
    case Live(turn) =>
      LiveKeepsClaims(cfg, n, turn);
      RoundKeeps(cfg, n.sys.w, Polled(n.sys, turn));
    case Crash(turn, last) => CrashKeepsClaims(cfg, n, turn, last);
  }

  lemma {:induction false} OrphansAreDyingClaims(cfg: Config, n: Node, lives: seq<Life>, k: string) returns (i: nat)
    requires Orderly(cfg) && Idle(cfg, n)
    requires k in Reach(cfg, n, lives).orphans && k !in n.orphans
    ensures i < |lives| && DyingClaim(cfg, Reach(cfg, n, lives[..i]), lives[i], k)
    decreases |lives|
  {
    if lives[0].Crash? && k in Step(cfg, n, lives[0]).orphans {
      OrphansAreNewClaims(cfg, n, lives[0].turn, lives[0].last, k);
      i := 0;
    } else {
      StepKeepsIdle(cfg, n, lives[0]);
      var j := OrphansAreDyingClaims(cfg, Step(cfg, n, lives[0]), lives[1..], k);
      ReachPrefix(cfg, n, lives, j);
      i := j + 1;
    }
  }

  lemma ReachPrefix(cfg: Config, n: Node, lives: seq<Life>, j: nat)
    requires j < |lives|
    ensures Reach(cfg, n, lives[..j + 1]) == Reach(cfg, Step(cfg, n, lives[0]), lives[1..][..j])
  {
    assert lives[..j + 1][1..] == lives[1..][..j];
  }

  // ---- The claims that crashes lose, for every sink -------------------------------------------

  /** The states of a run, one more than it has steps. */
  ghost function Trail(cfg: Config, n: Node, lives: seq<Life>): (ns: seq<Node>)
    ensures |ns| == |lives| + 1
  {
    seq(|lives| + 1, m requires 0 <= m <= |lives| => Reach(cfg, n, lives[..m]))
  }

  /** The round ended without a commit, because its flush failed. */
  ghost predicate Withheld(cfg: Config, n: Node, life: Life) {
    life.Live? && !Round(cfg, n.sys.w, Polled(n.sys, life.turn)).1
  }

  /** Along a run with the states `ns`: round i claimed `k` for the first time, none of the rounds from it
      up to j got as far as its commit, and round j crashed and left no event with `k` settled. */
  ghost predicate LostClaim(cfg: Config, ns: seq<Node>, lives: seq<Life>, i: nat, j: nat, k: string)
    requires |ns| == |lives| + 1
  {
    && i <= j < |lives|
    && k !in ns[i].sys.w.redis.keys && k in ns[i + 1].sys.w.redis.keys
    && (forall m :: i <= m < j ==> Withheld(cfg, ns[m], lives[m]))
    && lives[j].Crash? && !SettledKey(cfg, ns[j + 1].sys.w, k)
  }

  lemma {:induction false} ReachOneMore(cfg: Config, n: Node, lives: seq<Life>, last: Life)
    ensures Reach(cfg, n, lives + [last]) == Step(cfg, Reach(cfg, n, lives), last)
    decreases |lives|
  {
    if lives == [] {
      assert [] + [last] == [last] && [last][1..] == [];
      assert Reach(cfg, n, [last]) == Reach(cfg, Step(cfg, n, last), []);
    } else {
      ReachOneMore(cfg, Step(cfg, n, lives[0]), lives[1..], last);
      assert (lives + [last])[1..] == lives[1..] + [last];
    }
  }

  /** `k` is claimed, but neither settled nor given up by a crash. */
  ghost predicate Open(cfg: Config, n: Node, k: string) {
    k in n.sys.w.redis.keys && !SettledKey(cfg, n.sys.w, k) && k !in n.orphans
  }

  /** What one step says about `k` in the state before it. Claims stay. A claim can only be open after a
      round that withheld its commit, and only a crash orphans it, leaving it unsettled; in both cases
      the step made the claim or the claim was open before. */
  ghost predicate Traces(cfg: Config, n: Node, life: Life, n': Node, k: string) {
    var open := k !in n.sys.w.redis.keys || Open(cfg, n, k);
    && (k in n.sys.w.redis.keys ==> k in n'.sys.w.redis.keys)
    && (k in n.orphans ==> k in n'.orphans)
    && (Open(cfg, n', k) ==> Withheld(cfg, n, life) && open)
    && (k in n'.orphans && k !in n.orphans ==> k in n'.sys.w.redis.keys && open)
    && (k in n'.orphans && k !in n.orphans ==> life.Crash? && !SettledKey(cfg, n'.sys.w, k))
    && (life.Crash? && k in n'.sys.w.redis.keys && !SettledKey(cfg, n'.sys.w, k) ==> k in n'.orphans)
  }

  lemma StepKeepsKeys(cfg: Config, n: Node, life: Life)
    requires Ok(cfg, n.sys.w) && Retrying(cfg) && cfg.dedup.Some?
    ensures n.sys.w.redis.keys.Keys <= Step(cfg, n, life).sys.w.redis.keys.Keys
  {
    var c := if life.Live? then cfg else Under(cfg, life.last);
    RoundKeeps(c, n.sys.w, Polled(n.sys, life.turn));
    HandledRedis(c, n.sys.w, Polled(n.sys, life.turn));
  }

  lemma StepTraces(cfg: Config, n: Node, life: Life, k: string)
    requires ClaimsInv(cfg, n) && Retrying(cfg) && Codec(cfg) && cfg.dedup.Some?
    ensures Traces(cfg, n, life, Step(cfg, n, life), k)
  {
    var n' := Step(cfg, n, life);
    StepKeepsKeys(cfg, n, life);
    StepKeepsClaims(cfg, n, life);
    if life.Live? {
      RoundKeeps(cfg, n.sys.w, Polled(n.sys, life.turn));
    } else {
      DurableGrows(cfg, n.sys, life.turn, life.last);
    }
    if SettledKey(cfg, n.sys.w, k) {
      SettledKeyStays(cfg, n.sys.w, n'.sys.w, k);
    }
    assert k in n'.sys.w.redis.keys ==> KeyCovered(cfg, n', k);
  }

  ghost predicate Traced(cfg: Config, ns: seq<Node>, lives: seq<Life>, k: string) {
    |ns| == |lives| + 1 && forall l :: 0 <= l < |lives| ==> Traces(cfg, ns[l], lives[l], ns[l + 1], k)
  }

  lemma RunIsTraced(cfg: Config, n: Node, lives: seq<Life>, k: string)
    requires ClaimsInv(cfg, n) && Retrying(cfg) && Codec(cfg) && cfg.dedup.Some?
    ensures Traced(cfg, Trail(cfg, n, lives), lives, k)
  {
    var ns := Trail(cfg, n, lives);
    forall l | 0 <= l < |lives|
      ensures Traces(cfg, ns[l], lives[l], ns[l + 1], k)
    {
      RunKeepsClaims(cfg, n, lives[..l]);
      assert lives[..l + 1] == lives[..l] + [lives[l]];
      ReachOneMore(cfg, n, lives[..l], lives[l]);
      StepTraces(cfg, ns[l], lives[l], k);
    }
  }

  lemma {:induction false} OpenHasClaim(cfg: Config, ns: seq<Node>, lives: seq<Life>, m: nat, k: string)
    returns (i: nat)
    requires Traced(cfg, ns, lives, k) && m <= |lives| && Open(cfg, ns[m], k) && k !in ns[0].sys.w.redis.keys
    ensures i < m && k !in ns[i].sys.w.redis.keys && k in ns[i + 1].sys.w.redis.keys
    ensures forall l :: i <= l < m ==> Withheld(cfg, ns[l], lives[l])
    decreases m
  {
    assert Traces(cfg, ns[m - 1], lives[m - 1], ns[m], k);
    if k !in ns[m - 1].sys.w.redis.keys {
      i := m - 1;
    } else {
      i := OpenHasClaim(cfg, ns, lives, m - 1, k);
    }
  }

  lemma {:induction false} OrphanHasClaim(cfg: Config, ns: seq<Node>, lives: seq<Life>, m: nat, k: string)
    returns (i: nat, j: nat)
    requires Traced(cfg, ns, lives, k) && m <= |lives|
    requires k in ns[m].orphans && k !in ns[0].orphans && k !in ns[0].sys.w.redis.keys
    ensures LostClaim(cfg, ns, lives, i, j, k)
    decreases m
  {
    assert Traces(cfg, ns[m - 1], lives[m - 1], ns[m], k);
    if k in ns[m - 1].orphans {
      i, j := OrphanHasClaim(cfg, ns, lives, m - 1, k);
    } else {
      i, j := m - 1, m - 1;
      if k in ns[j].sys.w.redis.keys {
        i := OpenHasClaim(cfg, ns, lives, j, k);
      }
    }
  }

  lemma {:induction false} ClaimStays(cfg: Config, ns: seq<Node>, lives: seq<Life>, i: nat, m: nat, k: string)
    requires Traced(cfg, ns, lives, k) && i <= m <= |lives|
    ensures k in ns[i].sys.w.redis.keys ==> k in ns[m].sys.w.redis.keys
    ensures k in ns[i].orphans ==> k in ns[m].orphans
    decreases m
  {
    if i < m {
      ClaimStays(cfg, ns, lives, i, m - 1, k);
      assert Traces(cfg, ns[m - 1], lives[m - 1], ns[m], k);
    }
  }

  lemma LostClaimIsOrphan(cfg: Config, ns: seq<Node>, lives: seq<Life>, i: nat, j: nat, k: string)
    requires Traced(cfg, ns, lives, k) && LostClaim(cfg, ns, lives, i, j, k)
    ensures k in ns[|lives|].orphans
  {
    ClaimStays(cfg, ns, lives, i + 1, j + 1, k);
    assert Traces(cfg, ns[j], lives[j], ns[j + 1], k);
    ClaimStays(cfg, ns, lives, j + 1, |lives|, k);
  }

  lemma NeverWithheld(cfg: Config, n: Node, life: Life)
    requires !CanWithhold(cfg)
    ensures !Withheld(cfg, n, life)
  {
  }

  /** Unless the sink can make Run withhold a commit, it is the crashed round itself that made the claim. */
  lemma OneRoundLoses(cfg: Config, ns: seq<Node>, lives: seq<Life>, i: nat, j: nat, k: string)
    requires |ns| == |lives| + 1 && LostClaim(cfg, ns, lives, i, j, k) && !CanWithhold(cfg)
    ensures i == j
  {
    NeverWithheld(cfg, ns[i], lives[i]);
  }

  /** For every sink and every run: the keys that crashes orphaned are exactly the lost claims. Without a
      sink that can make Run withhold a commit, these are claims of the crashed rounds themselves. */
  lemma OrphansAreLostClaims(cfg: Config, n: Node, lives: seq<Life>, k: string)
    requires ClaimsInv(cfg, n) && Retrying(cfg) && Codec(cfg) && cfg.dedup.Some?
    requires k !in n.orphans && k !in n.sys.w.redis.keys
    ensures k in Reach(cfg, n, lives).orphans
       <==> exists i: nat, j: nat :: LostClaim(cfg, Trail(cfg, n, lives), lives, i, j, k)
    ensures !CanWithhold(cfg) ==>
              (k in Reach(cfg, n, lives).orphans
               <==> exists i: nat :: LostClaim(cfg, Trail(cfg, n, lives), lives, i, i, k))
  {
    RunIsTraced(cfg, n, lives, k);
    var ns := Trail(cfg, n, lives);
    assert lives[..|lives|] == lives && lives[..0] == [];
    assert ns[|lives|] == Reach(cfg, n, lives) && ns[0] == n;
    TracedLosses(cfg, ns, lives, k);
    if i: nat, j: nat :| LostClaim(cfg, ns, lives, i, j, k) {
      if !CanWithhold(cfg) {
        OneRoundLoses(cfg, ns, lives, i, j, k);
      }
    }
  }

  lemma TracedLosses(cfg: Config, ns: seq<Node>, lives: seq<Life>, k: string)
    requires Traced(cfg, ns, lives, k) && k !in ns[0].orphans && k !in ns[0].sys.w.redis.keys
    ensures k in ns[|lives|].orphans <==> exists i: nat, j: nat :: LostClaim(cfg, ns, lives, i, j, k)
  {
    if k in ns[|lives|].orphans {
      var i, j := OrphanHasClaim(cfg, ns, lives, |lives|, k);
    }
    if i: nat, j: nat :| LostClaim(cfg, ns, lives, i, j, k) {
      LostClaimIsOrphan(cfg, ns, lives, i, j, k);
    }
  }

  /** With dedup on, from an empty key store, over every run and for every sink: a committed decodable
      record has an event with its key stored, dead-lettered or logged as dropped, unless its key is a
      lost claim. For a sink that cannot make Run withhold a commit, the claim was made by the very round
      that crashed, before its flush and poison drain were through with it. */
  lemma CommittedUnlessDyingClaim(cfg: Config, s: System, lives: seq<Life>, p: int, o: nat)
    requires Fresh(cfg, s) && s.w.redis.keys == map[] && Retrying(cfg) && Codec(cfg) && cfg.dedup.Some?
    requires Below(cfg, Reach(cfg, Begin(s), lives).sys, p, o)
    ensures var f := Reach(cfg, Begin(s), lives);
            var k := KeyAt(cfg, f.sys, p, o);
            || SettledKey(cfg, f.sys.w, k)
            || exists i: nat, j: nat :: LostClaim(cfg, Trail(cfg, Begin(s), lives), lives, i, j, k)
    ensures var f := Reach(cfg, Begin(s), lives);
            var k := KeyAt(cfg, f.sys, p, o);
            || SettledKey(cfg, f.sys.w, k) || CanWithhold(cfg)
            || exists i :: 0 <= i < |lives| && DyingClaim(cfg, Trail(cfg, Begin(s), lives)[i], lives[i], k)
  {
    RunKeepsClaims(cfg, Begin(s), lives);
    var f := Reach(cfg, Begin(s), lives);
    var k := KeyAt(cfg, f.sys, p, o);
    assert RecordSettled(cfg, f, f.sys.broker.log[p][o]);
    OrphansAreLostClaims(cfg, Begin(s), lives, k);
    if k in f.orphans && !CanWithhold(cfg) {
      var i := OrphansAreDyingClaims(cfg, Begin(s), lives, k);
      assert DyingClaim(cfg, Trail(cfg, Begin(s), lives)[i], lives[i], k);
    }
  }

  /** Offset `o` of partition `p` is committed and holds a decodable record. */
  ghost predicate Below(cfg: Config, s: System, p: int, o: nat) {
    && p in s.broker.log && p in s.broker.committed && o < s.broker.committed[p] && o < |s.broker.log[p]|
    && cfg.decode(s.broker.log[p][o].value).Some?
  }

  ghost function KeyAt(cfg: Config, s: System, p: int, o: nat): string
    requires Below(cfg, s, p, o)
  {
    cfg.decode(s.broker.log[p][o].value).value.key
  }

  // ---- A store that fails only with the process ---------------------------------------------------

  /** The store answers all claims of the batch. */
  ghost predicate Answers(cfg: Config, w: World, rs: seq<Record>) {
    cfg.dedup.Some? && D.SeenEach(cfg.dedup.value, w.redis, KeysOf(Decodable(cfg, rs))).1.Some?
  }

  /** The process dies after n claims of the batch, all of them answered, and before any write. */
  ghost predicate DiesClaiming(cfg: Config, w: World, rs: seq<Record>, n: nat) {
    && R.InRound(cfg, w, rs, R.Claiming(n)) && X.Dead(cfg, R.At(cfg, w, rs, R.Claiming(n)))
    && D.SeenEach(cfg.dedup.value, w.redis, KeysOf(Decodable(cfg, rs))[..n]).1.Some?
  }

  /** Live rounds get their answers; a dying one gets them, or dies before or while it claims. */
  ghost predicate FaithfulStep(cfg: Config, n: Node, life: Life) {
    var rs := Polled(n.sys, life.turn);
    match life
    case Live(_) => Answers(cfg, n.sys.w, rs)
    case Crash(_, last) =>
      var c := Under(cfg, last);
      Answers(c, n.sys.w, rs) || exists m: nat :: DiesClaiming(c, n.sys.w, rs, m)
  }

  ghost predicate FaithfulRun(cfg: Config, n: Node, lives: seq<Life>)
    decreases |lives|
  {
    lives == [] || (FaithfulStep(cfg, n, lives[0]) && FaithfulRun(cfg, Step(cfg, n, lives[0]), lives[1..]))
  }

  /** No stored key ever expires. */
  ghost predicate Remembers(cfg: Config, w: World) {
    cfg.dedup.Some? && D.Lasting(cfg.dedup.value, w.redis.keys)
  }

  ghost function BatchKeys(cfg: Config, rs: seq<Record>): set<string> {
    set k | k in KeysOf(Decodable(cfg, rs))
  }

  lemma RoundClaims(cfg: Config, w: World, rs: seq<Record>)
    requires Ok(cfg, w) && Retrying(cfg) && Remembers(cfg, w) && Answers(cfg, w, rs)
    ensures var w' := Round(cfg, w, rs).0;
            Remembers(cfg, w') && w'.redis.keys.Keys == w.redis.keys.Keys + BatchKeys(cfg, rs)
  {
    var ds := Decodable(cfg, rs);
    RoundKeeps(cfg, w, rs);
    DecodeAllKeeps(cfg, w, rs);
    D.SeenBatchMeans(cfg.dedup.value, w.redis, KeysOf(ds));
    if ds != [] {
      var (w2, seen) := Asked(cfg, DecodeAll(cfg, w, rs), ds);
      PersistAllKeeps(cfg, w2, ds, seen);
    }
  }

  /** A process that dies while it claims leaves the claims it made, the letters of undecodable records
      and nothing else. */
  lemma DeathWhileClaiming(cfg: Config, w: World, rs: seq<Record>, n: nat)
    requires Remembers(cfg, w) && DiesClaiming(cfg, w, rs, n)
    ensures var w' := Round(cfg, w, rs).0;
            && w'.sink.db.table == w.sink.db.table && w'.dlq.letters == DecodeAll(cfg, w, rs).dlq.letters
            && w'.redis.keys.Keys == w.redis.keys.Keys + (set k | k in KeysOf(Decodable(cfg, rs))[..n])
            && Remembers(cfg, w')
  {
    DecodeAllKeeps(cfg, w, rs);
    R.DeathLeavesThePoint(cfg, w, rs, R.Claiming(n));
    D.SeenBatchMeans(cfg.dedup.value, w.redis, KeysOf(Decodable(cfg, rs))[..n]);
  }

  /** The dedup store answers every request and forgets nothing. */
  ghost predicate Faithful(cfg: Config, w: World) {
    Remembers(cfg, w) && forall t: nat :: cfg.dedup.value.outcome(t).Done?
  }

  lemma FaithfulAnswers(cfg: Config, w: World, rs: seq<Record>)
    requires Faithful(cfg, w)
    ensures Answers(cfg, w, rs)
  {
    DoneAnswers(cfg.dedup.value, w.redis, KeysOf(Decodable(cfg, rs)));
  }

  lemma {:induction false} DoneAnswers(c: D.Config, r: D.Redis, keys: seq<string>)
    requires forall t: nat :: c.outcome(t).Done?
    ensures D.SeenEach(c, r, keys).1.Some?
    decreases |keys|
  {
    if keys != [] {
      DoneAnswers(c, D.SeenOne(c, r, keys[0]).0, keys[1..]);
    }
  }

  // ---- Keys without any event ----------------------------------------------------------------------

  ghost function Without(cfg: Config, k: string): Zone {
    Zone((e: Event) => e.key != k && RoundTrips(cfg, e), (e: Event) => e.key != k, (l: Letter) => !Carries(cfg, l, k))
  }

  lemma AbsentMeansWithin(cfg: Config, w: World, k: string)
    requires Genuine(cfg, w)
    ensures !HereKey(cfg, w, k) <==> Within(w, Without(cfg, k))
  {
  }

  /** A round that answers "seen" for `k`, or has no record with it, brings no event with it. */
  lemma NotAdmitted(cfg: Config, w: World, rs: seq<Record>, k: string)
    requires Codec(cfg) && Remembers(cfg, w) && Answers(cfg, w, rs)
    requires k in w.redis.keys || k !in BatchKeys(cfg, rs)
    ensures Admits(cfg, w, rs, Without(cfg, k))
  {
    var z := Without(cfg, k);
    var ds := Decodable(cfg, rs);
    DecodableIs(cfg, rs);
    D.SeenBatchMeans(cfg.dedup.value, w.redis, KeysOf(ds));
    var seen := Asked(cfg, w, ds).1;
    forall i | 0 <= i < |ds| && !seen[i]
      ensures z.pending(ds[i].event) && z.letter(RawLetter(ds[i].record))
    {
      assert ds[i] in ds;
      assert KeysOf(ds)[i] == ds[i].event.key;
      assert RoundTrips(cfg, ds[i].event);
    }
  }

  lemma AbsentInRound(cfg: Config, w: World, rs: seq<Record>, k: string)
    requires Ok(cfg, w) && Retrying(cfg) && Codec(cfg) && Genuine(cfg, w) && !HereKey(cfg, w, k)
    requires Remembers(cfg, w) && Answers(cfg, w, rs) && (k in w.redis.keys || k !in BatchKeys(cfg, rs))
    ensures !HereKey(cfg, Round(cfg, w, rs).0, k)
  {
    AbsentMeansWithin(cfg, w, k);
    NotAdmitted(cfg, w, rs, k);
    RoundWithin(cfg, w, rs, Without(cfg, k));
    RoundGenuine(cfg, w, rs);
    AbsentMeansWithin(cfg, Round(cfg, w, rs).0, k);
  }

  /** `k` is claimed, and no event with it is anywhere. */
  ghost predicate Lost(cfg: Config, w: World, k: string) {
    k in w.redis.keys && !HereKey(cfg, w, k)
  }

  /** A claimed key without an event stays so: every further record with it is dropped. */
  lemma LostInRound(cfg: Config, w: World, rs: seq<Record>, k: string)
    requires Ok(cfg, w) && Retrying(cfg) && Codec(cfg) && Genuine(cfg, w) && Lost(cfg, w, k)
    requires Remembers(cfg, w) && Answers(cfg, w, rs)
    ensures Lost(cfg, Round(cfg, w, rs).0, k)
  {
    AbsentInRound(cfg, w, rs, k);
    RoundClaims(cfg, w, rs);
  }

  lemma AbsentInDeath(cfg: Config, w: World, rs: seq<Record>, n: nat, k: string)
    requires Codec(cfg) && Genuine(cfg, w) && Remembers(cfg, w) && DiesClaiming(cfg, w, rs, n) && !HereKey(cfg, w, k)
    ensures var w' := Round(cfg, w, rs).0;
            && (forall e :: e in w'.sink.db.table ==> e.key != k)
            && (forall l :: l in w'.dlq.letters || l in w.dropped ==> !Carries(cfg, l, k))
  {
    DeathWhileClaiming(cfg, w, rs, n);
    AbsentMeansWithin(cfg, w, k);
    DecodeAllWithin(cfg, w, rs, Without(cfg, k));
    assert forall l :: l in DecodeAll(cfg, w, rs).dlq.letters ==> Noted(DecodeAll(cfg, w, rs), l);
    assert forall l :: l in w.dropped ==> Noted(w, l);
  }

  lemma AbsentAfterDeath(cfg: Config, s: System, turn: Turn, last: Replies, m: nat, k: string)
    requires Codec(cfg) && Genuine(cfg, s.w) && Remembers(cfg, s.w) && !HereKey(cfg, s.w, k)
    requires DiesClaiming(Under(cfg, last), s.w, Polled(s, turn), m)
    ensures !HereKey(cfg, Crashed(cfg, s, turn, last).w, k)
  {
    var c := Under(cfg, last);
    UnderKeys(cfg, last, s.w, k);
    UnderGenuine(cfg, last, s.w);
    AbsentInDeath(c, s.w, Polled(s, turn), m, k);
    assert forall l :: Carries(c, l, k) == Carries(cfg, l, k);
    var w' := Crashed(cfg, s, turn, last).w;
    assert forall e :: !Pending(w', e);
    assert forall l :: Noted(w', l) ==> !Carries(cfg, l, k);
  }

  /** No event with an absent key appears in a faithful crash, whether the key was claimed before or is
      not claimed even now. */
  lemma CrashFacts(cfg: Config, n: Node, turn: Turn, last: Replies, k: string)
    requires ClaimsInv(cfg, n) && Retrying(cfg) && Codec(cfg) && Remembers(cfg, n.sys.w)
    requires FaithfulStep(cfg, n, Crash(turn, last)) && !HereKey(cfg, n.sys.w, k)
    ensures var w' := Crashed(cfg, n.sys, turn, last).w;
            k in n.sys.w.redis.keys || k !in w'.redis.keys ==> !HereKey(cfg, w', k)
  {
    var c, w, rs := Under(cfg, last), n.sys.w, Polled(n.sys, turn);
    UnderKeys(cfg, last, w, k);
    UnderGenuine(cfg, last, w);
    if m: nat :| DiesClaiming(c, w, rs, m) {
      AbsentAfterDeath(cfg, n.sys, turn, last, m, k);
    } else if k in w.redis.keys || k !in Crashed(cfg, n.sys, turn, last).w.redis.keys {
      RoundClaims(c, w, rs);
      AbsentInRound(c, w, rs, k);
      UnderKeys(cfg, last, Dying(cfg, n.sys, turn, last), k);
      CrashForgets(cfg, n.sys, turn, last, k);
    }
  }

  /** What is settled after a crash was settled in the dying round. */
  lemma CrashForgets(cfg: Config, s: System, turn: Turn, last: Replies, k: string)
    requires Ok(cfg, s.w) && Retrying(cfg)
    ensures HereKey(cfg, Crashed(cfg, s, turn, last).w, k) ==> HereKey(cfg, Dying(cfg, s, turn, last), k)
  {
    var w, w' := Dying(cfg, s, turn, last), Crashed(cfg, s, turn, last).w;
    DyingKeeps(cfg, s, turn, last);
    assert forall l :: l in s.w.dropped ==> Noted(s.w, l);
    assert forall l :: Noted(w', l) ==> Noted(w, l);
  }

  // ---- An orphaned key is lost for good -------------------------------------------------------

  lemma StepRemembers(cfg: Config, n: Node, life: Life)
    requires Ok(cfg, n.sys.w) && Retrying(cfg) && Remembers(cfg, n.sys.w) && FaithfulStep(cfg, n, life)
    ensures var w' := Step(cfg, n, life).sys.w;
            Remembers(cfg, w') && n.sys.w.redis.keys.Keys <= w'.redis.keys.Keys
  {
    var w, rs := n.sys.w, Polled(n.sys, life.turn);
    match life
    case Live(_) => RoundClaims(cfg, w, rs);
    case Crash(_, last) =>
      var c := Under(cfg, last);
      if m: nat :| DiesClaiming(c, w, rs, m) {
        DeathWhileClaiming(c, w, rs, m);
      } else {
        RoundClaims(c, w, rs);
      }
  }

  lemma LostInStep(cfg: Config, n: Node, life: Life, k: string)
    requires ClaimsInv(cfg, n) && Retrying(cfg) && Codec(cfg) && Remembers(cfg, n.sys.w)
    requires FaithfulStep(cfg, n, life) && Lost(cfg, n.sys.w, k)
    ensures Lost(cfg, Step(cfg, n, life).sys.w, k)
  {
    StepRemembers(cfg, n, life);
    match life
    case Live(turn) => LostInRound(cfg, n.sys.w, Polled(n.sys, turn), k);
    case Crash(turn, last) => CrashFacts(cfg, n, turn, last, k);
  }

  /** While the store fails only with the process, orphans stay lost. */
  ghost predicate OrphansLost(cfg: Config, n: Node) {
    Remembers(cfg, n.sys.w) && forall k :: k in n.orphans ==> Lost(cfg, n.sys.w, k)
  }

  lemma StepKeepsOrphansLost(cfg: Config, n: Node, life: Life)
    requires ClaimsInv(cfg, n) && Retrying(cfg) && Codec(cfg) && OrphansLost(cfg, n) && FaithfulStep(cfg, n, life)
    ensures OrphansLost(cfg, Step(cfg, n, life))
  {
    StepRemembers(cfg, n, life);
    forall k | k in n.orphans
      ensures Lost(cfg, Step(cfg, n, life).sys.w, k)
    {
      LostInStep(cfg, n, life, k);
    }
  }

  lemma {:induction false} RunKeepsOrphansLost(cfg: Config, n: Node, lives: seq<Life>)
    requires ClaimsInv(cfg, n) && Retrying(cfg) && Codec(cfg) && OrphansLost(cfg, n) && FaithfulRun(cfg, n, lives)
    ensures OrphansLost(cfg, Reach(cfg, n, lives)) && n.orphans <= Reach(cfg, n, lives).orphans
    ensures forall k :: Untouched(cfg, n.sys.w, k) ==> Untouched(cfg, Reach(cfg, n, lives).sys.w, k)
    decreases |lives|
  {
    if lives != [] {
      var n1 := Step(cfg, n, lives[0]);
      StepKeepsOrphansLost(cfg, n, lives[0]);
      StepKeepsClaims(cfg, n, lives[0]);
      RunKeepsOrphansLost(cfg, n1, lives[1..]);
      forall k | Untouched(cfg, n.sys.w, k)
        ensures Untouched(cfg, n1.sys.w, k)
      {
        StepKeepsUntouched(cfg, n, lives[0], k);
      }
    }
  }

  /** The exact loss boundary: with a store that expires nothing and fails only with the process, a
      committed decodable record is settled if and only if no crash orphaned its key, that is, if and
      only if its key is not a lost claim. */
  lemma CommittedIffNotOrphaned(cfg: Config, s: System, lives: seq<Life>, p: int, o: nat)
    requires Unclaimed(cfg, s) && FaithfulRun(cfg, Begin(s), lives) && Below(cfg, Reach(cfg, Begin(s), lives).sys, p, o)
    ensures var f := Reach(cfg, Begin(s), lives);
            var k := KeyAt(cfg, f.sys, p, o);
            && (SettledKey(cfg, f.sys.w, k) <==> k !in f.orphans)
            && (SettledKey(cfg, f.sys.w, k) <==>
                  !exists i: nat, j: nat :: LostClaim(cfg, Trail(cfg, Begin(s), lives), lives, i, j, k))
            && (!CanWithhold(cfg) ==> (SettledKey(cfg, f.sys.w, k) <==>
                  !exists i: nat :: LostClaim(cfg, Trail(cfg, Begin(s), lives), lives, i, i, k)))
  {
    RunKeepsClaims(cfg, Begin(s), lives);
    RunKeepsOrphansLost(cfg, Begin(s), lives);
    var f := Reach(cfg, Begin(s), lives);
    assert RecordSettled(cfg, f, f.sys.broker.log[p][o]);
    OrphansAreLostClaims(cfg, Begin(s), lives, KeyAt(cfg, f.sys, p, o));
  }

  // ---- A death between claim and write loses all new claims -----------------------------------

  /** Only claimed keys have events. */
  ghost predicate Untouched(cfg: Config, w: World, k: string) {
    k in w.redis.keys || !HereKey(cfg, w, k)
  }

  lemma StepKeepsUntouched(cfg: Config, n: Node, life: Life, k: string)
    requires ClaimsInv(cfg, n) && Retrying(cfg) && Codec(cfg) && Remembers(cfg, n.sys.w)
    requires FaithfulStep(cfg, n, life) && Untouched(cfg, n.sys.w, k)
    ensures Untouched(cfg, Step(cfg, n, life).sys.w, k)
  {
    StepRemembers(cfg, n, life);
    if k !in Step(cfg, n, life).sys.w.redis.keys {
      match life
      case Live(turn) =>
        RoundClaims(cfg, n.sys.w, Polled(n.sys, turn));
        AbsentInRound(cfg, n.sys.w, Polled(n.sys, turn), k);
      case Crash(turn, last) => CrashFacts(cfg, n, turn, last, k);
    }
  }

  /** A process about to start, with dedup on and nothing claimed yet. */
  ghost predicate Unclaimed(cfg: Config, s: System) {
    && Fresh(cfg, s) && s.w.redis.keys == map[]
    && Retrying(cfg) && Codec(cfg) && Remembers(cfg, s.w)
  }

  /** The round dies having claimed the first m keys of its batch, `k` newly among them, and written
      nothing. */
  ghost predicate DiesHaving(cfg: Config, n: Node, turn: Turn, last: Replies, m: nat, k: string) {
    var rs := Polled(n.sys, turn);
    && DiesClaiming(Under(cfg, last), n.sys.w, rs, m)
    && m <= |Decodable(cfg, rs)| && k in KeysOf(Decodable(cfg, rs))[..m] && k !in n.sys.w.redis.keys
  }

  /** After any run, each key that such a round newly claimed is orphaned, and no later state of any run
      has it settled. */
  lemma DyingClaimsAreLost(
    cfg: Config, s: System, before: seq<Life>, n: Node, turn: Turn, last: Replies, m: nat, k: string)
    requires Unclaimed(cfg, s) && !SettledKey(cfg, s.w, k)
    requires FaithfulRun(cfg, Begin(s), before) && n == Reach(cfg, Begin(s), before)
    requires DiesHaving(cfg, n, turn, last, m, k)
    ensures k in Step(cfg, n, Crash(turn, last)).orphans
    ensures forall after: seq<Life> :: FaithfulRun(cfg, Step(cfg, n, Crash(turn, last)), after) ==>
              GoneIn(cfg, Reach(cfg, Step(cfg, n, Crash(turn, last)), after), k)
  {
    RunKeepsClaims(cfg, Begin(s), before);
    RunKeepsOrphansLost(cfg, Begin(s), before);
    assert Untouched(cfg, Begin(s).sys.w, k);
    ClaimedInDeath(cfg, n, turn, last, m, k);
    var n1 := Step(cfg, n, Crash(turn, last));
    assert FaithfulStep(cfg, n, Crash(turn, last));
    StepKeepsClaims(cfg, n, Crash(turn, last));
    StepKeepsOrphansLost(cfg, n, Crash(turn, last));
    forall after: seq<Life> | FaithfulRun(cfg, n1, after)
      ensures GoneIn(cfg, Reach(cfg, n1, after), k)
    {
      RunKeepsOrphansLost(cfg, n1, after);
    }
  }

  /** `k` is orphaned, and no event with it is stored, dead-lettered or logged. */
  ghost predicate GoneIn(cfg: Config, n: Node, k: string) {
    k in n.orphans && !SettledKey(cfg, n.sys.w, k)
  }

  lemma {:induction false} UnderDecodable(cfg: Config, last: Replies, rs: seq<Record>)
    ensures Decodable(Under(cfg, last), rs) == Decodable(cfg, rs)
    decreases |rs|
  {
    if rs != [] {
      UnderDecodable(cfg, last, rs[..|rs| - 1]);
    }
  }

  lemma ClaimedInDeath(cfg: Config, n: Node, turn: Turn, last: Replies, m: nat, k: string)
    requires Codec(cfg) && Genuine(cfg, n.sys.w) && Remembers(cfg, n.sys.w) && !HereKey(cfg, n.sys.w, k)
    requires DiesHaving(cfg, n, turn, last, m, k)
    ensures k in Step(cfg, n, Crash(turn, last)).orphans && Lost(cfg, Crashed(cfg, n.sys, turn, last).w, k)
  {
    var c, w, rs := Under(cfg, last), n.sys.w, Polled(n.sys, turn);
    UnderDecodable(cfg, last, rs);
    assert k in Dying(cfg, n.sys, turn, last).redis.keys by {
      DeathWhileClaiming(c, w, rs, m);
    }
    AbsentAfterDeath(cfg, n.sys, turn, last, m, k);
  }

  // ---- The boundary is real -------------------------------------------------------------------

  ghost function Sample(): Event {
    Event("device", "k", 0, "metric", 0.0)
  }

  /** One record; every system works, except that the first process dies right after its claim. */
  ghost function LossyConfig(): Config {
    Config((v: string) => if v == "k" then Some(Sample()) else None, (e: Event) => e.key, "topic", 0,
      Timescale(T.Config(DB.Script((t: nat) => Done, (e: Event) => false), 10, 0)),
      Some(D.Config((t: nat) => Done, (t: nat) => 0, 0)), None, (t: nat) => Done)
  }

  ghost function LossyReplies(): Replies {
    Replies((t: nat) => Refused, (t: nat) => FlushReply(false, 0), (t: nat) => if t == 0 then Done else Refused,
      (t: nat) => Refused)
  }

  ghost function LossyRecord(): Record {
    Record("topic", 0, 0, "", "k")
  }

  ghost function LossyStart(): System {
    System(World(T.State(DB.Db([], 0), [], []), D.Redis(map[], 0), Dlq([], 0), [], 0, 0, 0, [], []),
           Broker(map[0 := [LossyRecord()]], map[0 := 0], map[0 := 0], 0))
  }

  lemma LossyFetch()
    ensures var b := LossyStart().broker;
            Rewound(b, {}) == b
            && Fetched(b, [Chunk(0, 1)]) == (b.(position := map[0 := 1]), [LossyRecord()])
  {
    var b, chunks := LossyStart().broker, [Chunk(0, 1)];
    var b1 := b.(position := map[0 := 1]);
    assert Fetched(b1, []) == (b1, []);
    assert b.log[0][0..1] + [] == [LossyRecord()];
    assert chunks[1..] == [] && b.(position := b.position[0 := 1]) == b1;
    assert Available(b, chunks[0]);
  }

  lemma LossyBatch(cfg: Config)
    requires cfg.decode == LossyConfig().decode
    ensures Decodable(cfg, [LossyRecord()]) == [Decoded(LossyRecord(), Sample())]
    ensures KeysOf(Decodable(cfg, [LossyRecord()])) == ["k"]
  {
    assert [LossyRecord()][..0] == [];
    assert Decodable(cfg, []) == [];
    assert cfg.decode(LossyRecord().value) == Some(Sample());
  }

  lemma LossyDeath()
    ensures DiesClaiming(Under(LossyConfig(), LossyReplies()), LossyStart().w, [LossyRecord()], 1)
  {
    var c, w, rs := Under(LossyConfig(), LossyReplies()), LossyStart().w, [LossyRecord()];
    LossyBatch(c);
    DecodeAllKeeps(c, w, rs);
    var keys := ["k"];
    assert keys[..1] == keys && keys[1..] == [];
    var r := D.Redis(map["k" := D.Never], 1);
    assert D.SeenOne(c.dedup.value, w.redis, "k") == (r, Some(false));
    assert D.SeenEach(c.dedup.value, r, keys[1..]) == (r, Some([]));
    assert D.SeenEach(c.dedup.value, w.redis, keys) == (r, Some([false] + []));
  }

  lemma LossyUnclaimed()
    ensures Unclaimed(LossyConfig(), LossyStart()) && !SettledKey(LossyConfig(), LossyStart().w, "k")
  {
    var cfg := LossyConfig();
    assert Codec(cfg) by {
      assert cfg.decode(cfg.encode(Sample())) == Some(Sample());
    }
  }

  /** Nothing that happens after the death brings the record back. */
  lemma LossyLost(n: Node, fetch: Turn, n': Node)
    requires fetch == Turn({}, [Chunk(0, 1)]) && n == Begin(LossyStart())
    requires n' == Step(LossyConfig(), n, Crash(fetch, LossyReplies()))
    ensures forall after: seq<Life> ::
              FaithfulRun(LossyConfig(), n', after) ==> GoneIn(LossyConfig(), Reach(LossyConfig(), n', after), "k")
  {
    LossyUnclaimed();
    assert DiesHaving(LossyConfig(), n, fetch, LossyReplies(), 1, "k") by {
      LossyFetch();
      LossyDeath();
      LossyBatch(LossyConfig());
    }
    DyingClaimsAreLost(LossyConfig(), LossyStart(), [], n, fetch, LossyReplies(), 1, "k");
  }

  lemma LossyGone(n: Node, fetch: Turn)
    requires fetch == Turn({}, [Chunk(0, 1)])
    requires n == Step(LossyConfig(), Begin(LossyStart()), Crash(fetch, LossyReplies()))
    ensures GoneIn(LossyConfig(), Reach(LossyConfig(), n, [Live(fetch)]), "k")
    ensures Reach(LossyConfig(), n, [Live(fetch)]).sys.broker.committed == map[0 := 1]
  {
    assert n.sys.broker == LossyStart().broker by {
      LossyFetch();
    }
    LossyFollows(n, fetch);
    LossyLost(Begin(LossyStart()), fetch, n);
  }

  /** A crash between claim and flush, then a healthy round: the record is committed, yet no event
      with its key was ever stored, dead-lettered or logged. */
  lemma CrashLosesRecord()
    ensures var fetch := Turn({}, [Chunk(0, 1)]);
            var f := Reach(LossyConfig(), Begin(LossyStart()), [Crash(fetch, LossyReplies()), Live(fetch)]);
            f.sys.broker.committed == map[0 := 1] && !SettledKey(LossyConfig(), f.sys.w, "k")
  {
    var fetch := Turn({}, [Chunk(0, 1)]);
    var lives := [Crash(fetch, LossyReplies()), Live(fetch)];
    LossyGone(Step(LossyConfig(), Begin(LossyStart()), lives[0]), fetch);
    assert lives[1..] == [Live(fetch)];
  }

  lemma LossyFollows(n: Node, fetch: Turn)
    requires n.sys.broker == LossyStart().broker && fetch == Turn({}, [Chunk(0, 1)])
    ensures FaithfulRun(LossyConfig(), n, [Live(fetch)])
    ensures Reach(LossyConfig(), n, [Live(fetch)]).sys.broker.committed == map[0 := 1]
  {
    var cfg := LossyConfig();
    LossyFetch();
    DoneAnswers(cfg.dedup.value, n.sys.w.redis, KeysOf(Decodable(cfg, Polled(n.sys, fetch))));
    var n' := Step(cfg, n, Live(fetch));
    assert FaithfulRun(cfg, n', []);
    assert [Live(fetch)][1..] == [];
    assert Reach(cfg, n, [Live(fetch)]) == Reach(cfg, n', []);
  }
}
