/** The crash points inside one round of the consumer. */
module RoundDeath {
  import opened Events
  import opened Consumer
  import D = Dedup
  import X = Death

  /** How far a round has come: how many records were decoded, how many commands of the pipeline were
      carried out, how many decoded records were dropped as duplicates or written, or, after the flush,
      how many poisoned events were sent. */
  datatype Point = Decoding(n: nat) | Claiming(n: nat) | Persisting(n: nat) | Draining(n: nat)

  ghost predicate InRound(cfg: Config, w: World, rs: seq<Record>, p: Point) {
    match p
    case Decoding(n) => n <= |rs|
    case Claiming(n) => cfg.dedup.Some? && n <= |Decodable(cfg, rs)|
    case Persisting(n) => n <= |Decodable(cfg, rs)|
    case Draining(n) => cfg.sink.Timescale? && n <= |Poisoned(cfg, w, rs)|
  }

  /** The poison of the round once it is flushed. */
  ghost function Poisoned(cfg: Config, w: World, rs: seq<Record>): seq<Event> {
    FlushSink(cfg, Handled(cfg, w, rs)).0.sink.poisoned
  }

  /** What the process has reached at that point. */
  ghost function At(cfg: Config, w: World, rs: seq<Record>, p: Point): World
    requires InRound(cfg, w, rs, p)
  {
    match p
    case Decoding(n) => DecodeAll(cfg, w, rs[..n])
    case Claiming(n) => Claimed(cfg, DecodeAll(cfg, w, rs), KeysOf(Decodable(cfg, rs))[..n])
    case Persisting(n) => PersistedSome(cfg, DecodeAll(cfg, w, rs), Decodable(cfg, rs), n)
    case Draining(n) => SentAll(cfg, Emptied(FlushSink(cfg, Handled(cfg, w, rs)).0), Poisoned(cfg, w, rs)[..n])
  }

  ghost function Claimed(cfg: Config, w: World, keys: seq<string>): World
    requires cfg.dedup.Some?
  {
    w.(redis := D.SeenEach(cfg.dedup.value, w.redis, keys).0)
  }

  ghost function PersistedSome(cfg: Config, w: World, ds: seq<Decoded>, n: nat): World
    requires n <= |ds|
  {
    var (w', seen) := Asked(cfg, w, ds);
    PersistAll(cfg, w', ds[..n], seen[..n])
  }

  /** The poison list is handed out. */
  ghost function Emptied(w: World): World {
    w.(sink := w.sink.(poisoned := []))
  }

  lemma {:induction false} DecodeAllSplit(cfg: Config, w: World, rs: seq<Record>, n: nat)
    requires n <= |rs|
    ensures DecodeAll(cfg, w, rs) == DecodeAll(cfg, DecodeAll(cfg, w, rs[..n]), rs[n..])
    decreases n
  {
    if n > 0 {
      DecodeAllSplit(cfg, DecodeOne(cfg, w, rs[0]), rs[1..], n - 1);
      assert rs[..n][1..] == rs[1..][..n - 1] && rs[n..] == rs[1..][n - 1..];
    } else {
      assert rs[n..] == rs;
    }
  }

  lemma {:induction false} ClaimsSplit(c: D.Config, r: D.Redis, keys: seq<string>, n: nat)
    requires n <= |keys|
    ensures D.SeenEach(c, r, keys).0 == D.SeenEach(c, D.SeenEach(c, r, keys[..n]).0, keys[n..]).0
    decreases n
  {
    if n > 0 {
      ClaimsSplit(c, D.SeenOne(c, r, keys[0]).0, keys[1..], n - 1);
      assert keys[..n][1..] == keys[1..][..n - 1] && keys[n..] == keys[1..][n - 1..];
    } else {
      assert keys[n..] == keys;
    }
  }

  lemma {:induction false} PersistAllSplit(cfg: Config, w: World, ds: seq<Decoded>, seen: seq<bool>, n: nat)
    requires |ds| == |seen| && n <= |ds|
    ensures PersistAll(cfg, w, ds, seen) == PersistAll(cfg, PersistAll(cfg, w, ds[..n], seen[..n]), ds[n..], seen[n..])
    decreases n
  {
    if n > 0 {
      PersistAllSplit(cfg, PersistOne(cfg, w, ds[0], seen[0]), ds[1..], seen[1..], n - 1);
      assert ds[..n][1..] == ds[1..][..n - 1] && ds[n..] == ds[1..][n - 1..];
      assert seen[..n][1..] == seen[1..][..n - 1] && seen[n..] == seen[1..][n - 1..];
    } else {
      assert ds[n..] == ds && seen[n..] == seen;
    }
  }

  lemma {:induction false} SentAllSplit(cfg: Config, w: World, es: seq<Event>, n: nat)
    requires n <= |es|
    ensures SentAll(cfg, w, es) == SentAll(cfg, SentAll(cfg, w, es[..n]), es[n..])
    decreases n
  {
    if n > 0 {
      SentAllSplit(cfg, Sent(cfg, w, PoisonLetter(cfg, es[0])), es[1..], n - 1);
      assert es[..n][1..] == es[1..][..n - 1] && es[n..] == es[1..][n - 1..];
    } else {
      assert es[n..] == es;
    }
  }

  /** The rest of a round of a process that is dead once the batch is handled. */
  lemma DeadEnd(cfg: Config, w: World, rs: seq<Record>)
    requires X.Dead(cfg, Handled(cfg, w, rs))
    ensures X.NoTrace(Handled(cfg, w, rs), Round(cfg, w, rs).0)
  {
    X.DeadFlushSink(cfg, Handled(cfg, w, rs));
    var f := FlushSink(cfg, Handled(cfg, w, rs)).0;
    X.DeadDrain(cfg, Emptied(f), f.sink.poisoned);
  }

  /** The rest of a round once the batch is decoded and some of its keys are claimed. */
  lemma DeadClaiming(cfg: Config, w: World, rs: seq<Record>, n: nat)
    requires InRound(cfg, w, rs, Claiming(n)) && X.Dead(cfg, At(cfg, w, rs, Claiming(n)))
    ensures var h := Handled(cfg, w, rs);
            X.NoTrace(At(cfg, w, rs, Claiming(n)), h) && X.Dead(cfg, h)
  {
    var ds, w1 := Decodable(cfg, rs), DecodeAll(cfg, w, rs);
    ClaimsSplit(cfg.dedup.value, w1.redis, KeysOf(ds), n);
    X.DeadClaims(cfg.dedup.value, At(cfg, w, rs, Claiming(n)).redis, KeysOf(ds)[n..]);
    if ds != [] {
      var (w2, seen) := Asked(cfg, w1, ds);
      X.DeadPersistAll(cfg, w2, ds, seen);
    }
  }

  lemma DeadDecoding(cfg: Config, w: World, rs: seq<Record>, n: nat)
    requires n <= |rs| && X.Dead(cfg, DecodeAll(cfg, w, rs[..n]))
    ensures var h := Handled(cfg, w, rs);
            X.NoTrace(DecodeAll(cfg, w, rs[..n]), h) && X.Dead(cfg, h)
  {
    var ds, w1 := Decodable(cfg, rs), DecodeAll(cfg, w, rs);
    DecodeAllSplit(cfg, w, rs, n);
    X.DeadDecode(cfg, DecodeAll(cfg, w, rs[..n]), rs[n..]);
    if ds != [] {
      if cfg.dedup.Some? {
        X.DeadClaims(cfg.dedup.value, w1.redis, KeysOf(ds));
      }
      var (w2, seen) := Asked(cfg, w1, ds);
      X.DeadPersistAll(cfg, w2, ds, seen);
    }
  }

  /** Wherever in a round the process dies, the round under scripts that refuse all further requests
      leaves exactly the table, the key store and the dead letters of that point. */
  lemma DeathLeavesThePoint(cfg: Config, w: World, rs: seq<Record>, p: Point)
    requires InRound(cfg, w, rs, p) && X.Dead(cfg, At(cfg, w, rs, p))
    ensures X.NoTrace(At(cfg, w, rs, p), Round(cfg, w, rs).0)
  {
    var ds, w1 := Decodable(cfg, rs), DecodeAll(cfg, w, rs);
    match p
    case Decoding(n) =>
      DeadDecoding(cfg, w, rs, n);
      DeadEnd(cfg, w, rs);
    case Claiming(n) =>
      DeadClaiming(cfg, w, rs, n);
      DeadEnd(cfg, w, rs);
    case Persisting(n) =>
      var (w2, seen) := Asked(cfg, w1, ds);
      PersistAllSplit(cfg, w2, ds, seen, n);
      X.DeadPersistAll(cfg, At(cfg, w, rs, p), ds[n..], seen[n..]);
      assert Asked(cfg, w1, []).0 == w1;
      DeadEnd(cfg, w, rs);
    case Draining(n) =>
      var f := FlushSink(cfg, Handled(cfg, w, rs)).0;
      SentAllSplit(cfg, Emptied(f), f.sink.poisoned, n);
      X.DeadDrain(cfg, At(cfg, w, rs, p), f.sink.poisoned[n..]);
  }
}
