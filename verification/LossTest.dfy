/** cmd/losstest/main.go: the work split, the idempotency keys, and the row count that the dedup
    test expects. */
module LossTest {
  import opened Events
  import opened Consumer
  import DB = Database
  import C = Claims
  import E = EffectivelyOnce

  // ---- Keys --------------------------------------------------------------------------------------

  const DIGITS := "0123456789"

  /** The %d verb for a number that is not negative. */
  function Decimal(n: nat): string {
    if n < 10 then [DIGITS[n]] else Decimal(n / 10) + [DIGITS[n % 10]]
  }

  function Key(id: nat, i: nat): string {
    "loss-" + Decimal(id) + "-" + Decimal(i)
  }

  function Produced(id: nat, i: nat): Event {
    Event("device-" + Decimal(id), Key(id, i), 0, "cpu.util", (i % 100) as real)
  }

  lemma {:induction false} DecimalFacts(n: nat)
    ensures |Decimal(n)| > 0 && (n >= 10 ==> |Decimal(n)| > 1)
    ensures forall k :: 0 <= k < |Decimal(n)| ==> Decimal(n)[k] in DIGITS
    decreases n
  {
    if n >= 10 {
      DecimalFacts(n / 10);
    }
  }

  function DigitValue(c: char): nat {
    if '0' <= c <= '9' then c as nat - '0' as nat else 0
  }

  /** The number that a decimal string stands for. */
  function Parse(s: string): nat {
    if s == [] then 0 else 10 * Parse(s[..|s| - 1]) + DigitValue(s[|s| - 1])
  }

  lemma DigitsAreRight(d: nat)
    requires d < 10
    ensures DigitValue(DIGITS[d]) == d && (d > 0 ==> DIGITS[d] != '0')
  {
  }

  /** What is rendered is the number itself, without a leading zero. */
  lemma {:induction false} DecimalRoundTrip(n: nat)
    ensures Parse(Decimal(n)) == n && |Decimal(n)| > 0 && (n > 0 ==> Decimal(n)[0] != '0')
    decreases n
  {
    DigitsAreRight(n % 10);
    if n < 10 {
      assert Decimal(n)[..0] == [];
    } else {
      var s := Decimal(n);
      DecimalRoundTrip(n / 10);
      assert s[..|s| - 1] == Decimal(n / 10);
    }
  }

  lemma DecimalInjective(m: nat, n: nat)
    requires Decimal(m) == Decimal(n)
    ensures m == n
  {
    DecimalRoundTrip(m);
    DecimalRoundTrip(n);
  }

  lemma SplitAtDash(a: string, b: string, a': string, b': string)
    requires '-' !in a && '-' !in a' && a + "-" + b == a' + "-" + b'
    ensures a == a' && b == b'
  {
    var s, t := a + "-" + b, a' + "-" + b';
    assert s[|a|] == '-' && t[|a'|] == '-';
    assert a == s[..|a|] && a' == t[..|a'|];
    assert b == s[|a| + 1..] && b' == t[|a'| + 1..];
  }

  /** The separator is not a digit, so a key determines both of its numbers. */
  lemma KeyInjective(id: nat, i: nat, id': nat, i': nat)
    requires Key(id, i) == Key(id', i')
    ensures id == id' && i == i'
  {
    var s, t := Decimal(id) + "-" + Decimal(i), Decimal(id') + "-" + Decimal(i');
    assert s == Key(id, i)[5..] && t == Key(id', i')[5..];
    DecimalFacts(id);
    DecimalFacts(id');
    assert '-' !in DIGITS;
    SplitAtDash(Decimal(id), Decimal(i), Decimal(id'), Decimal(i'));
    DecimalInjective(id, id');
    DecimalInjective(i, i');
  }

  /** A produced event reads back: "device-" and the producer, "loss-", the producer, a dash and the index,
      the metric and the last two digits of the index. */
  lemma ProducedReads(id: nat, i: nat) returns (a: string, b: string)
    ensures Parse(a) == id && Parse(b) == i && '-' !in a && '-' !in b
    ensures var e := Produced(id, i);
            && e.device == "device-" + a && e.key == "loss-" + a + "-" + b && e.metric == "cpu.util"
            && e.value == (i % 100) as real && e.nanos == 0
  {
    a, b := Decimal(id), Decimal(i);
    DecimalRoundTrip(id);
    DecimalRoundTrip(i);
    DecimalFacts(id);
    DecimalFacts(i);
    assert '-' !in DIGITS;
  }

  // ---- The split --------------------------------------------------------------------------------

  /** Go's integer division and remainder truncate toward zero. */
  function Quotient(a: int, b: int): int
    requires b > 0
  {
    if a >= 0 then a / b else -(-a / b)
  }

  function Remainder(a: int, b: int): int
    requires b > 0
  {
    a - Quotient(a, b) * b
  }

  /** How many events producer `g` sends; a negative share means none. */
  ghost function Share(count: int, concurrency: int, g: nat): nat
    requires concurrency > 0
  {
    var n := Quotient(count, concurrency) + if g < Remainder(count, concurrency) then 1 else 0;
    if n < 0 then 0 else n
  }

  ghost function Sent(id: nat, n: nat): seq<Event> {
    seq(n, i requires 0 <= i < n => Produced(id, i))
  }

  /** All that the first `g` producers send. */
  ghost function SentUpTo(count: int, concurrency: int, g: nat): seq<Event>
    requires concurrency > 0
  {
    if g == 0 then [] else SentUpTo(count, concurrency, g - 1) + Sent(g - 1, Share(count, concurrency, g - 1))
  }

  lemma SentMore(id: nat, n: nat)
    ensures Sent(id, n + 1) == Sent(id, n) + [Produced(id, n)]
  {
  }

  /** The two loops of main, producer after producer. */
  method Produce(count: int, concurrency: int) returns (events: seq<Event>, produced: nat)
    requires concurrency > 0
    ensures events == SentUpTo(count, concurrency, concurrency) && produced == |events|
  {
    var perGoroutine := Quotient(count, concurrency);
    var remainder := Remainder(count, concurrency);
    events, produced := [], 0;
    var g := 0;
    while g < concurrency
      invariant 0 <= g <= concurrency
      invariant events == SentUpTo(count, concurrency, g) && produced == |events|
    {
      var n := perGoroutine;
      if g < remainder {
        n := n + 1;
      }
      ghost var before := events;
      var i := 0;
      while i < n
        invariant 0 <= i && (n >= 0 ==> i <= n) && (n < 0 ==> i == 0)
        invariant events == before + Sent(g, i) && produced == |events|
      {
        SentMore(g, i);
        assert before + Sent(g, i) + [Produced(g, i)] == before + (Sent(g, i) + [Produced(g, i)]);
        events := events + [Produced(g, i)];
        produced := produced + 1;
        i := i + 1;
      }
      assert i == Share(count, concurrency, g);
      g := g + 1;
    }
  }

  lemma QuotientFacts(count: int, concurrency: int)
    requires concurrency > 0
    ensures var q, r := Quotient(count, concurrency), Remainder(count, concurrency);
            && concurrency * q + r == count
            && (count >= 0 ==> q >= 0 && 0 <= r < concurrency)
            && (count < 0 ==> q <= 0 && r <= 0)
  {
  }

  lemma {:induction false} SplitSum(count: int, concurrency: int, g: nat)
    requires concurrency > 0 && count >= 0
    ensures var q, r := Quotient(count, concurrency), Remainder(count, concurrency);
            |SentUpTo(count, concurrency, g)| == g * q + if g <= r then g else r
    decreases g
  {
    var q, r := Quotient(count, concurrency), Remainder(count, concurrency);
    QuotientFacts(count, concurrency);
    if g > 0 {
      SplitSum(count, concurrency, g - 1);
      assert |Sent(g - 1, Share(count, concurrency, g - 1))| == q + if g - 1 < r then 1 else 0;
      assert (g - 1) * q + q == g * q;
    }
  }

  lemma {:induction false} NothingToSend(count: int, concurrency: int, g: nat)
    requires concurrency > 0 && count < 0
    ensures SentUpTo(count, concurrency, g) == []
    decreases g
  {
    QuotientFacts(count, concurrency);
    if g > 0 {
      NothingToSend(count, concurrency, g - 1);
    }
  }

  /** No producer sends more than one event more than another, and the first ones send the more. */
  lemma SharesAreEven(count: int, concurrency: int, g: nat, h: nat)
    requires concurrency > 0 && g <= h
    ensures Share(count, concurrency, h) <= Share(count, concurrency, g) <= Share(count, concurrency, h) + 1
  {
  }

  /** The split hands out exactly `count` events. */
  lemma SplitIsExact(count: int, concurrency: int)
    requires concurrency > 0
    ensures |SentUpTo(count, concurrency, concurrency)| == if count < 0 then 0 else count
  {
    if count < 0 {
      NothingToSend(count, concurrency, concurrency);
    } else {
      SplitSum(count, concurrency, concurrency);
      QuotientFacts(count, concurrency);
    }
  }

  lemma KeyDiffers(id: nat, i: nat, id': nat, i': nat)
    requires id != id' || i != i'
    ensures Produced(id', i').key != Key(id, i)
  {
    if Key(id', i') == Key(id, i) {
      KeyInjective(id', i', id, i);
    }
  }

  /** Every event sent is the i-th of some producer, and its place tells which. */
  lemma {:induction false} SentHasId(count: int, concurrency: int, g: nat, j: nat) returns (id: nat, i: nat)
    requires concurrency > 0 && j < |SentUpTo(count, concurrency, g)|
    ensures id < g && SentUpTo(count, concurrency, g)[j] == Produced(id, i)
    ensures j == |SentUpTo(count, concurrency, id)| + i
    decreases g
  {
    var init := SentUpTo(count, concurrency, g - 1);
    if j < |init| {
      id, i := SentHasId(count, concurrency, g - 1, j);
    } else {
      id, i := g - 1, j - |init|;
    }
  }

  lemma KeysAreDistinct(count: int, concurrency: int, g: nat)
    requires concurrency > 0
    ensures E.DistinctKeys(SentUpTo(count, concurrency, g))
    ensures forall e :: e in SentUpTo(count, concurrency, g) ==> e.nanos == 0
  {
    var all := SentUpTo(count, concurrency, g);
    forall j | 0 <= j < |all|
      ensures all[j].nanos == 0
    {
      var id, i := SentHasId(count, concurrency, g, j);
    }
    forall j, j' | 0 <= j < j' < |all|
      ensures all[j].key != all[j'].key
    {
      var id, i := SentHasId(count, concurrency, g, j);
      var id', i' := SentHasId(count, concurrency, g, j');
      KeyDiffers(id, i, id', i');
    }
  }

  // ---- The expected row count -----------------------------------------------------------------

  ghost function KeySet(es: seq<Event>): set<string> {
    set e | e in es :: e.key
  }

  lemma {:induction false} CountKeys(es: seq<Event>)
    requires E.DistinctKeys(es)
    ensures |KeySet(es)| == |es|
    decreases |es|
  {
    if es != [] {
      var n := |es| - 1;
      CountKeys(es[..n]);
      assert forall e :: e in es <==> e in es[..n] || e == es[n];
      assert KeySet(es) == KeySet(es[..n]) + {es[n].key};
    }
  }

  /** The decoded stream is made of the events `all` and has each of them at least once. */
  ghost predicate Delivers(ds: seq<Decoded>, all: seq<Event>) {
    && (forall d :: d in ds ==> d.event in all)
    && (forall e :: e in all ==> exists d :: d in ds && d.event == e)
  }

  lemma FirstOfDelivered(ds: seq<Decoded>, all: seq<Event>)
    requires Delivers(ds, all) && E.DistinctKeys(all)
    ensures var es := E.FirstByKey(ds);
            |es| == |all| && E.DistinctKeys(es) && forall e :: e in es ==> e in all
  {
    var es := E.FirstByKey(ds);
    E.FirstByKeyMeans(ds);
    forall e | e in es
      ensures e in all
    {
      var d :| d in ds && d.event == e;
    }
    CountKeys(es);
    CountKeys(all);
    forall e | e in all
      ensures e.key in KeySet(es)
    {
      var d :| d in ds && d.event == e;
      assert C.HasKey(ds, e.key);
      assert E.KeyAmong(es, e.key);
    }
    assert KeySet(es) == KeySet(all);
  }

  lemma FreshRows(script: DB.Script, es: seq<Event>)
    requires E.DistinctKeys(es) && forall e :: e in es ==> !script.bad(e)
    ensures DB.Absorb([], DB.Good(script, es)) == es
  {
    DB.AllGood(script, es);
    assert [] + es == es;
    DB.AbsorbFresh([], es);
  }

  lemma TableIsFirstByKey(cfg: Config, w: World, batches: seq<seq<Record>>)
    requires E.Blank(cfg, w) && cfg.dedup.Some? && w.redis.keys == map[] && w.sink.db.table == []
    requires E.Storing(cfg) && E.GentleRounds(cfg, w, batches)
    ensures var ds := Decodable(cfg, E.Stream(batches));
            E.Rounds(cfg, w, batches).sink.db.table == DB.Absorb([], DB.Good(cfg.sink.c.script, E.FirstByKey(ds)))
  {
    assert w.redis.keys.Keys == {};
    E.TableOutcome(cfg, w, batches);
  }

  /** Whatever the broker delivers, as long as it is made of the produced events and has each of
      them at least once (producer retries, replays and rewinds repeat records): with dedup on, an
      empty store and an empty table, and no row poisoned, that is, none bad and none out of attempts,
      exactly `count` rows result. What becomes of dead letters does not matter. */
  lemma ReplaysYieldCountRows(cfg: Config, w: World, batches: seq<seq<Record>>, count: int, concurrency: int)
    requires E.Blank(cfg, w) && cfg.dedup.Some? && w.redis.keys == map[] && w.sink.db.table == []
    requires E.Storing(cfg) && E.GentleRounds(cfg, w, batches) && concurrency > 0
    requires Delivers(Decodable(cfg, E.Stream(batches)), SentUpTo(count, concurrency, concurrency))
    requires forall e :: e in SentUpTo(count, concurrency, concurrency) ==> !cfg.sink.c.script.bad(e)
    ensures |E.Rounds(cfg, w, batches).sink.db.table| == if count < 0 then 0 else count
  {
    var ds := Decodable(cfg, E.Stream(batches));
    TableIsFirstByKey(cfg, w, batches);
    KeysAreDistinct(count, concurrency, concurrency);
    SplitIsExact(count, concurrency);
    FirstOfDelivered(ds, SentUpTo(count, concurrency, concurrency));
    FreshRows(cfg.sink.c.script, E.FirstByKey(ds));
  }
}
