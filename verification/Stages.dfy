/** The stages of a round one by one, field by field: which letters they send and what becomes of each,
    what is counted, and what the key store answers. */
module Stages {
  import opened Events
  import opened Consumer
  import D = Dedup
  import L = Delivery
  import E = EffectivelyOnce

  // ---- Letters -----------------------------------------------------------------------------------

  /** The letter carries the record as it was, with where it came from. */
  ghost predicate IsRaw(l: Letter, r: Record) {
    && l.topic == r.topic && l.partition == r.partition && l.offset == r.offset
    && l.key == r.key && l.value == r.value
  }

  /** The letter carries an event that the sink reported; its record is no longer known. */
  ghost predicate IsPoison(cfg: Config, l: Letter, e: Event) {
    && l.topic == cfg.topic && l.partition == -1 && l.offset == -1
    && l.key == e.device && l.value == cfg.encode(e)
  }

  /** The letters that reach the topic when `ls` are sent from tick `t` on. */
  ghost function Arrived(dlq: Option<nat -> Outcome>, t: nat, ls: seq<Letter>): seq<Letter>
    decreases |ls|
  {
    if ls == [] then [] else
      (if dlq.Some? && !dlq.value(t).Refused? then [ls[0]] else []) + Arrived(dlq, t + 1, ls[1..])
  }

  /** Those that are not acknowledged. */
  ghost function Unacknowledged(dlq: Option<nat -> Outcome>, t: nat, ls: seq<Letter>): seq<Letter>
    decreases |ls|
  {
    if ls == [] then [] else
      (if dlq.Some? && dlq.value(t).Done? then [] else [ls[0]]) + Unacknowledged(dlq, t + 1, ls[1..])
  }

  /** Exactly `ls` were sent, in order: what arrived is on the topic, what was not acknowledged is logged
      as dropped, and the rest is counted as sent. */
  ghost predicate Mailed(cfg: Config, w: World, w': World, ls: seq<Letter>) {
    var t := w.dlq.tick;
    && w'.dlq.letters == w.dlq.letters + Arrived(cfg.dlq, t, ls)
    && w'.dropped == w.dropped + Unacknowledged(cfg.dlq, t, ls)
    && w'.dlqSent == w.dlqSent + |ls| - |Unacknowledged(cfg.dlq, t, ls)|
    && w'.dlq.tick == t + if cfg.dlq.Some? then |ls| else 0
  }

  lemma {:induction false} NoTopic(dlq: Option<nat -> Outcome>, t: nat, ls: seq<Letter>)
    requires dlq.None?
    ensures Arrived(dlq, t, ls) == [] && Unacknowledged(dlq, t, ls) == ls
    decreases |ls|
  {
    if ls != [] {
      NoTopic(dlq, t + 1, ls[1..]);
    }
  }

  lemma Regroup(a: seq<Letter>, b: seq<Letter>, c: seq<Letter>)
    ensures a + (b + c) == (a + b) + c
  {
  }

  lemma {:induction false} SplitArrived(dlq: Option<nat -> Outcome>, t: nat, a: seq<Letter>, b: seq<Letter>)
    ensures Arrived(dlq, t, a + b) == Arrived(dlq, t, a) + Arrived(dlq, t + |a|, b)
    decreases |a|
  {
    if a == [] {
      assert a + b == b;
    } else {
      assert (a + b)[1..] == a[1..] + b && (a + b)[0] == a[0];
      SplitArrived(dlq, t + 1, a[1..], b);
      var head := if dlq.Some? && !dlq.value(t).Refused? then [a[0]] else [];
      var mid, last := Arrived(dlq, t + 1, a[1..]), Arrived(dlq, t + |a|, b);
      Regroup(head, mid, last);
    }
  }

  lemma {:induction false} SplitUnacknowledged(
    dlq: Option<nat -> Outcome>, t: nat, a: seq<Letter>, b: seq<Letter>)
    ensures Unacknowledged(dlq, t, a + b) == Unacknowledged(dlq, t, a) + Unacknowledged(dlq, t + |a|, b)
    decreases |a|
  {
    if a == [] {
      assert a + b == b;
    } else {
      assert (a + b)[1..] == a[1..] + b && (a + b)[0] == a[0];
      SplitUnacknowledged(dlq, t + 1, a[1..], b);
      var head := if dlq.Some? && dlq.value(t).Done? then [] else [a[0]];
      var mid, last := Unacknowledged(dlq, t + 1, a[1..]), Unacknowledged(dlq, t + |a|, b);
      Regroup(head, mid, last);
    }
  }

  lemma MailedBoth(cfg: Config, w: World, w1: World, w2: World, a: seq<Letter>, b: seq<Letter>)
    requires Mailed(cfg, w, w1, a) && Mailed(cfg, w1, w2, b)
    ensures Mailed(cfg, w, w2, a + b)
  {
    SplitArrived(cfg.dlq, w.dlq.tick, a, b);
    SplitUnacknowledged(cfg.dlq, w.dlq.tick, a, b);
    if cfg.dlq.None? {
      NoTopic(cfg.dlq, w.dlq.tick, b);
      NoTopic(cfg.dlq, w.dlq.tick + |a|, b);
    }
    var t, t1 := w.dlq.tick, w1.dlq.tick;
    Regroup(w.dlq.letters, Arrived(cfg.dlq, t, a), Arrived(cfg.dlq, t1, b));
    Regroup(w.dropped, Unacknowledged(cfg.dlq, t, a), Unacknowledged(cfg.dlq, t1, b));
  }

  lemma SentMailed(cfg: Config, w: World, l: Letter)
    ensures Mailed(cfg, w, Sent(cfg, w, l), [l])
  {
    L.SentKeeps(cfg, w, l);
    assert [l][1..] == [];
    assert Arrived(cfg.dlq, w.dlq.tick + 1, []) == [] && Unacknowledged(cfg.dlq, w.dlq.tick + 1, []) == [];
  }

  // ---- Decoding ----------------------------------------------------------------------------------

  /** Decoding sends one letter for each undecodable record, in order, with the record's own topic,
      partition, offset, key and value, and touches neither sink nor key store nor the other counters. */
  lemma {:induction false} DecodingMails(cfg: Config, w: World, rs: seq<Record>) returns (ls: seq<Letter>)
    ensures var und := E.Undecodable(cfg, rs);
            |ls| == |und| && forall i :: 0 <= i < |ls| ==> IsRaw(ls[i], und[i])
    ensures var w' := DecodeAll(cfg, w, rs);
            && Mailed(cfg, w, w', ls) && w'.sink == w.sink && w'.redis == w.redis
            && w'.consumed == w.consumed && w'.deduped == w.deduped
    decreases |rs|
  {
    if rs == [] {
      ls := [];
    } else {
      var w1 := DecodeOne(cfg, w, rs[0]);
      var first := DecodeOneMails(cfg, w, rs[0]);
      var rest := DecodingMails(cfg, w1, rs[1..]);
      UndecodableHead(cfg, rs);
      ls := first + rest;
      MailedBoth(cfg, w, w1, DecodeAll(cfg, w, rs), first, rest);
    }
  }

  lemma DecodeOneMails(cfg: Config, w: World, r: Record) returns (ls: seq<Letter>)
    ensures if cfg.decode(r.value).None? then |ls| == 1 && IsRaw(ls[0], r) else ls == []
    ensures var w' := DecodeOne(cfg, w, r);
            && Mailed(cfg, w, w', ls) && w'.sink == w.sink && w'.redis == w.redis
            && w'.consumed == w.consumed && w'.deduped == w.deduped
  {
    ls := [];
    if cfg.decode(r.value).None? {
      ls := [RawLetter(r)];
      SentMailed(cfg, w.(handled := w.handled + [r]), RawLetter(r));
    }
  }

  lemma UndecodableHead(cfg: Config, rs: seq<Record>)
    requires rs != []
    ensures E.Undecodable(cfg, rs)
         == (if cfg.decode(rs[0].value).None? then [rs[0]] else []) + E.Undecodable(cfg, rs[1..])
  {
    assert [rs[0]] + rs[1..] == rs && [rs[0]][..0] == [];
    E.SplitConcat(cfg, [rs[0]], rs[1..]);
    assert E.Undecodable(cfg, []) == [];
  }

  // ---- Persisting --------------------------------------------------------------------------------

  /** One call of persist. With poison reporting the event is handed to the sink and counted, nothing is
      sent. Otherwise it is counted exactly when a write was acknowledged within the attempts, or none
      was due, and nothing is sent; else the record itself is sent, and not counted. */
  lemma PersistingMails(cfg: Config, w: World, d: Decoded) returns (ls: seq<Letter>)
    ensures var w' := Persisted(cfg, w, d);
            var kept := cfg.sink.Timescale? || cfg.maxRetries < 0
                        || exists k :: w.sink.db.tick <= k <= w.sink.db.tick + cfg.maxRetries
                                       && cfg.sink.d.write(k).Done?;
            && Mailed(cfg, w, w', ls) && w'.consumed == w.consumed + (if kept then 1 else 0)
            && (kept ==> ls == []) && (!kept ==> |ls| == 1 && IsRaw(ls[0], d.record))
            && w'.deduped == w.deduped && w'.redis == w.redis
            && w'.handled == w.handled && w'.persisted == w.persisted + [d.event]
  {
    ls := [];
    if cfg.sink.Direct? {
      var left := Attempts(cfg.maxRetries);
      var tries := L.WriteTierTries(cfg.sink.d, w.sink, d.event, left);
      DoneWithinMeans(cfg.sink.d.write, w.sink.db.tick, left);
      var (s, ok) := WriteTier(cfg.sink.d, w.sink, d.event, left);
      if !ok && left > 0 {
        var w1 := w.(persisted := w.persisted + [d.event], sink := s);
        SentMailed(cfg, w1, RawLetter(d.record));
        L.SentKeeps(cfg, w1, RawLetter(d.record));
        ls := [RawLetter(d.record)];
      }
    }
  }

  // ---- Draining ----------------------------------------------------------------------------------

  lemma {:induction false} PoisonMails(cfg: Config, w: World, es: seq<Event>) returns (ls: seq<Letter>)
    ensures |ls| == |es| && forall i :: 0 <= i < |ls| ==> IsPoison(cfg, ls[i], es[i])
    ensures Mailed(cfg, w, SentAll(cfg, w, es), ls)
    decreases |es|
  {
    if es == [] {
      ls := [];
    } else {
      var l := PoisonLetter(cfg, es[0]);
      SentMailed(cfg, w, l);
      var rest := PoisonMails(cfg, Sent(cfg, w, l), es[1..]);
      ls := [l] + rest;
      MailedBoth(cfg, w, Sent(cfg, w, l), SentAll(cfg, w, es), [l], rest);
    }
  }

  /** Draining sends one letter for each poisoned event, in order, with the device as key and the event
      encoded, and leaves the poison list empty. */
  lemma DrainingMails(cfg: Config, w: World) returns (ls: seq<Letter>)
    ensures var es := if cfg.sink.Timescale? then w.sink.poisoned else [];
            |ls| == |es| && forall i :: 0 <= i < |ls| ==> IsPoison(cfg, ls[i], es[i])
    ensures Mailed(cfg, w, PoisonDrained(cfg, w), ls)
    ensures cfg.sink.Timescale? ==> PoisonDrained(cfg, w).sink == w.sink.(poisoned := [])
  {
    ls := [];
    if cfg.sink.Timescale? {
      var w1 := w.(sink := w.sink.(poisoned := []));
      ls := PoisonMails(cfg, w1, w.sink.poisoned);
      L.SentAllKeeps(cfg, w1, w.sink.poisoned);
    }
  }

  // ---- Asking the key store -----------------------------------------------------------------------

  /** The store serves one claim for each decoded record, in order, and keeps every claim it carried out,
      whether or not an error is reported. Without an error a record is a duplicate exactly when its claim
      was lost; with one, none is. Without a store none is. */
  lemma AskingClaims(cfg: Config, w: World, ds: seq<Decoded>)
    ensures var (w', seen) := Asked(cfg, w, ds);
            && |seen| == |ds| && w' == w.(redis := w'.redis)
            && (cfg.dedup.None? ==> w'.redis == w.redis && forall i :: 0 <= i < |seen| ==> !seen[i])
            && (cfg.dedup.Some? ==>
                  var (r, replies) := D.Served(cfg.dedup.value, w.redis, KeysOf(ds));
                  && w'.redis == r
                  && if exists i :: 0 <= i < |replies| && replies[i].None?
                     then forall i :: 0 <= i < |seen| ==> !seen[i]
                     else forall i :: 0 <= i < |seen| ==> seen[i] == !replies[i].value)
  {
    if cfg.dedup.Some? {
      D.SeenEachIsServed(cfg.dedup.value, w.redis, KeysOf(ds));
    }
  }

  lemma {:induction false} PersistAllAsks(cfg: Config, w: World, ds: seq<Decoded>, seen: seq<bool>)
    requires |ds| == |seen|
    ensures PersistAll(cfg, w, ds, seen).redis == w.redis
    decreases |ds|
  {
    if ds != [] {
      var ls := PersistingMails(cfg, w, ds[0]);
      PersistAllAsks(cfg, PersistOne(cfg, w, ds[0], seen[0]), ds[1..], seen[1..]);
    }
  }

  lemma {:induction false} SentAllAsks(cfg: Config, w: World, es: seq<Event>)
    ensures SentAll(cfg, w, es).redis == w.redis
    decreases |es|
  {
    if es != [] {
      L.SentKeeps(cfg, w, PoisonLetter(cfg, es[0]));
      SentAllAsks(cfg, Sent(cfg, w, PoisonLetter(cfg, es[0])), es[1..]);
    }
  }

  /** A whole round asks about each decodable record of its batch once, in order, and about nothing else. */
  lemma RoundClaimsBatch(cfg: Config, w: World, rs: seq<Record>)
    ensures Round(cfg, w, rs).0.redis
         == if cfg.dedup.None? then w.redis
            else D.Served(cfg.dedup.value, w.redis, KeysOf(Decodable(cfg, rs))).0
  {
    var ds := Decodable(cfg, rs);
    var ls := DecodingMails(cfg, w, rs);
    var (w2, seen) := Asked(cfg, DecodeAll(cfg, w, rs), ds);
    AskingClaims(cfg, DecodeAll(cfg, w, rs), ds);
    PersistAllAsks(cfg, w2, ds, seen);
    var f := FlushSink(cfg, Handled(cfg, w, rs)).0;
    SentAllAsks(cfg, f.(sink := f.sink.(poisoned := [])), f.sink.poisoned);
    assert ds == [] ==> KeysOf(ds) == [];
  }
}
