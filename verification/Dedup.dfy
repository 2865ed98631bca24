/** internal/dedup/redis.go: claim-if-absent with an expiry. */
module Dedup {
  import opened Events

  /** A ttl of zero stores the key without expiry. */
  datatype Expiry = Never | At(time: int)

  /** `outcome(t)` and `clock(t)` belong to the t-th command sent to the server. */
  datatype Config = Config(outcome: nat -> Outcome, clock: nat -> int, ttl: nat)

  datatype Redis = Redis(keys: map<string, Expiry>, tick: nat)

  predicate Live(keys: map<string, Expiry>, k: string, now: int) {
    k in keys && (keys[k].Never? || now < keys[k].time)
  }

  function Expires(ttl: nat, now: int): Expiry {
    if ttl == 0 then Never else At(now + ttl)
  }

  /** SET key "1" NX with the ttl, on the server: a live key keeps its expiry. */
  function Claim(keys: map<string, Expiry>, k: string, now: int, ttl: nat): map<string, Expiry> {
    if Live(keys, k, now) then keys else keys[k := Expires(ttl, now)]
  }

  /** One SETNX command and its reply; `None` is an error. */
  function SetNX(c: Config, r: Redis, k: string): (Redis, Option<bool>) {
    var now := c.clock(r.tick);
    var wasSet := !Live(r.keys, k, now);
    match c.outcome(r.tick)
    case Refused => (Redis(r.keys, r.tick + 1), None)
    case Done => (Redis(Claim(r.keys, k, now, c.ttl), r.tick + 1), Some(wasSet))
    case Unreported => (Redis(Claim(r.keys, k, now, c.ttl), r.tick + 1), None)
  }

  // ---- What the operations compute -------------------------------------------------------

  ghost function SeenOne(c: Config, r: Redis, k: string): (Redis, Option<bool>) {
    var (r1, reply) := SetNX(c, r, k);
    (r1, if reply.None? then None else Some(!reply.value))
  }

  /** The simple form of SeenBatch: Seen, key by key, an error if any of them failed. */
  ghost function SeenEach(c: Config, r: Redis, keys: seq<string>): (answer: (Redis, Option<seq<bool>>))
    ensures answer.1.Some? ==> |answer.1.value| == |keys|
    decreases |keys|
  {
    if keys == [] then (r, Some([])) else
      var (r1, first) := SeenOne(c, r, keys[0]);
      var (r2, rest) := SeenEach(c, r1, keys[1..]);
      (r2, if first.None? || rest.None? then None else Some([first.value] + rest.value))
  }

  // ---- The deduper itself ----------------------------------------------------------------

  class Deduper {
    const c: Config
    var client: Redis

    constructor (c: Config, client: Redis)
      ensures this.c == c && this.client == client
    {
      this.c, this.client := c, client;
    }

    method Seen(key: string) returns (seen: Option<bool>)
      modifies this
      ensures (client, seen) == SeenOne(c, old(client), key)
    {
      var (r, wasSet) := SetNX(c, client, key);
      client := r;
      if wasSet.None? {
        return None;
      }
      return Some(!wasSet.value);
    }

    /** The server carries out the whole pipeline; Exec fails if one command failed. */
    method Exec(pipe: seq<string>) returns (replies: seq<Option<bool>>, failed: bool)
      modifies this
      ensures |replies| == |pipe|
      ensures !failed ==> forall i :: 0 <= i < |replies| ==> replies[i].Some?
      ensures var (r, seen) := SeenEach(c, old(client), pipe);
              && client == r && seen.None? == failed
              && (!failed ==> |seen.value| == |pipe|
                              && forall i :: 0 <= i < |pipe| ==> seen.value[i] == !replies[i].value)
      decreases |pipe|
    {
      if |pipe| == 0 {
        return [], false;
      }
      var (r, reply) := SetNX(c, client, pipe[0]);
      client := r;
      var rest, restFailed := Exec(pipe[1..]);
      replies, failed := [reply] + rest, reply.None? || restFailed;
      assert forall i :: 1 <= i < |replies| ==> replies[i] == rest[i - 1];
    }

    method SeenBatch(keys: seq<string>) returns (seen: Option<seq<bool>>)
      modifies this
      ensures (client, seen) == SeenEach(c, old(client), keys)
    {
      if |keys| == 0 {
        return Some([]);
      }
      var pipe: seq<string> := [];
      for i := 0 to |keys|
        invariant pipe == keys[..i] && client == old(client)
      {
        pipe := pipe + [keys[i]];
      }
      assert pipe == keys;
      var cmds, failed := Exec(pipe);
      if failed {
        return None;
      }
      var answers: seq<bool> := [];
      for i := 0 to |cmds|
        invariant |answers| == i
        invariant forall j :: 0 <= j < i ==> answers[j] == !cmds[j].value
        invariant client == SeenEach(c, old(client), keys).0
      {
        answers := answers + [!cmds[i].value];
      }
      assert answers == SeenEach(c, old(client), keys).1.value;
      return Some(answers);
    }
  }

  // ---- What a batch of answers means ---------------------------------------------------------

  /** No key stored now, or claimed later, expires before a later command. */
  ghost predicate Lasting(c: Config, keys: map<string, Expiry>) {
    && (forall k, t: nat :: k in keys ==> Live(keys, k, c.clock(t)))
    && (c.ttl == 0 || forall i: nat, j: nat :: c.clock(j) < c.clock(i) + c.ttl)
  }

  lemma {:induction false} SeenEachShape(c: Config, r: Redis, keys: seq<string>)
    ensures var (r1, seen) := SeenEach(c, r, keys);
            && r.keys.Keys <= r1.keys.Keys <= r.keys.Keys + (set k | k in keys)
            && (seen.Some? ==> (set k | k in keys) <= r1.keys.Keys)
            && (seen.Some? ==>
                  forall i :: 0 <= i < |keys| && seen.value[i] ==> keys[i] in r.keys || keys[i] in keys[..i])
    decreases |keys|
  {
    if keys != [] {
      var (r1, first) := SeenOne(c, r, keys[0]);
      SeenEachShape(c, r1, keys[1..]);
      var (r2, seen) := SeenEach(c, r, keys);
      assert forall k :: k in keys <==> k == keys[0] || k in keys[1..];
      if seen.Some? {
        forall i | 0 <= i < |keys| && seen.value[i]
          ensures keys[i] in r.keys || keys[i] in keys[..i]
        {
          if i > 0 {
            assert keys[1..][i - 1] == keys[i];
            assert keys[..i][0] == keys[0];
            assert forall k :: k in keys[1..][..i - 1] ==> k in keys[..i];
          }
        }
      }
    }
  }

  lemma ClaimLasts(c: Config, r: Redis, k: string)
    requires Lasting(c, r.keys)
    ensures Lasting(c, SeenOne(c, r, k).0.keys)
  {
  }

  /** How the answer for a later key looks once the first key has been claimed. */
  lemma LaterAnswer(stored: set<string>, claimed: set<string>, keys: seq<string>, i: nat, seen: bool)
    requires 0 < i < |keys| && claimed == stored + {keys[0]}
    requires seen <==> keys[1..][i - 1] in claimed || keys[1..][i - 1] in keys[1..][..i - 1]
    ensures seen <==> keys[i] in stored || keys[i] in keys[..i]
  {
    assert keys[..i] == [keys[0]] + keys[1..][..i - 1];
  }

  /** With no error and no expiry: seen exactly when stored before or earlier in the batch, and
      all keys of the batch are stored afterwards. */
  lemma {:induction false} SeenBatchMeans(c: Config, r: Redis, keys: seq<string>)
    requires Lasting(c, r.keys) && SeenEach(c, r, keys).1.Some?
    ensures var (r1, seen) := SeenEach(c, r, keys);
            && (forall i :: 0 <= i < |keys| ==> (seen.value[i] <==> keys[i] in r.keys || keys[i] in keys[..i]))
            && r1.keys.Keys == r.keys.Keys + (set k | k in keys)
            && Lasting(c, r1.keys)
    decreases |keys|
  {
    SeenEachShape(c, r, keys);
    if keys != [] {
      var (r1, first) := SeenOne(c, r, keys[0]);
      assert Live(r.keys, keys[0], c.clock(r.tick)) <==> keys[0] in r.keys;
      ClaimLasts(c, r, keys[0]);
      SeenBatchMeans(c, r1, keys[1..]);
      var seen, rest := SeenEach(c, r, keys).1.value, SeenEach(c, r1, keys[1..]).1.value;
      assert r1.keys.Keys == r.keys.Keys + {keys[0]};
      forall i | 0 <= i < |keys|
        ensures seen[i] <==> keys[i] in r.keys || keys[i] in keys[..i]
      {
        if i > 0 {
          assert seen[i] == rest[i - 1];
          LaterAnswer(r.keys.Keys, r1.keys.Keys, keys, i, seen[i]);
        }
      }
    }
  }

  // ---- Any interleaving of claims from any number of consumers -----------------------------

  /** A claim command as it reaches the server; one that was refused is not carried out. */
  datatype Command = Command(key: string, time: int, applied: bool)

  ghost function After(ttl: nat, cmds: seq<Command>): map<string, Expiry> {
    if cmds == [] then map[] else
      var last := cmds[|cmds| - 1];
      var before := After(ttl, cmds[..|cmds| - 1]);
      if last.applied then Claim(before, last.key, last.time, ttl) else before
  }

  /** The j-th command finds no live key and sets it. */
  ghost predicate Won(ttl: nat, cmds: seq<Command>, j: nat)
    requires j < |cmds|
  {
    cmds[j].applied && !Live(After(ttl, cmds[..j]), cmds[j].key, cmds[j].time)
  }

  ghost predicate InOrder(cmds: seq<Command>) {
    forall i, j :: 0 <= i < j < |cmds| ==> cmds[i].time <= cmds[j].time
  }

  /** The store remembers, for each key, exactly the last claim that was won. */
  lemma {:induction false} StoreIsLastWin(ttl: nat, cmds: seq<Command>, n: nat, k: string)
    requires InOrder(cmds) && n <= |cmds|
    ensures var keys := After(ttl, cmds[..n]);
            && (k in keys ==> exists i :: 0 <= i < n && cmds[i].key == k && Won(ttl, cmds, i)
                                          && keys[k] == Expires(ttl, cmds[i].time))
            && (forall i :: 0 <= i < n && cmds[i].key == k && Won(ttl, cmds, i) ==>
                  k in keys && (if ttl == 0 then keys[k].Never? else keys[k].At? && keys[k].time >= cmds[i].time + ttl))
    decreases n
  {
    if n > 0 {
      StoreIsLastWin(ttl, cmds, n - 1, k);
      var last := cmds[n - 1];
      assert cmds[..n][..n - 1] == cmds[..n - 1];
      var before := After(ttl, cmds[..n - 1]);
      assert last.applied ==> After(ttl, cmds[..n]) == Claim(before, last.key, last.time, ttl);
      assert Won(ttl, cmds, n - 1) <==> last.applied && !Live(before, last.key, last.time);
    }
  }

  /** A claim wins exactly when every earlier win on the same key is at least ttl old: a lost
      claim never extends the expiry. So two wins on one key are at least ttl apart. */
  lemma WinsAreTtlApart(ttl: nat, cmds: seq<Command>, j: nat)
    requires InOrder(cmds) && j < |cmds| && cmds[j].applied
    ensures Won(ttl, cmds, j) <==>
              forall i :: 0 <= i < j && cmds[i].key == cmds[j].key && Won(ttl, cmds, i) ==>
                ttl > 0 && cmds[j].time >= cmds[i].time + ttl
  {
    StoreIsLastWin(ttl, cmds, j, cmds[j].key);
  }

  // ---- The answers of interleaved batches are these wins -------------------------------------

  /** The server serves commands one after the other, whoever sent them. */
  ghost function Served(c: Config, r: Redis, keys: seq<string>): (answer: (Redis, seq<Option<bool>>))
    ensures |answer.1| == |keys|
  {
    if keys == [] then (r, []) else
      var n := |keys| - 1;
      var (r1, replies) := Served(c, r, keys[..n]);
      var (r2, reply) := SetNX(c, r1, keys[n]);
      (r2, replies + [reply])
  }

  /** SeenBatch reads the replies to its own commands: an error if one is an error. */
  ghost function Read(replies: seq<Option<bool>>): (seen: Option<seq<bool>>)
    ensures seen.Some? ==> |seen.value| == |replies|
  {
    if exists i :: 0 <= i < |replies| && replies[i].None? then None
    else Some(seq(|replies|, i requires 0 <= i < |replies| => !replies[i].value))
  }

  lemma {:induction false} ServedConcat(c: Config, r: Redis, a: seq<string>, b: seq<string>)
    ensures var (r1, first) := Served(c, r, a);
            Served(c, r, a + b) == (Served(c, r1, b).0, first + Served(c, r1, b).1)
    decreases |b|
  {
    if b == [] {
      assert a + b == a && Served(c, r, a).1 + [] == Served(c, r, a).1;
    } else {
      var init := b[..|b| - 1];
      assert (a + b)[..|a + b| - 1] == a + init;
      ServedConcat(c, r, a, init);
      var (r1, first) := Served(c, r, a);
      var (r2, rest) := Served(c, r1, init);
      var (r3, reply) := SetNX(c, r2, b[|b| - 1]);
      assert Served(c, r1, b) == (r3, rest + [reply]);
      assert first + rest + [reply] == first + (rest + [reply]);
    }
  }

  /** A batch that is alone on the server gets the answers of SeenEach. */
  lemma {:induction false} SeenEachIsServed(c: Config, r: Redis, keys: seq<string>)
    ensures SeenEach(c, r, keys) == (Served(c, r, keys).0, Read(Served(c, r, keys).1))
    decreases |keys|
  {
    if keys != [] {
      var head := [keys[0]];
      assert keys == head + keys[1..] && head[..0] == [];
      assert Served(c, r, head) == (SetNX(c, r, keys[0]).0, [] + [SetNX(c, r, keys[0]).1]);
      ServedConcat(c, r, head, keys[1..]);
      SeenEachIsServed(c, SetNX(c, r, keys[0]).0, keys[1..]);
      ReadHead(Served(c, r, keys).1);
    }
  }

  lemma ReadHead(replies: seq<Option<bool>>)
    requires replies != []
    ensures var rest := Read(replies[1..]);
            Read(replies) == if replies[0].None? || rest.None? then None else Some([!replies[0].value] + rest.value)
  {
    var rest := replies[1..];
    if i :| 0 <= i < |rest| && rest[i].None? {
      assert replies[i + 1].None?;
    } else if replies[0].Some? {
      assert forall i :: 1 <= i < |replies| ==> replies[i] == rest[i - 1];
      assert Read(replies).value == [!replies[0].value] + Read(rest).value;
    }
  }

  /** The commands that `keys` become when they are served from tick zero on. */
  ghost function Commands(c: Config, keys: seq<string>): seq<Command> {
    seq(|keys|, i requires 0 <= i < |keys| => Command(keys[i], c.clock(i), !c.outcome(i).Refused?))
  }

  /** On a fresh server each acknowledged reply tells whether the command won. */
  lemma {:induction false} RepliesAreWins(c: Config, keys: seq<string>, j: nat)
    requires j < |keys|
    ensures var replies := Served(c, Redis(map[], 0), keys).1;
            replies[j] == if c.outcome(j).Done? then Some(Won(c.ttl, Commands(c, keys), j)) else None
    decreases |keys|
  {
    var n := |keys| - 1;
    var cmds := Commands(c, keys);
    StoreIsAfter(c, keys[..n]);
    if j == n {
      assert cmds[..n] == Commands(c, keys[..n]);
    } else {
      RepliesAreWins(c, keys[..n], j);
      assert cmds[..j] == Commands(c, keys[..n])[..j];
    }
  }

  lemma {:induction false} StoreIsAfter(c: Config, keys: seq<string>)
    ensures Served(c, Redis(map[], 0), keys).0 == Redis(After(c.ttl, Commands(c, keys)), |keys|)
    decreases |keys|
  {
    if keys != [] {
      var n := |keys| - 1;
      StoreIsAfter(c, keys[..n]);
      assert Commands(c, keys)[..n] == Commands(c, keys[..n]);
    }
  }

  /** Any number of batches whose commands interleave on the server in any way: `at` are the places
      that the commands of one batch took. If the batch gets an answer, its not-seen keys are exactly
      the commands of it that won. */
  lemma NotSeenAreWins(c: Config, keys: seq<string>, at: seq<nat>)
    requires forall j :: 0 <= j < |at| ==> at[j] < |keys|
    ensures var replies := Served(c, Redis(map[], 0), keys).1;
            var seen := Read(seq(|at|, j requires 0 <= j < |at| => replies[at[j]]));
            && (seen.Some? <==> forall j :: 0 <= j < |at| ==> c.outcome(at[j]).Done?)
            && (seen.Some? ==> forall j :: 0 <= j < |at| ==> (!seen.value[j] <==> Won(c.ttl, Commands(c, keys), at[j])))
  {
    var replies := Served(c, Redis(map[], 0), keys).1;
    var mine := seq(|at|, j requires 0 <= j < |at| => replies[at[j]]);
    forall j | 0 <= j < |at|
      ensures mine[j] == if c.outcome(at[j]).Done? then Some(Won(c.ttl, Commands(c, keys), at[j])) else None
    {
      RepliesAreWins(c, keys, at[j]);
    }
    if j :| 0 <= j < |at| && !c.outcome(at[j]).Done? {
      assert mine[j].None?;
    }
  }

  /** So, with a clock that does not run backwards, two not-seen answers for one key, from any two of the
      interleaved batches or from one, are at least ttl apart. */
  lemma NotSeenAreTtlApart(c: Config, keys: seq<string>, a: seq<nat>, b: seq<nat>, i: nat, j: nat)
    requires forall l :: 0 <= l < |a| ==> a[l] < |keys| && c.outcome(a[l]).Done?
    requires forall l :: 0 <= l < |b| ==> b[l] < |keys| && c.outcome(b[l]).Done?
    requires i < |a| && j < |b| && a[i] < b[j] && keys[a[i]] == keys[b[j]]
    requires forall t: nat, u: nat :: t <= u ==> c.clock(t) <= c.clock(u)
    ensures var replies := Served(c, Redis(map[], 0), keys).1;
            var first := Read(seq(|a|, l requires 0 <= l < |a| => replies[a[l]]));
            var second := Read(seq(|b|, l requires 0 <= l < |b| => replies[b[l]]));
            && first.Some? && second.Some?
            && (!first.value[i] && !second.value[j] ==> c.ttl > 0 && c.clock(b[j]) >= c.clock(a[i]) + c.ttl)
  {
    NotSeenAreWins(c, keys, a);
    NotSeenAreWins(c, keys, b);
    WinsAreTtlApart(c.ttl, Commands(c, keys), b[j]);
  }
}
