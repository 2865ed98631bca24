/** internal/pool/pool.go: a bounded FIFO channel drained by a fixed set of workers. Every channel
    operation and every sink write is one step; runs interleave them in any order. */
module Pool {
  import opened Events

  datatype Config = Config(workers: nat, capacity: nat)

  /** An event in a worker's hands; `pos` is its place in the order of acceptance (history). */
  datatype Held = Held(pos: nat, event: Event)

  /** A finished write; `ok` tells a sink success from a call of errFn. */
  datatype Finished = Finished(pos: nat, event: Event, ok: bool)

  /** `waiting` lists the workers blocked in a receive, longest first; `accepted` and `finished` are
      history. */
  datatype State = State(
    queue: seq<Event>, held: map<nat, Held>, waiting: seq<nat>, closed: bool, exited: set<nat>,
    accepted: seq<Event>, finished: seq<Finished>)

  datatype Action =
    | Enqueue(e: Event)        // a send into a free slot of the channel
    | Handoff(e: Event)        // a send straight to the worker that has waited longest
    | Park(w: nat)             // a worker finds the channel empty and waits
    | Take(w: nat)
    | Finish(w: nat, ok: bool)
    | Close                    // wakes the waiting workers
    | Exit(w: nat)             // the range loop ends on a closed and empty channel

  predicate Idle(c: Config, s: State, w: nat) {
    w < c.workers && w !in s.held && w !in s.exited && w !in s.waiting
  }

  predicate Enabled(c: Config, s: State, a: Action) {
    match a
    case Enqueue(_) => !s.closed && s.waiting == [] && |s.queue| < c.capacity
    case Handoff(_) => !s.closed && s.waiting != []
    case Park(w) => !s.closed && s.queue == [] && Idle(c, s, w)
    case Take(w) => s.queue != [] && Idle(c, s, w)
    case Finish(w, _) => w in s.held
    case Close => !s.closed
    case Exit(w) => s.closed && s.queue == [] && Idle(c, s, w)
  }

  /** How many accepted events have left the channel. */
  function Taken(s: State): nat {
    if |s.queue| <= |s.accepted| then |s.accepted| - |s.queue| else 0
  }

  function Step(c: Config, s: State, a: Action): State {
    if !Enabled(c, s, a) then s else
    match a
    case Enqueue(e) => s.(queue := s.queue + [e], accepted := s.accepted + [e])
    case Handoff(e) =>
      s.(held := s.held[s.waiting[0] := Held(|s.accepted|, e)], waiting := s.waiting[1..],
         accepted := s.accepted + [e])
    case Park(w) => s.(waiting := s.waiting + [w])
    case Take(w) =>
      s.(queue := s.queue[1..], held := s.held[w := Held(Taken(s), s.queue[0])])
    case Finish(w, ok) =>
      s.(held := s.held - {w}, finished := s.finished + [Finished(s.held[w].pos, s.held[w].event, ok)])
    case Close => s.(closed := true, waiting := [])
    case Exit(w) => s.(exited := s.exited + {w})
  }

  ghost function Reach(c: Config, s: State, run: seq<Action>): State
    decreases |run|
  {
    if run == [] then s else Reach(c, Step(c, s, run[0]), run[1..])
  }

  function Start(): State {
    State([], map[], [], false, {}, [], [])
  }

  /** Close returns once the channel is closed and all workers are gone. */
  ghost predicate Returned(c: Config, s: State) {
    s.closed && s.exited == Workers(c.workers)
  }

  ghost function Workers(n: nat): (ws: set<nat>)
    ensures forall w: nat :: w in ws <==> w < n
  {
    if n == 0 then {} else Workers(n - 1) + {n - 1}
  }

  // ---- Every accepted event is in exactly one place --------------------------------------------

  ghost predicate Sizes(c: Config, s: State) {
    && |s.queue| <= c.capacity && |s.queue| <= |s.accepted|
    && s.queue == s.accepted[|s.accepted| - |s.queue|..]
    && s.held.Keys <= Workers(c.workers) && s.exited <= Workers(c.workers) && s.held.Keys !! s.exited
    && (s.exited != {} ==> s.closed && s.queue == [])
    && WaitingOk(c, s)
  }

  /** Whoever waits has nothing in hand, and nobody waits beside a non-empty or closed channel. */
  ghost predicate WaitingOk(c: Config, s: State) {
    && (forall i :: 0 <= i < |s.waiting| ==>
          s.waiting[i] < c.workers && s.waiting[i] !in s.held && s.waiting[i] !in s.exited)
    && (forall i, j :: 0 <= i < j < |s.waiting| ==> s.waiting[i] != s.waiting[j])
    && (s.waiting != [] ==> s.queue == [] && !s.closed)
  }

  ghost predicate FinishedAt(s: State, p: nat) {
    exists k :: 0 <= k < |s.finished| && s.finished[k].pos == p
  }

  ghost predicate HeldAt(s: State, p: nat) {
    exists w :: w in s.held && s.held[w].pos == p
  }

  ghost predicate Placed(s: State) {
    && (forall w :: w in s.held ==> s.held[w].pos < Taken(s) && s.held[w].event == s.accepted[s.held[w].pos])
    && (forall k :: 0 <= k < |s.finished| ==>
          s.finished[k].pos < Taken(s) && s.finished[k].event == s.accepted[s.finished[k].pos])
    && (forall v, w :: v in s.held && w in s.held && s.held[v].pos == s.held[w].pos ==> v == w)
    && (forall i, j :: 0 <= i < j < |s.finished| ==> s.finished[i].pos != s.finished[j].pos)
    && (forall w :: w in s.held ==> !FinishedAt(s, s.held[w].pos))
    && (forall p: nat :: p < Taken(s) ==> HeldAt(s, p) || FinishedAt(s, p))
  }

  lemma StepSizes(c: Config, s: State, a: Action)
    requires Sizes(c, s)
    ensures Sizes(c, Step(c, s, a))
  {
    StepWaiting(c, s, a);
  }

  lemma StepWaiting(c: Config, s: State, a: Action)
    requires WaitingOk(c, s)
    ensures WaitingOk(c, Step(c, s, a))
  {
  }

  lemma TakePlaced(c: Config, s: State, w: nat, h: Held, s': State)
    requires Sizes(c, s) && Placed(s) && w !in s.held
    requires s'.held == s.held[w := h] && s'.finished == s.finished && s.accepted <= s'.accepted
    requires h.pos == Taken(s) && Taken(s') == Taken(s) + 1 && h.pos < |s'.accepted| && h.event == s'.accepted[h.pos]
    ensures Placed(s')
  {
    assert s'.held[w] == h;
    forall v | v in s.held
      ensures s'.held[v] == s.held[v]
    {
    }
    forall p: nat | p < Taken(s')
      ensures HeldAt(s', p) || FinishedAt(s', p)
    {
      if p < Taken(s) && HeldAt(s, p) {
        var v :| v in s.held && s.held[v].pos == p;
        assert s'.held[v].pos == p;
      }
    }
    assert forall p: nat :: FinishedAt(s', p) <==> FinishedAt(s, p);
  }

  lemma FinishMarks(s: State, s': State, f: Finished, q: nat)
    requires s'.finished == s.finished + [f]
    ensures FinishedAt(s', q) <==> FinishedAt(s, q) || q == f.pos
  {
    assert s'.finished[|s.finished|] == f;
    if FinishedAt(s, q) {
      var k :| 0 <= k < |s.finished| && s.finished[k].pos == q;
      assert s'.finished[k].pos == q;
    }
  }

  lemma FinishCovers(c: Config, s: State, w: nat, ok: bool, q: nat)
    requires Placed(s) && w in s.held && q < Taken(s)
    ensures HeldAt(Step(c, s, Finish(w, ok)), q) || FinishedAt(Step(c, s, Finish(w, ok)), q)
  {
    var s' := Step(c, s, Finish(w, ok));
    FinishMarks(s, s', s'.finished[|s.finished|], q);
    if q != s.held[w].pos && HeldAt(s, q) {
      var v :| v in s.held && s.held[v].pos == q;
      assert v in s'.held && s'.held[v].pos == q;
    }
  }

  lemma FinishPlaced(c: Config, s: State, w: nat, ok: bool)
    requires Sizes(c, s) && Placed(s) && w in s.held
    ensures Placed(Step(c, s, Finish(w, ok)))
  {
    var s', p := Step(c, s, Finish(w, ok)), s.held[w].pos;
    forall q: nat | q < Taken(s')
      ensures HeldAt(s', q) || FinishedAt(s', q)
    {
      FinishCovers(c, s, w, ok, q);
    }
    forall i, j | 0 <= i < j < |s'.finished|
      ensures s'.finished[i].pos != s'.finished[j].pos
    {
      assert s.finished[i].pos == p ==> FinishedAt(s, p);
    }
    forall v | v in s'.held
      ensures s'.held[v].pos < Taken(s') && !FinishedAt(s', s'.held[v].pos)
    {
      FinishMarks(s, s', s'.finished[|s.finished|], s.held[v].pos);
    }
  }

  lemma StepPlaced(c: Config, s: State, a: Action)
    requires Sizes(c, s) && Placed(s)
    ensures Placed(Step(c, s, a))
  {
    if Enabled(c, s, a) {
      var s' := Step(c, s, a);
      match a
      case Enqueue(e) => SamePlaces(s, s');
      case Handoff(e) => TakePlaced(c, s, s.waiting[0], Held(|s.accepted|, e), s');
      case Park(w) => SamePlaces(s, s');
      case Take(w) => TakePlaced(c, s, w, Held(Taken(s), s.queue[0]), s');
      case Finish(w, ok) => FinishPlaced(c, s, w, ok);
      case Close => SamePlaces(s, s');
      case Exit(w) => SamePlaces(s, s');
    }
  }

  lemma SamePlaces(s: State, s': State)
    requires Placed(s) && s'.held == s.held && s'.finished == s.finished && s.accepted <= s'.accepted
    requires Taken(s) == Taken(s')
    ensures Placed(s')
  {
    assert forall p: nat :: FinishedAt(s', p) <==> FinishedAt(s, p);
    assert forall p: nat :: HeldAt(s', p) <==> HeldAt(s, p);
  }

  // ---- Conservation as multisets --------------------------------------------------------------

  ghost function HeldCount(held: map<nat, Held>, n: nat, e: Event): nat {
    if n == 0 then 0 else
      HeldCount(held, n - 1, e) + if n - 1 in held && held[n - 1].event == e then 1 else 0
  }

  ghost function DoneCount(fs: seq<Finished>, e: Event): nat {
    if fs == [] then 0 else
      DoneCount(fs[..|fs| - 1], e) + if fs[|fs| - 1].event == e then 1 else 0
  }

  /** Accepted = queued + held by workers + written + reported to errFn, for every event. */
  ghost predicate Conserved(c: Config, s: State) {
    forall e: Event :: Balanced(c, s, e)
  }

  ghost predicate Balanced(c: Config, s: State, e: Event) {
    multiset(s.accepted)[e] == multiset(s.queue)[e] + HeldCount(s.held, c.workers, e) + DoneCount(s.finished, e)
  }

  lemma {:induction false} HeldAdd(held: map<nat, Held>, n: nat, w: nat, h: Held, e: Event)
    requires w !in held
    ensures HeldCount(held[w := h], n, e) == HeldCount(held, n, e) + if w < n && h.event == e then 1 else 0
    decreases n
  {
    if n > 0 {
      HeldAdd(held, n - 1, w, h, e);
    }
  }

  lemma TakeBalanced(c: Config, s: State, w: nat, x: Event)
    requires Sizes(c, s) && Balanced(c, s, x) && Enabled(c, s, Take(w))
    ensures Balanced(c, Step(c, s, Take(w)), x)
  {
    HeldAdd(s.held, c.workers, w, Held(Taken(s), s.queue[0]), x);
    assert s.queue == [s.queue[0]] + s.queue[1..];
  }

  lemma HeldRemove(held: map<nat, Held>, n: nat, w: nat, e: Event)
    requires w in held && w < n
    ensures HeldCount(held, n, e) == HeldCount(held - {w}, n, e) + if held[w].event == e then 1 else 0
  {
    HeldAdd(held - {w}, n, w, held[w], e);
    assert (held - {w})[w := held[w]] == held;
  }

  lemma DoneMore(fs: seq<Finished>, f: Finished, e: Event)
    ensures DoneCount(fs + [f], e) == DoneCount(fs, e) + if f.event == e then 1 else 0
  {
    assert (fs + [f])[..|fs|] == fs;
  }

  lemma FinishBalanced(c: Config, s: State, w: nat, ok: bool, x: Event)
    requires w in s.held && w < c.workers && Balanced(c, s, x)
    ensures Balanced(c, Step(c, s, Finish(w, ok)), x)
  {
    HeldRemove(s.held, c.workers, w, x);
    DoneMore(s.finished, Finished(s.held[w].pos, s.held[w].event, ok), x);
  }

  lemma StepBalanced(c: Config, s: State, a: Action, x: Event)
    requires Sizes(c, s) && Balanced(c, s, x)
    ensures Balanced(c, Step(c, s, a), x)
  {
    if Enabled(c, s, a) {
      var s' := Step(c, s, a);
      match a
      case Enqueue(e) =>
      case Handoff(e) => HeldAdd(s.held, c.workers, s.waiting[0], Held(|s.accepted|, e), x);
      case Park(w) =>
      case Take(w) => TakeBalanced(c, s, w, x);
      case Finish(w, ok) =>
        assert w in Workers(c.workers);
        FinishBalanced(c, s, w, ok, x);
      case Close =>
      case Exit(w) =>
    }
  }

  // ---- Bounded reordering ------------------------------------------------------------------------

  ghost function Unfinished(s: State, i: nat): set<nat> {
    set j: nat | j < i && !FinishedAt(s, j)
  }

  /** When an event's write is finished, at most workers - 1 earlier ones are not. */
  ghost predicate NearlyInOrder(c: Config, s: State) {
    forall k :: 0 <= k < |s.finished| ==> |Unfinished(s, s.finished[k].pos)| <= c.workers - 1
  }

  lemma {:induction false} WorkersCount(n: nat)
    ensures |Workers(n)| == n
    decreases n
  {
    if n > 0 {
      WorkersCount(n - 1);
      assert Workers(n) == Workers(n - 1) + {n - 1};
    }
  }

  lemma SubsetSize<X>(a: set<X>, b: set<X>)
    requires a <= b
    ensures |a| <= |b|
  {
    assert b == a + (b - a);
  }

  ghost function Positions(held: map<nat, Held>, ws: set<nat>): set<nat>
    requires ws <= held.Keys
  {
    set w | w in ws :: held[w].pos
  }

  lemma {:induction false} PositionsSize(held: map<nat, Held>, ws: set<nat>)
    requires ws <= held.Keys
    ensures |Positions(held, ws)| <= |ws|
    decreases |ws|
  {
    if ws != {} {
      var w :| w in ws;
      PositionsSize(held, ws - {w});
      assert Positions(held, ws) == Positions(held, ws - {w}) + {held[w].pos};
    }
  }

  /** What is unfinished below `p` is in hands, at most one event in each. */
  lemma HeldBound(s: State, p: nat, ws: set<nat>)
    requires s.held.Keys <= ws && forall j :: j in Unfinished(s, p) ==> HeldAt(s, j)
    ensures |Unfinished(s, p)| <= |ws|
  {
    forall j | j in Unfinished(s, p)
      ensures j in Positions(s.held, s.held.Keys)
    {
      assert HeldAt(s, j);
    }
    SubsetSize(Unfinished(s, p), Positions(s.held, s.held.Keys));
    PositionsSize(s.held, s.held.Keys);
    SubsetSize(s.held.Keys, ws);
  }

  /** All unfinished events below a taken position are in the hands of the other workers. */
  lemma FinishIsNear(c: Config, s: State, w: nat, ok: bool)
    requires Sizes(c, s) && Placed(s) && w in s.held
    ensures var s' := Step(c, s, Finish(w, ok));
            |Unfinished(s', s.held[w].pos)| <= c.workers - 1
  {
    var s', p := Step(c, s, Finish(w, ok)), s.held[w].pos;
    FinishPlaced(c, s, w, ok);
    UnfinishedHeld(s', p);
    HeldBound(s', p, Workers(c.workers) - {w});
    WorkersCount(c.workers);
  }

  lemma UnfinishedHeld(s: State, p: nat)
    requires Placed(s) && p <= Taken(s)
    ensures forall j :: j in Unfinished(s, p) ==> HeldAt(s, j)
  {
  }

  lemma StepNear(c: Config, s: State, a: Action)
    requires Sizes(c, s) && Placed(s) && NearlyInOrder(c, s)
    ensures NearlyInOrder(c, Step(c, s, a))
  {
    var s' := Step(c, s, a);
    forall k | 0 <= k < |s'.finished|
      ensures |Unfinished(s', s'.finished[k].pos)| <= c.workers - 1
    {
      if k < |s.finished| {
        var i := s.finished[k].pos;
        forall j: nat | FinishedAt(s, j)
          ensures FinishedAt(s', j)
        {
          var m :| 0 <= m < |s.finished| && s.finished[m].pos == j;
          assert s'.finished[m].pos == j;
        }
        SubsetSize(Unfinished(s', i), Unfinished(s, i));
      } else {
        FinishIsNear(c, s, a.w, a.ok);
      }
    }
  }

  /** With one worker, writes finish in the order of acceptance. */
  ghost predicate InOrder(s: State) {
    && Taken(s) == |s.finished| + |s.held|
    && (forall k :: 0 <= k < |s.finished| ==> s.finished[k].pos == k)
    && (forall w :: w in s.held ==> s.held[w].pos == |s.finished|)
  }

  lemma StepInOrder(c: Config, s: State, a: Action)
    requires Sizes(c, s) && InOrder(s) && c.workers == 1
    ensures InOrder(Step(c, s, a))
  {
    var s' := Step(c, s, a);
    if Enabled(c, s, a) {
      match a
      case Handoff(e) =>
        FreeHand(c, s, s.waiting[0]);
        TakeInOrder(s, s.waiting[0], Held(|s.accepted|, e), s');
      case Take(w) =>
        FreeHand(c, s, w);
        TakeInOrder(s, w, Held(Taken(s), s.queue[0]), s');
      case Finish(w, ok) =>
        OnlyHand(c, s, w);
        FinishInOrder(s, w, ok, s');
      case Enqueue(_) => SameInOrder(s, s');
      case Park(_) => SameInOrder(s, s');
      case Close => SameInOrder(s, s');
      case Exit(_) => SameInOrder(s, s');
    }
  }

  lemma SameInOrder(s: State, s': State)
    requires InOrder(s) && s'.held == s.held && s'.finished == s.finished && Taken(s') == Taken(s)
    ensures InOrder(s')
  {
  }

  lemma TakeInOrder(s: State, w: nat, h: Held, s': State)
    requires InOrder(s) && s.held == map[] && h.pos == Taken(s)
    requires s'.held == s.held[w := h] && s'.finished == s.finished && Taken(s') == Taken(s) + 1
    ensures InOrder(s')
  {
    assert s'.held == map[w := h];
  }

  lemma FinishInOrder(s: State, w: nat, ok: bool, s': State)
    requires InOrder(s) && w in s.held && |s.held| == 1 && s'.held == map[] && Taken(s') == Taken(s)
    requires s'.finished == s.finished + [Finished(s.held[w].pos, s.held[w].event, ok)]
    ensures InOrder(s')
  {
  }

  lemma FreeHand(c: Config, s: State, w: nat)
    requires s.held.Keys <= Workers(c.workers) && c.workers == 1 && w < 1 && w !in s.held
    ensures s.held == map[]
  {
    assert s.held.Keys == {};
  }

  lemma OnlyHand(c: Config, s: State, w: nat)
    requires s.held.Keys <= Workers(c.workers) && c.workers == 1 && w in s.held
    ensures s.held - {w} == map[] && |s.held| == 1
  {
    assert s.held.Keys == {w};
    assert (s.held - {w}).Keys == {};
  }

  // ---- Every run ---------------------------------------------------------------------------------

  ghost predicate Inv(c: Config, s: State) {
    && Sizes(c, s) && Placed(s) && Conserved(c, s) && NearlyInOrder(c, s)
    && (c.workers == 1 ==> InOrder(s))
  }

  lemma StepKeepsInv(c: Config, s: State, a: Action)
    requires Inv(c, s)
    ensures Inv(c, Step(c, s, a))
  {
    StepSizes(c, s, a);
    StepPlaced(c, s, a);
    StepNear(c, s, a);
    forall e: Event
      ensures Balanced(c, Step(c, s, a), e)
    {
      assert Balanced(c, s, e);
      StepBalanced(c, s, a, e);
    }
    if c.workers == 1 {
      StepInOrder(c, s, a);
    }
  }

  lemma {:induction false} EveryRunKeepsInv(c: Config, s: State, run: seq<Action>)
    requires Inv(c, s)
    ensures Inv(c, Reach(c, s, run))
    decreases |run|
  {
    if run != [] {
      StepKeepsInv(c, s, run[0]);
      EveryRunKeepsInv(c, Step(c, s, run[0]), run[1..]);
    }
  }

  lemma {:induction false} NothingHeld(n: nat, e: Event)
    ensures HeldCount(map[], n, e) == 0
    decreases n
  {
    if n > 0 {
      NothingHeld(n - 1, e);
    }
  }

  lemma StartSizes(c: Config)
    ensures Sizes(c, Start()) && InOrder(Start())
  {
  }

  lemma NothingPlaced(c: Config, s: State)
    requires s.held == map[] && s.finished == [] && s.accepted == [] && s.queue == []
    ensures Placed(s) && NearlyInOrder(c, s) && Conserved(c, s)
  {
    forall e: Event
      ensures Balanced(c, s, e)
    {
      NothingHeld(c.workers, e);
    }
  }

  lemma StartInv(c: Config)
    ensures Inv(c, Start())
  {
    StartSizes(c);
    NothingPlaced(c, Start());
  }

  /** In every run: when a write is finished, at most workers - 1 earlier-accepted events are not;
      with one worker the writes are the accepted events in order. */
  lemma ReorderingIsBounded(c: Config, run: seq<Action>, k: nat)
    requires k < |Reach(c, Start(), run).finished|
    ensures var s := Reach(c, Start(), run);
            && |Unfinished(s, s.finished[k].pos)| <= c.workers - 1
            && s.finished[k].pos < |s.accepted| && s.finished[k].event == s.accepted[s.finished[k].pos]
            && (c.workers == 1 ==> s.finished[k].pos == k)
  {
    StartInv(c);
    EveryRunKeepsInv(c, Start(), run);
  }

  /** Memory stays bounded: queue + held <= capacity + workers. */
  lemma Backpressure(c: Config, run: seq<Action>)
    ensures var s := Reach(c, Start(), run);
            |s.queue| <= c.capacity && |s.queue| + |s.held| <= c.capacity + c.workers
  {
    StartInv(c);
    EveryRunKeepsInv(c, Start(), run);
    var s := Reach(c, Start(), run);
    WorkersCount(c.workers);
    SubsetSize(s.held.Keys, Workers(c.workers));
  }

  /** Nothing is queued or held, and each accepted event was written or reported. */
  ghost predicate Drained(s: State) {
    && s.queue == [] && s.held == map[] && |s.finished| == |s.accepted|
    && (forall e: Event :: AllDone(s, e))
  }

  ghost predicate AllDone(s: State, e: Event) {
    multiset(s.accepted)[e] == DoneCount(s.finished, e)
  }

  lemma DrainedWhenReturned(c: Config, s: State)
    requires Inv(c, s) && (c.workers >= 1 || c.capacity == 0) && Returned(c, s)
    ensures Drained(s)
  {
    assert c.workers >= 1 ==> 0 in Workers(c.workers);
    assert s.held.Keys == {};
    forall e: Event
      ensures AllDone(s, e)
    {
      assert Balanced(c, s, e);
      NothingHeld(c.workers, e);
    }
    FinishedAll(s);
  }

  /** Close drains: with a worker, or without a buffer, nothing is queued or held when it returns, and
      every accepted event was written or reported. */
  lemma CloseDrains(c: Config, run: seq<Action>)
    requires c.workers >= 1 || c.capacity == 0
    requires Returned(c, Reach(c, Start(), run))
    ensures Drained(Reach(c, Start(), run))
  {
    StartInv(c);
    EveryRunKeepsInv(c, Start(), run);
    DrainedWhenReturned(c, Reach(c, Start(), run));
  }

  lemma FinishedAll(s: State)
    requires Placed(s) && s.queue == [] && s.held == map[]
    ensures |s.finished| == |s.accepted|
  {
    var n := |s.finished|;
    var ps := set k | 0 <= k < n :: s.finished[k].pos;
    forall p | p in Workers(|s.accepted|)
      ensures p in ps
    {
      assert FinishedAt(s, p);
    }
    assert ps == Workers(|s.accepted|);
    WorkersCount(|s.accepted|);
    DistinctSize(s.finished);
  }

  lemma {:induction false} DistinctSize(fs: seq<Finished>)
    requires forall i, j :: 0 <= i < j < |fs| ==> fs[i].pos != fs[j].pos
    ensures |set k | 0 <= k < |fs| :: fs[k].pos| == |fs|
    decreases |fs|
  {
    if fs != [] {
      var n := |fs| - 1;
      var init := fs[..n];
      DistinctSize(init);
      var a, b := set k | 0 <= k < |fs| :: fs[k].pos, set k | 0 <= k < |init| :: init[k].pos;
      forall p | p in a
        ensures p in b + {fs[n].pos}
      {
        var k :| 0 <= k < |fs| && fs[k].pos == p;
        assert k < n ==> init[k].pos == p;
      }
      forall p | p in b
        ensures p in a
      {
        var k :| 0 <= k < |init| && init[k].pos == p;
        assert fs[k].pos == p;
      }
      assert a == b + {fs[n].pos};
    }
  }

  /** Without workers Close returns at once and leaves the queue behind. */
  lemma NoWorkersNoDrain(c: Config, e: Event)
    requires c.workers == 0 && c.capacity > 0
    ensures var s := Reach(c, Start(), [Enqueue(e), Close]);
            Returned(c, s) && s.queue == [e]
  {
    var run := [Enqueue(e), Close];
    var s1 := Step(c, Start(), run[0]);
    assert run[1..] == [Close];
    assert Reach(c, s1, [Close]) == Reach(c, Step(c, s1, Close), []);
    assert Workers(0) == {};
  }

  /** Exactly when Close drains: in every run that it ends, nothing is left in the channel and every
      accepted event was written or reported, if and only if there is a worker or no buffer. */
  lemma DrainsIff(c: Config)
    ensures (forall run: seq<Action> :: Returned(c, Reach(c, Start(), run)) ==> Drained(Reach(c, Start(), run)))
            <==> c.workers >= 1 || c.capacity == 0
  {
    forall run: seq<Action> | (c.workers >= 1 || c.capacity == 0) && Returned(c, Reach(c, Start(), run))
      ensures Drained(Reach(c, Start(), run))
    {
      CloseDrains(c, run);
    }
    if c.workers == 0 && c.capacity > 0 {
      var e := Event("", "", 0, "", 0.0);
      NoWorkersNoDrain(c, e);
      assert !Drained(Reach(c, Start(), [Enqueue(e), Close]));
    }
  }

  /** What is left to do after Close. */
  ghost function Work(c: Config, s: State): int {
    2 * |s.queue| + |s.held| + (c.workers - |s.exited|)
  }

  /** After Close the drain always goes on until Close returns: some worker can move, and every move
      of a worker leaves less to do. */
  lemma DrainProgress(c: Config, s: State)
    requires Sizes(c, s) && s.closed && c.workers >= 1 && !Returned(c, s)
    ensures exists a: Action :: Enabled(c, s, a)
    ensures forall a: Action :: Enabled(c, s, a) ==> 0 <= Work(c, Step(c, s, a)) < Work(c, s)
  {
    WorkersCount(c.workers);
    SubsetSize(s.exited, Workers(c.workers));
    if w :| w in s.held {
      assert Enabled(c, s, Finish(w, true));
    } else {
      var w :| w in Workers(c.workers) && w !in s.exited;
      assert Idle(c, s, w);
      assert Enabled(c, s, Take(w)) || Enabled(c, s, Exit(w));
    }
    forall a: Action | Enabled(c, s, a)
      ensures 0 <= Work(c, Step(c, s, a)) < Work(c, s)
    {
      MoveWorks(c, s, a);
    }
  }

  /** Open or closed, nothing that was accepted is left lying: while something is queued or held, some
      worker can take or finish a write, and whatever takes or finishes leaves less to do. */
  lemma WorkProgress(c: Config, s: State)
    requires Sizes(c, s) && c.workers >= 1 && (s.queue != [] || s.held != map[])
    ensures exists a: Action :: (a.Take? || a.Finish?) && Enabled(c, s, a)
    ensures forall a: Action :: (a.Take? || a.Finish?) && Enabled(c, s, a) ==>
              2 * |Step(c, s, a).queue| + |Step(c, s, a).held| < 2 * |s.queue| + |s.held|
  {
    if w :| w in s.held {
      assert Enabled(c, s, Finish(w, true));
    } else {
      assert Idle(c, s, 0) && Enabled(c, s, Take(0));
    }
    forall a: Action | (a.Take? || a.Finish?) && Enabled(c, s, a)
      ensures 2 * |Step(c, s, a).queue| + |Step(c, s, a).held| < 2 * |s.queue| + |s.held|
    {
      HandsCount(s.held, a.w, if a.Take? then Held(Taken(s), s.queue[0]) else s.held[a.w]);
    }
  }

  lemma HandsCount(held: map<nat, Held>, w: nat, h: Held)
    ensures w !in held ==> |held[w := h]| == |held| + 1
    ensures w in held ==> |held - {w}| == |held| - 1
  {
    assert w !in held ==> held[w := h].Keys == held.Keys + {w};
    assert w in held ==> (held - {w}).Keys == held.Keys - {w};
  }

  lemma ExitedCount(c: Config, s: State)
    requires Sizes(c, s)
    ensures |s.exited| <= c.workers
  {
    WorkersCount(c.workers);
    SubsetSize(s.exited, Workers(c.workers));
  }

  lemma MoveWorks(c: Config, s: State, a: Action)
    requires Sizes(c, s) && s.closed && Enabled(c, s, a)
    ensures 0 <= Work(c, Step(c, s, a)) < Work(c, s)
  {
    StepSizes(c, s, a);
    ExitedCount(c, Step(c, s, a));
    match a
    case Take(w) => HandsCount(s.held, w, Held(Taken(s), s.queue[0]));
    case Finish(w, ok) => HandsCount(s.held, w, s.held[w]);
    case Exit(w) => assert |s.exited + {w}| == |s.exited| + 1;
  }

  // ---- The pool itself ---------------------------------------------------------------------------

  /** The send that the runtime performs: to a waiting worker if there is one, else into the buffer. */
  function Send(s: State, e: Event): Action {
    if s.waiting != [] then Handoff(e) else Enqueue(e)
  }

  /** Somebody waits for the event, or there is a free slot for it. */
  predicate Room(c: Config, s: State) {
    s.waiting != [] || |s.queue| < c.capacity
  }

  predicate WorkerMove(a: Action) {
    a.Park? || a.Take? || a.Finish? || a.Exit?
  }

  /** What goes on around one Submit: whether select finds the context done first, and what the
      workers do while the send blocks. The context expires when `moves` is used up. */
  datatype Wait = Wait(cancelled: bool, moves: seq<Action>)

  ghost function Moved(c: Config, s: State, a: Action): State {
    if WorkerMove(a) then Step(c, s, a) else s
  }

  ghost function WorkedOff(c: Config, s: State, moves: seq<Action>): State
    decreases |moves|
  {
    if moves == [] then s else WorkedOff(c, Moved(c, s, moves[0]), moves[1..])
  }

  ghost function Submitted(c: Config, s: State, e: Event, wait: Wait): (State, bool)
    decreases |wait.moves|
  {
    if wait.cancelled then (s, false)
    else if !s.closed && Room(c, s) then (Step(c, s, Send(s, e)), true)
    else if wait.moves == [] then (s, false)
    else Submitted(c, Moved(c, s, wait.moves[0]), e, wait.(moves := wait.moves[1..]))
  }

  ghost predicate CanSend(c: Config, s: State) {
    !s.closed && Room(c, s)
  }

  /** After k moves of the workers the send is possible for the first time. */
  ghost predicate FirstRoom(c: Config, s: State, moves: seq<Action>, k: nat) {
    && k <= |moves| && CanSend(c, WorkedOff(c, s, moves[..k]))
    && forall j :: 0 <= j < k ==> !CanSend(c, WorkedOff(c, s, moves[..j]))
  }

  /** Submit blocks: unless select finds the context done it goes on waiting until there is room, sends as
      soon as there is, and fails exactly when there is none until the context is done. */
  lemma {:induction false} SubmitWaits(c: Config, s: State, e: Event, wait: Wait)
    ensures var (t, ok) := Submitted(c, s, e, wait);
            && (ok <==> !wait.cancelled && exists k: nat :: FirstRoom(c, s, wait.moves, k))
            && (forall k: nat :: !wait.cancelled && FirstRoom(c, s, wait.moves, k) ==>
                  var u := WorkedOff(c, s, wait.moves[..k]); t == Step(c, u, Send(u, e)))
            && (!ok ==> t == if wait.cancelled then s else WorkedOff(c, s, wait.moves))
    decreases |wait.moves|
  {
    var moves := wait.moves;
    assert moves[..0] == [] && WorkedOff(c, s, []) == s;
    if CanSend(c, s) {
      assert FirstRoom(c, s, moves, 0);
    } else if !wait.cancelled && moves != [] {
      var s1 := Moved(c, s, moves[0]);
      SubmitWaits(c, s1, e, wait.(moves := moves[1..]));
      forall k: nat | k < |moves|
        ensures FirstRoom(c, s, moves, k + 1) <==> FirstRoom(c, s1, moves[1..], k)
        ensures WorkedOff(c, s, moves[..k + 1]) == WorkedOff(c, s1, moves[1..][..k])
      {
        LaterRoom(c, s, moves, k);
      }
      assert forall k: nat :: FirstRoom(c, s, moves, k) ==> k > 0;
      assert forall k: nat :: FirstRoom(c, s, moves, k) ==> FirstRoom(c, s1, moves[1..], k - 1);
    }
  }

  lemma MoveFirst(c: Config, s: State, moves: seq<Action>, k: nat)
    requires k < |moves|
    ensures WorkedOff(c, s, moves[..k + 1]) == WorkedOff(c, Moved(c, s, moves[0]), moves[1..][..k])
  {
    assert moves[..k + 1][1..] == moves[1..][..k];
  }

  lemma LaterRoom(c: Config, s: State, moves: seq<Action>, k: nat)
    requires k < |moves| && !CanSend(c, s)
    ensures WorkedOff(c, s, moves[..k + 1]) == WorkedOff(c, Moved(c, s, moves[0]), moves[1..][..k])
    ensures FirstRoom(c, s, moves, k + 1) <==> FirstRoom(c, Moved(c, s, moves[0]), moves[1..], k)
  {
    var s1, rest := Moved(c, s, moves[0]), moves[1..];
    assert moves[..0] == [] && WorkedOff(c, s, []) == s;
    forall j: nat | j <= k
      ensures WorkedOff(c, s, moves[..j + 1]) == WorkedOff(c, s1, rest[..j])
    {
      MoveFirst(c, s, moves, j);
    }
    if FirstRoom(c, s, moves, k + 1) {
      forall j | 0 <= j < k
        ensures !CanSend(c, WorkedOff(c, s1, rest[..j]))
      {
        assert !CanSend(c, WorkedOff(c, s, moves[..j + 1]));
      }
    }
    if FirstRoom(c, s1, rest, k) {
      forall j | 0 <= j < k + 1
        ensures !CanSend(c, WorkedOff(c, s, moves[..j]))
      {
        if j > 0 {
          assert WorkedOff(c, s, moves[..j - 1 + 1]) == WorkedOff(c, s1, rest[..j - 1]);
        }
      }
    }
  }

  // ---- What the sink said ---------------------------------------------------------------------

  /** How many writes ended with `ok`, and how many steps of a run ended a write so. */
  ghost function CountOk(fs: seq<Finished>, ok: bool): nat {
    if fs == [] then 0 else CountOk(fs[..|fs| - 1], ok) + if fs[|fs| - 1].ok == ok then 1 else 0
  }

  ghost function Writes(c: Config, s: State, run: seq<Action>, ok: bool): nat
    decreases |run|
  {
    if run == [] then 0 else
      (if run[0].Finish? && run[0].ok == ok && Enabled(c, s, run[0]) then 1 else 0)
      + Writes(c, Step(c, s, run[0]), run[1..], ok)
  }

  /** Each write is recorded with the sink's own verdict: errFn is called once for each failed write, and
      never for a successful one. */
  lemma {:induction false} VerdictsAreKept(c: Config, s: State, run: seq<Action>, ok: bool)
    ensures CountOk(Reach(c, s, run).finished, ok) == CountOk(s.finished, ok) + Writes(c, s, run, ok)
    decreases |run|
  {
    if run != [] {
      var s1 := Step(c, s, run[0]);
      VerdictsAreKept(c, s1, run[1..], ok);
      if s1.finished != s.finished {
        assert s1.finished[..|s.finished|] == s.finished;
      }
    }
  }

  class Pool {
    const c: Config
    var queue: seq<Event>
    var held: map<nat, Held>
    var waiting: seq<nat>
    var closed: bool
    var exited: set<nat>
    var accepted: seq<Event>
    var finished: seq<Finished>

    function Value(): State
      reads this
    {
      State(queue, held, waiting, closed, exited, accepted, finished)
    }

    constructor (workers: nat, queueSize: nat)
      ensures c == Config(workers, queueSize) && Value() == Start()
    {
      c := Config(workers, queueSize);
      queue, held, waiting, closed, exited, accepted, finished := [], map[], [], false, {}, [], [];
    }

    /** On an open channel it fails exactly when the buffer is full and no worker waits. */
    method TrySubmit(e: Event) returns (ok: bool)
      modifies this
      ensures ok <==> !old(closed) && (old(waiting) != [] || |old(queue)| < c.capacity)
      ensures Value() == if ok then Step(c, old(Value()), Send(old(Value()), e)) else old(Value())
      ensures ok && old(waiting) != [] ==> queue == old(queue) && waiting == old(waiting)[1..]
                                           && held == old(held)[old(waiting)[0] := Held(|old(accepted)|, e)]
      ensures ok && old(waiting) == [] ==> queue == old(queue) + [e] && waiting == [] && held == old(held)
    {
      if closed {
        return false;
      }
      if |waiting| > 0 {
        held := held[waiting[0] := Held(|accepted|, e)];
        waiting := waiting[1..];
      } else if |queue| < c.capacity {
        queue := queue + [e];
      } else {
        return false;
      }
      accepted := accepted + [e];
      ok := true;
    }

    method Submit(e: Event, wait: Wait) returns (ok: bool)
      modifies this
      ensures (Value(), ok) == Submitted(c, old(Value()), e, wait)
      ensures !ok && !wait.cancelled ==> closed || (|queue| >= c.capacity && waiting == [])
    {
      if wait.cancelled {
        return false;
      }
      ok := TrySubmit(e);
      var i := 0;
      while !ok && i < |wait.moves|
        invariant 0 <= i <= |wait.moves|
        invariant ok ==> (Value(), ok) == Submitted(c, old(Value()), e, wait)
        invariant !ok ==> closed || !Room(c, Value())
        invariant !ok ==>
          Submitted(c, old(Value()), e, wait) == Submitted(c, Value(), e, wait.(moves := wait.moves[i..]))
      {
        assert wait.moves[i..][1..] == wait.moves[i + 1..];
        WorkerStep(wait.moves[i]);
        i := i + 1;
        ok := TrySubmit(e);
      }
    }

    /** One step of one worker goroutine. */
    method WorkerStep(a: Action)
      modifies this
      ensures Value() == Moved(c, old(Value()), a)
      ensures a.Park? && waiting != old(waiting) ==> waiting == old(waiting) + [a.w] && old(queue) == []
      ensures a.Take? && queue != old(queue) ==> old(queue) == [held[a.w].event] + queue
      ensures a.Finish? && finished != old(finished) ==>
                a.w in old(held) && held == old(held) - {a.w} &&
                finished == old(finished) + [Finished(old(held)[a.w].pos, old(held)[a.w].event, a.ok)]
    {
      if WorkerMove(a) && Enabled(c, Value(), a) {
        match a
        case Park(w) => waiting := waiting + [w];
        case Take(w) =>
          held := held[w := Held(Taken(Value()), queue[0])];
          queue := queue[1..];
        case Finish(w, ok) =>
          finished := finished + [Finished(held[w].pos, held[w].event, ok)];
          held := held - {w};
        case Exit(w) => exited := exited + {w};
      }
    }
  }
}
