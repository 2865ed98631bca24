/** internal/gateway/server.go and the shutdown order of cmd/gateway/main.go: accept and reject
    accounting over the shared pool. */
module Gateway {
  import opened Events
  import P = Pool

  // ---- One call of Push ---------------------------------------------------------------------------

  datatype Response = Response(accepted: nat, rejected: nat)

  /** One event in shed mode or in blocking mode. Workers may move before a shed-mode attempt too. */
  ghost function Offered(c: P.Config, shed: bool, s: P.State, e: Event, wait: P.Wait): (P.State, bool) {
    if shed then
      var s1 := P.WorkedOff(c, s, wait.moves);
      if !s1.closed && P.Room(c, s1) then (P.Step(c, s1, P.Send(s1, e)), true) else (s1, false)
    else P.Submitted(c, s, e, wait)
  }

  ghost function Counted(r: Response, ok: bool): Response {
    if ok then r.(accepted := r.accepted + 1) else r.(rejected := r.rejected + 1)
  }

  ghost function Pushed(
    c: P.Config, shed: bool, s: P.State, events: seq<Event>, waits: seq<P.Wait>, r: Response): (P.State, Response)
    requires |events| == |waits|
    decreases |events|
  {
    if events == [] then (s, r) else
      var (s1, ok) := Offered(c, shed, s, events[0], waits[0]);
      Pushed(c, shed, s1, events[1..], waits[1..], Counted(r, ok))
  }

  class Server {
    const pool: P.Pool
    const shed: bool

    constructor (pool: P.Pool, shed: bool)
      ensures this.pool == pool && this.shed == shed
    {
      this.pool, this.shed := pool, shed;
    }

    method Push(events: seq<Event>, waits: seq<P.Wait>) returns (resp: Response)
      requires |events| == |waits|
      modifies pool
      ensures (pool.Value(), resp) == Pushed(pool.c, shed, old(pool.Value()), events, waits, Response(0, 0))
    {
      resp := Response(0, 0);
      var i := 0;
      while i < |events|
        invariant 0 <= i <= |events|
        invariant Pushed(pool.c, shed, old(pool.Value()), events, waits, Response(0, 0))
               == Pushed(pool.c, shed, pool.Value(), events[i..], waits[i..], resp)
      {
        assert events[i..][1..] == events[i + 1..] && waits[i..][1..] == waits[i + 1..];
        var ok := Offer(events[i], waits[i]);
        if ok {
          resp := resp.(accepted := resp.accepted + 1);
        } else {
          resp := resp.(rejected := resp.rejected + 1);
        }
        i := i + 1;
      }
    }

    method Offer(e: Event, wait: P.Wait) returns (ok: bool)
      modifies pool
      ensures (pool.Value(), ok) == Offered(pool.c, shed, old(pool.Value()), e, wait)
      ensures !ok && (shed || !wait.cancelled) ==>
                pool.closed || (|pool.queue| >= pool.c.capacity && pool.waiting == [])
    {
      if shed {
        var i := 0;
        while i < |wait.moves|
          invariant 0 <= i <= |wait.moves|
          invariant P.WorkedOff(pool.c, old(pool.Value()), wait.moves)
                 == P.WorkedOff(pool.c, pool.Value(), wait.moves[i..])
        {
          assert wait.moves[i..][1..] == wait.moves[i + 1..];
          pool.WorkerStep(wait.moves[i]);
          i := i + 1;
        }
        ok := pool.TrySubmit(e);
      } else {
        ok := pool.Submit(e, wait);
      }
    }
  }

  /** Whether `picked` is what remains of `events` after leaving out some of them. */
  ghost predicate Subsequence(picked: seq<Event>, events: seq<Event>)
    decreases |events|
  {
    if events == [] then picked == [] else
      || Subsequence(picked, events[1..])
      || (picked != [] && picked[0] == events[0] && Subsequence(picked[1..], events[1..]))
  }

  lemma {:induction false} WorkKeeps(c: P.Config, s: P.State, moves: seq<P.Action>)
    requires P.Inv(c, s)
    ensures P.Inv(c, P.WorkedOff(c, s, moves))
    decreases |moves|
  {
    if moves != [] {
      P.StepKeepsInv(c, s, moves[0]);
      WorkKeeps(c, P.Moved(c, s, moves[0]), moves[1..]);
    }
  }

  lemma {:induction false} WorkAcceptsNothing(c: P.Config, s: P.State, moves: seq<P.Action>)
    ensures P.WorkedOff(c, s, moves).accepted == s.accepted
    decreases |moves|
  {
    if moves != [] {
      WorkAcceptsNothing(c, P.Moved(c, s, moves[0]), moves[1..]);
    }
  }

  lemma {:induction false} SubmitKeeps(c: P.Config, s: P.State, e: Event, wait: P.Wait)
    requires P.Inv(c, s)
    ensures P.Inv(c, P.Submitted(c, s, e, wait).0)
    decreases |wait.moves|
  {
    P.StepKeepsInv(c, s, P.Send(s, e));
    if !wait.cancelled && (s.closed || !P.Room(c, s)) && wait.moves != [] {
      P.StepKeepsInv(c, s, wait.moves[0]);
      SubmitKeeps(c, P.Moved(c, s, wait.moves[0]), e, wait.(moves := wait.moves[1..]));
    }
  }

  /** Submit never drops silently: unless select finds the context done it fails only when, in the
      end, the buffer of the open channel is full and no worker waits. */
  lemma {:induction false} SubmitMeans(c: P.Config, s: P.State, e: Event, wait: P.Wait)
    ensures var (t, ok) := P.Submitted(c, s, e, wait);
            && t.accepted == s.accepted + (if ok then [e] else [])
            && (!ok && !wait.cancelled ==> t.closed || (|t.queue| >= c.capacity && t.waiting == []))
    decreases |wait.moves|
  {
    if !wait.cancelled && (s.closed || !P.Room(c, s)) && wait.moves != [] {
      SubmitMeans(c, P.Moved(c, s, wait.moves[0]), e, wait.(moves := wait.moves[1..]));
    }
  }

  lemma OfferKeeps(c: P.Config, shed: bool, s: P.State, e: Event, wait: P.Wait)
    requires P.Inv(c, s)
    ensures P.Inv(c, Offered(c, shed, s, e, wait).0)
  {
    if shed {
      WorkKeeps(c, s, wait.moves);
      var s1 := P.WorkedOff(c, s, wait.moves);
      P.StepKeepsInv(c, s1, P.Send(s1, e));
    } else {
      SubmitKeeps(c, s, e, wait);
    }
  }

  /** In either mode an event is accepted as it is or not at all, and rejected only when the buffer is
      full and no worker waits, or, in blocking mode, when the context is done. */
  lemma OfferMeans(c: P.Config, shed: bool, s: P.State, e: Event, wait: P.Wait)
    ensures var (t, ok) := Offered(c, shed, s, e, wait);
            && t.accepted == s.accepted + (if ok then [e] else [])
            && (!ok && (shed || !wait.cancelled) ==> t.closed || (|t.queue| >= c.capacity && t.waiting == []))
            && (shed ==> (ok <==> P.CanSend(c, P.WorkedOff(c, s, wait.moves))))
  {
    if shed {
      WorkAcceptsNothing(c, s, wait.moves);
    } else {
      SubmitMeans(c, s, e, wait);
    }
  }

  lemma {:induction false} PushKeeps(
    c: P.Config, shed: bool, s: P.State, events: seq<Event>, waits: seq<P.Wait>, r: Response)
    requires P.Inv(c, s) && |events| == |waits|
    ensures P.Inv(c, Pushed(c, shed, s, events, waits, r).0)
    decreases |events|
  {
    if events != [] {
      OfferKeeps(c, shed, s, events[0], waits[0]);
      var (s1, ok) := Offered(c, shed, s, events[0], waits[0]);
      PushKeeps(c, shed, s1, events[1..], waits[1..], Counted(r, ok));
    }
  }

  /** One call, in either mode, whatever the workers do meanwhile: each event is counted once, and
      exactly the accepted ones entered the pool, in order. */
  lemma {:induction false} PushAccounts(
    c: P.Config, shed: bool, s: P.State, events: seq<Event>, waits: seq<P.Wait>, r: Response)
    returns (picked: seq<Event>)
    requires |events| == |waits|
    ensures var (t, resp) := Pushed(c, shed, s, events, waits, r);
            && resp.accepted + resp.rejected == r.accepted + r.rejected + |events|
            && t.accepted == s.accepted + picked && resp.accepted == r.accepted + |picked|
            && Subsequence(picked, events)
    decreases |events|
  {
    if events == [] {
      picked := [];
    } else {
      OfferMeans(c, shed, s, events[0], waits[0]);
      var (s1, ok) := Offered(c, shed, s, events[0], waits[0]);
      var rest := PushAccounts(c, shed, s1, events[1..], waits[1..], Counted(r, ok));
      var first := if ok then [events[0]] else [];
      picked := first + rest;
      assert s.accepted + first + rest == s.accepted + picked;
      if ok {
        assert picked[0] == events[0] && picked[1..] == rest;
      } else {
        assert picked == rest;
      }
    }
  }

  // ---- Any number of concurrent calls ---------------------------------------------------------

  datatype Call = Call(events: seq<Event>, next: nat, resp: Response, cancelled: bool, returned: bool)

  datatype State = State(pool: P.State, calls: seq<Call>, stopping: bool)

  datatype Action =
    | Begin(events: seq<Event>)
    | Accept(i: nat)
    | Cancel(i: nat)    // the call's context is done
    | Reject(i: nat)
    | Return(i: nat)
    | Worker(a: P.Action)
    | GracefulStop      // no new calls
    | ClosePool         // after GracefulStop waited for the running calls

  ghost predicate Running(s: State, i: nat) {
    i < |s.calls| && !s.calls[i].returned
  }

  ghost predicate AllReturned(s: State) {
    forall i :: 0 <= i < |s.calls| ==> s.calls[i].returned
  }

  ghost predicate Enabled(c: P.Config, shed: bool, s: State, a: Action) {
    match a
    case Begin(_) => !s.stopping
    case Accept(i) =>
      Running(s, i) && s.calls[i].next < |s.calls[i].events| && !s.pool.closed && P.Room(c, s.pool)
    case Cancel(i) => Running(s, i)
    case Reject(i) =>
      Running(s, i) && s.calls[i].next < |s.calls[i].events|
      && (if shed then !P.Room(c, s.pool) else s.calls[i].cancelled)
    case Return(i) => Running(s, i) && s.calls[i].next == |s.calls[i].events|
    case Worker(a) => P.WorkerMove(a) && P.Enabled(c, s.pool, a)
    case GracefulStop => !s.stopping
    case ClosePool => s.stopping && AllReturned(s) && !s.pool.closed
  }

  ghost function Step(c: P.Config, shed: bool, s: State, a: Action): State {
    if !Enabled(c, shed, s, a) then s else
    match a
    case Begin(events) => s.(calls := s.calls + [Call(events, 0, Response(0, 0), false, false)])
    case Accept(i) =>
      var call := s.calls[i];
      s.(pool := P.Step(c, s.pool, P.Send(s.pool, call.events[call.next])),
         calls := s.calls[i := call.(next := call.next + 1, resp := call.resp.(accepted := call.resp.accepted + 1))])
    case Cancel(i) => s.(calls := s.calls[i := s.calls[i].(cancelled := true)])
    case Reject(i) =>
      var call := s.calls[i];
      s.(calls := s.calls[i := call.(next := call.next + 1, resp := call.resp.(rejected := call.resp.rejected + 1))])
    case Return(i) => s.(calls := s.calls[i := s.calls[i].(returned := true)])
    case Worker(a) => s.(pool := P.Step(c, s.pool, a))
    case GracefulStop => s.(stopping := true)
    case ClosePool => s.(pool := P.Step(c, s.pool, P.Close))
  }

  ghost function Reach(c: P.Config, shed: bool, s: State, run: seq<Action>): State
    decreases |run|
  {
    if run == [] then s else Reach(c, shed, Step(c, shed, s, run[0]), run[1..])
  }

  ghost function Start(): State {
    State(P.Start(), [], false)
  }

  ghost function SumAccepted(calls: seq<Call>): nat {
    if calls == [] then 0 else calls[0].resp.accepted + SumAccepted(calls[1..])
  }

  lemma {:induction false} SumUpdate(calls: seq<Call>, i: nat, call: Call)
    requires i < |calls|
    ensures SumAccepted(calls[i := call]) == SumAccepted(calls) - calls[i].resp.accepted + call.resp.accepted
    decreases |calls|
  {
    if i == 0 {
      assert calls[0 := call][1..] == calls[1..];
    } else {
      assert calls[i := call][1..] == calls[1..][i - 1 := call];
      SumUpdate(calls[1..], i - 1, call);
    }
  }

  lemma {:induction false} SumAppend(calls: seq<Call>, call: Call)
    ensures SumAccepted(calls + [call]) == SumAccepted(calls) + call.resp.accepted
    decreases |calls|
  {
    if calls != [] {
      assert (calls + [call])[1..] == calls[1..] + [call];
      SumAppend(calls[1..], call);
    }
  }

  ghost predicate CallOk(shed: bool, call: Call) {
    && (!shed && call.resp.rejected > 0 ==> call.cancelled)
    && call.resp.accepted + call.resp.rejected == call.next <= |call.events|
    && (call.returned ==> call.next == |call.events|)
  }

  ghost predicate CallsOk(shed: bool, s: State) {
    && (forall i :: 0 <= i < |s.calls| ==> CallOk(shed, s.calls[i]))
    && SumAccepted(s.calls) == |s.pool.accepted|
    && (s.pool.closed ==> s.stopping && AllReturned(s))
  }

  ghost predicate Inv(c: P.Config, shed: bool, s: State) {
    P.Inv(c, s.pool) && CallsOk(shed, s)
  }

  lemma StepPool(c: P.Config, shed: bool, s: State, a: Action)
    requires P.Inv(c, s.pool)
    ensures P.Inv(c, Step(c, shed, s, a).pool)
  {
    if Enabled(c, shed, s, a) {
      match a
      case Accept(i) => P.StepKeepsInv(c, s.pool, P.Send(s.pool, s.calls[i].events[s.calls[i].next]));
      case Worker(move) => P.StepKeepsInv(c, s.pool, move);
      case ClosePool => P.StepKeepsInv(c, s.pool, P.Close);
      case _ =>
    }
  }

  lemma AcceptCalls(c: P.Config, shed: bool, s: State, i: nat)
    requires CallsOk(shed, s) && Enabled(c, shed, s, Accept(i))
    ensures CallsOk(shed, Step(c, shed, s, Accept(i)))
  {
    SumUpdate(s.calls, i, Step(c, shed, s, Accept(i)).calls[i]);
  }

  lemma CallChanged(shed: bool, s: State, i: nat, call: Call)
    requires CallsOk(shed, s) && Running(s, i) && CallOk(shed, call)
    requires call.resp.accepted == s.calls[i].resp.accepted
    ensures CallsOk(shed, s.(calls := s.calls[i := call]))
  {
    SumUpdate(s.calls, i, call);
  }

  lemma StepCalls(c: P.Config, shed: bool, s: State, a: Action)
    requires CallsOk(shed, s)
    ensures CallsOk(shed, Step(c, shed, s, a))
  {
    if Enabled(c, shed, s, a) {
      var s' := Step(c, shed, s, a);
      match a
      case Begin(events) => SumAppend(s.calls, s'.calls[|s.calls|]);
      case Accept(i) => AcceptCalls(c, shed, s, i);
      case Cancel(i) => CallChanged(shed, s, i, s'.calls[i]);
      case Reject(i) => CallChanged(shed, s, i, s'.calls[i]);
      case Return(i) => CallChanged(shed, s, i, s'.calls[i]);
      case Worker(move) =>
      case GracefulStop =>
      case ClosePool =>
    }
  }

  lemma StepKeepsInv(c: P.Config, shed: bool, s: State, a: Action)
    requires Inv(c, shed, s)
    ensures Inv(c, shed, Step(c, shed, s, a))
  {
    StepPool(c, shed, s, a);
    StepCalls(c, shed, s, a);
  }

  lemma {:induction false} RunKeepsInv(c: P.Config, shed: bool, s: State, run: seq<Action>)
    requires Inv(c, shed, s)
    ensures Inv(c, shed, Reach(c, shed, s, run))
    decreases |run|
  {
    if run != [] {
      StepKeepsInv(c, shed, s, run[0]);
      RunKeepsInv(c, shed, Step(c, shed, s, run[0]), run[1..]);
    }
  }

  lemma {:induction false} SuccessOrError(fs: seq<P.Finished>)
    ensures P.CountOk(fs, true) + P.CountOk(fs, false) == |fs|
    decreases |fs|
  {
    if fs != [] {
      SuccessOrError(fs[..|fs| - 1]);
    }
  }

  /** An event moves on in exactly two ways: accepted, if there is room, and then it is the last accepted
      by the pool; or rejected, in shed mode only without room, in blocking mode only with a done context,
      and then the pool does not see it. */
  lemma OneEventMovesOn(c: P.Config, shed: bool, s: State, a: Action, i: nat)
    requires Inv(c, shed, s) && i < |s.calls| && Step(c, shed, s, a).calls[i].next != s.calls[i].next
    ensures var s', call := Step(c, shed, s, a), s.calls[i];
            var moved := s'.calls[i];
            && call.next < |call.events| && moved.next == call.next + 1
            && (if moved.resp.rejected == call.resp.rejected
                then && moved.resp.accepted == call.resp.accepted + 1
                     && (s.pool.waiting != [] || |s.pool.queue| < c.capacity)
                     && s'.pool.accepted == s.pool.accepted + [call.events[call.next]]
                else && moved.resp == Response(call.resp.accepted, call.resp.rejected + 1) && s'.pool == s.pool
                     && (if shed then s.pool.waiting == [] && |s.pool.queue| >= c.capacity else call.cancelled))
  {
  }

  /** In every state of every interleaving, in either mode: a returned call has accounted for each of
      its events, a blocking call rejects only once its context is done, the accepted counts add up to
      what was ever enqueued, and no call is left that could send on a closed channel. After shutdown the
      sum equals sink successes plus errFn calls. */
  lemma EveryResponseAddsUp(c: P.Config, shed: bool, run: seq<Action>)
    ensures var s := Reach(c, shed, Start(), run);
            && (forall i :: 0 <= i < |s.calls| && s.calls[i].returned ==>
                  s.calls[i].resp.accepted + s.calls[i].resp.rejected == |s.calls[i].events|)
            && (forall i :: 0 <= i < |s.calls| && !shed && s.calls[i].resp.rejected > 0 ==> s.calls[i].cancelled)
            && SumAccepted(s.calls) == |s.pool.accepted|
            && (s.pool.closed ==> AllReturned(s))
            && ((c.workers >= 1 || c.capacity == 0) && P.Returned(c, s.pool) ==>
                  SumAccepted(s.calls) == P.CountOk(s.pool.finished, true) + P.CountOk(s.pool.finished, false))
  {
    P.StartInv(c);
    RunKeepsInv(c, shed, Start(), run);
    var s := Reach(c, shed, Start(), run);
    assert forall i :: 0 <= i < |s.calls| ==> CallOk(shed, s.calls[i]);
    if (c.workers >= 1 || c.capacity == 0) && P.Returned(c, s.pool) {
      P.DrainedWhenReturned(c, s.pool);
      SuccessOrError(s.pool.finished);
    }
  }
}
