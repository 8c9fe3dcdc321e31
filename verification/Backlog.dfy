/**
 * The backlog of write operations
 * (lib/relayer-engine/src/storage/redisStore.ts, class DefaultRedisWrapper). Operations are
 * closures to it, so this part is about any operations on any store.
 */
module Backlog {

  /** Whether the request or its reply is lost on the connection; either way the attempt throws. */
  datatype Report = Answered | LostRequest | LostReply

  /** One attempt at an operation, and the operations pushed while it was awaited. */
  datatype Attempt<O> = Attempt(report: Report, now: int, arrivals: seq<O>)

  /** What an attempt at an operation does to the store, and whether it returned. */
  type Runner<!S, !O> = (S, O, Attempt<O>) -> (S, bool)

  datatype Drain<S, O> = Drain(store: S, backlog: seq<O>, done: seq<O>, arrived: seq<O>)

  /**
   * One drain of the backlog: it stops at the first attempt that throws, keeping that operation
   * and all after it. A script that runs out stands for a connection that stays down.
   */
  function Drained<S, O>(run: Runner<S, O>, s: S, backlog: seq<O>, script: seq<Attempt<O>>): (r: Drain<S, O>)
    decreases |script|
  {
    if backlog == [] || script == [] then Drain(s, backlog, [], [])
    else
      var a := script[0];
      var (t, ok) := run(s, backlog[0], a);
      if !ok then Drain(t, backlog + a.arrivals, [], a.arrivals)
      else
        var r := Drained(run, t, backlog[1..] + a.arrivals, script[1..]);
        r.(done := [backlog[0]] + r.done, arrived := a.arrivals + r.arrived)
  }

  /** The same drain, with logs from before it. */
  function Prefixed<S, O>(r: Drain<S, O>, done: seq<O>, arrived: seq<O>): Drain<S, O> {
    r.(done := done + r.done, arrived := arrived + r.arrived)
  }

  lemma DrainStep<S, O>(
      run: Runner<S, O>, s: S, backlog: seq<O>, script: seq<Attempt<O>>, done: seq<O>, arrived: seq<O>)
    requires backlog != [] && script != []
    ensures var a := script[0];
            var (t, ok) := run(s, backlog[0], a);
            Prefixed(Drained(run, s, backlog, script), done, arrived)
            == if ok
               then Prefixed(
                 Drained(run, t, backlog[1..] + a.arrivals, script[1..]),
                 done + [backlog[0]],
                 arrived + a.arrivals)
               else Drain(t, backlog + a.arrivals, done, arrived + a.arrivals)
  {
    var r := Drained(run, run(s, backlog[0], script[0]).0, backlog[1..] + script[0].arrivals, script[1..]);
    assert done + ([backlog[0]] + r.done) == done + [backlog[0]] + r.done;
    assert arrived + (script[0].arrivals + r.arrived) == arrived + script[0].arrivals + r.arrived;
    assert done + [] == done;
  }

  /** One turn of a loop that keeps the whole backlog and counts up. */
  lemma LoopStep<S, O>(
      run: Runner<S, O>, s: S, backlog: seq<O>, i: nat, script: seq<Attempt<O>>, done: seq<O>, arrived: seq<O>)
    requires i < |backlog| && i < |script|
    ensures var a := script[i];
            var (t, ok) := run(s, backlog[i], a);
            var grown := backlog + a.arrivals;
            Prefixed(Drained(run, s, backlog[i..], script[i..]), done, arrived)
            == if ok
               then Prefixed(Drained(run, t, grown[i + 1..], script[i + 1..]), done + [backlog[i]], arrived + a.arrivals)
               else Drain(t, grown[i..], done, arrived + a.arrivals)
  {
    var grown := backlog + script[i].arrivals;
    DrainStep(run, s, backlog[i..], script[i..], done, arrived);
    assert grown[i..] == backlog[i..] + script[i].arrivals;
    assert grown[i + 1..] == backlog[i..][1..] + script[i].arrivals;
    assert script[i + 1..] == script[i..][1..];
  }

  // ---------------------------------------------------------------- conservation

  datatype Call<O> = Pushing(op: O) | Draining(script: seq<Attempt<O>>)

  /** The wrapper over a history of calls, with what was pushed and what succeeded so far. */
  datatype Log<S, O> = Log(store: S, backlog: seq<O>, pushed: seq<O>, succeeded: seq<O>)

  function CallStep<S, O>(run: Runner<S, O>, l: Log<S, O>, c: Call<O>): (r: Log<S, O>) {
    match c
    case Pushing(op) => l.(backlog := l.backlog + [op], pushed := l.pushed + [op])
    case Draining(script) =>
      var d := Drained(run, l.store, l.backlog, script);
      Log(d.store, d.backlog, l.pushed + d.arrived, l.succeeded + d.done)
  }

  function History<S, O>(run: Runner<S, O>, l: Log<S, O>, calls: seq<Call<O>>): (r: Log<S, O>)
    decreases |calls|
  {
    if calls == [] then l else History(run, CallStep(run, l, calls[0]), calls[1..])
  }

  lemma {:induction false} HistoryThen<S, O>(run: Runner<S, O>, l: Log<S, O>, calls: seq<Call<O>>, c: Call<O>)
    ensures History(run, l, calls + [c]) == CallStep(run, History(run, l, calls), c)
    decreases |calls|
  {
    if calls == [] {
      assert (calls + [c])[1..] == [];
    } else {
      HistoryThen(run, CallStep(run, l, calls[0]), calls[1..], c);
      assert (calls + [c])[1..] == calls[1..] + [c];
    }
  }

  lemma {:induction false} DrainConserves<S, O>(run: Runner<S, O>, s: S, backlog: seq<O>, script: seq<Attempt<O>>)
    ensures var d := Drained(run, s, backlog, script); backlog + d.arrived == d.done + d.backlog
    decreases |script|
  {
    if backlog != [] && script != [] {
      var a := script[0];
      var (t, ok) := run(s, backlog[0], a);
      if ok {
        var rest := backlog[1..] + a.arrivals;
        DrainConserves(run, t, rest, script[1..]);
        var r, d := Drained(run, t, rest, script[1..]), Drained(run, s, backlog, script);
        calc {
          backlog + d.arrived;
          [backlog[0]] + backlog[1..] + (a.arrivals + r.arrived);
          [backlog[0]] + (rest + r.arrived);
          [backlog[0]] + (r.done + r.backlog);
          d.done + d.backlog;
        }
      }
    }
  }

  lemma CallConserves<S, O>(run: Runner<S, O>, l: Log<S, O>, c: Call<O>)
    requires l.pushed == l.succeeded + l.backlog
    ensures var r := CallStep(run, l, c); r.pushed == r.succeeded + r.backlog
    ensures c.Draining? ==>
              var d := Drained(run, l.store, l.backlog, c.script);
              CallStep(run, l, c).pushed == l.succeeded + (l.backlog + d.arrived)
  {
    match c
    case Pushing(op) =>
    case Draining(script) =>
      var d := Drained(run, l.store, l.backlog, script);
      DrainConserves(run, l.store, l.backlog, script);
      calc {
        l.pushed + d.arrived;
        l.succeeded + (l.backlog + d.arrived);
        l.succeeded + (d.done + d.backlog);
        l.succeeded + d.done + d.backlog;
      }
  }

  /**
   * However pushes and drains interleave: the operations pushed are those that succeeded
   * followed by the backlog, in push order. So none is lost and none succeeds twice.
   */
  lemma {:induction false} BacklogConservation<S, O>(run: Runner<S, O>, l: Log<S, O>, calls: seq<Call<O>>)
    requires l.pushed == l.succeeded + l.backlog
    ensures var r := History(run, l, calls); r.pushed == r.succeeded + r.backlog && l.pushed <= r.pushed
    decreases |calls|
  {
    if calls != [] {
      CallConserves(run, l, calls[0]);
      assert l.pushed <= CallStep(run, l, calls[0]).pushed;
      BacklogConservation(run, CallStep(run, l, calls[0]), calls[1..]);
    }
  }

  // ---------------------------------------------------------------- invariants of a history

  /** `part` is what `whole` holds from position `n` on, as far as it goes. */
  predicate Stretch<O(==)>(part: seq<O>, whole: seq<O>, n: nat) {
    n + |part| <= |whole| && whole[n..n + |part|] == part
  }

  lemma StretchTail<O>(part: seq<O>, whole: seq<O>, n: nat)
    requires part != [] && Stretch(part, whole, n)
    ensures whole[n] == part[0] && Stretch(part[1..], whole, n + 1)
  {
    assert whole[n..n + |part|][0] == whole[n];
    assert whole[n..n + |part|][1..] == whole[n + 1..n + |part|];
  }

  /**
   * `good` relates the store to the number of operations that have succeeded, and every attempt
   * at the next one keeps it.
   */
  ghost predicate KeptByAttempts<S(!new), O(!new)>(run: Runner<S, O>, pushed: seq<O>, good: (S, nat) -> bool) {
    forall s, n: nat, a: Attempt<O> | n < |pushed| && good(s, n) ::
      good(run(s, pushed[n], a).0, if run(s, pushed[n], a).1 then n + 1 else n)
  }

  lemma {:induction false} KeptByDrain<S(!new), O(!new)>(
      run: Runner<S, O>, pushed: seq<O>, good: (S, nat) -> bool,
      s: S, backlog: seq<O>, script: seq<Attempt<O>>, n: nat)
    requires KeptByAttempts(run, pushed, good) && good(s, n)
    requires Stretch(backlog + Drained(run, s, backlog, script).arrived, pushed, n)
    ensures var d := Drained(run, s, backlog, script); good(d.store, n + |d.done|)
    decreases |script|
  {
    if backlog != [] && script != [] {
      var a := script[0];
      var (t, ok) := run(s, backlog[0], a);
      var work := backlog + Drained(run, s, backlog, script).arrived;
      StretchTail(work, pushed, n);
      if ok {
        var rest := backlog[1..] + a.arrivals;
        assert work[1..] == rest + Drained(run, t, rest, script[1..]).arrived;
        KeptByDrain(run, pushed, good, t, rest, script[1..], n + 1);
      }
    }
  }

  /** What attempts keep, whole histories keep. */
  lemma {:induction false} KeptByHistory<S(!new), O(!new)>(
      run: Runner<S, O>, pushed: seq<O>, good: (S, nat) -> bool, l: Log<S, O>, calls: seq<Call<O>>)
    requires KeptByAttempts(run, pushed, good) && good(l.store, |l.succeeded|)
    requires l.pushed == l.succeeded + l.backlog && pushed == History(run, l, calls).pushed
    ensures var r := History(run, l, calls); good(r.store, |r.succeeded|)
    decreases |calls|
  {
    if calls != [] {
      var c, next := calls[0], CallStep(run, l, calls[0]);
      CallConserves(run, l, c);
      BacklogConservation(run, next, calls[1..]);
      if c.Draining? {
        var d := Drained(run, l.store, l.backlog, c.script);
        assert Stretch(l.backlog + d.arrived, pushed, |l.succeeded|);
        KeptByDrain(run, pushed, good, l.store, l.backlog, c.script, |l.succeeded|);
      }
      KeptByHistory(run, pushed, good, next, calls[1..]);
    }
  }
}
