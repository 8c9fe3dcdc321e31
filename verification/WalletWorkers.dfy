/**
 * Wallet workers draining per-chain action queues
 * (lib/relayer-engine/src/executor/executorHarness.ts, functions makeExecuteFunc,
 * spawnWalletWorkers and spawnWalletWorker). A worker awaits its action before it polls again.
 */
module WalletWorkers {
  import opened Lists

  type ChainId = nat

  /** One call of `execute`, numbered in the order of the calls. */
  datatype Ticket = Ticket(id: nat, chain: ChainId)

  datatype Worker = Worker(chain: ChainId, busy: Option<Ticket>)

  /** The queues and workers, with what was enqueued, started, settled and refused so far. */
  datatype Pool = Pool(
    queues: map<ChainId, seq<Ticket>>,
    workers: seq<Worker>,
    calls: nat,
    enqueued: seq<Ticket>,
    started: seq<Ticket>,
    settled: seq<Ticket>,
    refused: seq<Ticket>)

  datatype PoolEvent = Execute(chain: ChainId) | Poll(w: nat) | Settle(w: nat)

  /** An action for a chain without a queue is rejected at once. */
  function Executed(s: Pool, chain: ChainId): (r: Pool) {
    var t := Ticket(s.calls, chain);
    if chain !in s.queues then s.(calls := s.calls + 1, refused := s.refused + [t])
    else s.(calls := s.calls + 1, queues := s.queues[chain := s.queues[chain] + [t]], enqueued := s.enqueued + [t])
  }

  function Polled(s: Pool, w: nat): (r: Pool)
    requires w < |s.workers| && s.workers[w].chain in s.queues
  {
    var chain := s.workers[w].chain;
    if s.queues[chain] == [] then s
    else
      var t := s.queues[chain][0];
      s.(queues := s.queues[chain := s.queues[chain][1..]],
         workers := s.workers[w := Worker(chain, Some(t))],
         started := s.started + [t])
  }

  /** The action resolved or rejected; either settles its caller's promise. */
  function Settled(s: Pool, w: nat): (r: Pool)
    requires w < |s.workers| && s.workers[w].busy.Some?
  {
    s.(workers := s.workers[w := Worker(s.workers[w].chain, None)], settled := s.settled + [s.workers[w].busy.value])
  }

  /** How many workers serve a chain. */
  function WorkersFor(workers: seq<Worker>, c: ChainId): (n: nat) {
    if workers == [] then 0
    else WorkersFor(workers[..|workers| - 1], c) + if workers[|workers| - 1].chain == c then 1 else 0
  }

  /** How many wallet keys are configured for a chain. */
  function WalletsFor(chains: seq<(ChainId, nat)>, c: ChainId): (n: nat) {
    if chains == [] then 0
    else WalletsFor(chains[..|chains| - 1], c) + if chains[|chains| - 1].0 == c then chains[|chains| - 1].1 else 0
  }

  lemma WorkerAdded(workers: seq<Worker>, worker: Worker)
    ensures forall c :: WorkersFor(workers + [worker], c) == WorkersFor(workers, c) + if worker.chain == c then 1 else 0
  {
    assert (workers + [worker])[..|workers|] == workers;
  }

  class WalletPool {
    var queues: map<ChainId, seq<Ticket>>
    var workers: seq<Worker>
    var calls: nat
    var enqueued: seq<Ticket>
    var started: seq<Ticket>
    var settled: seq<Ticket>
    var refused: seq<Ticket>

    function State(): (r: Pool)
      reads this
    {
      Pool(queues, workers, calls, enqueued, started, settled, refused)
    }

    /** One queue per chain, and one idle worker per wallet key of the chain. */
    constructor (chains: seq<(ChainId, nat)>)
      ensures Fresh(State())
      ensures forall c :: c in queues <==> exists i :: 0 <= i < |chains| && chains[i].0 == c
      ensures forall c :: WorkersFor(workers, c) == WalletsFor(chains, c)
    {
      var qs: map<ChainId, seq<Ticket>>, ws: seq<Worker> := map[], [];
      for i := 0 to |chains|
        invariant forall c :: c in qs <==> exists j :: 0 <= j < i && chains[j].0 == c
        invariant forall c | c in qs :: qs[c] == []
        invariant forall w | 0 <= w < |ws| :: ws[w].chain in qs && ws[w].busy.None?
        invariant forall c :: WorkersFor(ws, c) == WalletsFor(chains[..i], c)
      {
        var (chain, wallets) := chains[i];
        qs := qs[chain := []];
        for n := 0 to wallets
          invariant forall w | 0 <= w < |ws| :: ws[w].chain in qs && ws[w].busy.None?
          invariant forall c :: WorkersFor(ws, c) == WalletsFor(chains[..i], c) + if c == chain then n else 0
        {
          WorkerAdded(ws, Worker(chain, None));
          ws := ws + [Worker(chain, None)];
        }
        assert chains[..i + 1][..i] == chains[..i];
      }
      assert chains[..|chains|] == chains;
      queues, workers, calls := qs, ws, 0;
      enqueued, started, settled, refused := [], [], [], [];
    }

    method Execute(chain: ChainId)
      modifies this
      ensures State() == Executed(old(State()), chain)
    {
      var t := Ticket(calls, chain);
      calls := calls + 1;
      if chain !in queues {
        refused := refused + [t];
        return;
      }
      queues := queues[chain := queues[chain] + [t]];
      enqueued := enqueued + [t];
    }

    method Poll(w: nat)
      requires w < |workers| && workers[w].chain in queues
      modifies this
      ensures State() == Polled(old(State()), w)
    {
      var chain := workers[w].chain;
      if queues[chain] == [] {
        return;
      }
      var t := queues[chain][0];
      queues := queues[chain := queues[chain][1..]];
      workers := workers[w := Worker(chain, Some(t))];
      started := started + [t];
    }

    method Settle(w: nat)
      requires w < |workers| && workers[w].busy.Some?
      modifies this
      ensures State() == Settled(old(State()), w)
    {
      settled := settled + [workers[w].busy.value];
      workers := workers[w := Worker(workers[w].chain, None)];
    }
  }

  // ---------------------------------------------------------------- runs

  /** As just spawned. */
  predicate Fresh(s: Pool) {
    && (forall c | c in s.queues :: s.queues[c] == [])
    && (forall w | 0 <= w < |s.workers| :: s.workers[w].chain in s.queues && s.workers[w].busy.None?)
    && s.calls == 0
    && s.enqueued == s.started == s.settled == s.refused == []
  }

  /** A worker polls only when idle, and settles only what it has in flight. */
  predicate CanHappen(s: Pool, e: PoolEvent) {
    match e
    case Execute(chain) => true
    case Poll(w) => w < |s.workers| && s.workers[w].chain in s.queues && s.workers[w].busy.None?
    case Settle(w) => w < |s.workers| && s.workers[w].busy.Some?
  }

  function PoolStep(s: Pool, e: PoolEvent): (r: Pool)
    requires CanHappen(s, e)
  {
    match e
    case Execute(chain) => Executed(s, chain)
    case Poll(w) => Polled(s, w)
    case Settle(w) => Settled(s, w)
  }

  predicate PoolLegal(s: Pool, es: seq<PoolEvent>)
    decreases |es|
  {
    es == [] || (CanHappen(s, es[0]) && PoolLegal(PoolStep(s, es[0]), es[1..]))
  }

  function PoolAfter(s: Pool, es: seq<PoolEvent>): (r: Pool)
    requires PoolLegal(s, es)
    decreases |es|
  {
    if es == [] then s else PoolAfter(PoolStep(s, es[0]), es[1..])
  }

  /** The tickets of one chain, in order. */
  function OfChain(ts: seq<Ticket>, chain: ChainId): (r: seq<Ticket>) {
    if ts == [] then []
    else OfChain(ts[..|ts| - 1], chain) + if ts[|ts| - 1].chain == chain then [ts[|ts| - 1]] else []
  }

  function BusyWith(worker: Worker, t: Ticket): (r: nat) { if worker.busy == Some(t) then 1 else 0 }

  /** How many workers have the ticket in flight. */
  function InFlight(workers: seq<Worker>, t: Ticket): (r: nat) {
    if workers == [] then 0 else InFlight(workers[1..], t) + BusyWith(workers[0], t)
  }

  lemma OfChainSnoc(ts: seq<Ticket>, t: Ticket, chain: ChainId)
    ensures OfChain(ts + [t], chain) == OfChain(ts, chain) + if t.chain == chain then [t] else []
  {
    assert (ts + [t])[..|ts|] == ts;
  }

  lemma {:induction false} InFlightUpdate(workers: seq<Worker>, w: nat, next: Worker, t: Ticket)
    requires w < |workers|
    ensures InFlight(workers[w := next], t) == InFlight(workers, t) - BusyWith(workers[w], t) + BusyWith(next, t)
  {
    if w == 0 {
      assert workers[w := next][1..] == workers[1..];
    } else {
      assert workers[w := next][1..] == workers[1..][w - 1 := next];
      InFlightUpdate(workers[1..], w - 1, next, t);
    }
  }

  /** A chain's actions start in the order they were enqueued; what has not started is waiting. */
  predicate ChainInOrder(s: Pool, c: ChainId) {
    if c in s.queues then
      && OfChain(s.enqueued, c) == OfChain(s.started, c) + s.queues[c]
      && forall t | t in s.queues[c] :: t.chain == c
    else OfChain(s.enqueued, c) == [] && OfChain(s.started, c) == []
  }

  ghost predicate InOrder(s: Pool) { forall c :: ChainInOrder(s, c) }

  /** What was started is in flight or settled, each once, on a worker of its own chain. */
  ghost predicate Accounted(s: Pool) {
    && (forall t :: multiset(s.started)[t] == InFlight(s.workers, t) + multiset(s.settled)[t])
    && (forall w | 0 <= w < |s.workers| ::
          s.workers[w].chain in s.queues
          && (s.workers[w].busy.Some? ==> s.workers[w].busy.value.chain == s.workers[w].chain))
    && (forall i | 0 <= i < |s.enqueued| :: s.enqueued[i].id < s.calls)
    && Distinct(s.enqueued)
  }

  lemma StepInOrder(s: Pool, e: PoolEvent, c: ChainId)
    requires ChainInOrder(s, c) && CanHappen(s, e)
    requires e.Poll? && s.queues[s.workers[e.w].chain] != [] ==> s.queues[s.workers[e.w].chain][0].chain == s.workers[e.w].chain
    ensures ChainInOrder(PoolStep(s, e), c)
  {
    match e
    case Execute(chain) =>
      ExecutedInOrder(s, chain, c);
    case Poll(w) =>
      PolledInOrder(s, w, c);
    case Settle(w) =>
  }

  lemma ExecutedInOrder(s: Pool, chain: ChainId, c: ChainId)
    requires ChainInOrder(s, c)
    ensures ChainInOrder(Executed(s, chain), c)
  {
    OfChainSnoc(s.enqueued, Ticket(s.calls, chain), c);
  }

  lemma PolledInOrder(s: Pool, w: nat, c: ChainId)
    requires ChainInOrder(s, c) && w < |s.workers| && s.workers[w].chain in s.queues
    requires s.queues[s.workers[w].chain] != [] ==> s.queues[s.workers[w].chain][0].chain == s.workers[w].chain
    ensures ChainInOrder(Polled(s, w), c)
  {
    var chain := s.workers[w].chain;
    var queue := s.queues[chain];
    if queue != [] {
      OfChainSnoc(s.started, queue[0], c);
      assert queue == [queue[0]] + queue[1..];
    }
  }

  /** The ticket at the head of a chain's queue is for that chain. */
  lemma HeadOfChain(s: Pool, c: ChainId)
    requires ChainInOrder(s, c) && c in s.queues && s.queues[c] != []
    ensures s.queues[c][0].chain == c
  {
    assert s.queues[c][0] in s.queues[c];
  }

  lemma PolledAccounted(s: Pool, w: nat)
    requires InOrder(s) && Accounted(s) && CanHappen(s, Poll(w))
    ensures Accounted(Polled(s, w))
  {
    var chain := s.workers[w].chain;
    if s.queues[chain] != [] {
      HeadOfChain(s, chain);
      forall t { InFlightUpdate(s.workers, w, Worker(chain, Some(s.queues[chain][0])), t); }
    }
  }

  lemma SettledAccounted(s: Pool, w: nat)
    requires Accounted(s) && CanHappen(s, Settle(w))
    ensures Accounted(Settled(s, w))
  {
    forall t { InFlightUpdate(s.workers, w, Worker(s.workers[w].chain, None), t); }
  }

  lemma StepAccounted(s: Pool, e: PoolEvent)
    requires InOrder(s) && Accounted(s) && CanHappen(s, e)
    ensures InOrder(PoolStep(s, e)) && Accounted(PoolStep(s, e))
  {
    if e.Poll? && s.queues[s.workers[e.w].chain] != [] {
      HeadOfChain(s, s.workers[e.w].chain);
    }
    forall c ensures ChainInOrder(PoolStep(s, e), c) {
      StepInOrder(s, e, c);
    }
    match e
    case Execute(chain) =>
    case Poll(w) => PolledAccounted(s, w);
    case Settle(w) => SettledAccounted(s, w);
  }

  lemma {:induction false} RunAccounted(s: Pool, es: seq<PoolEvent>)
    requires InOrder(s) && Accounted(s) && PoolLegal(s, es)
    ensures InOrder(PoolAfter(s, es)) && Accounted(PoolAfter(s, es))
    decreases |es|
  {
    if es != [] {
      StepAccounted(s, es[0]);
      RunAccounted(PoolStep(s, es[0]), es[1..]);
    }
  }

  lemma {:induction false} NoneInFlight(workers: seq<Worker>, t: Ticket)
    requires forall w | 0 <= w < |workers| :: workers[w].busy.None?
    ensures InFlight(workers, t) == 0
  {
    if workers != [] {
      NoneInFlight(workers[1..], t);
    }
  }

  lemma {:induction false} OfChainCount(ts: seq<Ticket>, t: Ticket)
    ensures multiset(OfChain(ts, t.chain))[t] == multiset(ts)[t]
  {
    if ts != [] {
      var init := ts[..|ts| - 1];
      OfChainCount(init, t);
      assert ts == init + [ts[|ts| - 1]];
    }
  }

  lemma DistinctCount<T>(xs: seq<T>, x: T)
    requires Distinct(xs)
    ensures multiset(xs)[x] <= 1
  {
    if xs != [] {
      DistinctTail(xs);
      DistinctCount(xs[1..], x);
      assert xs == [xs[0]] + xs[1..];
    }
  }

  /**
   * In every run each enqueued action is in exactly one place, once: waiting in its chain's
   * queue, in flight on a worker of its chain, or settled.
   */
  lemma ActionConservation(s: Pool, es: seq<PoolEvent>, t: Ticket)
    requires Fresh(s) && PoolLegal(s, es)
    ensures var r := PoolAfter(s, es);
            && InOrder(r) && Accounted(r)
            && multiset(r.settled)[t] <= 1
            && (if t in r.enqueued then 1 else 0)
               == (if t.chain in r.queues then multiset(r.queues[t.chain])[t] else 0)
                  + InFlight(r.workers, t) + multiset(r.settled)[t]
  {
    forall u { NoneInFlight(s.workers, u); }
    RunAccounted(s, es);
    var r := PoolAfter(s, es);
    OfChainCount(r.enqueued, t);
    OfChainCount(r.started, t);
    DistinctCount(r.enqueued, t);
    assert ChainInOrder(r, t.chain);
    if t.chain in r.queues {
      assert multiset(OfChain(r.enqueued, t.chain))
          == multiset(OfChain(r.started, t.chain)) + multiset(r.queues[t.chain]);
    }
  }

  // ---------------------------------------------------------------- actions that get done

  /** Only this worker acts. */
  predicate OnlyWorker(es: seq<PoolEvent>, w: nat) { forall e | e in es :: e == Poll(w) || e == Settle(w) }

  lemma PoolThen(s: Pool, e: PoolEvent, rest: seq<PoolEvent>)
    requires CanHappen(s, e) && PoolLegal(PoolStep(s, e), rest)
    ensures PoolLegal(s, [e] + rest) && PoolAfter(s, [e] + rest) == PoolAfter(PoolStep(s, e), rest)
  {
    assert ([e] + rest)[1..] == rest;
  }

  /** A waiting action gets settled by any one worker of its chain, after those before it. */
  lemma {:induction false} WaitingGetsSettled(s: Pool, w: nat, i: nat) returns (es: seq<PoolEvent>)
    requires w < |s.workers| && s.workers[w].chain in s.queues && i < |s.queues[s.workers[w].chain]|
    ensures PoolLegal(s, es) && OnlyWorker(es, w)
    ensures var r, chain := PoolAfter(s, es), s.workers[w].chain;
            && r.settled == s.settled + (if s.workers[w].busy.Some? then [s.workers[w].busy.value] else [])
                            + s.queues[chain][..i + 1]
            && r.queues == s.queues[chain := s.queues[chain][i + 1..]]
            && w < |r.workers| && r.workers[w].busy == None
    decreases i, s.workers[w].busy.Some?
  {
    var chain := s.workers[w].chain;
    var queue := s.queues[chain];
    if s.workers[w].busy.Some? {
      var u := PoolStep(s, Settle(w));
      var rest := WaitingGetsSettled(u, w, i);
      PoolThen(s, Settle(w), rest);
      es := [Settle(w)] + rest;
    } else {
      var u := PoolStep(s, Poll(w));
      assert queue[..i + 1] == [queue[0]] + queue[1..][..i] && queue[1..][i..] == queue[i + 1..];
      if i == 0 {
        var v := PoolStep(u, Settle(w));
        assert PoolLegal(v, []) && PoolAfter(v, []) == v;
        PoolThen(u, Settle(w), []);
        PoolThen(s, Poll(w), [Settle(w)] + []);
        es := [Poll(w)] + ([Settle(w)] + []);
      } else {
        var rest := WaitingGetsSettled(u, w, i - 1);
        PoolThen(s, Poll(w), rest);
        es := [Poll(w)] + rest;
      }
    }
  }

  /**
   * An action for a chain with a worker can always be done: it waits last in its chain's queue, and
   * that worker alone settles it, right after those before it. An action for a chain without a queue
   * is refused, and waits nowhere.
   */
  lemma ExecuteGetsSettled(s: Pool, chain: ChainId, w: nat) returns (es: seq<PoolEvent>)
    ensures var t, u := Ticket(s.calls, chain), PoolStep(s, Execute(chain));
            && u.calls == s.calls + 1 && u.workers == s.workers && u.settled == s.settled && u.started == s.started
            && (chain !in s.queues ==> u.refused == s.refused + [t] && u.queues == s.queues && u.enqueued == s.enqueued)
            && (chain in s.queues ==>
                  && u.refused == s.refused && u.enqueued == s.enqueued + [t]
                  && u.queues == s.queues[chain := s.queues[chain] + [t]])
            && (chain in s.queues && w < |s.workers| && s.workers[w].chain == chain ==>
                  && PoolLegal(u, es) && OnlyWorker(es, w)
                  && chain in PoolAfter(u, es).queues && PoolAfter(u, es).queues[chain] == []
                  && PoolAfter(u, es).settled
                     == s.settled + (if s.workers[w].busy.Some? then [s.workers[w].busy.value] else []) + s.queues[chain] + [t])
  {
    var u := PoolStep(s, Execute(chain));
    es := [];
    if chain in s.queues && w < |s.workers| && s.workers[w].chain == chain {
      var n := |s.queues[chain]|;
      es := WaitingGetsSettled(u, w, n);
      assert u.queues[chain][..n + 1] == s.queues[chain] + [Ticket(s.calls, chain)];
    }
  }
}
