/**
 * `DefaultStorage` over a connection that loses requests and replies: its write operations, the
 * wrapper that retries them, and when retrying is safe.
 */
module RetryingStorage {
  import opened Lists
  import opened InMemoryStore
  import opened WorkflowStorage
  import opened Relayer
  import opened Backlog

  /** The operations that `DefaultStorage` hands to `runOpWithRetry`. */
  datatype WriteOp = AddOp(w: Workflow) | RequeueOp(w: Workflow) | CompleteOp(id: string, pluginName: string)

  function OpKey(op: WriteOp): (r: string) {
    match op
    case AddOp(w) => WorkflowKey(w)
    case RequeueOp(w) => WorkflowKey(w)
    case CompleteOp(id, pluginName) => KeyOf(pluginName, id)
  }

  function Applied(s: Store, op: WriteOp, now: int): (r: Outcome) {
    match op
    case AddOp(w) => Added(s, w, now)
    case RequeueOp(w) => Requeued(s, w)
    case CompleteOp(id, pluginName) => Completed(s, KeyOf(pluginName, id))
  }

  function Attempted(s: Store, op: WriteOp, a: Attempt<WriteOp>): (r: (Store, bool)) {
    match a.report
    case Answered => (Applied(s, op, a.now).store, Applied(s, op, a.now).ok)
    case LostRequest => (s, false)
    case LostReply => (Applied(s, op, a.now).store, false)
  }

  function Run(): (r: Runner<Store, WriteOp>) {
    (s: Store, op: WriteOp, a: Attempt<WriteOp>) => Attempted(s, op, a)
  }

  /**
   * One attempt at a known operation at the head of a backlog. Only an answer takes it off the
   * backlog; a lost reply leaves it there although it took effect, to be run again, and a lost
   * request leaves it and the store alone. What was pushed meanwhile waits behind all the others.
   */
  lemma OneAttempt(s: Store, op: WriteOp, rest: seq<WriteOp>, a: Attempt<WriteOp>)
    requires Known(s, op)
    ensures var d := Drained(Run(), s, [op] + rest, [a]);
            && d.store == (if a.report == LostRequest then s else Applied(s, op, a.now).store)
            && d.backlog == (if a.report == Answered then rest else [op] + rest) + a.arrivals
            && d.done == (if a.report == Answered then [op] else [])
            && d.arrived == a.arrivals
  {
    AppliedEffect(s, op, a.now);
    var backlog, script := [op] + rest, [a];
    assert backlog[1..] == rest && script[1..] == [];
    DrainStep(Run(), s, backlog, script, [], []);
    var d := Drained(Run(), s, backlog, script);
    assert [] + d.done == d.done && [] + d.arrived == d.arrived;
  }

  class DefaultRedisWrapper {
    const storage: DefaultStorage
    var backlog: seq<WriteOp>

    constructor (storage: DefaultStorage)
      ensures this.storage == storage && backlog == []
    {
      this.storage := storage;
      backlog := [];
    }

    method Push(op: WriteOp)
      modifies this
      ensures backlog == old(backlog) + [op]
    {
      backlog := backlog + [op];
    }

    method ExecuteIsolated(op: WriteOp, a: Attempt<WriteOp>) returns (ok: bool)
      modifies storage.store
      ensures (storage.store.State(), ok) == Run()(old(storage.store.State()), op, a)
    {
      if a.report == LostRequest {
        return false;
      }
      match op {
        case AddOp(w) => ok := storage.AddWorkflow(w, a.now);
        case RequeueOp(w) => ok := storage.RequeueOperation(w);
        case CompleteOp(id, pluginName) => ok := storage.CompleteWorkflow(id, pluginName);
      }
      if a.report == LostReply {
        ok := false;
      }
    }

    /** The loop re-reads the backlog's length, so operations pushed meanwhile are drained too. */
    method ExecuteBacklog(script: seq<Attempt<WriteOp>>) returns (done: seq<WriteOp>, arrived: seq<WriteOp>)
      modifies this, storage.store
      ensures Drain(storage.store.State(), backlog, done, arrived)
           == Drained(Run(), old(storage.store.State()), old(backlog), script)
    {
      ghost var goal := Drained(Run(), storage.store.State(), backlog, script);
      done, arrived := [], [];
      var i := 0;
      while i < |backlog|
        invariant i <= |backlog| && i <= |script|
        invariant Prefixed(Drained(Run(), storage.store.State(), backlog[i..], script[i..]), done, arrived) == goal
        decreases |script| - i
      {
        if i == |script| {
          backlog := backlog[i..];
          return;
        }
        LoopStep(Run(), storage.store.State(), backlog, i, script, done, arrived);
        var op, a := backlog[i], script[i];
        backlog := backlog + a.arrivals;
        arrived := arrived + a.arrivals;
        var ok := ExecuteIsolated(op, a);
        if !ok {
          backlog := backlog[i..];
          return;
        }
        done := done + [op];
        i := i + 1;
      }
      backlog := [];
    }
  }

  // ---------------------------------------------------------------- retry safety

  /** Records that differ at most in when the workflow was scheduled. */
  predicate SameRecord(v: Option<Value>, w: Option<Value>) {
    || v == w
    || (&& v.Some? && w.Some? && v.value.WorkflowJson? && w.value.WorkflowJson?
        && v.value.workflow.(scheduledAt := None) == w.value.workflow.(scheduledAt := None))
  }

  /** The same locks, records and list membership; the order of the lists is left open. */
  ghost predicate Similar(s: Store, t: Store) {
    && s.locks == t.locks
    && (forall k :: SameRecord(ValueOf(s, k), ValueOf(t, k)))
    && multiset(QueueOf(s)) == multiset(QueueOf(t))
    && multiset(ActiveOf(s)) == multiset(ActiveOf(t))
  }

  /** The operation will not throw by itself: its key is not locked, and a requeue finds a record. */
  predicate Known(s: Store, op: WriteOp) {
    OpKey(op) !in s.locks && (op.RequeueOp? ==> ValueOf(s, OpKey(op)).Some?)
  }

  /** What one application of a known operation does, key by key and up to list order. */
  ghost predicate Effect(s: Store, t: Store, op: WriteOp) {
    var key := OpKey(op);
    && t.locks == map[] && ValueOf(t, key).Some?
    && (forall k | k != key :: ValueOf(t, k) == ValueOf(s, k))
    && match op
       case AddOp(w) => AddEffect(s, t, w)
       case RequeueOp(w) => RequeueEffect(s, t, w)
       case CompleteOp(_, _) => CompleteEffect(s, t, key)
  }

  ghost predicate AddEffect(s: Store, t: Store, w: Workflow) {
    var key := WorkflowKey(w);
    && ActiveOf(t) == ActiveOf(s)
    && (if ValueOf(s, key).Some? then ValueOf(t, key) == ValueOf(s, key) && QueueOf(t) == QueueOf(s)
        else
          && SameRecord(ValueOf(t, key), Some(WorkflowJson(w)))
          && multiset(QueueOf(t)) == multiset(QueueOf(s)) + multiset{key})
  }

  ghost predicate RequeueEffect(s: Store, t: Store, w: Workflow) {
    var key := WorkflowKey(w);
    && ValueOf(t, key) == (if ValueOf(s, key) == Some(COMPLETE) then Some(WorkflowJson(w)) else ValueOf(s, key))
    && multiset(QueueOf(t)) == multiset(QueueOf(s))[key := 1]
    && multiset(ActiveOf(t)) == multiset(ActiveOf(s))[key := 0]
  }

  ghost predicate CompleteEffect(s: Store, t: Store, key: string) {
    && ValueOf(t, key) == Some(COMPLETE)
    && QueueOf(t) == QueueOf(s)
    && (if ValueOf(s, key) == Some(COMPLETE) then ActiveOf(t) == ActiveOf(s)
        else multiset(ActiveOf(t)) == multiset(ActiveOf(s))[key := 0])
  }

  lemma AddedEffect(s: Store, w: Workflow, now: int)
    requires WorkflowKey(w) !in s.locks
    ensures Added(s, w, now).ok && Effect(s, Added(s, w, now).store, AddOp(w))
  {
    var t, key := Added(s, w, now).store, WorkflowKey(w);
    if ValueOf(s, key).None? {
      assert QueueOf(t) == [key] + QueueOf(s) && ActiveOf(t) == ActiveOf(s);
    }
  }

  lemma RequeuedEffect(s: Store, w: Workflow)
    requires WorkflowKey(w) !in s.locks && ValueOf(s, WorkflowKey(w)).Some?
    ensures Requeued(s, w).ok && Effect(s, Requeued(s, w).store, RequeueOp(w))
  {
    var t, key := Requeued(s, w).store, WorkflowKey(w);
    RequeuedQueues(s, w);
    assert forall k | k != key :: ValueOf(t, k) == ValueOf(s, k);
  }

  lemma RequeuedQueues(s: Store, w: Workflow)
    requires Requeued(s, w).ok
    ensures var t, key := Requeued(s, w).store, WorkflowKey(w);
            multiset(QueueOf(t)) == multiset(QueueOf(s))[key := 1] && multiset(ActiveOf(t)) == multiset(ActiveOf(s))[key := 0]
  {
    var t, key := Requeued(s, w).store, WorkflowKey(w);
    RequeuedContents(s.lists, key);
    RequeueListsEffect(QueueOf(s), ActiveOf(s), QueueOf(t), ActiveOf(t), key);
  }

  lemma RequeueListsEffect(queue: seq<string>, active: seq<string>, queue': seq<string>, active': seq<string>, key: string)
    requires queue' == [key] + Reverse(Without(queue, key)) && active' == Reverse(Without(active, key))
    ensures multiset(queue') == multiset(queue)[key := 1] && multiset(active') == multiset(active)[key := 0]
  {
    RemovedMembers(queue, key);
    RemovedMembers(active, key);
  }

  lemma CompletedEffect(s: Store, id: string, pluginName: string)
    requires KeyOf(pluginName, id) !in s.locks
    ensures var key := KeyOf(pluginName, id);
            Completed(s, key).ok && Effect(s, Completed(s, key).store, CompleteOp(id, pluginName))
  {
    var key := KeyOf(pluginName, id);
    RemovedContents(s.lists, ACTIVE_WORKFLOWS_QUEUE, key);
    RemovedMembers(ActiveOf(s), key);
    assert QueueOf(Completed(s, key).store) == QueueOf(s);
  }

  lemma AppliedEffect(s: Store, op: WriteOp, now: int)
    requires Known(s, op)
    ensures Applied(s, op, now).ok && Effect(s, Applied(s, op, now).store, op)
  {
    match op
    case AddOp(w) => AddedEffect(s, w, now);
    case RequeueOp(w) => RequeuedEffect(s, w);
    case CompleteOp(id, pluginName) => CompletedEffect(s, id, pluginName);
  }

  /** An effect repeated changes nothing further. */
  lemma EffectIdempotent(s: Store, t: Store, u: Store, op: WriteOp)
    requires Effect(s, t, op) && Effect(t, u, op)
    ensures Similar(u, t)
  {
    match op
    case AddOp(w) =>
    case RequeueOp(w) =>
      var key := WorkflowKey(w);
      assert multiset(QueueOf(s))[key := 1][key := 1] == multiset(QueueOf(s))[key := 1];
      assert multiset(ActiveOf(s))[key := 0][key := 0] == multiset(ActiveOf(s))[key := 0];
    case CompleteOp(_, _) =>
  }

  /** Effects on similar stores are similar. */
  lemma EffectCongruent(s: Store, t: Store, s': Store, t': Store, op: WriteOp)
    requires Similar(s, t) && Effect(s, s', op) && Effect(t, t', op)
    ensures Similar(s', t')
  {
    assert SameRecord(ValueOf(s, OpKey(op)), ValueOf(t, OpKey(op)));
    forall k ensures SameRecord(ValueOf(s', k), ValueOf(t', k)) {
      assert SameRecord(ValueOf(s, k), ValueOf(t, k));
    }
  }

  /** Running an operation again after it took effect changes nothing but list order. */
  lemma Idempotent(s: Store, op: WriteOp, now: int, again: int)
    requires Known(s, op)
    ensures var t := Applied(s, op, now).store;
            && Known(t, op)
            && Applied(t, op, again).ok
            && Similar(Applied(t, op, again).store, t)
  {
    var t := Applied(s, op, now).store;
    AppliedEffect(s, op, now);
    AppliedEffect(t, op, again);
    EffectIdempotent(s, t, Applied(t, op, again).store, op);
  }

  /** Similar stores are taken to similar stores. */
  lemma Congruent(s: Store, t: Store, op: WriteOp, now: int, then_: int)
    requires Similar(s, t) && Known(t, op)
    ensures Known(s, op) && Applied(s, op, now).ok
    ensures Similar(Applied(s, op, now).store, Applied(t, op, then_).store)
  {
    assert SameRecord(ValueOf(s, OpKey(op)), ValueOf(t, OpKey(op)));
    AppliedEffect(s, op, now);
    AppliedEffect(t, op, then_);
    EffectCongruent(s, t, Applied(s, op, now).store, Applied(t, op, then_).store, op);
  }

  lemma SimilarTransitive(s: Store, t: Store, u: Store)
    requires Similar(s, t) && Similar(t, u)
    ensures Similar(s, u)
  {
    forall k ensures SameRecord(ValueOf(s, k), ValueOf(u, k)) {
      assert SameRecord(ValueOf(s, k), ValueOf(t, k)) && SameRecord(ValueOf(t, k), ValueOf(u, k));
    }
  }

  /** Each operation run once, in order, at time `now`. */
  function Once(s: Store, ops: seq<WriteOp>, now: int): (r: Store) {
    if ops == [] then s else Applied(Once(s, ops[..|ops| - 1], now), ops[|ops| - 1], now).store
  }

  /** Each operation is known when its turn comes. */
  predicate AllKnown(s: Store, ops: seq<WriteOp>, now: int) {
    ops == []
    || (AllKnown(s, ops[..|ops| - 1], now) && Known(Once(s, ops[..|ops| - 1], now), ops[|ops| - 1]))
  }

  lemma KnownNext(origin: Store, pushed: seq<WriteOp>, n: nat, now: int)
    requires n < |pushed| && AllKnown(origin, pushed[..n], now)
    requires Known(Once(origin, pushed[..n], now), pushed[n])
    ensures AllKnown(origin, pushed[..n + 1], now)
    ensures Once(origin, pushed[..n + 1], now) == Applied(Once(origin, pushed[..n], now), pushed[n], now).store
  {
    assert pushed[..n + 1][..n] == pushed[..n];
  }

  lemma {:induction false} OnceUnlocked(origin: Store, ops: seq<WriteOp>, now: int, key: string)
    requires AllKnown(origin, ops, now) && key !in origin.locks
    ensures key !in Once(origin, ops, now).locks
  {
    if ops != [] {
      AppliedEffect(Once(origin, ops[..|ops| - 1], now), ops[|ops| - 1], now);
    }
  }

  /** A requeue without a record to requeue: it throws, and will throw again. */
  predicate Stuck(s: Store, op: WriteOp) { op.RequeueOp? && ValueOf(s, OpKey(op)).None? }

  /**
   * Where the store can stand while `op` is next: as before it; or as after it, which took effect
   * without an answer; or `op` was not known and is stuck.
   */
  ghost predicate Pending(s: Store, before: Store, op: WriteOp, now: int) {
    || Similar(s, before)
    || (Known(before, op) && Similar(s, Applied(before, op, now).store))
    || (!Known(before, op) && Stuck(s, op))
  }

  /** An attempt that reaches the store from a good state leads to the state after the operation. */
  lemma AppliedRetry(s: Store, before: Store, op: WriteOp, now: int, then_: int)
    requires Known(before, op)
    requires Similar(s, before) || Similar(s, Applied(before, op, now).store)
    ensures Applied(s, op, then_).ok && Similar(Applied(s, op, then_).store, Applied(before, op, now).store)
  {
    var after := Applied(before, op, now).store;
    if Similar(s, before) {
      Congruent(s, before, op, then_, now);
    } else {
      Idempotent(before, op, now, now);
      Congruent(s, after, op, then_, now);
      SimilarTransitive(Applied(s, op, then_).store, Applied(after, op, now).store, after);
    }
  }

  lemma StuckStays(s: Store, op: WriteOp, a: Attempt<WriteOp>)
    requires Stuck(s, op)
    ensures var (t, ok) := Attempted(s, op, a); !ok && Stuck(t, op)
  {
  }

  /** An operation that is not known in its turn is a requeue that finds no record. */
  lemma UnknownIsStuck(s: Store, before: Store, op: WriteOp)
    requires Similar(s, before) && !Known(before, op) && OpKey(op) !in before.locks
    ensures Stuck(s, op)
  {
    assert SameRecord(ValueOf(s, OpKey(op)), ValueOf(before, OpKey(op)));
  }

  /** A known one, before it took effect or after, is done by an attempt that reaches the store. */
  lemma AttemptKnown(s: Store, before: Store, op: WriteOp, a: Attempt<WriteOp>, now: int)
    requires Known(before, op)
    requires Similar(s, before) || Similar(s, Applied(before, op, now).store)
    ensures var (t, ok) := Attempted(s, op, a);
            if ok then Similar(t, Applied(before, op, now).store)
            else Similar(t, before) || Similar(t, Applied(before, op, now).store)
  {
    if !a.report.LostRequest? {
      AppliedRetry(s, before, op, now, a.now);
    }
  }

  /** One attempt at the next operation: it succeeds only if known, and then once. */
  lemma AttemptPending(s: Store, before: Store, op: WriteOp, a: Attempt<WriteOp>, now: int)
    requires Pending(s, before, op, now) && OpKey(op) !in before.locks
    ensures var (t, ok) := Attempted(s, op, a);
            if ok then Known(before, op) && Similar(t, Applied(before, op, now).store)
            else Pending(t, before, op, now)
  {
    if Known(before, op) {
      AttemptKnown(s, before, op, a, now);
    } else {
      if Similar(s, before) {
        UnknownIsStuck(s, before, op);
      }
      StuckStays(s, op, a);
    }
  }

  /** The first `n` operations were known in turn, and the store is where running them once leads. */
  ghost predicate Retried(origin: Store, s: Store, pushed: seq<WriteOp>, n: nat, now: int) {
    && n <= |pushed| && AllKnown(origin, pushed[..n], now)
    && (if n == |pushed| then Similar(s, Once(origin, pushed[..n], now))
        else Pending(s, Once(origin, pushed[..n], now), pushed[n], now))
  }

  lemma AttemptRetries(origin: Store, s: Store, pushed: seq<WriteOp>, n: nat, a: Attempt<WriteOp>, now: int)
    requires forall op | op in pushed :: OpKey(op) !in origin.locks
    requires n < |pushed| && Retried(origin, s, pushed, n, now)
    ensures var (t, ok) := Attempted(s, pushed[n], a);
            Retried(origin, t, pushed, if ok then n + 1 else n, now)
  {
    var before, op := Once(origin, pushed[..n], now), pushed[n];
    OnceUnlocked(origin, pushed[..n], now, OpKey(op));
    AttemptPending(s, before, op, a, now);
    if Attempted(s, op, a).1 {
      KnownNext(origin, pushed, n, now);
    }
  }

  /** Attempts that all get through, with nothing pushed meanwhile. */
  function Undisturbed(n: nat, now: int): (r: seq<Attempt<WriteOp>>)
    ensures |r| == n
  {
    seq(n, _ => Attempt(Answered, now, []))
  }

  /** The next operation, known in its turn, gets done by an attempt that gets through. */
  lemma NextGetsDone(origin: Store, s: Store, pushed: seq<WriteOp>, n: nat, now: int, then_: int)
    requires n < |pushed| && Retried(origin, s, pushed, n, now) && AllKnown(origin, pushed, now)
    ensures Applied(s, pushed[n], then_).ok
    ensures Retried(origin, Applied(s, pushed[n], then_).store, pushed, n + 1, now)
  {
    AllKnownPrefix(origin, pushed, n + 1, now);
    assert pushed[..n + 1][..n] == pushed[..n];
    AppliedRetry(s, Once(origin, pushed[..n], now), pushed[n], now, then_);
    KnownNext(origin, pushed, n, now);
  }

  /** From where the first `n` operations were done, undisturbed attempts do all the others. */
  lemma {:induction false} UndisturbedDrains(origin: Store, s: Store, pushed: seq<WriteOp>, n: nat, now: int, then_: int)
    requires n <= |pushed| && Retried(origin, s, pushed, n, now) && AllKnown(origin, pushed, now)
    ensures Drained(Run(), s, pushed[n..], Undisturbed(|pushed| - n, then_)).backlog == []
    decreases |pushed| - n
  {
    if n < |pushed| {
      var t := Applied(s, pushed[n], then_).store;
      NextGetsDone(origin, s, pushed, n, now, then_);
      UndisturbedDrains(origin, t, pushed, n + 1, now, then_);
      UndisturbedStep(s, t, pushed[n..], then_);
      assert pushed[n..][1..] == pushed[n + 1..];
    }
  }

  lemma UndisturbedStep(s: Store, t: Store, backlog: seq<WriteOp>, now: int)
    requires backlog != [] && Run()(s, backlog[0], Attempt(Answered, now, [])) == (t, true)
    ensures Drained(Run(), s, backlog, Undisturbed(|backlog|, now)).backlog
         == Drained(Run(), t, backlog[1..], Undisturbed(|backlog| - 1, now)).backlog
  {
    var script := Undisturbed(|backlog|, now);
    assert script[0] == Attempt(Answered, now, []) && script[1..] == Undisturbed(|backlog| - 1, now);
    assert backlog[1..] + [] == backlog[1..];
  }

  lemma {:induction false} AllKnownPrefix(origin: Store, ops: seq<WriteOp>, n: nat, now: int)
    requires n <= |ops| && AllKnown(origin, ops, now)
    ensures AllKnown(origin, ops[..n], now)
  {
    if n == |ops| {
      assert ops[..n] == ops;
    } else {
      AllKnownPrefix(origin, ops[..|ops| - 1], n, now);
      assert ops[..|ops| - 1][..n] == ops[..n];
    }
  }

  /** What any history leaves: the operations that succeeded were known in turn and took effect once. */
  lemma HistoryRetries(origin: Store, calls: seq<Call<WriteOp>>, now: int)
    requires forall op | op in History(Run(), Log(origin, [], [], []), calls).pushed :: OpKey(op) !in origin.locks
    ensures var r := History(Run(), Log(origin, [], [], []), calls);
            && r.pushed == r.succeeded + r.backlog
            && Retried(origin, r.store, r.pushed, |r.succeeded|, now)
  {
    var start := Log(origin, [], [], []);
    var pushed := History(Run(), start, calls).pushed;
    var good := (s: Store, n: nat) => Retried(origin, s, pushed, n, now);
    BacklogConservation(Run(), start, calls);
    forall s, n: nat, a: Attempt<WriteOp> | n < |pushed| && good(s, n)
      ensures good(Run()(s, pushed[n], a).0, if Run()(s, pushed[n], a).1 then n + 1 else n)
    {
      AttemptRetries(origin, s, pushed, n, a, now);
    }
    KeptByHistory(Run(), pushed, good, start, calls);
  }

  /**
   * Retry safety, in every history of pushes and drains that empties the backlog: every operation
   * found what it needed, and the store has the records and the queue and active membership of
   * running each exactly once, however often each was retried.
   */
  lemma RetrySafety(origin: Store, calls: seq<Call<WriteOp>>, now: int)
    requires var r := History(Run(), Log(origin, [], [], []), calls);
             r.backlog == [] && forall op | op in r.pushed :: OpKey(op) !in origin.locks
    ensures var r := History(Run(), Log(origin, [], [], []), calls);
            AllKnown(origin, r.pushed, now) && Similar(r.store, Once(origin, r.pushed, now))
  {
    var r := History(Run(), Log(origin, [], [], []), calls);
    HistoryRetries(origin, calls, now);
    assert r.succeeded == r.pushed && r.pushed[..|r.pushed|] == r.pushed;
  }

  /** Had a drain on its own emptied the backlog, every operation would have been known. */
  lemma EmptiedMeansAllKnown(origin: Store, calls: seq<Call<WriteOp>>, now: int, then_: int)
    requires var r := History(Run(), Log(origin, [], [], []), calls);
             && CallStep(Run(), r, Draining(Undisturbed(|r.backlog|, then_))).backlog == []
             && forall op | op in r.pushed :: OpKey(op) !in origin.locks
    ensures AllKnown(origin, History(Run(), Log(origin, [], [], []), calls).pushed, now)
  {
    var start := Log(origin, [], [], []);
    var r := History(Run(), start, calls);
    var last := Draining(Undisturbed(|r.backlog|, then_));
    HistoryThen(Run(), start, calls, last);
    NothingArrives(Run(), r.store, r.backlog, |r.backlog|, then_);
    assert CallStep(Run(), r, last).pushed == r.pushed;
    RetrySafety(origin, calls + [last], now);
  }

  /**
   * And after any history at all, whatever was lost in it, one undisturbed drain empties the backlog
   * exactly when every operation pushed finds what it needs in its turn.
   */
  lemma DrainEmptiesIffAllKnown(origin: Store, calls: seq<Call<WriteOp>>, now: int, then_: int)
    requires forall op | op in History(Run(), Log(origin, [], [], []), calls).pushed :: OpKey(op) !in origin.locks
    ensures var r := History(Run(), Log(origin, [], [], []), calls);
            CallStep(Run(), r, Draining(Undisturbed(|r.backlog|, then_))).backlog == [] <==> AllKnown(origin, r.pushed, now)
  {
    var r := History(Run(), Log(origin, [], [], []), calls);
    if AllKnown(origin, r.pushed, now) {
      HistoryRetries(origin, calls, now);
      UndisturbedDrains(origin, r.store, r.pushed, |r.succeeded|, now, then_);
      assert r.pushed[|r.succeeded|..] == r.backlog;
    } else if CallStep(Run(), r, Draining(Undisturbed(|r.backlog|, then_))).backlog == [] {
      EmptiedMeansAllKnown(origin, calls, now, then_);
    }
  }

  lemma {:induction false} NothingArrives(run: Runner<Store, WriteOp>, s: Store, backlog: seq<WriteOp>, n: nat, now: int)
    ensures Drained(run, s, backlog, Undisturbed(n, now)).arrived == []
    decreases n
  {
    if backlog != [] && n > 0 {
      var (t, ok) := run(s, backlog[0], Undisturbed(n, now)[0]);
      assert Undisturbed(n, now)[1..] == Undisturbed(n - 1, now);
      if ok {
        NothingArrives(run, t, backlog[1..] + [], n - 1, now);
      }
    }
  }

  // ---------------------------------------------------------------- when the backlog stands still

  /** An operation whose key is locked, or a requeue without a record, throws by itself, and stays so. */
  lemma UnknownStays(s: Store, op: WriteOp, a: Attempt<WriteOp>)
    requires !Known(s, op)
    ensures var (t, ok) := Attempted(s, op, a); !ok && !Known(t, op) && t.kv == s.kv && t.lists == s.lists
  {
  }

  /** With such an operation at the head, no history completes anything or changes a value or a list. */
  lemma {:induction false} UnknownHeadBlocks(l: Log<Store, WriteOp>, calls: seq<Call<WriteOp>>)
    requires l.backlog != [] && !Known(l.store, l.backlog[0])
    ensures var r := History(Run(), l, calls);
            r.succeeded == l.succeeded && r.store.kv == l.store.kv && r.store.lists == l.store.lists
    decreases |calls|
  {
    if calls != [] {
      var c := calls[0];
      if c.Draining? && c.script != [] {
        UnknownStays(l.store, l.backlog[0], c.script[0]);
      }
      UnknownHeadBlocks(CallStep(Run(), l, c), calls[1..]);
    }
  }

  /** The wrapper can get on, in some history of its calls, exactly when the head of its backlog is known. */
  lemma BacklogMovesIff(l: Log<Store, WriteOp>)
    requires l.backlog != []
    ensures (exists calls :: |History(Run(), l, calls).succeeded| > |l.succeeded|) <==> Known(l.store, l.backlog[0])
  {
    if Known(l.store, l.backlog[0]) {
      var calls := [Draining([Attempt(Answered, 0, [])])];
      AppliedEffect(l.store, l.backlog[0], 0);
      assert History(Run(), l, calls) == CallStep(Run(), l, calls[0]) by {
        assert calls[1..] == [];
      }
      assert |History(Run(), l, calls).succeeded| > |l.succeeded|;
    } else {
      forall calls ensures History(Run(), l, calls).succeeded == l.succeeded {
        UnknownHeadBlocks(l, calls);
      }
    }
  }

  // ---------------------------------------------------------------- where retrying is not safe

  /**
   * The promise is for the wrapper alone: if another process takes the key between a requeue
   * whose reply was lost and its retry, the retry queues a key that is in hand. When a late
   * requeue is harmless, `LateRequeueHarmlessIff` says exactly.
   */
  lemma LateRetryHandsOutTwice(s: Store, w: Workflow, plugins: set<string>)
    requires StoreInv(s) && GoodPluginName(w.pluginName) && StatusOf(s, WorkflowKey(w)) == Active
    requires w.pluginName in plugins
    ensures var key := WorkflowKey(w);
            var requeued := Requeued(s, w).store;
            var (taken, first) := Taken(requeued, plugins);
            var (retaken, second) := Taken(Requeued(taken, w).store, plugins);
            && first.Handed? && WorkflowKey(first.workflow) == key
            && second.Handed? && WorkflowKey(second.workflow) == key
  {
    var key := WorkflowKey(w);
    RequeuedMoves(s, w);
    var requeued := Requeued(s, w).store;
    HeadOfQueue(s, w);
    TakenMoves(requeued, plugins);
    RecordPlugin(requeued, w);
    var taken := Taken(requeued, plugins).0;
    RequeuedMoves(taken, w);
    HeadOfQueue(taken, w);
    TakenMoves(Requeued(taken, w).store, plugins);
    RecordPlugin(Requeued(taken, w).store, w);
  }

  lemma HeadOfQueue(s: Store, w: Workflow)
    requires Requeued(s, w).ok
    ensures QueueOf(Requeued(s, w).store) != [] && QueueOf(Requeued(s, w).store)[0] == WorkflowKey(w)
  {
    RequeuedContents(s.lists, WorkflowKey(w));
  }

  lemma RecordPlugin(s: Store, w: Workflow)
    requires StoreInv(s) && GoodPluginName(w.pluginName) && StatusOf(s, WorkflowKey(w)) == Queued
    ensures s.kv[WorkflowKey(w)].WorkflowJson? && s.kv[WorkflowKey(w)].workflow.pluginName == w.pluginName
  {
    var r := s.kv[WorkflowKey(w)].workflow;
    WorkflowKeyInjective(r.pluginName, r.id, w.pluginName, w.id);
  }
}
