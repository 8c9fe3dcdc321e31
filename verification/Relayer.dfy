/**
 * Any number of listeners and executor processes sharing one store
 * (lib/relayer-engine/src/executor/executorHarness.ts, functions spawnExecutor and
 * spawnWorkflow, over the operations of storage.ts). A run is a sequence of events, each one
 * storage call; what an executor does between two calls is its own state `Proc`. A write whose
 * request is lost leaves its operation in the backlog, and a later event retries it.
 */
module Relayer {
  import opened Lists
  import opened InMemoryStore
  import opened WorkflowStorage
  import opened StagingArea

  const MAX_ACTIVE_WORKFLOWS: nat := 10

  /** A spawned workflow: still in its handler, or past `completeWorkflow`. */
  datatype Execution = Running(w: Workflow) | Finished(w: Workflow)

  /** `checked` holds between the load check and the take that follows it. */
  datatype Proc = Proc(
    plugins: set<string>,
    requeued: map<string, nat>,
    checked: bool,
    executions: map<nat, Execution>,
    spawned: nat)

  datatype Sys = Sys(store: Store, procs: seq<Proc>)

  // ---------------------------------------------------------------- one process

  function CheckedLoad(s: Store, pr: Proc): (r: Proc) {
    pr.(checked := |ActiveOf(s)| < MAX_ACTIVE_WORKFLOWS)
  }

  /** Takes a workflow and spawns it; a throw is caught and the loop goes on without it. */
  function TookNext(s: Store, pr: Proc): (r: (Store, Proc)) {
    var (t, next) := Taken(s, pr.plugins);
    match next
    case Handed(w) =>
      (t, pr.(checked := false, executions := pr.executions[pr.spawned := Running(w)], spawned := pr.spawned + 1))
    case _ => (t, pr.(checked := false))
  }

  /** The handler returned: the workflow is completed, unless that throws. */
  function Succeeded(s: Store, pr: Proc, id: nat): (r: (Store, Proc))
    requires id in pr.executions
  {
    var w := pr.executions[id].w;
    var o := Completed(s, WorkflowKey(w));
    (o.store, if o.ok then pr.(executions := pr.executions[id := Finished(w)]) else pr)
  }

  function Ended(pr: Proc, id: nat): (r: Proc) { pr.(executions := pr.executions - {id}) }

  /** The execution ends with its requeue counted, whether or not that reaches the store. */
  function EndedForRequeue(pr: Proc, id: nat): (r: Proc)
    requires id in pr.executions
  {
    var key := WorkflowKey(pr.executions[id].w);
    Ended(pr, id).(requeued := pr.requeued[key := Times(pr.requeued, key) + 1])
  }

  /** Whether a failed execution has used up its process's requeues. */
  predicate UsedUp(pr: Proc, id: nat)
    requires id in pr.executions
  {
    Times(pr.requeued, WorkflowKey(pr.executions[id].w)) > MAX_REQUEUES
  }

  /** Something threw, in the handler or after it: the workflow is requeued, or dropped. */
  function GaveBack(s: Store, pr: Proc, id: nat): (r: (Store, Proc))
    requires id in pr.executions
  {
    if UsedUp(pr, id) then (s, Ended(pr, id)) else (Requeued(s, pr.executions[id].w).store, EndedForRequeue(pr, id))
  }

  class Executor {
    const storage: DefaultStorage
    var checked: bool
    var executions: map<nat, Execution>
    var spawned: nat

    function State(): (r: Proc)
      reads this, storage
    {
      Proc(storage.plugins, storage.requeued, checked, executions, spawned)
    }

    constructor (storage: DefaultStorage)
      ensures this.storage == storage
      ensures State() == Proc(storage.plugins, storage.requeued, false, map[], 0)
    {
      this.storage := storage;
      checked, executions, spawned := false, map[], 0;
    }

    method CheckLoad()
      modifies this
      ensures State() == CheckedLoad(storage.store.State(), old(State()))
    {
      var inProgressWorkflows := storage.NumActiveWorkflows();
      checked := inProgressWorkflows < MAX_ACTIVE_WORKFLOWS;
    }

    method TakeNext()
      modifies this, storage.store
      ensures (storage.store.State(), State()) == TookNext(old(storage.store.State()), old(State()))
    {
      checked := false;
      var res := storage.GetNextWorkflow();
      if res.Handed? {
        executions := executions[spawned := Running(res.workflow)];
        spawned := spawned + 1;
      }
    }

    method Succeed(id: nat)
      requires id in executions
      modifies this, storage.store
      ensures (storage.store.State(), State()) == Succeeded(old(storage.store.State()), old(State()), id)
    {
      var w := executions[id].w;
      var ok := storage.CompleteWorkflow(w.id, w.pluginName);
      if ok {
        executions := executions[id := Finished(w)];
      }
    }

    method GiveBack(id: nat)
      requires id in executions
      modifies this, storage, storage.store
      ensures (storage.store.State(), State()) == GaveBack(old(storage.store.State()), old(State()), id)
    {
      var w := executions[id].w;
      var _ := storage.RequeueWorkflow(w);
      executions := executions - {id};
    }

    method Return(id: nat)
      requires id in executions
      modifies this
      ensures State() == Ended(old(State()), id)
    {
      executions := executions - {id};
    }
  }

  // ---------------------------------------------------------------- runs

  datatype Event =
    | Deliver(w: Workflow, now: int)                              // a listener's addWorkflow
    | WatchStaging(plugin: string, keys: seq<string>)             // withKey, up to its callback
    | WriteStaging(plugin: string, entries: seq<(string, Json)>)  // withKey, after its callback
    | CheckLoad(p: nat)
    | TakeNext(p: nat)
    | Succeed(p: nat, id: nat)
    | GiveBack(p: nat, id: nat)
    | Return(p: nat, id: nat)
    | LeaveComplete(p: nat, id: nat)                              // returns with its completion in the backlog
    | LeaveRequeue(p: nat, id: nat)                               // fails with its requeue in the backlog
    | RetryComplete(plugin: string, workflowId: string)           // a completion from a backlog
    | RetryRequeue(w: Workflow)                                   // a requeue from a backlog

  predicate Spawned(s: Sys, p: nat, id: nat) { p < |s.procs| && id in s.procs[p].executions }

  function ExecAt(s: Sys, p: nat, id: nat): (r: Execution)
    requires Spawned(s, p, id)
  {
    s.procs[p].executions[id]
  }

  function KeyAt(s: Sys, p: nat, id: nat): (r: string)
    requires Spawned(s, p, id)
  {
    WorkflowKey(ExecAt(s, p, id).w)
  }

  /** Some execution of the key is in its handler, or is past it. */
  ghost predicate InHand(s: Sys, key: string, running: bool) {
    exists p: nat, id: nat :: Spawned(s, p, id) && KeyAt(s, p, id) == key && ExecAt(s, p, id).Running? == running
  }

  /**
   * A retried completion is for a key that has left the queue and is not in its handler again; a
   * retried requeue is for a known key that is in no hand. Deliveries are retried as they are.
   */
  ghost predicate Enabled(s: Sys, e: Event) {
    match e
    case Deliver(w, now) => GoodPluginName(w.pluginName)
    case WatchStaging(plugin, keys) => true
    case WriteStaging(plugin, entries) => true
    case CheckLoad(p) => p < |s.procs|
    case TakeNext(p) => p < |s.procs| && s.procs[p].checked
    case Succeed(p, id) => Spawned(s, p, id) && ExecAt(s, p, id).Running?
    case GiveBack(p, id) => Spawned(s, p, id)
    case Return(p, id) => Spawned(s, p, id) && ExecAt(s, p, id).Finished?
    case LeaveComplete(p, id) => Spawned(s, p, id) && ExecAt(s, p, id).Running?
    case LeaveRequeue(p, id) => Spawned(s, p, id) && !UsedUp(s.procs[p], id)
    case RetryComplete(plugin, workflowId) =>
      GoodPluginName(plugin) && MayComplete(s, KeyOf(plugin, workflowId))
    case RetryRequeue(w) =>
      GoodPluginName(w.pluginName) && MayRequeue(s, WorkflowKey(w))
  }

  ghost predicate MayComplete(s: Sys, key: string) {
    StatusOf(s.store, key) in {Active, Complete} && !InHand(s, key, true)
  }

  ghost predicate MayRequeue(s: Sys, key: string) {
    StatusOf(s.store, key) != Unknown && !InHand(s, key, true) && !InHand(s, key, false)
  }

  function With(s: Sys, p: nat, next: (Store, Proc)): (r: Sys)
    requires p < |s.procs|
  {
    Sys(next.0, s.procs[p := next.1])
  }

  function Step(s: Sys, e: Event): (r: Sys)
    requires Enabled(s, e)
    ensures |r.procs| == |s.procs|
  {
    match e
    case Deliver(w, now) => s.(store := Added(s.store, w, now).store)
    case WatchStaging(plugin, keys) => s.(store := Begun(s.store, plugin, keys).store)
    case WriteStaging(plugin, entries) => s.(store := Committed(s.store, plugin, entries).store)
    case CheckLoad(p) => With(s, p, (s.store, CheckedLoad(s.store, s.procs[p])))
    case TakeNext(p) => With(s, p, TookNext(s.store, s.procs[p]))
    case Succeed(p, id) => With(s, p, Succeeded(s.store, s.procs[p], id))
    case GiveBack(p, id) => With(s, p, GaveBack(s.store, s.procs[p], id))
    case Return(p, id) => With(s, p, (s.store, Ended(s.procs[p], id)))
    case LeaveComplete(p, id) => With(s, p, (s.store, Ended(s.procs[p], id)))
    case LeaveRequeue(p, id) => With(s, p, (s.store, EndedForRequeue(s.procs[p], id)))
    case RetryComplete(plugin, workflowId) => s.(store := Completed(s.store, KeyOf(plugin, workflowId)).store)
    case RetryRequeue(w) => s.(store := Requeued(s.store, w).store)
  }

  ghost predicate Legal(s: Sys, es: seq<Event>)
    decreases |es|
  {
    es == [] || (Enabled(s, es[0]) && Legal(Step(s, es[0]), es[1..]))
  }

  function After(s: Sys, es: seq<Event>): (r: Sys)
    requires Legal(s, es)
    decreases |es|
  {
    if es == [] then s else After(Step(s, es[0]), es[1..])
  }

  /** Empty store, and processes that have not started anything. */
  predicate Initial(s: Sys) {
    && s.store == Store(map[], map[], map[])
    && forall p | 0 <= p < |s.procs| ::
         s.procs[p].requeued == map[] && !s.procs[p].checked && s.procs[p].executions == map[]
  }

  // ---------------------------------------------------------------- where a key is

  datatype Status = Unknown | Queued | Active | Complete

  function StatusOf(s: Store, key: string): (r: Status) {
    if IsStagingKey(key) || key !in s.kv then Unknown
    else if key in QueueOf(s) then Queued
    else if key in ActiveOf(s) then Active
    else Complete
  }

  predicate IsRecord(key: string, value: Value) {
    value.WorkflowJson? && WorkflowKey(value.workflow) == key && GoodPluginName(value.workflow.pluginName)
  }

  /** A key is listed at most once in both lists together, and then its record is a workflow. */
  ghost predicate ListsInv(s: Store) {
    && Distinct(QueueOf(s)) && Distinct(ActiveOf(s))
    && (forall k | k in QueueOf(s) :: k !in ActiveOf(s))
    && (forall k | k in QueueOf(s) || k in ActiveOf(s) :: k in s.kv && IsRecord(k, s.kv[k]))
  }

  /** Every other record is the complete mark, and only staging keys are ever locked. */
  ghost predicate RecordsInv(s: Store) {
    && (forall k | k in s.kv && !IsStagingKey(k) && k !in QueueOf(s) && k !in ActiveOf(s) :: s.kv[k] == COMPLETE)
    && (forall k | k in s.locks :: IsStagingKey(k))
  }

  ghost predicate StoreInv(s: Store) { ListsInv(s) && RecordsInv(s) }

  /** From `s` to `t` only `key` changes place. */
  ghost predicate Moves(s: Store, t: Store, key: string, to: Status) {
    StatusOf(t, key) == to && forall k | k != key :: StatusOf(t, k) == StatusOf(s, k)
  }

  ghost predicate NothingMoves(s: Store, t: Store) {
    forall k :: StatusOf(t, k) == StatusOf(s, k)
  }

  lemma RecordKey(key: string, value: Value)
    requires IsRecord(key, value)
    ensures !IsStagingKey(key) && key != "" && value != Text("") && value != COMPLETE
  {
    WorkflowKeyNotStaging(value.workflow.pluginName, value.workflow.id);
  }

  lemma ListedKeys(s: Store, key: string)
    requires StoreInv(s) && (key in QueueOf(s) || key in ActiveOf(s))
    ensures !IsStagingKey(key) && key != "" && key !in s.locks
    ensures ValueOf(s, key) == Some(s.kv[key]) && ValueOf(s, key) != Some(COMPLETE)
  {
    RecordKey(key, s.kv[key]);
  }

  /** The two stores agree on every key but one. */
  ghost predicate AgreeExcept(s: Store, t: Store, key: string) {
    forall k | k != key ::
      && (k in t.kv <==> k in s.kv) && (k in s.kv ==> t.kv[k] == s.kv[k])
      && (k in QueueOf(t) <==> k in QueueOf(s))
      && (k in ActiveOf(t) <==> k in ActiveOf(s))
  }

  lemma Rearranged(s: Store, t: Store, key: string, to: Status)
    requires StoreInv(s) && AgreeExcept(s, t, key) && t.locks == map[]
    requires Distinct(QueueOf(t)) && Distinct(ActiveOf(t))
    requires to != Unknown && !IsStagingKey(key) && key in t.kv
    requires key in QueueOf(t) <==> to == Queued
    requires key in ActiveOf(t) <==> to == Active
    requires if to == Complete then t.kv[key] == COMPLETE else IsRecord(key, t.kv[key])
    ensures StoreInv(t) && Moves(s, t, key, to)
  {
  }

  /** Redelivery changes nothing; a new key is queued. */
  lemma AddedMoves(s: Store, w: Workflow, now: int)
    requires StoreInv(s) && GoodPluginName(w.pluginName)
    ensures var o, key := Added(s, w, now), WorkflowKey(w);
            && o.ok && StoreInv(o.store) && ActiveOf(o.store) == ActiveOf(s)
            && Moves(s, o.store, key, if StatusOf(s, key) == Unknown then Queued else StatusOf(s, key))
  {
    var o, key := Added(s, w, now), WorkflowKey(w);
    WorkflowKeyNotStaging(w.pluginName, w.id);
    if key in s.kv {
      if key in QueueOf(s) || key in ActiveOf(s) {
        ListedKeys(s, key);
      }
    } else {
      assert QueueOf(o.store) == [key] + QueueOf(s);
      assert IsRecord(key, o.store.kv[key]);
      Rearranged(s, o.store, key, Queued);
    }
  }

  lemma CompletedMoves(s: Store, key: string)
    requires StoreInv(s) && StatusOf(s, key) in {Active, Complete}
    ensures var o := Completed(s, key);
            && o.ok && StoreInv(o.store) && Moves(s, o.store, key, Complete)
            && |ActiveOf(o.store)| <= |ActiveOf(s)|
  {
    var o := Completed(s, key);
    if StatusOf(s, key) == Complete {
      return;
    }
    ListedKeys(s, key);
    RemovedContents(s.lists, ACTIVE_WORKFLOWS_QUEUE, key);
    assert QueueOf(o.store) == QueueOf(s);
    assert ActiveOf(o.store) == Reverse(Without(ActiveOf(s), key));
    RemovedMembers(ActiveOf(s), key);
    Rearranged(s, o.store, key, Complete);
  }

  /** Requeueing a known key queues it. */
  lemma RequeuedMoves(s: Store, w: Workflow)
    requires StoreInv(s) && GoodPluginName(w.pluginName)
    requires StatusOf(s, WorkflowKey(w)) != Unknown
    ensures var o, key := Requeued(s, w), WorkflowKey(w);
            && o.ok && StoreInv(o.store) && Moves(s, o.store, key, Queued)
            && |ActiveOf(o.store)| <= |ActiveOf(s)|
  {
    var o, key := Requeued(s, w), WorkflowKey(w);
    WorkflowKeyNotStaging(w.pluginName, w.id);
    if StatusOf(s, key) != Complete {
      ListedKeys(s, key);
    }
    RequeuedContents(s.lists, key);
    assert IsRecord(key, o.store.kv[key]);
    RequeuedRearranged(s, o.store, key);
  }

  lemma RequeuedRearranged(s: Store, t: Store, key: string)
    requires StoreInv(s) && t.locks == map[] && !IsStagingKey(key)
    requires key in t.kv && IsRecord(key, t.kv[key])
    requires forall k | k != key :: (k in t.kv <==> k in s.kv) && (k in s.kv ==> t.kv[k] == s.kv[k])
    requires QueueOf(t) == [key] + Reverse(Without(QueueOf(s), key))
    requires ActiveOf(t) == Reverse(Without(ActiveOf(s), key))
    ensures StoreInv(t) && Moves(s, t, key, Queued) && |ActiveOf(t)| <= |ActiveOf(s)|
  {
    RemovedMembers(QueueOf(s), key);
    RemovedMembers(ActiveOf(s), key);
    Rearranged(s, t, key, Queued);
  }

  lemma TakenMoves(s: Store, plugins: set<string>)
    requires StoreInv(s)
    ensures var (t, next) := Taken(s, plugins);
            && StoreInv(t) && t.kv == s.kv && t.locks == s.locks
            && (QueueOf(s) == [] ==> t == s && next == Nothing)
            && (QueueOf(s) != [] ==>
                  var key := QueueOf(s)[0];
                  && Moves(s, t, key, Active)
                  && ActiveOf(t) == ActiveOf(s) + [key]
                  && next == var w := s.kv[key].workflow; if w.pluginName in plugins then Handed(w) else Failed(key))
  {
    var (t, next) := Taken(s, plugins);
    if QueueOf(s) != [] {
      var key, rest := QueueOf(s)[0], QueueOf(s)[1..];
      ListedKeys(s, key);
      DistinctTail(QueueOf(s));
      assert QueueOf(s) == [key] + rest;
      assert QueueOf(t) == rest && ActiveOf(t) == ActiveOf(s) + [key];
    }
  }

  /** The queue is a stack: a take right after a new delivery hands out that workflow. */
  lemma AddThenTake(s: Store, w: Workflow, now: int, plugins: set<string>)
    requires StoreInv(s) && GoodPluginName(w.pluginName) && StatusOf(s, WorkflowKey(w)) == Unknown
    requires w.pluginName in plugins
    ensures var (t, next) := Taken(Added(s, w, now).store, plugins);
            && next == Handed(w.(scheduledAt := Some(now)))
            && QueueOf(t) == QueueOf(s)
            && ActiveOf(t) == ActiveOf(s) + [WorkflowKey(w)]
  {
    var u, key := Added(s, w, now).store, WorkflowKey(w);
    WorkflowKeyNotStaging(w.pluginName, w.id);
    AddedMoves(s, w, now);
    TakenMoves(u, plugins);
    assert QueueOf(u) == [key] + QueueOf(s);
  }

  /**
   * What a take spawns: one new execution, running exactly the record that was stored for the key,
   * or none if the queue is empty or the process lacks the plugin. The check is used up either way.
   */
  lemma TakeSpawns(s: Store, pr: Proc)
    requires StoreInv(s)
    ensures var u := TookNext(s, pr).1;
            && u.plugins == pr.plugins && u.requeued == pr.requeued && !u.checked
            && (QueueOf(s) != [] ==>
                  var key := QueueOf(s)[0];
                  && key in s.kv && s.kv[key].WorkflowJson?
                  && var w := s.kv[key].workflow;
                    if w.pluginName in pr.plugins
                    then u.executions == pr.executions[pr.spawned := Running(w)] && u.spawned == pr.spawned + 1
                    else u.executions == pr.executions && u.spawned == pr.spawned)
            && (QueueOf(s) == [] ==> u.executions == pr.executions && u.spawned == pr.spawned)
  {
    TakenMoves(s, pr.plugins);
    if QueueOf(s) != [] {
      ListedKeys(s, QueueOf(s)[0]);
    }
  }

  /** Completing throws exactly when the key is locked, and then nothing happens to the execution either. */
  lemma SucceedThrowsIff(s: Store, pr: Proc, id: nat)
    requires id in pr.executions
    ensures var key, (t, u) := WorkflowKey(pr.executions[id].w), Succeeded(s, pr, id);
            && (key in s.locks ==> t == s && u == pr)
            && (key !in s.locks ==>
                  ValueOf(t, key) == Some(COMPLETE)
                  && u == pr.(executions := pr.executions[id := Finished(pr.executions[id].w)]))
  {
  }

  // ---------------------------------------------------------------- staging writes stay apart

  lemma {:induction false} WatchAddsLocks(s: Store, keys: seq<string>)
    ensures var t := WatchAll(s, keys).store;
            t.kv == s.kv && t.lists == s.lists && forall k | k in t.locks :: k in s.locks || k in keys
    decreases |keys|
  {
    if keys != [] && keys[0] !in s.locks {
      WatchAddsLocks(LockOne(s, keys[0]), keys[1..]);
    }
  }

  lemma {:induction false} StagingBatch(s: Store, ops: seq<Op>)
    requires forall op | op in ops :: op.SetOp? && IsStagingKey(op.key)
    ensures ListEffects(s.lists, ops) == s.lists
    ensures forall k | !IsStagingKey(k) ::
              (k in Writes(s, ops) <==> k in s.kv) && (k in s.kv ==> Writes(s, ops)[k] == s.kv[k])
  {
    if ops != [] {
      var init := ops[..|ops| - 1];
      assert forall op | op in init :: op in ops;
      assert ops[|ops| - 1] in ops;
      StagingBatch(s, init);
    }
  }

  /** The staging area cannot reach the lists or a workflow record. */
  ghost predicate WorkflowsKept(s: Store, t: Store) {
    t.lists == s.lists
    && forall k | !IsStagingKey(k) :: (k in t.kv <==> k in s.kv) && (k in s.kv ==> t.kv[k] == s.kv[k])
  }

  /** Workflow operations cannot reach a staging key. */
  ghost predicate StagingKept(s: Store, t: Store) {
    forall k | IsStagingKey(k) :: (k in t.kv <==> k in s.kv) && (k in s.kv ==> t.kv[k] == s.kv[k])
  }

  lemma BegunKeepsWorkflows(s: Store, plugin: string, keys: seq<string>)
    ensures var t := Begun(s, plugin, keys).store;
            WorkflowsKept(s, t) && StagingKept(s, t)
            && forall k | k in t.locks :: k in s.locks || IsStagingKey(k)
  {
    var names := StagingKeys(plugin, keys);
    WatchAddsLocks(s, names);
    forall k | k in names ensures IsStagingKey(k) {
      var i :| 0 <= i < |names| && names[i] == k;
      StagingKeyIsStaging(plugin, keys[i]);
    }
  }

  lemma CommittedKeepsWorkflows(s: Store, plugin: string, entries: seq<(string, Json)>)
    ensures var t := Committed(s, plugin, entries).store; WorkflowsKept(s, t) && t.locks == map[]
  {
    var ops := StagingWrites(plugin, entries);
    forall op | op in ops ensures op.SetOp? && IsStagingKey(op.key) {
      var i :| 0 <= i < |ops| && ops[i] == op;
      StagingKeyIsStaging(plugin, entries[i].0);
    }
    StagingBatch(s, ops);
  }

  // ---------------------------------------------------------------- the invariant

  /** What a running execution holds is active, and what a finished one held is complete. */
  ghost predicate HandsInv(s: Sys) {
    forall p: nat, id: nat | Spawned(s, p, id) ::
      && GoodPluginName(ExecAt(s, p, id).w.pluginName)
      && id < s.procs[p].spawned
      && StatusOf(s.store, KeyAt(s, p, id)) == if ExecAt(s, p, id).Running? then Active else Complete
  }

  /** No key is in hand twice. */
  ghost predicate Exclusive(s: Sys) {
    forall p: nat, id: nat, q: nat, jd: nat | Spawned(s, p, id) && Spawned(s, q, jd) && KeyAt(s, p, id) == KeyAt(s, q, jd) ::
      p == q && id == jd
  }

  ghost predicate CountersInv(s: Sys) {
    forall p: nat, k | p < |s.procs| :: Times(s.procs[p].requeued, k) <= MAX_REQUEUES + 1
  }

  ghost predicate Inv(s: Sys) {
    StoreInv(s.store) && HandsInv(s) && Exclusive(s) && CountersInv(s)
  }

  /** One execution ends or finishes, and its key alone moves. */
  lemma ExecutionMoves(s: Sys, p: nat, id: nat, t: Store, pr: Proc, to: Status)
    requires Inv(s) && Spawned(s, p, id)
    requires StoreInv(t) && Moves(s.store, t, KeyAt(s, p, id), to)
    requires pr.spawned == s.procs[p].spawned
    requires || pr.executions == s.procs[p].executions - {id}
             || (to == Complete && pr.executions == s.procs[p].executions[id := Finished(ExecAt(s, p, id).w)])
    requires forall k :: Times(pr.requeued, k) <= MAX_REQUEUES + 1
    ensures Inv(With(s, p, (t, pr)))
  {
    var u := With(s, p, (t, pr));
    forall q: nat, jd: nat | Spawned(u, q, jd)
      ensures Spawned(s, q, jd) && KeyAt(u, q, jd) == KeyAt(s, q, jd)
      ensures (q, jd) != (p, id) ==> ExecAt(u, q, jd) == ExecAt(s, q, jd) && KeyAt(s, q, jd) != KeyAt(s, p, id)
    {
    }
  }

  lemma CountedOnce(counts: map<string, nat>, key: string)
    ensures var after := counts[key := Times(counts, key) + 1];
            forall k :: Times(after, k) == if k == key then Times(counts, k) + 1 else Times(counts, k)
  {
  }

  lemma TakeNextInv(s: Sys, p: nat)
    requires Inv(s) && p < |s.procs|
    ensures Inv(With(s, p, TookNext(s.store, s.procs[p])))
  {
    TakenMoves(s.store, s.procs[p].plugins);
    var u := With(s, p, TookNext(s.store, s.procs[p]));
    if QueueOf(s.store) != [] {
      var key := QueueOf(s.store)[0];
      ListedKeys(s.store, key);
      assert StatusOf(s.store, key) == Queued;
      forall q: nat, jd: nat | Spawned(s, q, jd)
        ensures Spawned(u, q, jd) && ExecAt(u, q, jd) == ExecAt(s, q, jd) && KeyAt(s, q, jd) != key
      {
      }
      forall q: nat, jd: nat | Spawned(u, q, jd)
        ensures Spawned(s, q, jd) || (q == p && jd == s.procs[p].spawned && KeyAt(u, q, jd) == key && ExecAt(u, q, jd).Running?)
      {
      }
    } else {
      assert forall q: nat, jd: nat :: Spawned(u, q, jd) <==> Spawned(s, q, jd);
    }
  }

  lemma DeliverInv(s: Sys, w: Workflow, now: int)
    requires Inv(s) && GoodPluginName(w.pluginName)
    ensures Inv(s.(store := Added(s.store, w, now).store))
  {
    var u := s.(store := Added(s.store, w, now).store);
    AddedMoves(s.store, w, now);
    assert forall p: nat, id: nat :: Spawned(u, p, id) <==> Spawned(s, p, id);
  }

  lemma SucceedInv(s: Sys, p: nat, id: nat)
    requires Inv(s) && Spawned(s, p, id) && ExecAt(s, p, id).Running?
    ensures Inv(With(s, p, Succeeded(s.store, s.procs[p], id)))
  {
    var next := Succeeded(s.store, s.procs[p], id);
    CompletedMoves(s.store, KeyAt(s, p, id));
    ExecutionMoves(s, p, id, next.0, next.1, Complete);
  }

  lemma GiveBackInv(s: Sys, p: nat, id: nat)
    requires Inv(s) && Spawned(s, p, id)
    ensures Inv(With(s, p, GaveBack(s.store, s.procs[p], id)))
  {
    var next := GaveBack(s.store, s.procs[p], id);
    if UsedUp(s.procs[p], id) {
      ExecutionMoves(s, p, id, next.0, next.1, StatusOf(s.store, KeyAt(s, p, id)));
    } else {
      RequeuedMoves(s.store, ExecAt(s, p, id).w);
      CountedOnce(s.procs[p].requeued, KeyAt(s, p, id));
      ExecutionMoves(s, p, id, next.0, next.1, Queued);
    }
  }

  lemma LeaveRequeueInv(s: Sys, p: nat, id: nat)
    requires Inv(s) && Spawned(s, p, id) && !UsedUp(s.procs[p], id)
    ensures Inv(With(s, p, (s.store, EndedForRequeue(s.procs[p], id))))
  {
    CountedOnce(s.procs[p].requeued, KeyAt(s, p, id));
    ExecutionMoves(s, p, id, s.store, EndedForRequeue(s.procs[p], id), StatusOf(s.store, KeyAt(s, p, id)));
  }

  /** One key moves that no execution has, or whose executions are all where it goes. */
  lemma StoreMoves(s: Sys, t: Store, key: string, to: Status)
    requires Inv(s) && StoreInv(t) && Moves(s.store, t, key, to)
    requires !InHand(s, key, true) && (!InHand(s, key, false) || to == Complete)
    ensures Inv(s.(store := t))
  {
    var u := s.(store := t);
    forall p: nat, id: nat | Spawned(u, p, id)
      ensures Spawned(s, p, id) && ExecAt(u, p, id) == ExecAt(s, p, id)
      ensures KeyAt(s, p, id) != key || (ExecAt(s, p, id).Finished? && to == Complete)
    {
      assert Spawned(s, p, id) && ExecAt(u, p, id) == ExecAt(s, p, id);
    }
  }

  /**
   * Exactly when a requeue that comes late is harmless: when nothing has the key in hand, neither
   * in its handler nor past it.
   */
  lemma LateRequeueHarmlessIff(s: Sys, w: Workflow)
    requires Inv(s) && GoodPluginName(w.pluginName) && StatusOf(s.store, WorkflowKey(w)) != Unknown
    ensures Inv(s.(store := Requeued(s.store, w).store)) <==>
            !InHand(s, WorkflowKey(w), true) && !InHand(s, WorkflowKey(w), false)
  {
    var t, key := Requeued(s.store, w).store, WorkflowKey(w);
    RequeuedMoves(s.store, w);
    if !InHand(s, key, true) && !InHand(s, key, false) {
      StoreMoves(s, t, key, Queued);
    } else if Inv(s.(store := t)) {
      HeldKeyStays(s, t, key);
    }
  }

  /** And a completion that comes late: when the key is not queued, nor in its handler again. */
  lemma LateCompleteHarmlessIff(s: Sys, plugin: string, workflowId: string)
    requires Inv(s) && GoodPluginName(plugin) && StatusOf(s.store, KeyOf(plugin, workflowId)) != Unknown
    ensures var key := KeyOf(plugin, workflowId);
            Inv(s.(store := Completed(s.store, key).store)) <==>
            StatusOf(s.store, key) != Queued && !InHand(s, key, true)
  {
    var key := KeyOf(plugin, workflowId);
    var t := Completed(s.store, key).store;
    if StatusOf(s.store, key) == Queued {
      ListedKeys(s.store, key);
      assert QueueOf(t) == QueueOf(s.store) && t.kv[key] == COMPLETE;
    } else {
      CompletedMoves(s.store, key);
      if InHand(s, key, true) {
        if Inv(s.(store := t)) {
          HeldKeyStays(s, t, key);
        }
      } else {
        StoreMoves(s, t, key, Complete);
      }
    }
  }

  /** The store cannot move a key that is in hand under the executions. */
  lemma HeldKeyStays(s: Sys, t: Store, key: string)
    requires Inv(s) && Inv(s.(store := t))
    requires InHand(s, key, true) || InHand(s, key, false)
    ensures StatusOf(t, key) == StatusOf(s.store, key)
    ensures StatusOf(t, key) == if InHand(s, key, true) then Active else Complete
  {
    var u := s.(store := t);
    if p: nat, id: nat :| Spawned(s, p, id) && KeyAt(s, p, id) == key && ExecAt(s, p, id).Running? {
      assert Spawned(u, p, id) && ExecAt(u, p, id) == ExecAt(s, p, id);
    } else {
      var p: nat, id: nat :| Spawned(s, p, id) && KeyAt(s, p, id) == key;
      assert Spawned(u, p, id) && ExecAt(u, p, id) == ExecAt(s, p, id);
    }
  }

  /** Every step keeps the invariant. */
  lemma StepInv(s: Sys, e: Event)
    requires Inv(s) && Enabled(s, e)
    ensures Inv(Step(s, e))
  {
    var u := Step(s, e);
    match e
    case Deliver(w, now) =>
      DeliverInv(s, w, now);
    case WatchStaging(plugin, keys) =>
      BegunKeepsWorkflows(s.store, plugin, keys);
      StagingInv(s, u);
    case WriteStaging(plugin, entries) =>
      CommittedKeepsWorkflows(s.store, plugin, entries);
      StagingInv(s, u);
    case CheckLoad(p) =>
      assert forall q: nat, jd: nat :: Spawned(u, q, jd) <==> Spawned(s, q, jd);
    case TakeNext(p) =>
      TakeNextInv(s, p);
    case Succeed(p, id) =>
      SucceedInv(s, p, id);
    case GiveBack(p, id) =>
      GiveBackInv(s, p, id);
    case Return(p, id) =>
      ExecutionMoves(s, p, id, s.store, Ended(s.procs[p], id), Complete);
    case LeaveComplete(p, id) =>
      ExecutionMoves(s, p, id, s.store, Ended(s.procs[p], id), Active);
    case LeaveRequeue(p, id) =>
      LeaveRequeueInv(s, p, id);
    case RetryComplete(plugin, workflowId) =>
      LateCompleteHarmlessIff(s, plugin, workflowId);
    case RetryRequeue(w) =>
      LateRequeueHarmlessIff(s, w);
  }

  lemma StagingInv(s: Sys, u: Sys)
    requires Inv(s) && u.procs == s.procs && WorkflowsKept(s.store, u.store)
    requires forall k | k in u.store.locks :: IsStagingKey(k)
    ensures Inv(u)
  {
    assert forall k | k in QueueOf(s.store) || k in ActiveOf(s.store) :: !IsStagingKey(k) by {
      forall k | k in QueueOf(s.store) || k in ActiveOf(s.store) ensures !IsStagingKey(k) {
        ListedKeys(s.store, k);
      }
    }
    assert StoreInv(u.store);
    assert forall k :: StatusOf(u.store, k) == StatusOf(s.store, k);
    assert forall p: nat, id: nat :: Spawned(u, p, id) <==> Spawned(s, p, id);
  }

  lemma InitialInv(s: Sys)
    requires Initial(s)
    ensures Inv(s)
  {
  }

  lemma {:induction false} RunInv(s: Sys, es: seq<Event>)
    requires Inv(s) && Legal(s, es)
    ensures Inv(After(s, es)) && |After(s, es).procs| == |s.procs|
    decreases |es|
  {
    if es != [] {
      StepInv(s, es[0]);
      RunInv(Step(s, es[0]), es[1..]);
    }
  }
}
