/**
 * What holds over every run of the relayer: exclusion, conservation, key separation, bounded
 * attempts, termination, and the load bound.
 */
module RelayerRuns {
  import opened Lists
  import opened InMemoryStore
  import opened WorkflowStorage
  import opened StagingArea
  import opened Relayer
  import Amounts

  // ---------------------------------------------------------------- what one event moves

  /** The key an event is about, if any. */
  function Subject(s: Sys, e: Event): (r: Option<string>)
    requires Enabled(s, e)
  {
    match e
    case Deliver(w, now) => Some(WorkflowKey(w))
    case TakeNext(p) => if QueueOf(s.store) == [] then None else Some(QueueOf(s.store)[0])
    case Succeed(p, id) => Some(KeyAt(s, p, id))
    case GiveBack(p, id) => Some(KeyAt(s, p, id))
    case Return(p, id) => Some(KeyAt(s, p, id))
    case LeaveComplete(p, id) => Some(KeyAt(s, p, id))
    case LeaveRequeue(p, id) => Some(KeyAt(s, p, id))
    case RetryComplete(plugin, workflowId) => Some(KeyOf(plugin, workflowId))
    case RetryRequeue(w) => Some(WorkflowKey(w))
    case _ => None
  }

  function Destination(s: Sys, e: Event): (r: Status)
    requires Enabled(s, e) && Subject(s, e).Some?
  {
    var now := StatusOf(s.store, Subject(s, e).value);
    match e
    case Deliver(w, _) => if now == Unknown then Queued else now
    case TakeNext(p) => Active
    case Succeed(p, id) => Complete
    case GiveBack(p, id) => if UsedUp(s.procs[p], id) then now else Queued
    case RetryComplete(_, _) => Complete
    case RetryRequeue(_) => Queued
    case _ => now
  }

  lemma StepMoves(s: Sys, e: Event)
    requires Inv(s) && Enabled(s, e)
    ensures match Subject(s, e)
            case None => NothingMoves(s.store, Step(s, e).store)
            case Some(key) => Moves(s.store, Step(s, e).store, key, Destination(s, e))
  {
    match e
    case Deliver(w, now) =>
      AddedMoves(s.store, w, now);
    case WatchStaging(plugin, keys) =>
      BegunKeepsWorkflows(s.store, plugin, keys);
    case WriteStaging(plugin, entries) =>
      CommittedKeepsWorkflows(s.store, plugin, entries);
    case CheckLoad(p) =>
    case TakeNext(p) =>
      TakenMoves(s.store, s.procs[p].plugins);
    case Succeed(p, id) =>
      CompletedMoves(s.store, KeyAt(s, p, id));
    case GiveBack(p, id) =>
      if !UsedUp(s.procs[p], id) {
        RequeuedMoves(s.store, ExecAt(s, p, id).w);
      }
    case RetryComplete(plugin, workflowId) =>
      CompletedMoves(s.store, KeyOf(plugin, workflowId));
    case RetryRequeue(w) =>
      RequeuedMoves(s.store, w);
    case _ =>
  }

  lemma {:induction false} LegalConcat(s: Sys, es: seq<Event>, more: seq<Event>)
    requires Legal(s, es) && Legal(After(s, es), more)
    ensures Legal(s, es + more) && After(s, es + more) == After(After(s, es), more)
    decreases |es|
  {
    if es == [] {
      assert es + more == more;
    } else {
      LegalConcat(Step(s, es[0]), es[1..], more);
      assert (es + more)[1..] == es[1..] + more;
    }
  }

  // ---------------------------------------------------------------- what ends an execution

  /**
   * Giving a workflow back ends its execution and nothing else in the process; its key is queued
   * again exactly when the process has requeued it fewer than three times, which is then counted.
   */
  lemma GiveBackRequeuesIff(s: Sys, p: nat, id: nat)
    requires Inv(s) && Spawned(s, p, id)
    ensures var key, u := KeyAt(s, p, id), Step(s, GiveBack(p, id));
            var n := Times(s.procs[p].requeued, key);
            && (StatusOf(u.store, key) == Queued <==> n < 3)
            && (n >= 3 ==> u.store == s.store && u.procs[p].requeued == s.procs[p].requeued)
            && (n < 3 ==> u.procs[p].requeued == s.procs[p].requeued[key := n + 1])
            && u.procs[p].executions == s.procs[p].executions - {id}
  {
    StepMoves(s, GiveBack(p, id));
  }

  /** A handler that returns completes its workflow, and its execution is finished with that workflow. */
  lemma SucceedCompletes(s: Sys, p: nat, id: nat)
    requires Inv(s) && Spawned(s, p, id) && ExecAt(s, p, id).Running?
    ensures var key, u := KeyAt(s, p, id), Step(s, Succeed(p, id));
            && key in u.store.kv && u.store.kv[key] == Text("__complete")
            && key !in QueueOf(u.store) && key !in ActiveOf(u.store)
            && u.procs[p] == s.procs[p].(executions := s.procs[p].executions[id := Finished(ExecAt(s, p, id).w)])
  {
    StepMoves(s, Succeed(p, id));
    StepInv(s, Succeed(p, id));
    CompletedMoves(s.store, KeyAt(s, p, id));
  }

  /** An execution that is finished can return, which leaves the store and every other execution alone. */
  lemma FinishedReturns(s: Sys, p: nat, id: nat)
    requires Spawned(s, p, id) && ExecAt(s, p, id).Finished?
    ensures Enabled(s, Return(p, id))
    ensures var u := Step(s, Return(p, id));
            && u.store == s.store && !Spawned(u, p, id)
            && forall q: nat, jd: nat | (q, jd) != (p, id) && Spawned(s, q, jd) ::
                 Spawned(u, q, jd) && ExecAt(u, q, jd) == ExecAt(s, q, jd)
  {
  }

  /** In a run, a plugin's update of a free key writes its value, and leaves the executors alone. */
  lemma StagingUpdateActs(s: Sys, plugin: string, name: string, json: Json)
    requires StagingKey(plugin, name) !in s.store.locks
    ensures var k, watch, write := StagingKey(plugin, name), WatchStaging(plugin, [name]), WriteStaging(plugin, [(name, json)]);
            && Legal(s, [watch, write])
            && k in Step(s, watch).store.locks && Step(s, watch).store.locks[k] == ValueOf(s.store, k)
            && var u := After(s, [watch, write]);
              u.procs == s.procs && u.store.locks == map[] && ValueOf(u.store, k) == Some(StagedJson(json))
  {
    BeginEffect(s.store, plugin, name);
    CommitEffect(Step(s, WatchStaging(plugin, [name])).store, plugin, name, json);
    TwoSteps(s, WatchStaging(plugin, [name]), WriteStaging(plugin, [(name, json)]));
  }

  // ---------------------------------------------------------------- exclusion and conservation

  /** No key is ever in hand in two executions, nor listed twice in queue and active list together. */
  lemma NeverInHandTwice(s: Sys, es: seq<Event>)
    requires Initial(s) && Legal(s, es)
    ensures var t := After(s, es);
            && Exclusive(t)
            && Distinct(QueueOf(t.store) + ActiveOf(t.store))
            && forall p: nat, id: nat | Spawned(t, p, id) && ExecAt(t, p, id).Running? ::
                 KeyAt(t, p, id) in ActiveOf(t.store)
  {
    InitialInv(s);
    RunInv(s, es);
    var t := After(s, es);
    var q, a := QueueOf(t.store), ActiveOf(t.store);
    forall i, j | 0 <= i < j < |q + a| ensures (q + a)[i] != (q + a)[j] {
      if i < |q| && |q| <= j {
        assert q[i] in q && a[j - |q|] in a;
      }
    }
  }

  predicate Delivered(es: seq<Event>, key: string) {
    exists e | e in es :: e.Deliver? && WorkflowKey(e.w) == key
  }

  lemma DeliveredTail(es: seq<Event>, key: string)
    requires es != []
    ensures Delivered(es, key) <==> (es[0].Deliver? && WorkflowKey(es[0].w) == key) || Delivered(es[1..], key)
  {
    assert es == [es[0]] + es[1..];
  }

  lemma {:induction false} KnownIffDelivered(s: Sys, es: seq<Event>, key: string)
    requires Inv(s) && Legal(s, es)
    ensures StatusOf(After(s, es).store, key) != Unknown <==> StatusOf(s.store, key) != Unknown || Delivered(es, key)
    decreases |es|
  {
    if es != [] {
      StepMoves(s, es[0]);
      StepInv(s, es[0]);
      DeliveredTail(es, key);
      KnownIffDelivered(Step(s, es[0]), es[1..], key);
      if Subject(s, es[0]).Some? && !es[0].Deliver? {
        SubjectsAreKnown(s, es[0]);
      }
    }
  }

  /** Apart from deliveries, events concern keys that have a record. */
  lemma SubjectsAreKnown(s: Sys, e: Event)
    requires Inv(s) && Enabled(s, e) && Subject(s, e).Some? && !e.Deliver?
    ensures StatusOf(s.store, Subject(s, e).value) != Unknown
  {
    if e.TakeNext? {
      ListedKeys(s.store, QueueOf(s.store)[0]);
    }
  }

  /**
   * Every key ever delivered is in exactly one of the queue, the active list and completion,
   * and its record is a workflow exactly while it is listed.
   */
  lemma Conservation(s: Sys, es: seq<Event>, key: string)
    requires Initial(s) && Legal(s, es)
    ensures var t := After(s, es).store;
            && (Delivered(es, key) ==>
                  && key in t.kv
                  && (key in QueueOf(t) ==> key !in ActiveOf(t))
                  && (t.kv[key] == COMPLETE <==> key !in QueueOf(t) && key !in ActiveOf(t))
                  && (t.kv[key] != COMPLETE ==> t.kv[key].WorkflowJson? && WorkflowKey(t.kv[key].workflow) == key))
            && (!Delivered(es, key) ==> key !in QueueOf(t) && key !in ActiveOf(t) && (key in t.kv ==> IsStagingKey(key)))
  {
    InitialInv(s);
    RunInv(s, es);
    KnownIffDelivered(s, es, key);
    var t := After(s, es).store;
    if key in QueueOf(t) || key in ActiveOf(t) {
      ListedKeys(t, key);
    }
  }

  /** Staging writes and workflow operations never touch each other's keys. */
  lemma KeySeparation(s: Sys, e: Event)
    requires Inv(s) && Enabled(s, e)
    ensures e.WatchStaging? || e.WriteStaging? ==> WorkflowsKept(s.store, Step(s, e).store)
    ensures !e.WriteStaging? ==> StagingKept(s.store, Step(s, e).store)
  {
    match e
    case Deliver(w, now) =>
      WorkflowKeyNotStaging(w.pluginName, w.id);
    case WatchStaging(plugin, keys) =>
      BegunKeepsWorkflows(s.store, plugin, keys);
    case WriteStaging(plugin, entries) =>
      CommittedKeepsWorkflows(s.store, plugin, entries);
    case Succeed(p, id) =>
      var w := ExecAt(s, p, id).w;
      WorkflowKeyNotStaging(w.pluginName, w.id);
    case GiveBack(p, id) =>
      var w := ExecAt(s, p, id).w;
      WorkflowKeyNotStaging(w.pluginName, w.id);
    case TakeNext(p) =>
      TakenMoves(s.store, s.procs[p].plugins);
    case RetryComplete(plugin, workflowId) =>
      WorkflowKeyNotStaging(plugin, workflowId);
    case RetryRequeue(w) =>
      WorkflowKeyNotStaging(w.pluginName, w.id);
    case _ =>
  }

  /** The same processes, lists and workflow records; staging values and locks may differ. */
  ghost predicate SameWorkflows(s: Sys, t: Sys) {
    s.procs == t.procs && WorkflowsKept(s.store, t.store)
  }

  predicate IsStaging(e: Event) { e.WatchStaging? || e.WriteStaging? }

  function WithoutStaging(es: seq<Event>): (r: seq<Event>) {
    if es == [] then []
    else if IsStaging(es[0]) then WithoutStaging(es[1..])
    else [es[0]] + WithoutStaging(es[1..])
  }

  lemma SameAdded(s: Store, t: Store, w: Workflow, now: int)
    requires WorkflowsKept(s, t) && !IsStagingKey(WorkflowKey(w))
    requires WorkflowKey(w) !in s.locks && WorkflowKey(w) !in t.locks
    ensures WorkflowsKept(Added(s, w, now).store, Added(t, w, now).store)
  {
  }

  lemma SameCompleted(s: Store, t: Store, key: string)
    requires WorkflowsKept(s, t) && !IsStagingKey(key) && key !in s.locks && key !in t.locks
    ensures WorkflowsKept(Completed(s, key).store, Completed(t, key).store)
    ensures Completed(s, key).ok && Completed(t, key).ok
  {
  }

  lemma SameRequeued(s: Store, t: Store, w: Workflow)
    requires WorkflowsKept(s, t) && !IsStagingKey(WorkflowKey(w))
    requires WorkflowKey(w) !in s.locks && WorkflowKey(w) !in t.locks
    ensures WorkflowsKept(Requeued(s, w).store, Requeued(t, w).store)
  {
  }

  lemma SameTaken(s: Store, t: Store, plugins: set<string>)
    requires StoreInv(s) && StoreInv(t) && WorkflowsKept(s, t)
    ensures WorkflowsKept(Taken(s, plugins).0, Taken(t, plugins).0)
    ensures Taken(s, plugins).1 == Taken(t, plugins).1
  {
    TakenMoves(s, plugins);
    TakenMoves(t, plugins);
    if QueueOf(s) != [] {
      ListedKeys(s, QueueOf(s)[0]);
    }
  }

  lemma SameWorkflowStep(s: Sys, t: Sys, e: Event)
    requires Inv(s) && Inv(t) && SameWorkflows(s, t) && Enabled(s, e) && !IsStaging(e)
    ensures Enabled(t, e) && SameWorkflows(Step(s, e), Step(t, e))
  {
    match e
    case Deliver(w, now) =>
      WorkflowKeyNotStaging(w.pluginName, w.id);
      SameAdded(s.store, t.store, w, now);
    case CheckLoad(p) =>
    case TakeNext(p) =>
      SameTaken(s.store, t.store, s.procs[p].plugins);
    case Succeed(p, id) =>
      var w := ExecAt(s, p, id).w;
      WorkflowKeyNotStaging(w.pluginName, w.id);
      SameCompleted(s.store, t.store, WorkflowKey(w));
    case GiveBack(p, id) =>
      var w := ExecAt(s, p, id).w;
      WorkflowKeyNotStaging(w.pluginName, w.id);
      SameRequeued(s.store, t.store, w);
    case RetryComplete(plugin, workflowId) =>
      WorkflowKeyNotStaging(plugin, workflowId);
      SameHands(s, t, KeyOf(plugin, workflowId));
      SameCompleted(s.store, t.store, KeyOf(plugin, workflowId));
    case RetryRequeue(w) =>
      WorkflowKeyNotStaging(w.pluginName, w.id);
      SameHands(s, t, WorkflowKey(w));
      SameRequeued(s.store, t.store, w);
    case _ =>
  }

  lemma SameHands(s: Sys, t: Sys, key: string)
    requires SameWorkflows(s, t) && !IsStagingKey(key)
    ensures StatusOf(s.store, key) == StatusOf(t.store, key)
    ensures forall running :: InHand(s, key, running) <==> InHand(t, key, running)
  {
    assert forall p: nat, id: nat :: Spawned(s, p, id) <==> Spawned(t, p, id);
  }

  /**
   * Whatever plugins do in their staging areas, and however that interleaves, every run treats
   * workflows just as it would with the staging calls left out.
   */
  lemma {:induction false} StagingNeverInterferes(s: Sys, t: Sys, es: seq<Event>)
    requires Inv(s) && Inv(t) && SameWorkflows(s, t) && Legal(s, es)
    ensures Legal(t, WithoutStaging(es))
    ensures SameWorkflows(After(s, es), After(t, WithoutStaging(es)))
    decreases |es|
  {
    if es != [] {
      var e := es[0];
      StepInv(s, e);
      if IsStaging(e) {
        KeySeparation(s, e);
        StagingNeverInterferes(Step(s, e), t, es[1..]);
      } else {
        SameWorkflowStep(s, t, e);
        StepInv(t, e);
        StagingNeverInterferes(Step(s, e), Step(t, e), es[1..]);
      }
    }
  }

  // ---------------------------------------------------------------- bounded attempts

  function SumTimes(procs: seq<Proc>, key: string): (r: nat) {
    if procs == [] then 0 else Times(procs[0].requeued, key) + SumTimes(procs[1..], key)
  }

  lemma {:induction false} SumTimesUpdate(procs: seq<Proc>, p: nat, pr: Proc, key: string)
    requires p < |procs|
    ensures SumTimes(procs[p := pr], key)
         == SumTimes(procs, key) - Times(procs[p].requeued, key) + Times(pr.requeued, key)
  {
    if p == 0 {
      assert procs[p := pr][1..] == procs[1..];
    } else {
      assert procs[p := pr][1..] == procs[1..][p - 1 := pr];
      SumTimesUpdate(procs[1..], p - 1, pr, key);
    }
  }

  lemma {:induction false} SumTimesBound(procs: seq<Proc>, key: string)
    requires forall p | 0 <= p < |procs| :: Times(procs[p].requeued, key) <= MAX_REQUEUES + 1
    ensures SumTimes(procs, key) <= 3 * |procs|
  {
    if procs != [] {
      SumTimesBound(procs[1..], key);
    }
  }

  /** The requeues of a key that the processes have left between them. */
  function RequeuesLeft(s: Sys, key: string): (r: int) { 3 * |s.procs| - SumTimes(s.procs, key) }

  lemma RequeuesLeftBounds(s: Sys, key: string)
    requires Inv(s)
    ensures 0 <= RequeuesLeft(s, key)
  {
    SumTimesBound(s.procs, key);
  }

  predicate IsRequeue(s: Sys, e: Event)
    requires Enabled(s, e)
  {
    (e.GiveBack? && !UsedUp(s.procs[e.p], e.id)) || e.LeaveRequeue?
  }

  /** Only a requeue that is not dropped uses one up, and only of its own key. */
  lemma StepRequeuesLeft(s: Sys, e: Event, key: string)
    requires Enabled(s, e)
    ensures RequeuesLeft(Step(s, e), key)
         == RequeuesLeft(s, key) - if IsRequeue(s, e) && Subject(s, e) == Some(key) then 1 else 0
  {
    match e
    case CheckLoad(p) =>
      SumTimesUpdate(s.procs, p, CheckedLoad(s.store, s.procs[p]), key);
    case TakeNext(p) =>
      SumTimesUpdate(s.procs, p, TookNext(s.store, s.procs[p]).1, key);
    case Succeed(p, id) =>
      SumTimesUpdate(s.procs, p, Succeeded(s.store, s.procs[p], id).1, key);
    case GiveBack(p, id) =>
      CountedOnce(s.procs[p].requeued, KeyAt(s, p, id));
      SumTimesUpdate(s.procs, p, GaveBack(s.store, s.procs[p], id).1, key);
    case Return(p, id) =>
      SumTimesUpdate(s.procs, p, Ended(s.procs[p], id), key);
    case LeaveComplete(p, id) =>
      SumTimesUpdate(s.procs, p, Ended(s.procs[p], id), key);
    case LeaveRequeue(p, id) =>
      CountedOnce(s.procs[p].requeued, KeyAt(s, p, id));
      SumTimesUpdate(s.procs, p, EndedForRequeue(s.procs[p], id), key);
    case _ =>
  }

  /**
   * What counts for and against the handouts of a key: a take hands it out, a requeue left in a
   * backlog defers one, and a retried requeue that finds the key outside the queue adds one.
   */
  datatype Mark = HandOut | Deferral | Revival

  predicate Marked(s: Sys, e: Event, key: string, m: Mark)
    requires Enabled(s, e)
  {
    && Subject(s, e) == Some(key)
    && match m
       case HandOut => e.TakeNext?
       case Deferral => e.LeaveRequeue?
       case Revival => e.RetryRequeue? && StatusOf(s.store, key) != Queued
  }

  function Marks(s: Sys, es: seq<Event>, key: string, m: Mark): (n: nat)
    requires Legal(s, es)
    decreases |es|
  {
    if es == [] then 0
    else (if Marked(s, es[0], key, m) then 1 else 0) + Marks(Step(s, es[0]), es[1..], key, m)
  }

  /** The handouts a key still has coming: one while queued or unknown, one for each requeue left. */
  function HandoutsLeft(s: Sys, key: string): (r: int) {
    RequeuesLeft(s, key) + if StatusOf(s.store, key) in {Unknown, Queued} then 1 else 0
  }

  lemma StepHandouts(s: Sys, e: Event, key: string)
    requires Inv(s) && Enabled(s, e)
    ensures HandoutsLeft(Step(s, e), key)
         == HandoutsLeft(s, key)
            - (if Marked(s, e, key, HandOut) then 1 else 0)
            - (if Marked(s, e, key, Deferral) then 1 else 0)
            + (if Marked(s, e, key, Revival) then 1 else 0)
  {
    StepMoves(s, e);
    StepRequeuesLeft(s, e, key);
    if e.TakeNext? && Subject(s, e) == Some(key) {
      ListedKeys(s.store, key);
    }
  }

  lemma {:induction false} RunHandouts(s: Sys, es: seq<Event>, key: string)
    requires Inv(s) && Legal(s, es)
    ensures Marks(s, es, key, HandOut) + Marks(s, es, key, Deferral) - Marks(s, es, key, Revival)
         == HandoutsLeft(s, key) - HandoutsLeft(After(s, es), key)
    decreases |es|
  {
    if es != [] {
      StepInv(s, es[0]);
      StepHandouts(s, es[0], key);
      RunHandouts(Step(s, es[0]), es[1..], key);
    }
  }

  /** Whether an event retries an operation on the key from a backlog. */
  predicate Retries(e: Event, key: string) {
    (e.RetryComplete? && KeyOf(e.plugin, e.workflowId) == key) || (e.RetryRequeue? && WorkflowKey(e.w) == key)
  }

  predicate Retried(es: seq<Event>, key: string) { exists e | e in es :: Retries(e, key) }

  lemma RetriedTail(es: seq<Event>, key: string)
    requires es != []
    ensures Retried(es, key) <==> Retries(es[0], key) || Retried(es[1..], key)
  {
    assert es == [es[0]] + es[1..];
  }

  lemma {:induction false} NoRevivals(s: Sys, es: seq<Event>, key: string)
    requires Legal(s, es) && !Retried(es, key)
    ensures Marks(s, es, key, Revival) == 0
    decreases |es|
  {
    if es != [] {
      RetriedTail(es, key);
      NoRevivals(Step(s, es[0]), es[1..], key);
    }
  }

  lemma {:induction false} NoTimesYet(procs: seq<Proc>, key: string)
    requires forall p | 0 <= p < |procs| :: procs[p].requeued == map[]
    ensures SumTimes(procs, key) == 0
  {
    if procs != [] {
      NoTimesYet(procs[1..], key);
    }
  }

  /**
   * However long the run, N executor processes hand out a key at most 1 + 3N times, and once more
   * for each late requeue that found the key outside the queue; requeues left in a backlog have
   * used up a handout before they are retried.
   */
  lemma AttemptsBounded(s: Sys, es: seq<Event>, key: string)
    requires Initial(s) && Legal(s, es)
    ensures Marks(s, es, key, HandOut) + Marks(s, es, key, Deferral) <= 1 + 3 * |s.procs| + Marks(s, es, key, Revival)
    ensures !Retried(es, key) ==> Marks(s, es, key, HandOut) <= 1 + 3 * |s.procs|
  {
    InitialInv(s);
    NoTimesYet(s.procs, key);
    RunHandouts(s, es, key);
    RunInv(s, es);
    RequeuesLeftBounds(After(s, es), key);
    if !Retried(es, key) {
      NoRevivals(s, es, key);
    }
  }

  // ---------------------------------------------------------------- attempts that are made

  /** Only this key is about: it is queued with its record, and every process can run it. */
  ghost predicate Alone(s: Sys, w: Workflow) {
    && Inv(s) && |s.procs| > 0
    && QueueOf(s.store) == [WorkflowKey(w)] && ActiveOf(s.store) == []
    && s.store.kv[WorkflowKey(w)] == WorkflowJson(w)
    && forall p | 0 <= p < |s.procs| :: w.pluginName in s.procs[p].plugins
  }

  /** No retries, and nothing left in a backlog. */
  predicate Plain(es: seq<Event>) { forall e | e in es :: !e.LeaveRequeue? && !e.RetryRequeue? }

  lemma {:induction false} PlainMarks(s: Sys, es: seq<Event>, key: string)
    requires Legal(s, es) && Plain(es)
    ensures Marks(s, es, key, Deferral) == 0 && Marks(s, es, key, Revival) == 0
    decreases |es|
  {
    if es != [] {
      assert es[0] in es && forall e | e in es[1..] :: e in es;
      PlainMarks(Step(s, es[0]), es[1..], key);
    }
  }

  lemma AloneTaken(s: Sys, w: Workflow, p: nat) returns (es: seq<Event>)
    requires Alone(s, w) && p < |s.procs|
    ensures es == [CheckLoad(p), TakeNext(p)] && Legal(s, es)
    ensures var u, id := After(s, es), s.procs[p].spawned;
            && Inv(u) && |u.procs| == |s.procs|
            && (forall q | 0 <= q < |s.procs| :: u.procs[q].plugins == s.procs[q].plugins)
            && Spawned(u, p, id) && ExecAt(u, p, id) == Running(w)
            && QueueOf(u.store) == [] && ActiveOf(u.store) == [WorkflowKey(w)]
            && u.store.kv == s.store.kv
            && RequeuesLeft(u, WorkflowKey(w)) == RequeuesLeft(s, WorkflowKey(w))
            && u.procs[p].requeued == s.procs[p].requeued
  {
    var check, take := CheckLoad(p), TakeNext(p);
    es := [check, take];
    var v := Step(s, check);
    StepInv(s, check);
    StepRequeuesLeft(s, check, WorkflowKey(w));
    StepInv(v, take);
    StepRequeuesLeft(v, take, WorkflowKey(w));
    AloneTakeStep(v, w, p);
    TwoSteps(s, check, take);
  }

  lemma AloneTakeStep(s: Sys, w: Workflow, p: nat)
    requires Alone(s, w) && p < |s.procs| && s.procs[p].checked
    ensures var u, id := Step(s, TakeNext(p)), s.procs[p].spawned;
            && (forall q | 0 <= q < |s.procs| :: u.procs[q].plugins == s.procs[q].plugins)
            && Spawned(u, p, id) && ExecAt(u, p, id) == Running(w)
            && QueueOf(u.store) == [] && ActiveOf(u.store) == [WorkflowKey(w)]
            && u.store.kv == s.store.kv && u.procs[p].requeued == s.procs[p].requeued
  {
    TakenMoves(s.store, s.procs[p].plugins);
    TakeSpawns(s.store, s.procs[p]);
    assert ActiveOf(Step(s, TakeNext(p)).store) == [] + [WorkflowKey(w)];
  }

  lemma TwoSteps(s: Sys, first: Event, second: Event)
    requires Enabled(s, first) && Enabled(Step(s, first), second)
    ensures Legal(s, [first, second]) && After(s, [first, second]) == Step(Step(s, first), second)
  {
    var u := Step(Step(s, first), second);
    assert Legal(u, []) && After(u, []) == u;
    assert [first, second][1..] == [second] && [second][1..] == [];
    assert Legal(Step(s, first), [second]) && After(Step(s, first), [second]) == u;
  }

  /** One failed attempt: taken and given back, with one requeue fewer left. */
  lemma AloneRound(s: Sys, w: Workflow, p: nat) returns (es: seq<Event>)
    requires Alone(s, w) && p < |s.procs| && Times(s.procs[p].requeued, WorkflowKey(w)) < 3
    ensures Legal(s, es) && Plain(es) && Alone(After(s, es), w)
    ensures RequeuesLeft(After(s, es), WorkflowKey(w)) == RequeuesLeft(s, WorkflowKey(w)) - 1
  {
    var key := WorkflowKey(w);
    var taking := AloneTaken(s, w, p);
    var u, back := After(s, taking), GiveBack(p, s.procs[p].spawned);
    StepInv(u, back);
    StepRequeuesLeft(u, back, key);
    RequeuedContents(u.store.lists, key);
    ListedKeys(u.store, key);
    LegalThen(s, taking, back);
    es := taking + [back];
    assert Reverse(Without([key], key)) == [];
  }

  lemma {:induction false} SomeoneCanRequeue(procs: seq<Proc>, key: string) returns (p: nat)
    requires SumTimes(procs, key) < 3 * |procs|
    ensures p < |procs| && Times(procs[p].requeued, key) < 3
  {
    if Times(procs[0].requeued, key) < 3 {
      p := 0;
    } else {
      var q := SomeoneCanRequeue(procs[1..], key);
      p := q + 1;
    }
  }

  lemma {:induction false} Exhaust(s: Sys, w: Workflow) returns (es: seq<Event>)
    requires Alone(s, w)
    ensures Legal(s, es) && Plain(es) && HandoutsLeft(After(s, es), WorkflowKey(w)) == 0
    decreases RequeuesLeft(s, WorkflowKey(w))
  {
    var key := WorkflowKey(w);
    RequeuesLeftBounds(s, key);
    if RequeuesLeft(s, key) == 0 {
      es := AloneTaken(s, w, 0);
      ListedKeys(After(s, es).store, key);
    } else {
      var p := SomeoneCanRequeue(s.procs, key);
      var round := AloneRound(s, w, p);
      var rest := Exhaust(After(s, round), w);
      LegalConcat(s, round, rest);
      es := round + rest;
    }
  }

  /**
   * The bound on attempts is reached: for every workflow and any N processes that have its plugin,
   * some run hands it out exactly 1 + 3N times.
   */
  lemma AttemptsReached(s: Sys, w: Workflow, now: int) returns (es: seq<Event>)
    requires Initial(s) && |s.procs| > 0 && GoodPluginName(w.pluginName)
    requires forall p | 0 <= p < |s.procs| :: w.pluginName in s.procs[p].plugins
    ensures Legal(s, es) && Plain(es) && Marks(s, es, WorkflowKey(w), HandOut) == 1 + 3 * |s.procs|
  {
    var key, deliver := WorkflowKey(w), Deliver(w, now);
    InitialInv(s);
    StepInv(s, deliver);
    var u := Step(s, deliver);
    assert QueueOf(u.store) == [key] + [];
    var rest := Exhaust(u, w.(scheduledAt := Some(now)));
    es := [deliver] + rest;
    assert es[1..] == rest;
    NoTimesYet(s.procs, key);
    RunHandouts(s, es, key);
    PlainMarks(s, es, key);
  }

  // ---------------------------------------------------------------- termination

  /** How far a key is from the end of its current attempt. */
  ghost function Phase(s: Sys, key: string): (r: nat) {
    match StatusOf(s.store, key)
    case Unknown => 4
    case Queued => 3
    case Active => if InHand(s, key, true) then 2 else 0
    case Complete => if InHand(s, key, false) then 1 else 0
  }

  ghost function Rank(s: Sys, key: string): (r: int) { 4 * RequeuesLeft(s, key) + Phase(s, key) }

  /** The events that bring a key forward: all but checks, empty takes, redeliveries, retries and staging. */
  predicate Progress(s: Sys, e: Event)
    requires Enabled(s, e)
  {
    match e
    case Deliver(w, now) => StatusOf(s.store, WorkflowKey(w)) == Unknown
    case TakeNext(p) => QueueOf(s.store) != []
    case Succeed(p, id) => true
    case GiveBack(p, id) => true
    case Return(p, id) => true
    case LeaveComplete(p, id) => true
    case LeaveRequeue(p, id) => true
    case _ => false
  }

  /** An event leaves the executions of every other key as they are. */
  lemma OtherHands(s: Sys, e: Event, key: string, running: bool)
    requires Inv(s) && Enabled(s, e)
    requires Subject(s, e) == Some(key) ==> !Progress(s, e)
    ensures InHand(Step(s, e), key, running) <==> InHand(s, key, running)
  {
    var u := Step(s, e);
    if e.TakeNext? {
      TakenMoves(s.store, s.procs[e.p].plugins);
    }
    forall q: nat, jd: nat
      ensures Spawned(s, q, jd) && KeyAt(s, q, jd) == key ==>
                Spawned(u, q, jd) && ExecAt(u, q, jd) == ExecAt(s, q, jd)
      ensures Spawned(u, q, jd) && KeyAt(u, q, jd) == key ==>
                Spawned(s, q, jd) && ExecAt(u, q, jd) == ExecAt(s, q, jd)
    {
    }
  }

  /** After an execution ends, its key is no longer in hand. */
  lemma EndedHands(s: Sys, p: nat, id: nat, u: Sys)
    requires Inv(s) && Spawned(s, p, id) && |u.procs| == |s.procs|
    requires u.procs[p].executions == s.procs[p].executions - {id}
    requires forall q: nat | q < |s.procs| && q != p :: u.procs[q] == s.procs[q]
    ensures !InHand(u, KeyAt(s, p, id), true) && !InHand(u, KeyAt(s, p, id), false)
  {
    forall q: nat, jd: nat | Spawned(u, q, jd) ensures KeyAt(u, q, jd) != KeyAt(s, p, id) {
      assert Spawned(s, q, jd) && KeyAt(u, q, jd) == KeyAt(s, q, jd) && (q, jd) != (p, id);
    }
  }

  lemma ProgressRank(s: Sys, e: Event, key: string)
    requires Inv(s) && Enabled(s, e) && Subject(s, e) == Some(key) && Progress(s, e)
    ensures Rank(Step(s, e), key) < Rank(s, key)
  {
    StepMoves(s, e);
    StepRequeuesLeft(s, e, key);
    match e
    case Deliver(w, now) =>
    case TakeNext(p) =>
      ListedKeys(s.store, key);
    case Succeed(p, id) =>
      assert InHand(s, key, true);
    case GiveBack(p, id) =>
      EndingLowersPhase(s, e, p, id);
    case Return(p, id) =>
      EndingLowersPhase(s, e, p, id);
    case LeaveComplete(p, id) =>
      EndingLowersPhase(s, e, p, id);
    case LeaveRequeue(p, id) =>
      EndingLowersPhase(s, e, p, id);
  }

  /** When an execution ends, its key is done with this attempt: finished with, or back in the queue. */
  lemma EndingLowersPhase(s: Sys, e: Event, p: nat, id: nat)
    requires Inv(s) && Enabled(s, e) && Spawned(s, p, id) && Subject(s, e) == Some(KeyAt(s, p, id))
    requires e == GiveBack(p, id) || e == Return(p, id) || e == LeaveComplete(p, id) || e == LeaveRequeue(p, id)
    ensures var key, u := KeyAt(s, p, id), Step(s, e);
            Phase(s, key) >= 1 && Phase(u, key) == if StatusOf(u.store, key) == Queued then 3 else 0
  {
    var key := KeyAt(s, p, id);
    StepMoves(s, e);
    EndedHands(s, p, id, Step(s, e));
    assert InHand(s, key, ExecAt(s, p, id).Running?);
  }

  lemma OtherRank(s: Sys, e: Event, key: string)
    requires Inv(s) && Enabled(s, e) && (Subject(s, e) == Some(key) ==> !Progress(s, e) && !e.RetryRequeue?)
    ensures Rank(Step(s, e), key) == Rank(s, key)
  {
    StepMoves(s, e);
    StepRequeuesLeft(s, e, key);
    OtherHands(s, e, key, true);
    OtherHands(s, e, key, false);
  }

  /** Progress lowers the rank of its key, a retried requeue raises it by at most 3, nothing else changes any rank. */
  lemma StepRank(s: Sys, e: Event, key: string)
    requires Inv(s) && Enabled(s, e)
    ensures if Subject(s, e) == Some(key) && Progress(s, e) then Rank(Step(s, e), key) < Rank(s, key)
            else if Subject(s, e) == Some(key) && e.RetryRequeue? then Rank(Step(s, e), key) <= Rank(s, key) + 3
            else Rank(Step(s, e), key) == Rank(s, key)
  {
    if Subject(s, e) == Some(key) && Progress(s, e) {
      ProgressRank(s, e, key);
    } else if Subject(s, e) == Some(key) && e.RetryRequeue? {
      StepMoves(s, e);
      StepRequeuesLeft(s, e, key);
    } else {
      OtherRank(s, e, key);
    }
  }

  ghost function TotalRank(s: Sys, keys: seq<string>): (r: int) {
    if keys == [] then 0 else Rank(s, keys[0]) + TotalRank(s, keys[1..])
  }

  lemma {:induction false} StepTotalRank(s: Sys, e: Event, keys: seq<string>)
    requires Inv(s) && Enabled(s, e) && Distinct(keys)
    ensures TotalRank(Step(s, e), keys)
         <= TotalRank(s, keys) + if e.RetryRequeue? && Subject(s, e).value in keys then 3 else 0
    ensures Progress(s, e) && Subject(s, e).value in keys ==> TotalRank(Step(s, e), keys) < TotalRank(s, keys)
  {
    if keys != [] {
      DistinctTail(keys);
      StepRank(s, e, keys[0]);
      StepTotalRank(s, e, keys[1..]);
      assert keys == [keys[0]] + keys[1..];
    }
  }

  lemma {:induction false} TotalRankBounds(s: Sys, keys: seq<string>)
    requires Inv(s)
    ensures 0 <= TotalRank(s, keys)
    ensures Initial(s) ==> TotalRank(s, keys) == |keys| * (12 * |s.procs| + 4)
  {
    if keys != [] {
      RequeuesLeftBounds(s, keys[0]);
      if Initial(s) {
        NoTimesYet(s.procs, keys[0]);
      }
      TotalRankBounds(s, keys[1..]);
    }
  }

  function ProgressCount(s: Sys, es: seq<Event>): (n: nat)
    requires Legal(s, es)
    decreases |es|
  {
    if es == [] then 0
    else (if Progress(s, es[0]) then 1 else 0) + ProgressCount(Step(s, es[0]), es[1..])
  }

  function LateRequeues(es: seq<Event>): (n: nat) {
    if es == [] then 0 else (if es[0].RetryRequeue? then 1 else 0) + LateRequeues(es[1..])
  }

  /** `keys` lists every key that has a record or is still to be delivered. */
  ghost predicate Covers(s: Sys, es: seq<Event>, keys: seq<string>) {
    forall k | StatusOf(s.store, k) != Unknown || Delivered(es, k) :: k in keys
  }

  lemma {:induction false} RunProgress(s: Sys, es: seq<Event>, keys: seq<string>)
    requires Inv(s) && Legal(s, es) && Covers(s, es, keys) && Distinct(keys)
    ensures ProgressCount(s, es) <= TotalRank(s, keys) - TotalRank(After(s, es), keys) + 3 * LateRequeues(es)
    decreases |es|
  {
    if es != [] {
      var u, rest := Step(s, es[0]), es[1..];
      StepInv(s, es[0]);
      StepTotalRank(s, es[0], keys);
      if Progress(s, es[0]) {
        var key := Subject(s, es[0]).value;
        DeliveredTail(es, key);
        if !es[0].Deliver? {
          SubjectsAreKnown(s, es[0]);
        }
      }
      forall k | StatusOf(u.store, k) != Unknown || Delivered(rest, k) ensures k in keys {
        DeliveredTail(es, k);
        KnownIffDelivered(s, [es[0]], k);
        DeliveredTail([es[0]], k);
        assert After(u, []) == u && Legal(u, []);
      }
      RunProgress(u, rest, keys);
    }
  }

  /**
   * Every run in which only `keys` are delivered makes at most 12N + 4 steps of progress for each
   * of them, and 3 for each late requeue: after finitely many of these every run falls quiet.
   */
  lemma RunsFallQuiet(s: Sys, es: seq<Event>, keys: seq<string>)
    requires Initial(s) && Legal(s, es)
    requires forall k | Delivered(es, k) :: k in keys
    ensures ProgressCount(s, es) <= |keys| * (12 * |s.procs| + 4) + 3 * LateRequeues(es)
  {
    var once := Deduped(keys);
    DedupedDistinct(keys);
    RunProgressOnce(s, es, once);
    Amounts.MulMonotone(|once|, |keys|, 12 * |s.procs| + 4);
  }

  lemma RunProgressOnce(s: Sys, es: seq<Event>, keys: seq<string>)
    requires Initial(s) && Legal(s, es) && Distinct(keys)
    requires forall k | Delivered(es, k) :: k in keys
    ensures ProgressCount(s, es) <= |keys| * (12 * |s.procs| + 4) + 3 * LateRequeues(es)
  {
    InitialInv(s);
    RunInv(s, es);
    TotalRankBounds(s, keys);
    TotalRankBounds(After(s, es), keys);
    RunProgress(s, es, keys);
  }

  // ---------------------------------------------------------------- load

  function CheckedCount(procs: seq<Proc>): (n: nat)
    ensures n <= |procs|
  {
    if procs == [] then 0 else (if procs[0].checked then 1 else 0) + CheckedCount(procs[1..])
  }

  lemma {:induction false} CheckedUpdate(procs: seq<Proc>, p: nat, pr: Proc)
    requires p < |procs|
    ensures CheckedCount(procs[p := pr])
         == CheckedCount(procs) - (if procs[p].checked then 1 else 0) + (if pr.checked then 1 else 0)
  {
    if p == 0 {
      assert procs[p := pr][1..] == procs[1..];
    } else {
      assert procs[p := pr][1..] == procs[1..][p - 1 := pr];
      CheckedUpdate(procs[1..], p - 1, pr);
    }
  }

  /** The active list, counting the takes that processes have already checked for. */
  predicate LoadInv(s: Sys) {
    |ActiveOf(s.store)| + CheckedCount(s.procs) <= MAX_ACTIVE_WORKFLOWS - 1 + |s.procs|
  }

  /** Only a check that passes raises the count, and a take ends it. */
  lemma StepChecked(s: Sys, e: Event)
    requires Enabled(s, e)
    ensures CheckedCount(Step(s, e).procs)
         == CheckedCount(s.procs)
            + (if e.CheckLoad? then (if CheckedLoad(s.store, s.procs[e.p]).checked then 1 else 0)
                                    - (if s.procs[e.p].checked then 1 else 0)
               else 0)
            - (if e.TakeNext? then 1 else 0)
  {
    match e
    case CheckLoad(p) => CheckedUpdate(s.procs, p, CheckedLoad(s.store, s.procs[p]));
    case TakeNext(p) => CheckedUpdate(s.procs, p, TookNext(s.store, s.procs[p]).1);
    case Succeed(p, id) => CheckedUpdate(s.procs, p, Succeeded(s.store, s.procs[p], id).1);
    case GiveBack(p, id) => CheckedUpdate(s.procs, p, GaveBack(s.store, s.procs[p], id).1);
    case Return(p, id) => CheckedUpdate(s.procs, p, Ended(s.procs[p], id));
    case LeaveComplete(p, id) => CheckedUpdate(s.procs, p, Ended(s.procs[p], id));
    case LeaveRequeue(p, id) => CheckedUpdate(s.procs, p, EndedForRequeue(s.procs[p], id));
    case _ =>
  }

  lemma StepLoad(s: Sys, e: Event)
    requires Inv(s) && LoadInv(s) && Enabled(s, e)
    ensures LoadInv(Step(s, e))
  {
    StepChecked(s, e);
    match e
    case Deliver(w, now) =>
      AddedMoves(s.store, w, now);
    case WatchStaging(plugin, keys) =>
      BegunKeepsWorkflows(s.store, plugin, keys);
    case WriteStaging(plugin, entries) =>
      CommittedKeepsWorkflows(s.store, plugin, entries);
    case CheckLoad(p) =>
    case TakeNext(p) =>
      TakenMoves(s.store, s.procs[p].plugins);
    case Succeed(p, id) =>
      CompletedMoves(s.store, KeyAt(s, p, id));
    case GiveBack(p, id) =>
      if !UsedUp(s.procs[p], id) {
        RequeuedMoves(s.store, ExecAt(s, p, id).w);
      }
    case RetryComplete(plugin, workflowId) =>
      CompletedMoves(s.store, KeyOf(plugin, workflowId));
    case RetryRequeue(w) =>
      RequeuedMoves(s.store, w);
    case _ =>
  }

  lemma {:induction false} RunLoad(s: Sys, es: seq<Event>)
    requires Inv(s) && LoadInv(s) && Legal(s, es)
    ensures LoadInv(After(s, es))
    decreases |es|
  {
    if es != [] {
      StepInv(s, es[0]);
      StepLoad(s, es[0]);
      RunLoad(Step(s, es[0]), es[1..]);
    }
  }

  lemma {:induction false} NoneChecked(procs: seq<Proc>)
    requires forall p | 0 <= p < |procs| :: !procs[p].checked
    ensures CheckedCount(procs) == 0
  {
    if procs != [] {
      NoneChecked(procs[1..]);
    }
  }

  /** With N executors the active list never exceeds 9 + N keys. */
  lemma LoadBounded(s: Sys, es: seq<Event>)
    requires Initial(s) && Legal(s, es)
    ensures |ActiveOf(After(s, es).store)| <= 9 + |s.procs|
  {
    InitialInv(s);
    NoneChecked(s.procs);
    RunLoad(s, es);
    RunInv(s, es);
  }

  // ---------------------------------------------------------------- keys left behind

  /** Active, but not in its handler: nobody will complete it or give it back. */
  ghost predicate LeftBehind(s: Sys, key: string) {
    StatusOf(s.store, key) == Active && !InHand(s, key, true)
  }

  /** The key is handed to a process that does not have its plugin. */
  predicate TakenUnclaimed(s: Sys, e: Event, key: string)
    requires Enabled(s, e)
  {
    && e.TakeNext? && Subject(s, e) == Some(key)
    && key in s.store.kv && s.store.kv[key].WorkflowJson?
    && s.store.kv[key].workflow.pluginName !in s.procs[e.p].plugins
  }

  /** An execution of the key ends in its handler without the store being told. */
  predicate EndsUntold(s: Sys, e: Event, key: string)
    requires Enabled(s, e)
  {
    && Subject(s, e) == Some(key)
    && match e
       case GiveBack(p, id) => ExecAt(s, p, id).Running? && UsedUp(s.procs[p], id)
       case LeaveComplete(p, id) => true
       case LeaveRequeue(p, id) => ExecAt(s, p, id).Running?
       case _ => false
  }

  lemma HowTakesLeaveBehind(s: Sys, p: nat)
    requires Inv(s) && Enabled(s, TakeNext(p)) && QueueOf(s.store) != []
    ensures var key := QueueOf(s.store)[0];
            LeftBehind(Step(s, TakeNext(p)), key) <==> TakenUnclaimed(s, TakeNext(p), key)
  {
    var key, u := QueueOf(s.store)[0], Step(s, TakeNext(p));
    TakenMoves(s.store, s.procs[p].plugins);
    ListedKeys(s.store, key);
    if s.store.kv[key].workflow.pluginName in s.procs[p].plugins {
      assert Spawned(u, p, s.procs[p].spawned) && KeyAt(u, p, s.procs[p].spawned) == key;
    } else {
      assert forall q: nat, jd: nat :: Spawned(u, q, jd) ==> Spawned(s, q, jd) && KeyAt(u, q, jd) == KeyAt(s, q, jd);
    }
  }

  /**
   * The ways to be left behind are exactly these: a take by a process without the plugin, and an
   * execution that is dropped, or whose completion or requeue does not reach the store.
   */
  lemma HowKeysAreLeftBehind(s: Sys, e: Event, key: string)
    requires Inv(s) && Enabled(s, e) && !LeftBehind(s, key)
    ensures LeftBehind(Step(s, e), key) <==> TakenUnclaimed(s, e, key) || EndsUntold(s, e, key)
  {
    StepMoves(s, e);
    if Subject(s, e) != Some(key) || !Progress(s, e) {
      OtherHands(s, e, key, true);
    } else {
      match e {
        case TakeNext(p) => HowTakesLeaveBehind(s, p);
        case GiveBack(p, id) => EndedHands(s, p, id, Step(s, e));
        case LeaveComplete(p, id) => EndedHands(s, p, id, Step(s, e));
        case LeaveRequeue(p, id) => EndedHands(s, p, id, Step(s, e));
        case _ =>
      }
    }
  }

  /** And the only way back is a retry: not redelivery, nor anything an executor does. */
  lemma LeftBehindUntilRetried(s: Sys, e: Event, key: string)
    requires Inv(s) && Enabled(s, e) && LeftBehind(s, key)
    ensures LeftBehind(Step(s, e), key) <==> !Retries(e, key)
  {
    StepMoves(s, e);
    if !Retries(e, key) {
      assert Subject(s, e) == Some(key) ==> !Progress(s, e) by {
        if e.TakeNext? && Subject(s, e) == Some(key) {
          ListedKeys(s.store, key);
        }
      }
      OtherHands(s, e, key, true);
    }
  }

  lemma {:induction false} LeftBehindForever(s: Sys, es: seq<Event>, key: string)
    requires Inv(s) && Legal(s, es) && LeftBehind(s, key)
    ensures LeftBehind(After(s, es), key) || Retried(es, key)
    decreases |es|
  {
    if es != [] {
      LeftBehindUntilRetried(s, es[0], key);
      StepInv(s, es[0]);
      RetriedTail(es, key);
      if !Retries(es[0], key) {
        LeftBehindForever(Step(s, es[0]), es[1..], key);
      }
    }
  }

  // ---------------------------------------------------------------- when executors stall

  lemma {:induction false} SetWithinList(keys: set<string>, list: seq<string>)
    requires forall k | k in keys :: k in list
    ensures |keys| <= |list|
    decreases |list|
  {
    if list == [] {
      assert keys == {};
    } else {
      SetWithinList(keys - {list[0]}, list[1..]);
      assert |keys| <= |keys - {list[0]}| + 1 by {
        assert keys <= keys - {list[0]} + {list[0]};
        if list[0] in keys {
          assert keys == keys - {list[0]} + {list[0]};
        } else {
          assert keys == keys - {list[0]};
        }
      }
    }
  }

  lemma {:induction false} ListWithinSet(list: seq<string>, keys: set<string>)
    requires Distinct(list) && forall k | k in list :: k in keys
    ensures |list| <= |keys|
    decreases |list|
  {
    if list != [] {
      DistinctTail(list);
      assert forall k | k in list[1..] :: k in list;
      ListWithinSet(list[1..], keys - {list[0]});
    }
  }

  ghost function KeysLeftBehind(s: Sys): (r: set<string>) {
    set k | k in ActiveOf(s.store) && LeftBehind(s, k)
  }

  function Takes(es: seq<Event>): (n: nat) {
    if es == [] then 0 else (if es[0].TakeNext? then 1 else 0) + Takes(es[1..])
  }

  /**
   * Ten keys left behind stop every executor until one of them is retried: no load check passes
   * again, so at most the takes already checked for still happen.
   */
  lemma {:induction false} TenLeftBehindStall(s: Sys, es: seq<Event>, keys: set<string>)
    requires Inv(s) && Legal(s, es)
    requires |keys| >= 10 && forall k | k in keys :: LeftBehind(s, k) && !Retried(es, k)
    ensures Takes(es) <= CheckedCount(s.procs) - CheckedCount(After(s, es).procs)
    decreases |es|
  {
    if es != [] {
      var e := es[0];
      StepInv(s, e);
      StepChecked(s, e);
      SetWithinList(keys, ActiveOf(s.store));
      forall k | k in keys ensures LeftBehind(Step(s, e), k) && !Retried(es[1..], k) {
        RetriedTail(es, k);
        LeftBehindUntilRetried(s, e, k);
      }
      TenLeftBehindStall(Step(s, e), es[1..], keys);
    }
  }

  /** Completing an execution shortens the active list, and leaves the queue and the keys left behind alone. */
  lemma SucceedFrees(s: Sys, p: nat, id: nat)
    requires Inv(s) && Enabled(s, Succeed(p, id))
    ensures var u := Step(s, Succeed(p, id));
            && |ActiveOf(u.store)| < |ActiveOf(s.store)|
            && QueueOf(u.store) == QueueOf(s.store)
            && KeysLeftBehind(u) == KeysLeftBehind(s)
  {
    var e, key := Succeed(p, id), KeyAt(s, p, id);
    var u := Step(s, e);
    CompletedShortens(s.store, key);
    assert InHand(s, key, true);
    StepMoves(s, e);
    forall k ensures k in KeysLeftBehind(u) <==> k in KeysLeftBehind(s) {
      if LeftBehind(s, k) {
        LeftBehindUntilRetried(s, e, k);
      } else {
        HowKeysAreLeftBehind(s, e, k);
      }
      ActiveIsListed(s, k);
      ActiveIsListed(u, k);
    }
  }

  lemma CompletedShortens(s: Store, key: string)
    requires StoreInv(s) && StatusOf(s, key) == Active
    ensures var t := Completed(s, key).store;
            |ActiveOf(t)| < |ActiveOf(s)| && QueueOf(t) == QueueOf(s)
  {
    var t := Completed(s, key).store;
    ListedKeys(s, key);
    RemovedContents(s.lists, ACTIVE_WORKFLOWS_QUEUE, key);
    RemovedMembers(ActiveOf(s), key);
    assert ActiveOf(t) == Reverse(Without(ActiveOf(s), key));
    assert |multiset(ActiveOf(t))| < |multiset(ActiveOf(s))|;
  }

  lemma ActiveIsListed(s: Sys, key: string)
    ensures StatusOf(s.store, key) == Active ==> key in ActiveOf(s.store)
  {
  }

  /**
   * With fewer than ten left behind, any process can go on: complete what is in the handlers, as
   * far as needed, then check and take.
   */
  lemma {:induction false} CanGoOn(s: Sys, p: nat) returns (es: seq<Event>)
    requires Inv(s) && p < |s.procs| && |KeysLeftBehind(s)| < 10
    ensures Legal(s, es) && forall e | e in es :: e.Succeed? || e.CheckLoad?
    ensures Enabled(After(s, es), TakeNext(p)) && QueueOf(After(s, es).store) == QueueOf(s.store)
    decreases |ActiveOf(s.store)|
  {
    if |ActiveOf(s.store)| < 10 {
      es := [CheckLoad(p)];
      var u := Step(s, CheckLoad(p));
      assert Legal(u, []) && After(u, []) == u && es[1..] == [];
    } else {
      var q, id := SomeoneRunning(s);
      var e := Succeed(q, id);
      StepInv(s, e);
      SucceedFrees(s, q, id);
      var rest := CanGoOn(Step(s, e), p);
      es := [e] + rest;
      assert es[1..] == rest;
    }
  }

  lemma SomeoneRunning(s: Sys) returns (p: nat, id: nat)
    requires Inv(s) && |KeysLeftBehind(s)| < |ActiveOf(s.store)|
    ensures Spawned(s, p, id) && ExecAt(s, p, id).Running?
  {
    if forall k | k in ActiveOf(s.store) :: LeftBehind(s, k) {
      ListWithinSet(ActiveOf(s.store), KeysLeftBehind(s));
    }
    var k :| k in ActiveOf(s.store) && !LeftBehind(s, k);
    ListedKeys(s.store, k);
    assert InHand(s, k, true);
    p, id :| Spawned(s, p, id) && KeyAt(s, p, id) == k && ExecAt(s, p, id).Running?;
  }

  predicate NothingRetried(es: seq<Event>) { forall e | e in es :: !e.RetryComplete? && !e.RetryRequeue? }

  lemma {:induction false} LegalThen(s: Sys, es: seq<Event>, e: Event)
    requires Legal(s, es) && Enabled(After(s, es), e)
    ensures Legal(s, es + [e]) && After(s, es + [e]) == Step(After(s, es), e)
    decreases |es|
  {
    if es == [] {
      assert (es + [e])[1..] == [];
      assert Legal(Step(s, e), []);
    } else {
      LegalThen(Step(s, es[0]), es[1..], e);
      assert (es + [e])[1..] == es[1..] + [e];
    }
  }

  lemma {:induction false} TakesThen(es: seq<Event>, e: Event)
    ensures Takes(es + [e]) == Takes(es) + if e.TakeNext? then 1 else 0
  {
    if es == [] {
      assert (es + [e])[1..] == [];
    } else {
      TakesThen(es[1..], e);
      assert (es + [e])[1..] == es[1..] + [e];
    }
  }

  /**
   * Between takes, the executors have stalled, for every run until something is retried, exactly
   * when ten or more keys are left behind.
   */
  lemma StallsIff(s: Sys)
    requires Inv(s) && CheckedCount(s.procs) == 0 && |s.procs| > 0
    ensures (forall es | Legal(s, es) && NothingRetried(es) :: Takes(es) == 0)
        <==> |KeysLeftBehind(s)| >= 10
  {
    if |KeysLeftBehind(s)| >= 10 {
      forall es | Legal(s, es) && NothingRetried(es) ensures Takes(es) == 0 {
        TenLeftBehindStall(s, es, KeysLeftBehind(s));
      }
    } else {
      var es := CanGoOn(s, 0);
      LegalThen(s, es, TakeNext(0));
      TakesThen(es, TakeNext(0));
      assert NothingRetried(es + [TakeNext(0)]);
    }
  }
}
