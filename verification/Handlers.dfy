/**
 * What handlers are given (lib/relayer-engine/src/executor/executorHarness.ts, function
 * spawnWorkflow): over every run, a plugin's handler runs on a workflow that was delivered, whole
 * and unchanged, and that is what the store holds for it.
 */
module Handlers {
  import opened Lists
  import opened InMemoryStore
  import opened WorkflowStorage
  import opened StagingArea
  import opened Relayer
  import opened RelayerRuns
  import opened Backlog
  import opened RetryingStorage
  import opened Fleet

  /** Every workflow recorded or spawned is `good`, and a handler runs on the record of its key. */
  ghost predicate Carries(s: Sys, good: Workflow -> bool) {
    && (forall k | k in s.store.kv && s.store.kv[k].WorkflowJson? :: good(s.store.kv[k].workflow))
    && (forall p: nat, id: nat | Spawned(s, p, id) :: good(ExecAt(s, p, id).w))
    && (forall p: nat, id: nat | Spawned(s, p, id) && ExecAt(s, p, id).Running? ::
          KeyAt(s, p, id) in s.store.kv && s.store.kv[KeyAt(s, p, id)] == WorkflowJson(ExecAt(s, p, id).w))
  }

  /** What an event may bring in: a delivered workflow with its schedule time, or a retried requeue. */
  ghost predicate Brings(e: Event, good: Workflow -> bool) {
    && (e.Deliver? ==> good(e.w.(scheduledAt := Some(e.now))))
    && (e.RetryRequeue? ==> good(e.w))
  }

  /** All records but those of one key are kept. */
  ghost predicate RecordsKept(s: Store, t: Store, key: string) {
    forall k | k != key :: (k in t.kv <==> k in s.kv) && (k in s.kv ==> t.kv[k] == s.kv[k])
  }

  lemma StagingCarries(s: Sys, t: Store, good: Workflow -> bool)
    requires Inv(s) && Carries(s, good) && WorkflowsKept(s.store, t)
    requires forall k | k in t.kv && IsStagingKey(k) :: t.kv[k].StagedJson? || (k in s.store.kv && t.kv[k] == s.store.kv[k])
    ensures Carries(s.(store := t), good)
  {
    var u := s.(store := t);
    forall p: nat, id: nat | Spawned(u, p, id)
      ensures Spawned(s, p, id) && ExecAt(u, p, id) == ExecAt(s, p, id) && !IsStagingKey(KeyAt(s, p, id))
    {
      assert Spawned(s, p, id) && ExecAt(u, p, id) == ExecAt(s, p, id);
      var w := ExecAt(s, p, id).w;
      WorkflowKeyNotStaging(w.pluginName, w.id);
    }
  }

  lemma {:induction false} StagedValues(s: Store, ops: seq<Op>)
    requires forall op | op in ops :: op.SetOp? && op.value.StagedJson?
    ensures forall k | k in Writes(s, ops) :: Writes(s, ops)[k].StagedJson? || (k in s.kv && Writes(s, ops)[k] == s.kv[k])
  {
    if ops != [] {
      var init := ops[..|ops| - 1];
      assert ops[|ops| - 1] in ops && forall op | op in init :: op in ops;
      StagedValues(s, init);
    }
  }

  lemma CommitStages(s: Store, plugin: string, entries: seq<(string, Json)>)
    ensures var t := Committed(s, plugin, entries).store;
            forall k | k in t.kv :: t.kv[k].StagedJson? || (k in s.kv && t.kv[k] == s.kv[k])
  {
    StagedValues(s, StagingWrites(plugin, entries));
  }

  /** An operation on one key whose record ends good, and as it was if the key is in a handler. */
  lemma KeyCarries(s: Sys, u: Sys, key: string, good: Workflow -> bool)
    requires Carries(s, good) && RecordsKept(s.store, u.store, key) && |u.procs| == |s.procs|
    requires key in u.store.kv && u.store.kv[key].WorkflowJson? ==> good(u.store.kv[key].workflow)
    requires forall p: nat, id: nat | Spawned(u, p, id) ::
               Spawned(s, p, id) && ExecAt(u, p, id).w == ExecAt(s, p, id).w
               && (ExecAt(u, p, id).Running? ==> ExecAt(s, p, id).Running?)
               && (ExecAt(u, p, id).Running? && KeyAt(s, p, id) == key ==> key in u.store.kv && u.store.kv[key] == s.store.kv[key])
    ensures Carries(u, good)
  {
  }

  lemma DeliverCarries(s: Sys, w: Workflow, now: int, good: Workflow -> bool)
    requires Inv(s) && Carries(s, good) && Enabled(s, Deliver(w, now)) && Brings(Deliver(w, now), good)
    ensures Carries(Step(s, Deliver(w, now)), good)
  {
    var key, u := WorkflowKey(w), Step(s, Deliver(w, now));
    forall p: nat, id: nat | Spawned(u, p, id)
      ensures Spawned(s, p, id) && ExecAt(u, p, id) == ExecAt(s, p, id)
      ensures ExecAt(s, p, id).Running? && KeyAt(s, p, id) == key ==> u.store.kv[key] == s.store.kv[key]
    {
      assert Spawned(s, p, id) && ExecAt(u, p, id) == ExecAt(s, p, id);
    }
    KeyCarries(s, u, key, good);
  }

  lemma TakeCarries(s: Sys, p: nat, good: Workflow -> bool)
    requires Inv(s) && Carries(s, good) && Enabled(s, TakeNext(p))
    ensures Carries(Step(s, TakeNext(p)), good)
  {
    var u := Step(s, TakeNext(p));
    TakenMoves(s.store, s.procs[p].plugins);
    TakeSpawns(s.store, s.procs[p]);
    forall q: nat, jd: nat | Spawned(u, q, jd)
      ensures (Spawned(s, q, jd) && ExecAt(u, q, jd) == ExecAt(s, q, jd))
              || (QueueOf(s.store) != []
                  && var key := QueueOf(s.store)[0];
                    s.store.kv[key].WorkflowJson? && ExecAt(u, q, jd) == Running(s.store.kv[key].workflow))
    {
    }
    if QueueOf(s.store) != [] {
      var key := QueueOf(s.store)[0];
      assert key in QueueOf(s.store) && IsRecord(key, s.store.kv[key]);
    }
  }

  /** An execution ends, or finishes, and the record of its key is completed, or kept. */
  lemma EndingCarries(s: Sys, p: nat, id: nat, t: Store, pr: Proc, good: Workflow -> bool)
    requires Inv(s) && Carries(s, good) && Spawned(s, p, id)
    requires RecordsKept(s.store, t, KeyAt(s, p, id))
    requires var key := KeyAt(s, p, id); key in t.kv && t.kv[key].WorkflowJson? ==> good(t.kv[key].workflow)
    requires || pr.executions == s.procs[p].executions - {id}
             || pr.executions == s.procs[p].executions[id := Finished(ExecAt(s, p, id).w)]
    ensures Carries(With(s, p, (t, pr)), good)
  {
    var u, key := With(s, p, (t, pr)), KeyAt(s, p, id);
    forall q: nat, jd: nat | Spawned(u, q, jd)
      ensures Spawned(s, q, jd) && ExecAt(u, q, jd).w == ExecAt(s, q, jd).w
      ensures ExecAt(u, q, jd).Running? ==> ExecAt(s, q, jd).Running? && KeyAt(s, q, jd) != key
    {
      assert Spawned(s, q, jd) && ExecAt(u, q, jd).w == ExecAt(s, q, jd).w;
    }
    KeyCarries(s, u, key, good);
  }

  /** A late operation on a key that no handler has. */
  lemma LateCarries(s: Sys, t: Store, key: string, good: Workflow -> bool)
    requires Carries(s, good) && !InHand(s, key, true) && RecordsKept(s.store, t, key)
    requires key in t.kv && t.kv[key].WorkflowJson? ==> good(t.kv[key].workflow)
    ensures Carries(s.(store := t), good)
  {
    var u := s.(store := t);
    forall p: nat, id: nat | Spawned(u, p, id)
      ensures Spawned(s, p, id) && ExecAt(u, p, id) == ExecAt(s, p, id)
      ensures ExecAt(s, p, id).Running? ==> KeyAt(s, p, id) != key
    {
      assert Spawned(s, p, id) && ExecAt(u, p, id) == ExecAt(s, p, id);
    }
    KeyCarries(s, u, key, good);
  }

  lemma WatchCarries(s: Sys, plugin: string, keys: seq<string>, good: Workflow -> bool)
    requires Inv(s) && Carries(s, good)
    ensures Carries(s.(store := Begun(s.store, plugin, keys).store), good)
  {
    BegunKeepsWorkflows(s.store, plugin, keys);
    StagingCarries(s, Begun(s.store, plugin, keys).store, good);
  }

  lemma WriteCarries(s: Sys, plugin: string, entries: seq<(string, Json)>, good: Workflow -> bool)
    requires Inv(s) && Carries(s, good)
    ensures Carries(s.(store := Committed(s.store, plugin, entries).store), good)
  {
    CommittedKeepsWorkflows(s.store, plugin, entries);
    CommitStages(s.store, plugin, entries);
    StagingCarries(s, Committed(s.store, plugin, entries).store, good);
  }

  lemma CheckCarries(s: Sys, p: nat, good: Workflow -> bool)
    requires Carries(s, good) && Enabled(s, CheckLoad(p))
    ensures Carries(Step(s, CheckLoad(p)), good)
  {
    var u := Step(s, CheckLoad(p));
    assert forall q: nat, jd: nat | Spawned(u, q, jd) :: Spawned(s, q, jd) && ExecAt(u, q, jd) == ExecAt(s, q, jd);
    KeyCarries(s, u, "", good);
  }

  lemma SucceedCarries(s: Sys, p: nat, id: nat, good: Workflow -> bool)
    requires Inv(s) && Carries(s, good) && Enabled(s, Succeed(p, id))
    ensures Carries(Step(s, Succeed(p, id)), good)
  {
    var next := Succeeded(s.store, s.procs[p], id);
    CompletedMoves(s.store, KeyAt(s, p, id));
    EndingCarries(s, p, id, next.0, next.1, good);
  }

  lemma GiveBackCarries(s: Sys, p: nat, id: nat, good: Workflow -> bool)
    requires Inv(s) && Carries(s, good) && Spawned(s, p, id)
    ensures Carries(With(s, p, GaveBack(s.store, s.procs[p], id)), good)
  {
    var next := GaveBack(s.store, s.procs[p], id);
    EndingCarries(s, p, id, next.0, next.1, good);
  }

  lemma UnrecordedCarries(s: Sys, p: nat, id: nat, pr: Proc, good: Workflow -> bool)
    requires Inv(s) && Carries(s, good) && Spawned(s, p, id)
    requires pr.executions == s.procs[p].executions - {id}
    ensures Carries(With(s, p, (s.store, pr)), good)
  {
    EndingCarries(s, p, id, s.store, pr, good);
  }

  lemma LateCompleteCarries(s: Sys, key: string, good: Workflow -> bool)
    requires Carries(s, good) && MayComplete(s, key)
    ensures Carries(s.(store := Completed(s.store, key).store), good)
  {
    LateCarries(s, Completed(s.store, key).store, key, good);
  }

  lemma LateRequeueCarries(s: Sys, w: Workflow, good: Workflow -> bool)
    requires Carries(s, good) && MayRequeue(s, WorkflowKey(w)) && good(w)
    ensures Carries(s.(store := Requeued(s.store, w).store), good)
  {
    LateCarries(s, Requeued(s.store, w).store, WorkflowKey(w), good);
  }

  lemma StepCarries(s: Sys, e: Event, good: Workflow -> bool)
    requires Inv(s) && Carries(s, good) && Enabled(s, e) && Brings(e, good)
    ensures Carries(Step(s, e), good)
  {
    match e
    case Deliver(w, now) =>
      DeliverCarries(s, w, now, good);
    case WatchStaging(plugin, keys) =>
      WatchCarries(s, plugin, keys, good);
    case WriteStaging(plugin, entries) =>
      WriteCarries(s, plugin, entries, good);
    case CheckLoad(p) =>
      CheckCarries(s, p, good);
    case TakeNext(p) =>
      TakeCarries(s, p, good);
    case Succeed(p, id) =>
      SucceedCarries(s, p, id, good);
    case GiveBack(p, id) =>
      GiveBackCarries(s, p, id, good);
    case Return(p, id) =>
      UnrecordedCarries(s, p, id, Ended(s.procs[p], id), good);
    case LeaveComplete(p, id) =>
      UnrecordedCarries(s, p, id, Ended(s.procs[p], id), good);
    case LeaveRequeue(p, id) =>
      UnrecordedCarries(s, p, id, EndedForRequeue(s.procs[p], id), good);
    case RetryComplete(plugin, workflowId) =>
      LateCompleteCarries(s, KeyOf(plugin, workflowId), good);
    case RetryRequeue(w) =>
      LateRequeueCarries(s, w, good);
  }

  lemma {:induction false} RunCarries(s: Sys, es: seq<Event>, good: Workflow -> bool)
    requires Inv(s) && Carries(s, good) && Legal(s, es) && forall e | e in es :: Brings(e, good)
    ensures Carries(After(s, es), good)
    decreases |es|
  {
    if es != [] {
      assert es[0] in es && forall e | e in es[1..] :: e in es;
      StepInv(s, es[0]);
      StepCarries(s, es[0], good);
      RunCarries(Step(s, es[0]), es[1..], good);
    }
  }

  /** The workflow as some delivery of the run left it in the store. */
  predicate DeliveredAs(es: seq<Event>, w: Workflow) {
    exists e | e in es :: e.Deliver? && w == e.w.(scheduledAt := Some(e.now))
  }

  /**
   * In every run, the workflow that a handler runs on is one that was delivered, with its id, plugin
   * and data as delivered and the time of that delivery, and is the record the store holds for it.
   */
  lemma HandlersGetDeliveries(s: Sys, es: seq<Event>, p: nat, id: nat)
    requires Initial(s) && Legal(s, es) && forall e | e in es && e.RetryRequeue? :: DeliveredAs(es, e.w)
    requires Spawned(After(s, es), p, id)
    ensures var t := After(s, es);
            && DeliveredAs(es, ExecAt(t, p, id).w)
            && (ExecAt(t, p, id).Running? ==>
                  KeyAt(t, p, id) in t.store.kv && t.store.kv[KeyAt(t, p, id)] == WorkflowJson(ExecAt(t, p, id).w))
  {
    var good := (w: Workflow) => DeliveredAs(es, w);
    InitialInv(s);
    assert Carries(s, good) by {
      assert forall q: nat, jd: nat :: !Spawned(s, q, jd);
    }
    RunCarries(s, es, good);
  }

  // ---------------------------------------------------------------- with backlogs

  /** What waits in backlogs brings in good workflows only. */
  ghost predicate EntriesCarry(f: Fleet, good: Workflow -> bool) {
    forall b, i | 0 <= b < |f.backlogs| && 0 <= i < |f.backlogs[b]| :: EntryCarries(f.backlogs[b][i], good)
  }

  ghost predicate EntryCarries(entry: Entry, good: Workflow -> bool) {
    && (entry.op.AddOp? ==> forall now :: good(entry.op.w.(scheduledAt := Some(now))))
    && (entry.op.RequeueOp? ==> good(entry.op.w))
  }

  lemma FleetStepCarries(f: Fleet, e: FleetEvent, good: Workflow -> bool)
    requires FleetInv(f) && Possible(f, e) && Safe(f, e)
    requires Carries(f.sys, good) && EntriesCarry(f, good)
    requires e.PushAdd? ==> forall now :: good(e.w.(scheduledAt := Some(now)))
    ensures Carries(FleetStep(f, e).sys, good) && EntriesCarry(FleetStep(f, e), good)
  {
    match e
    case Other(e') => StepCarries(f.sys, e', good);
    case ReturnEarly(p, id) => StepCarries(f.sys, LeaveComplete(p, id), good);
    case PushRequeue(p, id) => StepCarries(f.sys, LeaveRequeue(p, id), good);
    case Try(b, report, now) =>
      assert EntryCarries(f.backlogs[b][0], good);
      if !report.LostRequest? {
        TryIsStep(f, b, now);
        StepCarries(f.sys, TryEvent(f, b, now), good);
      }
    case _ =>
  }

  lemma {:induction false} FleetCarries(f: Fleet, fes: seq<FleetEvent>, good: Workflow -> bool)
    requires FleetInv(f) && FleetLegal(f, fes) && Carries(f.sys, good) && EntriesCarry(f, good)
    requires forall e | e in fes && e.PushAdd? :: forall now :: good(e.w.(scheduledAt := Some(now)))
    ensures Carries(FleetAfter(f, fes).sys, good)
    decreases |fes|
  {
    if fes != [] {
      assert fes[0] in fes && forall e | e in fes[1..] :: e in fes;
      var _ := FleetStepRuns(f, fes[0]);
      FleetStepCarries(f, fes[0], good);
      FleetCarries(FleetStep(f, fes[0]), fes[1..], good);
    }
  }

  /** The workflow is one that a listener pushed, but for its schedule time. */
  predicate PushedAs(fes: seq<FleetEvent>, w: Workflow) {
    exists e | e in fes :: e.PushAdd? && w.(scheduledAt := None) == e.w.(scheduledAt := None)
  }

  /** The same with retrying wrappers in every process, whatever is lost and retried. */
  lemma HandlersGetPushes(f: Fleet, fes: seq<FleetEvent>, p: nat, id: nat)
    requires FleetInitial(f) && FleetLegal(f, fes) && Spawned(FleetAfter(f, fes).sys, p, id)
    ensures var t := FleetAfter(f, fes).sys;
            && PushedAs(fes, ExecAt(t, p, id).w)
            && (ExecAt(t, p, id).Running? ==>
                  KeyAt(t, p, id) in t.store.kv && t.store.kv[KeyAt(t, p, id)] == WorkflowJson(ExecAt(t, p, id).w))
  {
    var good := (w: Workflow) => PushedAs(fes, w);
    InitialInv(f.sys);
    assert Carries(f.sys, good) by {
      assert forall q: nat, jd: nat :: !Spawned(f.sys, q, jd);
    }
    FleetCarries(f, fes, good);
  }
}
