/**
 * Workflow records, the queue and the active list
 * (lib/relayer-engine/src/storage/storage.ts, class DefaultStorage). Each operation is a
 * function on `Store`, and a method that reaches it through watched batches.
 */
module WorkflowStorage {
  import opened Lists
  import opened InMemoryStore

  const ACTIVE_WORKFLOWS_QUEUE := "__activeWorkflows"
  const STAGING_AREA_KEY := "__stagingArea"
  const WORKFLOW_QUEUE := "__workflowQ"
  const COMPLETE := Text("__complete")

  /** A key requeued more often than this by one process is dropped. */
  const MAX_REQUEUES: nat := 2

  // ---------------------------------------------------------------- keys

  function KeyOf(pluginName: string, id: string): (r: string) { pluginName + "/" + id }

  function WorkflowKey(w: Workflow): (r: string) { KeyOf(w.pluginName, w.id) }

  const DIRTY := "[^a-zA-z_0-9]*"

  /**
   * `replace` is given a plain string, so it drops the first literal occurrence of that
   * string rather than the characters the pattern describes.
   */
  function Sanitize(dirty: string): (r: string) { WithoutFirst(DIRTY, dirty) }

  /** `s` with the first occurrence of `part` cut out. */
  function WithoutFirst(part: string, s: string): (r: string) {
    if part <= s then s[|part|..]
    else if s == "" then ""
    else [s[0]] + WithoutFirst(part, s[1..])
  }

  function StagingKey(pluginName: string, key: string): (r: string) {
    STAGING_AREA_KEY + "/" + Sanitize(pluginName) + "/" + key
  }

  predicate IsStagingKey(key: string) { STAGING_AREA_KEY + "/" <= key }

  /** The names for which workflow keys are unambiguous. */
  predicate GoodPluginName(name: string) { '/' !in name && name != STAGING_AREA_KEY }

  lemma FirstSlash(a: string, x: string, b: string, y: string)
    requires '/' !in a && '/' !in b && a + "/" + x == b + "/" + y
    ensures a == b && x == y
  {
    var s := a + "/" + x;
    assert s[|a|] == '/' && s[|b|] == '/' by {
      assert s == b + "/" + y;
    }
    assert forall i | 0 <= i < |a| :: s[i] == a[i];
    assert forall i | 0 <= i < |b| :: s[i] == b[i];
    assert |a| == |b|;
    assert a == s[..|a|] && b == s[..|b|];
    assert x == s[|a| + 1..] && y == s[|b| + 1..];
  }

  /** Workflow keys are injective although ids may contain slashes. */
  lemma WorkflowKeyInjective(plugin1: string, id1: string, plugin2: string, id2: string)
    requires '/' !in plugin1 && '/' !in plugin2
    ensures KeyOf(plugin1, id1) == KeyOf(plugin2, id2) <==> plugin1 == plugin2 && id1 == id2
  {
    if KeyOf(plugin1, id1) == KeyOf(plugin2, id2) {
      FirstSlash(plugin1, id1, plugin2, id2);
    }
  }

  /** No workflow of a well-named plugin is kept under a staging key. */
  lemma WorkflowKeyNotStaging(plugin: string, id: string)
    requires GoodPluginName(plugin)
    ensures !IsStagingKey(KeyOf(plugin, id))
  {
    if IsStagingKey(KeyOf(plugin, id)) {
      var key := KeyOf(plugin, id);
      var n := |STAGING_AREA_KEY + "/"|;
      assert key == STAGING_AREA_KEY + "/" + key[n..];
      FirstSlash(plugin, id, STAGING_AREA_KEY, key[n..]);
    }
  }

  lemma StagingKeyIsStaging(plugin: string, key: string)
    ensures IsStagingKey(StagingKey(plugin, key))
  {
    assert StagingKey(plugin, key) == STAGING_AREA_KEY + "/" + (Sanitize(plugin) + "/" + key);
  }

  /** The second plugin's name goes on with a slash where the first plugin's key takes over. */
  predicate Overlap(name1: string, key1: string, name2: string, key2: string) {
    && |name1| < |name2| && name1 + "/" <= name2
    && key1 == name2[|name1| + 1..] + "/" + key2
  }

  lemma OverlapMeaning(name1: string, key1: string, name2: string, key2: string)
    requires |name1| < |name2|
    ensures name1 + "/" + key1 == name2 + "/" + key2 <==> Overlap(name1, key1, name2, key2)
  {
    var s := name2 + "/" + key2;
    if name1 + "/" + key1 == s {
      var n := |name1| + 1;
      assert s[..n] == name1 + "/" && s[..n] == name2[..n];
      assert key1 == s[n..] == name2[n..] + ("/" + key2);
    }
    if Overlap(name1, key1, name2, key2) {
      assert name2 == name1 + "/" + name2[|name1| + 1..];
    }
  }

  lemma OverlapHasSlash(name1: string, key1: string, name2: string, key2: string)
    requires Overlap(name1, key1, name2, key2)
    ensures '/' in name2
  {
    assert name2[|name1|] == (name1 + "/")[|name1|];
  }

  /**
   * For any two plugins and keys at all: the staging keys are one exactly when sanitized names and
   * keys agree, or one name with a slash overlaps the other's key.
   */
  lemma StagingKeysCollideIff(plugin1: string, key1: string, plugin2: string, key2: string)
    ensures var name1, name2 := Sanitize(plugin1), Sanitize(plugin2);
            StagingKey(plugin1, key1) == StagingKey(plugin2, key2) <==>
              || (name1 == name2 && key1 == key2)
              || Overlap(name1, key1, name2, key2)
              || Overlap(name2, key2, name1, key1)
  {
    var name1, name2 := Sanitize(plugin1), Sanitize(plugin2);
    SameStagingTail(name1 + "/" + key1, name2 + "/" + key2);
    assert StagingKey(plugin1, key1) == STAGING_AREA_KEY + "/" + (name1 + "/" + key1);
    assert StagingKey(plugin2, key2) == STAGING_AREA_KEY + "/" + (name2 + "/" + key2);
    if |name1| < |name2| {
      OverlapMeaning(name1, key1, name2, key2);
    } else if |name2| < |name1| {
      OverlapMeaning(name2, key2, name1, key1);
    } else if name1 + "/" + key1 == name2 + "/" + key2 {
      assert name1 == (name1 + "/" + key1)[..|name1|] == (name2 + "/" + key2)[..|name2|] == name2;
      assert key1 == (name1 + "/" + key1)[|name1| + 1..] == (name2 + "/" + key2)[|name2| + 1..] == key2;
    }
  }

  lemma SameStagingTail(a: string, b: string)
    ensures STAGING_AREA_KEY + "/" + a == STAGING_AREA_KEY + "/" + b <==> a == b
  {
    var n := |STAGING_AREA_KEY| + 1;
    assert a == (STAGING_AREA_KEY + "/" + a)[n..] && b == (STAGING_AREA_KEY + "/" + b)[n..];
  }

  /** Between plugins whose sanitized names hold no slash, staging areas never meet. */
  lemma StagingAreasDisjoint(plugin1: string, key1: string, plugin2: string, key2: string)
    requires '/' !in Sanitize(plugin1) && '/' !in Sanitize(plugin2)
    ensures (StagingKey(plugin1, key1) == StagingKey(plugin2, key2))
        <==> (Sanitize(plugin1) == Sanitize(plugin2) && key1 == key2)
  {
    StagingKeysCollideIff(plugin1, key1, plugin2, key2);
    if Overlap(Sanitize(plugin1), key1, Sanitize(plugin2), key2) {
      OverlapHasSlash(Sanitize(plugin1), key1, Sanitize(plugin2), key2);
    }
    if Overlap(Sanitize(plugin2), key2, Sanitize(plugin1), key1) {
      OverlapHasSlash(Sanitize(plugin2), key2, Sanitize(plugin1), key1);
    }
  }

  predicate StartsAt(part: string, s: string, i: nat) { i <= |s| && part <= s[i..] }

  predicate Occurs(part: string, s: string) { exists i: nat :: i <= |s| && StartsAt(part, s, i) }

  /** `part` starts at position `i` of `s`, and nowhere before. */
  predicate FirstAt(part: string, s: string, i: nat) {
    StartsAt(part, s, i) && forall j: nat | j < i :: !StartsAt(part, s, j)
  }

  lemma StartsAtTail(part: string, s: string, i: nat)
    requires s != ""
    ensures StartsAt(part, s, 0) <==> part <= s
    ensures StartsAt(part, s, i + 1) <==> StartsAt(part, s[1..], i)
  {
    assert s[0..] == s;
    if i + 1 <= |s| {
      assert s[i + 1..] == s[1..][i..];
    }
  }

  lemma OccursTail(part: string, s: string)
    requires s != ""
    ensures Occurs(part, s) <==> part <= s || Occurs(part, s[1..])
  {
    StartsAtTail(part, s, 0);
    if Occurs(part, s) {
      var i: nat :| i <= |s| && StartsAt(part, s, i);
      if i > 0 {
        StartsAtTail(part, s, i - 1);
      }
    }
    if Occurs(part, s[1..]) {
      var i: nat :| i <= |s[1..]| && StartsAt(part, s[1..], i);
      StartsAtTail(part, s, i);
    }
  }

  lemma FirstAtTail(part: string, s: string, i: nat)
    requires s != "" && !(part <= s) && FirstAt(part, s[1..], i)
    ensures FirstAt(part, s, i + 1)
  {
    StartsAtTail(part, s, i);
    forall j: nat | j < i + 1 ensures !StartsAt(part, s, j) {
      StartsAtTail(part, s, if j > 0 then j - 1 else 0);
    }
  }

  lemma OccursInEmpty(part: string)
    requires Occurs(part, "")
    ensures part == ""
  {
    var i: nat :| i <= |""| && StartsAt(part, "", i);
  }

  lemma {:induction false} WithoutFirstAbsent(part: string, s: string)
    requires !Occurs(part, s)
    ensures WithoutFirst(part, s) == s
  {
    assert !StartsAt(part, s, 0) && s[0..] == s;
    if s != "" {
      OccursTail(part, s);
      WithoutFirstAbsent(part, s[1..]);
    }
  }

  /** `s` without the `n` characters from position `i` on. */
  function Cut(s: string, i: nat, n: nat): (r: string)
    requires i + n <= |s|
  {
    s[..i] + s[i + n..]
  }

  lemma CutTail(s: string, i: nat, n: nat)
    requires s != "" && i + n <= |s[1..]|
    ensures Cut(s, i + 1, n) == [s[0]] + Cut(s[1..], i, n)
  {
    assert s[..i + 1] == [s[0]] + s[1..][..i];
    assert s[i + 1 + n..] == s[1..][i + n..];
  }

  lemma {:induction false} WithoutFirstFound(part: string, s: string) returns (i: nat)
    requires Occurs(part, s)
    ensures FirstAt(part, s, i) && i + |part| <= |s| && WithoutFirst(part, s) == Cut(s, i, |part|)
  {
    if part <= s {
      i := 0;
      assert s[0..] == s && Cut(s, 0, |part|) == s[|part|..];
    } else {
      if s == "" {
        OccursInEmpty(part);
      }
      OccursTail(part, s);
      var j := WithoutFirstFound(part, s[1..]);
      i := j + 1;
      FirstAtTail(part, s, j);
      CutTail(s, j, |part|);
    }
  }

  /** Sanitizing cuts out the first place where the pattern itself occurs in a name, and does nothing else. */
  lemma SanitizeMeaning(dirty: string)
    ensures Sanitize(dirty) == dirty <==> !Occurs("[^a-zA-z_0-9]*", dirty)
    ensures Occurs("[^a-zA-z_0-9]*", dirty) ==>
              exists i: nat :: FirstAt("[^a-zA-z_0-9]*", dirty, i) && i + 14 <= |dirty| && Sanitize(dirty) == Cut(dirty, i, 14)
  {
    if Occurs(DIRTY, dirty) {
      var i := WithoutFirstFound(DIRTY, dirty);
    } else {
      WithoutFirstAbsent(DIRTY, dirty);
    }
  }

  // ---------------------------------------------------------------- operations on a store

  function QueueOf(s: Store): (r: seq<string>) { ListOf(s, WORKFLOW_QUEUE) }

  function ActiveOf(s: Store): (r: seq<string>) { ListOf(s, ACTIVE_WORKFLOWS_QUEUE) }

  /** `addWorkflow`: a known key is left alone, a new one is pushed and recorded. */
  function Added(s: Store, w: Workflow, now: int): (r: Outcome) {
    var key := WorkflowKey(w);
    if key in s.locks then Outcome(s, false)
    else if ValueOf(s, key).Some? then Outcome(Released(s), true)
    else Outcome(
      Store(map[], s.kv[key := WorkflowJson(w.(scheduledAt := Some(now)))], Pushed(s.lists, WORKFLOW_QUEUE, key)),
      true)
  }

  function RequeuedLists(lists: map<string, seq<string>>, key: string): (r: map<string, seq<string>>) {
    Pushed(
      Removed(Removed(lists, WORKFLOW_QUEUE, 0, key), ACTIVE_WORKFLOWS_QUEUE, 0, key),
      WORKFLOW_QUEUE,
      key)
  }

  /**
   * The store operation of `requeueWorkflow`. A key without a record makes it throw with the
   * key still locked; a record marked complete becomes a workflow again.
   */
  function Requeued(s: Store, w: Workflow): (r: Outcome) {
    var key := WorkflowKey(w);
    if key in s.locks then Outcome(s, false)
    else if ValueOf(s, key).None? then Outcome(s.(locks := s.locks[key := None]), false)
    else
      var kv := if ValueOf(s, key) == Some(COMPLETE) then s.kv[key := WorkflowJson(w)] else s.kv;
      Outcome(Store(map[], kv, RequeuedLists(s.lists, key)), true)
  }

  /** `completeWorkflow`. It looks at neither the queue nor whether the key is active. */
  function Completed(s: Store, key: string): (r: Outcome) {
    if key in s.locks then Outcome(s, false)
    else if ValueOf(s, key) == Some(COMPLETE) then Outcome(Released(s), true)
    else Outcome(Store(map[], s.kv[key := COMPLETE], Removed(s.lists, ACTIVE_WORKFLOWS_QUEUE, 0, key)), true)
  }

  /** What `getNextWorkflow` gives its caller; `Failed` is a throw after the key was moved. */
  datatype Next = Nothing | Handed(workflow: Workflow) | Failed(key: string)

  function Taken(s: Store, plugins: set<string>): (r: (Store, Next)) {
    var (t, moved) := Moved(s, WORKFLOW_QUEUE, ACTIVE_WORKFLOWS_QUEUE, LEFT, RIGHT);
    match moved
    case None => (t, Nothing)
    case Some(key) =>
      match ValueOf(t, key)
      case Some(WorkflowJson(w)) => (t, if w.pluginName in plugins then Handed(w) else Failed(key))
      case _ => (t, Failed(key))
  }

  // ---------------------------------------------------------------- what they do to the lists

  lemma RemovedContents(lists: map<string, seq<string>>, name: string, key: string)
    ensures Contents(Removed(lists, name, 0, key), name) == Reverse(Without(Contents(lists, name), key))
    ensures forall other | other != name :: Contents(Removed(lists, name, 0, key), other) == Contents(lists, other)
  {
    RemoveAllMatches(Contents(lists, name), key, -1);
  }

  /** A requeue moves the key to the head of the queue and reverses what is left of both lists. */
  lemma RequeuedContents(lists: map<string, seq<string>>, key: string)
    ensures Contents(RequeuedLists(lists, key), WORKFLOW_QUEUE)
         == [key] + Reverse(Without(Contents(lists, WORKFLOW_QUEUE), key))
    ensures Contents(RequeuedLists(lists, key), ACTIVE_WORKFLOWS_QUEUE)
         == Reverse(Without(Contents(lists, ACTIVE_WORKFLOWS_QUEUE), key))
  {
    RemovedContents(lists, WORKFLOW_QUEUE, key);
    RemovedContents(Removed(lists, WORKFLOW_QUEUE, 0, key), ACTIVE_WORKFLOWS_QUEUE, key);
  }

  // The life of a workflow on a store of its own, for any workflow: exactly what the store holds
  // after it is added, taken and completed.

  lemma LifeAdded(w: Workflow, now: int)
    ensures var key := w.pluginName + "/" + w.id;
            Added(Store(map[], map[], map[]), w, now) == Outcome(
              Store(map[], map[key := WorkflowJson(w.(scheduledAt := Some(now)))], map["__workflowQ" := [key]]), true)
  {
    var key := w.pluginName + "/" + w.id;
    assert [key] + [] == [key];
    assert Pushed(map[], WORKFLOW_QUEUE, key) == map["__workflowQ" := [key]];
  }

  lemma LifeTaken(w: Workflow, plugins: set<string>)
    requires w.pluginName in plugins
    ensures var key := w.pluginName + "/" + w.id;
            Taken(Store(map[], map[key := WorkflowJson(w)], map["__workflowQ" := [key]]), plugins)
            == (Store(map[], map[key := WorkflowJson(w)], map["__workflowQ" := [], "__activeWorkflows" := [key]]), Handed(w))
  {
    var key := w.pluginName + "/" + w.id;
    var s := Store(map[], map[key := WorkflowJson(w)], map["__workflowQ" := [key]]);
    assert key[|w.pluginName|] == '/';
    var keys: seq<string> := [key];
    assert keys[1..] == [] && keys[1..] + keys == keys;
    assert Moved(s, WORKFLOW_QUEUE, ACTIVE_WORKFLOWS_QUEUE, LEFT, RIGHT).0.lists
        == map["__workflowQ" := [], "__activeWorkflows" := [key]];
  }

  lemma LifeCompleted(w: Workflow)
    ensures var key := w.pluginName + "/" + w.id;
            Completed(Store(map[], map[key := WorkflowJson(w)], map["__workflowQ" := [], "__activeWorkflows" := [key]]), key)
            == Outcome(
              Store(map[], map[key := Text("__complete")], map["__workflowQ" := [], "__activeWorkflows" := []]), true)
  {
    var key := w.pluginName + "/" + w.id;
    var keys: seq<string> := [key];
    RemoveAllMatches(keys, key, -1);
    assert keys[1..] == [];
  }

  /** A requeue of a key without a record throws, and leaves its lock; a locked key is refused at once. */
  lemma RequeueThrows(s: Store, w: Workflow)
    ensures var key, o := WorkflowKey(w), Requeued(s, w);
            && o.ok == (key !in s.locks && ValueOf(s, key).Some?)
            && (!o.ok ==> o.store == if key in s.locks then s else s.(locks := s.locks[key := None]))
  {
  }

  /** A take whose key has no workflow record, or not one of the process's plugins, throws with the key moved. */
  lemma TakeThrowsIff(s: Store, plugins: set<string>)
    requires QueueOf(s) != [] && QueueOf(s)[0] != ""
    ensures var key, (t, next) := QueueOf(s)[0], Taken(s, plugins);
            && QueueOf(t) == QueueOf(s)[1..] && ActiveOf(t) == ActiveOf(s) + [key] && t.kv == s.kv && t.locks == s.locks
            && (next == Failed(key) || next.Handed?)
            && (next.Handed? <==>
                  key in s.kv && s.kv[key].WorkflowJson? && s.kv[key].workflow.pluginName in plugins)
            && (next.Handed? ==> next.workflow == s.kv[key].workflow)
  {
  }

  /** Where plugin data is kept. */
  lemma StagingKeyForm(plugin: string, key: string)
    ensures StagingKey(plugin, key) == "__stagingArea/" + Sanitize(plugin) + "/" + key
  {
  }

  // ---------------------------------------------------------------- the object

  /** One process's storage. `requeued` is the process's requeue counter. */
  class DefaultStorage {
    const store: InMemory
    const plugins: set<string>
    var requeued: map<string, nat>

    constructor (store: InMemory, plugins: set<string>)
      ensures this.store == store && this.plugins == plugins && requeued == map[]
    {
      this.store := store;
      this.plugins := plugins;
      requeued := map[];
    }

    method NumActiveWorkflows() returns (n: nat)
      ensures n == |ActiveOf(store.State())|
    {
      n := store.LLen(ACTIVE_WORKFLOWS_QUEUE);
    }

    method AddWorkflow(w: Workflow, now: int) returns (ok: bool)
      modifies store
      ensures Outcome(store.State(), ok) == Added(old(store.State()), w, now)
    {
      var key := WorkflowKey(w);
      ok := store.Watch([key]);
      if !ok {
        return;
      }
      var known := store.Get(key);
      if known.Some? {
        store.Unwatch();
        return;
      }
      var batch := store.Multi();
      batch := batch.LPush(WORKFLOW_QUEUE, key);
      BatchStep(store.State(), [], batch.ops[0]);
      batch := batch.Set(key, WorkflowJson(w.(scheduledAt := Some(now))));
      BatchStep(store.State(), batch.ops[..1], batch.ops[1]);
      ok := batch.Exec();
    }

    /** The counter goes up before the store is touched, and stays up if that throws. */
    method RequeueWorkflow(w: Workflow) returns (ok: bool)
      modifies this, store
      ensures Times(old(requeued), WorkflowKey(w)) > MAX_REQUEUES ==>
                ok && store.State() == old(store.State()) && requeued == old(requeued)
      ensures Times(old(requeued), WorkflowKey(w)) <= MAX_REQUEUES ==>
                && Outcome(store.State(), ok) == Requeued(old(store.State()), w)
                && requeued == old(requeued)[WorkflowKey(w) := Times(old(requeued), WorkflowKey(w)) + 1]
    {
      var key := WorkflowKey(w);
      if key in requeued && requeued[key] > MAX_REQUEUES {
        return true;
      }
      requeued := requeued[key := (if key in requeued then requeued[key] else 0) + 1];
      ok := RequeueOperation(w);
    }

    /** The part of `requeueWorkflow` that is handed to `runOpWithRetry`. */
    method RequeueOperation(w: Workflow) returns (ok: bool)
      modifies store
      ensures Outcome(store.State(), ok) == Requeued(old(store.State()), w)
    {
      var key := WorkflowKey(w);
      ok := store.Watch([key]);
      if !ok {
        return;
      }
      var global := store.Get(key);
      var batch := store.Multi();
      if global.None? {
        return false;
      } else if global == Some(COMPLETE) {
        batch := batch.Set(key, WorkflowJson(w));
      }
      ghost var before := batch.ops;
      BatchStep(store.State(), [], if before == [] then RemOp(WORKFLOW_QUEUE, 0, key) else before[0]);
      batch := batch.LRem(WORKFLOW_QUEUE, 0, key);
      BatchStep(store.State(), before, RemOp(WORKFLOW_QUEUE, 0, key));
      batch := batch.LRem(ACTIVE_WORKFLOWS_QUEUE, 0, key);
      BatchStep(store.State(), before + [RemOp(WORKFLOW_QUEUE, 0, key)], RemOp(ACTIVE_WORKFLOWS_QUEUE, 0, key));
      ghost var removals := batch.ops;
      batch := batch.LPush(WORKFLOW_QUEUE, key);
      BatchStep(store.State(), removals, PushOp(WORKFLOW_QUEUE, key));
      ok := batch.Exec();
    }

    method CompleteWorkflow(id: string, pluginName: string) returns (ok: bool)
      modifies store
      ensures Outcome(store.State(), ok) == Completed(old(store.State()), KeyOf(pluginName, id))
    {
      var key := KeyOf(pluginName, id);
      ok := store.Watch([key]);
      if !ok {
        return;
      }
      var record := store.Get(key);
      if record == Some(COMPLETE) {
        store.Unwatch();
        return;
      }
      var batch := store.Multi();
      batch := batch.Set(key, COMPLETE);
      BatchStep(store.State(), [], batch.ops[0]);
      batch := batch.LRem(ACTIVE_WORKFLOWS_QUEUE, 0, key);
      BatchStep(store.State(), batch.ops[..1], batch.ops[1]);
      ok := batch.Exec();
    }

    method GetNextWorkflow() returns (r: Next)
      modifies store
      ensures (store.State(), r) == Taken(old(store.State()), plugins)
    {
      var key := store.BlMove(WORKFLOW_QUEUE, ACTIVE_WORKFLOWS_QUEUE, LEFT, RIGHT);
      if key.None? {
        return Nothing;
      }
      var raw := store.Get(key.value);
      if raw.None? || !raw.value.WorkflowJson? {
        return Failed(key.value);
      }
      var w := raw.value.workflow;
      r := if w.pluginName in plugins then Handed(w) else Failed(key.value);
    }
  }

  /** How often a process has requeued a key. */
  function Times(counts: map<string, nat>, key: string): (r: nat) {
    if key in counts then counts[key] else 0
  }
}
