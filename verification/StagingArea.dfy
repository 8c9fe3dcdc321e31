/**
 * Optimistic updates of plugin data (lib/relayer-engine/src/storage/storage.ts, class
 * DefaultStagingAreaKeyLock). `withKey` waits for its callback in the middle, so it is two
 * steps here: `Begin` watches and reads, `Commit` writes what the callback returned.
 */
module StagingArea {
  import opened Lists
  import opened InMemoryStore
  import opened WorkflowStorage

  function StagingKeys(plugin: string, keys: seq<string>): (r: seq<string>)
    ensures |r| == |keys|
  {
    seq(|keys|, i requires 0 <= i < |keys| => StagingKey(plugin, keys[i]))
  }

  function StagingWrites(plugin: string, entries: seq<(string, Json)>): (r: seq<Op>)
    ensures |r| == |entries|
  {
    seq(|entries|, i requires 0 <= i < |entries| =>
      SetOp(StagingKey(plugin, entries[i].0), StagedJson(entries[i].1)))
  }

  function Begun(s: Store, plugin: string, keys: seq<string>): (r: Outcome) {
    WatchAll(s, StagingKeys(plugin, keys))
  }

  function Committed(s: Store, plugin: string, entries: seq<(string, Json)>): (r: Outcome) {
    ExecBatch(s, StagingWrites(plugin, entries))
  }

  class StagingAreaKeyLock {
    const store: InMemory
    const plugin: string

    constructor (store: InMemory, plugin: string)
      ensures this.store == store && this.plugin == plugin
    {
      this.store := store;
      this.plugin := plugin;
    }

    method GetKeys(keys: seq<string>) returns (values: seq<Option<Value>>)
      ensures |values| == |keys|
      ensures forall i | 0 <= i < |keys| :: values[i] == ValueOf(store.State(), StagingKey(plugin, keys[i]))
    {
      values := [];
      for i := 0 to |keys|
        invariant |values| == i
        invariant forall j | 0 <= j < i :: values[j] == ValueOf(store.State(), StagingKey(plugin, keys[j]))
      {
        var value := store.Get(StagingKey(plugin, keys[i]));
        values := values + [value];
      }
    }

    /** Watches the keys and reads them for the callback; None when the watch throws. */
    method Begin(keys: seq<string>) returns (r: Option<seq<Option<Value>>>)
      modifies store
      ensures Outcome(store.State(), r.Some?) == Begun(old(store.State()), plugin, keys)
      ensures r.Some? ==>
                && |r.value| == |keys|
                && forall i | 0 <= i < |keys| :: r.value[i] == ValueOf(old(store.State()), StagingKey(plugin, keys[i]))
    {
      WatchMeaning(store.State(), StagingKeys(plugin, keys));
      var ok := store.Watch(StagingKeys(plugin, keys));
      if !ok {
        return None;
      }
      var values := GetKeys(keys);
      return Some(values);
    }

    /** Writes every entry the callback returned, in one batch. */
    method Commit(entries: seq<(string, Json)>) returns (ok: bool)
      modifies store
      ensures Outcome(store.State(), ok) == Committed(old(store.State()), plugin, entries)
    {
      var batch := store.Multi();
      for i := 0 to |entries|
        invariant fresh(batch) && batch.store == store && store.State() == old(store.State())
        invariant batch.ops == StagingWrites(plugin, entries[..i])
      {
        batch := batch.Set(StagingKey(plugin, entries[i].0), StagedJson(entries[i].1));
      }
      assert entries[..|entries|] == entries;
      ok := batch.Exec();
    }
  }

  // ---------------------------------------------------------------- one call against the others

  /** What other clients may do: every `exec` and `unwatch` clears all locks. */
  datatype Other = OtherWatch(keys: seq<string>) | OtherSet(key: string, value: Value) | OtherExec(ops: seq<Op>) | OtherUnwatch

  function Acted(s: Store, o: Other): (r: Store) {
    match o
    case OtherWatch(keys) => WatchAll(s, keys).store
    case OtherSet(key, value) => SetKey(s, key, value)
    case OtherExec(ops) => ExecBatch(s, ops).store
    case OtherUnwatch => Released(s)
  }

  function Disturbed(s: Store, others: seq<Other>): (r: Store) {
    if others == [] then s else Acted(Disturbed(s, others[..|others| - 1]), others[|others| - 1])
  }

  predicate Clears(o: Other) { o.OtherExec? || o.OtherUnwatch? }

  predicate Cleared(others: seq<Other>) { exists i :: 0 <= i < |others| && Clears(others[i]) }

  predicate Watches(o: Other, key: string) { o.OtherWatch? && key in o.keys }

  /** After the last time the locks were cleared, somebody watches the key. */
  predicate Rewatched(others: seq<Other>, key: string) {
    && others != []
    && var init, last := others[..|others| - 1], others[|others| - 1];
      !Clears(last) && (Rewatched(init, key) || (Cleared(init) && Watches(last, key)))
  }

  lemma DisturbedLast(s: Store, others: seq<Other>)
    requires others != []
    ensures var init, last := others[..|others| - 1], others[|others| - 1];
            && Disturbed(s, others) == Acted(Disturbed(s, init), last)
            && (Cleared(others) <==> Clears(last) || Cleared(init))
  {
    var init, last := others[..|others| - 1], others[|others| - 1];
    if Clears(last) {
      assert Clears(others[|others| - 1]);
    }
    if i :| 0 <= i < |init| && Clears(init[i]) {
      assert Clears(others[i]);
    }
    if i :| 0 <= i < |others| && Clears(others[i]) {
      assert i == |others| - 1 || Clears(init[i]);
    }
  }

  lemma {:induction false} WatchKeepsLocks(s: Store, keys: seq<string>)
    ensures forall k | k in s.locks :: k in WatchAll(s, keys).store.locks && WatchAll(s, keys).store.locks[k] == s.locks[k]
    ensures forall k | k in WatchAll(s, keys).store.locks && k !in s.locks ::
              k in keys && WatchAll(s, keys).store.locks[k] == ValueOf(s, k)
    decreases |keys|
  {
    if keys != [] && keys[0] !in s.locks {
      WatchKeepsLocks(LockOne(s, keys[0]), keys[1..]);
    }
  }

  lemma {:induction false} DisturbedKeepsLocks(s: Store, others: seq<Other>)
    requires !Cleared(others)
    ensures forall k | k in s.locks :: k in Disturbed(s, others).locks && Disturbed(s, others).locks[k] == s.locks[k]
  {
    if others != [] {
      var init, last := others[..|others| - 1], others[|others| - 1];
      DisturbedLast(s, others);
      DisturbedKeepsLocks(s, init);
      if last.OtherWatch? {
        WatchKeepsLocks(Disturbed(s, init), last.keys);
      }
    }
  }

  /**
   * A lock that is held stays, at its value, until some client's `exec` or `unwatch`; then it is
   * gone until somebody watches the key again.
   */
  lemma {:induction false} LockLastsUntilCleared(s: Store, others: seq<Other>, key: string)
    requires key in s.locks && !Rewatched(others, key)
    ensures key in Disturbed(s, others).locks <==> !Cleared(others)
    ensures !Cleared(others) ==> Disturbed(s, others).locks[key] == s.locks[key]
  {
    if others != [] {
      var init, last := others[..|others| - 1], others[|others| - 1];
      DisturbedLast(s, others);
      if !Clears(last) {
        LockLastsUntilCleared(s, init, key);
        if last.OtherWatch? {
          WatchKeepsLocks(Disturbed(s, init), last.keys);
        }
      }
    }
  }

  /**
   * A call begins exactly when its keys are distinct and none is locked, and then each is locked
   * under its own staging key at its value, and nothing else changes.
   */
  lemma BeginLocks(s: Store, plugin: string, keys: seq<string>)
    ensures var o := Begun(s, plugin, keys);
            && (o.ok <==> Distinct(keys) && forall i | 0 <= i < |keys| :: StagingKey(plugin, keys[i]) !in s.locks)
            && (o.ok ==>
                  && o.store.kv == s.kv && o.store.lists == s.lists
                  && (forall i | 0 <= i < |keys| ::
                        var k := StagingKey(plugin, keys[i]);
                        k in o.store.locks && o.store.locks[k] == ValueOf(s, k))
                  && forall k | k in s.locks :: k in o.store.locks && o.store.locks[k] == s.locks[k])
  {
    var names := StagingKeys(plugin, keys);
    WatchMeaning(s, names);
    StagingKeysDistinct(plugin, keys);
    assert forall i | 0 <= i < |keys| :: names[i] in names && names[i] == StagingKey(plugin, keys[i]);
  }

  lemma StagingKeysDistinct(plugin: string, keys: seq<string>)
    ensures Distinct(StagingKeys(plugin, keys)) <==> Distinct(keys)
  {
    var names := StagingKeys(plugin, keys);
    forall i, j | 0 <= i < j < |keys| ensures names[i] == names[j] <==> keys[i] == keys[j] {
      StagingKeysCollideIff(plugin, keys[i], plugin, keys[j]);
    }
  }

  /**
   * While no other client clears locks, a commit on watched keys succeeds exactly when each
   * key it writes still has the value that was passed to the callback.
   */
  lemma CommitSucceedsIffUnchanged(
      s: Store, plugin: string, keys: seq<string>, others: seq<Other>, entries: seq<(string, Json)>)
    requires Begun(s, plugin, keys).ok && !Cleared(others)
    requires forall e | e in entries :: e.0 in keys
    ensures var t := Disturbed(Begun(s, plugin, keys).store, others);
            Committed(t, plugin, entries).ok ==
            forall e | e in entries :: ValueOf(t, StagingKey(plugin, e.0)) == ValueOf(s, StagingKey(plugin, e.0))
  {
    var names := StagingKeys(plugin, keys);
    WatchMeaning(s, names);
    var t := Disturbed(Begun(s, plugin, keys).store, others);
    DisturbedKeepsLocks(Begun(s, plugin, keys).store, others);
    forall e | e in entries
      ensures Stale(t, StagingKey(plugin, e.0)) <==> ValueOf(t, StagingKey(plugin, e.0)) != ValueOf(s, StagingKey(plugin, e.0))
    {
      var i :| 0 <= i < |keys| && keys[i] == e.0;
      assert names[i] == StagingKey(plugin, e.0);
    }
    var ops := StagingWrites(plugin, entries);
    if Fresh(t, ops) {
      forall e | e in entries ensures !Stale(t, StagingKey(plugin, e.0)) {
        var i :| 0 <= i < |entries| && entries[i] == e;
        assert ops[i] in ops;
      }
    }
  }

  lemma BeginEffect(s: Store, plugin: string, name: string)
    ensures Begun(s, plugin, [name]) ==
            if StagingKey(plugin, name) in s.locks then Outcome(s, false)
            else Outcome(LockOne(s, StagingKey(plugin, name)), true)
  {
    var keys := StagingKeys(plugin, [name]);
    assert keys == [StagingKey(plugin, name)];
    assert WatchAll(LockOne(s, keys[0]), keys[1..]) == Outcome(LockOne(s, keys[0]), true);
  }

  lemma CommitEffect(s: Store, plugin: string, name: string, json: Json)
    ensures var key, o := StagingKey(plugin, name), Committed(s, plugin, [(name, json)]);
            && o.store.locks == map[]
            && o.ok == !Stale(s, key)
            && ValueOf(o.store, key) == if o.ok then Some(StagedJson(json)) else ValueOf(s, key)
  {
    var ops := StagingWrites(plugin, [(name, json)]);
    assert ops == [] + [SetOp(StagingKey(plugin, name), StagedJson(json))];
    BatchStep(s, [], ops[0]);
  }

  lemma StagingNames(plugin: string, entries: seq<(string, Json)>)
    requires forall i, j | 0 <= i < j < |entries| :: entries[i].0 != entries[j].0
    ensures DistinctKeys(StagingWrites(plugin, entries))
  {
    forall i, j | 0 <= i < j < |entries|
      ensures StagingKey(plugin, entries[i].0) != StagingKey(plugin, entries[j].0)
    {
      StagingKeysCollideIff(plugin, entries[i].0, plugin, entries[j].0);
    }
  }

  lemma CommitOkIff(s: Store, plugin: string, entries: seq<(string, Json)>)
    ensures Committed(s, plugin, entries).ok <==>
            forall i | 0 <= i < |entries| :: !Stale(s, StagingKey(plugin, entries[i].0))
  {
    var ops := StagingWrites(plugin, entries);
    if Fresh(s, ops) {
      forall i | 0 <= i < |entries| ensures !Stale(s, StagingKey(plugin, entries[i].0)) {
        assert ops[i] in ops;
      }
    }
  }

  lemma CommitWritesOne(s: Store, plugin: string, entries: seq<(string, Json)>, i: nat)
    requires forall i, j | 0 <= i < j < |entries| :: entries[i].0 != entries[j].0
    requires i < |entries|
    ensures var k := StagingKey(plugin, entries[i].0);
            ValueOf(Committed(s, plugin, entries).store, k)
            == if Stale(s, k) then ValueOf(s, k) else Some(StagedJson(entries[i].1))
  {
    var ops := StagingWrites(plugin, entries);
    StagingNames(plugin, entries);
    WritesMeaning(s, ops);
    assert ops[i] in ops;
  }

  lemma CommitKeepsOther(s: Store, plugin: string, entries: seq<(string, Json)>, k: string)
    requires forall i, j | 0 <= i < j < |entries| :: entries[i].0 != entries[j].0
    requires forall i | 0 <= i < |entries| :: k != StagingKey(plugin, entries[i].0)
    ensures ValueOf(Committed(s, plugin, entries).store, k) == ValueOf(s, k)
  {
    var ops := StagingWrites(plugin, entries);
    StagingNames(plugin, entries);
    WritesMeaning(s, ops);
  }

  /**
   * What a commit of any entries with distinct names leaves: each under its own staging key, unless
   * that is stale; every other value and all lists as they were; no lock.
   */
  lemma CommitWrites(s: Store, plugin: string, entries: seq<(string, Json)>, k: string)
    requires forall i, j | 0 <= i < j < |entries| :: entries[i].0 != entries[j].0
    ensures var t := Committed(s, plugin, entries).store;
            && t.locks == map[] && t.lists == s.lists
            && (forall i | 0 <= i < |entries| && k == StagingKey(plugin, entries[i].0) ::
                  ValueOf(t, k) == if Stale(s, k) then ValueOf(s, k) else Some(StagedJson(entries[i].1)))
            && ((forall i | 0 <= i < |entries| :: k != StagingKey(plugin, entries[i].0)) ==> ValueOf(t, k) == ValueOf(s, k))
  {
    OnlySets(s, StagingWrites(plugin, entries));
    if i :| 0 <= i < |entries| && k == StagingKey(plugin, entries[i].0) {
      CommitWritesOne(s, plugin, entries, i);
      forall j | 0 <= j < |entries| && k == StagingKey(plugin, entries[j].0) ensures j == i {
        StagingKeysCollideIff(plugin, entries[i].0, plugin, entries[j].0);
      }
    } else {
      CommitKeepsOther(s, plugin, entries, k);
    }
  }

  lemma {:induction false} OnlySets(s: Store, ops: seq<Op>)
    requires forall op | op in ops :: op.SetOp?
    ensures ListEffects(s.lists, ops) == s.lists
  {
    if ops != [] {
      var init := ops[..|ops| - 1];
      assert ops[|ops| - 1] in ops && forall op | op in init :: op in ops;
      OnlySets(s, init);
    }
  }

  /**
   * Whatever other clients do in between, a call on one key that nobody watches anew commits
   * exactly when somebody cleared the locks or the value passed to its callback is still current.
   * So an update is lost, a value overwritten that the callback never saw, exactly when the locks
   * were cleared and the value changed.
   */
  lemma CommitIffClearedOrUnchanged(s: Store, plugin: string, name: string, others: seq<Other>, json: Json)
    requires Begun(s, plugin, [name]).ok && !Rewatched(others, StagingKey(plugin, name))
    ensures var k, t := StagingKey(plugin, name), Disturbed(Begun(s, plugin, [name]).store, others);
            Committed(t, plugin, [(name, json)]).ok <==> Cleared(others) || ValueOf(t, k) == ValueOf(s, k)
  {
    BeginEffect(s, plugin, name);
    var k, begun := StagingKey(plugin, name), Begun(s, plugin, [name]).store;
    LockLastsUntilCleared(begun, others, k);
    CommitEffect(Disturbed(begun, others), plugin, name, json);
  }

  /** After the last clear, the `n`-th event locked the key, which was free. */
  predicate Retaken(s: Store, others: seq<Other>, key: string, n: nat) {
    && n < |others| && !Cleared(others[n + 1..])
    && key !in Disturbed(s, others[..n]).locks && key in Disturbed(s, others[..n + 1]).locks
  }

  lemma {:induction false} DisturbedSplit(s: Store, others: seq<Other>, n: nat)
    requires n <= |others|
    ensures Disturbed(s, others) == Disturbed(Disturbed(s, others[..n]), others[n..])
  {
    if n == |others| {
      assert others[..n] == others;
    } else {
      var init := others[..|others| - 1];
      DisturbedSplit(s, init, n);
      assert init[..n] == others[..n] && init[n..] == others[n..][..|others[n..]| - 1];
    }
  }

  lemma RetakenLock(s: Store, others: seq<Other>, key: string, n: nat)
    requires Retaken(s, others, key, n)
    ensures key in Disturbed(s, others).locks
    ensures Disturbed(s, others).locks[key] == ValueOf(Disturbed(s, others[..n]), key)
  {
    var u := Disturbed(s, others[..n]);
    DisturbedLast(s, others[..n + 1]);
    assert others[..n + 1][..n] == others[..n];
    if others[n].OtherWatch? {
      WatchKeepsLocks(u, others[n].keys);
    }
    DisturbedSplit(s, others, n + 1);
    DisturbedKeepsLocks(Disturbed(s, others[..n + 1]), others[n + 1..]);
  }

  lemma RetakenLater(s: Store, others: seq<Other>, key: string, n: nat)
    requires others != [] && !Clears(others[|others| - 1]) && Retaken(s, others[..|others| - 1], key, n)
    ensures Retaken(s, others, key, n)
  {
    var init := others[..|others| - 1];
    assert init[..n] == others[..n] && init[..n + 1] == others[..n + 1];
    assert others[n + 1..][..|others[n + 1..]| - 1] == init[n + 1..];
    DisturbedLast(s, others[n + 1..]);
  }

  lemma {:induction false} LockOrigin(s: Store, others: seq<Other>, key: string) returns (n: nat)
    requires key in Disturbed(s, others).locks
    requires Cleared(others) || key !in s.locks || Disturbed(s, others).locks[key] != s.locks[key]
    ensures Retaken(s, others, key, n)
  {
    var last := |others| - 1;
    var init := others[..last];
    DisturbedLast(s, others);
    if key !in Disturbed(s, init).locks {
      n := last;
      assert others[..last + 1] == others && others[last + 1..] == [];
    } else {
      if others[last].OtherWatch? {
        WatchKeepsLocks(Disturbed(s, init), others[last].keys);
      }
      n := LockOrigin(s, init, key);
      RetakenLater(s, others, key, n);
    }
  }

  /**
   * The same for anything at all that other clients do: without a clear the value passed to the
   * callback must be current, and where a watch took the lock anew after the last clear, the value
   * the key had then must be.
   */
  lemma CommitIff(s: Store, plugin: string, name: string, others: seq<Other>, json: Json)
    requires Begun(s, plugin, [name]).ok
    ensures var k, begun := StagingKey(plugin, name), Begun(s, plugin, [name]).store;
            var t := Disturbed(begun, others);
            Committed(t, plugin, [(name, json)]).ok <==>
              && (Cleared(others) || ValueOf(t, k) == ValueOf(s, k))
              && forall n | 0 <= n < |others| && Retaken(begun, others, k, n) ::
                   ValueOf(t, k) == ValueOf(Disturbed(begun, others[..n]), k)
  {
    BeginEffect(s, plugin, name);
    var k, begun := StagingKey(plugin, name), Begun(s, plugin, [name]).store;
    var t := Disturbed(begun, others);
    CommitEffect(t, plugin, name, json);
    forall n | 0 <= n < |others| && Retaken(begun, others, k, n)
      ensures k in t.locks && t.locks[k] == ValueOf(Disturbed(begun, others[..n]), k)
    {
      RetakenLock(begun, others, k, n);
    }
    if !Cleared(others) {
      DisturbedKeepsLocks(begun, others);
    } else if k in t.locks {
      var n := LockOrigin(begun, others, k);
    }
  }

  /** A lock left behind keeps calls on its key out until, and only until, some client clears the locks. */
  lemma AbandonedUntilCleared(s: Store, plugin: string, name: string, others: seq<Other>)
    requires StagingKey(plugin, name) in s.locks && !Rewatched(others, StagingKey(plugin, name))
    ensures Begun(Disturbed(s, others), plugin, [name]).ok <==> Cleared(others)
  {
    LockLastsUntilCleared(s, others, StagingKey(plugin, name));
    BeginEffect(Disturbed(s, others), plugin, name);
  }

  // ---------------------------------------------------------------- a shared counter

  // The dummy plugin counts events under one staging key, from any number of listeners.

  /** A listener inside `withKey` holds the value its callback was given. */
  datatype Client = Idle | Holding(seen: Option<Value>)

  datatype Shared = Shared(plugin: string, name: string, store: Store, clients: seq<Client>, returned: seq<int>)

  datatype CounterEvent = BeginCall(c: nat) | CommitCall(c: nat) | CallbackThrows(c: nat)

  function CounterKey(s: Shared): (r: string) { StagingKey(s.plugin, s.name) }

  function Current(s: Shared): (r: Option<Value>) { ValueOf(s.store, CounterKey(s)) }

  /** The callback's `counter ? counter : 0`. */
  function Count(v: Option<Value>): (r: int) {
    match v
    case Some(StagedJson(Num(n))) => n
    case _ => 0
  }

  predicate CounterEnabled(s: Shared, e: CounterEvent) {
    e.c < |s.clients| && (e.BeginCall? <==> s.clients[e.c].Idle?)
  }

  function CounterStep(s: Shared, e: CounterEvent): (r: Shared)
    requires CounterEnabled(s, e)
  {
    match e
    case BeginCall(c) =>
      var o := Begun(s.store, s.plugin, [s.name]);
      s.(store := o.store, clients := if o.ok then s.clients[c := Holding(Current(s))] else s.clients)
    case CommitCall(c) =>
      var next := Count(s.clients[c].seen) + 1;
      var o := Committed(s.store, s.plugin, [(s.name, Num(next))]);
      s.(store := o.store, clients := s.clients[c := Idle], returned := if o.ok then s.returned + [next] else s.returned)
    case CallbackThrows(c) =>
      s.(clients := s.clients[c := Idle])
  }

  predicate CounterLegal(s: Shared, es: seq<CounterEvent>)
    decreases |es|
  {
    es == [] || (CounterEnabled(s, es[0]) && CounterLegal(CounterStep(s, es[0]), es[1..]))
  }

  function CounterAfter(s: Shared, es: seq<CounterEvent>): (r: Shared)
    requires CounterLegal(s, es)
    decreases |es|
  {
    if es == [] then s else CounterAfter(CounterStep(s, es[0]), es[1..])
  }

  predicate AllIdle(s: Shared) { forall c | 0 <= c < |s.clients| :: s.clients[c].Idle? }

  predicate IsCount(v: Option<Value>) {
    v.None? || (v.value.StagedJson? && v.value.json.Num?)
  }

  /** The counter is ahead of `start` by the number of successes, which returned consecutive numbers. */
  predicate Counted(s: Shared, start: int) {
    && IsCount(Current(s))
    && Count(Current(s)) == start + |s.returned|
    && forall i | 0 <= i < |s.returned| :: s.returned[i] == start + i + 1
  }

  /** At most one call is past its watch; it holds the lock, and the value it saw is current. */
  predicate OneHolder(s: Shared) {
    && (forall c | 0 <= c < |s.clients| && s.clients[c].Holding? ::
          && s.clients[c].seen == Current(s)
          && CounterKey(s) in s.store.locks
          && s.store.locks[CounterKey(s)] == Current(s))
    && (forall c, d | 0 <= c < d < |s.clients| :: s.clients[c].Idle? || s.clients[d].Idle?)
  }

  predicate CounterInv(s: Shared, start: int) { Counted(s, start) && OneHolder(s) }

  lemma CounterStepInv(s: Shared, e: CounterEvent, start: int)
    requires CounterInv(s, start) && CounterEnabled(s, e)
    ensures CounterInv(CounterStep(s, e), start)
  {
    match e
    case BeginCall(c) =>
      BeginEffect(s.store, s.plugin, s.name);
    case CommitCall(c) =>
      CommitEffect(s.store, s.plugin, s.name, Num(Count(s.clients[c].seen) + 1));
    case CallbackThrows(c) =>
  }

  /**
   * Clients that use only this key, however they interleave and fail: the counter has gone
   * up by the number of successful calls, whose results are consecutive.
   */
  lemma {:induction false} NoLostUpdate(s: Shared, es: seq<CounterEvent>, start: int)
    requires CounterInv(s, start) && CounterLegal(s, es)
    ensures CounterInv(CounterAfter(s, es), start)
    decreases |es|
  {
    if es != [] {
      CounterStepInv(s, es[0], start);
      NoLostUpdate(CounterStep(s, es[0]), es[1..], start);
    }
  }

  /** The same from the start of a run: n calls succeeded, and they returned start+1 to start+n. */
  lemma CounterCountsSuccesses(s: Shared, es: seq<CounterEvent>)
    requires AllIdle(s) && s.returned == [] && IsCount(Current(s))
    requires CounterLegal(s, es)
    ensures var start, t := Count(Current(s)), CounterAfter(s, es);
            && Count(Current(t)) == start + |t.returned|
            && Distinct(t.returned)
            && forall i | 0 <= i < |t.returned| :: t.returned[i] == start + i + 1
  {
    NoLostUpdate(s, es, Count(Current(s)));
  }

  /**
   * A callback that throws leaves its lock behind. Clients of this key alone never clear it, so
   * among them no call succeeds again.
   */
  lemma {:induction false} AbandonedLockBlocks(s: Shared, es: seq<CounterEvent>)
    requires AllIdle(s) && CounterKey(s) in s.store.locks && CounterLegal(s, es)
    ensures CounterAfter(s, es) == s
    decreases |es|
  {
    if es != [] {
      BeginEffect(s.store, s.plugin, s.name);
      assert CounterStep(s, es[0]) == s;
      AbandonedLockBlocks(s, es[1..]);
    }
  }

  /**
   * The counter does need its store to itself: a workflow delivered while one call waits for
   * its callback clears the lock, and two successful calls then count once.
   */
  lemma DeliveryLosesUpdate(s: Store, plugin: string, name: string, w: Workflow, now: int)
    requires StagingKey(plugin, name) !in s.locks && WorkflowKey(w) !in s.locks && GoodPluginName(w.pluginName)
    ensures var key := StagingKey(plugin, name);
            var n := Count(ValueOf(s, key));
            var first := Begun(s, plugin, [name]);
            var delivered := Added(first.store, w, now);
            var second := Begun(delivered.store, plugin, [name]);
            var commit2 := Committed(second.store, plugin, [(name, Num(Count(ValueOf(second.store, key)) + 1))]);
            var commit1 := Committed(commit2.store, plugin, [(name, Num(n + 1))]);
            && first.ok && delivered.ok && second.ok && commit2.ok && commit1.ok
            && Count(ValueOf(commit1.store, key)) == n + 1
  {
    var key := StagingKey(plugin, name);
    var n := Count(ValueOf(s, key));
    StagingKeyIsStaging(plugin, name);
    WorkflowKeyNotStaging(w.pluginName, w.id);
    BeginEffect(s, plugin, name);
    var delivered := Added(LockOne(s, key), w, now);
    assert delivered.ok && delivered.store.locks == map[] && ValueOf(delivered.store, key) == ValueOf(s, key);
    BeginEffect(delivered.store, plugin, name);
    var second := LockOne(delivered.store, key);
    CommitEffect(second, plugin, name, Num(n + 1));
    CommitEffect(Committed(second, plugin, [(name, Num(n + 1))]).store, plugin, name, Num(n + 1));
  }
}
