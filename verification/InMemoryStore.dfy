/**
 * The in-memory stand-in for Redis (lib/relayer-engine/src/storage/inMemoryStore.ts):
 * a key-value map, named lists, and the locks left by `watch`. `Store` is the value of
 * an `InMemory` object; every method is proved against a function on `Store`.
 */
module InMemoryStore {
  import opened Lists

  /** A plain JSON value, as plugins keep in their staging area. */
  datatype Json = Num(n: int) | Str(s: string) | Arr(items: seq<Json>) | Obj(fields: map<string, Json>)

  datatype Workflow = Workflow(id: string, pluginName: string, data: Json, scheduledAt: Option<int>)

  /**
   * What a key holds. The JSON encoding is abstract: it is injective, never the empty
   * string, and never the complete mark.
   */
  datatype Value = Text(text: string) | WorkflowJson(workflow: Workflow) | StagedJson(json: Json)

  datatype Store = Store(
    locks: map<string, Option<Value>>,
    kv: map<string, Value>,
    lists: map<string, seq<string>>)

  /** A store after a call, and whether the call returned rather than threw. */
  datatype Outcome = Outcome(store: Store, ok: bool)

  datatype Direction = LEFT | RIGHT

  /** The operations a batch may hold. */
  datatype Op =
    | PushOp(list: string, element: string)
    | RemOp(list: string, count: int, element: string)
    | SetOp(key: string, value: Value)

  // ---------------------------------------------------------------- reading

  /** The empty string is falsy, so it reads as an absent key. */
  function ValueOf(s: Store, key: string): (r: Option<Value>) {
    if key in s.kv && s.kv[key] != Text("") then Some(s.kv[key]) else None
  }

  function ListOf(s: Store, name: string): (r: seq<string>) { Contents(s.lists, name) }

  /** A missing list reads as an empty one. */
  function Contents(lists: map<string, seq<string>>, name: string): (r: seq<string>) {
    if name in lists then lists[name] else []
  }

  // ---------------------------------------------------------------- watch

  /** The store after `watch` has locked one key. */
  function LockOne(s: Store, key: string): (r: Store) {
    s.(locks := s.locks[key := ValueOf(s, key)])
  }

  /** `watch` locks the keys one at a time and throws at the first that is locked. */
  function WatchAll(s: Store, keys: seq<string>): (r: Outcome)
    decreases |keys|
  {
    if keys == [] then Outcome(s, true)
    else if keys[0] in s.locks then Outcome(s, false)
    else WatchAll(LockOne(s, keys[0]), keys[1..])
  }

  /** The store in which each of `keys` is locked at the value it has in `s`. */
  function Locked(s: Store, keys: seq<string>): (r: Store) {
    s.(locks := s.locks + Readings(s, keys))
  }

  function Readings(s: Store, keys: seq<string>): (r: map<string, Option<Value>>)
    ensures forall k :: k in r <==> k in keys
    ensures forall k | k in keys :: r[k] == ValueOf(s, k)
  {
    map k | k in keys :: ValueOf(s, k)
  }

  /** The keys can be watched together: they are distinct and none is locked yet. */
  predicate Watchable(s: Store, keys: seq<string>) {
    Distinct(keys) && forall k | k in keys :: k !in s.locks
  }

  lemma WatchableTail(s: Store, keys: seq<string>)
    requires keys != [] && keys[0] !in s.locks
    ensures Watchable(s, keys) <==> Watchable(LockOne(s, keys[0]), keys[1..])
  {
    var key, rest := keys[0], keys[1..];
    DistinctTail(keys);
    assert keys == [key] + rest;
  }

  lemma LockedTail(s: Store, keys: seq<string>)
    requires keys != []
    ensures Locked(s, keys) == Locked(LockOne(s, keys[0]), keys[1..])
  {
    var t, rest := LockOne(s, keys[0]), keys[1..];
    var a, b := Readings(s, keys), Readings(t, rest);
    forall k ensures k in keys <==> k == keys[0] || k in rest {
      assert keys == [keys[0]] + rest;
    }
    ReadingsAgree(s, t, keys, rest);
    assert s.locks + a == s.locks[keys[0] := ValueOf(s, keys[0])] + b;
  }

  lemma ReadingsAgree(s: Store, t: Store, keys: seq<string>, rest: seq<string>)
    requires s.kv == t.kv && forall k | k in rest :: k in keys
    ensures forall k | k in rest :: Readings(t, rest)[k] == Readings(s, keys)[k]
  {
  }

  /** A watch succeeds exactly when its keys are watchable, and then locks each at its value. */
  lemma {:induction false} WatchMeaning(s: Store, keys: seq<string>)
    ensures WatchAll(s, keys).ok <==> Watchable(s, keys)
    ensures WatchAll(s, keys).ok ==> WatchAll(s, keys).store == Locked(s, keys)
    decreases |keys|
  {
    if keys == [] {
      assert Locked(s, keys).locks == s.locks;
    } else if keys[0] in s.locks {
      assert keys[0] in keys;
    } else {
      WatchMeaning(LockOne(s, keys[0]), keys[1..]);
      WatchableTail(s, keys);
      LockedTail(s, keys);
    }
  }

  /** A watch that throws at the n-th key leaves the keys before it locked. */
  lemma {:induction false} WatchFailure(s: Store, keys: seq<string>) returns (n: nat)
    requires !WatchAll(s, keys).ok
    ensures n < |keys| && Watchable(s, keys[..n]) && !Watchable(s, keys[..n + 1])
    ensures WatchAll(s, keys).store == Locked(s, keys[..n])
    decreases |keys|
  {
    if keys[0] in s.locks {
      n := 0;
      assert Locked(s, keys[..0]).locks == s.locks;
      assert keys[0] in keys[..1];
    } else {
      var rest := keys[1..];
      var m := WatchFailure(LockOne(s, keys[0]), rest);
      n := m + 1;
      WatchableSlices(s, keys, m);
    }
  }

  lemma WatchableSlices(s: Store, keys: seq<string>, m: nat)
    requires m + 1 < |keys| && keys[0] !in s.locks
    ensures Watchable(s, keys[..m + 1]) <==> Watchable(LockOne(s, keys[0]), keys[1..][..m])
    ensures Watchable(s, keys[..m + 2]) <==> Watchable(LockOne(s, keys[0]), keys[1..][..m + 1])
    ensures Locked(s, keys[..m + 1]) == Locked(LockOne(s, keys[0]), keys[1..][..m])
  {
    assert keys[..m + 1][1..] == keys[1..][..m];
    assert keys[..m + 2][1..] == keys[1..][..m + 1];
    WatchableTail(s, keys[..m + 1]);
    WatchableTail(s, keys[..m + 2]);
    LockedTail(s, keys[..m + 1]);
  }

  // ---------------------------------------------------------------- lists

  /**
   * `xs` without its first `budget` occurrences of `x`; a negative budget never runs out.
   */
  function RemoveMatches(xs: seq<string>, x: string, budget: int): (r: seq<string>) {
    if xs == [] then []
    else if xs[0] == x && budget != 0 then RemoveMatches(xs[1..], x, budget - 1)
    else [xs[0]] + RemoveMatches(xs[1..], x, budget)
  }

  /** A count of 0 asks for every occurrence. */
  function Budget(count: int): int { if count == 0 then -1 else count }

  function Removed(lists: map<string, seq<string>>, name: string, count: int, x: string): (r: map<string, seq<string>>) {
    if name in lists then lists[name := Reverse(RemoveMatches(lists[name], x, Budget(count)))] else lists
  }

  lemma {:induction false} RemoveAllMatches(xs: seq<string>, x: string, budget: int)
    requires budget < 0
    ensures RemoveMatches(xs, x, budget) == Without(xs, x)
  {
    if xs != [] {
      RemoveAllMatches(xs[1..], x, if xs[0] == x then budget - 1 else budget);
    }
  }

  /**
   * For a positive count, the removed elements are the first matches: up to some position
   * every match goes, and from there on nothing does.
   */
  lemma {:induction false} RemoveFirstMatches(xs: seq<string>, x: string, count: nat) returns (n: nat)
    ensures n <= |xs| && RemoveMatches(xs, x, count) == Without(xs[..n], x) + xs[n..]
    ensures Occurrences(xs[..n], x) <= count
    ensures n < |xs| ==> Occurrences(xs[..n], x) == count
  {
    if xs == [] {
      n := 0;
    } else if count == 0 {
      n := 0;
      RemoveNoMatches(xs, x);
    } else {
      var m := RemoveFirstMatches(xs[1..], x, if xs[0] == x then count - 1 else count);
      n := m + 1;
      assert xs[..n] == [xs[0]] + xs[1..][..m];
      assert xs[n..] == xs[1..][m..];
    }
  }

  lemma RemoveNoMatches(xs: seq<string>, x: string)
    ensures RemoveMatches(xs, x, 0) == xs
  {
    if xs != [] {
      RemoveNoMatches(xs[1..], x);
    }
  }

  /** `lRem` with a positive count: that many matches go from the front, and the rest is reversed. */
  lemma RemovedFirst(lists: map<string, seq<string>>, name: string, count: nat, x: string) returns (n: nat)
    requires name in lists && count > 0
    ensures n <= |lists[name]|
    ensures Removed(lists, name, count, x) == lists[name := Reverse(Without(lists[name][..n], x) + lists[name][n..])]
    ensures Occurrences(lists[name][..n], x) <= count
    ensures n < |lists[name]| ==> Occurrences(lists[name][..n], x) == count
  {
    n := RemoveFirstMatches(lists[name], x, count);
  }

  /** With count 0, or less, every match goes; a missing list is left missing. */
  lemma RemovedAll(lists: map<string, seq<string>>, name: string, count: int, x: string)
    ensures name !in lists ==> Removed(lists, name, count, x) == lists
    ensures name in lists && count <= 0 ==> Removed(lists, name, count, x) == lists[name := Reverse(Without(lists[name], x))]
  {
    if name in lists && count <= 0 {
      RemoveAllMatches(lists[name], x, if count == 0 then -1 else count);
    }
  }

  /** Four pushes and a removal of two: of "one", "one", "two", "one" the last two stay, reversed. */
  lemma RemovalOfTwo(lists: map<string, seq<string>>, name: string)
    requires name !in lists
    ensures var pushed := Pushed(Pushed(Pushed(Pushed(lists, name, "one"), name, "two"), name, "one"), name, "one");
            && pushed[name] == ["one", "one", "two", "one"]
            && Removed(pushed, name, 2, "one")[name] == ["one", "two"]
  {
    var xs := ["one", "one", "two", "one"];
    assert xs[1..] == ["one", "two", "one"] && xs[1..][1..] == ["two", "one"];
    RemoveNoMatches(["two", "one"], "one");
    assert Reverse(["two", "one"]) == ["one", "two"];
  }

  function Pushed(lists: map<string, seq<string>>, name: string, x: string): (r: map<string, seq<string>>) {
    lists[name := [x] + Contents(lists, name)]
  }

  function SetKey(s: Store, key: string, value: Value): (r: Store) {
    s.(kv := s.kv[key := value])
  }

  function Released(s: Store): (r: Store) { s.(locks := map[]) }

  /** The moved element, or None when the source is empty or holds the empty string there. */
  function Moved(s: Store, source: string, destination: string, from: Direction, to: Direction): (r: (Store, Option<string>)) {
    var xs := ListOf(s, source);
    if xs == [] then (s, None)
    else
      var (item, rest) := if from == LEFT then (xs[0], xs[1..]) else (xs[|xs| - 1], xs[..|xs| - 1]);
      var taken := s.(lists := s.lists[source := rest]);
      if item == "" then (taken, None)
      else
        var ys := ListOf(taken, destination);
        (taken.(lists := taken.lists[destination := if to == LEFT then [item] + ys else ys + [item]]), Some(item))
  }

  /**
   * A move takes the element at one end of the source, and puts it at one end of what the destination
   * then holds, which may be the source itself; no other list, value or lock changes.
   */
  lemma MoveMeaning(s: Store, source: string, destination: string, from: Direction, to: Direction)
    returns (item: string, rest: seq<string>)
    requires ListOf(s, source) != []
    ensures ListOf(s, source) == if from == LEFT then [item] + rest else rest + [item]
    ensures var (t, r) := Moved(s, source, destination, from, to);
            && t.kv == s.kv && t.locks == s.locks
            && (item == "" ==> r == None && t.lists == s.lists[source := rest])
            && (item != "" ==>
                  && r == Some(item)
                  && (source != destination ==> ListOf(t, source) == rest)
                  && var ys := if source == destination then rest else ListOf(s, destination);
                    ListOf(t, destination) == if to == LEFT then [item] + ys else ys + [item])
            && forall other | other != source && other != destination :: ListOf(t, other) == ListOf(s, other)
  {
    var xs := ListOf(s, source);
    item, rest := if from == LEFT then xs[0] else xs[|xs| - 1], if from == LEFT then xs[1..] else xs[..|xs| - 1];
  }

  /** A key reads as what was last written to it, except that the empty string reads as absent. */
  lemma WriteThenRead(s: Store, key: string, value: Value, other: string)
    ensures ValueOf(SetKey(s, key, value), key) == if value == Text("") then None else Some(value)
    ensures other != key ==> ValueOf(SetKey(s, key, value), other) == ValueOf(s, other)
    ensures SetKey(s, key, value).lists == s.lists && SetKey(s, key, value).locks == s.locks
    ensures key !in s.kv ==> ValueOf(s, key) == None
  {
  }

  // ---------------------------------------------------------------- batches

  /** The key was watched and no longer has the value it had then. */
  predicate Stale(s: Store, key: string) {
    key in s.locks && s.locks[key] != ValueOf(s, key)
  }

  /** The list operations of a batch, in order. */
  function ListEffects(lists: map<string, seq<string>>, ops: seq<Op>): (r: map<string, seq<string>>) {
    if ops == [] then lists
    else
      var before := ListEffects(lists, ops[..|ops| - 1]);
      match ops[|ops| - 1]
      case PushOp(list, x) => Pushed(before, list, x)
      case RemOp(list, count, x) => Removed(before, list, count, x)
      case SetOp(_, _) => before
  }

  /** The writes of a batch whose key is not stale in `s`, in order. */
  function Writes(s: Store, ops: seq<Op>): (r: map<string, Value>) {
    if ops == [] then s.kv
    else
      var m := Writes(s, ops[..|ops| - 1]);
      match ops[|ops| - 1]
      case SetOp(key, value) => if Stale(s, key) then m else m[key := value]
      case _ => m
  }

  /** No `set` of the batch is on a stale key. */
  predicate Fresh(s: Store, ops: seq<Op>) {
    forall op | op in ops :: op.SetOp? ==> !Stale(s, op.key)
  }

  /**
   * What a batch does: all its list operations, its writes to keys unchanged since they
   * were watched, and no lock left; it throws exactly when a write was skipped.
   */
  function ExecBatch(s: Store, ops: seq<Op>): (r: Outcome) {
    Outcome(Store(map[], Writes(s, ops), ListEffects(s.lists, ops)), Fresh(s, ops))
  }

  /** A batch grows by one operation at a time. */
  lemma BatchStep(s: Store, ops: seq<Op>, op: Op)
    ensures ListEffects(s.lists, ops + [op]) == match op
              case PushOp(list, x) => Pushed(ListEffects(s.lists, ops), list, x)
              case RemOp(list, count, x) => Removed(ListEffects(s.lists, ops), list, count, x)
              case SetOp(_, _) => ListEffects(s.lists, ops)
    ensures Writes(s, ops + [op]) ==
            if op.SetOp? && !Stale(s, op.key) then Writes(s, ops)[op.key := op.value] else Writes(s, ops)
    ensures Fresh(s, ops + [op]) <==> Fresh(s, ops) && (op.SetOp? ==> !Stale(s, op.key))
  {
    assert (ops + [op])[..|ops + [op]| - 1] == ops;
  }

  /**
   * What each further operation adds to the outcome of a batch. List operations act whether or not a
   * write of the batch is refused; a write is refused, and makes the batch throw, exactly when its key
   * is locked at another value than it had when the batch began.
   */
  lemma ExecGrows(s: Store, ops: seq<Op>, op: Op)
    ensures ExecBatch(s, []) == Outcome(Store(map[], s.kv, s.lists), true)
    ensures var o, p := ExecBatch(s, ops), ExecBatch(s, ops + [op]);
            && p.store.locks == map[]
            && match op
               case PushOp(list, x) =>
                 && p.ok == o.ok && p.store.kv == o.store.kv
                 && p.store.lists == o.store.lists[list := [x] + Contents(o.store.lists, list)]
               case RemOp(list, count, x) =>
                 && p.ok == o.ok && p.store.kv == o.store.kv
                 && p.store.lists == Removed(o.store.lists, list, count, x)
               case SetOp(key, value) =>
                 && p.store.lists == o.store.lists
                 && (if key in s.locks && s.locks[key] != ValueOf(s, key) then !p.ok && p.store.kv == o.store.kv
                     else p.ok == o.ok && p.store.kv == o.store.kv[key := value])
  {
    BatchStep(s, ops, op);
  }

  /** No key is set twice by the batch. */
  predicate DistinctKeys(ops: seq<Op>) {
    forall i, j :: 0 <= i < j < |ops| && ops[i].SetOp? && ops[j].SetOp? ==> ops[i].key != ops[j].key
  }

  /** With distinct keys, each key ends with its own write if that was fresh, else as it was. */
  lemma {:induction false} WritesMeaning(s: Store, ops: seq<Op>)
    requires DistinctKeys(ops)
    ensures forall op | op in ops && op.SetOp? && !Stale(s, op.key) ::
              op.key in Writes(s, ops) && Writes(s, ops)[op.key] == op.value
    ensures forall k | Stale(s, k) || (forall op | op in ops && op.SetOp? :: op.key != k) ::
              (k in Writes(s, ops) <==> k in s.kv) && (k in s.kv ==> Writes(s, ops)[k] == s.kv[k])
  {
    if ops != [] {
      var init, last := ops[..|ops| - 1], ops[|ops| - 1];
      assert ops == init + [last];
      WritesMeaning(s, init);
      forall op | op in init && op.SetOp? && last.SetOp? ensures op.key != last.key {
        var i :| 0 <= i < |init| && init[i] == op;
        assert ops[i] == op && ops[|ops| - 1] == last;
      }
    }
  }

  // How `exec` reaches that: a `set` on a locked key reads at once but acts only after every
  // operation has been started.

  function Immediate(s: Store, ops: seq<Op>): (r: map<string, Value>) {
    if ops == [] then s.kv
    else
      var m := Immediate(s, ops[..|ops| - 1]);
      match ops[|ops| - 1]
      case SetOp(key, value) => if key in s.locks then m else m[key := value]
      case _ => m
  }

  function Deferred(s: Store, ops: seq<Op>): (r: seq<(string, Value)>) {
    if ops == [] then []
    else
      var last := ops[|ops| - 1];
      Deferred(s, ops[..|ops| - 1]) + if last.SetOp? && last.key in s.locks then [(last.key, last.value)] else []
  }

  /** Each deferred write, with whether its key was fresh when it was started. */
  predicate Waits(s: Store, ds: seq<(string, Value)>, waiting: seq<(string, Value, bool)>) {
    && |waiting| == |ds|
    && forall j | 0 <= j < |ds| :: (waiting[j].0, waiting[j].1) == ds[j] && waiting[j].2 == !Stale(s, ds[j].0)
  }

  function Resume(s: Store, m: map<string, Value>, ds: seq<(string, Value)>): (r: map<string, Value>) {
    if ds == [] then m
    else
      var n := Resume(s, m, ds[..|ds| - 1]);
      var (key, value) := ds[|ds| - 1];
      if Stale(s, key) then n else n[key := value]
  }

  lemma {:induction false} DeferredLocked(s: Store, ops: seq<Op>)
    ensures forall d | d in Deferred(s, ops) :: d.0 in s.locks
    ensures Fresh(s, ops) <==> forall d | d in Deferred(s, ops) :: !Stale(s, d.0)
  {
    if ops != [] {
      DeferredLocked(s, ops[..|ops| - 1]);
      assert ops == ops[..|ops| - 1] + [ops[|ops| - 1]];
      assert Fresh(s, ops) <==> Fresh(s, ops[..|ops| - 1]) && Fresh(s, [ops[|ops| - 1]]);
    }
  }

  lemma {:induction false} ResumeCommutes(s: Store, m: map<string, Value>, ds: seq<(string, Value)>, key: string, value: Value)
    requires forall d | d in ds :: d.0 != key
    ensures Resume(s, m[key := value], ds) == Resume(s, m, ds)[key := value]
  {
    if ds != [] {
      ResumeCommutes(s, m, ds[..|ds| - 1], key, value);
    }
  }

  lemma ResumeLast(s: Store, m: map<string, Value>, ds: seq<(string, Value)>, d: (string, Value))
    ensures Resume(s, m, ds + [d]) == if Stale(s, d.0) then Resume(s, m, ds) else Resume(s, m, ds)[d.0 := d.1]
  {
    assert (ds + [d])[..|ds + [d]| - 1] == ds;
  }

  lemma {:induction false} ResumedWrites(s: Store, ops: seq<Op>)
    ensures Resume(s, Immediate(s, ops), Deferred(s, ops)) == Writes(s, ops)
  {
    if ops != [] {
      var init, last := ops[..|ops| - 1], ops[|ops| - 1];
      var m, ds := Immediate(s, init), Deferred(s, init);
      ResumedWrites(s, init);
      if !last.SetOp? {
        assert Deferred(s, ops) == ds;
      } else if last.key in s.locks {
        ResumeLast(s, m, ds, (last.key, last.value));
      } else {
        assert Deferred(s, ops) == ds;
        DeferredLocked(s, init);
        ResumeCommutes(s, m, ds, last.key, last.value);
      }
    }
  }

  // ---------------------------------------------------------------- the objects

  class InMemory {
    var locks: map<string, Option<Value>>
    var kv: map<string, Value>
    var lists: map<string, seq<string>>

    function State(): (s: Store)
      reads this
    {
      Store(locks, kv, lists)
    }

    constructor ()
      ensures State() == Store(map[], map[], map[])
    {
      locks, kv, lists := map[], map[], map[];
    }

    method Watch(keys: seq<string>) returns (ok: bool)
      modifies this
      ensures Outcome(State(), ok) == WatchAll(old(State()), keys)
    {
      for i := 0 to |keys|
        invariant WatchAll(State(), keys[i..]) == WatchAll(old(State()), keys)
      {
        var val := Get(keys[i]);
        if keys[i] in locks {
          return false;
        }
        locks := locks[keys[i] := val];
      }
      return true;
    }

    method Get(key: string) returns (r: Option<Value>)
      ensures r == ValueOf(State(), key)
    {
      r := if key in kv && kv[key] != Text("") then Some(kv[key]) else None;
    }

    method Set(key: string, value: Value)
      modifies this
      ensures State() == SetKey(old(State()), key, value)
    {
      kv := kv[key := value];
    }

    method Unwatch()
      modifies this
      ensures State() == Released(old(State()))
    {
      locks := map[];
    }

    method LPush(name: string, x: string) returns (n: nat)
      modifies this
      ensures State() == old(State()).(lists := Pushed(old(lists), name, x)) && n == |ListOf(State(), name)|
    {
      if name !in lists {
        lists := lists[name := []];
      }
      lists := lists[name := [x] + lists[name]];
      n := |lists[name]|;
    }

    method LLen(name: string) returns (n: nat)
      ensures n == |ListOf(State(), name)|
    {
      n := if name in lists then |lists[name]| else 0;
    }

    /** Rebuilds the list by inserting each kept element at the front. */
    method LRem(name: string, count: int, x: string) returns (removed: nat)
      modifies this
      ensures State() == old(State()).(lists := Removed(old(lists), name, count, x))
      ensures removed == |ListOf(old(State()), name)| - |ListOf(State(), name)|
    {
      var limit := if count == 0 then None else Some(count);
      if name !in lists {
        return 0;
      }
      var elements := lists[name];
      var kept: seq<string> := [];
      removed := 0;
      for i := 0 to |elements|
        invariant Reverse(RemoveMatches(elements, x, Budget(count)))
               == Reverse(RemoveMatches(elements[i..], x, Budget(count) - removed)) + kept
        invariant count > 0 ==> removed <= count
        invariant removed == i - |kept|
      {
        if elements[i] != x || limit == Some(removed) {
          kept := [elements[i]] + kept;
        } else {
          removed := removed + 1;
        }
      }
      assert elements[|elements|..] == [] && [] + kept == kept;
      lists := lists[name := kept];
    }

    method BlMove(source: string, destination: string, from: Direction, to: Direction) returns (r: Option<string>)
      modifies this
      ensures (State(), r) == Moved(old(State()), source, destination, from, to)
    {
      if source !in lists || lists[source] == [] {
        return None;
      }
      var xs := lists[source];
      var item;
      if from == LEFT {
        item := xs[0];
        lists := lists[source := xs[1..]];
      } else {
        item := xs[|xs| - 1];
        lists := lists[source := xs[..|xs| - 1]];
      }
      if item == "" {
        return None;
      }
      var ys := if destination in lists then lists[destination] else [];
      lists := lists[destination := if to == LEFT then [item] + ys else ys + [item]];
      return Some(item);
    }

    method Multi() returns (m: InMemoryMulti)
      ensures fresh(m) && m.store == this && m.ops == []
    {
      m := new InMemoryMulti(this, []);
    }
  }

  /** A batch under construction. Its fields are constant: each builder call makes a new batch. */
  class InMemoryMulti {
    const store: InMemory
    const ops: seq<Op>

    constructor (store: InMemory, ops: seq<Op>)
      ensures this.store == store && this.ops == ops
    {
      this.store := store;
      this.ops := ops;
    }

    method LPush(list: string, element: string) returns (m: InMemoryMulti)
      ensures fresh(m) && m.store == store && m.ops == ops + [PushOp(list, element)]
    {
      m := new InMemoryMulti(store, ops + [PushOp(list, element)]);
    }

    method LRem(list: string, count: int, element: string) returns (m: InMemoryMulti)
      ensures fresh(m) && m.store == store && m.ops == ops + [RemOp(list, count, element)]
    {
      m := new InMemoryMulti(store, ops + [RemOp(list, count, element)]);
    }

    method Set(key: string, value: Value) returns (m: InMemoryMulti)
      ensures fresh(m) && m.store == store && m.ops == ops + [SetOp(key, value)]
    {
      m := new InMemoryMulti(store, ops + [SetOp(key, value)]);
    }

    /** Starts every operation in order; a `set` on a locked key only reads, and is left waiting. */
    method Start() returns (waiting: seq<(string, Value, bool)>)
      modifies store
      ensures store.locks == old(store.locks)
      ensures store.lists == ListEffects(old(store.lists), ops)
      ensures store.kv == Immediate(old(store.State()), ops)
      ensures Waits(old(store.State()), Deferred(old(store.State()), ops), waiting)
    {
      ghost var s := store.State();
      waiting := [];
      for i := 0 to |ops|
        invariant store.locks == s.locks
        invariant store.lists == ListEffects(s.lists, ops[..i])
        invariant store.kv == Immediate(s, ops[..i])
        invariant Waits(s, Deferred(s, ops[..i]), waiting)
        invariant forall k | k in s.locks :: ValueOf(store.State(), k) == ValueOf(s, k)
      {
        assert ops[..i + 1][..i] == ops[..i];
        match ops[i]
        case PushOp(list, x) =>
          var _ := store.LPush(list, x);
        case RemOp(list, count, x) =>
          var _ := store.LRem(list, count, x);
        case SetOp(key, value) =>
          if key in store.locks {
            var now := store.Get(key);
            waiting := waiting + [(key, value, store.locks[key] == now)];
          } else {
            store.Set(key, value);
          }
      }
      assert ops[..|ops|] == ops;
    }

    /** Every operation is started, then the waiting writes act in order, then all locks go. */
    method Exec() returns (ok: bool)
      modifies store
      ensures Outcome(store.State(), ok) == ExecBatch(old(store.State()), ops)
    {
      ghost var s := store.State();
      ghost var ds := Deferred(s, ops);
      var waiting := Start();
      ghost var m := store.kv;
      ok := true;
      for j := 0 to |waiting|
        invariant store.lists == ListEffects(s.lists, ops)
        invariant store.kv == Resume(s, m, ds[..j])
        invariant ok <==> forall i | 0 <= i < j :: waiting[i].2
      {
        assert ds[..j + 1][..j] == ds[..j];
        if waiting[j].2 {
          store.Set(waiting[j].0, waiting[j].1);
        } else {
          ok := false;
        }
      }
      assert ds[..|waiting|] == ds;
      ResumedWrites(s, ops);
      DeferredLocked(s, ops);
      assert ok <==> forall d | d in ds :: !Stale(s, d.0);
      store.Unwatch();
    }
  }
}
