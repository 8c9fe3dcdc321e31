/**
 * The relayer with a retrying wrapper in every process: the runs of Relayer joined with the backlogs
 * of lib/relayer-engine/src/storage/redisStore.ts. A write is pushed on its process's backlog, and
 * each attempt at the head of a backlog is an event of its own, whose request or reply may be lost.
 */
module Fleet {
  import opened Lists
  import opened InMemoryStore
  import opened WorkflowStorage
  import opened Relayer
  import opened RelayerRuns
  import opened Backlog
  import opened RetryingStorage

  /** A pushed operation, and for a completion the execution that waits for it. */
  datatype Entry = Entry(op: WriteOp, waiter: Option<nat>)

  /** Process p of `sys` has backlog p; further backlogs belong to processes that only listen. */
  datatype Fleet = Fleet(sys: Sys, backlogs: seq<seq<Entry>>)

  datatype FleetEvent =
    | Other(e: Event)                                 // an event that writes nothing through the wrapper
    | PushAdd(b: nat, w: Workflow)
    | PushComplete(p: nat, id: nat)
    | ReturnEarly(p: nat, id: nat)                    // the wrapper returned with the completion still waiting
    | PushRequeue(p: nat, id: nat)
    | Try(b: nat, report: Report, now: int)           // an attempt at the head of a backlog

  /** Staging, checks, takes, returns, and drops, which push nothing. */
  predicate WritesNothing(s: Sys, e: Event) {
    || e.WatchStaging? || e.WriteStaging? || e.CheckLoad? || e.TakeNext? || e.Return?
    || (e.GiveBack? && Spawned(s, e.p, e.id) && UsedUp(s.procs[e.p], e.id))
  }

  function CompletionOf(w: Workflow): (r: WriteOp) { CompleteOp(w.id, w.pluginName) }

  ghost predicate Possible(f: Fleet, e: FleetEvent) {
    match e
    case Other(e') => WritesNothing(f.sys, e') && Enabled(f.sys, e')
    case PushAdd(b, w) => b < |f.backlogs| && GoodPluginName(w.pluginName)
    case PushComplete(p, id) => p < |f.backlogs| && Spawned(f.sys, p, id) && ExecAt(f.sys, p, id).Running?
    case ReturnEarly(p, id) =>
      && p < |f.backlogs| && Spawned(f.sys, p, id) && ExecAt(f.sys, p, id).Running?
      && Entry(CompletionOf(ExecAt(f.sys, p, id).w), Some(id)) in f.backlogs[p]
    case PushRequeue(p, id) => p < |f.backlogs| && Spawned(f.sys, p, id) && !UsedUp(f.sys.procs[p], id)
    case Try(b, report, now) => b < |f.backlogs| && f.backlogs[b] != []
  }

  function Pushed(f: Fleet, b: nat, entry: Entry): (r: seq<seq<Entry>>)
    requires b < |f.backlogs|
  {
    f.backlogs[b := f.backlogs[b] + [entry]]
  }

  /** The execution that pushed the completion is still waiting for it. */
  predicate Awaited(f: Fleet, b: nat, entry: Entry) {
    && entry.op.CompleteOp? && entry.waiter.Some?
    && Spawned(f.sys, b, entry.waiter.value)
    && ExecAt(f.sys, b, entry.waiter.value).Running?
    && KeyAt(f.sys, b, entry.waiter.value) == OpKey(entry.op)
  }

  /** The system after an operation reached the store. */
  function Reached(f: Fleet, b: nat, entry: Entry, now: int): (r: Sys) {
    if Awaited(f, b, entry) then
      With(f.sys, b, Succeeded(f.sys.store, f.sys.procs[b], entry.waiter.value))
    else f.sys.(store := Applied(f.sys.store, entry.op, now).store)
  }

  function FleetStep(f: Fleet, e: FleetEvent): (r: Fleet)
    requires Possible(f, e)
  {
    match e
    case Other(e') => f.(sys := Step(f.sys, e'))
    case PushAdd(b, w) => f.(backlogs := Pushed(f, b, Entry(AddOp(w), None)))
    case PushComplete(p, id) => f.(backlogs := Pushed(f, p, Entry(CompletionOf(ExecAt(f.sys, p, id).w), Some(id))))
    case ReturnEarly(p, id) => f.(sys := Step(f.sys, LeaveComplete(p, id)))
    case PushRequeue(p, id) =>
      Fleet(Step(f.sys, LeaveRequeue(p, id)), Pushed(f, p, Entry(RequeueOp(ExecAt(f.sys, p, id).w), None)))
    case Try(b, report, now) =>
      var head := f.backlogs[b][0];
      var (_, ok) := Run()(f.sys.store, head.op, Attempt(report, now, []));
      Fleet(
        if report.LostRequest? then f.sys else Reached(f, b, head, now),
        if ok then f.backlogs[b := f.backlogs[b][1..]] else f.backlogs)
  }

  /** What an attempt is in a run of Relayer. */
  function TryEvent(f: Fleet, b: nat, now: int): (r: Event)
    requires b < |f.backlogs| && f.backlogs[b] != []
  {
    var head := f.backlogs[b][0];
    match head.op
    case AddOp(w) => Deliver(w, now)
    case RequeueOp(w) => RetryRequeue(w)
    case CompleteOp(workflowId, plugin) =>
      if Awaited(f, b, head) then Succeed(b, head.waiter.value) else RetryComplete(plugin, workflowId)
  }

  /**
   * What a caller could check before an attempt: a requeue finds its key in no hand; a completion
   * that nobody waits for finds its key not queued and not in its handler.
   */
  ghost predicate Harmless(f: Fleet, b: nat)
    requires b < |f.backlogs| && f.backlogs[b] != []
  {
    var head := f.backlogs[b][0];
    match head.op
    case AddOp(_) => true
    case RequeueOp(w) => !InHand(f.sys, WorkflowKey(w), true) && !InHand(f.sys, WorkflowKey(w), false)
    case CompleteOp(_, _) =>
      Awaited(f, b, head)
      || (StatusOf(f.sys.store, OpKey(head.op)) != Queued && !InHand(f.sys, OpKey(head.op), true))
  }

  /** Every attempt that reaches the store is harmless. */
  ghost predicate Safe(f: Fleet, e: FleetEvent)
    requires Possible(f, e)
  {
    e.Try? && !e.report.LostRequest? ==> Harmless(f, e.b)
  }

  ghost predicate FleetLegal(f: Fleet, es: seq<FleetEvent>)
    decreases |es|
  {
    es == [] || (Possible(f, es[0]) && Safe(f, es[0]) && FleetLegal(FleetStep(f, es[0]), es[1..]))
  }

  function FleetAfter(f: Fleet, es: seq<FleetEvent>): (r: Fleet)
    requires FleetLegal(f, es)
    decreases |es|
  {
    if es == [] then f else FleetAfter(FleetStep(f, es[0]), es[1..])
  }

  // ---------------------------------------------------------------- the invariant

  /** What waits is for a well-named plugin, and for a known key unless it is a delivery. */
  predicate GoodEntry(s: Store, entry: Entry) {
    match entry.op
    case AddOp(w) => GoodPluginName(w.pluginName)
    case RequeueOp(w) => GoodPluginName(w.pluginName) && StatusOf(s, WorkflowKey(w)) != Unknown
    case CompleteOp(workflowId, plugin) => GoodPluginName(plugin) && StatusOf(s, KeyOf(plugin, workflowId)) != Unknown
  }

  ghost predicate BacklogsInv(f: Fleet) {
    forall b, i | 0 <= b < |f.backlogs| && 0 <= i < |f.backlogs[b]| :: GoodEntry(f.sys.store, f.backlogs[b][i])
  }

  ghost predicate FleetInv(f: Fleet) { Inv(f.sys) && BacklogsInv(f) }

  predicate FleetInitial(f: Fleet) {
    Initial(f.sys) && forall b | 0 <= b < |f.backlogs| :: f.backlogs[b] == []
  }

  /** A key that is known stays known. */
  lemma KnownStays(s: Sys, e: Event)
    requires Inv(s) && Enabled(s, e)
    ensures forall k | StatusOf(s.store, k) != Unknown :: StatusOf(Step(s, e).store, k) != Unknown
  {
    StepMoves(s, e);
  }

  lemma EntriesStay(f: Fleet, g: Fleet)
    requires BacklogsInv(f)
    requires forall k | StatusOf(f.sys.store, k) != Unknown :: StatusOf(g.sys.store, k) != Unknown
    requires |g.backlogs| == |f.backlogs|
    requires forall b, i | 0 <= b < |g.backlogs| && 0 <= i < |g.backlogs[b]| ::
               g.backlogs[b][i] in f.backlogs[b] || GoodEntry(g.sys.store, g.backlogs[b][i])
    ensures BacklogsInv(g)
  {
    forall b, i | 0 <= b < |g.backlogs| && 0 <= i < |g.backlogs[b]| ensures GoodEntry(g.sys.store, g.backlogs[b][i]) {
      if g.backlogs[b][i] in f.backlogs[b] {
        var j :| 0 <= j < |f.backlogs[b]| && f.backlogs[b][j] == g.backlogs[b][i];
        assert GoodEntry(f.sys.store, f.backlogs[b][j]);
      }
    }
  }

  /** A harmless attempt that reaches the store is an event of Relayer. */
  lemma TryIsStep(f: Fleet, b: nat, now: int)
    requires FleetInv(f) && b < |f.backlogs| && f.backlogs[b] != [] && Harmless(f, b)
    ensures Enabled(f.sys, TryEvent(f, b, now))
    ensures Step(f.sys, TryEvent(f, b, now)) == Reached(f, b, f.backlogs[b][0], now)
  {
    assert GoodEntry(f.sys.store, f.backlogs[b][0]);
  }

  /** One event of the fleet is one event of Relayer or none, and keeps the invariant. */
  lemma FleetStepRuns(f: Fleet, e: FleetEvent) returns (es: seq<Event>)
    requires FleetInv(f) && Possible(f, e) && Safe(f, e)
    ensures Legal(f.sys, es) && After(f.sys, es) == FleetStep(f, e).sys
    ensures FleetInv(FleetStep(f, e))
  {
    var g := FleetStep(f, e);
    es := match e
      case Other(e') => [e']
      case ReturnEarly(p, id) => [LeaveComplete(p, id)]
      case PushRequeue(p, id) => [LeaveRequeue(p, id)]
      case Try(b, report, now) => if report.LostRequest? then [] else [TryEvent(f, b, now)]
      case _ => [];
    if e.Try? && !e.report.LostRequest? {
      TryIsStep(f, e.b, e.now);
    }
    if es != [] {
      assert es[1..] == [] && Legal(Step(f.sys, es[0]), []);
      StepInv(f.sys, es[0]);
      KnownStays(f.sys, es[0]);
    }
    EntriesStay(f, g);
  }

  /**
   * A run of the fleet in which attempts are harmless is a run of Relayer. So everything that holds
   * over those runs holds with backlogs, lost requests and lost replies.
   */
  lemma {:induction false} FleetRuns(f: Fleet, fes: seq<FleetEvent>) returns (es: seq<Event>)
    requires FleetInv(f) && FleetLegal(f, fes)
    ensures Legal(f.sys, es) && After(f.sys, es) == FleetAfter(f, fes).sys
    ensures FleetInv(FleetAfter(f, fes))
    decreases |fes|
  {
    if fes == [] {
      es := [];
    } else {
      var first := FleetStepRuns(f, fes[0]);
      var rest := FleetRuns(FleetStep(f, fes[0]), fes[1..]);
      LegalConcat(f.sys, first, rest);
      es := first + rest;
    }
  }

  /** So with retrying wrappers in every process too, no key is in hand twice, nor listed twice. */
  lemma NeverInHandTwiceWithRetries(f: Fleet, fes: seq<FleetEvent>)
    requires FleetInitial(f) && FleetLegal(f, fes)
    ensures var t := FleetAfter(f, fes).sys;
            && Exclusive(t)
            && Distinct(QueueOf(t.store) + ActiveOf(t.store))
            && forall p: nat, id: nat | Spawned(t, p, id) && ExecAt(t, p, id).Running? ::
                 KeyAt(t, p, id) in ActiveOf(t.store)
  {
    InitialInv(f.sys);
    var es := FleetRuns(f, fes);
    NeverInHandTwice(f.sys, es);
  }

  /**
   * And harmless is exact: after any such run, an attempt that reaches the store keeps the
   * invariant exactly when it is harmless.
   */
  lemma TrySafeIffHarmless(f: Fleet, b: nat, report: Report, now: int)
    requires FleetInv(f) && Possible(f, Try(b, report, now)) && !report.LostRequest?
    ensures Inv(FleetStep(f, Try(b, report, now)).sys) <==> Harmless(f, b)
  {
    var head := f.backlogs[b][0];
    assert GoodEntry(f.sys.store, head);
    if Harmless(f, b) {
      TryIsStep(f, b, now);
      StepInv(f.sys, TryEvent(f, b, now));
    } else {
      match head.op
      case RequeueOp(w) => LateRequeueHarmlessIff(f.sys, w);
      case CompleteOp(workflowId, plugin) => LateCompleteHarmlessIff(f.sys, plugin, workflowId);
    }
  }

  /** The operations that wait in a backlog. */
  function Ops(entries: seq<Entry>): (r: seq<WriteOp>)
    ensures |r| == |entries|
  {
    seq(|entries|, i requires 0 <= i < |entries| => entries[i].op)
  }

  /**
   * An attempt does to the store and to its backlog just what one turn of a drain does, and nothing
   * to any other backlog.
   */
  lemma TryIsDrain(f: Fleet, b: nat, report: Report, now: int)
    requires Possible(f, Try(b, report, now))
    ensures var g, d := FleetStep(f, Try(b, report, now)), Drained(Run(), f.sys.store, Ops(f.backlogs[b]), [Attempt(report, now, [])]);
            && g.sys.store == d.store && Ops(g.backlogs[b]) == d.backlog
            && |g.backlogs| == |f.backlogs|
            && forall c | 0 <= c < |f.backlogs| && c != b :: g.backlogs[c] == f.backlogs[c]
  {
    var ops, script := Ops(f.backlogs[b]), [Attempt<WriteOp>.Attempt(report, now, [])];
    assert Ops(f.backlogs[b][1..]) == ops[1..] + [] && script[1..] == [] && ops + [] == ops;
  }

  /** A push puts its operation behind all others of its process, and does nothing to the store. */
  lemma PushWaits(f: Fleet, e: FleetEvent)
    requires Possible(f, e) && (e.PushAdd? || e.PushComplete? || e.PushRequeue?)
    ensures var g, b := FleetStep(f, e), if e.PushAdd? then e.b else e.p;
            && g.sys.store == f.sys.store
            && Ops(g.backlogs[b]) == Ops(f.backlogs[b]) + [match e
                 case PushAdd(_, w) => AddOp(w)
                 case PushComplete(p, id) => CompleteOp(ExecAt(f.sys, p, id).w.id, ExecAt(f.sys, p, id).w.pluginName)
                 case PushRequeue(p, id) => RequeueOp(ExecAt(f.sys, p, id).w)]
            && |g.backlogs| == |f.backlogs|
            && forall c | 0 <= c < |f.backlogs| && c != b :: g.backlogs[c] == f.backlogs[c]
  {
  }

  // ---------------------------------------------------------------- what a retry is for

  lemma ThenFleet(f: Fleet, e: FleetEvent, rest: seq<FleetEvent>)
    requires Possible(f, e) && Safe(f, e) && FleetLegal(FleetStep(f, e), rest)
    ensures FleetLegal(f, [e] + rest) && FleetAfter(f, [e] + rest) == FleetAfter(FleetStep(f, e), rest)
  {
    assert ([e] + rest)[1..] == rest;
  }

  /** Some events in a row. */
  lemma ThreeSteps(f: Fleet, e1: FleetEvent, e2: FleetEvent, e3: FleetEvent)
    requires Possible(f, e1) && Safe(f, e1)
    requires Possible(FleetStep(f, e1), e2) && Safe(FleetStep(f, e1), e2)
    requires Possible(FleetStep(FleetStep(f, e1), e2), e3) && Safe(FleetStep(FleetStep(f, e1), e2), e3)
    ensures FleetLegal(f, [e1, e2, e3])
    ensures FleetAfter(f, [e1, e2, e3]) == FleetStep(FleetStep(FleetStep(f, e1), e2), e3)
  {
    var f1 := FleetStep(f, e1);
    var f2 := FleetStep(f1, e2);
    var f3 := FleetStep(f2, e3);
    assert FleetLegal(f3, []) && FleetAfter(f3, []) == f3;
    ThenFleet(f2, e3, []);
    assert [e3] + [] == [e3] && [e2] + [e3] == [e2, e3] && [e1] + [e2, e3] == [e1, e2, e3];
    ThenFleet(f1, e2, [e3]);
    ThenFleet(f, e1, [e2, e3]);
  }

  lemma FourSteps(f: Fleet, e1: FleetEvent, e2: FleetEvent, e3: FleetEvent, e4: FleetEvent)
    requires Possible(f, e1) && Safe(f, e1)
    requires var g := FleetStep(f, e1);
             && Possible(g, e2) && Safe(g, e2)
             && Possible(FleetStep(g, e2), e3) && Safe(FleetStep(g, e2), e3)
             && Possible(FleetStep(FleetStep(g, e2), e3), e4) && Safe(FleetStep(FleetStep(g, e2), e3), e4)
    ensures FleetLegal(f, [e1, e2, e3, e4])
    ensures FleetAfter(f, [e1, e2, e3, e4]) == FleetStep(FleetStep(FleetStep(FleetStep(f, e1), e2), e3), e4)
  {
    ThreeSteps(FleetStep(f, e1), e2, e3, e4);
    ThenFleet(f, e1, [e2, e3, e4]);
    assert [e1] + [e2, e3, e4] == [e1, e2, e3, e4];
  }

  lemma DeliveryTried(f: Fleet, b: nat, w: Workflow, report: Report, now: int)
    requires Inv(f.sys) && GoodPluginName(w.pluginName)
    requires b < |f.backlogs| && f.backlogs[b] == [Entry(AddOp(w), None)]
    ensures var e, key, before := Try(b, report, now), WorkflowKey(w), StatusOf(f.sys.store, WorkflowKey(w));
            && Possible(f, e) && Safe(f, e)
            && var g := FleetStep(f, e);
              && Inv(g.sys) && g.sys.procs == f.sys.procs
              && StatusOf(g.sys.store, key) == (if before == Unknown && !report.LostRequest? then Queued else before)
              && g.backlogs == if report.Answered? then f.backlogs[b := []] else f.backlogs
  {
    AddedMoves(f.sys.store, w, now);
    DeliverInv(f.sys, w, now);
    assert f.backlogs[b][1..] == [];
  }

  /** A delivery is not lost: neither a lost request nor a lost reply keeps its key from being known. */
  lemma DeliverySurvivesLoss(f: Fleet, b: nat, w: Workflow, now: int)
    requires FleetInv(f) && b < |f.backlogs| && f.backlogs[b] == [] && GoodPluginName(w.pluginName)
    ensures var fes := [PushAdd(b, w), Try(b, LostRequest, now), Try(b, LostReply, now), Try(b, Answered, now)];
            && FleetLegal(f, fes)
            && var g, before := FleetAfter(f, fes), StatusOf(f.sys.store, WorkflowKey(w));
              && g.backlogs == f.backlogs && g.sys.procs == f.sys.procs
              && StatusOf(g.sys.store, WorkflowKey(w)) == if before == Unknown then Queued else before
  {
    var f1 := FleetStep(f, PushAdd(b, w));
    assert f1.backlogs[b] == [Entry(AddOp(w), None)];
    DeliveryTried(f1, b, w, LostRequest, now);
    var f2 := FleetStep(f1, Try(b, LostRequest, now));
    DeliveryTried(f2, b, w, LostReply, now);
    var f3 := FleetStep(f2, Try(b, LostReply, now));
    DeliveryTried(f3, b, w, Answered, now);
    FourSteps(f, PushAdd(b, w), Try(b, LostRequest, now), Try(b, LostReply, now), Try(b, Answered, now));
    assert f1.backlogs[b := []] == f.backlogs;
  }

  lemma CompletionTried(f: Fleet, b: nat, w: Workflow, waiter: nat, now: int)
    requires Inv(f.sys) && GoodPluginName(w.pluginName) && MayComplete(f.sys, WorkflowKey(w))
    requires b < |f.backlogs| && f.backlogs[b] == [Entry(CompletionOf(w), Some(waiter))]
    ensures var e := Try(b, Answered, now);
            && Possible(f, e) && Safe(f, e)
            && var g := FleetStep(f, e);
              && StatusOf(g.sys.store, WorkflowKey(w)) == Complete
              && g.sys.procs == f.sys.procs && g.backlogs == f.backlogs[b := []]
  {
    CompletedMoves(f.sys.store, WorkflowKey(w));
    assert f.backlogs[b][1..] == [];
    assert Awaited(f, b, f.backlogs[b][0]) ==> InHand(f.sys, WorkflowKey(w), true);
  }

  /** Nor is a completion: the execution returns without it, and the retry completes the key. */
  lemma CompletionSurvivesLoss(f: Fleet, p: nat, id: nat, now: int)
    requires FleetInv(f) && p < |f.backlogs| && f.backlogs[p] == []
    requires Spawned(f.sys, p, id) && ExecAt(f.sys, p, id).Running?
    ensures var fes := [PushComplete(p, id), Try(p, LostRequest, now), ReturnEarly(p, id), Try(p, Answered, now)];
            && FleetLegal(f, fes)
            && var g := FleetAfter(f, fes);
              && g.backlogs == f.backlogs && !Spawned(g.sys, p, id)
              && StatusOf(g.sys.store, KeyAt(f.sys, p, id)) == Complete
  {
    var w, lost := ExecAt(f.sys, p, id).w, Try(p, LostRequest, now);
    var f1 := FleetStep(f, PushComplete(p, id));
    assert f1.backlogs[p] == [Entry(CompletionOf(w), Some(id))];
    assert Possible(f1, lost) && FleetStep(f1, lost) == f1;
    var f3 := FleetStep(f1, ReturnEarly(p, id));
    StepInv(f.sys, LeaveComplete(p, id));
    EndedHands(f.sys, p, id, f3.sys);
    CompletionTried(f3, p, w, id, now);
    FourSteps(f, PushComplete(p, id), lost, ReturnEarly(p, id), Try(p, Answered, now));
    assert f1.backlogs[p := []] == f.backlogs;
  }

  lemma RequeueTried(f: Fleet, b: nat, w: Workflow, report: Report, now: int)
    requires Inv(f.sys) && GoodPluginName(w.pluginName) && MayRequeue(f.sys, WorkflowKey(w))
    requires b < |f.backlogs| && f.backlogs[b] == [Entry(RequeueOp(w), None)] && !report.LostRequest?
    ensures var e := Try(b, report, now);
            && Possible(f, e) && Safe(f, e)
            && var g := FleetStep(f, e);
              && g.sys.procs == f.sys.procs && Inv(g.sys)
              && StatusOf(g.sys.store, WorkflowKey(w)) == Queued && MayRequeue(g.sys, WorkflowKey(w))
              && g.backlogs == if report.Answered? then f.backlogs[b := []] else f.backlogs
  {
    var g := FleetStep(f, Try(b, report, now));
    RequeuedMoves(f.sys.store, w);
    LateRequeueHarmlessIff(f.sys, w);
    assert f.backlogs[b][1..] == [];
    assert forall q: nat, jd: nat :: Spawned(g.sys, q, jd) <==> Spawned(f.sys, q, jd);
    assert !InHand(g.sys, WorkflowKey(w), true) && !InHand(g.sys, WorkflowKey(w), false);
  }

  /** Nor is a requeue, whose reply is lost: retried while its key is still queued, it stays queued. */
  lemma RequeueSurvivesLoss(f: Fleet, p: nat, id: nat, now: int)
    requires FleetInv(f) && p < |f.backlogs| && f.backlogs[p] == []
    requires Spawned(f.sys, p, id) && !UsedUp(f.sys.procs[p], id)
    ensures var fes := [PushRequeue(p, id), Try(p, LostReply, now), Try(p, Answered, now)];
            && FleetLegal(f, fes)
            && var g := FleetAfter(f, fes);
              && g.backlogs == f.backlogs && !Spawned(g.sys, p, id)
              && StatusOf(g.sys.store, KeyAt(f.sys, p, id)) == Queued
  {
    var w := ExecAt(f.sys, p, id).w;
    LeaveRequeueInv(f.sys, p, id);
    var f1 := FleetStep(f, PushRequeue(p, id));
    assert f1.backlogs[p] == [Entry(RequeueOp(w), None)];
    EndedHands(f.sys, p, id, f1.sys);
    RequeueTried(f1, p, w, LostReply, now);
    RequeueTried(FleetStep(f1, Try(p, LostReply, now)), p, w, Answered, now);
    ThreeSteps(f, PushRequeue(p, id), Try(p, LostReply, now), Try(p, Answered, now));
    assert f1.backlogs[p := []] == f.backlogs;
  }

  /**
   * A first attempt never does harm: a requeue tried as soon as it is pushed finds its key in no
   * hand, and the two steps are giving the workflow back at once.
   */
  lemma FreshRequeueHarmless(s: Sys, p: nat, id: nat)
    requires Inv(s) && Enabled(s, LeaveRequeue(p, id))
    ensures var left, retry := Step(s, LeaveRequeue(p, id)), RetryRequeue(ExecAt(s, p, id).w);
            Enabled(left, retry) && Step(left, retry) == Step(s, GiveBack(p, id))
  {
    EndedHands(s, p, id, Step(s, LeaveRequeue(p, id)));
  }
}
