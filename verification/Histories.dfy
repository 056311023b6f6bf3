/** What the queues, maps and registrations of a workflow hold, in terms of what happened to it: the
    events of all its runs, the states that were started and the commands that were completed. */
module Histories {
  import opened GoTypes
  import opened Commands
  import opened DeciderTrigger
  import opened TriggerProperties
  import opened InternalChannels
  import opened SignalReceivers
  import opened CarriedState
  import opened SnapshotTransfer
  import opened ContinueAsNew
  import opened ResumedRuns
  import opened Runs
  import opened Lifecycle

  // ---- A hop, part by part ----

  /** A hop happens without threads and updates in flight, and hands over every part. */
  lemma {:induction false} HopKeepsParts(
    c: Codec<Dump>, w: World, size: int32, answered: seq<bool>, order: seq<ExecutionId>)
    requires Lawful(c) && NextRun(c, w, size, answered, order).Some?
    ensures w.threads == map[] && w.inflight == 0
    ensures var next := NextRun(c, w, size, answered, order).value;
            && next.channels == w.channels && next.signals == w.signals && next.counts == w.counts
            && next.other == w.other && next.outputs == w.outputs
            && StartRequests(next.queue) == StartRequests(w.queue)
            && next.registered == map[] && next.threads == map[] && next.inflight == 0
            && next.started == w.started && next.log == w.log && next.finished == w.finished
            && next.updates == w.updates
  {
    HopCarriesSnapshot(c, w, size, answered, order);
    hide NextRun, Overlay;
    var movements, m := StartRequests(w.queue), Snapshot(w).stateExecutionsToResume;
    StartRequestsConcat(Starts(movements), Resumes(m, order));
    StartsViews(movements);
    ResumesViews(m, order);
    assert movements + [] == movements;
  }

  predicate IsRegistered(w: World, info: ResumeInfo) {
    info.stateExecutionId in w.registered && w.registered[info.stateExecutionId] == info
  }

  /** The entries of the resume map are the queued infos and the registered ones. */
  lemma {:induction false} SnapshotHolds(w: World, info: ResumeInfo)
    requires Inv(w)
    ensures var m := Snapshot(w).stateExecutionsToResume;
            info.stateExecutionId in m && m[info.stateExecutionId] == info <==>
              info in ResumeRequests(w.queue) || IsRegistered(w, info)
  {
    var id, infos := info.stateExecutionId, ResumeRequests(w.queue);
    OverlayExact(w.registered, infos, id);
    if id in w.registered {
      NothingQueued(w, id);
    } else if HasId(infos, id) {
      LastIsSome(infos, id);
      hide Results, WellFormed, Known, Overlay, LastWithId;
      assert QueueOk(w);
    }
  }

  /** And the executions: those registered or queued, with state, locals, request and results as they
      were, each queued once. */
  lemma {:induction false} HopKeepsExecutions(
    c: Codec<Dump>, w: World, size: int32, answered: seq<bool>, order: seq<ExecutionId>)
    requires Lawful(c) && Inv(w) && NextRun(c, w, size, answered, order).Some?
    ensures var infos := ResumeRequests(NextRun(c, w, size, answered, order).value.queue);
            && (forall info: ResumeInfo :: info in infos <==> info in ResumeRequests(w.queue) || IsRegistered(w, info))
            && (forall i, j | 0 <= i < j < |infos| :: infos[i].stateExecutionId != infos[j].stateExecutionId)
  {
    HopCarriesSnapshot(c, w, size, answered, order);
    var m := Snapshot(w).stateExecutionsToResume;
    forall id | id in m ensures m[id].stateExecutionId == id {
      SnapshotInfos(w, id);
    }
    RebuiltQueue(StartRequests(w.queue), m, order);
    forall info: ResumeInfo
      ensures info.stateExecutionId in m && m[info.stateExecutionId] == info <==>
              info in ResumeRequests(w.queue) || IsRegistered(w, info)
    {
      SnapshotHolds(w, info);
    }
    hide Snapshot, Inv, IsRegistered, Overlay;
    var infos := ResumeRequests(NextRun(c, w, size, answered, order).value.queue);
    Enumerated(m, order, infos);
  }

  lemma {:induction false} Enumerated(
    m: map<ExecutionId, ResumeInfo>, order: seq<ExecutionId>, infos: seq<ResumeInfo>)
    requires Keyed(m) && Enumerates(order, m.Keys)
    requires |infos| == |order| && forall i | 0 <= i < |order| :: infos[i] == m[order[i]]
    ensures forall info: ResumeInfo :: info in infos <==> info.stateExecutionId in m && m[info.stateExecutionId] == info
    ensures forall i, j | 0 <= i < j < |infos| :: infos[i].stateExecutionId != infos[j].stateExecutionId
  {
    forall info: ResumeInfo | info.stateExecutionId in m && m[info.stateExecutionId] == info ensures info in infos {
      assert info.stateExecutionId in order;
      var i :| 0 <= i < |order| && order[i] == info.stateExecutionId;
      assert infos[i] == info;
    }
    assert forall i | 0 <= i < |order| :: order[i] in m;
  }

  /** What other objects keep changes when it is given anew, and in no other way. */
  lemma {:induction false} StepOther(c: Codec<Dump>, w: World, e: Event)
    requires Lawful(c) && Step(c, w, e).Some?
    ensures Step(c, w, e).value.other == if e.ChangeOther? then e.other else w.other
  {
    hide NextRun, PublishedTo, AsPublishings, StartThreads, Delivered, Taken, Trigger, NonNil, Starts;
    match e {
      case TakeAll => StartThreadsKeeps(w.(queue := []), w.queue);
      case Hop(size, answered, order) => HopKeepsParts(c, w, size, answered, order);
      case Receive(id, idx, from, channelName) =>
        if Queue(Messages(w, from), channelName) != [] {
          DeliveryKeeps(w, Head(w, id, idx, from, channelName));
        }
      case FinishTimer(id, idx, status) => DeliveryKeeps(w, TimerDone(id, idx, status));
      case _ =>
    }
  }

  /** Over every run with any number of hops: data attributes, search attributes, counts of executing
      states and stale timer skips are those given last. */
  lemma {:induction false} LastGivenIsCarried(c: Codec<Dump>, w: World, es: seq<Event>, last: int)
    requires Lawful(c) && Run(c, w, es).Some?
    requires -1 <= last < |es| && (last >= 0 ==> es[last].ChangeOther?)
    requires forall i | last < i < |es| :: !es[i].ChangeOther?
    ensures Run(c, w, es).value.other == if last >= 0 then es[last].other else w.other
    decreases es
  {
    hide Step;
    if es == [] {
    } else {
      StepOther(c, w, es[0]);
      LastGivenIsCarried(c, Step(c, w, es[0]).value, es[1..], if last > 0 then last - 1 else -1);
    }
  }

  // ---- Requested states ----

  function Movements(started: seq<StartedState>): seq<StateMovement> {
    seq(|started|, i requires 0 <= i < |started| => started[i].movement)
  }

  /** The states that were started, in order, followed by those that are requested. */
  function Requests(w: World): seq<StateMovement> {
    Movements(w.started) + StartRequests(w.queue)
  }

  /** The states that an event requests. */
  function RequestedBy(e: Event): seq<StateMovement> {
    match e
    case RequestStates(movements) => movements
    case FinishUpdate(_, _, movements) => movements
    case FailAndProceed(_, next) => [next]
    case _ => []
  }

  function RequestedIn(es: seq<Event>): seq<StateMovement> {
    if es == [] then [] else RequestedBy(es[0]) + RequestedIn(es[1..])
  }

  lemma {:induction false} StartThreadMovement(w: World, r: StateRequest)
    ensures Movements(StartThread(w, r).started) == Movements(w.started) + StartRequests([r])
  {
    assert [r][1..] == [];
  }

  lemma {:induction false} StartThreadsMovements(w: World, requests: seq<StateRequest>)
    ensures Movements(StartThreads(w, requests).started) == Movements(w.started) + StartRequests(requests)
    decreases requests
  {
    if requests == [] {
    } else {
      StartThreadMovement(w, requests[0]);
      assert StartRequests(requests) == StartRequests([requests[0]]) + StartRequests(requests[1..]) by {
        assert requests == [requests[0]] + requests[1..];
        StartRequestsConcat([requests[0]], requests[1..]);
      }
      hide StartThread, Movements, StartRequests;
      StartThreadsMovements(StartThread(w, requests[0]), requests[1..]);
      var first, rest := StartRequests([requests[0]]), StartRequests(requests[1..]);
      assert (Movements(w.started) + first) + rest == Movements(w.started) + (first + rest);
    }
  }

  lemma {:induction false} MoreRequested(w: World, after: World, movements: seq<StateMovement>)
    requires after.started == w.started && after.queue == w.queue + Starts(movements)
    ensures Requests(after) == Requests(w) + movements
  {
    StartRequestsConcat(w.queue, Starts(movements));
    StartsViews(movements);
  }

  lemma {:induction false} StepRequests(c: Codec<Dump>, w: World, e: Event)
    requires Lawful(c) && Step(c, w, e).Some?
    ensures Requests(Step(c, w, e).value) == Requests(w) + RequestedBy(e)
  {
    hide NextRun, PublishedTo, AsPublishings, StartThreads, Delivered, Taken, Trigger, NonNil, Starts, StartRequests;
    hide Movements;
    var after := Step(c, w, e).value;
    match e {
      case RequestStates(movements) => MoreRequested(w, after, movements);
      case FinishUpdate(_, _, movements) => MoreRequested(w, after, movements);
      case FailAndProceed(_, next) =>
        assert Starts([next]) == [StartRequest(next)] by { StartsOne(next); }
        MoreRequested(w, after, [next]);
      case TakeAll =>
        StartThreadsKeeps(w.(queue := []), w.queue);
        StartThreadsMovements(w.(queue := []), w.queue);
        assert StartRequests([]) == [] by { StartRequestsNone(); }
      case Hop(size, answered, order) => HopKeepsParts(c, w, size, answered, order);
      case Receive(id, idx, from, channelName) =>
        if Queue(Messages(w, from), channelName) != [] {
          DeliveryKeeps(w, Head(w, id, idx, from, channelName));
        }
      case FinishTimer(id, idx, status) => DeliveryKeeps(w, TimerDone(id, idx, status));
      case _ =>
    }
  }

  lemma {:induction false} StartsOne(m: StateMovement)
    ensures Starts([m]) == [StartRequest(m)]
  {
  }

  lemma {:induction false} StartRequestsNone()
    ensures StartRequests([]) == []
  {
  }

  /** Over every run with any number of hops, the states started, in order, followed by the states still
      requested, grow by what is requested - with its input, by a worker, an RPC or a failed state -:
      no request is lost, started twice or overtaken. */
  lemma {:induction false} RequestsConserved(c: Codec<Dump>, w: World, es: seq<Event>)
    requires Lawful(c) && Run(c, w, es).Some?
    ensures Requests(Run(c, w, es).value) == Requests(w) + RequestedIn(es)
    decreases es
  {
    hide Step, Requests, RequestedBy;
    if es == [] {
    } else {
      StepRequests(c, w, es[0]);
      RequestsConserved(c, Step(c, w, es[0]).value, es[1..]);
      var first, rest := RequestedBy(es[0]), RequestedIn(es[1..]);
      assert (Requests(w) + first) + rest == Requests(w) + (first + rest);
    }
  }

  // ---- Where an execution comes from ----

  /** How often this state was started. */
  function Times(started: seq<StartedState>, stateId: string): nat {
    if started == [] then 0
    else
      var last := |started| - 1;
      Times(started[..last], stateId) + if started[last].movement.stateId == stateId then 1 else 0
  }

  /** The n-th execution of a state has number n. */
  ghost predicate NumberedInOrder(started: seq<StartedState>) {
    forall i | 0 <= i < |started| ::
      var stateId := started[i].movement.stateId;
      started[i].id == ExecutionId(stateId, Times(started[..i + 1], stateId))
  }

  ghost predicate CountsStarts(counts: map<string, nat>, started: seq<StartedState>) {
    NumberedInOrder(started) && forall stateId :: Count(counts, stateId) == Times(started, stateId)
  }

  lemma {:induction false} StartThreadCounts(w: World, r: StateRequest)
    requires CountsStarts(w.counts, w.started)
    ensures var after := StartThread(w, r);
            CountsStarts(after.counts, after.started) && w.started <= after.started
  {
    var after := StartThread(w, r);
    if r.StartRequest? {
      var few, more := w.started, after.started;
      assert more[..|few|] == few && more[..|few| + 1] == more;
      forall i | 0 <= i < |more|
        ensures more[i].id == ExecutionId(more[i].movement.stateId, Times(more[..i + 1], more[i].movement.stateId))
      {
        if i < |few| {
          assert more[..i + 1] == few[..i + 1];
        }
      }
    }
  }

  /** A new thread has its state in the history. */
  ghost predicate Begins(w: World, after: World, id: ExecutionId) {
    id in after.threads && after.threads[id].Fresh? ==>
      || (id in w.threads && w.threads[id] == after.threads[id])
      || StartedState(id, after.threads[id].movement) in after.started
  }

  lemma {:induction false} StartThreadBegins(w: World, r: StateRequest, id: ExecutionId)
    ensures Begins(w, StartThread(w, r), id)
  {
    var after := StartThread(w, r);
    if r.StartRequest? {
      assert after.started[|w.started|].movement == r.movement && after.started[|w.started|] in after.started;
    }
  }

  lemma {:induction false} BeginsLater(w: World, w1: World, after: World, id: ExecutionId)
    requires Begins(w, w1, id) && Begins(w1, after, id) && w1.started <= after.started
    ensures Begins(w, after, id)
  {
    assert forall x | x in w1.started :: x in after.started;
  }

  lemma {:induction false} StartThreadsBegin(w: World, requests: seq<StateRequest>, id: ExecutionId)
    requires CountsStarts(w.counts, w.started)
    ensures var after := StartThreads(w, requests);
            CountsStarts(after.counts, after.started) && w.started <= after.started && Begins(w, after, id)
    decreases requests
  {
    if requests == [] {
    } else {
      var w1 := StartThread(w, requests[0]);
      StartThreadCounts(w, requests[0]);
      StartThreadBegins(w, requests[0], id);
      hide StartThread, CountsStarts, Begins;
      StartThreadsBegin(w1, requests[1..], id);
      BeginsLater(w, w1, StartThreads(w1, requests[1..]), id);
    }
  }

  /** What the first wait of an execution was registered with. */
  datatype Wait = Wait(locals: seq<KeyValue>, request: CommandRequest)

  type Waits = map<ExecutionId, Wait>

  function WaitsAfter(waits: Waits, e: Event): Waits {
    if e.Register? && e.id !in waits then waits[e.id := Wait(e.locals, e.request)] else waits
  }

  /** The state of the info is the one with which its id was started; locals and request are those of
      its first registration. */
  predicate ComesFrom(w: World, waits: Waits, info: ResumeInfo) {
    var id := info.stateExecutionId;
    StartedState(id, info.state) in w.started && id in waits && waits[id] == Wait(info.locals, info.request)
  }

  predicate ThreadComesFrom(w: World, waits: Waits, id: ExecutionId, t: Thread) {
    match t
    case Fresh(m) => StartedState(id, m) in w.started && (id in w.registered || id !in waits)
    case Resumed(info) => ComesFrom(w, waits, info)
  }

  ghost predicate RegisteredFrom(w: World, waits: Waits) {
    forall id | id in w.registered :: ComesFrom(w, waits, w.registered[id])
  }

  ghost predicate QueuedFrom(w: World, waits: Waits) {
    forall info | info in ResumeRequests(w.queue) :: ComesFrom(w, waits, info)
  }

  ghost predicate ThreadsFrom(w: World, waits: Waits) {
    forall id | id in w.threads :: ThreadComesFrom(w, waits, id, w.threads[id])
  }

  ghost predicate WaitsKnown(w: World, waits: Waits) {
    forall id | id in waits :: Known(w.counts, id)
  }

  ghost predicate Origins(w: World, waits: Waits) {
    && CountsStarts(w.counts, w.started)
    && RegisteredFrom(w, waits) && QueuedFrom(w, waits) && ThreadsFrom(w, waits) && WaitsKnown(w, waits)
  }

  /** Nothing is started, registered or queued. */
  lemma {:induction false} SameOrigins(w: World, after: World, waits: Waits)
    requires Origins(w, waits)
    requires after.counts == w.counts && after.started == w.started
    requires ResumeRequests(after.queue) == ResumeRequests(w.queue)
    requires after.threads.Keys <= w.threads.Keys && after.registered.Keys <= w.registered.Keys
    requires forall id | id in after.threads :: after.threads[id] == w.threads[id]
    requires forall id | id in after.threads && id in w.registered :: id in after.registered
    requires forall id | id in after.registered ::
               after.registered[id] == w.registered[id].(completed := after.registered[id].completed)
    ensures Origins(after, waits)
  {
    hide CountsStarts, ResumeRequests, Known;
  }

  lemma {:induction false} StillComesFrom(w: World, waits: Waits, after: World, more: Waits, info: ResumeInfo)
    requires ComesFrom(w, waits, info) && w.started <= after.started
    requires forall id | id in waits :: id in more && more[id] == waits[id]
    ensures ComesFrom(after, more, info)
  {
    assert forall x | x in w.started :: x in after.started;
  }

  lemma {:induction false} TakeAllThreads(w: World, waits: Waits, id: ExecutionId)
    requires Inv(w) && Origins(w, waits)
    requires id in StartThreads(w.(queue := []), w.queue).threads
    ensures var after := StartThreads(w.(queue := []), w.queue);
            ThreadComesFrom(after, waits, id, after.threads[id])
  {
    var w0 := w.(queue := []);
    var after := StartThreads(w0, w.queue);
    StartThreadsKeeps(w0, w.queue);
    StartThreadsBegin(w0, w.queue, id);
    StartThreadsAt(w0, w.queue, id);
    FreshIsUnknown(w0.counts, after.counts, id);
    hide StartThreads, CountsStarts, Inv, Known, ResumeRequests, HasId, FreshId, ComesFrom, RegisteredFrom, Count;
    assert forall x | x in w.started :: x in after.started;
    if id in w.threads && after.threads[id] == w.threads[id] {
      assert ThreadComesFrom(w, waits, id, w.threads[id]);
      if w.threads[id].Resumed? {
        StillComesFrom(w, waits, after, waits, w.threads[id].info);
      }
    } else if after.threads[id].Resumed? {
      StillComesFrom(w, waits, after, waits, after.threads[id].info);
    }
  }

  lemma {:induction false} TakeAllOrigins(w: World, waits: Waits)
    requires Inv(w) && Origins(w, waits)
    ensures Origins(StartThreads(w.(queue := []), w.queue), waits)
  {
    var w0 := w.(queue := []);
    var after := StartThreads(w0, w.queue);
    assert ThreadsFrom(after, waits) by {
      forall id | id in after.threads ensures ThreadComesFrom(after, waits, id, after.threads[id]) {
        TakeAllThreads(w, waits, id);
      }
    }
    hide ThreadsFrom, Inv, CountsStarts, Begins;
    StartThreadsKeeps(w0, w.queue);
    StartThreadsBegin(w0, w.queue, ExecutionId("", 0));
    assert WaitsKnown(after, waits) by {
      KnownGrows(w0, w.queue);
      hide StartThreads;
    }
    hide StartThreads, WaitsKnown;
    assert QueuedFrom(after, waits);
    forall id | id in after.registered ensures ComesFrom(after, waits, after.registered[id]) {
      StillComesFrom(w, waits, after, waits, w.registered[id]);
    }
  }

  /** A new registration takes the state of its thread, a resumed one is what it was. */
  lemma {:induction false} RegistrationComesFrom(w: World, waits: Waits, e: Event)
    requires Inv(w) && Origins(w, waits) && e.Register? && CanRegister(w, e.id, e.request)
    ensures Known(w.counts, e.id)
    ensures ComesFrom(w, WaitsAfter(waits, e), Registration(e.id, w.threads[e.id], e.locals, e.request))
  {
    assert Known(w.counts, e.id) && PendingOk(w, e.id, w.threads[e.id]);
    assert ThreadComesFrom(w, waits, e.id, w.threads[e.id]);
    hide CountsStarts, Inv, Known, ResumeRequests, Results, WellFormed, Acceptable, Origins;
  }

  lemma {:induction false} OneMoreOrigin(w: World, waits: Waits, id: ExecutionId, info: ResumeInfo, more: Waits)
    requires Origins(w, waits) && Known(w.counts, id) && ComesFrom(w, more, info)
    requires more.Keys == waits.Keys + {id} && forall x | x in waits :: more[x] == waits[x]
    ensures Origins(w.(registered := w.registered[id := info]), more)
  {
    hide CountsStarts, Known, ResumeRequests, ComesFrom;
    var after := w.(registered := w.registered[id := info]);
    forall x: ResumeInfo | ComesFrom(w, waits, x) || x == info ensures ComesFrom(after, more, x) {
      if x == info {
        StillComesFrom(w, more, after, more, x);
      } else {
        StillComesFrom(w, waits, after, more, x);
      }
    }
    forall x | x in w.threads ensures ThreadComesFrom(after, more, x, w.threads[x]) {
      assert ThreadComesFrom(w, waits, x, w.threads[x]);
    }
  }

  lemma {:induction false} RegisterOrigins(w: World, waits: Waits, e: Event)
    requires Inv(w) && Origins(w, waits) && e.Register? && CanRegister(w, e.id, e.request)
    ensures Origins(w.(registered := w.registered[e.id := Registration(e.id, w.threads[e.id], e.locals, e.request)]),
                    WaitsAfter(waits, e))
  {
    RegistrationComesFrom(w, waits, e);
    hide Origins, Inv, ComesFrom, Registration, Known, Acceptable;
    OneMoreOrigin(w, waits, e.id, Registration(e.id, w.threads[e.id], e.locals, e.request), WaitsAfter(waits, e));
  }

  lemma {:induction false} HopOrigins(c: Codec<Dump>, w: World, waits: Waits, hop: Event)
    requires Lawful(c) && Inv(w) && Origins(w, waits) && hop.Hop? && Step(c, w, hop).Some?
    ensures Origins(Step(c, w, hop).value, waits)
  {
    HopKeepsParts(c, w, hop.configuredSize, hop.answered, hop.order);
    HopKeepsExecutions(c, w, hop.configuredSize, hop.answered, hop.order);
    hide NextRun, CountsStarts, Inv, Known, ResumeRequests, StartRequests;
    var after := Step(c, w, hop).value;
    forall info: ResumeInfo | info in ResumeRequests(after.queue) ensures ComesFrom(after, waits, info) {
      assert info in ResumeRequests(w.queue) || IsRegistered(w, info);
    }
  }

  /** An execution ends, or gets a result. */
  lemma {:induction false} EndOrigins(c: Codec<Dump>, w: World, waits: Waits, e: Event)
    requires Origins(w, waits) && Step(c, w, e).Some?
    requires e.Complete? || e.FailAndProceed? || e.Suspend? || e.Receive? || e.FinishTimer?
    ensures Origins(Step(c, w, e).value, waits)
  {
    hide StartThreads, NextRun, Delivered, Taken, PublishedTo, IsPending, Trigger, Starts, NonNil, Origins;
    var after := Step(c, w, e).value;
    match e {
      case Receive(id, idx, from, channelName) =>
        if Queue(Messages(w, from), channelName) != [] {
          DeliveryKeeps(w, Head(w, id, idx, from, channelName));
          SameOrigins(w, after, waits);
        }
      case FinishTimer(id, idx, status) =>
        DeliveryKeeps(w, TimerDone(id, idx, status));
        SameOrigins(w, after, waits);
      case FailAndProceed(_, next) =>
        StartsOne(next);
        StartsAddNoResumes(w.queue, [next]);
        SameOrigins(w, after, waits);
      case _ => SameOrigins(w, after, waits);
    }
  }

  /** Requests, messages and the like. */
  lemma {:induction false} OtherOrigins(c: Codec<Dump>, w: World, waits: Waits, e: Event)
    requires Origins(w, waits) && Step(c, w, e).Some?
    requires || e.Publish? || e.ReceiveSignals? || e.RequestStates? || e.AddOutput? || e.ChangeOther?
             || e.BeginUpdate? || e.FinishUpdate?
    ensures Origins(Step(c, w, e).value, waits)
  {
    hide NextRun, PublishedTo, AsPublishings, Starts, NonNil, Origins;
    var after := Step(c, w, e).value;
    if e.RequestStates? || e.FinishUpdate? {
      StartsAddNoResumes(w.queue, e.movements);
    }
    SameOrigins(w, after, waits);
  }

  lemma {:induction false} StepOrigins(c: Codec<Dump>, w: World, waits: Waits, e: Event)
    requires Lawful(c) && Inv(w) && Origins(w, waits) && Step(c, w, e).Some?
    ensures Origins(Step(c, w, e).value, WaitsAfter(waits, e))
  {
    hide Inv, Origins, StartThreads, CanRegister, Registration;
    match e {
      case TakeAll => TakeAllOrigins(w, waits);
      case Register(_, _, _) => RegisterOrigins(w, waits, e);
      case _ =>
        hide Step;
        if e.Complete? || e.FailAndProceed? || e.Suspend? || e.Receive? || e.FinishTimer? {
          EndOrigins(c, w, waits, e);
        } else if e.Hop? {
          HopOrigins(c, w, waits, e);
        } else {
          OtherOrigins(c, w, waits, e);
        }
    }
  }

  function WaitsIn(waits: Waits, es: seq<Event>): Waits
    decreases es
  {
    if es == [] then waits else WaitsIn(WaitsAfter(waits, es[0]), es[1..])
  }

  lemma {:induction false} RunOrigins(c: Codec<Dump>, w: World, waits: Waits, es: seq<Event>)
    requires Lawful(c) && Inv(w) && Origins(w, waits) && Run(c, w, es).Some?
    ensures Origins(Run(c, w, es).value, WaitsIn(waits, es))
    decreases es
  {
    hide Step, Inv, Origins, WaitsAfter;
    if es == [] {
    } else {
      StepInv(c, w, es[0]);
      StepOrigins(c, w, waits, es[0]);
      RunOrigins(c, Step(c, w, es[0]).value, WaitsAfter(waits, es[0]), es[1..]);
    }
  }

  /** es[i] is the first registration of id. */
  ghost predicate FirstRegistration(es: seq<Event>, i: int, id: ExecutionId) {
    && 0 <= i < |es| && es[i].Register? && es[i].id == id
    && forall j | 0 <= j < i :: !(es[j].Register? && es[j].id == id)
  }

  lemma {:induction false} FirstWaitCounts(waits: Waits, es: seq<Event>, id: ExecutionId) returns (i: int)
    requires id in WaitsIn(waits, es)
    ensures if id in waits then WaitsIn(waits, es)[id] == waits[id]
            else FirstRegistration(es, i, id) && WaitsIn(waits, es)[id] == Wait(es[i].locals, es[i].request)
    decreases es
  {
    i := 0;
    if es == [] {
    } else {
      var rest := FirstWaitCounts(WaitsAfter(waits, es[0]), es[1..], id);
      if id !in WaitsAfter(waits, es[0]) {
        i := rest + 1;
        assert es[i] == es[1..][rest];
        forall j | 0 <= j < i ensures !(es[j].Register? && es[j].id == id) {
          assert j > 0 ==> es[j] == es[1..][j - 1];
        }
      }
    }
  }

  lemma {:induction false} NumbersDiffer(started: seq<StartedState>, i: nat, j: nat)
    requires NumberedInOrder(started) && i < j < |started|
    ensures started[i].id != started[j].id
  {
    var stateId := started[j].movement.stateId;
    if started[i].movement.stateId == stateId {
      assert started[..j + 1][..j] == started[..j];
      TimesGrows(started, stateId, i + 1, j);
    }
  }

  lemma {:induction false} TimesGrows(started: seq<StartedState>, stateId: string, i: nat, j: nat)
    requires i <= j <= |started|
    ensures Times(started[..i], stateId) <= Times(started[..j], stateId)
    decreases j - i
  {
    if i < j {
      assert started[..j][..j - 1] == started[..j - 1];
      TimesGrows(started, stateId, i, j - 1);
    }
  }

  /** Over every run with any number of hops: the n-th execution of a state has the id with number n, and
      what is registered or queued for an id is the state that was started with it, and the locals and
      the request of the first wait registered for it. */
  lemma {:induction false} ExecutionsComeFromEvents(c: Codec<Dump>, es: seq<Event>, info: ResumeInfo)
    returns (k: nat, i: int)
    requires Lawful(c) && Run(c, INITIAL, es).Some?
    requires var w := Run(c, INITIAL, es).value;
             info in ResumeRequests(w.queue) || IsRegistered(w, info)
    ensures var w, id := Run(c, INITIAL, es).value, info.stateExecutionId;
            && k < |w.started| && w.started[k] == StartedState(id, info.state)
            && id == ExecutionId(info.state.stateId, Times(w.started[..k + 1], info.state.stateId))
            && (forall j | 0 <= j < |w.started| && j != k :: w.started[j].id != id)
            && FirstRegistration(es, i, id) && info.locals == es[i].locals && info.request == es[i].request
  {
    hide Run, Inv;
    var w, id := Run(c, INITIAL, es).value, info.stateExecutionId;
    InitialIsExact();
    assert Origins(INITIAL, map[]);
    RunOrigins(c, INITIAL, map[], es);
    assert ComesFrom(w, WaitsIn(map[], es), info);
    i := FirstWaitCounts(map[], es, id);
    k :| 0 <= k < |w.started| && w.started[k] == StartedState(id, info.state);
    forall j | 0 <= j < |w.started| && j != k ensures w.started[j].id != id {
      NumbersDiffer(w.started, if j < k then j else k, if j < k then k else j);
    }
  }
}
