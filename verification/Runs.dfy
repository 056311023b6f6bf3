/** A workflow over any number of runs: messages, waiting states, RPC updates, and
    continue-as-new hops, in any order. WorkflowRuns proves that the classes implement it. */
module Runs {
  import opened GoTypes
  import opened Commands
  import opened DeciderTrigger
  import opened InternalChannels
  import opened SignalReceivers
  import opened CarriedState
  import opened SnapshotTransfer
  import opened ContinueAsNew
  import opened ResumedRuns

  /** A thread of a state execution: new, or resumed with what the last run had. */
  datatype Thread = Fresh(movement: StateMovement) | Resumed(info: ResumeInfo)

  /** A state execution that was started, with its state and input. */
  datatype StartedState = StartedState(id: ExecutionId, movement: StateMovement)

  /** The state of the current run. started, log, finished and updates are history, for the statements
      only; updates are the RPC updates that have begun and not finished. */
  datatype World = World(
    channels: Channels,
    signals: Channels,
    counts: map<string, nat>,
    other: OtherParts,
    queue: seq<StateRequest>,
    registered: map<ExecutionId, ResumeInfo>,
    outputs: seq<StateCompletionOutput>,
    threads: map<ExecutionId, Thread>,
    inflight: int,
    started: seq<StartedState>,
    log: seq<Delivery>,
    finished: multiset<ExecutionId>,
    updates: set<nat>)

  const INITIAL :=
    World(map[], map[], map[], NO_OTHER_PARTS, [], map[], [], map[], 0, [], [], multiset{}, {})

  datatype Event =
    | Publish(publishes: seq<Publishing>)
    | ReceiveSignals(sigName: string, values: seq<EncodedObject>)
    | RequestStates(movements: seq<StateMovement>)
    | TakeAll                                               // start a thread for every queued request
    | Register(id: ExecutionId, locals: seq<KeyValue>, request: CommandRequest) // the thread starts to wait
    | Receive(id: ExecutionId, idx: int, source: Source, channelName: string)   // a command gets its message
    | FinishTimer(id: ExecutionId, idx: int, status: TimerStatus)
    | Complete(id: ExecutionId)                             // the execute API succeeded
    | FailAndProceed(id: ExecutionId, next: StateMovement)  // the execute API failed, a configured state follows
    | Suspend(id: ExecutionId)                              // the thread ends while waiting, for a hop
    | AddOutput(output: StateCompletionOutput)
    | ChangeOther(other: OtherParts)
    | BeginUpdate(update: nat)                              // an RPC update, up to its activity
    | FinishUpdate(update: nat, publishes: seq<Publishing>, movements: seq<StateMovement>)
    | Hop(configuredSize: int32, answered: seq<bool>, order: seq<ExecutionId>)

  function Count(counts: map<string, nat>, stateId: string): nat {
    if stateId in counts then counts[stateId] else 0
  }

  function StartThread(w: World, r: StateRequest): World {
    match r
    case StartRequest(m) =>
      var n := Count(w.counts, m.stateId) + 1;
      var id := ExecutionId(m.stateId, n);
      w.(counts := w.counts[m.stateId := n], threads := w.threads[id := Fresh(m)],
         started := w.started + [StartedState(id, m)])
    case ResumeRequest(info) =>
      w.(threads := w.threads[info.stateExecutionId := Resumed(info)])
  }

  function StartThreads(w: World, requests: seq<StateRequest>): World
    decreases requests
  {
    if requests == [] then w else StartThreads(StartThread(w, requests[0]), requests[1..])
  }

  function Registration(id: ExecutionId, t: Thread, locals: seq<KeyValue>, request: CommandRequest): ResumeInfo {
    match t
    case Fresh(m) => ResumeInfo(id, m, locals, request, NOTHING_COMPLETED)
    case Resumed(info) => info
  }

  /** A new execution waits for a request that the validator accepted. */
  predicate CanRegister(w: World, id: ExecutionId, request: CommandRequest) {
    id in w.threads && id !in w.registered && (w.threads[id].Fresh? ==> Acceptable(request))
  }

  /** The decider trigger of an execution. */
  ghost function Trigger(info: ResumeInfo): Verdict {
    TriggerSpec(info.request, info.completed.timers.Keys, info.completed.signals.Keys, info.completed.channels.Keys)
  }

  /** The wait of the execution is over, or it did not wait at all. */
  ghost predicate CanFinish(w: World, id: ExecutionId) {
    id in w.threads && if id in w.registered then Trigger(w.registered[id]) == Met(true) else w.threads[id].Fresh?
  }

  /** The command is one of the request and has no result yet. */
  predicate IsPending(info: ResumeInfo, d: Delivery) {
    match d
    case Received(_, idx, FromChannel, _, _) =>
      0 <= idx < |info.request.channelCommands| && idx !in info.completed.channels
    case Received(_, idx, FromSignal, _, _) =>
      0 <= idx < |info.request.signalCommands| && idx !in info.completed.signals
    case TimerDone(_, idx, _) =>
      0 <= idx < |info.request.timerCommands| && idx !in info.completed.timers
  }

  predicate CanDeliver(w: World, d: Delivery) {
    d.id in w.threads && d.id in w.registered && IsPending(w.registered[d.id], d)
  }

  function Messages(w: World, source: Source): Channels {
    if source.FromChannel? then w.channels else w.signals
  }

  function WithMessages(w: World, source: Source, m: Channels): World {
    if source.FromChannel? then w.(channels := m) else w.(signals := m)
  }

  /** The command thread stores its result in the maps of its execution. */
  function Delivered(w: World, d: Delivery): World
    requires d.id in w.registered
  {
    var info := w.registered[d.id];
    w.(registered := w.registered[d.id := info.(completed := Stored(info.completed, d))], log := w.log + [d])
  }

  function Head(w: World, id: ExecutionId, idx: int, source: Source, channelName: string): Delivery
    requires Queue(Messages(w, source), channelName) != []
  {
    Received(id, idx, source, channelName, Queue(Messages(w, source), channelName)[0])
  }

  /** The message leaves its queue. */
  function Taken(w: World, d: Delivery): World
    requires d.Received? && Queue(Messages(w, d.source), d.channelName) != []
  {
    WithMessages(w, d.source, Dequeued(Messages(w, d.source), d.channelName))
  }

  /** What the page query handler serializes. */
  function Snapshot(w: World): Dump {
    Dump(w.channels, w.signals, w.counts, w.other, StartRequests(w.queue),
         Overlay(w.registered, ResumeRequests(w.queue)),
         w.outputs)
  }

  /** The state the next run starts with. */
  function Rebuilt(w: World, d: Dump, order: seq<ExecutionId>): World
    requires forall k | k in order :: k in d.stateExecutionsToResume
  {
    World(d.interStateChannelReceived, d.signalsReceived, d.stateIdStartedCount, d.other,
          Starts(d.statesToStartFromBeginning) + Resumes(d.stateExecutionsToResume, order),
          map[], d.stateOutputs, map[], 0, w.started, w.log, w.finished, w.updates)
  }

  /** No thread is left, and no update is in flight. */
  predicate Drained(w: World) {
    w.threads == map[] && w.inflight == 0
  }

  /** The drained run is closed and the next one loads its state. */
  ghost function NextRun(
    c: Codec<Dump>, w: World, size: int32, answered: seq<bool>, order: seq<ExecutionId>): Option<World>
  {
    if !Drained(w) then None
    else
      match ResultOf(c, Transfer(c, Turns(Snapshot(w), answered), size))
      case Loaded(d) =>
        if Enumerates(order, d.stateExecutionsToResume.Keys) then Some(Rebuilt(w, d, order)) else None
      case _ => None
  }

  /** None: the event cannot happen in this state, or the load of a hop failed, which ends
      the workflow. */
  ghost function Step(c: Codec<Dump>, w: World, e: Event): Option<World> {
    match e
    case Publish(publishes) => Some(w.(channels := PublishedTo(w.channels, publishes)))
    case ReceiveSignals(sigName, values) => Some(w.(signals := PublishedTo(w.signals, AsPublishings(sigName, values))))
    case RequestStates(movements) => Some(w.(queue := w.queue + Starts(movements)))
    case TakeAll => Some(StartThreads(w.(queue := []), w.queue))
    case Register(id, locals, request) =>
      if CanRegister(w, id, request)
      then Some(w.(registered := w.registered[id := Registration(id, w.threads[id], locals, request)])) else None
    case Receive(id, idx, source, channelName) =>
      if Queue(Messages(w, source), channelName) == [] then Some(w)
      else
        var d := Head(w, id, idx, source, channelName);
        if CanDeliver(w, d) then Some(Delivered(Taken(w, d), d)) else None
    case FinishTimer(id, idx, status) =>
      var d := TimerDone(id, idx, status);
      if CanDeliver(w, d) then Some(Delivered(w, d)) else None
    case Complete(id) =>
      if CanFinish(w, id)
      then Some(w.(threads := w.threads - {id}, registered := w.registered - {id},
                   finished := w.finished + multiset{id}))
      else None
    case FailAndProceed(id, next) =>
      if CanFinish(w, id)
      then Some(w.(threads := w.threads - {id}, queue := w.queue + [StartRequest(next)],
                   finished := w.finished + multiset{id}))
      else None
    case Suspend(id) =>
      if id in w.threads && id in w.registered && Trigger(w.registered[id]) == Met(false)
      then Some(w.(threads := w.threads - {id})) else None
    case AddOutput(output) => Some(w.(outputs := w.outputs + NonNil([output])))
    case ChangeOther(other) => Some(w.(other := other))
    case BeginUpdate(update) =>
      if update in w.updates then None else Some(w.(inflight := w.inflight + 1, updates := w.updates + {update}))
    case FinishUpdate(update, publishes, movements) =>
      if update !in w.updates then None
      else Some(w.(channels := PublishedTo(w.channels, publishes), queue := w.queue + Starts(movements),
                   inflight := w.inflight - 1, updates := w.updates - {update}))
    case Hop(size, answered, order) => NextRun(c, w, size, answered, order)
  }

  ghost function Run(c: Codec<Dump>, w: World, es: seq<Event>): Option<World>
    decreases es
  {
    if es == [] then Some(w)
    else
      var next := Step(c, w, es[0]);
      if next.None? then None else Run(c, next.value, es[1..])
  }

  /** A hop that succeeds hands over exactly the snapshot, however the transfer went. */
  lemma {:induction false} HopCarriesSnapshot(
    c: Codec<Dump>, w: World, size: int32, answered: seq<bool>, order: seq<ExecutionId>)
    requires Lawful(c) && NextRun(c, w, size, answered, order).Some?
    ensures Drained(w) && Enumerates(order, Snapshot(w).stateExecutionsToResume.Keys)
    ensures NextRun(c, w, size, answered, order) == Some(Rebuilt(w, Snapshot(w), order))
  {
    hide Transfer;
    LoadedIsSnapshot(c, Snapshot(w), answered, size);
  }

  // ---- Messages ----

  /** What was taken from one queue, in order. */
  function Retrieved(log: seq<Delivery>, source: Source, ch: string): seq<Message> {
    if log == [] then []
    else
      var last := log[|log| - 1];
      Retrieved(log[..|log| - 1], source, ch)
      + if last.Received? && last.source == source && last.channelName == ch then [last.message] else []
  }

  /** What an event sends to one queue. */
  function SentBy(e: Event, source: Source, ch: string): seq<Message> {
    if e.Publish? && source.FromChannel? then Sent(e.publishes, ch)
    else if e.FinishUpdate? && source.FromChannel? then Sent(e.publishes, ch)
    else if e.ReceiveSignals? && source.FromSignal? then Sent(AsPublishings(e.sigName, e.values), ch)
    else []
  }

  function SentIn(es: seq<Event>, source: Source, ch: string): seq<Message> {
    if es == [] then [] else SentBy(es[0], source, ch) + SentIn(es[1..], source, ch)
  }

  lemma {:induction false} StartThreadsKeeps(w: World, requests: seq<StateRequest>)
    ensures var w' := StartThreads(w, requests);
            w' == w.(counts := w'.counts, threads := w'.threads, started := w'.started)
    decreases requests
  {
    if requests == [] {
    } else {
      StartThreadsKeeps(StartThread(w, requests[0]), requests[1..]);
    }
  }

  /** What was taken from a queue, followed by what is still in it. */
  function Flow(w: World, source: Source, ch: string): seq<Message> {
    Retrieved(w.log, source, ch) + Queue(Messages(w, source), ch)
  }

  ghost predicate NoEmptyQueue(w: World) {
    NoEmptyQueues(w.channels) && NoEmptyQueues(w.signals)
  }

  lemma {:induction false} RetrievedSnoc(log: seq<Delivery>, d: Delivery, source: Source, ch: string)
    ensures Retrieved(log + [d], source, ch) ==
            Retrieved(log, source, ch)
            + if d.Received? && d.source == source && d.channelName == ch then [d.message] else []
  {
    assert (log + [d])[..|log|] == log;
  }

  lemma {:induction false} ReceiveConserves(w: World, d: Delivery, source: Source, ch: string)
    requires d.Received? && d.id in w.registered && Queue(Messages(w, d.source), d.channelName) != []
    requires d.message == Queue(Messages(w, d.source), d.channelName)[0]
    ensures Flow(Delivered(Taken(w, d), d), source, ch) == Flow(w, source, ch)
    ensures NoEmptyQueue(w) ==> NoEmptyQueue(Delivered(Taken(w, d), d))
  {
    hide Retrieved, Stored, Dequeued, Queue, NoEmptyQueues;
    RetrievedSnoc(w.log, d, source, ch);
    DequeuedQueue(Messages(w, d.source), d.channelName, ch);
  }

  lemma {:induction false} TimerConserves(w: World, d: Delivery, source: Source, ch: string)
    requires d.TimerDone? && d.id in w.registered
    ensures Flow(Delivered(w, d), source, ch) == Flow(w, source, ch)
    ensures NoEmptyQueue(Delivered(w, d)) <==> NoEmptyQueue(w)
  {
    hide Retrieved, Stored;
    RetrievedSnoc(w.log, d, source, ch);
  }

  /** A delivery changes the queues, one registration and the log. */
  lemma {:induction false} DeliveryKeeps(w: World, d: Delivery)
    requires d.id in w.registered
    requires d.Received? ==> Queue(Messages(w, d.source), d.channelName) != []
    ensures var w' := Delivered(if d.Received? then Taken(w, d) else w, d);
            && w' == w.(channels := w'.channels, signals := w'.signals, registered := w'.registered, log := w.log + [d])
            && w'.registered.Keys == w.registered.Keys
            && forall id | id in w.registered ::
                 w'.registered[id] == w.registered[id].(completed := w'.registered[id].completed)
  {
  }

  /** Sending to one queue. */
  lemma {:induction false} SendConserves(
    w: World, w': World, publishes: seq<Publishing>, to: Source, source: Source, ch: string)
    requires w'.log == w.log && Messages(w', to) == PublishedTo(Messages(w, to), publishes)
    requires forall other: Source | other != to :: Messages(w', other) == Messages(w, other)
    ensures Flow(w', source, ch) == Flow(w, source, ch) + if source == to then Sent(publishes, ch) else []
    ensures NoEmptyQueue(w) ==> NoEmptyQueue(w')
  {
    hide Retrieved, PublishedTo, Sent, Queue, NoEmptyQueues;
    PublishedToQueues(Messages(w, to), publishes, ch);
    assert Messages(w', FromChannel) == w'.channels && Messages(w', FromSignal) == w'.signals;
    assert Messages(w, FromChannel) == w.channels && Messages(w, FromSignal) == w.signals;
  }

  /** Neither the queues nor the log change. */
  lemma {:induction false} SameQueues(w: World, w': World, source: Source, ch: string)
    requires w'.log == w.log && w'.channels == w.channels && w'.signals == w.signals
    ensures Flow(w', source, ch) == Flow(w, source, ch) && (NoEmptyQueue(w') <==> NoEmptyQueue(w))
  {
  }

  lemma {:induction false} StepConserves(c: Codec<Dump>, w: World, e: Event, source: Source, ch: string)
    requires Lawful(c) && Step(c, w, e).Some?
    ensures var w' := Step(c, w, e).value;
            && Flow(w', source, ch) == Flow(w, source, ch) + SentBy(e, source, ch)
            && (NoEmptyQueue(w) ==> NoEmptyQueue(w'))
  {
    hide Flow, NoEmptyQueue;
    hide NextRun, Retrieved, PublishedTo, Sent, AsPublishings, StartThreads, Delivered, Taken, Trigger, IsPending;
    hide Queue, NoEmptyQueues, NonNil, Starts, StartRequests, ResumeRequests, Overlay;
    var w' := Step(c, w, e).value;
    match e {
      case Publish(publishes) => SendConserves(w, w', publishes, FromChannel, source, ch);
      case FinishUpdate(_, publishes, _) => SendConserves(w, w', publishes, FromChannel, source, ch);
      case ReceiveSignals(sigName, values) =>
        SendConserves(w, w', AsPublishings(sigName, values), FromSignal, source, ch);
      case Receive(id, idx, from, channelName) =>
        if Queue(Messages(w, from), channelName) != [] {
          ReceiveConserves(w, Head(w, id, idx, from, channelName), source, ch);
        }
      case FinishTimer(id, idx, status) => TimerConserves(w, TimerDone(id, idx, status), source, ch);
      case TakeAll =>
        StartThreadsKeeps(w.(queue := []), w.queue);
        SameQueues(w, w', source, ch);
      case Hop(size, answered, order) =>
        HopCarriesSnapshot(c, w, size, answered, order);
        SameQueues(w, w', source, ch);
      case _ => SameQueues(w, w', source, ch);
    }
  }

  lemma {:induction false} StepOutputs(c: Codec<Dump>, w: World, e: Event)
    requires Lawful(c) && Step(c, w, e).Some?
    ensures Step(c, w, e).value.outputs == w.outputs + (if e.AddOutput? then NonNil([e.output]) else [])
  {
    hide NextRun, Retrieved, PublishedTo, Sent, AsPublishings, StartThreads, Delivered, Taken, Trigger, IsPending;
    hide Queue, NoEmptyQueues, NonNil, Starts, StartRequests, ResumeRequests, Overlay;
    match e {
      case TakeAll => StartThreadsKeeps(w.(queue := []), w.queue);
      case Hop(size, answered, order) => HopCarriesSnapshot(c, w, size, answered, order);
      case Receive(id, idx, from, channelName) =>
        if Queue(Messages(w, from), channelName) != [] {
          DeliveryKeeps(w, Head(w, id, idx, from, channelName));
        }
      case FinishTimer(id, idx, status) => DeliveryKeeps(w, TimerDone(id, idx, status));
      case _ =>
    }
  }

  /** Over every run and any number of hops, what was taken from an internal channel or from the
      signals of a name, followed by what is still queued, grows by what was sent to it: nothing
      lost, duplicated or reordered. */
  lemma {:induction false} MessagesConserved(c: Codec<Dump>, w: World, es: seq<Event>, source: Source, ch: string)
    requires Lawful(c) && Run(c, w, es).Some?
    ensures Flow(Run(c, w, es).value, source, ch) == Flow(w, source, ch) + SentIn(es, source, ch)
    decreases es
  {
    hide Step, Flow, NoEmptyQueue, SentBy;
    if es == [] {
    } else {
      StepConserves(c, w, es[0], source, ch);
      MessagesConserved(c, Step(c, w, es[0]).value, es[1..], source, ch);
      assert SentIn(es, source, ch) == SentBy(es[0], source, ch) + SentIn(es[1..], source, ch);
    }
  }

  /** And no key ever has an empty queue. */
  lemma {:induction false} EmptyQueuesNeverArise(c: Codec<Dump>, w: World, es: seq<Event>)
    requires Lawful(c) && Run(c, w, es).Some? && NoEmptyQueue(w)
    ensures NoEmptyQueue(Run(c, w, es).value)
    decreases es
  {
    hide Step, NoEmptyQueue;
    if es == [] {
    } else {
      StepConserves(c, w, es[0], FromChannel, "");
      EmptyQueuesNeverArise(c, Step(c, w, es[0]).value, es[1..]);
    }
  }

  /** From the start of the workflow. */
  lemma {:induction false} OneQueueThatNeverMoved(c: Codec<Dump>, es: seq<Event>, source: Source, ch: string)
    requires Lawful(c) && Run(c, INITIAL, es).Some?
    ensures var w := Run(c, INITIAL, es).value;
            Retrieved(w.log, source, ch) + Queue(Messages(w, source), ch) == SentIn(es, source, ch) && NoEmptyQueue(w)
  {
    hide Run;
    MessagesConserved(c, INITIAL, es, source, ch);
    EmptyQueuesNeverArise(c, INITIAL, es);
  }

  function OutputsIn(es: seq<Event>): seq<StateCompletionOutput> {
    if es == [] then [] else (if es[0].AddOutput? then [es[0].output] else []) + OutputsIn(es[1..])
  }

  /** The collected outputs are the non-nil outputs added, in order, whatever hops happened. */
  lemma {:induction false} OutputsCollected(c: Codec<Dump>, w: World, es: seq<Event>)
    requires Lawful(c) && Run(c, w, es).Some?
    ensures Run(c, w, es).value.outputs == w.outputs + NonNil(OutputsIn(es))
    decreases es
  {
    hide Step, NonNil;
    if es == [] {
      NonNilNone();
    } else {
      StepOutputs(c, w, es[0]);
      OutputsCollected(c, Step(c, w, es[0]).value, es[1..]);
      if es[0].AddOutput? {
        var first, rest := NonNil([es[0].output]), NonNil(OutputsIn(es[1..]));
        NonNilConcat([es[0].output], OutputsIn(es[1..]));
        assert (w.outputs + first) + rest == w.outputs + (first + rest);
      } else {
        assert OutputsIn(es) == OutputsIn(es[1..]);
      }
    }
  }

  lemma {:induction false} NonNilNone()
    ensures NonNil([]) == []
  {
  }

  // ---- Updates ----

  /** The counter of the source counts the updates that have begun and not finished. */
  predicate CountsUpdates(w: World) {
    w.inflight == |w.updates|
  }

  lemma {:induction false} StepCountsUpdates(c: Codec<Dump>, w: World, e: Event)
    requires Lawful(c) && CountsUpdates(w) && Step(c, w, e).Some?
    ensures var w' := Step(c, w, e).value;
            && CountsUpdates(w')
            && (e.Hop? ==> w.updates == {} && w'.updates == {})
            && (forall u | u in w'.updates && !(e == BeginUpdate(u)) :: u in w.updates)
            && (e.FinishUpdate? ==> e.update in w.updates && e.update !in w'.updates)
  {
    hide NextRun, PublishedTo, Sent, AsPublishings, StartThreads, Delivered, Taken, Trigger, IsPending, NonNil;
    match e {
      case TakeAll => StartThreadsKeeps(w.(queue := []), w.queue);
      case Hop(size, answered, order) =>
        HopCarriesSnapshot(c, w, size, answered, order);
        assert |w.updates| == 0;
      case Receive(id, idx, from, channelName) =>
        if Queue(Messages(w, from), channelName) != [] {
          DeliveryKeeps(w, Head(w, id, idx, from, channelName));
        }
      case FinishTimer(id, idx, status) => DeliveryKeeps(w, TimerDone(id, idx, status));
      case _ =>
    }
  }

  lemma {:induction false} RunCountsUpdates(c: Codec<Dump>, w: World, es: seq<Event>)
    requires Lawful(c) && CountsUpdates(w) && Run(c, w, es).Some?
    ensures CountsUpdates(Run(c, w, es).value)
    decreases es
  {
    hide Step, CountsUpdates;
    if es == [] {
    } else {
      StepCountsUpdates(c, w, es[0]);
      RunCountsUpdates(c, Step(c, w, es[0]).value, es[1..]);
    }
  }

  /** The update began in es, and no hop came after that. */
  ghost predicate BegunInThisRun(es: seq<Event>, update: nat) {
    exists j :: 0 <= j < |es| && es[j] == BeginUpdate(update) && forall i | j <= i < |es| :: !es[i].Hop?
  }

  lemma {:induction false} OpenUpdates(c: Codec<Dump>, w: World, es: seq<Event>, update: nat)
    requires Lawful(c) && CountsUpdates(w) && Run(c, w, es).Some? && update in Run(c, w, es).value.updates
    ensures BegunInThisRun(es, update) || (update in w.updates && forall i | 0 <= i < |es| :: !es[i].Hop?)
    decreases es
  {
    hide Step, CountsUpdates;
    if es == [] {
    } else {
      StepCountsUpdates(c, w, es[0]);
      OpenUpdates(c, Step(c, w, es[0]).value, es[1..], update);
      if BegunInThisRun(es[1..], update) {
        var j :| && 0 <= j < |es| - 1 && es[1..][j] == BeginUpdate(update)
                 && forall i | j <= i < |es| - 1 :: !es[1..][i].Hop?;
        assert es[j + 1] == BeginUpdate(update);
        assert forall i | j + 1 <= i < |es| :: es[i] == es[1..][i - 1];
      } else {
        assert forall i | 1 <= i < |es| :: es[i] == es[1..][i - 1];
        if es[0] == BeginUpdate(update) {
          assert BegunInThisRun(es, update);
        }
      }
    }
  }

  /** An update that finishes - publishes its messages and requests its states - does so in the
      run in which it began: a hop waits for it. */
  lemma {:induction false} UpdateStaysInItsRun(c: Codec<Dump>, es: seq<Event>, e: Event)
    requires Lawful(c) && Run(c, INITIAL, es).Some? && e.FinishUpdate?
    requires Step(c, Run(c, INITIAL, es).value, e).Some?
    ensures BegunInThisRun(es, e.update)
  {
    hide Run;
    assert CountsUpdates(INITIAL);
    OpenUpdates(c, INITIAL, es, e.update);
  }
}
