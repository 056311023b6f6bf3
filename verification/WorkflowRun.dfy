/** The objects of one run of the interpreter workflow, and what its threads do with them:
    every method takes exactly the step that Runs.Step describes. */
module WorkflowRuns {
  import opened GoTypes
  import opened Commands
  import opened DeciderTrigger
  import opened InternalChannels
  import opened SignalReceivers
  import opened CarriedState
  import opened SnapshotTransfer
  import opened ContinueAsNew
  import opened ResumedRuns
  import opened Runs
  import opened Histories
  import opened Deliveries

  class WorkflowRun {
    const codec: Codec<Dump>
    const continueAsNewer: ContinueAsNewer
    const stateRequestQueue: StateRequestQueue
    const interStateChannel: InternalChannel
    const signalReceiver: SignalReceiver
    const outputCollector: OutputCollector
    var stateIdStartedCounts: map<string, nat>
    var other: OtherParts
    var threads: map<ExecutionId, Thread>
    ghost var started: seq<StartedState>
    ghost var log: seq<Delivery>
    ghost var finished: multiset<ExecutionId>
    ghost var updates: set<nat>

    /** No two executions share their maps of completed commands, and a resumed thread has the
        id of its execution. */
    ghost predicate Valid()
      reads this`threads, continueAsNewer`stateExecutionToResumeMap
    {
      && (forall id | id in threads && threads[id].Resumed? :: threads[id].info.stateExecutionId == id)
      && continueAsNewer.stateRequestQueue == stateRequestQueue
      && continueAsNewer.interStateChannel == interStateChannel
      && continueAsNewer.signalReceiver == signalReceiver
      && continueAsNewer.outputCollector == outputCollector
      && var m := continueAsNewer.stateExecutionToResumeMap;
         forall a, b | a in m && b in m && a != b :: m[a].progress != m[b].progress
    }

    ghost function Progresses(): set<CommandProgress>
      reads continueAsNewer`stateExecutionToResumeMap
    {
      set id | id in continueAsNewer.stateExecutionToResumeMap :: continueAsNewer.stateExecutionToResumeMap[id].progress
    }

    /** The state of the run, as a value. */
    ghost function Abs(): World
      reads this, continueAsNewer, stateRequestQueue, interStateChannel, signalReceiver, outputCollector, Progresses()
    {
      World(interStateChannel.receivedData, signalReceiver.receivedSignals, stateIdStartedCounts, other,
            stateRequestQueue.queue, continueAsNewer.Registered(), outputCollector.outputs, threads,
            continueAsNewer.inflightUpdateOperations, started, log, finished, updates)
    }

    constructor Start(codec: Codec<Dump>)
      ensures Valid() && this.codec == codec && Abs() == INITIAL
    {
      this.codec := codec;
      var queue := new StateRequestQueue.Empty();
      var channel := new InternalChannel.New();
      var receiver := new SignalReceiver(None);
      var collector := new OutputCollector(None);
      stateRequestQueue, interStateChannel, signalReceiver, outputCollector := queue, channel, receiver, collector;
      continueAsNewer := new ContinueAsNewer(queue, channel, receiver, collector);
      stateIdStartedCounts, other, threads := map[], NO_OTHER_PARTS, map[];
      started, log, finished, updates := [], [], multiset{}, {};
    }

    /** The run that continues as new with these objects. */
    constructor Resume(
      codec: Codec<Dump>, rebuilt: ContinueAsNewer, counts: map<string, nat>, other: OtherParts,
      ghost started: seq<StartedState>, ghost log: seq<Delivery>, ghost finished: multiset<ExecutionId>,
      ghost updates: set<nat>)
      requires rebuilt.stateExecutionToResumeMap == map[]
      ensures Valid() && this.codec == codec && continueAsNewer == rebuilt
      ensures Abs() == World(rebuilt.interStateChannel.receivedData, rebuilt.signalReceiver.receivedSignals,
                             counts, other,
                             rebuilt.stateRequestQueue.queue, map[], rebuilt.outputCollector.outputs, map[],
                             rebuilt.inflightUpdateOperations, started, log, finished, updates)
    {
      this.codec := codec;
      continueAsNewer := rebuilt;
      stateRequestQueue, interStateChannel := rebuilt.stateRequestQueue, rebuilt.interStateChannel;
      signalReceiver, outputCollector := rebuilt.signalReceiver, rebuilt.outputCollector;
      stateIdStartedCounts, this.other, threads := counts, other, map[];
      this.started, this.log, this.finished, this.updates := started, log, finished, updates;
    }

    method PublishMessages(publishes: seq<Publishing>)
      requires Valid()
      modifies interStateChannel
      ensures Valid() && Step(codec, old(Abs()), Publish(publishes)) == Some(Abs())
    {
      interStateChannel.ProcessPublishing(publishes);
    }

    method ReceiveUserSignals(sigName: string, pending: seq<EncodedObject>)
      requires Valid()
      modifies signalReceiver
      ensures Valid() && Step(codec, old(Abs()), ReceiveSignals(sigName, pending)) == Some(Abs())
    {
      signalReceiver.ReceiveSignal(sigName, pending);
    }

    method AddStates(movements: seq<StateMovement>)
      requires Valid()
      modifies stateRequestQueue
      ensures Valid() && Step(codec, old(Abs()), RequestStates(movements)) == Some(Abs())
    {
      stateRequestQueue.AddStateStartRequests(movements);
    }

    method StartAllThreads()
      requires Valid()
      modifies this, stateRequestQueue
      ensures Valid() && Step(codec, old(Abs()), TakeAll) == Some(Abs())
    {
      hide NextRun, StartThreads, Delivered, CanDeliver, CanRegister, ContinueAsNewer.Registered;
      ghost var before := Abs();
      var requests := stateRequestQueue.TakeAll();
      ghost var w := before.(queue := []);
      ghost var all := StartThreads(w, requests);
      assert requests[0..] == requests;
      for i := 0 to |requests|
        invariant w == before.(queue := [], counts := stateIdStartedCounts, threads := threads, started := started)
        invariant other == before.other && log == before.log && finished == before.finished && updates == before.updates
        invariant stateRequestQueue.queue == []
        invariant forall id | id in threads && threads[id].Resumed? :: threads[id].info.stateExecutionId == id
        invariant all == StartThreads(w, requests[i..])
      {
        StartThreadsHead(w, requests[i..]);
        assert requests[i..][1..] == requests[i + 1..];
        StartOneThread(requests[i], w);
        w := StartThread(w, requests[i]);
      }
      StartThreadsNone(w, requests[|requests|..]);
      continueAsNewer.SameRegistered();
      assert Abs() == w;
    }

    /** A new execution gets the next number of its state. */
    method StartOneThread(request: StateRequest, ghost w: World)
      requires w.counts == stateIdStartedCounts && w.threads == threads && w.started == started
      requires forall id | id in threads && threads[id].Resumed? :: threads[id].info.stateExecutionId == id
      modifies this`stateIdStartedCounts, this`threads, this`started
      ensures StartThread(w, request) == w.(counts := stateIdStartedCounts, threads := threads, started := started)
      ensures forall id | id in threads && threads[id].Resumed? :: threads[id].info.stateExecutionId == id
    {
      match request {
        case StartRequest(movement) =>
          var n := (if movement.stateId in stateIdStartedCounts then stateIdStartedCounts[movement.stateId] else 0) + 1;
          stateIdStartedCounts := stateIdStartedCounts[movement.stateId := n];
          threads := threads[ExecutionId(movement.stateId, n) := Fresh(movement)];
          started := started + [StartedState(ExecutionId(movement.stateId, n), movement)];
        case ResumeRequest(info) =>
          threads := threads[info.stateExecutionId := Resumed(info)];
      }
    }

    /** The thread of a new or resumed execution starts to wait for its commands. */
    method RegisterExecution(id: ExecutionId, locals: seq<KeyValue>, request: CommandRequest)
      requires Valid() && CanRegister(Abs(), id, request)
      modifies continueAsNewer`stateExecutionToResumeMap
      ensures Valid() && Step(codec, old(Abs()), Register(id, locals, request)) == Some(Abs())
      ensures Abs().registered[id] ==
              match threads[id]
              case Fresh(m) => ResumeInfo(id, m, locals, request, CompletedCommands(map[], map[], map[]))
              case Resumed(info) => info
    {
      hide NextRun, StartThreads, Delivered, CanDeliver, Acceptable, ContinueAsNewer.Registered;
      var info := match threads[id]
        case Fresh(movement) => ResumeInfo(id, movement, locals, request, NOTHING_COMPLETED)
        case Resumed(resumed) => resumed;
      assert info == Registration(id, threads[id], locals, request) && info.stateExecutionId == id;
      hide Valid, Acceptable;
      RegisterInfo(info);
    }

    /** The maps of completed commands are shared with the command threads from here on. */
    method RegisterInfo(info: ResumeInfo)
      requires Valid()
      modifies continueAsNewer`stateExecutionToResumeMap
      ensures Valid() && Abs() == old(Abs()).(registered := old(Abs()).registered[info.stateExecutionId := info])
    {
      hide ContinueAsNewer.Registered;
      var id := info.stateExecutionId;
      var progress := new CommandProgress(info.completed);
      continueAsNewer.SameRegistered();
      continueAsNewer.AddPotentialStateExecutionToResume(id, info.state, info.locals, info.request, progress);
      assert continueAsNewer.Registered() == old(continueAsNewer.Registered())[id := info];
    }

    /** What decides whether the wait of an execution is over. */
    method CheckTrigger(id: ExecutionId) returns (v: Verdict)
      requires Valid() && id in continueAsNewer.stateExecutionToResumeMap
      ensures v == Trigger(Abs().registered[id])
    {
      var entry := continueAsNewer.stateExecutionToResumeMap[id];
      v := IsDeciderTriggerConditionMet(
        entry.request, entry.progress.timers, entry.progress.signals, entry.progress.channels);
    }

    /** A command thread writes to the maps that were registered. */
    method StoreResult(d: Delivery)
      requires Valid() && d.id in continueAsNewer.stateExecutionToResumeMap
      modifies this`log, continueAsNewer.stateExecutionToResumeMap[d.id].progress
      ensures Valid() && log == old(log) + [d]
      ensures var before := old(continueAsNewer.Registered());
              continueAsNewer.Registered() ==
                before[d.id := before[d.id].(completed := Stored(before[d.id].completed, d))]
      ensures var p := continueAsNewer.stateExecutionToResumeMap[d.id].progress;
              match d
              case Received(_, idx, FromChannel, _, message) => p.channels == old(p.channels)[idx := message]
              case Received(_, idx, FromSignal, _, message) => p.signals == old(p.signals)[idx := message]
              case TimerDone(_, idx, status) => p.timers == old(p.timers)[idx := status]
    {
      hide Stored;
      ghost var m, before := continueAsNewer.stateExecutionToResumeMap, continueAsNewer.Registered();
      assert forall x | x in m && x != d.id :: m[x].progress != m[d.id].progress;
      hide Valid, CommandProgress.Value;
      continueAsNewer.stateExecutionToResumeMap[d.id].progress.Store(d);
      log := log + [d];
      ghost var after := continueAsNewer.Registered();
      assert forall x | x in m && x != d.id :: after[x] == before[x];
      hide ContinueAsNewer.Registered;
      SameButOne(before, after, d.id);
    }

    /** A command thread of an internal-channel command. */
    method RunChannelCommand(id: ExecutionId, idx: int, channelName: string)
      requires Valid() && Step(codec, Abs(), Receive(id, idx, FromChannel, channelName)).Some?
      modifies this`log, interStateChannel, Progresses()
      ensures Valid() && Step(codec, old(Abs()), Receive(id, idx, FromChannel, channelName)) == Some(Abs())
      ensures var queue := old(Queue(interStateChannel.receivedData, channelName));
              queue != [] ==>
                && id in old(continueAsNewer.stateExecutionToResumeMap)
                && continueAsNewer.stateExecutionToResumeMap == old(continueAsNewer.stateExecutionToResumeMap)
                && continueAsNewer.stateExecutionToResumeMap[id].progress.channels ==
                     old(continueAsNewer.stateExecutionToResumeMap[id].progress.channels)[idx := queue[0]]
                && Queue(interStateChannel.receivedData, channelName) == queue[1..]
    {
      hide NextRun, StartThreads, Starts, PublishedTo, CanRegister, Trigger;
      hide IsPending, Stored, Dequeued, Valid, ContinueAsNewer.Registered;
      if interStateChannel.HasData(channelName) {
        var message := interStateChannel.Retrieve(channelName);
        StoreResult(Received(id, idx, FromChannel, channelName, message.value));
      }
    }

    /** A command thread of a signal command. */
    method RunSignalCommand(id: ExecutionId, idx: int, channelName: string)
      requires Valid() && Step(codec, Abs(), Receive(id, idx, FromSignal, channelName)).Some?
      modifies this`log, signalReceiver, Progresses()
      ensures Valid() && Step(codec, old(Abs()), Receive(id, idx, FromSignal, channelName)) == Some(Abs())
      ensures var queue := old(Queue(signalReceiver.receivedSignals, channelName));
              queue != [] ==>
                && id in old(continueAsNewer.stateExecutionToResumeMap)
                && continueAsNewer.stateExecutionToResumeMap == old(continueAsNewer.stateExecutionToResumeMap)
                && continueAsNewer.stateExecutionToResumeMap[id].progress.signals ==
                     old(continueAsNewer.stateExecutionToResumeMap[id].progress.signals)[idx := queue[0]]
                && Queue(signalReceiver.receivedSignals, channelName) == queue[1..]
    {
      hide NextRun, StartThreads, Starts, PublishedTo, CanRegister, Trigger;
      hide IsPending, Stored, Dequeued, Valid, ContinueAsNewer.Registered;
      if signalReceiver.HasSignal(channelName) {
        var message := signalReceiver.Retrieve(channelName);
        StoreResult(Received(id, idx, FromSignal, channelName, message.value));
      }
    }

    /** A command thread of a timer command that fired or was skipped. */
    method RunTimerCommand(id: ExecutionId, idx: int, status: TimerStatus)
      requires Valid() && Step(codec, Abs(), FinishTimer(id, idx, status)).Some?
      modifies this`log, Progresses()
      ensures Valid() && Step(codec, old(Abs()), FinishTimer(id, idx, status)) == Some(Abs())
      ensures id in old(continueAsNewer.stateExecutionToResumeMap)
      ensures continueAsNewer.stateExecutionToResumeMap == old(continueAsNewer.stateExecutionToResumeMap)
      ensures continueAsNewer.stateExecutionToResumeMap[id].progress.timers ==
              old(continueAsNewer.stateExecutionToResumeMap[id].progress.timers)[idx := status]
    {
      hide NextRun, StartThreads, PublishedTo, AsPublishings, Starts, Stored, TriggerSpec, Dequeued, NonNil;
      hide ContinueAsNewer.Registered, CommandProgress.Value;
      StoreResult(TimerDone(id, idx, status));
    }

    /** The execute API succeeded. */
    method CompleteExecution(id: ExecutionId)
      requires Valid() && CanFinish(Abs(), id)
      modifies this, continueAsNewer
      ensures Valid() && Step(codec, old(Abs()), Complete(id)) == Some(Abs())
    {
      hide NextRun, StartThreads, Delivered, CanDeliver, CanRegister;
      hide ContinueAsNewer.Registered, Starts, PublishedTo, NonNil, Trigger;
      continueAsNewer.RemoveStateExecutionToResume(id);
      label Removed:
      threads := threads - {id};
      finished := finished + multiset{id};
      continueAsNewer.SameRegistered@Removed();
    }

    /** The execute API failed, and a configured state follows. */
    method ProceedAfterFailure(id: ExecutionId, next: StateMovement)
      requires Valid() && CanFinish(Abs(), id)
      modifies this, stateRequestQueue
      ensures Valid() && Step(codec, old(Abs()), FailAndProceed(id, next)) == Some(Abs())
    {
      hide NextRun, StartThreads, Delivered, CanDeliver, CanRegister, ContinueAsNewer.Registered, PublishedTo, Trigger;
      stateRequestQueue.AddStateStartRequests([next]);
      assert Starts([next]) == [StartRequest(next)];
      threads := threads - {id};
      finished := finished + multiset{id};
      continueAsNewer.SameRegistered();
    }

    /** The threshold for continue-as-new is met while the execution waits. */
    method SuspendExecution(id: ExecutionId)
      requires Valid() && Step(codec, Abs(), Suspend(id)).Some?
      modifies this
      ensures Valid() && Step(codec, old(Abs()), Suspend(id)) == Some(Abs())
    {
      hide NextRun, StartThreads, Delivered, CanDeliver, CanRegister, ContinueAsNewer.Registered, Starts, Trigger;
      threads := threads - {id};
      continueAsNewer.SameRegistered();
    }

    method CollectOutput(output: StateCompletionOutput)
      requires Valid()
      modifies outputCollector
      ensures Valid() && Step(codec, old(Abs()), AddOutput(output)) == Some(Abs())
    {
      hide NextRun, StartThreads, PublishedTo, AsPublishings, Starts, Stored, TriggerSpec, Dequeued, NonNil;
      outputCollector.Add(output);
    }

    /** The handler of an RPC update, up to its activity. */
    method StartUpdate(ghost update: nat)
      requires Valid() && update !in updates
      modifies this`updates, continueAsNewer`inflightUpdateOperations
      ensures Valid() && Step(codec, old(Abs()), BeginUpdate(update)) == Some(Abs())
    {
      hide NextRun, StartThreads, Delivered, CanDeliver, CanRegister, ContinueAsNewer.Registered;
      continueAsNewer.IncreaseInflightOperation();
      updates := updates + {update};
      continueAsNewer.SameRegistered();
    }

    /** The rest of the handler: publish, request states, and count down. */
    method EndUpdate(ghost update: nat, publishes: seq<Publishing>, movements: seq<StateMovement>)
      requires Valid() && update in updates
      modifies this`updates, continueAsNewer`inflightUpdateOperations, interStateChannel, stateRequestQueue
      ensures Valid() && Step(codec, old(Abs()), FinishUpdate(update, publishes, movements)) == Some(Abs())
    {
      hide NextRun, StartThreads, Delivered, CanDeliver, CanRegister, ContinueAsNewer.Registered, Starts, PublishedTo;
      interStateChannel.ProcessPublishing(publishes);
      stateRequestQueue.AddStateStartRequests(movements);
      continueAsNewer.DecreaseInflightOperation();
      updates := updates - {update};
      continueAsNewer.SameRegistered();
    }

    /** The load and the rebuilt objects. */
    method LoadNextRun(
      answered: seq<bool>, pageSize: int32) returns (next: Option<WorkflowRun>, ghost order: seq<ExecutionId>)
      requires Valid() && Lawful(codec) && Drained(Abs())
      ensures var w := old(Abs());
              && (next.Some? <==> Transfer(codec, Turns(Snapshot(w), answered), pageSize).Got?)
              && (next.Some? ==>
                    && Enumerates(order, Snapshot(w).stateExecutionsToResume.Keys)
                    && fresh(next.value) && next.value.Valid() && next.value.Abs() == Rebuilt(w, Snapshot(w), order))
      ensures next.Some? ==> next.value.codec == codec
    {
      hide Transfer, Overlay;
      order := [];
      ghost var w := Abs();
      assert DumpOf(continueAsNewer, stateIdStartedCounts, other) == Snapshot(w);
      hide Valid, ContinueAsNewer.Registered, DumpOf, Snapshot;
      var rebuilt, counts, nextOther, visited :=
        ResumeFromPreviousRun(codec, continueAsNewer, stateIdStartedCounts, other, answered, pageSize);
      if rebuilt.None? {
        return None, order;
      }
      DumpFields(rebuilt.value, counts, nextOther);
      var run := new WorkflowRun.Resume(codec, rebuilt.value, counts, nextOther, started, log, finished, updates);
      return Some(run), visited;
    }

    /** Continue as new. None: the run is not drained, or the load failed. */
    method ContinueAsNewRun(
      answered: seq<bool>, pageSize: int32) returns (next: Option<WorkflowRun>, ghost order: seq<ExecutionId>)
      requires Valid() && Lawful(codec)
      ensures Step(codec, old(Abs()), Hop(pageSize, answered, order))
        == (if next.Some? then Some(next.value.Abs()) else None)
      ensures next.Some? ==> fresh(next.value) && next.value.Valid()
      ensures next.Some? <==>
                && Drained(old(Abs()))
                && Transfer(codec, Turns(Snapshot(old(Abs())), answered), pageSize).Got?
      ensures next.Some? ==>
                && next.value.codec == codec && threads == map[] && next.value.threads == map[]
                && next.value.other == other && next.value.stateIdStartedCounts == stateIdStartedCounts
                && next.value.interStateChannel.receivedData == interStateChannel.receivedData
                && next.value.signalReceiver.receivedSignals == signalReceiver.receivedSignals
                && next.value.outputCollector.outputs == outputCollector.outputs
                && StartRequests(next.value.stateRequestQueue.queue) == StartRequests(stateRequestQueue.queue)
    {
      hide Transfer, Snapshot, Rebuilt, Step, Valid, ContinueAsNewer.Registered;
      order := [];
      if continueAsNewer.AllThreadsDrained(|threads|) {
        next, order := LoadNextRun(answered, pageSize);
      } else {
        next := None;
      }
      StepHop(codec, old(Abs()), pageSize, answered, order);
      if next.Some? {
        PartsAreKept(codec, old(Abs()), next.value.Abs(), pageSize, answered, order);
      }
    }
  }

  lemma {:induction false} PartsAreKept(
    c: Codec<Dump>, w: World, next: World, size: int32, answered: seq<bool>, order: seq<ExecutionId>)
    requires Lawful(c) && Step(c, w, Hop(size, answered, order)) == Some(next)
    ensures w.threads == map[] && next.threads == map[] && next.other == w.other && next.counts == w.counts
    ensures next.channels == w.channels && next.signals == w.signals && next.outputs == w.outputs
    ensures StartRequests(next.queue) == StartRequests(w.queue)
  {
    hide NextRun;
    HopKeepsParts(c, w, size, answered, order);
  }

  lemma {:induction false} SameButOne(
    before: map<ExecutionId, ResumeInfo>, after: map<ExecutionId, ResumeInfo>, id: ExecutionId)
    requires after.Keys == before.Keys && id in before
    requires forall x | x in before && x != id :: after[x] == before[x]
    ensures after == before[id := after[id]]
  {
  }

  lemma {:induction false} StepHop(c: Codec<Dump>, w: World, size: int32, answered: seq<bool>, order: seq<ExecutionId>)
    requires Lawful(c)
    ensures Step(c, w, Hop(size, answered, order)) ==
            if && Drained(w) && Transfer(c, Turns(Snapshot(w), answered), size).Got?
               && Enumerates(order, Snapshot(w).stateExecutionsToResume.Keys)
            then Some(Rebuilt(w, Snapshot(w), order)) else None
  {
    hide Transfer;
    LoadedIsSnapshot(c, Snapshot(w), answered, size);
  }

  lemma {:induction false} StartThreadsHead(w: World, requests: seq<StateRequest>)
    requires requests != []
    ensures StartThreads(w, requests) == StartThreads(StartThread(w, requests[0]), requests[1..])
  {
  }

  lemma {:induction false} StartThreadsNone(w: World, requests: seq<StateRequest>)
    requires requests == []
    ensures StartThreads(w, requests) == w
  {
  }
}
