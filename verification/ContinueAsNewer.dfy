/** The mutable state of a run that the next run gets: collected outputs, requested states,
    and the state executions that wait for commands. */
module ContinueAsNew {
  import opened GoTypes
  import opened Commands
  import opened InternalChannels
  import opened CarriedState
  import opened SignalReceivers

  // ---- Outputs ----

  /** The outputs that are kept: those that are not nil. */
  function NonNil(outputs: seq<StateCompletionOutput>): seq<StateCompletionOutput> {
    if outputs == [] then []
    else (if outputs[0].completedStateOutput.Some? then [outputs[0]] else []) + NonNil(outputs[1..])
  }

  lemma {:induction false} NonNilOne(output: StateCompletionOutput)
    ensures NonNil([output]) == if output.completedStateOutput.Some? then [output] else []
  {
    assert [output][1..] == [];
  }

  /** The outputs that are kept stay in order. */
  lemma {:induction false} NonNilConcat(a: seq<StateCompletionOutput>, b: seq<StateCompletionOutput>)
    ensures NonNil(a + b) == NonNil(a) + NonNil(b)
  {
    if a == [] {
      assert a + b == b;
    } else {
      NonNilConcat(a[1..], b);
      var first := if a[0].completedStateOutput.Some? then [a[0]] else [];
      assert (a + b)[0] == a[0] && (a + b)[1..] == a[1..] + b;
      var rest, others := NonNil(a[1..]), NonNil(b);
      assert NonNil(a + b) == first + (rest + others) && NonNil(a) == first + rest;
      assert first + (rest + others) == (first + rest) + others;
    }
  }

  class OutputCollector {
    var outputs: seq<StateCompletionOutput>

    constructor (initOutputs: Option<seq<StateCompletionOutput>>)
      ensures outputs == if initOutputs.Some? then initOutputs.value else []
    {
      outputs := if initOutputs.Some? then initOutputs.value else [];
    }

    method Add(output: StateCompletionOutput)
      modifies this
      ensures outputs == old(outputs) + NonNil([output])
      ensures outputs == if output.completedStateOutput.Some? then old(outputs) + [output] else old(outputs)
    {
      if output.completedStateOutput.Some? {
        outputs := outputs + [output];
      }
    }

    function GetAll(): (r: seq<StateCompletionOutput>)
      reads this
    {
      outputs
    }
  }

  // ---- Requested states ----

  class StateRequestQueue {
    var queue: seq<StateRequest>

    constructor Empty()
      ensures queue == []
    {
      queue := [];
    }

    /** order is the order in which the keys of the map are visited. */
    constructor WithResumeRequests(
      startReqs: seq<StateMovement>, resumeReqs: map<ExecutionId, ResumeInfo>, order: seq<ExecutionId>)
      requires Enumerates(order, resumeReqs.Keys)
      ensures queue == Starts(startReqs) + Resumes(resumeReqs, order)
      ensures Keyed(resumeReqs) ==>
                && StartRequests(queue) == startReqs
                && Overlay(map[], ResumeRequests(queue)) == resumeReqs
    {
      var q: seq<StateRequest> := [];
      for i := 0 to |startReqs|
        invariant q == Starts(startReqs)[..i]
      {
        q := q + [StartRequest(startReqs[i])];
      }
      for i := 0 to |order|
        invariant q == Starts(startReqs) + Resumes(resumeReqs, order)[..i]
      {
        q := q + [ResumeRequest(resumeReqs[order[i]])];
      }
      queue := q;
      if Keyed(resumeReqs) {
        RebuiltQueue(startReqs, resumeReqs, order);
      }
    }

    method TakeAll() returns (taken: seq<StateRequest>)
      modifies this
      ensures taken == old(queue) && queue == []
    {
      taken := queue;
      queue := [];
    }

    method GetAllStateStartRequests() returns (res: seq<StateMovement>)
      ensures res == StartRequests(queue)
    {
      res := [];
      for i := 0 to |queue|
        invariant res == StartRequests(queue[..i])
      {
        assert queue[..i + 1] == queue[..i] + [queue[i]];
        StartRequestsConcat(queue[..i], [queue[i]]);
        if queue[i].StartRequest? {
          res := res + [queue[i].movement];
        }
      }
      assert queue[..|queue|] == queue;
    }

    method GetAllStateResumeRequests() returns (res: seq<ResumeInfo>)
      ensures res == ResumeRequests(queue)
    {
      res := [];
      for i := 0 to |queue|
        invariant res == ResumeRequests(queue[..i])
      {
        assert queue[..i + 1] == queue[..i] + [queue[i]];
        ResumeRequestsConcat(queue[..i], [queue[i]]);
        if queue[i].ResumeRequest? {
          res := res + [queue[i].info];
        }
      }
      assert queue[..|queue|] == queue;
    }

    method AddStateStartRequests(reqs: seq<StateMovement>)
      modifies this
      ensures queue == old(queue) + Starts(reqs)
    {
      for i := 0 to |reqs|
        invariant queue == old(queue) + Starts(reqs)[..i]
      {
        queue := queue + [StartRequest(reqs[i])];
      }
    }
  }

  // ---- State executions waiting for commands ----

  /** The maps that the command threads of one state execution write their results to. */
  class CommandProgress {
    var timers: map<int, TimerStatus>
    var signals: map<int, Message>
    var channels: map<int, Message>

    constructor (completed: CompletedCommands)
      ensures Value() == completed
    {
      timers := completed.timers;
      signals := completed.signals;
      channels := completed.channels;
    }

    function Value(): CompletedCommands
      reads this
    {
      CompletedCommands(timers, signals, channels)
    }

    method Store(d: Delivery)
      modifies this
      ensures Value() == Stored(old(Value()), d)
      ensures match d
              case Received(_, idx, FromChannel, _, message) => channels == old(channels)[idx := message]
              case Received(_, idx, FromSignal, _, message) => signals == old(signals)[idx := message]
              case TimerDone(_, idx, status) => timers == old(timers)[idx := status]
    {
      match d {
        case Received(_, idx, FromChannel, _, message) => channels := channels[idx := message];
        case Received(_, idx, FromSignal, _, message) => signals := signals[idx := message];
        case TimerDone(_, idx, status) => timers := timers[idx := status];
      }
    }
  }

  datatype ResumeEntry =
    ResumeEntry(state: StateMovement, locals: seq<KeyValue>, request: CommandRequest, progress: CommandProgress)
  {
    function Info(id: ExecutionId): ResumeInfo
      reads progress
    {
      ResumeInfo(id, state, locals, request, progress.Value())
    }
  }

  class ContinueAsNewer {
    var stateExecutionToResumeMap: map<ExecutionId, ResumeEntry>
    var inflightUpdateOperations: int
    const stateRequestQueue: StateRequestQueue
    const interStateChannel: InternalChannel
    const signalReceiver: SignalReceiver
    const outputCollector: OutputCollector

    constructor (
      queue: StateRequestQueue, channel: InternalChannel, receiver: SignalReceiver, collector: OutputCollector)
      ensures stateExecutionToResumeMap == map[] && inflightUpdateOperations == 0
      ensures stateRequestQueue == queue && interStateChannel == channel
      ensures signalReceiver == receiver && outputCollector == collector
    {
      stateExecutionToResumeMap := map[];
      inflightUpdateOperations := 0;
      stateRequestQueue := queue;
      interStateChannel := channel;
      signalReceiver := receiver;
      outputCollector := collector;
    }

    /** The registered executions with their progress as it is now. */
    ghost function Registered(): (r: map<ExecutionId, ResumeInfo>)
      reads this`stateExecutionToResumeMap
      reads set id | id in stateExecutionToResumeMap :: stateExecutionToResumeMap[id].progress
      ensures Keyed(r) && r.Keys == stateExecutionToResumeMap.Keys
    {
      map id | id in stateExecutionToResumeMap :: stateExecutionToResumeMap[id].Info(id)
    }

    /** Nothing was registered or removed, and no command of a registered execution completed. */
    twostate lemma SameRegistered()
      requires stateExecutionToResumeMap == old(stateExecutionToResumeMap)
      requires forall id | id in stateExecutionToResumeMap ::
                 stateExecutionToResumeMap[id].progress.Value() == old(stateExecutionToResumeMap[id].progress.Value())
      ensures Registered() == old(Registered())
    {
    }

    /** The first loop of GetSnapshot. */
    method CopyRegistered() returns (local: map<ExecutionId, ResumeInfo>)
      ensures local == Registered()
    {
      local := map[];
      var rest := stateExecutionToResumeMap.Keys;
      while rest != {}
        invariant rest <= stateExecutionToResumeMap.Keys
        invariant local == map id | id in stateExecutionToResumeMap && id !in rest ::
          stateExecutionToResumeMap[id].Info(id)
        decreases rest
      {
        var key := AnyKey(rest);
        local := local[key := stateExecutionToResumeMap[key].Info(key)];
        rest := rest - {key};
      }
    }

    /** Both loops of GetSnapshot. */
    method ResumeMap() returns (local: map<ExecutionId, ResumeInfo>)
      ensures local == Overlay(Registered(), ResumeRequests(stateRequestQueue.queue))
    {
      local := CopyRegistered();
      var queued := stateRequestQueue.GetAllStateResumeRequests();
      local := Overlaid(local, queued);
    }

    /** The second loop of GetSnapshot. */
    static method Overlaid(registered: map<ExecutionId, ResumeInfo>, queued: seq<ResumeInfo>)
      returns (local: map<ExecutionId, ResumeInfo>)
      ensures local == Overlay(registered, queued)
    {
      local := registered;
      for i := 0 to |queued|
        invariant local == Overlay(registered, queued[..i])
      {
        OverlaySnoc(registered, queued[..i], queued[i]);
        assert queued[..i + 1] == queued[..i] + [queued[i]];
        local := local[queued[i].stateExecutionId := queued[i]];
      }
      assert queued[..|queued|] == queued;
    }

    /** The progress maps are held by reference: what was completed since the registration is
        in the dump. The dump has the registered executions and the queued resume requests,
        and the queued request wins. The other parts come from other objects. */
    method GetSnapshot(startedCounts: map<string, nat>, other: OtherParts) returns (d: Dump)
      ensures d == Dump(interStateChannel.receivedData, signalReceiver.receivedSignals, startedCounts, other,
                        StartRequests(stateRequestQueue.queue),
                        Overlay(Registered(), ResumeRequests(stateRequestQueue.queue)), outputCollector.outputs)
      ensures forall id :: id in d.stateExecutionsToResume <==>
                id in stateExecutionToResumeMap || HasId(ResumeRequests(stateRequestQueue.queue), id)
      ensures forall id | id in stateExecutionToResumeMap && !HasId(ResumeRequests(stateRequestQueue.queue), id) ::
                d.stateExecutionsToResume[id] == stateExecutionToResumeMap[id].Info(id)
    {
      var local := ResumeMap();
      var starts := stateRequestQueue.GetAllStateStartRequests();
      d := Dump(interStateChannel.GetAllReceived(), signalReceiver.receivedSignals, startedCounts, other, starts, local,
                outputCollector.GetAll());
      OverlayHas(Registered(), ResumeRequests(stateRequestQueue.queue));
    }

    method AddPotentialStateExecutionToResume(
      id: ExecutionId, state: StateMovement, locals: seq<KeyValue>, request: CommandRequest, progress: CommandProgress)
      modifies this`stateExecutionToResumeMap
      ensures stateExecutionToResumeMap ==
              old(stateExecutionToResumeMap)[id := ResumeEntry(state, locals, request, progress)]
      ensures Registered() == old(Registered())[id := ResumeInfo(id, state, locals, request, progress.Value())]
    {
      stateExecutionToResumeMap := stateExecutionToResumeMap[id := ResumeEntry(state, locals, request, progress)];
    }

    method RemoveStateExecutionToResume(id: ExecutionId)
      modifies this`stateExecutionToResumeMap
      ensures stateExecutionToResumeMap == old(stateExecutionToResumeMap) - {id}
      ensures Registered() == old(Registered()) - {id}
    {
      stateExecutionToResumeMap := stateExecutionToResumeMap - {id};
    }

    method IncreaseInflightOperation()
      modifies this`inflightUpdateOperations
      ensures inflightUpdateOperations == old(inflightUpdateOperations) + 1
      ensures Registered() == old(Registered())
    {
      inflightUpdateOperations := inflightUpdateOperations + 1;
    }

    method DecreaseInflightOperation()
      modifies this`inflightUpdateOperations
      ensures inflightUpdateOperations == old(inflightUpdateOperations) - 1
      ensures Registered() == old(Registered())
    {
      inflightUpdateOperations := inflightUpdateOperations - 1;
    }

    predicate AllThreadsDrained(remainingThreadCount: nat)
      reads this
    {
      remainingThreadCount == 0 && inflightUpdateOperations == 0
    }
  }

  /** A command thread that finishes after the registration of its state execution: a later
      snapshot has its result, although the registered entry was not touched. */
  method CompleteChannelCommand(
    c: ContinueAsNewer, id: ExecutionId, idx: int, channelName: string, startedCounts: map<string, nat>,
      other: OtherParts)
    returns (d: Dump)
    requires id in c.stateExecutionToResumeMap
    requires !HasId(ResumeRequests(c.stateRequestQueue.queue), id)
    modifies c.stateExecutionToResumeMap[id].progress, c.interStateChannel
    ensures c.stateExecutionToResumeMap == old(c.stateExecutionToResumeMap)
    ensures old(c.interStateChannel.HasData(channelName)) ==>
              && id in d.stateExecutionsToResume
              && d.stateExecutionsToResume[id].completed.channels ==
                   old(c.stateExecutionToResumeMap[id].progress.channels)
                     [idx := old(Queue(c.interStateChannel.receivedData, channelName))[0]]
              && Queue(d.interStateChannelReceived, channelName) ==
                   old(Queue(c.interStateChannel.receivedData, channelName))[1..]
  {
    if c.interStateChannel.HasData(channelName) {
      var message := c.interStateChannel.Retrieve(channelName);
      c.stateExecutionToResumeMap[id].progress.Store(Received(id, idx, FromChannel, channelName, message.value));
    }
    d := c.GetSnapshot(startedCounts, other);
  }
}
