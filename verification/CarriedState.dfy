/** What a run hands to the next one, as values. */
module CarriedState {
  import opened GoTypes
  import opened Commands
  import opened InternalChannels

  /** Written "stateId-number" in the source, which determines both parts. */
  datatype ExecutionId = ExecutionId(stateId: string, number: nat)

  datatype StateMovement = StateMovement(stateId: string, stateInput: Message)

  datatype StateCompletionOutput = StateCompletionOutput(executionId: ExecutionId, completedStateOutput: Message)

  datatype TimerStatus = Fired | Skipped

  /** The commands completed so far, by index. */
  datatype CompletedCommands = CompletedCommands(
    timers: map<int, TimerStatus>,
    signals: map<int, Message>,
    channels: map<int, Message>)

  const NOTHING_COMPLETED := CompletedCommands(map[], map[], map[])

  /** Where a command gets its message from. */
  datatype Source = FromChannel | FromSignal

  /** What a command thread stores for its state execution. */
  datatype Delivery =
    | Received(id: ExecutionId, idx: int, source: Source, channelName: string, message: Message)
    | TimerDone(id: ExecutionId, idx: int, status: TimerStatus)

  function Stored(done: CompletedCommands, d: Delivery): CompletedCommands {
    match d
    case Received(_, idx, FromChannel, _, message) => done.(channels := done.channels[idx := message])
    case Received(_, idx, FromSignal, _, message) => done.(signals := done.signals[idx := message])
    case TimerDone(_, idx, status) => done.(timers := done.timers[idx := status])
  }

  datatype ResumeInfo = ResumeInfo(
    stateExecutionId: ExecutionId,
    state: StateMovement,
    locals: seq<KeyValue>,
    request: CommandRequest,
    completed: CompletedCommands)

  datatype StateRequest = StartRequest(movement: StateMovement) | ResumeRequest(info: ResumeInfo)

  datatype SearchAttribute = SearchAttribute(key: Option<string>, value: string)

  datatype StaleSkipTimerSignal =
    StaleSkipTimerSignal(stateExecutionId: string, timerCommandId: string, timerCommandIndex: int)

  /** The parts of the dump that other objects keep, and that are only carried here. */
  datatype OtherParts = OtherParts(
    dataObjects: seq<KeyValue>,
    searchAttributes: seq<SearchAttribute>,
    stateIdCurrentlyExecutingCount: map<string, int>,
    totalCurrentlyExecutingCount: int,
    staleSkipTimerSignals: seq<StaleSkipTimerSignal>)

  const NO_OTHER_PARTS := OtherParts([], [], map[], 0, [])

  datatype Dump = Dump(
    interStateChannelReceived: Channels,
    signalsReceived: Channels,
    stateIdStartedCount: map<string, nat>,
    other: OtherParts,
    statesToStartFromBeginning: seq<StateMovement>,
    stateExecutionsToResume: map<ExecutionId, ResumeInfo>,
    stateOutputs: seq<StateCompletionOutput>)

  function StartRequests(queue: seq<StateRequest>): seq<StateMovement> {
    if queue == [] then []
    else (if queue[0].StartRequest? then [queue[0].movement] else []) + StartRequests(queue[1..])
  }

  function ResumeRequests(queue: seq<StateRequest>): seq<ResumeInfo> {
    if queue == [] then []
    else (if queue[0].ResumeRequest? then [queue[0].info] else []) + ResumeRequests(queue[1..])
  }

  lemma {:induction false} OneRequest(r: StateRequest)
    ensures StartRequests([r]) == if r.StartRequest? then [r.movement] else []
    ensures ResumeRequests([r]) == if r.ResumeRequest? then [r.info] else []
  {
    assert [r][1..] == [];
  }

  lemma {:induction false} StartRequestsConcat(a: seq<StateRequest>, b: seq<StateRequest>)
    ensures StartRequests(a + b) == StartRequests(a) + StartRequests(b)
  {
    if a == [] {
      assert a + b == b;
    } else {
      StartRequestsConcat(a[1..], b);
      var first := if a[0].StartRequest? then [a[0].movement] else [];
      assert (a + b)[0] == a[0] && (a + b)[1..] == a[1..] + b;
      var rest, others := StartRequests(a[1..]), StartRequests(b);
      assert StartRequests(a + b) == first + (rest + others) && StartRequests(a) == first + rest;
      assert first + (rest + others) == (first + rest) + others;
    }
  }

  lemma {:induction false} ResumeRequestsConcat(a: seq<StateRequest>, b: seq<StateRequest>)
    ensures ResumeRequests(a + b) == ResumeRequests(a) + ResumeRequests(b)
  {
    if a == [] {
      assert a + b == b;
    } else {
      ResumeRequestsConcat(a[1..], b);
      var first := if a[0].ResumeRequest? then [a[0].info] else [];
      assert (a + b)[0] == a[0] && (a + b)[1..] == a[1..] + b;
      var rest, others := ResumeRequests(a[1..]), ResumeRequests(b);
      assert ResumeRequests(a + b) == first + (rest + others) && ResumeRequests(a) == first + rest;
      assert first + (rest + others) == (first + rest) + others;
    }
  }

  /** The loop of GetSnapshot over the queued resume requests. */
  function Overlay(m: map<ExecutionId, ResumeInfo>, infos: seq<ResumeInfo>): map<ExecutionId, ResumeInfo>
    decreases infos
  {
    if infos == [] then m else Overlay(m[infos[0].stateExecutionId := infos[0]], infos[1..])
  }

  lemma {:induction false} OverlaySnoc(m: map<ExecutionId, ResumeInfo>, infos: seq<ResumeInfo>, last: ResumeInfo)
    ensures Overlay(m, infos + [last]) == Overlay(m, infos)[last.stateExecutionId := last]
    decreases infos
  {
    if infos == [] {
    } else {
      assert (infos + [last])[1..] == infos[1..] + [last];
      OverlaySnoc(m[infos[0].stateExecutionId := infos[0]], infos[1..], last);
    }
  }

  predicate HasId(infos: seq<ResumeInfo>, id: ExecutionId) {
    exists i :: 0 <= i < |infos| && infos[i].stateExecutionId == id
  }

  /** The last queued request with this id. */
  function LastWithId(infos: seq<ResumeInfo>, id: ExecutionId): ResumeInfo
    requires HasId(infos, id)
  {
    var last := |infos| - 1;
    if infos[last].stateExecutionId == id then infos[last] else LastWithId(infos[..last], id)
  }

  /** This queued request is the last one with its id. */
  ghost predicate IsLast(infos: seq<ResumeInfo>, i: int) {
    0 <= i < |infos| && forall j | i < j < |infos| :: infos[j].stateExecutionId != infos[i].stateExecutionId
  }

  lemma {:induction false} LastIsLast(infos: seq<ResumeInfo>, i: nat)
    requires IsLast(infos, i)
    ensures HasId(infos, infos[i].stateExecutionId)
    ensures LastWithId(infos, infos[i].stateExecutionId) == infos[i]
    decreases |infos|
  {
    var last := |infos| - 1;
    assert HasId(infos, infos[i].stateExecutionId);
    if i < last {
      assert infos[..last][i] == infos[i];
      LastIsLast(infos[..last], i);
    }
  }

  /** The resume map: exactly the registered ids and the queued ones; the (last) queued
      request wins over a registered one. */
  lemma {:induction false} OverlayExact(m: map<ExecutionId, ResumeInfo>, infos: seq<ResumeInfo>, id: ExecutionId)
    ensures id in Overlay(m, infos) <==> id in m || HasId(infos, id)
    ensures HasId(infos, id) ==> Overlay(m, infos)[id] == LastWithId(infos, id)
    ensures forall i | IsLast(infos, i) && infos[i].stateExecutionId == id :: Overlay(m, infos)[id] == infos[i]
    ensures !HasId(infos, id) && id in m ==> Overlay(m, infos)[id] == m[id]
    decreases |infos|
  {
    forall i | IsLast(infos, i) && infos[i].stateExecutionId == id
      ensures HasId(infos, id) && LastWithId(infos, id) == infos[i]
    {
      LastIsLast(infos, i);
    }
    if infos == [] {
    } else {
      var last := |infos| - 1;
      assert infos == infos[..last] + [infos[last]];
      OverlaySnoc(m, infos[..last], infos[last]);
      OverlayExact(m, infos[..last], id);
      if HasId(infos, id) && infos[last].stateExecutionId != id {
        var i :| 0 <= i < |infos| && infos[i].stateExecutionId == id;
        assert infos[..last][i].stateExecutionId == id;
      }
    }
  }

  lemma {:induction false} OverlayHas(m: map<ExecutionId, ResumeInfo>, infos: seq<ResumeInfo>)
    ensures forall id :: id in Overlay(m, infos) <==> id in m || HasId(infos, id)
    ensures forall id | id in m && !HasId(infos, id) :: Overlay(m, infos)[id] == m[id]
  {
    forall id
      ensures id in Overlay(m, infos) <==> id in m || HasId(infos, id)
      ensures id in m && !HasId(infos, id) ==> Overlay(m, infos)[id] == m[id]
    {
      OverlayExact(m, infos, id);
    }
  }

  // ---- The request queue of the next run ----

  /** An order in which a map with these keys can be visited. */
  ghost predicate Enumerates<K(!new)>(order: seq<K>, keys: set<K>) {
    && (forall k :: k in order <==> k in keys)
    && (forall i, j | 0 <= i < j < |order| :: order[i] != order[j])
  }

  function Starts(movements: seq<StateMovement>): seq<StateRequest> {
    seq(|movements|, i requires 0 <= i < |movements| => StartRequest(movements[i]))
  }

  function Resumes(m: map<ExecutionId, ResumeInfo>, order: seq<ExecutionId>): seq<StateRequest>
    requires forall k | k in order :: k in m
  {
    seq(|order|, i requires 0 <= i < |order| => ResumeRequest(m[order[i]]))
  }

  lemma {:induction false} StartsViews(movements: seq<StateMovement>)
    ensures StartRequests(Starts(movements)) == movements
    ensures ResumeRequests(Starts(movements)) == []
  {
    if movements == [] {
    } else {
      StartsViews(movements[1..]);
      assert Starts(movements)[1..] == Starts(movements[1..]);
    }
  }

  lemma {:induction false} ResumesViews(m: map<ExecutionId, ResumeInfo>, order: seq<ExecutionId>)
    requires forall k | k in order :: k in m
    ensures StartRequests(Resumes(m, order)) == []
    ensures ResumeRequests(Resumes(m, order)) == seq(|order|, i requires 0 <= i < |order| => m[order[i]])
  {
    if order == [] {
    } else {
      ResumesViews(m, order[1..]);
      assert Resumes(m, order)[1..] == Resumes(m, order[1..]);
    }
  }

  /** The ids in a resume map are those of its entries. */
  ghost predicate Keyed(m: map<ExecutionId, ResumeInfo>) {
    forall id | id in m :: m[id].stateExecutionId == id
  }

  /** The requests of a map, in some order, overlay to that map again. */
  lemma {:induction false} OverlayOfEnumeration(
    m: map<ExecutionId, ResumeInfo>, order: seq<ExecutionId>, infos: seq<ResumeInfo>)
    requires Keyed(m) && Enumerates(order, m.Keys)
    requires |infos| == |order| && forall i | 0 <= i < |order| :: infos[i] == m[order[i]]
    ensures Overlay(map[], infos) == m
  {
    forall id
      ensures id in Overlay(map[], infos) <==> id in m
      ensures id in m ==> Overlay(map[], infos)[id] == m[id]
    {
      OverlayExact(map[], infos, id);
      if id in m {
        assert id in order;
        var i :| 0 <= i < |order| && order[i] == id;
        assert infos[i].stateExecutionId == id;
        LastIsSome(infos, id);
      }
    }
  }

  /** Rebuilding the queue from a dump, in any order of the map, and dumping again gives
      the same start requests and the same resume map. */
  lemma {:induction false} RebuiltQueue(
    movements: seq<StateMovement>, m: map<ExecutionId, ResumeInfo>, order: seq<ExecutionId>)
    requires Keyed(m) && Enumerates(order, m.Keys)
    ensures var queue := Starts(movements) + Resumes(m, order);
            && StartRequests(queue) == movements
            && Overlay(map[], ResumeRequests(queue)) == m
            && |ResumeRequests(queue)| == |order|
            && forall i | 0 <= i < |order| :: ResumeRequests(queue)[i] == m[order[i]]
  {
    StartRequestsConcat(Starts(movements), Resumes(m, order));
    ResumeRequestsConcat(Starts(movements), Resumes(m, order));
    StartsViews(movements);
    ResumesViews(m, order);
    OverlayOfEnumeration(m, order, ResumeRequests(Starts(movements) + Resumes(m, order)));
  }

  lemma {:induction false} LastIsSome(infos: seq<ResumeInfo>, id: ExecutionId)
    requires HasId(infos, id)
    ensures exists i :: 0 <= i < |infos| && infos[i] == LastWithId(infos, id) && infos[i].stateExecutionId == id
    decreases |infos|
  {
    var last := |infos| - 1;
    if infos[last].stateExecutionId != id {
      LastIsSome(infos[..last], id);
      var i :| 0 <= i < last && infos[..last][i] == LastWithId(infos[..last], id)
          && infos[..last][i].stateExecutionId == id;
      assert infos[i] == LastWithId(infos, id);
    }
  }
}
