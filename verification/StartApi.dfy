/** The start API of the service, as one call without interference; StartProtocol has the
    interleavings. */
module StartApi {
  import opened GoTypes
  import opened BlobStores
  import opened ExternalStorage
  import opened DataAttributes
  import opened Memos
  import opened StartProtocol
  import opened StartRequests

  datatype WorkflowStartRequest = WorkflowStartRequest(workflowId: string, workerUrl: string, stateInput: Message,
    options: Option<StartOptions>)

  class BackendClient {
    var backend: Backend

    constructor (kind: BackendKind)
      ensures backend == EmptyBackend(kind) && BackendOk(backend)
    {
      backend := EmptyBackend(kind);
    }

    /** memo is what the new run would get. */
    method Start(call: Call, memo: Memo, fate: Fate) returns (answer: StartAnswer)
      requires memo == call.MemoOf()
      modifies this
      ensures (backend, answer) == StartInterpreterWorkflow(old(backend), call, fate)
    {
      var (b, a) := StartInterpreterWorkflow(backend, call, fate);
      backend := b;
      answer := a;
    }

    function DescribeRun(workflowId: string, runId: Option<RunId>, fails: bool): Option<Memo>
      reads this
    {
      Described(backend, workflowId, runId, fails)
    }
  }

  datatype InputResult = Input(input: Message) | InputError | InputPanic

  /** StateInput.GetData(): the empty string for a nil pointer. */
  function GetData(o: EncodedObject): string {
    if o.data.None? then "" else o.data.value
  }

  /** The start input goes to the store; for a negative threshold, also one without data. */
  predicate LargeInput(input: Message, threshold: int) {
    input.Some? && |GetData(input.value)| > threshold
  }

  /** A large input is replaced by a reference to its data; any other input stays. */
  ghost predicate InputStandsFor(objects: map<Ref, string>, kept: Message, input: Message, threshold: int) {
    if LargeInput(input, threshold) then
      && kept.Some? && kept.value.encoding == input.value.encoding && kept.value.data.None?
      && RefOf(kept.value).Some? && Resolve(objects, kept.value) == Some(GetData(input.value))
    else kept == input
  }

  /** A large start input goes to the store. The new object copies *Encoding, which panics for
      an input without an encoding - after the blob was written. */
  method ExternalizeStartInput(
    store: BlobStore, input: Message, workflowId: string, threshold: int) returns (r: InputResult)
    requires FreshUuids(store.state)
    modifies store
    ensures FreshUuids(store.state) && Appended(old(store.state), store.state)
    ensures r.Input? ==> InputStandsFor(store.state.objects, r.input, input, threshold)
    ensures if LargeInput(input, threshold) then
              && (r.InputError? <==> Fails(old(store.state)))
              && (r.Input? <==> !Fails(old(store.state)) && input.value.encoding.Some?)
              && |store.state.objects| == |old(store.state).objects| + if r.InputError? then 0 else 1
            else r == Input(input) && store.state == old(store.state)
    ensures input.None? || |GetData(input.value)| <= threshold ==> r == Input(input)
    ensures r.Input? && input.Some? && input.value.data.Some? && |input.value.data.value| > threshold ==>
              && r.input.Some? && r.input.value.encoding == input.value.encoding && r.input.value.data.None?
              && Resolve(store.state.objects, r.input.value) == input.value.data
  {
    if input.None? {
      return Input(input);
    }
    var data := GetData(input.value);
    if |data| > threshold {
      var ref := store.WriteObject(workflowId, data);
      if ref.None? {
        return InputError;
      }
      if input.value.encoding.None? {
        return InputPanic;
      }
      var encoding := Some(input.value.encoding.value);
      return Input(Some(EncodedObject(encoding, None, Some(ref.value.storeId), Some(ref.value.path))));
    }
    return Input(input);
  }

  function GivenAttributes(req: WorkflowStartRequest): seq<KeyValue> {
    if req.options.None? then [] else req.options.value.dataAttributes
  }

  /** The answer of the API once the backend is asked. */
  function Respond(b: Backend, call: Call, fate: Fate, describeFails: bool): Response {
    var (after, answer) := StartInterpreterWorkflow(b, call, fate);
    match AfterStart(call, answer)
    case Answer(response) => response
    case Describe(runId) =>
      AfterDescribe(call, runId, Described(after, call.workflowId, runId, describeFails))
  }

  predicate IgnoresError(o: Option<StartOptions>) {
    o.Some? && o.value.alreadyStarted.Some? && o.value.alreadyStarted.value.ignoreAlreadyStartedError
  }

  predicate HasRequestId(o: Option<StartOptions>) {
    o.Some? && o.value.alreadyStarted.Some? && o.value.alreadyStarted.value.requestId.Some?
  }

  /** The calls for which the backend creates or meets no run, whatever runs there are: it fails or does
      not accept the call, its client drops the call, or it is a cron on Temporal. */
  lemma {:induction false} RunlessExactly(b: Backend, call: Call, fate: Fate, describeFails: bool)
    requires !call.PolicyPanics()
    ensures var o, id := call.options, call.workflowId;
            var r, after := Respond(b, call, fate, describeFails), StartInterpreterWorkflow(b, call, fate).0;
            if fate.BackendError? || (b.kind.Cadence? && o.Some? && o.value.useMemoForDataAttributes) then
              r == Failure && after == b
            else if && o.Some? && o.value.idReusePolicy.None? && o.value.workflowIdReusePolicy.Some?
                    && o.value.workflowIdReusePolicy.value.UnsupportedPolicy? then
              r == SuccessWithoutRun && after == b
            else if && b.kind.Temporal? && o.Some? && o.value.cronSchedule.Some?
                    && o.value.cronSchedule.value != "" then
              if id !in b.schedules then r == SuccessWithoutRun && after == b.(schedules := b.schedules + {id})
              else
                && after == b
                && (!IgnoresError(o) ==> r == Failure)
                && (IgnoresError(o) && !HasRequestId(o) ==> r == SuccessWithoutRun)
                && (IgnoresError(o) && HasRequestId(o) && (describeFails || id !in b.latest) ==> r == Failure)
                && (IgnoresError(o) && HasRequestId(o) && !describeFails
                      && id in b.latest && b.latest[id] in b.runs ==>
                      r == AfterDescribe(call, None, Some(b.runs[b.latest[id]].memo)))
            else !Runless(b.kind, call)
  {
    hide StartMemo;
  }

  /** The run that a call meets: the open one, unless it is to be terminated; or a closed one, if the
      policy, or the default of Cadence, looks at closed runs. */
  function RunMet(b: Backend, call: Call, fate: Fate): Option<RunId> {
    var o := call.options;
    if call.workflowId in b.open && !Asks(o, AllowTerminateIfRunning, TerminateIfRunning) then
      Some(b.open[call.workflowId])
    else if && fate.PolicyRejects? && fate.closed in b.runs && b.runs[fate.closed].workflowId == call.workflowId
            && (|| Asks(o, AllowIfPreviousExitsAbnormally, AllowDuplicateFailedOnly)
                || Asks(o, DisallowReuse, RejectDuplicate)
                || (&& b.kind.Cadence?
                    && (o.Some? ==> o.value.idReusePolicy.None? && o.value.workflowIdReusePolicy.None?))) then
      Some(fate.closed)
    else None
  }

  /** Every other call meets a run, or gets a new one. */
  lemma {:induction false} RunMetExactly(b: Backend, call: Call, fate: Fate, describeFails: bool)
    requires BackendOk(b) && !call.PolicyPanics() && !Runless(b.kind, call)
    requires !fate.BackendError? && !(b.kind.Cadence? && call.UsesMemo())
    ensures var o, id, met := call.options, call.workflowId, RunMet(b, call, fate);
            var r, after := Respond(b, call, fate, describeFails), StartInterpreterWorkflow(b, call, fate).0;
            if met.Some? then
              && after == b && met.value in b.runs
              && (!IgnoresError(o) ==> r == Failure)
              && (IgnoresError(o) && !HasRequestId(o) ==> r == Success(met.value))
              && (IgnoresError(o) && HasRequestId(o) && describeFails ==> r == Failure)
              && (IgnoresError(o) && HasRequestId(o) && !describeFails ==>
                    r == AfterDescribe(call, met, Some(b.runs[met.value].memo)))
            else
              && r == Success(b.nextRun) && b.nextRun !in b.runs
              && after.runs == b.runs[b.nextRun := RunInfo(id, call.MemoOf())]
              && after.open == b.open[id := b.nextRun] && after.latest == b.latest[id := b.nextRun]
              && after.schedules == b.schedules && after.nextRun == b.nextRun + 1
  {
    hide StartMemo;
  }

  /** The request id in the memo decides: the same, none, or another one. */
  lemma {:induction false} AfterDescribeExactly(call: Call, runId: Option<RunId>, memo: Memo)
    requires RequestId(call.options).Some?
    ensures var r := AfterDescribe(call, runId, Some(memo));
            var held := if REQUEST_ID_KEY in memo then memo[REQUEST_ID_KEY].data else None;
            && (held.None? ==> r == PanicError)
            && (held.Some? ==>
                  r == if held.value != call.options.value.alreadyStarted.value.requestId.value then Failure
                       else if runId.Some? then Success(runId.value) else SuccessWithoutRun)
  {
  }

  /** The data attributes after external storage. */
  function Externalized(b: Blobs, req: WorkflowStartRequest, threshold: int): Written {
    WriteAll(b, ValuesOf(GivenAttributes(req)), None, req.workflowId, threshold)
  }

  /** Nothing fails before the backend is asked: the reuse policy can be converted, the search
      attributes can be mapped, the store takes what is large, the workflow id has no reserved
      character, and a large input has an encoding. */
  ghost predicate Prepared(b: Blobs, req: WorkflowStartRequest, attributesMap: bool, enabled: bool, threshold: int) {
    && (req.options.Some? ==> PolicyOf(req.options).Converted? && attributesMap)
    && (enabled ==>
          && Externalized(b, req, threshold).ok && ValidWorkflowId(req.workflowId)
          && (LargeInput(req.stateInput, threshold) ==>
                !Fails(Externalized(b, req, threshold).blobs) && req.stateInput.value.encoding.Some?))
  }

  /** A start panics before the backend is asked if and only if its policy cannot be converted, or a large
      input that has no encoding was written. */
  ghost predicate PreparationPanics(
    b: Blobs, req: WorkflowStartRequest, attributesMap: bool, enabled: bool, threshold: int)
  {
    || PolicyOf(req.options).ConversionPanics?
    || (&& (req.options.Some? ==> attributesMap)
        && enabled && Externalized(b, req, threshold).ok && ValidWorkflowId(req.workflowId)
        && LargeInput(req.stateInput, threshold) && !Fails(Externalized(b, req, threshold).blobs)
        && req.stateInput.value.encoding.None?)
  }

  predicate UnknownIdReusePolicy(req: WorkflowStartRequest) {
    && req.options.Some? && req.options.value.idReusePolicy.Some?
    && req.options.value.idReusePolicy.value.InvalidIdReusePolicy?
  }

  /** The requests to the store that preparing a start takes. */
  function LargeValues(req: WorkflowStartRequest, threshold: int): nat {
    Costs(ValuesOf(GivenAttributes(req)), None, threshold) + if LargeInput(req.stateInput, threshold) then 1 else 0
  }

  lemma {:induction false} FaultsSplit(faults: seq<bool>, n: nat)
    ensures NoFaultsIn(faults, n + 1) <==>
              NoFaultsIn(faults, n) && !(Rest(faults, n) != [] && Rest(faults, n)[0])
  {
  }

  /** When a start gets as far as the backend, in terms of the request and the faults of the store; above
      all, it does when the store works, the id reuse policy is known, the search attributes can be mapped,
      the workflow id has no reserved character and a large input has an encoding. */
  lemma {:induction false} PreparedExactly(
    b: Blobs, req: WorkflowStartRequest, attributesMap: bool, enabled: bool, threshold: int)
    ensures Prepared(b, req, attributesMap, enabled, threshold) <==>
              && !UnknownIdReusePolicy(req) && (req.options.Some? ==> attributesMap)
              && (enabled ==>
                    && '/' !in req.workflowId && '$' !in req.workflowId
                    && NoFaultsIn(b.faults, LargeValues(req, threshold))
                    && (LargeInput(req.stateInput, threshold) ==> req.stateInput.value.encoding.Some?))
    ensures NoFaults(b) ==> NoFaultsIn(b.faults, LargeValues(req, threshold))
  {
    var os := ValuesOf(GivenAttributes(req));
    WriteAllSucceedsExactly(b, os, None, req.workflowId, threshold);
    FaultsSplit(b.faults, Costs(os, None, threshold));
  }

  datatype Preparation = Ready(das: seq<KeyValue>, input: Message) | NotReady(response: Response)

  /** The part before the backend is asked: large data attributes and a large input go to the
      store. Nothing of it is undone when something fails. attributesMap says whether the search
      attributes can be mapped. */
  method PrepareStart(store: BlobStore, req: WorkflowStartRequest, attributesMap: bool, enabled: bool, threshold: int)
    returns (p: Preparation)
    requires FreshUuids(store.state)
    modifies store
    ensures FreshUuids(store.state) && Appended(old(store.state), store.state)
    ensures p.Ready? <==> Prepared(old(store.state), req, attributesMap, enabled, threshold)
    ensures p.Ready? ==> PolicyOf(req.options).Converted?
    ensures p.NotReady? ==> p.response.Failure? || p.response.PanicError?
    ensures p == NotReady(PanicError) <==>
              PreparationPanics(old(store.state), req, attributesMap, enabled, threshold)
    ensures !enabled ==> store.state == old(store.state)
    ensures p.Ready? && !enabled ==> p == Ready(GivenAttributes(req), req.stateInput)
    ensures p.Ready? && enabled ==>
              var w := Externalized(old(store.state), req, threshold);
              && w.ok && |w.objects| == |GivenAttributes(req)| && p.das == WithValues(GivenAttributes(req), w.objects)
              && Appended(w.blobs, store.state)
              && InputStandsFor(store.state.objects, p.input, req.stateInput, threshold)
  {
    var given := GivenAttributes(req);
    if req.options.Some? {
      if GetWorkflowIdReusePolicy(req.options.value).ConversionPanics? {
        return NotReady(PanicError);
      }
      if !attributesMap {
        return NotReady(Failure);
      }
    }
    if !enabled {
      return Ready(given, req.stateInput);
    }
    var das := new KeyValue[|given|](i requires 0 <= i < |given| => given[i]);
    assert das[..] == given;
    if req.options.Some? {
      ghost var done := WriteAllMeaning(store.state, ValuesOf(given), None, req.workflowId, threshold);
      var ok := WriteDataObjectsToExternalStorage(store, das, req.workflowId, enabled, threshold);
      if !ok {
        return NotReady(Failure);
      }
    } else {
      NothingLeft(store.state, ValuesOf(given), req.workflowId, threshold);
      assert given == WithValues(given, []);
    }
    if !ValidWorkflowId(req.workflowId) {
      return NotReady(Failure);
    }
    ghost var written := store.state;
    hide WriteAll, WithValues, ValuesOf, InputStandsFor, LargeInput;
    var inputResult := ExternalizeStartInput(store, req.stateInput, req.workflowId, threshold);
    AppendedTransitive(old(store.state), written, store.state);
    match inputResult {
      case InputError => return NotReady(Failure);
      case InputPanic => return NotReady(PanicError);
      case Input(input) => return Ready(das[..], input);
    }
  }

  /** The part from the first backend call on. */
  method AskBackend(client: BackendClient, call: Call, fate: Fate, describeFails: bool) returns (r: Response)
    requires BackendOk(client.backend) && !call.PolicyPanics()
    modifies client
    ensures BackendOk(client.backend) && Extends(old(client.backend), client.backend)
    ensures r == Respond(old(client.backend), call, fate, describeFails)
    ensures client.backend == StartInterpreterWorkflow(old(client.backend), call, fate).0
    ensures EntryOk(client.backend, LogEntry(call, r))
  {
    hide StartMemo, StartInterpreterWorkflow, Runless;
    StartKeepsBackend(client.backend, call, fate);
    StartMemoRequestId(call.workerUrl, call.options, call.das);
    var memo := BuildMemo(call.workerUrl, call.options, call.das);
    var answer := client.Start(call, memo, fate);
    var next := AfterStart(call, answer);
    if next.Answer? {
      return next.response;
    }
    var described := client.DescribeRun(call.workflowId, next.runId, describeFails);
    r := AfterDescribe(call, next.runId, described);
  }

  /** call is what was sent to the backend, if anything was; input the state input of the new run. */
  method ApiV1WorkflowStartPost(
    store: BlobStore, client: BackendClient, req: WorkflowStartRequest, attributesMap: bool, enabled: bool,
    threshold: int, fate: Fate, describeFails: bool)
    returns (r: Response, sent: bool, call: Call, input: Message)
    requires FreshUuids(store.state) && BackendOk(client.backend)
    modifies store, client
    ensures BackendOk(client.backend) && Extends(old(client.backend), client.backend)
    ensures FreshUuids(store.state) && Appended(old(store.state), store.state)
    ensures sent <==> Prepared(old(store.state), req, attributesMap, enabled, threshold)
    ensures !sent ==>
              && client.backend == old(client.backend)
              && r == if PreparationPanics(old(store.state), req, attributesMap, enabled, threshold) then PanicError
                else Failure
    ensures sent ==>
              && r == Respond(old(client.backend), call, fate, describeFails)
              && client.backend == StartInterpreterWorkflow(old(client.backend), call, fate).0
              && call.workflowId == req.workflowId && call.workerUrl == req.workerUrl && call.options == req.options
              && !call.PolicyPanics() && EntryOk(client.backend, LogEntry(call, r))
    ensures !enabled ==> store.state == old(store.state)
    ensures sent && !enabled ==> call.das == GivenAttributes(req) && input == req.stateInput
    ensures sent && enabled ==>
              var w := Externalized(old(store.state), req, threshold);
              && w.ok && |w.objects| == |GivenAttributes(req)|
              && call.das == WithValues(GivenAttributes(req), w.objects)
              && Appended(w.blobs, store.state)
              && InputStandsFor(store.state.objects, input, req.stateInput, threshold)
  {
    hide StartInterpreterWorkflow, Prepared, PreparationPanics, Externalized, InputStandsFor, WithValues, Respond;
    hide EntryOk;
    call := Call(req.workflowId, req.workerUrl, req.options, []);
    input := req.stateInput;
    sent := false;
    var prepared := PrepareStart(store, req, attributesMap, enabled, threshold);
    if prepared.NotReady? {
      return prepared.response, sent, call, input;
    }
    sent := true;
    call := call.(das := prepared.das);
    input := prepared.input;
    r := AskBackend(client, call, fate, describeFails);
  }
}
