/** Idempotent start: clients start workflows with request ids, in any interleaving, against a
    backend that keeps at most one open run for a workflow id. */
module StartProtocol {
  import opened GoTypes
  import opened DataAttributes
  import opened Memos
  import opened StartRequests

  type RunId = nat

  /** What a client asks for; das are its data attributes as they go to the memo. */
  datatype Call = Call(workflowId: string, workerUrl: string, options: Option<StartOptions>, das: seq<KeyValue>)
  {
    function MemoOf(): Memo {
      StartMemo(workerUrl, options, das)
    }

    predicate Ignores() {
      options.Some? && options.value.alreadyStarted.Some?
        && options.value.alreadyStarted.value.ignoreAlreadyStartedError
    }

    predicate UsesMemo() {
      options.Some? && options.value.useMemoForDataAttributes
    }

    predicate HasCron() {
      options.Some? && options.value.cronSchedule.Some? && options.value.cronSchedule.value != ""
    }

    predicate PolicyPanics() {
      PolicyOf(options).ConversionPanics?
    }

    /** The policy that the backend gets. */
    function Policy(): Option<ReusePolicy> {
      if PolicyOf(options).Converted? then PolicyOf(options).policy else None
    }

    predicate HasUnsupportedPolicy() {
      Policy().Some? && Policy().value.UnsupportedPolicy?
    }

    predicate Terminates() {
      Policy() == Some(TerminateIfRunning)
    }
  }

  datatype RunInfo = RunInfo(workflowId: string, memo: Memo)

  datatype BackendKind = Temporal | Cadence

  /** runs: every run there was, open or closed; open: the open run of a workflow id; latest: its
      last run; schedules: the workflow ids with a schedule (a Temporal cron). */
  datatype Backend = Backend(
    kind: BackendKind,
    runs: map<RunId, RunInfo>,
    open: map<string, RunId>,
    latest: map<string, RunId>,
    schedules: set<string>,
    nextRun: RunId)

  function EmptyBackend(kind: BackendKind): Backend {
    Backend(kind, map[], map[], map[], {}, 0)
  }

  /** The backend's answer. StartedNothing is an empty run id without an error. */
  datatype StartAnswer =
    | Started(runId: RunId)
    | StartedNothing
    | AlreadyStarted(existing: RunId)
    | ScheduleExists
    | StartFailed

  /** What the environment lets the backend do with a start: answer, fail, or - if the reuse policy
      looks at closed runs - point to a run of this workflow id that is closed. */
  datatype Fate = Normal | BackendError | PolicyRejects(closed: RunId)

  /** The policies that look at closed runs; the default of Cadence is one of them. */
  predicate MayReject(kind: BackendKind, policy: Option<ReusePolicy>) {
    match policy
    case None => kind.Cadence?
    case Some(p) => p.AllowDuplicateFailedOnly? || p.RejectDuplicate?
  }

  /** No run is started for such a call: it creates a schedule, or its policy is unknown to the client
      of the backend, which then returns neither a run nor an error. */
  predicate Runless(kind: BackendKind, call: Call) {
    call.HasUnsupportedPolicy() || (kind.Temporal? && call.HasCron())
  }

  function NewRun(b: Backend, workflowId: string, memo: Memo): Backend {
    b.(runs := b.runs[b.nextRun := RunInfo(workflowId, memo)], open := b.open[workflowId := b.nextRun],
       latest := b.latest[workflowId := b.nextRun], nextRun := b.nextRun + 1)
  }

  /** Under TerminateIfRunning an open run is closed and replaced. */
  function StartInterpreterWorkflow(b: Backend, call: Call, fate: Fate): (Backend, StartAnswer) {
    if fate.BackendError? then (b, StartFailed)
    else if b.kind.Cadence? && call.UsesMemo() then (b, StartFailed)
    else if call.HasUnsupportedPolicy() then (b, StartedNothing)
    else if b.kind.Temporal? && call.HasCron() then
      if call.workflowId in b.schedules then (b, ScheduleExists)
      else (b.(schedules := b.schedules + {call.workflowId}), StartedNothing)
    else if call.workflowId in b.open && !call.Terminates() then (b, AlreadyStarted(b.open[call.workflowId]))
    else if && fate.PolicyRejects? && MayReject(b.kind, call.Policy())
            && fate.closed in b.runs && b.runs[fate.closed].workflowId == call.workflowId then
      (b, AlreadyStarted(fate.closed))
    else
      (NewRun(b, call.workflowId, call.MemoOf()), Started(b.nextRun))
  }

  datatype Response = Success(runId: RunId) | SuccessWithoutRun | Failure | PanicError

  /** The start API after the first backend call: an answer, or a describe call to make. Without a
      run id the backend describes the latest run of the workflow id. */
  datatype Next = Answer(response: Response) | Describe(runId: Option<RunId>)

  function AfterStart(call: Call, answer: StartAnswer): Next {
    match answer
    case Started(runId) => Answer(Success(runId))
    case StartedNothing => Answer(SuccessWithoutRun)
    case StartFailed => Answer(Failure)
    case AlreadyStarted(runId) =>
      if !call.Ignores() then Answer(Failure)
      else if RequestId(call.options).None? then Answer(Success(runId))
      else Describe(Some(runId))
    case ScheduleExists =>
      if !call.Ignores() then Answer(Failure)
      else if RequestId(call.options).None? then Answer(SuccessWithoutRun)
      else Describe(None)
  }

  /** What the describe call finds. */
  function Described(b: Backend, workflowId: string, runId: Option<RunId>, fails: bool): Option<Memo> {
    var run := if runId.Some? then runId else if workflowId in b.latest then Some(b.latest[workflowId]) else None;
    if fails || run.None? || run.value !in b.runs then None else Some(b.runs[run.value].memo)
  }

  /** After the describe call; described is None when it failed. Dereferencing the data of a
      missing memo entry panics, which the API turns into an error. */
  function AfterDescribe(call: Call, runId: Option<RunId>, described: Option<Memo>): Response {
    if described.None? then Failure
    else
      var entry := if REQUEST_ID_KEY in described.value then described.value[REQUEST_ID_KEY] else NIL_OBJECT;
      if entry.data.None? then PanicError
      else if entry.data != RequestId(call.options) then Failure
      else if runId.Some? then Success(runId.value)
      else SuccessWithoutRun
  }

  // ---- Interleavings ----

  type Client = nat

  datatype Waiting = Waiting(call: Call, runId: Option<RunId>)

  datatype LogEntry = LogEntry(call: Call, response: Response)

  datatype System = System(backend: Backend, waiting: map<Client, Waiting>, log: seq<LogEntry>)

  function Empty(kind: BackendKind): System {
    System(EmptyBackend(kind), map[], [])
  }

  datatype Event =
    | StartCall(client: Client, call: Call, fate: Fate)
    | DescribeCall(client: Client, fails: bool)
    | OtherStart(workflowId: string, memo: Memo) // a schedule, or somebody else
    | CloseRun(workflowId: string)
    | ContinueRunAsNew(workflowId: string)

  function Step(s: System, e: Event): Option<System> {
    match e
    case StartCall(client, call, fate) =>
      if client in s.waiting then None
      else if call.PolicyPanics() then Some(s.(log := s.log + [LogEntry(call, PanicError)]))
      else
        var (b, answer) := StartInterpreterWorkflow(s.backend, call, fate);
        (match AfterStart(call, answer)
         case Answer(response) => Some(s.(backend := b, log := s.log + [LogEntry(call, response)]))
         case Describe(runId) => Some(s.(backend := b, waiting := s.waiting[client := Waiting(call, runId)])))
    case DescribeCall(client, fails) =>
      if client !in s.waiting then None
      else
        var w := s.waiting[client];
        var described := Described(s.backend, w.call.workflowId, w.runId, fails);
        var entry := LogEntry(w.call, AfterDescribe(w.call, w.runId, described));
        Some(s.(waiting := s.waiting - {client}, log := s.log + [entry]))
    case OtherStart(workflowId, memo) =>
      if workflowId in s.backend.open then None else Some(s.(backend := NewRun(s.backend, workflowId, memo)))
    case CloseRun(workflowId) =>
      Some(s.(backend := s.backend.(open := s.backend.open - {workflowId})))
    case ContinueRunAsNew(workflowId) => // the next run keeps the memo
      var b := s.backend;
      if workflowId !in b.open || b.open[workflowId] !in b.runs then None
      else Some(s.(backend := NewRun(b, workflowId, b.runs[b.open[workflowId]].memo)))
  }

  function Run(s: System, es: seq<Event>): Option<System>
    decreases es
  {
    if es == [] then Some(s)
    else
      var next := Step(s, es[0]);
      if next.None? then None else Run(next.value, es[1..])
  }

  // ---- Safety ----

  /** The request id in the memo of a run. */
  function RequestIdOf(b: Backend, run: RunId): Option<string> {
    if run in b.runs && REQUEST_ID_KEY in b.runs[run].memo then b.runs[run].memo[REQUEST_ID_KEY].data else None
  }

  ghost predicate BackendOk(b: Backend) {
    && (forall run | run in b.runs :: run < b.nextRun)
    && (forall id | id in b.open :: b.open[id] in b.runs && b.runs[b.open[id]].workflowId == id)
  }

  /** A success names a run exactly if the call is one that starts runs; this is a run of the workflow
      id asked for, and if the call had a request id, the run's memo holds it. */
  ghost predicate EntryOk(b: Backend, entry: LogEntry) {
    && (entry.response.SuccessWithoutRun? ==> Runless(b.kind, entry.call))
    && (entry.response.Success? ==>
          && !Runless(b.kind, entry.call)
          && entry.response.runId in b.runs
          && b.runs[entry.response.runId].workflowId == entry.call.workflowId
          && (RequestId(entry.call.options).Some? ==>
                RequestIdOf(b, entry.response.runId) == RequestId(entry.call.options)))
  }

  /** A client between its two calls. */
  ghost predicate WaitingOk(b: Backend, w: Waiting) {
    && RequestId(w.call.options).Some? && w.call.Ignores()
    && (w.runId.None? <==> Runless(b.kind, w.call))
    && (w.runId.Some? ==> w.runId.value in b.runs && b.runs[w.runId.value].workflowId == w.call.workflowId)
  }

  ghost predicate Inv(s: System) {
    && BackendOk(s.backend)
    && (forall i | 0 <= i < |s.log| :: EntryOk(s.backend, s.log[i]))
    && (forall client | client in s.waiting :: WaitingOk(s.backend, s.waiting[client]))
  }

  /** Runs are never forgotten or changed. */
  ghost predicate Extends(b: Backend, later: Backend) {
    later.kind == b.kind && forall run | run in b.runs :: run in later.runs && later.runs[run] == b.runs[run]
  }

  lemma {:induction false} StartKeepsBackend(b: Backend, call: Call, fate: Fate)
    requires BackendOk(b)
    ensures var (after, answer) := StartInterpreterWorkflow(b, call, fate);
            && BackendOk(after) && Extends(b, after)
            && (answer.StartedNothing? || answer.ScheduleExists? ==> Runless(b.kind, call) && after.runs == b.runs)
            && (answer.Started? ==>
                  && !Runless(b.kind, call) && answer.runId in after.runs && answer.runId !in b.runs
                  && after.runs[answer.runId] == RunInfo(call.workflowId, call.MemoOf())
                  && after.open == b.open[call.workflowId := answer.runId]
                  && (call.workflowId in b.open ==> call.Terminates()))
            && (answer.AlreadyStarted? ==>
                  && !Runless(b.kind, call) && !(call.workflowId in b.open && call.Terminates())
                  && answer.existing in after.runs && after.runs[answer.existing].workflowId == call.workflowId)
  {
  }

  lemma {:induction false} Kept(s: System, later: Backend)
    requires Extends(s.backend, later)
    requires forall i | 0 <= i < |s.log| :: EntryOk(s.backend, s.log[i])
    requires forall client | client in s.waiting :: WaitingOk(s.backend, s.waiting[client])
    ensures forall i | 0 <= i < |s.log| :: EntryOk(later, s.log[i])
    ensures forall client | client in s.waiting :: WaitingOk(later, s.waiting[client])
  {
    forall i | 0 <= i < |s.log| ensures EntryOk(later, s.log[i]) {
      assert EntryOk(s.backend, s.log[i]);
    }
    forall client | client in s.waiting ensures WaitingOk(later, s.waiting[client]) {
      assert WaitingOk(s.backend, s.waiting[client]);
    }
  }

  lemma {:induction false} StartCallKeepsInv(s: System, client: Client, call: Call, fate: Fate)
    requires Inv(s) && Step(s, StartCall(client, call, fate)).Some?
    ensures var after := Step(s, StartCall(client, call, fate)).value;
            Inv(after) && Extends(s.backend, after.backend)
  {
    if call.PolicyPanics() {
      assert EntryOk(s.backend, LogEntry(call, PanicError));
    } else {
      var (b, answer) := StartInterpreterWorkflow(s.backend, call, fate);
      StartKeepsBackend(s.backend, call, fate);
      StartMemoRequestId(call.workerUrl, call.options, call.das);
      Kept(s, b);
      hide StartInterpreterWorkflow, StartMemo, Runless;
      match AfterStart(call, answer) {
        case Answer(response) => assert EntryOk(b, LogEntry(call, response));
        case Describe(runId) => assert WaitingOk(b, Waiting(call, runId));
      }
      hide EntryOk, WaitingOk;
    }
  }

  lemma {:induction false} DescribeKeepsInv(s: System, client: Client, fails: bool)
    requires Inv(s) && client in s.waiting
    ensures Inv(Step(s, DescribeCall(client, fails)).value)
  {
    var w := s.waiting[client];
    var response := AfterDescribe(w.call, w.runId, Described(s.backend, w.call.workflowId, w.runId, fails));
    assert WaitingOk(s.backend, w);
    hide Runless;
    assert EntryOk(s.backend, LogEntry(w.call, response));
    hide EntryOk, WaitingOk;
  }

  lemma {:induction false} StepKeepsInv(s: System, e: Event)
    requires Inv(s) && Step(s, e).Some?
    ensures Inv(Step(s, e).value) && Extends(s.backend, Step(s, e).value.backend)
  {
    var after := Step(s, e).value;
    match e {
      case StartCall(client, call, fate) => StartCallKeepsInv(s, client, call, fate);
      case DescribeCall(client, fails) => DescribeKeepsInv(s, client, fails);
      case _ =>
        Kept(s, after.backend);
        hide EntryOk, WaitingOk;
    }
  }

  lemma {:induction false} RunKeepsInv(s: System, es: seq<Event>)
    requires Inv(s) && Run(s, es).Some?
    ensures Inv(Run(s, es).value) && Extends(s.backend, Run(s, es).value.backend)
    decreases es
  {
    hide Step, Inv;
    if es == [] {
    } else {
      StepKeepsInv(s, es[0]);
      RunKeepsInv(Step(s, es[0]).value, es[1..]);
    }
  }

  /** Over every interleaving: a call with request id r that succeeds got a run whose memo holds
      r; so calls with different request ids never both succeed with the same run. */
  lemma {:induction false} RequestIdsNeverShareARun(kind: BackendKind, es: seq<Event>, i: nat, j: nat)
    requires Run(Empty(kind), es).Some?
    requires var log := Run(Empty(kind), es).value.log;
             && i < |log| && j < |log| && log[i].response.Success? && log[j].response == log[i].response
             && RequestId(log[i].call.options).Some? && RequestId(log[j].call.options).Some?
    ensures var s := Run(Empty(kind), es).value;
            && RequestIdOf(s.backend, s.log[i].response.runId) == RequestId(s.log[i].call.options)
            && RequestId(s.log[i].call.options) == RequestId(s.log[j].call.options)
            && s.log[i].call.workflowId == s.log[j].call.workflowId
  {
    assert Inv(Empty(kind));
    RunKeepsInv(Empty(kind), es);
    var s := Run(Empty(kind), es).value;
    assert EntryOk(s.backend, s.log[i]) && EntryOk(s.backend, s.log[j]);
  }

  /** Over every interleaving: a success names a run if and only if the call is neither a cron on
      Temporal nor one with an unsupported policy. Those succeed with an empty run id. */
  lemma {:induction false} SuccessNamesARun(kind: BackendKind, es: seq<Event>, i: nat)
    requires Run(Empty(kind), es).Some? && i < |Run(Empty(kind), es).value.log|
    ensures var entry := Run(Empty(kind), es).value.log[i];
            entry.response.Success? || entry.response.SuccessWithoutRun? ==>
              (entry.response.Success? <==> !Runless(kind, entry.call))
  {
    RunKeepsInv(Empty(kind), es);
    var s := Run(Empty(kind), es).value;
    assert EntryOk(s.backend, s.log[i]);
  }

  // ---- Retries ----

  lemma {:induction false} WaitingKept(s: System, es: seq<Event>, client: Client)
    requires Run(s, es).Some? && client in s.waiting
    requires forall e | e in es :: !(e.DescribeCall? && e.client == client)
    ensures client in Run(s, es).value.waiting && Run(s, es).value.waiting[client] == s.waiting[client]
    decreases es
  {
    if es == [] {
    } else {
      assert es[0] in es;
      WaitingKept(Step(s, es[0]).value, es[1..], client);
    }
  }

  /** The backend answers "already started" for an open run: the policy is known to the client and
      does not terminate, the call creates no schedule, and Cadence is not asked for a memo. */
  predicate MeetsOpenRun(kind: BackendKind, call: Call) {
    && !call.PolicyPanics() && !call.Terminates() && !Runless(kind, call)
    && !(kind.Cadence? && call.UsesMemo())
  }

  /** A call that ignores "already started" errors and carries request id r, made while the
      workflow id has an open run R that it meets. Whatever others do before its describe call - also
      ending R - it gets R exactly if R's memo holds r. It panics exactly if R was started without a
      request id. */
  lemma {:induction false} RetryMeetsTheOpenRun(s: System, client: Client, call: Call, es: seq<Event>)
    requires Inv(s) && client !in s.waiting && MeetsOpenRun(s.backend.kind, call)
    requires call.Ignores() && RequestId(call.options).Some? && call.workflowId in s.backend.open
    requires forall e | e in es :: !(e.DescribeCall? && e.client == client)
    requires Run(Step(s, StartCall(client, call, Normal)).value, es).Some?
    ensures var run := s.backend.open[call.workflowId];
            var before := Run(Step(s, StartCall(client, call, Normal)).value, es).value;
            var after := Step(before, DescribeCall(client, false));
            && client in Step(s, StartCall(client, call, Normal)).value.waiting
            && after.Some? && |after.value.log| == |before.log| + 1
            && var response := after.value.log[|before.log|].response;
               && (response == Success(run) <==> RequestIdOf(s.backend, run) == RequestId(call.options))
               && (response == PanicError <==> RequestIdOf(s.backend, run).None?)
               && (response == Failure <==>
                     RequestIdOf(s.backend, run).Some? && RequestIdOf(s.backend, run) != RequestId(call.options))
  {
    var run := s.backend.open[call.workflowId];
    var s1 := Step(s, StartCall(client, call, Normal)).value;
    assert s1.waiting[client] == Waiting(call, Some(run)) && s1.backend == s.backend;
    StepKeepsInv(s, StartCall(client, call, Normal));
    RunKeepsInv(s1, es);
    WaitingKept(s1, es, client);
    hide Run, Inv, StartMemo;
  }

  /** The answer to a call, when es is what others do between its two backend calls. */
  function AnswerTo(s: System, client: Client, call: Call, es: seq<Event>): Option<Response>
    requires client !in s.waiting
  {
    var s1 := Step(s, StartCall(client, call, Normal)).value;
    if client !in s1.waiting then
      if s1.log == [] then None else Some(s1.log[|s1.log| - 1].response)
    else
      var before := Run(s1, es);
      if before.None? then None
      else
        var after := Step(before.value, DescribeCall(client, false));
        if after.None? || after.value.log == [] then None else Some(after.value.log[|after.value.log| - 1].response)
  }

  /** For every call while R is open, whatever its options: it gets R if and only if it meets R - above all,
      if its policy does not terminate a running run -, ignores "already started" errors, and has no request
      id or the one in R's memo. So retries of the call that started R get R, unless they terminate it. */
  lemma {:induction false} RetryGetsTheOpenRun(s: System, client: Client, call: Call, es: seq<Event>)
    requires Inv(s) && client !in s.waiting && call.workflowId in s.backend.open
    requires forall e | e in es :: !(e.DescribeCall? && e.client == client)
    requires Run(Step(s, StartCall(client, call, Normal)).value, es).Some?
    ensures var run := s.backend.open[call.workflowId];
            AnswerTo(s, client, call, es) == Some(Success(run)) <==>
              && MeetsOpenRun(s.backend.kind, call) && call.Ignores()
              && (RequestId(call.options).None? || RequestIdOf(s.backend, run) == RequestId(call.options))
  {
    var s1 := Step(s, StartCall(client, call, Normal)).value;
    if MeetsOpenRun(s.backend.kind, call) && call.Ignores() && RequestId(call.options).Some? {
      RetryMeetsTheOpenRun(s, client, call, es);
    } else if client in s1.waiting {
      assert s1.waiting[client] == Waiting(call, None);
      WaitingKept(s1, es, client);
      hide Run, Inv;
    } else {
      assert s.backend.open[call.workflowId] < s.backend.nextRun;
    }
  }

  /** A call gets a new run if and only if its policy is known and supported, it is no cron on Temporal and
      asks Cadence for no memo, and there is no open run or it terminates that one; the new run is then the
      open one, with the call's memo. */
  lemma {:induction false} NewRunExactly(s: System, client: Client, call: Call, es: seq<Event>)
    requires Inv(s) && client !in s.waiting
    requires forall e | e in es :: !(e.DescribeCall? && e.client == client)
    requires Run(Step(s, StartCall(client, call, Normal)).value, es).Some?
    ensures var run, b := s.backend.nextRun, s.backend;
            && run !in b.runs
            && (AnswerTo(s, client, call, es) == Some(Success(run)) <==>
                  && !call.PolicyPanics() && !call.HasUnsupportedPolicy()
                  && !(b.kind.Temporal? && call.HasCron()) && !(b.kind.Cadence? && call.UsesMemo())
                  && (call.workflowId !in b.open || call.Terminates()))
            && (AnswerTo(s, client, call, es) == Some(Success(run)) ==>
                  var after := Step(s, StartCall(client, call, Normal)).value.backend;
                  && after.runs == b.runs[run := RunInfo(call.workflowId, call.MemoOf())]
                  && after.open == b.open[call.workflowId := run])
  {
    var s1 := Step(s, StartCall(client, call, Normal)).value;
    if client in s1.waiting {
      StepKeepsInv(s, StartCall(client, call, Normal));
      WaitingKept(s1, es, client);
      hide Run, Inv, StartMemo;
    }
  }

  lemma {:induction false} SchedulesStay(s: System, es: seq<Event>)
    requires Run(s, es).Some?
    ensures s.backend.kind == Run(s, es).value.backend.kind
    ensures s.backend.schedules <= Run(s, es).value.backend.schedules
    decreases es
  {
    if es == [] {
    } else {
      SchedulesStay(Step(s, es[0]).value, es[1..]);
    }
  }

  /** On Temporal, of two cron calls for a workflow id the second one fails, whatever happens in between,
      if it does not ignore "already started" errors; and it succeeds without a run, if it ignores them and
      has no request id. */
  lemma {:induction false} SecondCron(
    s: System, client: Client, call: Call, es: seq<Event>, client2: Client, again: Call)
    requires s.backend.kind.Temporal? && client !in s.waiting
    requires call.HasCron() && again.HasCron() && again.workflowId == call.workflowId
    requires !call.PolicyPanics() && !again.PolicyPanics()
    requires !call.HasUnsupportedPolicy() && !again.HasUnsupportedPolicy()
    requires Run(Step(s, StartCall(client, call, Normal)).value, es).Some?
    requires client2 !in Run(Step(s, StartCall(client, call, Normal)).value, es).value.waiting
    ensures var later := Run(Step(s, StartCall(client, call, Normal)).value, es).value;
            var answer := AnswerTo(later, client2, again, []);
            && (!again.Ignores() ==> answer == Some(Failure))
            && (again.Ignores() && RequestId(again.options).None? ==> answer == Some(SuccessWithoutRun))
  {
    var s1 := Step(s, StartCall(client, call, Normal)).value;
    assert call.workflowId in s1.backend.schedules;
    SchedulesStay(s1, es);
  }

  /** The event does not end the open run of the workflow id: continuing it as new does not, either. */
  predicate LeavesOpen(e: Event, workflowId: string) {
    && !(e.CloseRun? && e.workflowId == workflowId)
    && !(e.StartCall? && e.call.workflowId == workflowId && e.call.Terminates())
  }

  lemma {:induction false} StepKeepsRequestId(s: System, e: Event, workflowId: string)
    requires Inv(s) && Step(s, e).Some? && workflowId in s.backend.open && LeavesOpen(e, workflowId)
    ensures var b, after := s.backend, Step(s, e).value.backend;
            workflowId in after.open && RequestIdOf(after, after.open[workflowId]) == RequestIdOf(b, b.open[workflowId])
  {
    hide StartMemo, EntryOk, WaitingOk, AfterDescribe;
  }

  lemma {:induction false} OpenRunKeepsRequestId(s: System, es: seq<Event>, workflowId: string)
    requires Inv(s) && Run(s, es).Some? && workflowId in s.backend.open
    requires forall e | e in es :: LeavesOpen(e, workflowId)
    ensures var b, after := s.backend, Run(s, es).value.backend;
            workflowId in after.open && RequestIdOf(after, after.open[workflowId]) == RequestIdOf(b, b.open[workflowId])
    decreases es
  {
    hide Step, Inv, LeavesOpen, RequestIdOf;
    if es == [] {
    } else {
      assert es[0] in es;
      StepKeepsRequestId(s, es[0], workflowId);
      StepKeepsInv(s, es[0]);
      OpenRunKeepsRequestId(Step(s, es[0]).value, es[1..], workflowId);
    }
  }

  /** What the request id is for: from the start of a run until it is closed or terminated - over any
      number of runs that it continues as - every call that meets the open run, ignores "already started"
      errors and has the request id of the first one succeeds with the open run and starts nothing. */
  lemma {:induction false} StartIsIdempotent(
    s: System, client: Client, call: Call, es: seq<Event>, client2: Client, again: Call, es2: seq<Event>)
    requires Inv(s) && client !in s.waiting && RequestId(call.options).Some?
    requires AnswerTo(s, client, call, []) == Some(Success(s.backend.nextRun))
    requires var s1 := Step(s, StartCall(client, call, Normal)).value;
             && Run(s1, es).Some? && client2 !in Run(s1, es).value.waiting
             && (forall e | e in es :: LeavesOpen(e, call.workflowId))
    requires again.workflowId == call.workflowId && RequestId(again.options) == RequestId(call.options)
    requires again.Ignores() && MeetsOpenRun(s.backend.kind, again)
    requires var later := Run(Step(s, StartCall(client, call, Normal)).value, es).value;
             && Run(Step(later, StartCall(client2, again, Normal)).value, es2).Some?
             && forall e | e in es2 :: !(e.DescribeCall? && e.client == client2)
    ensures var later := Run(Step(s, StartCall(client, call, Normal)).value, es).value;
            && call.workflowId in later.backend.open
            && AnswerTo(later, client2, again, es2) == Some(Success(later.backend.open[call.workflowId]))
            && Step(later, StartCall(client2, again, Normal)).value.backend == later.backend
  {
    NewRunExactly(s, client, call, []);
    StartMemoRequestId(call.workerUrl, call.options, call.das);
    StepKeepsInv(s, StartCall(client, call, Normal));
    var s1 := Step(s, StartCall(client, call, Normal)).value;
    assert RequestIdOf(s1.backend, s.backend.nextRun) == RequestId(call.options);
    OpenRunKeepsRequestId(s1, es, call.workflowId);
    RunKeepsInv(s1, es);
    var later := Run(s1, es).value;
    assert later.backend.kind == s.backend.kind;
    RetryGetsTheOpenRun(later, client2, again, es2);
    hide Inv, Run, StartMemo, RequestIdOf;
  }

  /** The failing input: a retry under TerminateIfRunning ends the run whose memo holds its request id,
      and gets a new one. */
  lemma {:induction false} TerminatingRetryReplacesTheRun(s: System, client: Client, call: Call)
    requires Inv(s) && client !in s.waiting && !(s.backend.kind.Cadence? && call.UsesMemo())
    requires call.Terminates() && !Runless(s.backend.kind, call) && call.workflowId in s.backend.open
    ensures var after := Step(s, StartCall(client, call, Normal)).value;
            && AnswerTo(s, client, call, []) == Some(Success(s.backend.nextRun))
            && s.backend.nextRun != s.backend.open[call.workflowId]
            && after.backend.open[call.workflowId] == s.backend.nextRun
  {
    assert s.backend.open[call.workflowId] in s.backend.runs;
  }

  const PLAIN_CALL := Call("w", "url", None, [])

  const RETRY_CALL :=
    Call("w", "url", Some(NO_OPTIONS.(alreadyStarted := Some(AlreadyStartedOptions(true, Some("r"))))), [])

  /** The failing run: a start without a request id, and then one that has one and ignores
      "already started" errors. */
  lemma {:induction false} RetryOfPlainStartPanics(kind: BackendKind)
    ensures var es := [StartCall(0, PLAIN_CALL, Normal), StartCall(1, RETRY_CALL, Normal)] + [DescribeCall(1, false)];
            && Run(Empty(kind), es).Some?
            && Run(Empty(kind), es).value.log == [LogEntry(PLAIN_CALL, Success(0)), LogEntry(RETRY_CALL, PanicError)]
  {
    var e1, e2, e3 := StartCall(0, PLAIN_CALL, Normal), StartCall(1, RETRY_CALL, Normal), DescribeCall(1, false);
    var es := [e1, e2] + [e3];
    assert es[1..] == [e2, e3] && es[1..][1..] == [e3] && es[1..][1..][1..] == [];
    var s1 := Step(Empty(kind), e1).value;
    assert s1.backend.runs[0].memo == StartMemo("url", None, []) && s1.backend.open["w"] == 0;
    assert REQUEST_ID_KEY !in s1.backend.runs[0].memo by {
      assert |REQUEST_ID_KEY| == 29 && |WORKER_URL_KEY| == 21;
    }
    var s2 := Step(s1, e2).value;
    assert s2.waiting[1] == Waiting(RETRY_CALL, Some(0)) && s2.backend == s1.backend;
    var s3 := Step(s2, e3).value;
    assert Run(s3, []) == Some(s3) && Run(s2, [e3]) == Some(s3) && Run(s1, [e2, e3]) == Some(s3);
  }
}
