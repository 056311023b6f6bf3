/** What happens to every state execution over any number of runs: its command results
    survive each hop, its trigger never panics, and it finishes exactly once - unless it leaks. */
module Lifecycle {
  import opened GoTypes
  import opened Commands
  import opened DeciderTrigger
  import opened TriggerProperties
  import opened InternalChannels
  import opened CarriedState
  import opened SnapshotTransfer
  import opened ResumedRuns
  import opened Runs

  /** The id was created by this workflow. */
  predicate Known(counts: map<string, nat>, id: ExecutionId) {
    1 <= id.number <= Count(counts, id.stateId)
  }

  /** What was delivered to a state execution so far: timers, signals and channel messages. */
  function Results(log: seq<Delivery>, id: ExecutionId): CompletedCommands {
    if log == [] then NOTHING_COMPLETED
    else
      var last := log[|log| - 1];
      var before := Results(log[..|log| - 1], id);
      if last.id == id then Stored(before, last) else before
  }

  lemma {:induction false} ResultsSnoc(log: seq<Delivery>, d: Delivery, id: ExecutionId)
    ensures Results(log + [d], id) == if d.id == id then Stored(Results(log, id), d) else Results(log, id)
  {
    assert (log + [d])[..|log|] == log;
  }

  lemma {:induction false} NoResults(log: seq<Delivery>, id: ExecutionId)
    requires forall d | d in log :: d.id != id
    ensures Results(log, id) == NOTHING_COMPLETED
  {
    if log == [] {
    } else {
      NoResults(log[..|log| - 1], id);
    }
  }

  /** The request was validated, and only its own commands are completed. */
  ghost predicate WellFormed(info: ResumeInfo) {
    && Acceptable(info.request)
    && Reachable(info.request, info.completed.timers.Keys, info.completed.signals.Keys, info.completed.channels.Keys)
  }

  ghost predicate InfoOk(w: World, info: ResumeInfo) {
    && info.completed == Results(w.log, info.stateExecutionId) && Known(w.counts, info.stateExecutionId)
    && WellFormed(info)
  }

  /** A thread that is not registered yet. */
  ghost predicate PendingOk(w: World, id: ExecutionId, t: Thread) {
    match t
    case Fresh(_) => Results(w.log, id) == NOTHING_COMPLETED
    case Resumed(info) => info.stateExecutionId == id && InfoOk(w, info)
  }

  ghost predicate QueueOk(w: World) {
    var infos := ResumeRequests(w.queue);
    && (forall i | 0 <= i < |infos| :: InfoOk(w, infos[i]))
    && (forall i, j | 0 <= i < j < |infos| :: infos[i].stateExecutionId != infos[j].stateExecutionId)
    && (infos != [] ==> w.threads == map[] && w.registered == map[])
  }

  ghost predicate RegisteredOk(w: World) {
    forall id | id in w.registered :: w.registered[id].stateExecutionId == id && InfoOk(w, w.registered[id])
  }

  ghost predicate ThreadsOk(w: World) {
    forall id | id in w.threads :: Known(w.counts, id) && (id in w.registered || PendingOk(w, id, w.threads[id]))
  }

  ghost predicate HistoryOk(w: World) {
    && (forall i | 0 <= i < |w.log| :: Known(w.counts, w.log[i].id))
    && (forall id | id in w.finished :: Known(w.counts, id))
  }

  /** Holds in every reachable world. In particular the progress that would be resumed is all
      that was ever delivered to that state execution. */
  ghost predicate Inv(w: World) {
    QueueOk(w) && RegisteredOk(w) && ThreadsOk(w) && HistoryOk(w)
  }

  // ---- Starting the queued requests ----

  predicate FreshId(before: map<string, nat>, after: map<string, nat>, id: ExecutionId) {
    Count(before, id.stateId) < id.number <= Count(after, id.stateId)
  }

  /** Whether there is a thread id after TakeAll, and which: an old one, a resumed one, or a
      new one with a new id. */
  ghost predicate StartedAt(w: World, requests: seq<StateRequest>, w': World, id: ExecutionId) {
    && Count(w.counts, id.stateId) <= Count(w'.counts, id.stateId)
    && (id in w'.threads <==>
          id in w.threads || HasId(ResumeRequests(requests), id) || FreshId(w.counts, w'.counts, id))
    && (id in w'.threads ==>
          || (id in w.threads && w'.threads[id] == w.threads[id])
          || (w'.threads[id].Resumed? && w'.threads[id].info in ResumeRequests(requests)
              && w'.threads[id].info.stateExecutionId == id)
          || (w'.threads[id].Fresh? && FreshId(w.counts, w'.counts, id)))
  }

  lemma {:induction false} StartThreadAt(w: World, r: StateRequest, id: ExecutionId)
    ensures var w1 := StartThread(w, r);
            && Count(w.counts, id.stateId) <= Count(w1.counts, id.stateId)
            && (id in w1.threads <==>
                  id in w.threads || (r.ResumeRequest? && r.info.stateExecutionId == id)
                    || FreshId(w.counts, w1.counts, id))
            && (id in w1.threads ==>
                  || (id in w.threads && w1.threads[id] == w.threads[id])
                  || (r.ResumeRequest? && r.info.stateExecutionId == id && w1.threads[id] == Resumed(r.info))
                  || (w1.threads[id].Fresh? && FreshId(w.counts, w1.counts, id)))
  {
  }

  lemma {:induction false} StartThreadsAt(w: World, requests: seq<StateRequest>, id: ExecutionId)
    ensures StartedAt(w, requests, StartThreads(w, requests), id)
    decreases requests
  {
    if requests == [] {
    } else {
      var infos, rest := ResumeRequests(requests), ResumeRequests(requests[1..]);
      assert infos == (if requests[0].ResumeRequest? then [requests[0].info] else []) + rest;
      hide StartThread, HasId, ResumeRequests, Count;
      StartThreadsAt(StartThread(w, requests[0]), requests[1..], id);
      HasIdCons(infos, rest, id);
      StartThreadAt(w, requests[0], id);
    }
  }

  lemma {:induction false} KnownGrows(w: World, requests: seq<StateRequest>)
    ensures var w' := StartThreads(w, requests);
            forall id :: Known(w'.counts, id) <==> Known(w.counts, id) || FreshId(w.counts, w'.counts, id)
  {
    var w' := StartThreads(w, requests);
    forall id ensures Known(w'.counts, id) <==> Known(w.counts, id) || FreshId(w.counts, w'.counts, id) {
      StartThreadsAt(w, requests, id);
    }
  }

  lemma {:induction false} HasIdCons(infos: seq<ResumeInfo>, rest: seq<ResumeInfo>, id: ExecutionId)
    requires infos == rest || (infos != [] && infos[1..] == rest)
    ensures HasId(infos, id) <==> (infos != rest && infos[0].stateExecutionId == id) || HasId(rest, id)
  {
  }

  // ---- The invariant over every step ----

  lemma {:induction false} FreshIsUnknown(before: map<string, nat>, after: map<string, nat>, id: ExecutionId)
    ensures FreshId(before, after, id) ==> !Known(before, id)
  {
  }

  lemma {:induction false} TakeAllInv(w: World)
    requires Inv(w)
    ensures Inv(StartThreads(w.(queue := []), w.queue))
  {
    var w0 := w.(queue := []);
    var w' := StartThreads(w0, w.queue);
    KnownGrows(w0, w.queue);
    StartThreadsKeeps(w0, w.queue);
    hide StartThreads, Results, Known;
    forall id | id in w'.threads
      ensures Known(w'.counts, id) && (id in w'.registered || PendingOk(w', id, w'.threads[id]))
    {
      StartThreadsAt(w0, w.queue, id);
      if w'.threads[id].Fresh? && FreshId(w0.counts, w'.counts, id) {
        FreshIsUnknown(w0.counts, w'.counts, id);
        NoResults(w'.log, id);
      }
    }
  }

  lemma {:induction false} StoredWellFormed(info: ResumeInfo, d: Delivery)
    requires WellFormed(info) && IsPending(info, d)
    ensures WellFormed(info.(completed := Stored(info.completed, d)))
  {
  }

  lemma {:induction false} DeliverInv(w: World, d: Delivery)
    requires Inv(w) && CanDeliver(w, d)
    ensures Inv(Delivered(w, d))
  {
    hide Results, Stored, WellFormed, Known, IsPending;
    var w' := Delivered(w, d);
    StoredWellFormed(w.registered[d.id], d);
    forall x ensures Results(w'.log, x) == if d.id == x then Stored(Results(w.log, x), d) else Results(w.log, x) {
      ResultsSnoc(w.log, d, x);
    }
    assert InfoOk(w', w'.registered[d.id]);
    assert forall info: ResumeInfo :: info.stateExecutionId != d.id ==> (InfoOk(w', info) <==> InfoOk(w, info));
    hide InfoOk;
    assert RegisteredOk(w') && ThreadsOk(w') && QueueOk(w') && HistoryOk(w');
  }

  lemma {:induction false} StartsAddNoResumes(queue: seq<StateRequest>, movements: seq<StateMovement>)
    ensures ResumeRequests(queue + Starts(movements)) == ResumeRequests(queue)
  {
    ResumeRequestsConcat(queue, Starts(movements));
    StartsViews(movements);
  }

  /** The unfinished state executions of a world, with their progress. */
  lemma {:induction false} SnapshotInfos(w: World, id: ExecutionId)
    requires Inv(w)
    ensures var m := Snapshot(w).stateExecutionsToResume;
            && (id in m <==> id in w.registered || HasId(ResumeRequests(w.queue), id))
            && (id in m ==> m[id].stateExecutionId == id && InfoOk(w, m[id]))
  {
    var infos := ResumeRequests(w.queue);
    OverlayExact(w.registered, infos, id);
    if HasId(infos, id) {
      LastIsSome(infos, id);
    }
  }

  lemma {:induction false} HopInv(w: World, order: seq<ExecutionId>)
    requires Inv(w) && Enumerates(order, Snapshot(w).stateExecutionsToResume.Keys)
    ensures Inv(Rebuilt(w, Snapshot(w), order))
  {
    var m := Snapshot(w).stateExecutionsToResume;
    var w' := Rebuilt(w, Snapshot(w), order);
    forall id | id in m ensures m[id].stateExecutionId == id && InfoOk(w', m[id]) {
      SnapshotInfos(w, id);
    }
    RebuiltQueue(StartRequests(w.queue), m, order);
    assert RegisteredOk(w') && ThreadsOk(w') && HistoryOk(w');
    hide Snapshot, InfoOk, Overlay, ResumeRequests, StartRequests, Starts, Resumes, RegisteredOk, ThreadsOk, HistoryOk;
    var infos := ResumeRequests(w'.queue);
    forall i | 0 <= i < |infos| ensures InfoOk(w', infos[i]) && infos[i].stateExecutionId == order[i] {
      assert order[i] in m;
    }
    assert QueueOk(w');
  }

  /** The parts of a world that the invariant is about. */
  ghost predicate SameExecutions(w: World, w': World) {
    && w'.counts == w.counts && w'.registered == w.registered && w'.threads == w.threads
    && w'.log == w.log && w'.finished == w.finished && ResumeRequests(w'.queue) == ResumeRequests(w.queue)
  }

  lemma {:induction false} SameExecutionsInv(w: World, w': World)
    requires SameExecutions(w, w')
    ensures Inv(w') <==> Inv(w)
    ensures ExactlyOnce(w') <==> ExactlyOnce(w)
  {
    assert forall info: ResumeInfo :: InfoOk(w', info) <==> InfoOk(w, info);
    assert forall id, t :: PendingOk(w', id, t) <==> PendingOk(w, id, t);
    assert forall id :: OnceAt(w', id) <==> OnceAt(w, id);
    hide InfoOk, PendingOk, OnceAt, ResumeRequests;
    assert QueueOk(w') <==> QueueOk(w);
    assert RegisteredOk(w') <==> RegisteredOk(w);
    assert ThreadsOk(w') <==> ThreadsOk(w);
  }

  lemma {:induction false} RegisterInv(w: World, id: ExecutionId, locals: seq<KeyValue>, request: CommandRequest)
    requires Inv(w) && CanRegister(w, id, request)
    ensures Inv(w.(registered := w.registered[id := Registration(id, w.threads[id], locals, request)]))
  {
    hide Results, Known, Acceptable;
    assert Reachable(request, {}, {}, {});
  }

  /** A thread ends: id finishes or is suspended, and is deregistered or not. */
  ghost predicate Ends(w: World, id: ExecutionId, w': World) {
    && id in w.threads && w'.threads == w.threads - {id}
    && (w'.registered == w.registered || w'.registered == w.registered - {id})
    && (w'.finished == w.finished || w'.finished == w.finished + multiset{id})
    && w'.counts == w.counts && w'.log == w.log && ResumeRequests(w'.queue) == ResumeRequests(w.queue)
  }

  lemma {:induction false} EndsInv(w: World, id: ExecutionId, w': World)
    requires Inv(w) && Ends(w, id, w')
    ensures Inv(w')
  {
  }

  lemma {:induction false} StepEnds(c: Codec<Dump>, w: World, e: Event)
    requires (e.Complete? || e.FailAndProceed? || e.Suspend?) && Step(c, w, e).Some?
    ensures Ends(w, e.id, Step(c, w, e).value)
  {
    if e.FailAndProceed? {
      StartsAddNoResumes(w.queue, [e.next]);
      assert Starts([e.next]) == [StartRequest(e.next)];
    }
  }

  /** A message that is taken leaves everything else alone. */
  lemma {:induction false} TakenInv(w: World, d: Delivery)
    requires d.Received? && Queue(Messages(w, d.source), d.channelName) != []
    ensures SameExecutions(w, Taken(w, d))
    ensures forall x :: CanDeliver(Taken(w, d), x) <==> CanDeliver(w, x)
  {
  }

  lemma {:induction false} StepInv(c: Codec<Dump>, w: World, e: Event)
    requires Lawful(c) && Inv(w) && Step(c, w, e).Some?
    ensures Inv(Step(c, w, e).value)
  {
    hide NextRun, Inv, StartThreads, Delivered, Taken, Snapshot;
    hide Rebuilt, PublishedTo, Ends, CanDeliver, CanRegister, Trigger;
    match e {
      case RequestStates(movements) =>
        StartsAddNoResumes(w.queue, movements);
        SameExecutionsInv(w, Step(c, w, e).value);
      case FinishUpdate(_, _, movements) =>
        StartsAddNoResumes(w.queue, movements);
        SameExecutionsInv(w, Step(c, w, e).value);
      case Register(id, locals, request) => RegisterInv(w, id, locals, request);
      case TakeAll => TakeAllInv(w);
      case Receive(id, idx, source, channelName) =>
        if Queue(Messages(w, source), channelName) != [] {
          var d := Head(w, id, idx, source, channelName);
          TakenInv(w, d);
          SameExecutionsInv(w, Taken(w, d));
          DeliverInv(Taken(w, d), d);
        }
      case FinishTimer(id, idx, status) => DeliverInv(w, TimerDone(id, idx, status));
      case Hop(size, answered, order) =>
        HopCarriesSnapshot(c, w, size, answered, order);
        HopInv(w, order);
      case Complete(id) => EndStepInv(c, w, e);
      case FailAndProceed(id, _) => EndStepInv(c, w, e);
      case Suspend(id) => EndStepInv(c, w, e);
      case _ => SameExecutionsInv(w, Step(c, w, e).value);
    }
  }

  lemma {:induction false} EndStepInv(c: Codec<Dump>, w: World, e: Event)
    requires Inv(w) && (e.Complete? || e.FailAndProceed? || e.Suspend?) && Step(c, w, e).Some?
    ensures Inv(Step(c, w, e).value)
  {
    StepEnds(c, w, e);
    hide Step, Ends, Inv;
    EndsInv(w, e.id, Step(c, w, e).value);
  }

  lemma {:induction false} RunInv(c: Codec<Dump>, w: World, es: seq<Event>)
    requires Lawful(c) && Inv(w) && Run(c, w, es).Some?
    ensures Inv(Run(c, w, es).value)
    decreases es
  {
    hide Step, Inv;
    if es == [] {
    } else {
      StepInv(c, w, es[0]);
      RunInv(c, Step(c, w, es[0]).value, es[1..]);
    }
  }

  // ---- Waiting ----

  /** In every reachable state the decider trigger of every waiting execution gives a verdict: no
      panic, no nil id. */
  lemma {:induction false} TriggerNeverPanics(w: World, id: ExecutionId)
    requires Inv(w) && id in w.registered
    ensures Trigger(w.registered[id]).Met?
  {
    var info := w.registered[id];
    AcceptedNeverPanics(info.request, info.completed.timers.Keys, info.completed.signals.Keys,
      info.completed.channels.Keys);
  }

  /** So a waiting thread never blocks a hop: it can finish, or else be suspended, and not both. */
  lemma {:induction false} WaitingThreadCanEnd(c: Codec<Dump>, w: World, id: ExecutionId)
    requires Inv(w) && id in w.registered && id in w.threads
    ensures Step(c, w, Suspend(id)).Some? <==> Step(c, w, Complete(id)).None?
  {
    hide Inv, Trigger, StartThreads, NextRun, PublishedTo, Delivered, CanDeliver, CanRegister, Starts;
    TriggerNeverPanics(w, id);
  }

  /** A later delivery never turns a wait that is over into one that is not. */
  lemma {:induction false} MetStaysMet(info: ResumeInfo, d: Delivery)
    requires WellFormed(info) && IsPending(info, d) && Trigger(info) == Met(true)
    ensures Trigger(info.(completed := Stored(info.completed, d))) == Met(true)
  {
    StoredWellFormed(info, d);
    var before, after := info.completed, Stored(info.completed, d);
    assert before.timers.Keys <= after.timers.Keys && before.signals.Keys <= after.signals.Keys;
    assert before.channels.Keys <= after.channels.Keys;
    hide TriggerSpec, Stored;
    AcceptedNeverPanics(info.request, after.timers.Keys, after.signals.Keys, after.channels.Keys);
    TriggerMonotone(info.request, before.timers.Keys, before.signals.Keys, before.channels.Keys,
                    after.timers.Keys, after.signals.Keys, after.channels.Keys);
  }

  // ---- Exactly once ----

  predicate Live(w: World, id: ExecutionId) {
    id in w.threads || id in w.registered || HasId(ResumeRequests(w.queue), id)
  }

  /** Every state execution ever created is either finished, once, or still live. */
  ghost predicate ExactlyOnce(w: World) {
    forall id :: OnceAt(w, id)
  }

  ghost predicate OnceAt(w: World, id: ExecutionId) {
    && (Known(w.counts, id) <==> id in w.finished || Live(w, id))
    && (Live(w, id) ==> id !in w.finished)
    && w.finished[id] <= 1
  }

  /** A registered execution whose execute API fails: the code goes on to the configured state
      and does not remove the registration. */
  predicate Leaks(w: World, e: Event) {
    e.FailAndProceed? && e.id in w.registered
  }

  lemma {:induction false} TakeAllExact(w: World)
    requires Inv(w) && ExactlyOnce(w)
    ensures ExactlyOnce(StartThreads(w.(queue := []), w.queue))
  {
    var w0 := w.(queue := []);
    var w' := StartThreads(w0, w.queue);
    KnownGrows(w0, w.queue);
    StartThreadsKeeps(w0, w.queue);
    hide StartThreads;
    forall id ensures OnceAt(w', id) {
      assert OnceAt(w, id);
      StartThreadsAt(w0, w.queue, id);
      FreshIsUnknown(w0.counts, w'.counts, id);
    }
  }

  lemma {:induction false} HopExact(w: World, order: seq<ExecutionId>)
    requires Inv(w) && Drained(w) && Enumerates(order, Snapshot(w).stateExecutionsToResume.Keys)
    ensures var w' := Rebuilt(w, Snapshot(w), order);
            && (ExactlyOnce(w') <==> ExactlyOnce(w))
            && forall id :: Live(w', id) <==> Live(w, id)
  {
    var w' := Rebuilt(w, Snapshot(w), order);
    HopInv(w, order);
    forall id ensures (Live(w', id) <==> Live(w, id)) && (OnceAt(w', id) <==> OnceAt(w, id)) {
      SnapshotInfos(w, id);
      SameQueuedIds(w, order, id);
    }
  }

  lemma {:induction false} SameQueuedIds(w: World, order: seq<ExecutionId>, id: ExecutionId)
    requires Inv(w) && Enumerates(order, Snapshot(w).stateExecutionsToResume.Keys)
    ensures HasId(ResumeRequests(Rebuilt(w, Snapshot(w), order).queue), id) <==>
      id in Snapshot(w).stateExecutionsToResume
  {
    var m := Snapshot(w).stateExecutionsToResume;
    forall x | x in m ensures m[x].stateExecutionId == x {
      SnapshotInfos(w, x);
    }
    RebuiltQueue(StartRequests(w.queue), m, order);
    var infos := ResumeRequests(Rebuilt(w, Snapshot(w), order).queue);
    OverlayExact(map[], infos, id);
  }

  lemma {:induction false} EndsOnceAt(w: World, id: ExecutionId, w': World, x: ExecutionId)
    requires QueueOk(w) && Ends(w, id, w') && OnceAt(w, x)
    requires w'.finished != w.finished || id in w'.registered
    ensures OnceAt(w', x) <==> x != id || w'.finished == w.finished || id !in w'.registered
  {
  }

  lemma {:induction false} EndsExact(w: World, id: ExecutionId, w': World)
    requires Inv(w) && ExactlyOnce(w) && Ends(w, id, w')
    requires w'.finished != w.finished || id in w'.registered
    ensures ExactlyOnce(w') <==> w'.finished == w.finished || id !in w'.registered
  {
    hide OnceAt, Ends;
    forall x ensures OnceAt(w', x) <==> x != id || w'.finished == w.finished || id !in w'.registered {
      EndsOnceAt(w, id, w', x);
    }
    assert OnceAt(w', id) <==> w'.finished == w.finished || id !in w'.registered;
  }

  lemma {:induction false} EndStepExact(c: Codec<Dump>, w: World, e: Event)
    requires Inv(w) && ExactlyOnce(w) && (e.Complete? || e.FailAndProceed? || e.Suspend?) && Step(c, w, e).Some?
    ensures ExactlyOnce(Step(c, w, e).value) <==> !Leaks(w, e)
  {
    StepEnds(c, w, e);
    hide Ends, Inv, ExactlyOnce;
    EndsExact(w, e.id, Step(c, w, e).value);
  }

  /** The one step that breaks it, exactly. */
  lemma {:induction false} StepExact(c: Codec<Dump>, w: World, e: Event)
    requires Lawful(c) && Inv(w) && ExactlyOnce(w) && Step(c, w, e).Some?
    ensures ExactlyOnce(Step(c, w, e).value) <==> !Leaks(w, e)
  {
    hide NextRun, Inv, ExactlyOnce, StartThreads, Delivered, Taken;
    hide Snapshot, Rebuilt, PublishedTo, CanDeliver, CanRegister, Trigger;
    match e {
      case RequestStates(movements) =>
        StartsAddNoResumes(w.queue, movements);
        SameExecutionsInv(w, Step(c, w, e).value);
      case FinishUpdate(_, _, movements) =>
        StartsAddNoResumes(w.queue, movements);
        SameExecutionsInv(w, Step(c, w, e).value);
      case Register(id, locals, request) => RegisterExact(w, id, locals, request);
      case TakeAll => TakeAllExact(w);
      case Receive(id, idx, source, channelName) =>
        if Queue(Messages(w, source), channelName) != [] {
          var d := Head(w, id, idx, source, channelName);
          TakenInv(w, d);
          SameExecutionsInv(w, Taken(w, d));
          DeliverExact(Taken(w, d), d);
        }
      case FinishTimer(id, idx, status) => DeliverExact(w, TimerDone(id, idx, status));
      case Hop(size, answered, order) =>
        HopCarriesSnapshot(c, w, size, answered, order);
        HopExact(w, order);
      case Complete(id) => EndStepExact(c, w, e);
      case FailAndProceed(id, _) => EndStepExact(c, w, e);
      case Suspend(id) => EndStepExact(c, w, e);
      case _ => SameExecutionsInv(w, Step(c, w, e).value);
    }
  }

  lemma {:induction false} RegisterExact(w: World, id: ExecutionId, locals: seq<KeyValue>, request: CommandRequest)
    requires ExactlyOnce(w) && CanRegister(w, id, request)
    ensures ExactlyOnce(w.(registered := w.registered[id := Registration(id, w.threads[id], locals, request)]))
  {
    var w' := w.(registered := w.registered[id := Registration(id, w.threads[id], locals, request)]);
    forall x ensures OnceAt(w', x) {
      assert OnceAt(w, x) && (Live(w', x) <==> Live(w, x));
    }
  }

  lemma {:induction false} DeliverExact(w: World, d: Delivery)
    requires ExactlyOnce(w) && CanDeliver(w, d)
    ensures ExactlyOnce(Delivered(w, d))
  {
    var w' := Delivered(w, d);
    assert w'.registered.Keys == w.registered.Keys;
    forall x ensures OnceAt(w', x) {
      assert OnceAt(w, x) && (Live(w', x) <==> Live(w, x));
    }
  }

  // ---- Whole runs ----

  /** Some execution leaks somewhere in the run. */
  ghost predicate SomeLeak(c: Codec<Dump>, w: World, es: seq<Event>)
    decreases es
  {
    es != [] && (Leaks(w, es[0]) || (Step(c, w, es[0]).Some? && SomeLeak(c, Step(c, w, es[0]).value, es[1..])))
  }

  ghost predicate ExactlyOnceThroughout(c: Codec<Dump>, w: World, es: seq<Event>)
    decreases es
  {
    ExactlyOnce(w) && (es != [] && Step(c, w, es[0]).Some? ==>
      ExactlyOnceThroughout(c, Step(c, w, es[0]).value, es[1..]))
  }

  /** Over every run with any number of hops: in every state, each state execution created is
      finished once or still live - running, waiting, or queued for the next run - if and only
      if no registered execution failed and proceeded. */
  lemma {:induction false} ExactlyOnceUnlessLeak(c: Codec<Dump>, w: World, es: seq<Event>)
    requires Lawful(c) && Inv(w) && ExactlyOnce(w) && Run(c, w, es).Some?
    ensures ExactlyOnceThroughout(c, w, es) <==> !SomeLeak(c, w, es)
    decreases es
  {
    hide Step, Inv, Leaks, ExactlyOnce;
    if es == [] {
    } else {
      var w1 := Step(c, w, es[0]).value;
      StepInv(c, w, es[0]);
      StepExact(c, w, es[0]);
      if Leaks(w, es[0]) {
        assert !ExactlyOnceThroughout(c, w1, es[1..]);
      } else {
        ExactlyOnceUnlessLeak(c, w1, es[1..]);
      }
    }
  }

  lemma {:induction false} InitialIsExact()
    ensures Inv(INITIAL) && ExactlyOnce(INITIAL)
  {
  }

  /** From the start of the workflow. */
  lemma {:induction false} ExactlyOnceFromTheStart(c: Codec<Dump>, es: seq<Event>)
    requires Lawful(c) && Run(c, INITIAL, es).Some?
    ensures ExactlyOnceThroughout(c, INITIAL, es) <==> !SomeLeak(c, INITIAL, es)
    ensures Inv(Run(c, INITIAL, es).value)
  {
    hide Run, Inv, ExactlyOnce, ExactlyOnceThroughout, SomeLeak;
    InitialIsExact();
    ExactlyOnceUnlessLeak(c, INITIAL, es);
    RunInv(c, INITIAL, es);
  }

  /** After a hop without a leak before it: the new run's queue resumes exactly the unfinished
      state executions, each once and with everything delivered to it, and requests the same
      new states. */
  lemma {:induction false} HopResumesTheUnfinished(
    c: Codec<Dump>, w: World, size: int32, answered: seq<bool>, order: seq<ExecutionId>)
    requires Lawful(c) && Inv(w) && ExactlyOnce(w) && NextRun(c, w, size, answered, order).Some?
    ensures var w' := NextRun(c, w, size, answered, order).value;
            var infos := ResumeRequests(w'.queue);
            && (forall id :: HasId(infos, id) <==> Known(w.counts, id) && id !in w.finished)
            && (forall i, j | 0 <= i < j < |infos| :: infos[i].stateExecutionId != infos[j].stateExecutionId)
            && (forall i | 0 <= i < |infos| :: infos[i].completed == Results(w.log, infos[i].stateExecutionId))
            && StartRequests(w'.queue) == StartRequests(w.queue)
            && w'.counts == w.counts
  {
    HopCarriesSnapshot(c, w, size, answered, order);
    var w' := Rebuilt(w, Snapshot(w), order);
    HopInv(w, order);
    HopExact(w, order);
    forall id ensures HasId(ResumeRequests(w'.queue), id) <==> Known(w.counts, id) && id !in w.finished {
      assert (Live(w', id) <==> Live(w, id)) && OnceAt(w, id);
    }
    var m := Snapshot(w).stateExecutionsToResume;
    forall x | x in m ensures m[x].stateExecutionId == x {
      SnapshotInfos(w, x);
    }
    RebuiltQueue(StartRequests(w.queue), m, order);
  }

  // ---- Leaks ----

  const EMPTY_REQUEST := CommandRequest(None, None, [], [], [], [])

  /** A workflow starts its first state execution. */
  lemma {:induction false} FirstExecution(c: Codec<Dump>, m: StateMovement, es: seq<Event>)
    ensures var id := ExecutionId(m.stateId, 1);
            Run(c, INITIAL, [RequestStates([m]), TakeAll] + es) ==
              Run(c, INITIAL.(counts := map[m.stateId := 1], threads := map[id := Fresh(m)],
                              started := [StartedState(id, m)]), es)
  {
    hide Run;
    RunCons(c, INITIAL, RequestStates([m]), [TakeAll] + es);
    assert [RequestStates([m])] + ([TakeAll] + es) == [RequestStates([m]), TakeAll] + es;
    var w1 := Step(c, INITIAL, RequestStates([m])).value;
    assert w1.queue == [StartRequest(m)] && w1.queue[1..] == [];
    RunCons(c, w1, TakeAll, es);
    var w2 := Step(c, w1, TakeAll).value;
    assert w2 == StartThreads(StartThread(w1.(queue := []), w1.queue[0]), w1.queue[1..]);
    assert w2.threads == map[ExecutionId(m.stateId, 1) := Fresh(m)];
    assert w2.started == [StartedState(ExecutionId(m.stateId, 1), m)];
  }

  /** Leaks happen: a state execution that waited - here for no command - and whose execute API
      fails. */
  lemma {:induction false} LeakIsReachable(c: Codec<Dump>)
    ensures var id := ExecutionId("s", 1);
            var es := [RequestStates([StateMovement("s", None)]), TakeAll]
                      + [Register(id, [], EMPTY_REQUEST), FailAndProceed(id, StateMovement("t", None))];
            && Run(c, INITIAL, es).Some?
            && id in Run(c, INITIAL, es).value.finished && id in Run(c, INITIAL, es).value.registered
  {
    hide Run, Overlay, PublishedTo, NextRun, Delivered, CanDeliver, StartThreads;
    var id := ExecutionId("s", 1);
    var e2, e3 := Register(id, [], EMPTY_REQUEST), FailAndProceed(id, StateMovement("t", None));
    var m := StateMovement("s", None);
    FirstExecution(c, m, [e2, e3]);
    var w2 := INITIAL.(counts := map["s" := 1], threads := map[id := Fresh(m)], started := [StartedState(id, m)]);
    RunCons(c, w2, e2, [e3]);
    var w3 := Step(c, w2, e2).value;
    assert EMPTY_REQUEST.CommandCount() == 0 && Trigger(w3.registered[id]) == Met(true);
    RunCons(c, w3, e3, []);
    RunNothing(c, Step(c, w3, e3).value);
    assert [e2, e3] == [e2] + [e3] && [e3] == [e3] + [];
  }

  /** id is finished and still registered, its wait is over, and no thread has it. */
  ghost predicate Leaked(w: World, id: ExecutionId) {
    id !in w.threads && id in w.registered && Trigger(w.registered[id]) == Met(true)
  }

  lemma {:induction false} LeakedStaysOnTakeAll(w: World, id: ExecutionId)
    requires Inv(w) && Leaked(w, id)
    ensures Leaked(StartThreads(w.(queue := []), w.queue), id)
  {
    var w0 := w.(queue := []);
    NothingQueued(w, id);
    hide Trigger, StartThreads, Results, Inv;
    StartThreadsAt(w0, w.queue, id);
    StartThreadsKeeps(w0, w.queue);
  }

  /** Nothing but a hop touches a leaked execution. */
  lemma {:induction false} LeakedStays(c: Codec<Dump>, w: World, id: ExecutionId, e: Event)
    requires Inv(w) && Leaked(w, id) && Step(c, w, e).Some? && !e.Hop?
    ensures var w' := Step(c, w, e).value;
            Leaked(w', id) && w'.registered[id] == w.registered[id] && w'.finished[id] == w.finished[id]
  {
    hide Inv, StartThreads, PublishedTo, Trigger, IsPending, Starts, Stored;
    match e {
      case TakeAll =>
        LeakedStaysOnTakeAll(w, id);
        StartThreadsKeeps(w.(queue := []), w.queue);
      case Receive(x, idx, from, channelName) =>
        if Queue(Messages(w, from), channelName) != [] {
          DeliveryKeeps(w, Head(w, x, idx, from, channelName));
        }
      case _ =>
    }
  }

  lemma {:induction false} LeakedStaysOverRuns(c: Codec<Dump>, w: World, id: ExecutionId, es: seq<Event>)
    requires Lawful(c) && Inv(w) && Leaked(w, id) && Run(c, w, es).Some?
    requires forall e | e in es :: !e.Hop?
    ensures var w' := Run(c, w, es).value;
            Inv(w') && Leaked(w', id) && w'.finished[id] == w.finished[id]
    decreases es
  {
    hide Step, Inv, Leaked;
    if es == [] {
    } else {
      assert es[0] in es;
      StepInv(c, w, es[0]);
      LeakedStays(c, w, id, es[0]);
      LeakedStaysOverRuns(c, Step(c, w, es[0]).value, id, es[1..]);
    }
  }

  lemma {:induction false} NothingQueued(w: World, id: ExecutionId)
    requires Inv(w) && id in w.registered
    ensures ResumeRequests(w.queue) == [] && Known(w.counts, id)
  {
    hide Results, WellFormed, Known;
  }

  lemma {:induction false} RegisteredKeyed(w: World)
    requires Inv(w)
    ensures Keyed(w.registered)
  {
    hide Results, WellFormed, Known;
  }

  /** While executions are registered no resume request is queued, so a hop resumes these. */
  lemma {:induction false} OnlyRegisteredResume(w: World, order: seq<ExecutionId>, id: ExecutionId)
    requires Inv(w) && id in w.registered
    requires Enumerates(order, Snapshot(w).stateExecutionsToResume.Keys)
    ensures var w1 := Rebuilt(w, Snapshot(w), order);
            && w1.counts == w.counts && Known(w.counts, id) && w1.registered == map[] && w1.threads == map[]
            && forall info | info in ResumeRequests(w1.queue) && info.stateExecutionId == id :: info == w.registered[id]
  {
    NothingQueued(w, id);
    hide Inv, Enumerates;
    var m := Snapshot(w).stateExecutionsToResume;
    assert m == w.registered;
    assert Keyed(m) by { RegisteredKeyed(w); }
    assert Rebuilt(w, Snapshot(w), order).queue == Starts(StartRequests(w.queue)) + Resumes(m, order);
    hide Snapshot, Rebuilt, Overlay, Starts, Resumes, StartRequests, ResumeRequests, Keyed;
    RebuiltQueue(StartRequests(w.queue), m, order);
    var infos := ResumeRequests(Rebuilt(w, Snapshot(w), order).queue);
    forall info | info in infos && info.stateExecutionId == id ensures info == w.registered[id] {
      var i :| 0 <= i < |infos| && infos[i] == info;
      assert order[i] in m && info == m[order[i]];
    }
  }

  lemma {:induction false} LeakedIsTakenUp(w: World, id: ExecutionId, order: seq<ExecutionId>)
    requires Inv(w) && id in w.registered
    requires Enumerates(order, Snapshot(w).stateExecutionsToResume.Keys)
    ensures var w1 := Rebuilt(w, Snapshot(w), order);
            var w2 := StartThreads(w1.(queue := []), w1.queue);
            && w2.finished == w.finished && w2.registered == map[]
            && id in w2.threads && w2.threads[id] == Resumed(w.registered[id])
  {
    var w1 := Rebuilt(w, Snapshot(w), order);
    SnapshotInfos(w, id);
    SameQueuedIds(w, order, id);
    OnlyRegisteredResume(w, order, id);
    hide Snapshot, Rebuilt, StartThreads, Results, WellFormed;
    StartThreadsAt(w1.(queue := []), w1.queue, id);
    StartThreadsKeeps(w1.(queue := []), w1.queue);
  }

  /** Over every run: a state execution that leaks is resumed after the next hop with the results
      it had, its wait is over at once, and its execute API runs and can succeed a second time. */
  lemma {:induction false} LeakedExecutionRunsAgain(
    c: Codec<Dump>, w: World, id: ExecutionId, next: StateMovement, es: seq<Event>, hop: Event, request: CommandRequest)
    requires Lawful(c) && Inv(w) && Leaks(w, FailAndProceed(id, next)) && Step(c, w, FailAndProceed(id, next)).Some?
    requires var w1 := Step(c, w, FailAndProceed(id, next)).value;
             && (forall e | e in es :: !e.Hop?) && hop.Hop?
             && Run(c, w1, es).Some? && Step(c, Run(c, w1, es).value, hop).Some?
    ensures var w1 := Step(c, w, FailAndProceed(id, next)).value;
            var w2 := Step(c, Run(c, w1, es).value, hop).value;
            var again := Run(c, w2, [TakeAll, Register(id, [], request), Complete(id)]);
            again.Some? && again.value.finished[id] == w.finished[id] + 2
  {
    hide StartThreads, Rebuilt, Snapshot, NextRun, Inv, Run, Trigger, PublishedTo, Delivered, CanDeliver, Starts;
    var fail := FailAndProceed(id, next);
    var w1 := Step(c, w, fail).value;
    StepInv(c, w, fail);
    LeakedStaysOverRuns(c, w1, id, es);
    var before := Run(c, w1, es).value;
    var w2 := Step(c, before, hop).value;
    HopTakesUp(c, before, id, hop);
    var w3 := Step(c, w2, TakeAll).value;
    ResumedFinishes(c, w3, id, before.registered[id], request);
    RunCons(c, w2, TakeAll, [Register(id, [], request), Complete(id)]);
    assert [TakeAll] + [Register(id, [], request), Complete(id)] == [TakeAll, Register(id, [], request), Complete(id)];
  }

  lemma {:induction false} HopTakesUp(c: Codec<Dump>, w: World, id: ExecutionId, hop: Event)
    requires Lawful(c) && Inv(w) && id in w.registered && hop.Hop? && Step(c, w, hop).Some?
    ensures var w2 := Step(c, w, hop).value;
            var w3 := Step(c, w2, TakeAll).value;
            && w3.finished == w.finished && w3.registered == map[]
            && id in w3.threads && w3.threads[id] == Resumed(w.registered[id])
  {
    hide StartThreads, Rebuilt, Snapshot, NextRun, Inv;
    HopCarriesSnapshot(c, w, hop.configuredSize, hop.answered, hop.order);
    LeakedIsTakenUp(w, id, hop.order);
  }

  /** A resumed execution whose wait is over registers and finishes. */
  lemma {:induction false} ResumedFinishes(
    c: Codec<Dump>, w: World, id: ExecutionId, info: ResumeInfo, request: CommandRequest)
    requires id in w.threads && w.threads[id] == Resumed(info) && w.registered == map[] && Trigger(info) == Met(true)
    ensures var done := Run(c, w, [Register(id, [], request), Complete(id)]);
            done.Some? && done.value.finished == w.finished + multiset{id}
  {
    hide Trigger, StartThreads, NextRun, PublishedTo, Delivered, CanDeliver, Starts, Acceptable;
    var w1 := Step(c, w, Register(id, [], request)).value;
    RunCons(c, w, Register(id, [], request), [Complete(id)]);
    RunCons(c, w1, Complete(id), []);
    assert [Register(id, [], request)] + [Complete(id)] == [Register(id, [], request), Complete(id)];
    assert [Complete(id)] + [] == [Complete(id)];
  }

  lemma {:induction false} RunNothing(c: Codec<Dump>, w: World)
    ensures Run(c, w, []) == Some(w)
  {
  }

  lemma {:induction false} RunCons(c: Codec<Dump>, w: World, e: Event, es: seq<Event>)
    requires Step(c, w, e).Some?
    ensures Run(c, w, [e] + es) == Run(c, Step(c, w, e).value, es)
  {
    hide Step;
    assert ([e] + es)[1..] == es;
  }
}
