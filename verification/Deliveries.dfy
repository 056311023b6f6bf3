/** The results of commands, in terms of what was delivered: each command gets at most one result, over
    any number of runs, and the wait of an execution ends exactly when the right ones are there. */
module Deliveries {
  import opened GoTypes
  import opened Commands
  import opened DeciderTrigger
  import opened TriggerProperties
  import opened InternalChannels
  import opened CarriedState
  import opened SnapshotTransfer
  import opened ResumedRuns
  import opened Runs
  import opened Lifecycle
  import opened Histories

  /** d is the message for this channel or signal command. */
  predicate IsMessageFor(d: Delivery, id: ExecutionId, source: Source, idx: int) {
    d.Received? && d.id == id && d.source == source && d.idx == idx
  }

  predicate IsTimerOf(d: Delivery, id: ExecutionId, idx: int) {
    d.TimerDone? && d.id == id && d.idx == idx
  }

  /** The log holds a message for this command. */
  predicate GotMessage(log: seq<Delivery>, id: ExecutionId, source: Source, idx: int) {
    exists k :: 0 <= k < |log| && IsMessageFor(log[k], id, source, idx)
  }

  predicate GotTimer(log: seq<Delivery>, id: ExecutionId, idx: int) {
    exists k :: 0 <= k < |log| && IsTimerOf(log[k], id, idx)
  }

  predicate SameCommand(a: Delivery, b: Delivery) {
    a.id == b.id && a.idx == b.idx && if a.Received? then b.Received? && b.source == a.source else b.TimerDone?
  }

  /** No command has two results. */
  ghost predicate OnceEach(log: seq<Delivery>) {
    forall j, k | 0 <= j < k < |log| :: !SameCommand(log[j], log[k])
  }

  // ---- One delivery ----

  /** When a command of a channel or a signal gets a message, and what happens then: the head leaves its
      queue, and is the result of this command of this execution. Nothing else changes. */
  lemma {:induction false} ReceiveExactly(
    c: Codec<Dump>, w: World, id: ExecutionId, idx: int, source: Source, ch: string)
    ensures var queue := Queue(if source.FromChannel? then w.channels else w.signals, ch);
            var next := Step(c, w, Receive(id, idx, source, ch));
            if queue == [] then next == Some(w)
            else
              && (next.Some? <==>
                    && id in w.threads && id in w.registered
                    && var info := w.registered[id];
                       if source.FromChannel? then
                         0 <= idx < |info.request.channelCommands| && idx !in info.completed.channels
                       else 0 <= idx < |info.request.signalCommands| && idx !in info.completed.signals)
              && (next.Some? ==>
                    var info, after := w.registered[id], next.value;
                    var completed := if source.FromChannel?
                      then info.completed.(channels := info.completed.channels[idx := queue[0]])
                      else info.completed.(signals := info.completed.signals[idx := queue[0]]);
                    && after.log == w.log + [Received(id, idx, source, ch, queue[0])]
                    && Queue(if source.FromChannel? then after.channels else after.signals, ch) == queue[1..]
                    && after.registered == w.registered[id := info.(completed := completed)]
                    && after == w.(channels := after.channels, signals := after.signals,
                                   registered := after.registered, log := after.log))
  {
    hide NextRun, StartThreads, Trigger;
  }

  /** When a timer command gets its status. */
  lemma {:induction false} FinishTimerExactly(
    c: Codec<Dump>, w: World, id: ExecutionId, idx: int, status: TimerStatus)
    ensures var next := Step(c, w, FinishTimer(id, idx, status));
            && (next.Some? <==>
                  && id in w.threads && id in w.registered
                  && 0 <= idx < |w.registered[id].request.timerCommands|
                  && idx !in w.registered[id].completed.timers)
            && (next.Some? ==>
                  var info := w.registered[id];
                  var completed := info.completed.(timers := info.completed.timers[idx := status]);
                  next.value == w.(registered := w.registered[id := info.(completed := completed)],
                                   log := w.log + [TimerDone(id, idx, status)]))
  {
    hide NextRun, StartThreads, Trigger;
  }

  // ---- Results and log ----

  lemma {:induction false} SnocLog(log: seq<Delivery>, d: Delivery, id: ExecutionId, idx: int)
    ensures forall source :: GotMessage(log + [d], id, source, idx) <==>
                GotMessage(log, id, source, idx) || IsMessageFor(d, id, source, idx)
    ensures GotTimer(log + [d], id, idx) <==> GotTimer(log, id, idx) || IsTimerOf(d, id, idx)
  {
    var more := log + [d];
    assert more[|log|] == d && forall k | 0 <= k < |log| :: more[k] == log[k];
  }

  /** A command has a result if and only if the log has it. */
  lemma {:induction false} ResultsAreInTheLog(log: seq<Delivery>, id: ExecutionId, idx: int)
    ensures var done := Results(log, id);
            && (idx in done.channels <==> GotMessage(log, id, FromChannel, idx))
            && (idx in done.signals <==> GotMessage(log, id, FromSignal, idx))
            && (idx in done.timers <==> GotTimer(log, id, idx))
  {
    if log == [] {
    } else {
      var last := |log| - 1;
      assert log == log[..last] + [log[last]];
      ResultsAreInTheLog(log[..last], id, idx);
      SnocLog(log[..last], log[last], id, idx);
      ResultsSnoc(log[..last], log[last], id);
      hide GotMessage, GotTimer, Results;
    }
  }

  /** And it is the logged one. */
  lemma {:induction false} LoggedIsTheResult(log: seq<Delivery>, id: ExecutionId, k: nat)
    requires OnceEach(log) && k < |log| && log[k].id == id
    ensures var done, idx := Results(log, id), log[k].idx;
            match log[k]
            case Received(_, _, FromChannel, _, message) => idx in done.channels && done.channels[idx] == message
            case Received(_, _, FromSignal, _, message) => idx in done.signals && done.signals[idx] == message
            case TimerDone(_, _, status) => idx in done.timers && done.timers[idx] == status
    decreases |log|
  {
    var last := |log| - 1;
    assert log == log[..last] + [log[last]];
    ResultsSnoc(log[..last], log[last], id);
    if k < last {
      LoggedIsTheResult(log[..last], id, k);
      assert !SameCommand(log[k], log[last]);
    }
    hide Results;
  }

  lemma {:induction false} OneMore(log: seq<Delivery>, d: Delivery)
    requires OnceEach(log)
    requires if d.Received? then !GotMessage(log, d.id, d.source, d.idx) else !GotTimer(log, d.id, d.idx)
    ensures OnceEach(log + [d])
  {
    forall j | 0 <= j < |log| ensures !SameCommand(log[j], d) {
      assert d.Received? ==> !IsMessageFor(log[j], d.id, d.source, d.idx);
      assert d.TimerDone? ==> !IsTimerOf(log[j], d.id, d.idx);
    }
  }

  lemma {:induction false} NoSecondResult(w: World, d: Delivery)
    requires Inv(w) && OnceEach(w.log) && CanDeliver(w, d)
    ensures OnceEach(w.log + [d])
  {
    var info := w.registered[d.id];
    assert info.stateExecutionId == d.id && info.completed == Results(w.log, d.id);
    ResultsAreInTheLog(w.log, d.id, d.idx);
    hide Results, Inv, OnceEach, GotMessage, GotTimer;
    OneMore(w.log, d);
  }

  lemma {:induction false} StepOnceEach(c: Codec<Dump>, w: World, e: Event)
    requires Lawful(c) && Inv(w) && OnceEach(w.log) && Step(c, w, e).Some?
    ensures OnceEach(Step(c, w, e).value.log)
  {
    hide Inv, OnceEach, NextRun, StartThreads, PublishedTo, Trigger, Starts, IsPending, Delivered, Taken;
    match e {
      case TakeAll => StartThreadsKeeps(w.(queue := []), w.queue);
      case Hop(size, answered, order) => HopKeepsParts(c, w, size, answered, order);
      case Receive(id, idx, from, channelName) =>
        if Queue(Messages(w, from), channelName) != [] {
          var d := Head(w, id, idx, from, channelName);
          DeliveryKeeps(w, d);
          NoSecondResult(w, d);
        }
      case FinishTimer(id, idx, status) =>
        DeliveryKeeps(w, TimerDone(id, idx, status));
        NoSecondResult(w, TimerDone(id, idx, status));
      case _ =>
    }
  }

  lemma {:induction false} RunOnceEach(c: Codec<Dump>, w: World, es: seq<Event>)
    requires Lawful(c) && Inv(w) && OnceEach(w.log) && Run(c, w, es).Some?
    ensures OnceEach(Run(c, w, es).value.log)
    decreases es
  {
    hide Inv, OnceEach, Step;
    if es == [] {
    } else {
      StepInv(c, w, es[0]);
      StepOnceEach(c, w, es[0]);
      RunOnceEach(c, Step(c, w, es[0]).value, es[1..]);
    }
  }

  /** Over every run with any number of hops: a command gets at most one result, and the results that are
      registered or queued for an execution are exactly the deliveries to it - no message and no status
      is lost, changed, or given to another execution or command. */
  lemma {:induction false} ResultsAreTheDeliveries(c: Codec<Dump>, es: seq<Event>, info: ResumeInfo)
    requires Lawful(c) && Run(c, INITIAL, es).Some?
    requires var w := Run(c, INITIAL, es).value;
             info in ResumeRequests(w.queue) || IsRegistered(w, info)
    ensures var log, id, done := Run(c, INITIAL, es).value.log, info.stateExecutionId, info.completed;
            && (forall j, k | 0 <= j < k < |log| :: !SameCommand(log[j], log[k]))
            && (forall idx :: idx in done.channels <==> GotMessage(log, id, FromChannel, idx))
            && (forall idx :: idx in done.signals <==> GotMessage(log, id, FromSignal, idx))
            && (forall idx :: idx in done.timers <==> GotTimer(log, id, idx))
            && forall k | 0 <= k < |log| && log[k].id == id ::
                 match log[k]
                 case Received(_, idx, FromChannel, _, message) => done.channels[idx] == message
                 case Received(_, idx, FromSignal, _, message) => done.signals[idx] == message
                 case TimerDone(_, idx, status) => done.timers[idx] == status
  {
    hide Run, Results;
    InitialIsExact();
    RunInv(c, INITIAL, es);
    RunOnceEach(c, INITIAL, es);
    var w := Run(c, INITIAL, es).value;
    InfoIsOk(w, info);
    ResultsMatch(w.log, info.stateExecutionId);
    hide Inv, OnceEach, GotMessage, GotTimer;
  }

  lemma {:induction false} InfoIsOk(w: World, info: ResumeInfo)
    requires Inv(w) && (info in ResumeRequests(w.queue) || IsRegistered(w, info))
    ensures info.completed == Results(w.log, info.stateExecutionId) && WellFormed(info)
  {
    hide Results, WellFormed, Known, ThreadsOk, HistoryOk;
    if info in ResumeRequests(w.queue) {
      var i :| 0 <= i < |ResumeRequests(w.queue)| && ResumeRequests(w.queue)[i] == info;
    }
  }

  ghost predicate Match(log: seq<Delivery>, id: ExecutionId, done: CompletedCommands) {
    && (forall idx :: idx in done.channels <==> GotMessage(log, id, FromChannel, idx))
    && (forall idx :: idx in done.signals <==> GotMessage(log, id, FromSignal, idx))
    && (forall idx :: idx in done.timers <==> GotTimer(log, id, idx))
    && forall k | 0 <= k < |log| && log[k].id == id ::
         match log[k]
         case Received(_, idx, FromChannel, _, message) => idx in done.channels && done.channels[idx] == message
         case Received(_, idx, FromSignal, _, message) => idx in done.signals && done.signals[idx] == message
         case TimerDone(_, idx, status) => idx in done.timers && done.timers[idx] == status
  }

  lemma {:induction false} ResultsMatch(log: seq<Delivery>, id: ExecutionId)
    requires OnceEach(log)
    ensures Match(log, id, Results(log, id))
  {
    forall idx
      ensures idx in Results(log, id).channels <==> GotMessage(log, id, FromChannel, idx)
      ensures idx in Results(log, id).signals <==> GotMessage(log, id, FromSignal, idx)
      ensures idx in Results(log, id).timers <==> GotTimer(log, id, idx)
    {
      ResultsAreInTheLog(log, id, idx);
    }
    hide Results, GotMessage, GotTimer;
    forall k | 0 <= k < |log| && log[k].id == id
      ensures match log[k]
              case Received(_, idx, FromChannel, _, message) =>
                idx in Results(log, id).channels && Results(log, id).channels[idx] == message
              case Received(_, idx, FromSignal, _, message) =>
                idx in Results(log, id).signals && Results(log, id).signals[idx] == message
              case TimerDone(_, idx, status) =>
                idx in Results(log, id).timers && Results(log, id).timers[idx] == status
    {
      LoggedIsTheResult(log, id, k);
    }
  }

  // ---- When a wait ends ----

  /** In every reachable state, an execution that waits for all its commands can complete if and only if
      each of them was delivered. */
  lemma {:induction false} AllWaitEndsExactly(c: Codec<Dump>, es: seq<Event>, id: ExecutionId)
    requires Lawful(c) && Run(c, INITIAL, es).Some?
    requires var w := Run(c, INITIAL, es).value;
             && id in w.threads && id in w.registered
             && !HasNoCommands(w.registered[id].request)
             && AsksFor(w.registered[id].request, WaitAll, AllCompleted)
    ensures var w := Run(c, INITIAL, es).value;
            var request := w.registered[id].request;
            Step(c, w, Complete(id)).Some? <==>
              && (forall i | 0 <= i < |request.timerCommands| :: GotTimer(w.log, id, i))
              && (forall i | 0 <= i < |request.signalCommands| :: GotMessage(w.log, id, FromSignal, i))
              && (forall i | 0 <= i < |request.channelCommands| :: GotMessage(w.log, id, FromChannel, i))
  {
    var w := Run(c, INITIAL, es).value;
    var info := w.registered[id];
    LiveResults(c, es, id);
    var done := info.completed;
    hide Run, GotMessage, GotTimer, TriggerSpec, NextRun, StartThreads;
    AllMeansEvery(info.request, done.timers.Keys, done.signals.Keys, done.channels.Keys);
  }

  /** And one that waits for any command, if and only if something was delivered to it. */
  lemma {:induction false} AnyWaitEndsExactly(c: Codec<Dump>, es: seq<Event>, id: ExecutionId)
    requires Lawful(c) && Run(c, INITIAL, es).Some?
    requires var w := Run(c, INITIAL, es).value;
             && id in w.threads && id in w.registered
             && !HasNoCommands(w.registered[id].request)
             && AsksFor(w.registered[id].request, WaitAny, AnyCompleted)
    ensures var w := Run(c, INITIAL, es).value;
            Step(c, w, Complete(id)).Some? <==> exists k :: 0 <= k < |w.log| && w.log[k].id == id
  {
    var w := Run(c, INITIAL, es).value;
    var info := w.registered[id];
    LiveResults(c, es, id);
    var done := info.completed;
    SomethingDelivered(w.log, id, done);
    hide Run, TriggerSpec, NextRun, StartThreads, Match;
    AnyMeansSome(info.request, done.timers.Keys, done.signals.Keys, done.channels.Keys);
  }

  lemma {:induction false} SomethingDelivered(log: seq<Delivery>, id: ExecutionId, done: CompletedCommands)
    requires Match(log, id, done)
    ensures done.timers.Keys != {} || done.signals.Keys != {} || done.channels.Keys != {} <==>
            exists k :: 0 <= k < |log| && log[k].id == id
  {
    hide GotTimer, GotMessage;
    if done.timers.Keys != {} {
      var idx := SomeElement(done.timers.Keys);
      var k := TimerEntry(log, id, idx);
    }
    if done.signals.Keys != {} {
      var idx := SomeElement(done.signals.Keys);
      var k := MessageEntry(log, id, FromSignal, idx);
    }
    if done.channels.Keys != {} {
      var idx := SomeElement(done.channels.Keys);
      var k := MessageEntry(log, id, FromChannel, idx);
    }
  }

  lemma {:induction false} SomeElement<T>(s: set<T>) returns (x: T)
    requires s != {}
    ensures x in s
  {
    x :| x in s;
  }

  lemma {:induction false} TimerEntry(log: seq<Delivery>, id: ExecutionId, idx: int) returns (k: int)
    requires GotTimer(log, id, idx)
    ensures 0 <= k < |log| && IsTimerOf(log[k], id, idx)
  {
    k :| 0 <= k < |log| && IsTimerOf(log[k], id, idx);
  }

  lemma {:induction false} MessageEntry(log: seq<Delivery>, id: ExecutionId, source: Source, idx: int)
    returns (k: int)
    requires GotMessage(log, id, source, idx)
    ensures 0 <= k < |log| && IsMessageFor(log[k], id, source, idx)
  {
    k :| 0 <= k < |log| && IsMessageFor(log[k], id, source, idx);
  }

  lemma {:induction false} LiveResults(c: Codec<Dump>, es: seq<Event>, id: ExecutionId)
    requires Lawful(c) && Run(c, INITIAL, es).Some? && id in Run(c, INITIAL, es).value.registered
    ensures var w := Run(c, INITIAL, es).value;
            && Match(w.log, id, w.registered[id].completed) && WellFormed(w.registered[id])
  {
    hide Run, Results, Match, WellFormed;
    InitialIsExact();
    RunInv(c, INITIAL, es);
    RunOnceEach(c, INITIAL, es);
    var w := Run(c, INITIAL, es).value;
    assert w.registered[id].stateExecutionId == id;
    InfoIsOk(w, w.registered[id]);
    ResultsMatch(w.log, id);
  }
}
