/** From every reachable state a workflow can be drained, and then continue as new. */
module Draining {
  import opened GoTypes
  import opened Commands
  import opened DeciderTrigger
  import opened Paging
  import opened CarriedState
  import opened SnapshotTransfer
  import opened ResumedRuns
  import opened Runs
  import opened Lifecycle

  /** Threads end and updates finish; nothing is published, requested or delivered. */
  predicate Drains(e: Event) {
    || e.Register? || e.Complete? || e.Suspend?
    || (e.FinishUpdate? && e.publishes == [] && e.movements == [])
  }

  predicate AllDrain(es: seq<Event>) {
    forall e | e in es :: Drains(e)
  }

  /** What draining leaves alone. */
  ghost predicate SameMessages(w: World, after: World) {
    after.channels == w.channels && after.signals == w.signals && after.log == w.log
  }

  lemma {:induction false} RunConcat(c: Codec<Dump>, w: World, a: seq<Event>, b: seq<Event>)
    requires Run(c, w, a).Some?
    ensures Run(c, w, a + b) == Run(c, Run(c, w, a).value, b)
    decreases a
  {
    hide Step;
    if a == [] {
      assert a + b == b;
    } else {
      assert (a + b)[1..] == a[1..] + b;
      RunConcat(c, Step(c, w, a[0]).value, a[1..], b);
    }
  }

  lemma {:induction false} RunOne(c: Codec<Dump>, w: World, e: Event)
    ensures Run(c, w, [e]) == Step(c, w, e)
  {
    hide Step;
    assert [e][1..] == [];
  }

  /** A waiting thread finishes or is suspended. */
  lemma {:induction false} EndWaiting(c: Codec<Dump>, w: World, id: ExecutionId) returns (e: Event)
    requires Inv(w) && id in w.threads && id in w.registered
    ensures Drains(e) && Step(c, w, e).Some?
    ensures var after := Step(c, w, e).value;
            && after.threads == w.threads - {id} && after.updates == w.updates && after.inflight == w.inflight
            && SameMessages(w, after)
  {
    hide Inv, Trigger, StartThreads, NextRun, Delivered, CanDeliver, CanRegister;
    TriggerNeverPanics(w, id);
    e := if Trigger(w.registered[id]) == Met(true) then Complete(id) else Suspend(id);
  }

  /** Any thread can be brought to its end: a fresh one by its execute API, a resumed one by waiting
      first. */
  lemma {:induction false} EndThread(c: Codec<Dump>, w: World, id: ExecutionId) returns (es: seq<Event>)
    requires Lawful(c) && Inv(w) && id in w.threads
    ensures AllDrain(es) && Run(c, w, es).Some?
    ensures var after := Run(c, w, es).value;
            && Inv(after) && after.threads == w.threads - {id} && SameMessages(w, after)
            && after.updates == w.updates && after.inflight == w.inflight
  {
    hide Inv, Run, Trigger, StartThreads, NextRun, Delivered, CanDeliver, Acceptable;
    if id in w.registered {
      var e := EndWaiting(c, w, id);
      es := [e];
      RunOne(c, w, e);
    } else if w.threads[id].Fresh? {
      es := [Complete(id)];
      RunOne(c, w, Complete(id));
    } else {
      var register := Register(id, [], EMPTY_REQUEST);
      var w1 := Step(c, w, register).value;
      StepInv(c, w, register);
      var e := EndWaiting(c, w1, id);
      es := [register] + [e];
      RunOne(c, w, register);
      RunConcat(c, w, [register], [e]);
      RunOne(c, w1, e);
    }
    RunInv(c, w, es);
  }

  lemma {:induction false} DrainThreads(c: Codec<Dump>, w: World) returns (es: seq<Event>)
    requires Lawful(c) && Inv(w)
    ensures AllDrain(es) && Run(c, w, es).Some?
    ensures var after := Run(c, w, es).value;
            && Inv(after) && after.threads == map[] && SameMessages(w, after)
            && after.updates == w.updates && after.inflight == w.inflight
    decreases |w.threads|
  {
    hide Inv, Run;
    if w.threads == map[] {
      es := [];
      RunNothing(c, w);
    } else {
      var id :| id in w.threads.Keys;
      var first := EndThread(c, w, id);
      var w1 := Run(c, w, first).value;
      assert w1.threads.Keys == w.threads.Keys - {id};
      assert |w1.threads| == |w1.threads.Keys| < |w.threads.Keys| == |w.threads|;
      var rest := DrainThreads(c, w1);
      RunConcat(c, w, first, rest);
      es := first + rest;
    }
  }

  lemma {:induction false} FinishQuietly(c: Codec<Dump>, w: World, update: nat)
    requires update in w.updates
    ensures var e := FinishUpdate(update, [], []);
            && Step(c, w, e).Some?
            && Step(c, w, e).value == w.(inflight := w.inflight - 1, updates := w.updates - {update})
  {
    assert Starts([]) == [] && w.queue + [] == w.queue;
  }

  lemma {:induction false} DrainUpdates(c: Codec<Dump>, w: World) returns (es: seq<Event>)
    requires CountsUpdates(w)
    ensures AllDrain(es) && Run(c, w, es).Some?
    ensures Run(c, w, es).value == w.(inflight := 0, updates := {})
    decreases |w.updates|
  {
    hide Run, Step;
    if w.updates == {} {
      es := [];
      RunNothing(c, w);
    } else {
      var update :| update in w.updates;
      var e := FinishUpdate(update, [], []);
      FinishQuietly(c, w, update);
      var w1 := Step(c, w, e).value;
      var rest := DrainUpdates(c, w1);
      RunOne(c, w, e);
      RunConcat(c, w, [e], rest);
      es := [e] + rest;
    }
  }

  lemma {:induction false} SomeOrder(keys: set<ExecutionId>) returns (order: seq<ExecutionId>)
    ensures Enumerates(order, keys)
    decreases keys
  {
    if keys == {} {
      order := [];
    } else {
      var key :| key in keys;
      var rest := SomeOrder(keys - {key});
      order := [key] + rest;
    }
  }

  /** A drained run whose dump can be served page by page can continue as new. */
  lemma {:induction false} DrainedCanHop(c: Codec<Dump>, w: World, size: int32) returns (hop: Event)
    requires Lawful(c) && Drained(w) && Transferable(c.encode(Snapshot(w)), LoaderPageSize(size))
    ensures hop.Hop? && hop.configuredSize == size && Step(c, w, hop).Some?
  {
    hide Transfer, Transferable, TotalPages, Snapshot;
    var d := Snapshot(w);
    var pages: int := TotalPages(|c.encode(d)|, LoaderPageSize(size));
    var answered := seq(if pages < 0 then 0 else pages, _ => true);
    var order := SomeOrder(d.stateExecutionsToResume.Keys);
    UndisturbedHop(c, d, answered, size);
    LoadedIsSnapshot(c, d, answered, size);
    hop := Hop(size, answered, order);
  }

  /** From every state that a workflow can reach, however many threads and updates there are, it can be
      drained without any further message, delivery or request; and if its dump can then be served
      page by page, a hop succeeds. */
  lemma {:induction false} HopIsReachable(c: Codec<Dump>, before: seq<Event>, size: int32)
    returns (es: seq<Event>, hop: Event)
    requires Lawful(c) && Run(c, INITIAL, before).Some?
    ensures AllDrain(es) && Run(c, INITIAL, before + es).Some?
    ensures var w, after := Run(c, INITIAL, before).value, Run(c, INITIAL, before + es).value;
            && Drained(after) && SameMessages(w, after)
            && (Transferable(c.encode(Snapshot(after)), LoaderPageSize(size)) ==>
                  hop.Hop? && hop.configuredSize == size && Step(c, after, hop).Some?)
  {
    hide Run, Step, Inv, Transferable, Snapshot;
    var w := Run(c, INITIAL, before).value;
    InitialIsExact();
    RunInv(c, INITIAL, before);
    RunCountsUpdates(c, INITIAL, before);
    var threads := DrainThreads(c, w);
    var w1 := Run(c, w, threads).value;
    var updates := DrainUpdates(c, w1);
    RunConcat(c, w, threads, updates);
    es := threads + updates;
    RunConcat(c, INITIAL, before, es);
    var after := Run(c, w, es).value;
    if Transferable(c.encode(Snapshot(after)), LoaderPageSize(size)) {
      hop := DrainedCanHop(c, after, size);
    } else {
      hop := TakeAll;
    }
  }
}
