/** Starting the next run: load the state of the closed run and rebuild the objects from it. */
module ResumedRuns {
  import opened GoTypes
  import opened Paging
  import opened InternalChannels
  import opened CarriedState
  import opened SnapshotTransfer
  import opened ContinueAsNew
  import opened SignalReceivers

  /** The server's turns during a hop: the closed run has one snapshot; requests may fail. */
  function Turns(snapshot: Dump, answered: seq<bool>): seq<Turn<Dump>> {
    seq(|answered|, i requires 0 <= i < |answered| => if answered[i] then Holds(snapshot) else ActivityFails)
  }

  /** JSON round-trips every dump, and checksums are not empty. */
  ghost predicate Lawful(c: Codec<Dump>) {
    forall d :: c.decode(c.encode(d)) == Some(d) && c.checksum(c.encode(d)) != ""
  }

  lemma {:induction false} LoadedIsSnapshot(c: Codec<Dump>, d: Dump, answered: seq<bool>, size: int32)
    requires Lawful(c)
    ensures var o := Transfer(c, Turns(d, answered), size);
            && (ResultOf(c, o).Loaded? ==> ResultOf(c, o) == Loaded(d))
            && (ResultOf(c, o).Loaded? <==> o.Got?)
  {
    hide Transfer;
    var turns := Turns(d, answered);
    assert forall s :: Holds(s) in turns ==> s == d;
    TransferIsOneSnapshot(c, turns, size);
    TransferGotData(c, turns, size);
    var o := Transfer(c, turns, size);
    if ResultOf(c, o).Loaded? {
      assert Holds(ResultOf(c, o).snapshot) in turns by {
        assert forall t | t in turns[..o.requests] :: t in turns;
      }
    }
  }

  /** What is received decodes. */
  lemma {:induction false} TransferGotData(c: Codec<Dump>, turns: seq<Turn<Dump>>, size: int32)
    requires Lawful(c) && NonEmptyChecksums(c, turns) && CollisionFree(c, turns)
    ensures var o := Transfer(c, turns, size);
            o.Got? ==> ResultOf(c, o).Loaded?
  {
    var j := LoadIsOneSnapshot(c, turns, LoaderPageSize(size), 0, FRESH, 0);
  }

  lemma {:induction false} OverlayKeyed(m: map<ExecutionId, ResumeInfo>, infos: seq<ResumeInfo>)
    requires Keyed(m)
    ensures Keyed(Overlay(m, infos))
    decreases infos
  {
    if infos == [] {
    } else {
      OverlayKeyed(m[infos[0].stateExecutionId := infos[0]], infos[1..]);
    }
  }

  method EnumerateKeys(m: map<ExecutionId, ResumeInfo>) returns (order: seq<ExecutionId>)
    ensures Enumerates(order, m.Keys)
  {
    order := [];
    var rest := m.Keys;
    while rest != {}
      invariant rest <= m.Keys && Enumerates(order, m.Keys - rest)
      decreases rest
    {
      var key := AnyKey(rest);
      order := order + [key];
      rest := rest - {key};
    }
    assert m.Keys - {} == m.Keys;
  }

  /** The dump of a run, as its GetSnapshot returns it. */
  ghost function DumpOf(c: ContinueAsNewer, startedCounts: map<string, nat>, other: OtherParts): Dump
    reads c, c.stateRequestQueue, c.interStateChannel, c.signalReceiver, c.outputCollector
    reads set id | id in c.stateExecutionToResumeMap :: c.stateExecutionToResumeMap[id].progress
  {
    Dump(c.interStateChannel.receivedData, c.signalReceiver.receivedSignals, startedCounts, other,
         StartRequests(c.stateRequestQueue.queue),
         Overlay(c.Registered(), ResumeRequests(c.stateRequestQueue.queue)), c.outputCollector.outputs)
  }

  lemma {:induction false} DumpFields(c: ContinueAsNewer, startedCounts: map<string, nat>, other: OtherParts)
    ensures var d := DumpOf(c, startedCounts, other);
            && d.interStateChannelReceived == c.interStateChannel.receivedData
            && d.signalsReceived == c.signalReceiver.receivedSignals
            && d.stateIdStartedCount == startedCounts && d.other == other
            && d.stateOutputs == c.outputCollector.outputs
  {
  }

  predicate AllAnswered(answered: seq<bool>) {
    forall i | 0 <= i < |answered| :: answered[i]
  }

  /** The serialized dump can be served page by page, and there are requests for all pages. */
  predicate Arrives(data: Bytes, requests: nat, pageSize: int32) {
    Transferable(data, LoaderPageSize(pageSize)) && TotalPages(|data|, LoaderPageSize(pageSize)) <= requests
  }

  lemma {:induction false} UndisturbedHop(c: Codec<Dump>, d: Dump, answered: seq<bool>, size: int32)
    requires Lawful(c) && AllAnswered(answered)
    ensures Transfer(c, Turns(d, answered), size).Got? <==> Arrives(c.encode(d), |answered|, size)
  {
    hide Transfer, Transferable, TotalPages;
    StableTransfer(c, d, Turns(d, answered), size);
  }

  /** The closed run answers; the new run loads. When no request fails, the dump arrives exactly
      if it can be transferred. */
  method LoadPreviousRun(
    c: Codec<Dump>, previous: ContinueAsNewer, startedCounts: map<string, nat>, other: OtherParts,
    answered: seq<bool>, pageSize: int32)
    returns (r: Option<Dump>)
    requires Lawful(c)
    ensures var d := DumpOf(previous, startedCounts, other);
            && r == (if Transfer(c, Turns(d, answered), pageSize).Got? then Some(d) else None)
            && (AllAnswered(answered) ==> (r.Some? <==> Arrives(c.encode(d), |answered|, pageSize)))
  {
    hide Transfer, Transferable, TotalPages, Overlay, AllAnswered, Arrives;
    var d := previous.GetSnapshot(startedCounts, other);
    assert d == DumpOf(previous, startedCounts, other);
    var loaded, requests := LoadInternalsFromPreviousRun(c, Turns(d, answered), pageSize);
    LoadedIsSnapshot(c, d, answered, pageSize);
    if AllAnswered(answered) {
      UndisturbedHop(c, d, answered, pageSize);
    }
    r := if loaded.Loaded? then Some(loaded.snapshot) else None;
  }

  /** The objects of the next run are new, nothing is registered yet, and its dump is the one it
      was rebuilt from. order is the order in which the resume map is visited. */
  method Rebuild(dump: Dump) returns (run: ContinueAsNewer, ghost order: seq<ExecutionId>)
    requires Keyed(dump.stateExecutionsToResume)
    ensures fresh(run) && fresh(run.interStateChannel) && fresh(run.signalReceiver)
    ensures fresh(run.stateRequestQueue) && fresh(run.outputCollector)
    ensures run.stateExecutionToResumeMap == map[] && run.inflightUpdateOperations == 0
    ensures Enumerates(order, dump.stateExecutionsToResume.Keys)
    ensures run.stateRequestQueue.queue ==
            Starts(dump.statesToStartFromBeginning) + Resumes(dump.stateExecutionsToResume, order)
    ensures DumpOf(run, dump.stateIdStartedCount, dump.other) == dump
  {
    var channel := new InternalChannel.Rebuild(dump.interStateChannelReceived);
    var keys := EnumerateKeys(dump.stateExecutionsToResume);
    order := keys;
    var queue := new StateRequestQueue.WithResumeRequests(dump.statesToStartFromBeginning,
      dump.stateExecutionsToResume, keys);
    var receiver := new SignalReceiver(Some(dump.signalsReceived));
    var collector := new OutputCollector(Some(dump.stateOutputs));
    run := new ContinueAsNewer(queue, channel, receiver, collector);
    assert run.Registered() == map[];
  }

  /** Together: the next run's dump is the dump of the closed run. */
  method ResumeFromPreviousRun(
    c: Codec<Dump>, previous: ContinueAsNewer, startedCounts: map<string, nat>, other: OtherParts,
    answered: seq<bool>, pageSize: int32)
    returns (next: Option<ContinueAsNewer>, nextCounts: map<string, nat>, nextOther: OtherParts,
      ghost order: seq<ExecutionId>)
    requires Lawful(c)
    ensures var d := old(DumpOf(previous, startedCounts, other));
            && (next.Some? <==> Transfer(c, Turns(d, answered), pageSize).Got?)
            && (AllAnswered(answered) ==> (next.Some? <==> Arrives(c.encode(d), |answered|, pageSize)))
    ensures next.Some? ==>
              && fresh(next.value) && fresh(next.value.interStateChannel) && fresh(next.value.signalReceiver)
              && fresh(next.value.stateRequestQueue) && fresh(next.value.outputCollector)
              && next.value.stateExecutionToResumeMap == map[] && next.value.inflightUpdateOperations == 0
              && var d := old(DumpOf(previous, startedCounts, other));
                 && DumpOf(next.value, nextCounts, nextOther) == d
                 && Enumerates(order, d.stateExecutionsToResume.Keys)
                 && next.value.stateRequestQueue.queue ==
                      Starts(d.statesToStartFromBeginning) + Resumes(d.stateExecutionsToResume, order)
  {
    hide Transfer, Overlay, AllAnswered, Arrives;
    order := [];
    var loaded := LoadPreviousRun(c, previous, startedCounts, other, answered, pageSize);
    if loaded.None? {
      return None, startedCounts, other, order;
    }
    OverlayKeyed(previous.Registered(), ResumeRequests(previous.stateRequestQueue.queue));
    var run, visited := Rebuild(loaded.value);
    return Some(run), loaded.value.stateIdStartedCount, loaded.value.other, visited;
  }
}
