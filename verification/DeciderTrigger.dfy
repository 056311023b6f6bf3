/** When a state stops waiting for its commands. */
module DeciderTrigger {
  import opened GoTypes
  import opened Commands
  import opened Utils

  datatype Verdict = Met(yes: bool) | Panic

  /** The completed commands of one kind, by their index in the request. */
  type Completed<+V> = map<int, V>

  predicate InRange(cmds: seq<Command>, indexes: set<int>) {
    forall i | i in indexes :: 0 <= i < |cmds|
  }

  /** The ids behind these indexes can be read: no index out of range, no nil id. */
  predicate Readable(cmds: seq<Command>, indexes: set<int>) {
    InRange(cmds, indexes) && forall i | i in indexes :: cmds[i].commandId.Some?
  }

  /** The multiset of the ids of the completed commands: one per completed index. */
  ghost function IdsAt(cmds: seq<Command>, indexes: set<int>): multiset<string> {
    if cmds == [] then multiset{}
    else
      var last := |cmds| - 1;
      IdsAt(cmds[..last], indexes) + if last in indexes then multiset{GetCommandId(cmds[last])} else multiset{}
  }

  ghost function CompletedIds(
    req: CommandRequest, timers: set<int>, signals: set<int>, channels: set<int>): multiset<string>
  {
    IdsAt(req.timerCommands, timers) + IdsAt(req.signalCommands, signals) + IdsAt(req.channelCommands, channels)
  }

  /** What the trigger decides, on the sets of completed indexes only. */
  ghost function TriggerSpec(req: CommandRequest, timers: set<int>, signals: set<int>, channels: set<int>): Verdict {
    if req.CommandCount() == 0 then Met(true)
    else
      match GetDeciderTriggerType(req)
      case None => Panic
      case Some(AllCompleted) =>
        Met(|timers| == |req.timerCommands| && |signals| == |req.signalCommands| && |channels| == |req.channelCommands|)
      case Some(AnyCompleted) => Met(|timers| + |signals| + |channels| > 0)
      case Some(AnyCombinationCompleted) =>
        if Readable(req.timerCommands, timers) && Readable(req.signalCommands, signals)
          && Readable(req.channelCommands, channels)
        then Met(exists comb | comb in req.combinations ::
          multiset(comb) <= CompletedIds(req, timers, signals, channels))
        else Panic
      case Some(Unsupported(_)) => Panic
  }

  // ---- The code ----

  /** The map acceptedCmdIds holds the multiplicities of ids, and no zero entries. */
  ghost predicate Counts(accepted: map<string, int>, ids: multiset<string>) {
    forall id :: (id in accepted <==> id in ids) && (id in accepted ==> accepted[id] == ids[id])
  }

  lemma {:induction false} IdsAtAdd(cmds: seq<Command>, indexes: set<int>, k: int)
    requires k !in indexes
    ensures IdsAt(cmds, indexes + {k}) ==
            IdsAt(cmds, indexes) + if 0 <= k < |cmds| then multiset{GetCommandId(cmds[k])} else multiset{}
  {
    if cmds == [] {
    } else {
      var last := |cmds| - 1;
      IdsAtAdd(cmds[..last], indexes, k);
      var more := indexes + {k};
      assert IdsAt(cmds, more) == IdsAt(cmds[..last], more) + if last in more then multiset{GetCommandId(cmds[last])}
        else multiset{};
      if k == last {
        assert last in more && last !in indexes;
      } else {
        assert last in more <==> last in indexes;
        assert 0 <= k < last ==> cmds[..last][k] == cmds[k];
      }
    }
  }

  lemma {:induction false} IdsAtNone(cmds: seq<Command>)
    ensures IdsAt(cmds, {}) == multiset{}
  {
    if cmds == [] {
    } else {
      IdsAtNone(cmds[..|cmds| - 1]);
    }
  }

  predicate IntLess(a: int, b: int) {
    a < b
  }

  lemma {:induction false} IntOrder()
    ensures IsOrder(IntLess)
  {
  }

  lemma {:induction false} ReadableNone(cmds: seq<Command>)
    ensures Readable(cmds, {})
  {
  }

  lemma {:induction false} ReadableAdd(cmds: seq<Command>, indexes: set<int>, k: int)
    ensures Readable(cmds, indexes + {k}) <==> Readable(cmds, indexes) && 0 <= k < |cmds| && cmds[k].commandId.Some?
  {
  }

  /** *cmds[idx].CommandId; None is the panic. */
  method ReadId(cmds: seq<Command>, idx: int) returns (cmdId: Option<string>)
    ensures cmdId.Some? <==> 0 <= idx < |cmds| && cmds[idx].commandId.Some?
    ensures cmdId.Some? ==> cmdId.value == GetCommandId(cmds[idx])
  {
    cmdId := if 0 <= idx < |cmds| then cmds[idx].commandId else None;
  }

  /** One of the three loops that read the ids of the completed commands; None is a panic. */
  method AppendIds<V>(ids: seq<string>, cmds: seq<Command>, completed: Completed<V>) returns (r: Option<seq<string>>)
    ensures r.Some? <==> Readable(cmds, completed.Keys)
    ensures r.Some? ==> multiset(r.value) == multiset(ids) + IdsAt(cmds, completed.Keys)
  {
    hide Increasing, IsOrder, IdsAt, Readable, GetCommandId;
    IntOrder();
    var keys := DeterministicKeys(completed, IntLess);
    var all := ids;
    ghost var visited: set<int> := {};
    IdsAtNone(cmds);
    ReadableNone(cmds);
    for i := 0 to |keys|
      invariant forall k :: k in visited <==> k in keys[..i]
      invariant Readable(cmds, visited)
      invariant multiset(all) == multiset(ids) + IdsAt(cmds, visited)
    {
      var idx := keys[i];
      NextKey(keys, IntLess, i);
      assert idx in completed.Keys && completed.Keys + {idx} == completed.Keys;
      ReadableAdd(cmds, completed.Keys, idx);
      ReadableAdd(cmds, visited, idx);
      var cmdId := ReadId(cmds, idx);
      if cmdId.None? {
        return None;
      }
      all := all + [cmdId.value];
      IdsAtAdd(cmds, visited, idx);
      visited := visited + {idx};
    }
    assert keys[..|keys|] == keys;
    assert forall k :: k in visited <==> k in keys;
    assert forall k :: k in visited <==> k in completed;
    assert visited == completed.Keys;
    return Some(all);
  }

  /** acceptedCmdIds[cid]++ for every id of the combination. */
  method CountIds(ids: seq<string>) returns (accepted: map<string, int>)
    ensures Counts(accepted, multiset(ids))
  {
    accepted := map[];
    for i := 0 to |ids|
      invariant Counts(accepted, multiset(ids[..i]))
    {
      assert ids[..i + 1] == ids[..i] + [ids[i]];
      accepted := accepted[ids[i] := (if ids[i] in accepted then accepted[ids[i]] else 0) + 1];
    }
    assert ids[..|ids|] == ids;
  }

  /** acceptedCmdIds[cid]--, and the entry deleted at zero; an unknown id changes nothing. */
  function Decrement(accepted: map<string, int>, cid: string): map<string, int> {
    if cid !in accepted || accepted[cid] <= 0 then accepted
    else if accepted[cid] - 1 == 0 then accepted - {cid}
    else accepted[cid := accepted[cid] - 1]
  }

  lemma {:induction false} DecrementCounts(
    accepted: map<string, int>, comb: multiset<string>, seen: multiset<string>, cid: string)
    requires Counts(accepted, comb - seen)
    ensures Counts(Decrement(accepted, cid), comb - (seen + multiset{cid}))
  {
  }

  lemma {:induction false} NothingLeft(accepted: map<string, int>, needed: multiset<string>, have: multiset<string>)
    requires Counts(accepted, needed - have)
    ensures |accepted| == 0 <==> needed <= have
  {
    if |accepted| == 0 {
      forall id ensures needed[id] <= have[id] {
        assert id !in accepted;
      }
    } else {
      var id :| id in accepted;
      assert id in needed - have;
    }
  }

  /** One round of the decrement-and-delete loop. */
  method Visit(accepted: map<string, int>, cid: string) returns (r: map<string, int>)
    ensures r == Decrement(accepted, cid)
  {
    r := accepted;
    if (if cid in r then r[cid] else 0) > 0 {
      r := r[cid := r[cid] - 1];
      if r[cid] == 0 {
        r := r - {cid};
      }
    }
  }

  /** The decrement-and-delete loop: what remains is the combination minus the completed ids. */
  method IsCovered(comb: seq<string>, completedCmdIds: seq<string>) returns (covered: bool)
    ensures covered <==> multiset(comb) <= multiset(completedCmdIds)
  {
    var accepted := CountIds(comb);
    ghost var seen: multiset<string> := multiset{};
    assert multiset(comb) == multiset(comb) - seen;
    for i := 0 to |completedCmdIds|
      invariant seen == multiset(completedCmdIds[..i])
      invariant Counts(accepted, multiset(comb) - seen)
    {
      hide Counts;
      var cid := completedCmdIds[i];
      DecrementCounts(accepted, multiset(comb), seen, cid);
      accepted := Visit(accepted, cid);
      assert completedCmdIds[..i + 1] == completedCmdIds[..i] + [cid];
      seen := seen + multiset{cid};
    }
    assert completedCmdIds[..|completedCmdIds|] == completedCmdIds;
    NothingLeft(accepted, multiset(comb), multiset(completedCmdIds));
    covered := |accepted| == 0;
  }

  /** The ids of all completed commands; None is a panic. */
  method CompletedCommandIds<T, V>(
    req: CommandRequest, completedTimers: Completed<T>, completedSignals: Completed<V>, completedChannels: Completed<V>)
    returns (ids: Option<seq<string>>)
    ensures ids.Some? <==> && Readable(req.timerCommands, completedTimers.Keys)
                           && Readable(req.signalCommands, completedSignals.Keys)
                           && Readable(req.channelCommands, completedChannels.Keys)
    ensures ids.Some? ==>
              multiset(ids.value) == CompletedIds(req, completedTimers.Keys, completedSignals.Keys,
                completedChannels.Keys)
  {
    ids := AppendIds([], req.timerCommands, completedTimers);
    if ids.None? {
      return;
    }
    ids := AppendIds(ids.value, req.signalCommands, completedSignals);
    if ids.None? {
      return;
    }
    ids := AppendIds(ids.value, req.channelCommands, completedChannels);
  }

  method IsAnyCombinationCovered(combinations: seq<seq<string>>, completedCmdIds: seq<string>) returns (covered: bool)
    ensures covered <==> exists comb | comb in combinations :: multiset(comb) <= multiset(completedCmdIds)
  {
    for i := 0 to |combinations|
      invariant forall j | 0 <= j < i :: !(multiset(combinations[j]) <= multiset(completedCmdIds))
    {
      covered := IsCovered(combinations[i], completedCmdIds);
      if covered {
        return;
      }
    }
    covered := false;
  }

  method IsDeciderTriggerConditionMet<T, V>(
    req: CommandRequest, completedTimers: Completed<T>, completedSignals: Completed<V>, completedChannels: Completed<V>)
    returns (v: Verdict)
    ensures v == TriggerSpec(req, completedTimers.Keys, completedSignals.Keys, completedChannels.Keys)
  {
    if |req.timerCommands| + |req.signalCommands| + |req.channelCommands| > 0 {
      var triggerType := GetDeciderTriggerType(req);
      if triggerType.None? {
        return Panic;
      }
      if triggerType.value == AllCompleted {
        return Met(|completedTimers.Keys| == |req.timerCommands| && |completedSignals.Keys| == |req.signalCommands|
                   && |completedChannels.Keys| == |req.channelCommands|);
      } else if triggerType.value == AnyCompleted {
        return Met(|completedTimers.Keys| + |completedSignals.Keys| + |completedChannels.Keys| > 0);
      } else if triggerType.value == AnyCombinationCompleted {
        var ids := CompletedCommandIds(req, completedTimers, completedSignals, completedChannels);
        if ids.None? {
          return Panic;
        }
        var covered := IsAnyCombinationCovered(req.combinations, ids.value);
        return Met(covered);
      } else {
        return Panic;
      }
    }
    return Met(true);
  }
}
