/** State inputs in the blob store: what every state of a chain gets as its input, and how
    many blobs that costs. */
module StateInputs {
  import opened GoTypes
  import opened BlobStores
  import opened ExternalStorage

  // ---- The code, on pointers ----

  /** A pointer to an encoded object, written through by the storage code. */
  class ObjectCell {
    var value: EncodedObject

    constructor (value: EncodedObject)
      ensures this.value == value
    {
      this.value := value;
    }
  }

  function Value(cell: ObjectCell?): Message
    reads cell
  {
    if cell == null then None else Some(cell.value)
  }

  /** False is an error of the store. */
  method ProcessNextStateInput(
    store: BlobStore, next: ObjectCell?, current: Option<EncodedObject>, workflowId: string, threshold: int)
      returns (ok: bool)
    modifies store, next
    ensures var p := ProcessFirst(old(store.state), old(Value(next)), current, workflowId, threshold);
            && store.state == p.blobs && (ok <==> next == null || p.outcome.Some?)
            && Value(next) == if ok then p.outcome else old(Value(next))
    ensures !ok <==>
              && next != null && TooLarge(old(next.value), threshold) && !Reusable(old(next.value), current)
              && old(store.state.faults) != [] && old(store.state.faults)[0]
  {
    if next == null || next.value.data.None? || |next.value.data.value| <= threshold {
      return true;
    }
    if current.Some? && current.value.data.Some? && current.value.data.value == next.value.data.value
       && current.value.extStoreId.Some? && current.value.extPath.Some? {
      next.value := next.value.(extStoreId := current.value.extStoreId);
      next.value := next.value.(extPath := current.value.extPath);
      next.value := next.value.(data := None);
      return true;
    }
    var ref := store.WriteObject(workflowId, next.value.data.value);
    if ref.None? {
      return false;
    }
    next.value := next.value.(extStoreId := Some(ref.value.storeId));
    next.value := next.value.(extPath := Some(ref.value.path));
    next.value := next.value.(data := None);
    return true;
  }

  function Values(cells: seq<ObjectCell?>): seq<Message>
    reads cells
  {
    seq(|cells|, i requires 0 <= i < |cells| reads cells => Value(cells[i]))
  }

  method WriteNextStateInputs(
    store: BlobStore, nextStates: seq<ObjectCell?>, current: Option<EncodedObject>, workflowId: string, threshold: int)
    returns (ok: bool)
    requires forall i, j | 0 <= i < j < |nextStates| && nextStates[i] != null :: nextStates[i] != nextStates[j]
    modifies store, nextStates
    ensures var w := WriteAll(old(store.state), old(Values(nextStates)), current, workflowId, threshold);
            store.state == w.blobs && Values(nextStates) == w.objects && ok == w.ok
    ensures ok <==> NoFaultsIn(old(store.state.faults), Costs(old(Values(nextStates)), current, threshold))
  {
    hide WriteAll, ProcessFirst, NoFaultsIn, Costs, Rest, TooLarge, Reusable;
    ghost var os := Values(nextStates);
    WriteAllSucceedsExactly(store.state, os, current, workflowId, threshold);
    ghost var all := WriteAll(store.state, os, current, workflowId, threshold);
    ghost var done: seq<Message> := [];
    ghost var rest := all;
    assert os[0..] == os;
    for i := 0 to |nextStates|
      invariant |done| == i && forall j | 0 <= j < i :: Value(nextStates[j]) == done[j]
      invariant forall j | i <= j < |nextStates| :: Value(nextStates[j]) == os[j]
      invariant rest == WriteAll(store.state, os[i..], current, workflowId, threshold)
      invariant all == Written(rest.blobs, done + rest.objects, rest.ok)
    {
      WriteAllFrom(store.state, os, i, current, workflowId, threshold);
      var written := ProcessNextStateInput(store, nextStates[i], current, workflowId, threshold);
      if !written {
        assert Values(nextStates) == done + os[i..];
        return false;
      }
      rest := WriteAll(store.state, os[i + 1..], current, workflowId, threshold);
      assert done + ([Value(nextStates[i])] + rest.objects) == (done + [Value(nextStates[i])]) + rest.objects;
      done := done + [Value(nextStates[i])];
    }
    assert os[|os|..] == [];
    NothingTooLarge(store.state, [], current, workflowId, threshold);
    assert Values(nextStates) == done + [];
    return true;
  }

  /** The input as the worker will get it, and the copy that allows reuse. */
  datatype Seen = Seen(blobs: Blobs, ok: bool, input: Message, copy: Option<EncodedObject>)

  function LoadInput(b: Blobs, input: Message): Seen {
    if input.None? || input.value.extStoreId.None? then Seen(b, true, input, None)
    else if input.value.extPath.None? then Seen(b, true, input, input)
    else
      var ref := Ref(input.value.extStoreId.value, input.value.extPath.value);
      if Fails(b) || ref !in b.objects then Seen(Tick(b), false, input, None)
      else Seen(Tick(b), true, Some(LoadedObject(input.value, b.objects[ref], false)),
                Some(input.value.(data := Some(b.objects[ref]))))
  }

  /** The guarded call of loadStateInputFromExternalStorage. */
  method LoadStateInput(store: BlobStore, input: ObjectCell?) returns (ok: bool, copy: Option<EncodedObject>)
    modifies store, input
    ensures var seen := LoadInput(old(store.state), old(Value(input)));
            store.state == seen.blobs && ok == seen.ok && Value(input) == seen.input && copy == seen.copy
  {
    if input == null || input.value.extStoreId.None? {
      return true, None;
    }
    if input.value.extPath.None? {
      return true, Some(input.value);
    }
    var extStoreId, extPath := input.value.extStoreId, input.value.extPath;
    var data := store.ReadObject(Ref(extStoreId.value, extPath.value));
    if data.None? {
      return false, None;
    }
    input.value := input.value.(data := data);
    input.value := input.value.(extPath := None);
    input.value := input.value.(extStoreId := None);
    return true, Some(EncodedObject(input.value.encoding, input.value.data, extStoreId, extPath));
  }

  lemma {:induction false} LoadInputMeaning(b: Blobs, input: Message)
    ensures var seen := LoadInput(b, input);
            && seen.blobs.objects == b.objects
            && CopyFaithful(b.objects, seen.copy)
            && (seen.ok ==> IsLoaded(b.objects, seen.input, input))
            && (seen.ok && input.Some? && RefOf(input.value).Some? ==>
                  && seen.copy.Some? && RefOf(seen.copy.value) == RefOf(input.value)
                  && seen.copy.value.data == seen.input.value.data)
  {
  }

  /** When an input loads, and what the worker and the writer of the next inputs get then. */
  lemma {:induction false} LoadInputExactly(b: Blobs, input: Message)
    ensures var seen := LoadInput(b, input);
            if input.None? || input.value.extStoreId.None? || input.value.extPath.None? then
              seen.ok && seen.blobs == b && seen.input == input
            else
              var o := input.value;
              var ref := Ref(o.extStoreId.value, o.extPath.value);
              && (seen.ok <==> !(b.faults != [] && b.faults[0]) && ref in b.objects)
              && seen.blobs.faults == Rest(b.faults, 1)
              && (seen.ok ==>
                    && seen.input == Some(EncodedObject(o.encoding, Some(b.objects[ref]), None, None))
                    && seen.copy == Some(EncodedObject(o.encoding, Some(b.objects[ref]), o.extStoreId, o.extPath)))
  {
  }

  // ---- Chains of state transitions ----

  /** One transition: what the worker answers to an input, and which next state comes next. */
  datatype Transition = Transition(worker: Message -> seq<Message>, pick: nat)

  /** StateApiExecute: load the input, ask the worker, move large next inputs to the store. */
  function Execute(b: Blobs, input: Message, t: Transition, workflowId: string, threshold: int): Written {
    var seen := LoadInput(b, input);
    if !seen.ok then Written(seen.blobs, [], false)
    else WriteAll(seen.blobs, t.worker(seen.input), seen.copy, workflowId, threshold)
  }

  /** A transition succeeds if and only if its input loads and the store does not fail for any next input
      that is too large and not the current input again. */
  lemma {:induction false} ExecuteSucceedsExactly(
    b: Blobs, input: Message, t: Transition, workflowId: string, threshold: int)
    ensures var seen := LoadInput(b, input);
            Execute(b, input, t, workflowId, threshold).ok <==>
              && !Dangling(b.objects, input)
              && var loads := if input.Some? && RefOf(input.value).Some? then 1 else 0;
                 NoFaultsIn(b.faults, loads + Costs(t.worker(seen.input), seen.copy, threshold))
  {
    var seen := LoadInput(b, input);
    WriteAllSucceedsExactly(seen.blobs, t.worker(seen.input), seen.copy, workflowId, threshold);
    FaultsShift(b, Costs(t.worker(seen.input), seen.copy, threshold));
  }

  /** The inputs that the workers of a chain get, as far as the chain succeeds. */
  ghost function InputsSeen(
    b: Blobs, input: Message, ts: seq<Transition>, workflowId: string, threshold: int): seq<Message>
    decreases ts
  {
    var seen := LoadInput(b, input);
    if ts == [] || !seen.ok then []
    else
      var w := Execute(b, input, ts[0], workflowId, threshold);
      [seen.input] + if !w.ok || ts[0].pick >= |w.objects| then []
                     else InputsSeen(w.blobs, w.objects[ts[0].pick], ts[1..], workflowId, threshold)
  }

  /** The store after the chain. */
  ghost function StoreAfter(b: Blobs, input: Message, ts: seq<Transition>, workflowId: string, threshold: int): Blobs
    decreases ts
  {
    if ts == [] then b
    else
      var w := Execute(b, input, ts[0], workflowId, threshold);
      if !w.ok || ts[0].pick >= |w.objects| then w.blobs
      else StoreAfter(w.blobs, w.objects[ts[0].pick], ts[1..], workflowId, threshold)
  }

  /** The store only grows along a chain. */
  lemma {:induction false} ChainAppends(
    b: Blobs, input: Message, ts: seq<Transition>, workflowId: string, threshold: int)
    requires FreshUuids(b)
    ensures Appended(b, StoreAfter(b, input, ts, workflowId, threshold))
    decreases ts
  {
    if ts == [] {
    } else {
      var w := Execute(b, input, ts[0], workflowId, threshold);
      ExecuteMeaning(b, input, ts[0], workflowId, threshold);
      if w.ok && ts[0].pick < |w.objects| {
        ChainAppends(w.blobs, w.objects[ts[0].pick], ts[1..], workflowId, threshold);
        AppendedTransitive(b, w.blobs, StoreAfter(b, input, ts, workflowId, threshold));
      }
    }
  }

  lemma {:induction false} ExecuteMeaning(b: Blobs, input: Message, t: Transition, workflowId: string, threshold: int)
    requires FreshUuids(b)
    ensures var w := Execute(b, input, t, workflowId, threshold);
            && Appended(b, w.blobs) && FreshUuids(w.blobs)
            && (w.ok ==>
                  var returned := t.worker(LoadInput(b, input).input);
                  && |w.objects| == |returned|
                  && forall j | 0 <= j < |returned| ::
                       MessageStandsFor(w.blobs.objects, w.objects[j], returned[j], threshold))
  {
    LoadInputMeaning(b, input);
    var seen := LoadInput(b, input);
    var done := WriteAllMeaning(seen.blobs, t.worker(seen.input), seen.copy, workflowId, threshold);
  }

  /** The data that the next state gets for what a worker returned: the data itself, unless the
      worker returned small data beside a reference - then what the reference refers to. */
  ghost predicate SeenAs(objects: map<Ref, string>, seen: Message, returned: Message, threshold: int) {
    if returned.None? then seen.None?
    else
      && seen.Some? && seen.value.encoding == returned.value.encoding
      && seen.value.data == Original(objects, returned.value, threshold)
  }

  lemma {:induction false} NextInputSeen(b: Blobs, kept: Message, returned: Message, later: Blobs, threshold: int)
    requires MessageStandsFor(b.objects, kept, returned, threshold)
    requires LoadInput(b, kept).ok && Appended(b, later)
    ensures SeenAs(later.objects, LoadInput(b, kept).input, returned, threshold)
  {
  }

  /** For every chain of transitions, however long, and with any store failures: what a worker
      returned for a next state is what the worker of that state gets. */
  lemma {:induction false} EveryStateSeesWhatWasReturned(
    b: Blobs, input: Message, ts: seq<Transition>, workflowId: string, threshold: int, k: nat)
    requires FreshUuids(b)
    requires k + 1 < |InputsSeen(b, input, ts, workflowId, threshold)|
    ensures var seen := InputsSeen(b, input, ts, workflowId, threshold);
            && k < |ts| && ts[k].pick < |ts[k].worker(seen[k])|
            && SeenAs(StoreAfter(b, input, ts, workflowId, threshold).objects,
                      seen[k + 1], ts[k].worker(seen[k])[ts[k].pick], threshold)
    decreases ts
  {
    hide Execute, WriteAll, SeenAs;
    var t := ts[0];
    var w := Execute(b, input, t, workflowId, threshold);
    ExecuteMeaning(b, input, t, workflowId, threshold);
    ExecuteNeedsInput(b, input, t, workflowId, threshold);
    var next := w.objects[t.pick];
    if k == 0 {
      ChainAppends(w.blobs, next, ts[1..], workflowId, threshold);
      hide MessageStandsFor, LoadInput;
      NextInputSeen(w.blobs, next, t.worker(LoadInput(b, input).input)[t.pick],
                    StoreAfter(b, input, ts, workflowId, threshold), threshold);
    } else {
      EveryStateSeesWhatWasReturned(w.blobs, next, ts[1..], workflowId, threshold, k - 1);
    }
  }

  lemma {:induction false} ExecuteNeedsInput(
    b: Blobs, input: Message, t: Transition, workflowId: string, threshold: int)
    ensures Execute(b, input, t, workflowId, threshold).ok ==> LoadInput(b, input).ok
  {
  }

  /** Whatever the worker gets, the next state picked is there, and a reference that is passed on leads to
      an object. */
  ghost predicate Answers(objects: map<Ref, string>, t: Transition, threshold: int) {
    forall m: Message :: t.pick < |t.worker(m)| && !LeadsNowhere(objects, t.worker(m)[t.pick], threshold)
  }

  predicate LeadsNowhere(objects: map<Ref, string>, next: Message, threshold: int) {
    next.Some? && !TooLarge(next.value, threshold) && Dangling(objects, next)
  }

  /** While the store works, every chain of such transitions goes through: each worker gets its input. */
  lemma {:induction false} WorkingStoreRunsTheChain(
    b: Blobs, input: Message, ts: seq<Transition>, workflowId: string, threshold: int)
    requires FreshUuids(b) && NoFaults(b) && !Dangling(b.objects, input)
    requires forall t | t in ts :: Answers(b.objects, t, threshold)
    ensures |InputsSeen(b, input, ts, workflowId, threshold)| == |ts|
    ensures NoFaults(StoreAfter(b, input, ts, workflowId, threshold))
    decreases ts
  {
    if ts == [] {
    } else {
      var t := ts[0];
      var seen := LoadInput(b, input);
      assert Answers(b.objects, t, threshold);
      WorkingStoreTakesAll(seen.blobs, t.worker(seen.input), seen.copy, workflowId, threshold);
      ExecuteMeaning(b, input, t, workflowId, threshold);
      hide WriteAll;
      var w := Execute(b, input, t, workflowId, threshold);
      forall u | u in ts[1..] ensures Answers(w.blobs.objects, u, threshold) {
        assert u in ts && Answers(b.objects, u, threshold);
      }
      assert MessageStandsFor(w.blobs.objects, w.objects[t.pick], t.worker(seen.input)[t.pick], threshold);
      WorkingStoreRunsTheChain(w.blobs, w.objects[t.pick], ts[1..], workflowId, threshold);
    }
  }

  /** So exactly the data returned, if it is too large to be inline or has no reference beside it;
      in the remaining case exactly when the reference leads to the same data. */
  lemma {:induction false} SameDataExactly(objects: map<Ref, string>, seen: Message, returned: Message, threshold: int)
    requires SeenAs(objects, seen, returned, threshold) && returned.Some?
    ensures seen.value.data == returned.value.data <==>
            || TooLarge(returned.value, threshold) || RefOf(returned.value).None?
            || Resolve(objects, returned.value) == returned.value.data
  {
  }

  /** The failing input: a worker returns "y" beside a reference to a blob that holds "x", and the
      next worker gets "x". */
  lemma {:induction false} StaleReferenceWins(
    b: Blobs, ref: Ref, encoding: Option<string>, workflowId: string, threshold: int)
    requires ref in b.objects && b.objects[ref] == "x" && b.faults == [] && threshold >= 1
    ensures var y := EncodedObject(encoding, Some("y"), Some(ref.storeId), Some(ref.path));
            var t := Transition(m => [Some(y)], 0);
            InputsSeen(b, None, [t, t], workflowId, threshold)
              == [None, Some(EncodedObject(encoding, Some("x"), None, None))]
  {
    var y := EncodedObject(encoding, Some("y"), Some(ref.storeId), Some(ref.path));
    var t := Transition(m => [Some(y)], 0);
    assert Ref(ref.storeId, ref.path) == ref && [t, t][1..] == [t] && [t][1..] == [];
    NothingTooLarge(b, [Some(y)], None, workflowId, threshold);
    assert Execute(b, None, t, workflowId, threshold) == Written(b, [Some(y)], true);
    var x := Some(EncodedObject(encoding, Some("x"), None, None));
    assert LoadInput(b, Some(y)).input == x && LoadInput(b, Some(y)).ok;
    assert InputsSeen(b, Some(y), [t], workflowId, threshold)[0] == x;
    var w := Execute(b, Some(y), t, workflowId, threshold);
    assert w.ok ==> InputsSeen(w.blobs, w.objects[0], [], workflowId, threshold) == [];
  }

  /** Every worker answers an input that holds data with next inputs that hold the same data. */
  ghost predicate PassesOn(t: Transition, data: string) {
    forall m: Message | m.Some? && m.value.data == Some(data) ::
      forall next | next in t.worker(m) :: next.Some? && next.value.data == Some(data)
  }

  /** Next inputs with the data of the current input get its reference; nothing is written. */
  lemma {:induction false} ReuseWritesNothing(
    b: Blobs, os: seq<Message>, current: EncodedObject, workflowId: string, threshold: int)
    requires current.data.Some? && |current.data.value| > threshold && RefOf(current).Some?
    requires forall m | m in os :: m.Some? && m.value.data == current.data
    ensures var w := WriteAll(b, os, Some(current), workflowId, threshold);
            && w.ok && w.blobs == b && |w.objects| == |os|
            && forall m | m in w.objects :: m.Some? && RefOf(m.value) == RefOf(current)
    decreases os
  {
    if os == [] {
    } else {
      assert os[0] in os;
      ReuseWritesNothing(b, os[1..], current, workflowId, threshold);
    }
  }

  /** An input that is in the store and too large to be inline, passed on unchanged through any
      number of states, is never stored again - also when requests to the store fail. */
  lemma {:induction false} UnchangedInputStoredOnce(
    b: Blobs, input: Message, ts: seq<Transition>, workflowId: string, threshold: int, data: string)
    requires |data| > threshold
    requires input.Some? && RefOf(input.value).Some? && Resolve(b.objects, input.value) == Some(data)
    requires forall t | t in ts :: PassesOn(t, data)
    ensures StoreAfter(b, input, ts, workflowId, threshold).objects == b.objects
    decreases ts
  {
    if ts == [] {
    } else {
      var t := ts[0];
      assert PassesOn(t, data);
      LoadInputMeaning(b, input);
      var seen := LoadInput(b, input);
      if seen.ok {
        ReuseWritesNothing(seen.blobs, t.worker(seen.input), seen.copy.value, workflowId, threshold);
        var w := Execute(b, input, t, workflowId, threshold);
        if t.pick < |w.objects| {
          assert w.objects[t.pick] in w.objects;
          UnchangedInputStoredOnce(w.blobs, w.objects[t.pick], ts[1..], workflowId, threshold, data);
        }
      }
    }
  }

  /** In general, a transition that succeeds stores one blob for each next input that is too
      large and not the (stored) current input over again. */
  lemma {:induction false} TransitionCost(b: Blobs, input: Message, t: Transition, workflowId: string, threshold: int)
    requires FreshUuids(b) && Execute(b, input, t, workflowId, threshold).ok
    ensures var seen := LoadInput(b, input);
            |Execute(b, input, t, workflowId, threshold).blobs.objects|
              == |b.objects| + Costs(t.worker(seen.input), seen.copy, threshold)
  {
    LoadInputMeaning(b, input);
    var seen := LoadInput(b, input);
    var done := WriteAllMeaning(seen.blobs, t.worker(seen.input), seen.copy, workflowId, threshold);
  }
}
