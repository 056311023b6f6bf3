/** What moving large values to the blob store, and back, does to them. */
module ExternalStorage {
  import opened GoTypes
  import opened BlobStores

  function RefOf(o: EncodedObject): Option<Ref> {
    if o.extStoreId.Some? && o.extPath.Some? then Some(Ref(o.extStoreId.value, o.extPath.value)) else None
  }

  /** The data a consumer gets after loading; None when there is none, or it is not there. */
  function Resolve(objects: map<Ref, string>, o: EncodedObject): Option<string> {
    match RefOf(o)
    case None => o.data
    case Some(ref) => if ref in objects then Some(objects[ref]) else None
  }

  predicate TooLarge(o: EncodedObject, threshold: int) {
    o.data.Some? && |o.data.value| > threshold
  }

  /** The current input was loaded from the store and has the same data. */
  predicate Reusable(o: EncodedObject, current: Option<EncodedObject>) {
    current.Some? && current.value.data.Some? && o.data == current.value.data && RefOf(current.value).Some?
  }

  function Replaced(o: EncodedObject, ref: Ref): EncodedObject {
    o.(extStoreId := Some(ref.storeId), extPath := Some(ref.path), data := None)
  }

  datatype Processed = Processed(blobs: Blobs, outcome: Option<EncodedObject>) // None: the write failed

  function Process(
    b: Blobs, o: EncodedObject, current: Option<EncodedObject>, workflowId: string, threshold: int): Processed
  {
    if !TooLarge(o, threshold) then Processed(b, Some(o))
    else if Reusable(o, current) then Processed(b, Some(Replaced(o, RefOf(current.value).value)))
    else if Fails(b) then Processed(Tick(b), None)
    else Processed(Put(b, workflowId, o.data.value), Some(Replaced(o, NewRef(b, workflowId))))
  }

  /** A copy with references says what is stored there. */
  ghost predicate CopyFaithful(objects: map<Ref, string>, current: Option<EncodedObject>) {
    current.Some? && RefOf(current.value).Some? && current.value.data.Some? ==>
      RefOf(current.value).value in objects && objects[RefOf(current.value).value] == current.value.data.value
  }

  /** kept stands for o: same encoding, and it resolves to the data of o. An object that is not too
      large is left alone. */
  ghost predicate StandsFor(objects: map<Ref, string>, kept: EncodedObject, o: EncodedObject, threshold: int) {
    && kept.encoding == o.encoding
    && (TooLarge(o, threshold) ==> kept.data.None? && RefOf(kept).Some? && Resolve(objects, kept) == o.data)
    && (!TooLarge(o, threshold) ==> kept == o)
  }

  function Cost(o: EncodedObject, current: Option<EncodedObject>, threshold: int): nat {
    if TooLarge(o, threshold) && !Reusable(o, current) then 1 else 0
  }

  lemma {:induction false} ProcessKeepsMeaning(
    b: Blobs, o: EncodedObject, current: Option<EncodedObject>, workflowId: string, threshold: int)
    requires FreshUuids(b) && CopyFaithful(b.objects, current)
    ensures var p := Process(b, o, current, workflowId, threshold);
            && Appended(b, p.blobs) && FreshUuids(p.blobs) && CopyFaithful(p.blobs.objects, current)
            && (p.outcome.Some? ==>
                  && StandsFor(p.blobs.objects, p.outcome.value, o, threshold)
                  && |p.blobs.objects| == |b.objects| + Cost(o, current, threshold))
            && (p.outcome.None? ==> p.blobs.objects == b.objects)
  {
  }

  /** The reference that a write creates: in the active storage, under today's date and this workflow. */
  predicate IsNewRef(b: Blobs, ref: Ref, workflowId: string) {
    && ref.storeId == b.activeStorage && ref.path.yyyymmdd == b.yyyymmdd && ref.path.workflowId == workflowId
    && ref !in b.objects
  }

  /** One object, case by case: data up to the threshold stays inline; data over it takes the reference
      of a current input with the same data, or else a new one - unless the store fails. */
  lemma {:induction false} ProcessExactly(
    b: Blobs, o: EncodedObject, current: Option<EncodedObject>, workflowId: string, threshold: int)
    requires FreshUuids(b)
    ensures var p := Process(b, o, current, workflowId, threshold);
            if o.data.None? || |o.data.value| <= threshold then p == Processed(b, Some(o))
            else if && current.Some? && current.value.data == o.data
                    && current.value.extStoreId.Some? && current.value.extPath.Some? then
              p == Processed(b, Some(EncodedObject(o.encoding, None, current.value.extStoreId, current.value.extPath)))
            else if b.faults != [] && b.faults[0] then p.outcome.None? && p.blobs.objects == b.objects
            else
              && p.outcome.Some? && RefOf(p.outcome.value).Some?
              && var ref := RefOf(p.outcome.value).value;
                 && IsNewRef(b, ref, workflowId)
                 && p.outcome == Some(EncodedObject(o.encoding, None, Some(ref.storeId), Some(ref.path)))
                 && p.blobs.objects == b.objects[ref := o.data.value]
  {
    assert FreshUuids(b) ==> NewRef(b, workflowId) !in b.objects;
  }

  // ---- A list of objects, some of them nil ----

  datatype Written = Written(blobs: Blobs, objects: seq<Message>, ok: bool)

  /** The outcome of the first object: a nil pointer stays, and costs nothing. */
  function ProcessFirst(
    b: Blobs, m: Message, current: Option<EncodedObject>, workflowId: string, threshold: int): Processed
  {
    if m.None? then Processed(b, None) else Process(b, m.value, current, workflowId, threshold)
  }

  /** One object after the other; an error leaves the rest as it is. */
  function WriteAll(
    b: Blobs, os: seq<Message>, current: Option<EncodedObject>, workflowId: string, threshold: int): Written
    decreases os
  {
    if os == [] then Written(b, os, true)
    else
      var p := ProcessFirst(b, os[0], current, workflowId, threshold);
      if os[0].Some? && p.outcome.None? then Written(p.blobs, os, false)
      else
        var rest := WriteAll(p.blobs, os[1..], current, workflowId, threshold);
        Written(rest.blobs, [p.outcome] + rest.objects, rest.ok)
  }

  function Costs(os: seq<Message>, current: Option<EncodedObject>, threshold: int): nat {
    if os == [] then 0
    else (if os[0].Some? then Cost(os[0].value, current, threshold) else 0) + Costs(os[1..], current, threshold)
  }

  ghost predicate MessageStandsFor(objects: map<Ref, string>, result: Message, m: Message, threshold: int) {
    if m.None? then result == m else result.Some? && StandsFor(objects, result.value, m.value, threshold)
  }

  lemma {:induction false} StandsForGrows(before: Blobs, after: Blobs, result: Message, m: Message, threshold: int)
    requires Appended(before, after) && MessageStandsFor(before.objects, result, m, threshold)
    ensures MessageStandsFor(after.objects, result, m, threshold)
  {
  }

  /** One round of the loop, at index i. */
  lemma {:induction false} WriteAllFrom(
    b: Blobs, os: seq<Message>, i: nat, current: Option<EncodedObject>, workflowId: string, threshold: int)
    requires i < |os|
    ensures var p := ProcessFirst(b, os[i], current, workflowId, threshold);
            var rest := WriteAll(p.blobs, os[i + 1..], current, workflowId, threshold);
            WriteAll(b, os[i..], current, workflowId, threshold) ==
              if os[i].Some? && p.outcome.None? then Written(p.blobs, os[i..], false)
              else Written(rest.blobs, [p.outcome] + rest.objects, rest.ok)
  {
    assert os[i..][0] == os[i] && os[i..][1..] == os[i + 1..];
  }

  lemma {:induction false} FirstMeaning(
    b: Blobs, m: Message, current: Option<EncodedObject>, workflowId: string, threshold: int)
    requires FreshUuids(b) && CopyFaithful(b.objects, current)
    ensures var p := ProcessFirst(b, m, current, workflowId, threshold);
            && Appended(b, p.blobs) && FreshUuids(p.blobs) && CopyFaithful(p.blobs.objects, current)
            && (m.None? || p.outcome.Some? ==>
                  && MessageStandsFor(p.blobs.objects, p.outcome, m, threshold)
                  && |p.blobs.objects| == |b.objects| + Costs([m], current, threshold))
  {
    if m.Some? {
      ProcessKeepsMeaning(b, m.value, current, workflowId, threshold);
    }
    hide Process, StandsFor, CopyFaithful, Cost;
    assert Costs([m], current, threshold) == if m.Some? then Cost(m.value, current, threshold) else 0;
  }

  lemma {:induction false} CostsStep(os: seq<Message>, current: Option<EncodedObject>, threshold: int)
    requires os != []
    ensures Costs(os, current, threshold) == Costs([os[0]], current, threshold) + Costs(os[1..], current, threshold)
  {
    assert [os[0]][1..] == [];
  }

  /** What writing means: the objects before `done` stand for what they were, the others are
      untouched, and a write that succeeds costs one blob for each object that is too large and
      not reusable. */
  ghost predicate WrittenMeans(
    b: Blobs, os: seq<Message>, current: Option<EncodedObject>, threshold: int, w: Written, done: nat)
  {
    && Appended(b, w.blobs) && FreshUuids(w.blobs)
    && |w.objects| == |os| && done <= |os| && (w.ok <==> done == |os|)
    && (forall j | 0 <= j < done :: MessageStandsFor(w.blobs.objects, w.objects[j], os[j], threshold))
    && w.objects[done..] == os[done..]
    && (w.ok ==> |w.blobs.objects| == |b.objects| + Costs(os, current, threshold))
  }

  /** The first object is written, and the rest as rest says. */
  lemma {:induction false} FirstAndRest(
    b: Blobs, os: seq<Message>, current: Option<EncodedObject>, threshold: int, p: Processed, rest: Written, tail: nat)
    requires os != [] && Appended(b, p.blobs) && WrittenMeans(p.blobs, os[1..], current, threshold, rest, tail)
    requires MessageStandsFor(p.blobs.objects, p.outcome, os[0], threshold)
    requires |p.blobs.objects| == |b.objects| + Costs([os[0]], current, threshold)
    ensures WrittenMeans(b, os, current, threshold, Written(rest.blobs, [p.outcome] + rest.objects, rest.ok), tail + 1)
  {
    AppendedTransitive(b, p.blobs, rest.blobs);
    StandsForGrows(p.blobs, rest.blobs, p.outcome, os[0], threshold);
    CostsStep(os, current, threshold);
    hide MessageStandsFor, Appended, FreshUuids, Costs;
    var objects := [p.outcome] + rest.objects;
    assert objects[tail + 1..] == rest.objects[tail..] && os[tail + 1..] == os[1..][tail..];
    forall j | 0 <= j < tail + 1 ensures MessageStandsFor(rest.blobs.objects, objects[j], os[j], threshold) {
      if j > 0 {
        assert objects[j] == rest.objects[j - 1] && os[j] == os[1..][j - 1];
      }
    }
  }

  lemma {:induction false} WriteAllMeaning(
    b: Blobs, os: seq<Message>, current: Option<EncodedObject>, workflowId: string, threshold: int)
    returns (done: nat)
    requires FreshUuids(b) && CopyFaithful(b.objects, current)
    ensures WrittenMeans(b, os, current, threshold, WriteAll(b, os, current, workflowId, threshold), done)
    decreases os
  {
    done := 0;
    if os == [] {
    } else {
      var p := ProcessFirst(b, os[0], current, workflowId, threshold);
      assert os[0..] == os;
      WriteAllFrom(b, os, 0, current, workflowId, threshold);
      FirstMeaning(b, os[0], current, workflowId, threshold);
      hide WriteAll, ProcessFirst, CopyFaithful, MessageStandsFor, Costs;
      if os[0].None? || p.outcome.Some? {
        hide Appended, WrittenMeans, FreshUuids;
        var tail := WriteAllMeaning(p.blobs, os[1..], current, workflowId, threshold);
        FirstAndRest(b, os, current, threshold, p, WriteAll(p.blobs, os[1..], current, workflowId, threshold), tail);
        done := tail + 1;
      }
    }
  }

  ghost predicate NoFaults(b: Blobs) {
    forall i | 0 <= i < |b.faults| :: !b.faults[i]
  }

  /** The first n requests do not fail. */
  ghost predicate NoFaultsIn(faults: seq<bool>, n: nat) {
    forall i | 0 <= i < n && i < |faults| :: !faults[i]
  }

  function Rest(faults: seq<bool>, n: nat): seq<bool> {
    if n <= |faults| then faults[n..] else []
  }

  /** A list is written if and only if the store does not fail for any object that is too large and not
      reusable; each of these takes one request. */
  lemma {:induction false} WriteAllSucceedsExactly(
    b: Blobs, os: seq<Message>, current: Option<EncodedObject>, workflowId: string, threshold: int)
    ensures var w := WriteAll(b, os, current, workflowId, threshold);
            && (w.ok <==> NoFaultsIn(b.faults, Costs(os, current, threshold)))
            && (w.ok ==> w.blobs.faults == Rest(b.faults, Costs(os, current, threshold)))
    decreases os
  {
    if os == [] {
    } else {
      var p := ProcessFirst(b, os[0], current, workflowId, threshold);
      var later := Costs(os[1..], current, threshold);
      WriteAllSucceedsExactly(p.blobs, os[1..], current, workflowId, threshold);
      assert os[0].Some? && Cost(os[0].value, current, threshold) == 1 ==>
          (NoFaultsIn(b.faults, 1 + later) <==> !Fails(b) && NoFaultsIn(Tick(b).faults, later)) by {
        FaultsShift(b, later);
      }
    }
  }

  lemma {:induction false} FaultsShift(b: Blobs, n: nat)
    ensures NoFaultsIn(b.faults, 1 + n) <==> !Fails(b) && NoFaultsIn(Tick(b).faults, n)
    ensures Rest(b.faults, 1 + n) == Rest(Tick(b).faults, n)
  {
    if b.faults != [] && NoFaultsIn(Tick(b).faults, n) && !b.faults[0] {
      forall i | 0 <= i < 1 + n && i < |b.faults| ensures !b.faults[i] {
        assert i > 0 ==> b.faults[i] == b.faults[1..][i - 1];
      }
    }
    if b.faults != [] && NoFaultsIn(b.faults, 1 + n) {
      forall i | 0 <= i < n && i < |b.faults[1..]| ensures !b.faults[1..][i] {
        assert b.faults[1..][i] == b.faults[i + 1];
      }
    }
  }

  /** In particular, when the store works. */
  lemma {:induction false} WorkingStoreTakesAll(
    b: Blobs, os: seq<Message>, current: Option<EncodedObject>, workflowId: string, threshold: int)
    requires NoFaults(b)
    ensures var w := WriteAll(b, os, current, workflowId, threshold);
            w.ok && NoFaults(w.blobs)
  {
    WriteAllSucceedsExactly(b, os, current, workflowId, threshold);
  }

  // ---- Loading ----

  /** keepRefs: the API keeps the references beside the loaded data, the interpreter drops them. */
  function LoadedObject(o: EncodedObject, data: string, keepRefs: bool): EncodedObject {
    if keepRefs then o.(data := Some(data)) else EncodedObject(o.encoding, Some(data), None, None)
  }

  function LoadAll(b: Blobs, os: seq<Message>, keepRefs: bool): Written
    decreases os
  {
    if os == [] then Written(b, os, true)
    else if os[0].None? || RefOf(os[0].value).None? then
      var rest := LoadAll(b, os[1..], keepRefs);
      Written(rest.blobs, [os[0]] + rest.objects, rest.ok)
    else
      var ref := RefOf(os[0].value).value;
      if Fails(b) || ref !in b.objects then Written(Tick(b), os, false)
      else
        var rest := LoadAll(Tick(b), os[1..], keepRefs);
        Written(rest.blobs, [Some(LoadedObject(os[0].value, b.objects[ref], keepRefs))] + rest.objects, rest.ok)
  }

  /** What a list of objects looks like after a load that succeeds. */
  ghost predicate IsLoaded(objects: map<Ref, string>, result: Message, m: Message) {
    if m.None? then result == m
    else result.Some? && result.value.encoding == m.value.encoding && result.value.data == Resolve(objects, m.value)
  }

  predicate Dangling(objects: map<Ref, string>, m: Message) {
    m.Some? && RefOf(m.value).Some? && RefOf(m.value).value !in objects
  }

  lemma {:induction false} LoadAllMeaning(b: Blobs, os: seq<Message>, keepRefs: bool)
    ensures var l := LoadAll(b, os, keepRefs);
            && l.blobs.objects == b.objects && |l.objects| == |os|
            && (l.ok ==> forall j | 0 <= j < |os| :: IsLoaded(b.objects, l.objects[j], os[j]))
            && (NoFaults(b) && (forall j | 0 <= j < |os| :: !Dangling(b.objects, os[j])) ==> l.ok)
    decreases os
  {
    if os == [] {
    } else {
      var stored := os[0].Some? && RefOf(os[0].value).Some?;
      LoadAllMeaning(if stored then Tick(b) else b, os[1..], keepRefs);
      assert NoFaults(b) ==> NoFaults(Tick(b));
      if stored && (Fails(b) || RefOf(os[0].value).value !in b.objects) {
        assert NoFaults(b) ==> Dangling(b.objects, os[0]);
      }
    }
  }

  /** The objects of a list that are in the store. */
  function Stored(os: seq<Message>): nat {
    if os == [] then 0 else (if os[0].Some? && RefOf(os[0].value).Some? then 1 else 0) + Stored(os[1..])
  }

  /** A list is loaded if and only if every reference leads to an object and the store does not fail for
      any of them. */
  lemma {:induction false} LoadAllSucceedsExactly(b: Blobs, os: seq<Message>, keepRefs: bool)
    ensures LoadAll(b, os, keepRefs).ok <==>
              NoFaultsIn(b.faults, Stored(os)) && forall j | 0 <= j < |os| :: !Dangling(b.objects, os[j])
    decreases os
  {
    if os == [] {
    } else {
      var stored := os[0].Some? && RefOf(os[0].value).Some?;
      LoadAllSucceedsExactly(if stored then Tick(b) else b, os[1..], keepRefs);
      FaultsShift(b, Stored(os[1..]));
      assert Dangling(b.objects, os[0]) <==> stored && RefOf(os[0].value).value !in b.objects;
      hide NoFaultsIn, Dangling;
      assert (forall j | 0 <= j < |os| :: !Dangling(b.objects, os[j])) <==>
             !Dangling(b.objects, os[0]) && forall j | 0 <= j < |os| - 1 :: !Dangling(b.objects, os[1..][j]) by {
        assert forall j | 0 < j < |os| :: os[j] == os[1..][j - 1];
      }
    }
  }

  /** Then every entry without a reference is as it was, and every other entry has the data that its
      reference leads to, with the reference kept or dropped. */
  lemma {:induction false} LoadAllExactly(b: Blobs, os: seq<Message>, keepRefs: bool, j: nat)
    requires LoadAll(b, os, keepRefs).ok && j < |os|
    ensures |LoadAll(b, os, keepRefs).objects| == |os|
    ensures LoadAll(b, os, keepRefs).objects[j] ==
              if os[j].None? || os[j].value.extStoreId.None? || os[j].value.extPath.None? then os[j]
              else
                var o := os[j].value;
                var ref := Ref(o.extStoreId.value, o.extPath.value);
                Some(EncodedObject(o.encoding, if ref in b.objects then Some(b.objects[ref]) else None,
                                   if keepRefs then o.extStoreId else None, if keepRefs then o.extPath else None))
    decreases os
  {
    LoadAllMeaning(b, os, keepRefs);
    if j > 0 {
      var stored := os[0].Some? && RefOf(os[0].value).Some?;
      LoadAllExactly(if stored then Tick(b) else b, os[1..], keepRefs, j - 1);
    }
  }

  // ---- Round trips ----

  /** What a consumer should get for an object that is written and loaded. */
  function Original(objects: map<Ref, string>, o: EncodedObject, threshold: int): Option<string> {
    if TooLarge(o, threshold) then o.data else Resolve(objects, o)
  }

  /** Without references it is simply the data. */
  lemma {:induction false} OriginalIsData(objects: map<Ref, string>, o: EncodedObject, threshold: int)
    requires RefOf(o).None?
    ensures Original(objects, o, threshold) == o.data
  {
  }

  ghost predicate Restored(objects: map<Ref, string>, result: Message, m: Message, threshold: int) {
    if m.None? then result == m
    else result.Some? && result.value.encoding == m.value.encoding
         && result.value.data == Original(objects, m.value, threshold)
  }

  /** Writing and later loading - from the same store, grown in between, and reachable - gives
      every object back, in place, with its encoding and data. */
  lemma {:induction false} WriteThenLoadRestores(
    b: Blobs, os: seq<Message>, current: Option<EncodedObject>, workflowId: string, threshold: int, later: Blobs,
      keepRefs: bool)
    requires FreshUuids(b) && CopyFaithful(b.objects, current)
    requires WriteAll(b, os, current, workflowId, threshold).ok
    requires Appended(WriteAll(b, os, current, workflowId, threshold).blobs, later) && NoFaults(later)
    requires forall j | 0 <= j < |os| :: !Dangling(b.objects, os[j])
    ensures var w := WriteAll(b, os, current, workflowId, threshold);
            var l := LoadAll(later, w.objects, keepRefs);
            && l.ok && |l.objects| == |os|
            && forall j | 0 <= j < |os| :: Restored(b.objects, l.objects[j], os[j], threshold)
  {
    var w := WriteAll(b, os, current, workflowId, threshold);
    var done := WriteAllMeaning(b, os, current, workflowId, threshold);
    LoadAllMeaning(later, w.objects, keepRefs);
    var l := LoadAll(later, w.objects, keepRefs);
    hide WriteAll, LoadAll;
    forall j | 0 <= j < |os| ensures !Dangling(later.objects, w.objects[j]) {
      StandsForGrows(w.blobs, later, w.objects[j], os[j], threshold);
      assert !Dangling(b.objects, os[j]);
    }
    forall j | 0 <= j < |os| ensures Restored(b.objects, l.objects[j], os[j], threshold) {
      assert IsLoaded(later.objects, l.objects[j], w.objects[j]);
      StandsForGrows(w.blobs, later, w.objects[j], os[j], threshold);
      assert !Dangling(b.objects, os[j]);
    }
  }

  /** Objects without references - what a client sends - come back as they were. */
  lemma {:induction false} WriteThenLoadIsIdentity(
    b: Blobs, os: seq<Message>, workflowId: string, threshold: int, later: Blobs, keepRefs: bool)
    requires FreshUuids(b) && WriteAll(b, os, None, workflowId, threshold).ok
    requires Appended(WriteAll(b, os, None, workflowId, threshold).blobs, later) && NoFaults(later)
    requires forall j | 0 <= j < |os| && os[j].Some? :: RefOf(os[j].value).None?
    ensures var l := LoadAll(later, WriteAll(b, os, None, workflowId, threshold).objects, keepRefs);
            && l.ok && |l.objects| == |os|
            && forall j | 0 <= j < |os| ::
                 if os[j].None? then l.objects[j].None?
                 else l.objects[j].Some? && l.objects[j].value.encoding == os[j].value.encoding
                      && l.objects[j].value.data == os[j].value.data
  {
    hide WriteAll, LoadAll;
    WriteThenLoadRestores(b, os, None, workflowId, threshold, later, keepRefs);
    var l := LoadAll(later, WriteAll(b, os, None, workflowId, threshold).objects, keepRefs);
    forall j | 0 <= j < |os| && os[j].Some? ensures l.objects[j].Some? && l.objects[j].value.data == os[j].value.data {
      assert Restored(b.objects, l.objects[j], os[j], threshold);
      OriginalIsData(b.objects, os[j].value, threshold);
    }
  }

  lemma {:induction false} NothingTooLarge(
    b: Blobs, os: seq<Message>, current: Option<EncodedObject>, workflowId: string, threshold: int)
    requires forall j | 0 <= j < |os| && os[j].Some? :: !TooLarge(os[j].value, threshold)
    ensures WriteAll(b, os, current, workflowId, threshold) == Written(b, os, true)
    decreases os
  {
    if os == [] {
    } else {
      assert ProcessFirst(b, os[0], current, workflowId, threshold) == Processed(b, os[0]);
      hide ProcessFirst, TooLarge;
      NothingTooLarge(b, os[1..], current, workflowId, threshold);
      assert [os[0]] + os[1..] == os;
    }
  }

  /** After a write that succeeds, no inline data exceeds the threshold, and writing again
      stores nothing and changes nothing. */
  lemma {:induction false} SecondWriteIsFree(
    b: Blobs, os: seq<Message>, current: Option<EncodedObject>, workflowId: string, threshold: int,
    later: Blobs, current2: Option<EncodedObject>)
    requires FreshUuids(b) && CopyFaithful(b.objects, current)
    requires WriteAll(b, os, current, workflowId, threshold).ok
    ensures var w := WriteAll(b, os, current, workflowId, threshold);
            && (forall j | 0 <= j < |w.objects| && w.objects[j].Some? :: !TooLarge(w.objects[j].value, threshold))
            && WriteAll(later, w.objects, current2, workflowId, threshold) == Written(later, w.objects, true)
  {
    var w := WriteAll(b, os, current, workflowId, threshold);
    var done := WriteAllMeaning(b, os, current, workflowId, threshold);
    hide WriteAll;
    forall j | 0 <= j < |w.objects| && w.objects[j].Some? ensures !TooLarge(w.objects[j].value, threshold) {
      assert MessageStandsFor(w.blobs.objects, w.objects[j], os[j], threshold);
    }
    NothingTooLarge(later, w.objects, current2, workflowId, threshold);
  }

  /** If a write fails on the way, every object still resolves to its original data: those
      before the failure through the store, those after it because they are untouched. */
  lemma {:induction false} PartialWriteLosesNothing(
    b: Blobs, os: seq<Message>, current: Option<EncodedObject>, workflowId: string, threshold: int)
    requires FreshUuids(b) && CopyFaithful(b.objects, current)
    ensures var w := WriteAll(b, os, current, workflowId, threshold);
            && |w.objects| == |os|
            && forall j | 0 <= j < |os| ::
                 if os[j].None? then w.objects[j].None?
                 else w.objects[j].Some? && w.objects[j].value.encoding == os[j].value.encoding
                      && (w.objects[j] == os[j]
                          || Resolve(w.blobs.objects, w.objects[j].value)
                            == Original(b.objects, os[j].value, threshold))
  {
    var done := WriteAllMeaning(b, os, current, workflowId, threshold);
    var w := WriteAll(b, os, current, workflowId, threshold);
    hide WriteAll;
    forall j | 0 <= j < |os| && os[j].Some? && w.objects[j] != os[j]
      ensures w.objects[j].Some? && w.objects[j].value.encoding == os[j].value.encoding
      ensures Resolve(w.blobs.objects, w.objects[j].value) == Original(b.objects, os[j].value, threshold)
    {
      assert MessageStandsFor(w.blobs.objects, w.objects[j], os[j], threshold);
    }
  }
}
