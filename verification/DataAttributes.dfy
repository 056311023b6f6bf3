/** Data attributes: lists of keyed objects, rewritten in place when they go to the store or
    come from it, and the memo that can hold them. */
module DataAttributes {
  import opened GoTypes
  import opened BlobStores
  import opened ExternalStorage

  function ValuesOf(das: seq<KeyValue>): seq<Message> {
    seq(|das|, i requires 0 <= i < |das| => das[i].value)
  }

  function WithValues(das: seq<KeyValue>, values: seq<Message>): seq<KeyValue>
    requires |das| == |values|
  {
    seq(|das|, i requires 0 <= i < |das| => KeyValue(das[i].key, values[i]))
  }

  /** The loops below have dealt with the first i entries: keys and later entries are untouched, and
      the result is what is in these entries now, followed by the rest. */
  ghost predicate Upto(das: seq<KeyValue>, arr: seq<KeyValue>, i: nat, all: Written, rest: Written) {
    && i <= |das| == |arr|
    && (forall j | 0 <= j < |das| :: arr[j].key == das[j].key)
    && (forall j | i <= j < |das| :: arr[j] == das[j])
    && all == Written(rest.blobs, ValuesOf(arr[..i]) + rest.objects, rest.ok)
  }

  lemma {:induction false} UptoStart(das: seq<KeyValue>, all: Written)
    ensures Upto(das, das, 0, all, all) && ValuesOf(das)[0..] == ValuesOf(das)
  {
  }

  lemma {:induction false} UptoEntry(das: seq<KeyValue>, arr: seq<KeyValue>, i: nat, all: Written, rest: Written)
    requires Upto(das, arr, i, all, rest) && i < |das|
    ensures |arr| == |das| == |ValuesOf(das)| && arr[i] == das[i] && ValuesOf(das)[i] == das[i].value
  {
  }

  lemma {:induction false} UptoNext(
    das: seq<KeyValue>, arr: seq<KeyValue>, i: nat, all: Written, rest: Written, after: seq<KeyValue>, next: Written)
    requires Upto(das, arr, i, all, rest) && i < |das| && |after| == |arr|
    requires after[i].key == arr[i].key && forall j | 0 <= j < |das| && j != i :: after[j] == arr[j]
    requires rest == Written(next.blobs, [after[i].value] + next.objects, next.ok)
    ensures Upto(das, after, i + 1, all, next)
  {
    assert ValuesOf(after[..i + 1]) == ValuesOf(arr[..i]) + [after[i].value];
    assert ValuesOf(arr[..i]) + ([after[i].value] + next.objects) == ValuesOf(after[..i + 1]) + next.objects;
  }

  lemma {:induction false} UptoEnd(das: seq<KeyValue>, arr: seq<KeyValue>, i: nat, all: Written, rest: Written)
    requires Upto(das, arr, i, all, rest) && rest.objects == ValuesOf(das)[i..]
    ensures |all.objects| == |das| && arr == WithValues(das, all.objects)
    ensures all.blobs == rest.blobs && all.ok == rest.ok
  {
  }

  lemma {:induction false} NothingLeft(b: Blobs, os: seq<Message>, workflowId: string, threshold: int)
    requires os == []
    ensures WriteAll(b, os, None, workflowId, threshold) == Written(b, [], true) == LoadAll(b, os, true)
  {
  }

  /** The body of the loop. */
  method WriteEntry(
    store: BlobStore, dataObjects: array<KeyValue>, i: nat, workflowId: string, threshold: int) returns (ok: bool)
    requires i < dataObjects.Length
    modifies store, dataObjects
    ensures forall j | 0 <= j < dataObjects.Length && j != i :: dataObjects[j] == old(dataObjects[j])
    ensures dataObjects[i].key == old(dataObjects[i].key)
    ensures var m := old(dataObjects[i].value);
            var p := ProcessFirst(old(store.state), m, None, workflowId, threshold);
            && store.state == p.blobs && (ok <==> m.None? || p.outcome.Some?)
            && dataObjects[i].value == if ok then p.outcome else m
  {
    var value := dataObjects[i].value;
    if value.Some? {
      if value.value.data.Some? && |value.value.data.value| > threshold {
        var ref := store.WriteObject(workflowId, value.value.data.value);
        if ref.None? {
          return false;
        }
        dataObjects[i] := KeyValue(dataObjects[i].key,
          Some(EncodedObject(value.value.encoding, None, Some(ref.value.storeId), Some(ref.value.path))));
      }
    }
    return true;
  }

  /** In place; on an error the entries before it are rewritten and the rest is as it was. */
  method WriteDataObjectsToExternalStorage(
    store: BlobStore, dataObjects: array<KeyValue>, workflowId: string, enabled: bool, threshold: int)
      returns (ok: bool)
    modifies store, dataObjects
    ensures !enabled ==> ok && store.state == old(store.state) && dataObjects[..] == old(dataObjects[..])
    ensures enabled ==>
              var w := WriteAll(old(store.state), ValuesOf(old(dataObjects[..])), None, workflowId, threshold);
              && store.state == w.blobs && ok == w.ok && |w.objects| == dataObjects.Length
              && dataObjects[..] == WithValues(old(dataObjects[..]), w.objects)
    ensures enabled ==>
              (ok <==> NoFaultsIn(old(store.state.faults), Costs(ValuesOf(old(dataObjects[..])), None, threshold)))
    ensures forall i | 0 <= i < dataObjects.Length :: dataObjects[i].key == old(dataObjects[i].key)
  {
    if !enabled {
      return true;
    }
    ghost var das, os := dataObjects[..], ValuesOf(dataObjects[..]);
    ghost var all := WriteAll(store.state, os, None, workflowId, threshold);
    WriteAllSucceedsExactly(store.state, os, None, workflowId, threshold);
    ghost var rest := all;
    UptoStart(das, all);
    hide WriteAll, ProcessFirst, ValuesOf, WithValues, Upto, NoFaultsIn, Costs, Rest;
    for i := 0 to dataObjects.Length
      invariant Upto(das, dataObjects[..], i, all, rest)
      invariant rest == WriteAll(store.state, os[i..], None, workflowId, threshold)
    {
      ghost var before := dataObjects[..];
      UptoEntry(das, before, i, all, rest);
      WriteAllFrom(store.state, os, i, None, workflowId, threshold);
      var written := WriteEntry(store, dataObjects, i, workflowId, threshold);
      if !written {
        assert dataObjects[..] == before;
        UptoEnd(das, before, i, all, rest);
        return false;
      }
      ghost var next := WriteAll(store.state, os[i + 1..], None, workflowId, threshold);
      UptoNext(das, before, i, all, rest, dataObjects[..], next);
      rest := next;
    }
    NothingLeft(store.state, os[dataObjects.Length..], workflowId, threshold);
    UptoEnd(das, dataObjects[..], dataObjects.Length, all, rest);
    return true;
  }

  lemma {:induction false} LoadFrom(b: Blobs, os: seq<Message>, i: nat)
    requires i < |os|
    ensures var m := os[i];
            LoadAll(b, os[i..], true) ==
              if m.None? || RefOf(m.value).None? then
                var rest := LoadAll(b, os[i + 1..], true);
                Written(rest.blobs, [m] + rest.objects, rest.ok)
              else if Fails(b) || RefOf(m.value).value !in b.objects then Written(Tick(b), os[i..], false)
              else
                var rest := LoadAll(Tick(b), os[i + 1..], true);
                Written(rest.blobs, [Some(LoadedObject(m.value, b.objects[RefOf(m.value).value], true))]
                  + rest.objects, rest.ok)
  {
    assert os[i..][1..] == os[i + 1..];
  }

  /** The body of the loop. */
  method LoadEntry(store: BlobStore, dataObjects: array<KeyValue>, i: nat) returns (ok: bool)
    requires i < dataObjects.Length
    modifies store, dataObjects
    ensures forall j | 0 <= j < dataObjects.Length && j != i :: dataObjects[j] == old(dataObjects[j])
    ensures dataObjects[i].key == old(dataObjects[i].key)
    ensures var m, b := old(dataObjects[i].value), old(store.state);
            if m.None? || RefOf(m.value).None? then ok && store.state == b && dataObjects[i].value == m
            else
              var ref := RefOf(m.value).value;
              && store.state == Tick(b) && (ok <==> !Fails(b) && ref in b.objects)
              && dataObjects[i].value == if ok then Some(LoadedObject(m.value, b.objects[ref], true)) else m
  {
    var value := dataObjects[i].value;
    if value.Some? && value.value.extStoreId.Some? && value.value.extPath.Some? {
      var data := store.ReadObject(Ref(value.value.extStoreId.value, value.value.extPath.value));
      if data.None? {
        return false;
      }
      dataObjects[i] := KeyValue(dataObjects[i].key,
        Some(EncodedObject(value.value.encoding, data, value.value.extStoreId, value.value.extPath)));
    }
    return true;
  }

  /** In place; the references stay beside the loaded data. */
  method LoadDataObjectsFromExternalStorage(store: BlobStore, dataObjects: array<KeyValue>) returns (ok: bool)
    modifies store, dataObjects
    ensures var l := LoadAll(old(store.state), ValuesOf(old(dataObjects[..])), true);
            && store.state == l.blobs && ok == l.ok && |l.objects| == dataObjects.Length
            && dataObjects[..] == WithValues(old(dataObjects[..]), l.objects)
    ensures forall i | 0 <= i < dataObjects.Length :: dataObjects[i].key == old(dataObjects[i].key)
  {
    ghost var das, os := dataObjects[..], ValuesOf(dataObjects[..]);
    ghost var all := LoadAll(store.state, os, true);
    ghost var rest := all;
    UptoStart(das, all);
    hide LoadAll, ValuesOf, WithValues, Upto;
    for i := 0 to dataObjects.Length
      invariant Upto(das, dataObjects[..], i, all, rest)
      invariant rest == LoadAll(store.state, os[i..], true)
    {
      ghost var before := dataObjects[..];
      UptoEntry(das, before, i, all, rest);
      LoadFrom(store.state, os, i);
      var loaded := LoadEntry(store, dataObjects, i);
      if !loaded {
        assert dataObjects[..] == before;
        UptoEnd(das, before, i, all, rest);
        return false;
      }
      ghost var next := LoadAll(store.state, os[i + 1..], true);
      UptoNext(das, before, i, all, rest, dataObjects[..], next);
      rest := next;
    }
    NothingLeft(store.state, os[dataObjects.Length..], "", 0);
    UptoEnd(das, dataObjects[..], dataObjects.Length, all, rest);
    return true;
  }
}
