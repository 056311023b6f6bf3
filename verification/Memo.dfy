/** Data attributes in the memo of a workflow: filled at start, read back by the get API. */
module Memos {
  import opened GoTypes
  import opened BlobStores
  import opened ExternalStorage
  import opened DataAttributes
  import opened StartRequests

  type Memo = map<string, EncodedObject>

  const SYSTEM_PREFIX := "__IwfSystem_"
  const WORKER_URL_KEY := SYSTEM_PREFIX + "WorkerUrl"
  const USE_MEMO_KEY := SYSTEM_PREFIX + "UseMemoForDataAttributes"
  const REQUEST_ID_KEY := SYSTEM_PREFIX + "WorkflowRequestId"

  /** strings.HasPrefix(k, SYSTEM_PREFIX). */
  predicate IsSystemKey(k: string) {
    SYSTEM_PREFIX <= k
  }

  const NIL_OBJECT := EncodedObject(None, None, None, None)

  function DataOnly(data: string): EncodedObject {
    EncodedObject(None, Some(data), None, None)
  }

  /** da.GetKey() and da.GetValue(): zero values for nil pointers. */
  function GetKey(da: KeyValue): string {
    if da.key.None? then "" else da.key.value
  }

  function GetValue(da: KeyValue): EncodedObject {
    if da.value.None? then NIL_OBJECT else da.value.value
  }

  // ---- Start ----

  function FillMemo(memo: Memo, das: seq<KeyValue>): Memo
    decreases das
  {
    if das == [] then memo else FillMemo(memo[GetKey(das[0]) := GetValue(das[0])], das[1..])
  }

  /** The memo of the new workflow; das are the data attributes after external storage. */
  function StartMemo(workerUrl: string, options: Option<StartOptions>, das: seq<KeyValue>): Memo {
    var m0: Memo := map[WORKER_URL_KEY := DataOnly(workerUrl)];
    var m1 := if options.Some? && options.value.useMemoForDataAttributes
              then FillMemo(m0[USE_MEMO_KEY := DataOnly("true")], das) else m0;
    if RequestId(options).Some? then m1[REQUEST_ID_KEY := DataOnly(RequestId(options).value)] else m1
  }

  lemma {:induction false} FillMemoSnoc(memo: Memo, das: seq<KeyValue>, last: KeyValue)
    ensures FillMemo(memo, das + [last]) == FillMemo(memo, das)[GetKey(last) := GetValue(last)]
    decreases das
  {
    if das != [] {
      assert (das + [last])[1..] == das[1..] + [last];
      FillMemoSnoc(memo[GetKey(das[0]) := GetValue(das[0])], das[1..], last);
    } else {
      assert das + [last] == [last];
      assert [last][1..] == [];
    }
  }

  /** The memo is filled step by step. */
  method BuildMemo(workerUrl: string, options: Option<StartOptions>, das: seq<KeyValue>) returns (memo: Memo)
    ensures memo == StartMemo(workerUrl, options, das)
  {
    memo := map[WORKER_URL_KEY := DataOnly(workerUrl)];
    if options.Some? {
      if options.value.useMemoForDataAttributes {
        memo := memo[USE_MEMO_KEY := DataOnly("true")];
        ghost var m0 := memo;
        for i := 0 to |das|
          invariant memo == FillMemo(m0, das[..i])
        {
          FillMemoSnoc(m0, das[..i], das[i]);
          assert das[..i + 1] == das[..i] + [das[i]];
          memo := memo[GetKey(das[i]) := GetValue(das[i])];
        }
        assert das[..|das|] == das;
      }
      if options.value.alreadyStarted.Some? && options.value.alreadyStarted.value.requestId.Some? {
        memo := memo[REQUEST_ID_KEY := DataOnly(options.value.alreadyStarted.value.requestId.value)];
      }
    }
  }

  predicate HasKey(das: seq<KeyValue>, k: string) {
    exists i :: 0 <= i < |das| && GetKey(das[i]) == k
  }

  /** The attribute given last for a key. */
  function LastFor(das: seq<KeyValue>, k: string): nat
    requires HasKey(das, k)
    ensures LastFor(das, k) < |das| && GetKey(das[LastFor(das, k)]) == k
    ensures forall i | LastFor(das, k) < i < |das| :: GetKey(das[i]) != k
  {
    var last := |das| - 1;
    if GetKey(das[last]) == k then last
    else
      assert HasKey(das[..last], k) by {
        var i :| 0 <= i < |das| && GetKey(das[i]) == k;
        assert das[..last][i] == das[i];
      }
      LastFor(das[..last], k)
  }

  /** A missing key counts as the empty one. */
  lemma {:induction false} HasKeyExactly(das: seq<KeyValue>, k: string)
    ensures HasKey(das, k) <==>
              exists i :: 0 <= i < |das| && (das[i].key == Some(k) || (das[i].key.None? && k == ""))
  {
    forall i | 0 <= i < |das|
      ensures GetKey(das[i]) == k <==> das[i].key == Some(k) || (das[i].key.None? && k == "")
    {
    }
  }

  lemma {:induction false} FillMemoAt(memo: Memo, das: seq<KeyValue>, k: string)
    ensures k in FillMemo(memo, das) <==> k in memo || HasKey(das, k)
    ensures HasKey(das, k) ==> FillMemo(memo, das)[k] == GetValue(das[LastFor(das, k)])
    ensures !HasKey(das, k) && k in memo ==> FillMemo(memo, das)[k] == memo[k]
    decreases |das|
  {
    if das == [] {
    } else {
      var last := |das| - 1;
      assert das == das[..last] + [das[last]];
      FillMemoSnoc(memo, das[..last], das[last]);
      FillMemoAt(memo, das[..last], k);
      if HasKey(das, k) && GetKey(das[last]) != k {
        assert HasKey(das[..last], k) by {
          var i :| 0 <= i < |das| && GetKey(das[i]) == k;
          assert das[..last][i] == das[i];
        }
      }
      if HasKey(das[..last], k) {
        var i :| 0 <= i < last && GetKey(das[..last][i]) == k;
        assert GetKey(das[i]) == k;
      }
    }
  }

  /** What the memo holds for a user's key: the attribute given last for it. */
  lemma {:induction false} StartMemoAt(workerUrl: string, options: StartOptions, das: seq<KeyValue>, k: string)
    requires options.useMemoForDataAttributes && !IsSystemKey(k)
    ensures var memo := StartMemo(workerUrl, Some(options), das);
            && (k in memo <==> HasKey(das, k))
            && (HasKey(das, k) ==> memo[k] == GetValue(das[LastFor(das, k)]))
  {
    var m0: Memo := map[WORKER_URL_KEY := DataOnly(workerUrl)][USE_MEMO_KEY := DataOnly("true")];
    FillMemoAt(m0, das, k);
    assert IsSystemKey(WORKER_URL_KEY) && IsSystemKey(USE_MEMO_KEY) && IsSystemKey(REQUEST_ID_KEY);
  }

  lemma {:induction false} SystemKeyExactly(k: string)
    ensures IsSystemKey(k) <==> |k| >= 12 && k[..12] == "__IwfSystem_"
  {
  }

  lemma {:induction false} SystemKeys()
    ensures WORKER_URL_KEY == "__IwfSystem_WorkerUrl"
    ensures USE_MEMO_KEY == "__IwfSystem_UseMemoForDataAttributes"
    ensures REQUEST_ID_KEY == "__IwfSystem_WorkflowRequestId"
    ensures WORKER_URL_KEY != USE_MEMO_KEY && WORKER_URL_KEY != REQUEST_ID_KEY && USE_MEMO_KEY != REQUEST_ID_KEY
  {
    assert |WORKER_URL_KEY| == 21 && |USE_MEMO_KEY| == 36 && |REQUEST_ID_KEY| == 29;
  }

  /** The whole memo, key by key: the request id, then the attribute given last, the marker of memo use and
      the worker URL, in this order of precedence. */
  lemma {:induction false} StartMemoExactly(
    workerUrl: string, options: Option<StartOptions>, das: seq<KeyValue>, k: string)
    ensures var memo := StartMemo(workerUrl, options, das);
            var useMemo := options.Some? && options.value.useMemoForDataAttributes;
            var retried := options.Some? && options.value.alreadyStarted.Some?
                             && options.value.alreadyStarted.value.requestId.Some?;
            if retried && k == REQUEST_ID_KEY then
              k in memo && memo[k] == EncodedObject(None, options.value.alreadyStarted.value.requestId, None, None)
            else if useMemo && HasKey(das, k) then
              var given := das[LastFor(das, k)].value;
              k in memo && memo[k] == if given.Some? then given.value else EncodedObject(None, None, None, None)
            else if useMemo && k == USE_MEMO_KEY then
              k in memo && memo[k] == EncodedObject(None, Some("true"), None, None)
            else if k == WORKER_URL_KEY then
              k in memo && memo[k] == EncodedObject(None, Some(workerUrl), None, None)
            else k !in memo
  {
    var m0: Memo := map[WORKER_URL_KEY := DataOnly(workerUrl)];
    FillMemoAt(m0[USE_MEMO_KEY := DataOnly("true")], das, k);
    SystemKeys();
    hide FillMemo, HasKey;
  }

  /** The request id always ends up in the memo: no data attribute can replace it. */
  lemma {:induction false} StartMemoRequestId(workerUrl: string, options: Option<StartOptions>, das: seq<KeyValue>)
    ensures var memo := StartMemo(workerUrl, options, das);
            RequestId(options).Some? ==> REQUEST_ID_KEY in memo && memo[REQUEST_ID_KEY].data == RequestId(options)
    ensures options.Some? && options.value.useMemoForDataAttributes ==>
      USE_MEMO_KEY in StartMemo(workerUrl, options, das)
  {
    var m0: Memo := map[WORKER_URL_KEY := DataOnly(workerUrl)][USE_MEMO_KEY := DataOnly("true")];
    FillMemoAt(m0, das, USE_MEMO_KEY);
  }

  // ---- Get ----

  predicate Requested(keys: seq<string>, k: string) {
    keys == [] || k in keys
  }

  /** das holds exactly the requested user entries of the memo, each once. */
  ghost predicate Selection(memo: Memo, keys: seq<string>, das: seq<KeyValue>) {
    && (forall i | 0 <= i < |das| :: das[i].key.Some?)
    && (forall i, j | 0 <= i < j < |das| :: das[i].key != das[j].key)
    && (forall i | 0 <= i < |das| ::
          var k := das[i].key.value;
          k in memo && !IsSystemKey(k) && Requested(keys, k) && das[i].value == Some(memo[k]))
    && (forall k | k in memo && !IsSystemKey(k) && Requested(keys, k) :: Present(das, k))
  }

  predicate Present(das: seq<KeyValue>, k: string) {
    exists i :: 0 <= i < |das| && das[i].key == Some(k)
  }

  /** Without requested keys these are all user entries; otherwise those of the requested keys. */
  lemma {:induction false} SelectionExactly(memo: Memo, keys: seq<string>, das: seq<KeyValue>, k: string)
    requires Selection(memo, keys, das)
    ensures Present(das, k) <==> k in memo && !("__IwfSystem_" <= k) && (|keys| == 0 || k in keys)
    ensures forall i | 0 <= i < |das| && das[i].key == Some(k) :: k in memo && das[i].value == Some(memo[k])
  {
    SystemKeyExactly(k);
  }

  method SelectFromMemo(memo: Memo, keys: seq<string>) returns (das: seq<KeyValue>)
    ensures Selection(memo, keys, das)
  {
    var requestedKeys: map<string, bool> := map[];
    for i := 0 to |keys|
      invariant forall k :: k in requestedKeys <==> k in keys[..i]
      invariant forall k | k in requestedKeys :: requestedKeys[k]
    {
      requestedKeys := requestedKeys[keys[i] := true];
    }
    assert |requestedKeys| > 0 <==> keys != [] by {
      if keys != [] {
        assert keys[0] in requestedKeys;
      }
    }
    das := [];
    var rest := memo.Keys;
    while rest != {}
      invariant rest <= memo.Keys
      invariant forall i | 0 <= i < |das| :: das[i].key.Some?
      invariant forall i | 0 <= i < |das| :: das[i].key.value !in rest
      invariant forall i, j | 0 <= i < j < |das| :: das[i].key != das[j].key
      invariant forall i | 0 <= i < |das| ::
                  var k := das[i].key.value;
                  k in memo && !IsSystemKey(k) && Requested(keys, k) && das[i].value == Some(memo[k])
      invariant forall k | k in memo && k !in rest && !IsSystemKey(k) && Requested(keys, k) :: Present(das, k)
      decreases rest
    {
      var k := AnyKey(rest);
      rest := rest - {k};
      if IsSystemKey(k) {
        continue;
      }
      if |requestedKeys| > 0 && !(if k in requestedKeys then requestedKeys[k] else false) {
        continue;
      }
      ghost var before := das;
      das := das + [KeyValue(Some(k), Some(memo[k]))];
      assert das[|before|].key == Some(k);
      assert forall x :: Present(before, x) ==> Present(das, x) by {
        assert forall i | 0 <= i < |before| :: das[i] == before[i];
      }
    }
  }

  datatype GetResult = Objects(das: seq<KeyValue>) | GetError

  /** The get API. described is what the backend says about the workflow, queried what the
      workflow itself answers; None is an error of either. */
  method GetDataAttributes(
    store: BlobStore, useMemo: bool, keys: seq<string>, failAtMemoIncompatibility: bool,
    described: Option<Memo>, queried: Option<seq<KeyValue>>) returns (r: GetResult, ghost selected: seq<KeyValue>)
    modifies store
    ensures useMemo && described.Some? && USE_MEMO_KEY in described.value ==>
              && Selection(described.value, keys, selected)
              && var l := LoadAll(old(store.state), ValuesOf(selected), true);
                 && |l.objects| == |selected| && store.state == l.blobs
                 && r == if l.ok then Objects(WithValues(selected, l.objects)) else GetError
    ensures useMemo && described.None? ==> r == GetError
    ensures useMemo && described.Some? && USE_MEMO_KEY !in described.value && failAtMemoIncompatibility ==>
      r == GetError
    ensures !useMemo || (described.Some? && USE_MEMO_KEY !in described.value && !failAtMemoIncompatibility) ==>
              if queried.None? then r == GetError
              else
                && selected == queried.value
                && var l := LoadAll(old(store.state), ValuesOf(selected), true);
                   && |l.objects| == |selected| && store.state == l.blobs
                   && r == if l.ok then Objects(WithValues(selected, l.objects)) else GetError
  {
    selected := [];
    var das: seq<KeyValue> := [];
    var query := true;
    if useMemo {
      if described.None? {
        return GetError, [];
      }
      das := SelectFromMemo(described.value, keys);
      if USE_MEMO_KEY in described.value {
        query := false;
      } else if failAtMemoIncompatibility {
        return GetError, [];
      }
    }
    if query {
      if queried.None? {
        return GetError, [];
      }
      das := queried.value;
    }
    selected := das;
    var list := new KeyValue[|das|](i requires 0 <= i < |das| => das[i]);
    assert list[..] == das;
    if |das| > 0 {
      var ok := LoadDataObjectsFromExternalStorage(store, list);
      if !ok {
        return GetError, selected;
      }
    } else {
      assert ValuesOf(das) == [] && WithValues([], []) == [];
    }
    return Objects(list[..]), selected;
  }

  // ---- The round trip ----

  /** What the caller of the start API gave for a key, after the store; last one wins. */
  function Given(objects: map<Ref, string>, das: seq<KeyValue>, k: string, threshold: int): Option<string>
    requires HasKey(das, k)
  {
    Original(objects, GetValue(das[LastFor(das, k)]), threshold)
  }

  lemma {:induction false} SameKeys(das: seq<KeyValue>, kept: seq<KeyValue>, k: string)
    requires |kept| == |das| && forall i | 0 <= i < |das| :: kept[i].key == das[i].key
    ensures HasKey(kept, k) <==> HasKey(das, k)
    ensures HasKey(das, k) ==> LastFor(kept, k) == LastFor(das, k)
  {
    hide LastFor;
    assert forall i | 0 <= i < |das| :: GetKey(kept[i]) == GetKey(das[i]);
    if HasKey(das, k) {
      assert GetKey(kept[LastFor(das, k)]) == k;
      assert GetKey(das[LastFor(kept, k)]) == k;
    }
  }

  /** The memo entry of a key stands for what was given last. */
  lemma {:induction false} MemoEntry(
    b: Blobs, das: seq<KeyValue>, workerUrl: string, options: StartOptions, workflowId: string, threshold: int,
      later: Blobs, k: string)
    requires FreshUuids(b) && options.useMemoForDataAttributes && !IsSystemKey(k)
    requires forall i | 0 <= i < |das| :: !Dangling(b.objects, das[i].value)
    requires var w := WriteAll(b, ValuesOf(das), None, workflowId, threshold);
             w.ok && Appended(w.blobs, later)
    ensures var w := WriteAll(b, ValuesOf(das), None, workflowId, threshold);
            && |w.objects| == |das|
            && var memo := StartMemo(workerUrl, Some(options), WithValues(das, w.objects));
               && (k in memo <==> HasKey(das, k))
               && (k in memo ==>
                     && memo[k].encoding == GetValue(das[LastFor(das, k)]).encoding
                     && Resolve(later.objects, memo[k]) == Given(b.objects, das, k, threshold)
                     && !Dangling(later.objects, Some(memo[k])))
  {
    var w := WriteAll(b, ValuesOf(das), None, workflowId, threshold);
    var done := WriteAllMeaning(b, ValuesOf(das), None, workflowId, threshold);
    hide WriteAll;
    var processed := WithValues(das, w.objects);
    StartMemoAt(workerUrl, options, processed, k);
    SameKeys(das, processed, k);
    if HasKey(das, k) {
      var n := LastFor(das, k);
      assert ValuesOf(das)[n] == das[n].value;
      StandsForGrows(w.blobs, later, w.objects[n], das[n].value, threshold);
      assert !Dangling(b.objects, das[n].value);
    }
  }

  /** Data attributes given at start with UseMemoForDataAttributes come back from the get API:
      exactly the requested keys (all, if none is requested), each once, with the encoding and
      the data given last for it, whether or not they went through the store. System entries
      never come back. */
  lemma {:induction false} MemoRoundTrip(
    b: Blobs, das: seq<KeyValue>, workerUrl: string, options: StartOptions, workflowId: string, threshold: int,
    later: Blobs, keys: seq<string>, selected: seq<KeyValue>)
    requires FreshUuids(b) && options.useMemoForDataAttributes
    requires forall i | 0 <= i < |das| :: !Dangling(b.objects, das[i].value)
    requires var w := WriteAll(b, ValuesOf(das), None, workflowId, threshold);
             && w.ok && Appended(w.blobs, later) && NoFaults(later) && |w.objects| == |das|
             && Selection(StartMemo(workerUrl, Some(options), WithValues(das, w.objects)), keys, selected)
    ensures var l := LoadAll(later, ValuesOf(selected), true);
            && l.ok && |l.objects| == |selected|
            && var out := WithValues(selected, l.objects);
               && (forall k :: Present(out, k) <==> HasKey(das, k) && !IsSystemKey(k) && Requested(keys, k))
               && (forall i, j | 0 <= i < j < |out| :: out[i].key != out[j].key)
               && forall i | 0 <= i < |out| ::
                    && out[i].key.Some? && out[i].value.Some? && HasKey(das, out[i].key.value)
                    && out[i].value.value.encoding == GetValue(das[LastFor(das, out[i].key.value)]).encoding
                    && out[i].value.value.data == Given(b.objects, das, out[i].key.value, threshold)
  {
    var w := WriteAll(b, ValuesOf(das), None, workflowId, threshold);
    var memo := StartMemo(workerUrl, Some(options), WithValues(das, w.objects));
    var values := ValuesOf(selected);
    var l := LoadAll(later, values, true);
    LoadAllMeaning(later, values, true);
    hide WriteAll, LoadAll, StartMemo, Given;
    forall i | 0 <= i < |selected| ensures !Dangling(later.objects, values[i]) {
      MemoEntry(b, das, workerUrl, options, workflowId, threshold, later, selected[i].key.value);
    }
    var out := WithValues(selected, l.objects);
    forall i | 0 <= i < |out|
      ensures out[i].key.Some? && out[i].value.Some? && HasKey(das, out[i].key.value)
      ensures out[i].value.value.encoding == GetValue(das[LastFor(das, out[i].key.value)]).encoding
      ensures out[i].value.value.data == Given(b.objects, das, out[i].key.value, threshold)
    {
      MemoEntry(b, das, workerUrl, options, workflowId, threshold, later, selected[i].key.value);
      assert IsLoaded(later.objects, l.objects[i], values[i]);
    }
    forall k ensures Present(out, k) <==> HasKey(das, k) && !IsSystemKey(k) && Requested(keys, k) {
      if !IsSystemKey(k) {
        MemoEntry(b, das, workerUrl, options, workflowId, threshold, later, k);
      }
      SelectedKeys(memo, keys, selected, out, k);
    }
  }

  /** Data attributes without references come back with the data that was given. */
  lemma {:induction false} MemoRoundTripIsIdentity(
    b: Blobs, das: seq<KeyValue>, workerUrl: string, options: StartOptions, workflowId: string, threshold: int,
    later: Blobs, keys: seq<string>, selected: seq<KeyValue>)
    requires FreshUuids(b) && options.useMemoForDataAttributes
    requires forall i | 0 <= i < |das| && das[i].value.Some? :: RefOf(das[i].value.value).None?
    requires var w := WriteAll(b, ValuesOf(das), None, workflowId, threshold);
             && w.ok && Appended(w.blobs, later) && NoFaults(later) && |w.objects| == |das|
             && Selection(StartMemo(workerUrl, Some(options), WithValues(das, w.objects)), keys, selected)
    ensures var l := LoadAll(later, ValuesOf(selected), true);
            && l.ok && |l.objects| == |selected|
            && forall i | 0 <= i < |selected| ::
                 && selected[i].key.Some? && l.objects[i].Some? && HasKey(das, selected[i].key.value)
                 && var given := das[LastFor(das, selected[i].key.value)].value;
                    && l.objects[i].value.encoding == (if given.None? then None else given.value.encoding)
                    && l.objects[i].value.data == if given.None? then None else given.value.data
  {
    hide WriteAll, LoadAll, StartMemo, Selection;
    MemoRoundTrip(b, das, workerUrl, options, workflowId, threshold, later, keys, selected);
    var l := LoadAll(later, ValuesOf(selected), true);
    var out := WithValues(selected, l.objects);
    forall i | 0 <= i < |selected|
      ensures selected[i].key.Some? && l.objects[i].Some? && HasKey(das, selected[i].key.value)
      ensures var given := das[LastFor(das, selected[i].key.value)].value;
              && l.objects[i].value.encoding == (if given.None? then None else given.value.encoding)
              && l.objects[i].value.data == if given.None? then None else given.value.data
    {
      assert out[i] == KeyValue(selected[i].key, l.objects[i]);
      OriginalIsData(b.objects, GetValue(das[LastFor(das, selected[i].key.value)]), threshold);
    }
  }

  lemma {:induction false} SelectedKeys(
    memo: Memo, keys: seq<string>, selected: seq<KeyValue>, out: seq<KeyValue>, k: string)
    requires Selection(memo, keys, selected) && |out| == |selected|
    requires forall i | 0 <= i < |out| :: out[i].key == selected[i].key
    ensures Present(out, k) <==> k in memo && !IsSystemKey(k) && Requested(keys, k)
  {
  }
}
