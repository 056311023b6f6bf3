/** The external store of large values: append-only, every write gets a new location. */
module BlobStores {
  import opened GoTypes

  datatype Ref = Ref(storeId: string, path: ObjectPath)

  /** The state of the store. faults says which of the coming requests fail; an exhausted
      list means that the rest succeed. */
  datatype Blobs = Blobs(
    activeStorage: string, yyyymmdd: string, objects: map<Ref, string>, nextUuid: nat, faults: seq<bool>)

  /** uuid.New() returns what was never used before. */
  ghost predicate FreshUuids(b: Blobs) {
    forall r | r in b.objects :: r.path.uuid < b.nextUuid
  }

  predicate Fails(b: Blobs) {
    b.faults != [] && b.faults[0]
  }

  function Tick(b: Blobs): Blobs {
    b.(faults := if b.faults == [] then [] else b.faults[1..])
  }

  function NewRef(b: Blobs, workflowId: string): Ref {
    Ref(b.activeStorage, ObjectPath(b.yyyymmdd, workflowId, b.nextUuid))
  }

  function Put(b: Blobs, workflowId: string, data: string): Blobs {
    Tick(b).(objects := b.objects[NewRef(b, workflowId) := data], nextUuid := b.nextUuid + 1)
  }

  /** Nothing stored is changed or removed. */
  ghost predicate Appended(before: Blobs, after: Blobs) {
    && (forall r | r in before.objects :: r in after.objects && after.objects[r] == before.objects[r])
    && (FreshUuids(before) ==> FreshUuids(after))
  }

  lemma {:induction false} AppendedTransitive(a: Blobs, b: Blobs, c: Blobs)
    requires Appended(a, b) && Appended(b, c)
    ensures Appended(a, c)
  {
  }

  /** ValidateWorkflowId: no reserved character. */
  predicate ValidWorkflowId(workflowId: string) {
    '/' !in workflowId && '$' !in workflowId
  }

  class BlobStore {
    var state: Blobs

    constructor (activeStorage: string, yyyymmdd: string, faults: seq<bool>)
      ensures state == Blobs(activeStorage, yyyymmdd, map[], 0, faults) && FreshUuids(state)
    {
      state := Blobs(activeStorage, yyyymmdd, map[], 0, faults);
    }

    /** None is an error of the storage. */
    method WriteObject(workflowId: string, data: string) returns (r: Option<Ref>)
      modifies this
      ensures r.None? <==> Fails(old(state))
      ensures r.None? ==> state == Tick(old(state))
      ensures r.Some? ==> r.value == NewRef(old(state), workflowId) && state == Put(old(state), workflowId, data)
      ensures r.Some? ==>
                && r.value.storeId == state.activeStorage && r.value.path.yyyymmdd == state.yyyymmdd
                && r.value.path.workflowId == workflowId && r.value.path.uuid == old(state.nextUuid)
                && state.objects == old(state.objects)[r.value := data]
      ensures state.faults == if old(state.faults) == [] then [] else old(state.faults)[1..]
      ensures FreshUuids(old(state)) && r.Some? ==>
                r.value !in old(state).objects && |state.objects| == |old(state).objects| + 1
    {
      if Fails(state) {
        state := Tick(state);
        return None;
      }
      var ref := NewRef(state, workflowId);
      state := Put(state, workflowId, data);
      return Some(ref);
    }

    /** None is an error of the storage, or a missing object. */
    method ReadObject(ref: Ref) returns (r: Option<string>)
      modifies this
      ensures state == Tick(old(state))
      ensures r.Some? <==> !Fails(old(state)) && ref in state.objects
      ensures r.Some? ==> r.value == state.objects[ref]
    {
      var failed := Fails(state);
      state := Tick(state);
      if failed || ref !in state.objects {
        return None;
      }
      return Some(state.objects[ref]);
    }
  }
}
