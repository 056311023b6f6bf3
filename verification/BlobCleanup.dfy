/** The clean-up activity of the blob store: which workflow paths it deletes, and which objects of
    the store survive. */
module BlobCleanup {
  import opened GoTypes
  import opened BlobStores
  import opened ExternalStorage

  // ---- Workflow paths: yyyymmdd$workflowId ----

  function CountDollars(path: string): nat {
    if path == "" then 0 else (if path[0] == '$' then 1 else 0) + CountDollars(path[1..])
  }

  function BeforeDollar(path: string): string {
    if path == "" || path[0] == '$' then "" else [path[0]] + BeforeDollar(path[1..])
  }

  function AfterDollar(path: string): string {
    if path == "" then "" else if path[0] == '$' then path[1..] else AfterDollar(path[1..])
  }

  datatype PathDate = NotAPath | BadDate | Dated(seconds: int)

  datatype Existence = Exists | NotFound | DescribeError

  /** What the activity depends on: the calendar (None: not a date), what the backend answers about a
      workflow id when a path is looked at, failures of deletions with the objects lost by then, the
      text of uuids, and the cut-off time. */
  datatype Env = Env(
    parseDate: string -> Option<int>,
    describe: (string, string) -> Existence,
    deleteFails: string -> bool,
    lost: string -> set<Ref>,
    uuidText: nat -> string,
    cutOff: int)
  {
    /** ExtractYyyymmddToUnixSeconds; BadDate is the panic of a date that does not parse. */
    function DateOf(path: string): PathDate {
      if CountDollars(path) != 1 then NotAPath
      else
        var seconds := parseDate(BeforeDollar(path));
        if seconds.None? then BadDate else Dated(seconds.value)
    }

    predicate IsOld(path: string) {
      DateOf(path).Dated? && DateOf(path).seconds < cutOff
    }

    /** The backend is asked about the workflow id in the path. */
    function Existing(path: string): Existence {
      describe(AfterDollar(path), path)
    }

    /** A dated path whose workflow is gone from the backend. */
    predicate IsGone(path: string) {
      DateOf(path).Dated? && Existing(path) == NotFound
    }

    /** A path that ends the activity: a panic, or an error of the backend or the store. */
    predicate Aborts(path: string) {
      || DateOf(path).BadDate?
      || (DateOf(path).Dated? && Existing(path) == DescribeError)
      || (IsGone(path) && deleteFails(path))
    }
  }

  /** The index of the first old path of a page, or the length. */
  function FirstOld(env: Env, paths: seq<string>): (n: nat)
    ensures n <= |paths|
    ensures forall i | 0 <= i < n :: !env.IsOld(paths[i])
    ensures n < |paths| ==> env.IsOld(paths[n])
  {
    if paths == [] || env.IsOld(paths[0]) then 0 else 1 + FirstOld(env, paths[1..])
  }

  function Gone(env: Env, paths: seq<string>): seq<string> {
    if paths == [] then [] else (if env.IsGone(paths[0]) then [paths[0]] else []) + Gone(env, paths[1..])
  }

  /** The paths that are gone, among those before the first old one. */
  function PageDeletes(env: Env, paths: seq<string>): seq<string> {
    Gone(env, paths[..FirstOld(env, paths)])
  }

  lemma {:induction false} PageDeletesHead(env: Env, paths: seq<string>)
    requires paths != []
    ensures PageDeletes(env, paths) ==
            if env.IsOld(paths[0]) then []
            else (if env.IsGone(paths[0]) then [paths[0]] else []) + PageDeletes(env, paths[1..])
  {
    var n := FirstOld(env, paths);
    if !env.IsOld(paths[0]) {
      assert paths[..n][1..] == paths[1..][..n - 1];
    }
  }

  function AllDeletes(env: Env, pages: seq<seq<string>>): seq<string> {
    if pages == [] then [] else PageDeletes(env, pages[0]) + AllDeletes(env, pages[1..])
  }

  datatype Cleanup = Done | Failed | Panicked

  lemma {:induction false} GoneSnoc(env: Env, paths: seq<string>, path: string)
    ensures Gone(env, paths + [path]) == Gone(env, paths) + if env.IsGone(path) then [path] else []
  {
    if paths == [] {
      assert paths + [path] == [path];
    } else {
      assert (paths + [path])[1..] == paths[1..] + [path];
      GoneSnoc(env, paths[1..], path);
    }
  }

  /** The page is looked at up to its first old path without an abort. */
  ghost predicate CleanPage(env: Env, paths: seq<string>) {
    forall i | 0 <= i < FirstOld(env, paths) :: !env.Aborts(paths[i])
  }

  // ---- The objects of the store ----

  /** yyyymmdd$workflowId, the path of the workflow that an object belongs to. */
  function PathOf(r: Ref): string {
    r.path.yyyymmdd + "$" + r.path.workflowId
  }

  function KeyOf(env: Env, r: Ref): string {
    PathOf(r) + "/" + env.uuidText(r.path.uuid)
  }

  /** The objects that are listed for the deletion of a path: by the prefix of their keys. */
  predicate Under(env: Env, r: Ref, storeId: string, path: string) {
    r.storeId == storeId && path + "/" <= KeyOf(env, r)
  }

  /** The store after a path is deleted; a deletion that fails may have deleted a part. */
  function AfterDelete(env: Env, objects: map<Ref, string>, storeId: string, path: string): map<Ref, string> {
    map r | r in objects && !(Under(env, r, storeId, path) && (env.deleteFails(path) ==> r in env.lost(path))) ::
      objects[r]
  }

  function Purge(env: Env, objects: map<Ref, string>, storeId: string, paths: seq<string>): map<Ref, string>
    decreases paths
  {
    if paths == [] then objects
    else Purge(env, AfterDelete(env, objects, storeId, paths[0]), storeId, paths[1..])
  }

  lemma {:induction false} PurgeSnoc(
    env: Env, objects: map<Ref, string>, storeId: string, paths: seq<string>, last: string)
    ensures Purge(env, objects, storeId, paths + [last]) ==
            AfterDelete(env, Purge(env, objects, storeId, paths), storeId, last)
    decreases paths
  {
    hide AfterDelete;
    if paths == [] {
      assert [last][1..] == [] && paths + [last] == [last];
    } else {
      assert (paths + [last])[1..] == paths[1..] + [last];
      PurgeSnoc(env, AfterDelete(env, objects, storeId, paths[0]), storeId, paths[1..], last);
    }
  }

  lemma {:induction false} PurgeConcat(
    env: Env, objects: map<Ref, string>, storeId: string, a: seq<string>, b: seq<string>)
    ensures Purge(env, objects, storeId, a + b) == Purge(env, Purge(env, objects, storeId, a), storeId, b)
    decreases a
  {
    hide AfterDelete;
    if a == [] {
      assert a + b == b;
    } else {
      assert (a + b)[1..] == a[1..] + b;
      PurgeConcat(env, AfterDelete(env, objects, storeId, a[0]), storeId, a[1..], b);
    }
  }

  /** What happens to one object. */
  lemma {:induction false} PurgeAt(env: Env, objects: map<Ref, string>, storeId: string, paths: seq<string>, r: Ref)
    ensures var after := Purge(env, objects, storeId, paths);
            && (r in after ==> r in objects && after[r] == objects[r])
            && (r in objects && r !in after ==> exists path | path in paths :: Under(env, r, storeId, path))
            && (forall path | path in paths && Under(env, r, storeId, path) && !env.deleteFails(path) :: r !in after)
    decreases paths
  {
    hide Under;
    if paths == [] {
    } else {
      PurgeAt(env, AfterDelete(env, objects, storeId, paths[0]), storeId, paths[1..], r);
      assert forall path | path in paths :: path == paths[0] || path in paths[1..];
      assert paths[0] in paths && forall path | path in paths[1..] :: path in paths;
    }
  }

  function BeforeSlash(key: string): string {
    if key == "" || key[0] == '/' then "" else [key[0]] + BeforeSlash(key[1..])
  }

  lemma {:induction false} BeforeSlashIsPath(path: string, rest: string)
    requires '/' !in path
    ensures BeforeSlash(path + "/" + rest) == path
  {
    var key := path + "/" + rest;
    if path == "" {
    } else {
      assert key[0] == path[0] && key[0] in path && key[1..] == path[1..] + "/" + rest;
      BeforeSlashIsPath(path[1..], rest);
    }
  }

  /** A path as the store lists it - up to the first slash - has exactly the objects of this path. */
  lemma {:induction false} UnderIsItsPath(env: Env, r: Ref, storeId: string, path: string)
    requires '/' !in path && '/' !in PathOf(r)
    ensures Under(env, r, storeId, path) <==> r.storeId == storeId && PathOf(r) == path
  {
    var key := KeyOf(env, r);
    hide BeforeSlash;
    BeforeSlashIsPath(PathOf(r), env.uuidText(r.path.uuid));
    if path + "/" <= key {
      assert key == path + "/" + key[|path| + 1..];
      BeforeSlashIsPath(path, key[|path| + 1..]);
    }
  }

  lemma {:induction false} AfterDollarIsId(date: string, workflowId: string)
    requires '$' !in date
    ensures AfterDollar(date + "$" + workflowId) == workflowId
  {
    var path := date + "$" + workflowId;
    if date == "" {
      assert path == ['$'] + workflowId;
    } else {
      assert path[0] == date[0] && path[1..] == date[1..] + "$" + workflowId;
      AfterDollarIsId(date[1..], workflowId);
    }
  }

  lemma {:induction false} BeforeDollarIsDate(date: string, workflowId: string)
    requires '$' !in date
    ensures BeforeDollar(date + "$" + workflowId) == date
  {
    var path := date + "$" + workflowId;
    if date == "" {
      assert path == ['$'] + workflowId;
    } else {
      assert path[0] == date[0] && path[1..] == date[1..] + "$" + workflowId;
      BeforeDollarIsDate(date[1..], workflowId);
    }
  }

  lemma {:induction false} CountDollarsConcat(a: string, b: string)
    ensures CountDollars(a + b) == CountDollars(a) + CountDollars(b)
  {
    if a == "" {
      assert a + b == b;
    } else {
      assert (a + b)[1..] == a[1..] + b;
      CountDollarsConcat(a[1..], b);
    }
  }

  lemma {:induction false} NoDollars(s: string)
    ensures CountDollars(s) == 0 <==> '$' !in s
  {
    if s == "" {
    } else {
      assert s == [s[0]] + s[1..];
      NoDollars(s[1..]);
    }
  }

  /** The path of a workflow, as the store lists it. */
  predicate IsPathOf(path: string, date: string, workflowId: string) {
    '$' !in date && '$' !in workflowId && path == date + "$" + workflowId
  }

  /** What the activity does with the path of a workflow depends on the calendar and the backend's answer
      about this workflow id. */
  lemma {:induction false} PathExactly(env: Env, path: string, date: string, workflowId: string)
    requires IsPathOf(path, date, workflowId)
    ensures env.DateOf(path) ==
            if env.parseDate(date).None? then BadDate else Dated(env.parseDate(date).value)
    ensures env.IsOld(path) <==> env.parseDate(date).Some? && env.parseDate(date).value < env.cutOff
    ensures env.IsGone(path) <==> env.parseDate(date).Some? && env.describe(workflowId, path) == NotFound
  {
    CountDollarsConcat(date + "$", workflowId);
    CountDollarsConcat(date, "$");
    assert CountDollars("$") == 1 + CountDollars("");
    NoDollars(date);
    NoDollars(workflowId);
    BeforeDollarIsDate(date, workflowId);
    AfterDollarIsId(date, workflowId);
    hide CountDollars, BeforeDollar, AfterDollar;
  }

  lemma {:induction false} SplitAtDollar(path: string)
    requires '$' in path
    ensures path == BeforeDollar(path) + "$" + AfterDollar(path) && '$' !in BeforeDollar(path)
  {
    if path[0] == '$' {
      assert path == "" + "$" + path[1..];
    } else {
      assert path == [path[0]] + path[1..];
      SplitAtDollar(path[1..]);
      assert path == [path[0]] + BeforeDollar(path[1..]) + "$" + AfterDollar(path[1..]);
    }
  }

  /** It leaves a path alone if and only if this is the path of no workflow. */
  lemma {:induction false} NotAPathExactly(env: Env, path: string)
    ensures env.DateOf(path).NotAPath? <==> !exists date, workflowId :: IsPathOf(path, date, workflowId)
  {
    if date, workflowId :| IsPathOf(path, date, workflowId) {
      PathExactly(env, path, date, workflowId);
    }
    if CountDollars(path) == 1 {
      var date, workflowId := BeforeDollar(path), AfterDollar(path);
      NoDollars(path);
      SplitAtDollar(path);
      CountDollarsConcat(date + "$", workflowId);
      CountDollarsConcat(date, "$");
      assert CountDollars("$") == 1 + CountDollars("");
      NoDollars(date);
      NoDollars(workflowId);
      assert IsPathOf(path, date, workflowId);
    }
  }

  /** An object with a key as WriteObject makes it, of a workflow id that the start API accepts. */
  predicate WellNamed(r: Ref) {
    '$' !in r.path.yyyymmdd && '/' !in r.path.yyyymmdd && ValidWorkflowId(r.path.workflowId)
  }

  /** What WriteObject makes for such a workflow id, and a date without '$' and '/', has such a key; it is
      listed under its date and workflow id. */
  lemma {:induction false} WrittenIsWellNamed(b: Blobs, workflowId: string)
    requires '/' !in workflowId && '$' !in workflowId && '/' !in b.yyyymmdd && '$' !in b.yyyymmdd
    ensures WellNamed(NewRef(b, workflowId)) && NewRef(b, workflowId).storeId == b.activeStorage
    ensures IsPathOf(PathOf(NewRef(b, workflowId)), b.yyyymmdd, workflowId)
  {
  }

  /** Paths as the store lists them. */
  predicate AsListed(paths: seq<string>) {
    forall path | path in paths :: '/' !in path
  }

  /** When only paths of workflows that are gone are deleted, also in part, every object survives of
      which the backend knows the workflow when its path is looked at. */
  lemma {:induction false} KnownWorkflowsKeepTheirObjects(
    env: Env, objects: map<Ref, string>, storeId: string, touched: seq<string>, r: Ref)
    requires AsListed(touched) && forall path | path in touched :: env.IsGone(path)
    requires r in objects && WellNamed(r) && env.describe(r.path.workflowId, PathOf(r)) != NotFound
    ensures var after := Purge(env, objects, storeId, touched);
            r in after && after[r] == objects[r]
  {
    PurgeAt(env, objects, storeId, touched, r);
    forall path | path in touched ensures !Under(env, r, storeId, path) {
      UnderIsItsPath(env, r, storeId, path);
      AfterDollarIsId(r.path.yyyymmdd, r.path.workflowId);
    }
  }

  /** So an object of user data still resolves to what it did. */
  lemma {:induction false} KnownWorkflowsResolve(
    env: Env, objects: map<Ref, string>, storeId: string, touched: seq<string>, o: EncodedObject)
    requires AsListed(touched) && forall path | path in touched :: env.IsGone(path)
    requires RefOf(o).Some? ==>
               && RefOf(o).value in objects && WellNamed(RefOf(o).value)
               && env.describe(RefOf(o).value.path.workflowId, PathOf(RefOf(o).value)) != NotFound
    ensures Resolve(Purge(env, objects, storeId, touched), o) == Resolve(objects, o)
  {
    if RefOf(o).Some? {
      KnownWorkflowsKeepTheirObjects(env, objects, storeId, touched, RefOf(o).value);
    }
  }

  /** Without the restriction on workflow ids this fails: an object of workflow id/sub is listed as
      one of workflow id, and is deleted when the backend does not know that one. */
  lemma {:induction false} SlashInWorkflowIdLosesObjects(
    env: Env, objects: map<Ref, string>, r: Ref, id: string, sub: string, path: string)
    requires r in objects && r.path.workflowId == id + "/" + sub && path == r.path.yyyymmdd + "$" + id
    requires env.IsGone(path) && !env.IsOld(path) && !env.deleteFails(path)
    ensures r !in Purge(env, objects, r.storeId, PageDeletes(env, [path]))
  {
    PageDeletesHead(env, [path]);
    assert [path][1..] == [] && PageDeletes(env, []) == [];
    hide PageDeletes;
    var uuid := env.uuidText(r.path.uuid);
    assert PathOf(r) == path + "/" + sub;
    assert KeyOf(env, r) == path + "/" + (sub + "/" + uuid);
    PurgeAt(env, objects, r.storeId, [path], r);
    assert path in [path] && Under(env, r, r.storeId, path);
  }

  // ---- The activity ----

  method DeleteWorkflowObjects(env: Env, store: BlobStore, storeId: string, path: string) returns (ok: bool)
    modifies store
    ensures ok == !env.deleteFails(path)
    ensures store.state == old(store.state).(objects := AfterDelete(env, old(store.state.objects), storeId, path))
  {
    store.state := store.state.(objects := AfterDelete(env, store.state.objects, storeId, path));
    ok := !env.deleteFails(path);
  }

  /** n paths were dealt with; the next one is the end of the page, an old path, or an abort. touched
      are the paths that lost objects. */
  method CleanupPage(env: Env, store: BlobStore, storeId: string, paths: seq<string>)
    returns (r: Cleanup, deleted: seq<string>, ghost n: nat, ghost touched: seq<string>)
    modifies store
    ensures n <= FirstOld(env, paths) && forall i | 0 <= i < n :: !env.Aborts(paths[i])
    ensures deleted == Gone(env, paths[..n])
    ensures r.Done? <==> CleanPage(env, paths)
    ensures if r.Done? then n == FirstOld(env, paths) && deleted == PageDeletes(env, paths)
            else n < FirstOld(env, paths) && env.Aborts(paths[n]) && (r.Panicked? <==> env.DateOf(paths[n]).BadDate?)
    ensures touched == deleted + if !r.Done? && env.IsGone(paths[n]) then [paths[n]] else []
    ensures store.state == old(store.state).(objects := Purge(env, old(store.state.objects), storeId, touched))
  {
    deleted := [];
    n := 0;
    touched := [];
    hide Purge, AfterDelete;
    PurgeNothing(env, store.state.objects, storeId);
    for i := 0 to |paths|
      invariant n == i <= FirstOld(env, paths)
      invariant forall j | 0 <= j < i :: !env.Aborts(paths[j])
      invariant deleted == Gone(env, paths[..i]) && touched == deleted
      invariant store.state == old(store.state).(objects := Purge(env, old(store.state.objects), storeId, touched))
    {
      var path := paths[i];
      GoneSnoc(env, paths[..i], path);
      assert paths[..i + 1] == paths[..i] + [path];
      var date := env.DateOf(path);
      if date.NotAPath? {
        n := n + 1;
        continue;
      }
      if date.BadDate? {
        return Panicked, deleted, n, touched;
      }
      if date.seconds < env.cutOff {
        return Done, deleted, n, touched; // leaves the loop over the page
      }
      var existence := env.describe(AfterDollar(path), path);
      if existence == NotFound {
        PurgeSnoc(env, old(store.state.objects), storeId, touched, path);
        touched := touched + [path];
        var ok := DeleteWorkflowObjects(env, store, storeId, path);
        if !ok {
          return Failed, deleted, n, touched;
        }
        deleted := deleted + [path];
      } else if existence == DescribeError {
        return Failed, deleted, n, touched;
      }
      n := n + 1;
    }
    return Done, deleted, n, touched;
  }

  lemma {:induction false} PurgeNothing(env: Env, objects: map<Ref, string>, storeId: string)
    ensures Purge(env, objects, storeId, []) == objects
  {
  }

  function Listed(pages: seq<Option<seq<string>>>): seq<seq<string>>
    requires forall i | 0 <= i < |pages| :: pages[i].Some?
  {
    seq(|pages|, i requires 0 <= i < |pages| => pages[i].value)
  }

  predicate InPages(pages: seq<Option<seq<string>>>, path: string) {
    exists i :: 0 <= i < |pages| && pages[i].Some? && path in pages[i].value
  }

  /** Listed paths of workflows that are gone, none of them old. */
  ghost predicate OnlyGone(env: Env, pages: seq<Option<seq<string>>>, paths: seq<string>) {
    forall path | path in paths :: env.IsGone(path) && !env.IsOld(path) && InPages(pages, path)
  }

  lemma {:induction false} OnlyGoneConcat(
    env: Env, pages: seq<Option<seq<string>>>, a: seq<string>, b: seq<string>)
    requires OnlyGone(env, pages, a) && OnlyGone(env, pages, b)
    ensures OnlyGone(env, pages, a + b)
  {
  }

  /** pages is the listing; None is an error of the listing, which always has a first page.
      m pages were completed. */
  method CleanupBlobStore(env: Env, store: BlobStore, storeId: string, pages: seq<Option<seq<string>>>)
    returns (r: Cleanup, deleted: seq<string>, ghost m: nat, ghost touched: seq<string>)
    requires pages != []
    modifies store
    ensures OnlyGone(env, pages, touched)
    ensures m <= |pages| && forall i | 0 <= i < m :: pages[i].Some? && CleanPage(env, pages[i].value)
    ensures AllDeletes(env, Listed(pages[..m])) <= deleted <= touched
    ensures r.Done? <==> m == |pages|
    ensures if r.Done? then touched == deleted == AllDeletes(env, Listed(pages))
            else pages[m].None? || !CleanPage(env, pages[m].value)
    ensures store.state == old(store.state).(objects := Purge(env, old(store.state.objects), storeId, touched))
  {
    deleted := [];
    m := 0;
    touched := [];
    var token := Some(0);
    ghost var listed: seq<seq<string>> := [];
    assert deleted == AllDeletes(env, listed);
    PurgeNothing(env, store.state.objects, storeId);
    assert OnlyGone(env, pages, []);
    hide AllDeletes, PageDeletes, Gone, CleanPage, FirstOld, Purge, OnlyGone;
    while token.Some?
      invariant token.Some? ==> token.value == m < |pages|
      invariant token.None? ==> m == |pages|
      invariant |listed| == m
      invariant forall i | 0 <= i < m :: pages[i] == Some(listed[i]) && CleanPage(env, listed[i])
      invariant touched == deleted == AllDeletes(env, listed)
      invariant OnlyGone(env, pages, touched)
      invariant store.state == old(store.state).(objects := Purge(env, old(store.state.objects), storeId, touched))
      decreases |pages| - m
    {
      assert listed == Listed(pages[..m]);
      var page := pages[token.value];
      if page.None? {
        return Failed, deleted, m, touched;
      }
      token := if token.value + 1 < |pages| then Some(token.value + 1) else None;
      var result, pageDeleted, n, pageTouched := CleanupPage(env, store, storeId, page.value);
      TouchedIsGone(env, pages, m, n, pageDeleted, pageTouched);
      OnlyGoneConcat(env, pages, touched, pageTouched);
      PurgeConcat(env, old(store.state.objects), storeId, touched, pageTouched);
      deleted := deleted + pageDeleted;
      touched := touched + pageTouched;
      if !result.Done? {
        return result, deleted, m, touched;
      }
      AllDeletesSnoc(env, listed, page.value);
      listed := listed + [page.value];
      m := m + 1;
    }
    assert pages[..m] == pages && listed == Listed(pages);
    return Done, deleted, m, touched;
  }

  lemma {:induction false} TouchedIsGone(
    env: Env, pages: seq<Option<seq<string>>>, m: nat, n: nat, deleted: seq<string>, touched: seq<string>)
    requires m < |pages| && pages[m].Some? && n <= FirstOld(env, pages[m].value)
    requires deleted == Gone(env, pages[m].value[..n])
    requires || touched == deleted
             || (n < FirstOld(env, pages[m].value) && env.IsGone(pages[m].value[n])
               && touched == deleted + [pages[m].value[n]])
    ensures OnlyGone(env, pages, touched)
  {
    GoneIsGone(env, pages[m].value, n);
  }

  /** After the activity, however it ended: every object resolves as before of which the backend knew
      the workflow when its path was looked at. */
  method CleanupKeepsKnownWorkflows(env: Env, store: BlobStore, storeId: string, pages: seq<Option<seq<string>>>)
    returns (r: Cleanup)
    requires pages != [] && forall i | 0 <= i < |pages| && pages[i].Some? :: AsListed(pages[i].value)
    modifies store
    ensures forall ref | ref in old(store.state.objects) && WellNamed(ref)
                         && env.describe(ref.path.workflowId, PathOf(ref)) != NotFound ::
              ref in store.state.objects && store.state.objects[ref] == old(store.state.objects)[ref]
  {
    ghost var before := store.state.objects;
    var result, deleted, m, touched := CleanupBlobStore(env, store, storeId, pages);
    r := result;
    assert AsListed(touched);
    forall ref | ref in before && WellNamed(ref) && env.describe(ref.path.workflowId, PathOf(ref)) != NotFound
      ensures ref in store.state.objects && store.state.objects[ref] == before[ref]
    {
      KnownWorkflowsKeepTheirObjects(env, before, storeId, touched, ref);
    }
  }

  lemma {:induction false} GoneIsGone(env: Env, paths: seq<string>, n: nat)
    requires n <= FirstOld(env, paths)
    ensures forall path | path in Gone(env, paths[..n]) :: env.IsGone(path) && !env.IsOld(path) && path in paths
  {
    forall path | path in Gone(env, paths[..n]) ensures env.IsGone(path) && !env.IsOld(path) && path in paths {
      GoneMembers(env, paths[..n], path);
    }
  }

  lemma {:induction false} AllDeletesSnoc(env: Env, pages: seq<seq<string>>, page: seq<string>)
    ensures AllDeletes(env, pages + [page]) == AllDeletes(env, pages) + PageDeletes(env, page)
  {
    if pages == [] {
      assert pages + [page] == [page];
    } else {
      assert (pages + [page])[1..] == pages[1..] + [page];
      AllDeletesSnoc(env, pages[1..], page);
    }
  }

  lemma {:induction false} GoneMembers(env: Env, paths: seq<string>, path: string)
    ensures path in Gone(env, paths) <==> path in paths && env.IsGone(path)
  {
    if paths == [] {
    } else {
      GoneMembers(env, paths[1..], path);
    }
  }

  /** Only workflows that the backend does not know lose their objects, and only paths that
      are not older than the cut-off: the comparison is the opposite of what the comment on
      MinAgeForCleanupCheckInDays says. */
  lemma {:induction false} PageDeletesOnlyGone(env: Env, paths: seq<string>)
    ensures forall path | path in PageDeletes(env, paths) :: env.IsGone(path) && !env.IsOld(path) && path in paths
  {
    GoneIsGone(env, paths, FirstOld(env, paths));
  }

  /** The store lists a page in the order of the dates. */
  ghost predicate OldestFirst(env: Env, paths: seq<string>) {
    forall i, j | 0 <= i < j < |paths| && env.DateOf(paths[i]).Dated? && env.DateOf(paths[j]).Dated? ::
      env.DateOf(paths[i]).seconds <= env.DateOf(paths[j]).seconds
  }

  lemma {:induction false} NoneGone(env: Env, paths: seq<string>)
    requires forall path | path in paths :: !env.IsGone(path)
    ensures Gone(env, paths) == []
  {
    if paths == [] {
    } else {
      NoneGone(env, paths[1..]);
    }
  }

  /** On a page in the order of the dates, one old path means that nothing is deleted. */
  lemma {:induction false} OldPathBlocksItsPage(env: Env, paths: seq<string>, k: nat)
    requires OldestFirst(env, paths) && k < |paths| && env.IsOld(paths[k])
    ensures PageDeletes(env, paths) == []
  {
    var n := FirstOld(env, paths);
    forall path | path in paths[..n] ensures !env.IsGone(path) {
      var i :| 0 <= i < n && paths[..n][i] == path;
      assert paths[i] == path && i < k;
    }
    NoneGone(env, paths[..n]);
  }

  /** Without old paths, exactly the paths of the page whose workflows are gone are deleted. */
  lemma {:induction false} NoOldPathDeletesAllGone(env: Env, paths: seq<string>)
    requires forall path | path in paths :: !env.IsOld(path)
    ensures PageDeletes(env, paths) == Gone(env, paths)
  {
    if paths == [] {
    } else {
      assert paths[0] in paths;
      PageDeletesHead(env, paths);
      NoOldPathDeletesAllGone(env, paths[1..]);
    }
  }

  /** So a clean-up of a page in the order of the dates deletes what it is for - the objects of all
      workflows that are gone - if and only if no path is old, or there is nothing to delete. */
  lemma {:induction false} DeletesAllGoneExactly(env: Env, paths: seq<string>)
    requires OldestFirst(env, paths)
    ensures PageDeletes(env, paths) == Gone(env, paths) <==>
            (forall path | path in paths :: !env.IsOld(path)) || Gone(env, paths) == []
  {
    hide PageDeletes, Gone;
    if forall path | path in paths :: !env.IsOld(path) {
      NoOldPathDeletesAllGone(env, paths);
    } else {
      var k :| 0 <= k < |paths| && env.IsOld(paths[k]);
      OldPathBlocksItsPage(env, paths, k);
    }
  }
}
