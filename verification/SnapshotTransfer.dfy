/** The continue-as-new transfer: the new run asks the closing run for its snapshot page by
    page and starts over when the checksum changes. The environment decides what the server
    holds at every request, and which requests fail. */
module SnapshotTransfer {
  import opened GoTypes
  import opened Paging

  /** JSON and MD5, as arbitrary functions. */
  datatype Codec<!S> = Codec(encode: S -> Bytes, decode: Bytes -> Option<S>, checksum: Bytes -> string)

  /** What the environment does with one request. */
  datatype Turn<+S> = Holds(snapshot: S) | ActivityFails

  /** Decoding undoes encoding, for every snapshot the server holds. */
  ghost predicate RoundTrips<S(!new)>(c: Codec<S>, turns: seq<Turn<S>>) {
    forall s :: Holds(s) in turns ==> c.decode(c.encode(s)) == Some(s)
  }

  ghost predicate NonEmptyChecksums<S(!new)>(c: Codec<S>, turns: seq<Turn<S>>) {
    forall s :: Holds(s) in turns ==> c.checksum(c.encode(s)) != ""
  }

  /** Two snapshots held during this transfer have one checksum only if they are one snapshot. */
  ghost predicate CollisionFree<S(!new)>(c: Codec<S>, turns: seq<Turn<S>>) {
    forall s, t | Holds(s) in turns && Holds(t) in turns ::
      c.checksum(c.encode(s)) == c.checksum(c.encode(t)) ==> c.encode(s) == c.encode(t)
  }

  // ---- The loader, one request at a time ----

  datatype Cursor = Cursor(pageNum: int32, lastChecksum: string, received: Bytes)

  const FRESH := Cursor(0, "", [])

  function Serve<S>(c: Codec<S>, turn: Turn<S>, pageNum: int32, requestedSize: int32): Option<PageReply> {
    match turn
    case ActivityFails => None
    case Holds(s) =>
      var wholeData := c.encode(s);
      Some(AnswerPage(wholeData, c.checksum(wholeData), pageNum, requestedSize))
  }

  predicate Mismatch(cur: Cursor, page: PageReply)
    requires page.Page?
  {
    cur.lastChecksum != "" && cur.lastChecksum != page.checksum
  }

  function Accept(cur: Cursor, page: PageReply): Cursor
    requires page.Page?
  {
    Cursor(Wrap32(cur.pageNum + 1), page.checksum, cur.received + page.jsonData)
  }

  datatype Outcome =
    | Got(data: Bytes, requests: nat)
    | Error(requests: nat)
    | StillLoading(requests: nat) // the schedule ended first

  /** The rest of the load, from request i on. */
  ghost function Load<S>(c: Codec<S>, turns: seq<Turn<S>>, requestedSize: int32, i: nat, cur: Cursor): Outcome
    requires i <= |turns|
    decreases |turns| - i
  {
    if i == |turns| then StillLoading(i)
    else
      var reply := Serve(c, turns[i], cur.pageNum, requestedSize);
      if reply.None? || !reply.value.Page? then Error(i + 1)
      else if Mismatch(cur, reply.value) then Load(c, turns, requestedSize, i + 1, FRESH)
      else
        var next := Accept(cur, reply.value);
        if next.pageNum >= reply.value.totalPages then Got(next.received, i + 1)
        else Load(c, turns, requestedSize, i + 1, next)
  }

  ghost function Transfer<S>(c: Codec<S>, turns: seq<Turn<S>>, configuredSize: int32): Outcome {
    Load(c, turns, LoaderPageSize(configuredSize), 0, FRESH)
  }

  lemma {:induction false} PageFacts(d: Bytes, sum: string, n: int32, requestedSize: int32)
    requires 0 <= n && AnswerPage(d, sum, n, requestedSize).Page?
    ensures var page := AnswerPage(d, sum, n, requestedSize);
            page.checksum == sum && page.totalPages == TotalPages(|d|, requestedSize) && n + 1 <= page.totalPages
  {
  }

  // ---- Safety: never a mix of two snapshots ----

  /** buffer is what an uninterrupted load of d has after n pages, and n is not the end. */
  ghost predicate Partial(d: Bytes, requestedSize: int32, n: int32, buffer: Bytes) {
    var p := HandlerPageSize(requestedSize);
    if |d| <= MAX_INT32 then n >= 0 && 0 <= Product(p, n) < |d| && buffer == d[..Product(p, n)]
    else 0 <= n <= FirstBadPage(|d|, p)
  }

  /** Between two requests: nothing accepted yet, or a true beginning of the data d, which the
      server held at an earlier request. */
  ghost predicate Consistent(c: Codec, cur: Cursor, d: Bytes, requestedSize: int32) {
    || cur == FRESH
    || (cur.lastChecksum == c.checksum(d) != "" && cur.pageNum >= 1
        && Partial(d, requestedSize, cur.pageNum, cur.received))
  }

  /** Accepting a page of d keeps the buffer a beginning of d, and completes it exactly
      when the loader stops. */
  lemma {:induction false} AcceptKeepsPartial(d: Bytes, sum: string, requestedSize: int32, cur: Cursor)
    requires cur.pageNum >= 0 && AnswerPage(d, sum, cur.pageNum, requestedSize).Page?
    requires cur == FRESH || Partial(d, requestedSize, cur.pageNum, cur.received)
    ensures var page := AnswerPage(d, sum, cur.pageNum, requestedSize);
            var next := Accept(cur, page);
            && next.pageNum == cur.pageNum + 1
            && (if next.pageNum >= page.totalPages then next.received == d
                else Partial(d, requestedSize, next.pageNum, next.received))
  {
    var p := HandlerPageSize(requestedSize);
    var n: nat := cur.pageNum;
    if |d| <= MAX_INT32 {
      PageExact(d, sum, cur.pageNum, requestedSize);
      BelowCount(|d|, p, n + 1);
      assert d[..Product(p, n)] + d[Product(p, n)..PageEnd(|d|, p, n)] == d[..PageEnd(|d|, p, n)];
    } else {
      LongDataNeverCompletes(d, sum, cur.pageNum, requestedSize);
    }
  }

  /** Whatever the environment does, data that is returned was held by the server, as a
      whole, at one of the requests made (j): also when it changes and changes back. */
  lemma {:induction false} LoadIsOneSnapshot<S(!new)>(
    c: Codec<S>, turns: seq<Turn<S>>, requestedSize: int32, i: nat, cur: Cursor, seen: nat)
    returns (j: nat)
    requires i <= |turns|
    requires NonEmptyChecksums(c, turns) && CollisionFree(c, turns)
    requires cur == FRESH
        || (seen < i && turns[seen].Holds? && Consistent(c, cur, c.encode(turns[seen].snapshot), requestedSize))
    ensures var o := Load(c, turns, requestedSize, i, cur);
            && i <= o.requests <= |turns|
            && (o.Got? ==> j < o.requests && turns[j].Holds? && c.encode(turns[j].snapshot) == o.data)
    decreases |turns| - i
  {
    hide AnswerPage, Partial;
    j := i;
    if i < |turns| && turns[i].Holds? {
      assert Holds(turns[i].snapshot) in turns;
      var d := c.encode(turns[i].snapshot);
      var page := AnswerPage(d, c.checksum(d), cur.pageNum, requestedSize);
      if page.Page? {
        PageFacts(d, c.checksum(d), cur.pageNum, requestedSize);
        if Mismatch(cur, page) {
          j := LoadIsOneSnapshot(c, turns, requestedSize, i + 1, FRESH, i);
        } else {
          assert cur != FRESH ==> c.encode(turns[seen].snapshot) == d by {
            assert cur != FRESH ==> Holds(turns[seen].snapshot) in turns;
          }
          AcceptKeepsPartial(d, c.checksum(d), requestedSize, cur);
          var next := Accept(cur, page);
          if next.pageNum < page.totalPages {
            j := LoadIsOneSnapshot(c, turns, requestedSize, i + 1, next, i);
          }
        }
      }
    }
  }

  // ---- Termination: how many requests a changing snapshot can cost ----

  /** How often the server's state differs between two consecutive requests, from request i on. */
  ghost function Changes<S>(turns: seq<Turn<S>>, i: nat): nat
    decreases |turns| - i
  {
    if i + 1 >= |turns| then 0
    else (if turns[i] != turns[i + 1] then 1 else 0) + Changes(turns, i + 1)
  }

  ghost predicate NeedAtMost<S(!new)>(c: Codec<S>, turns: seq<Turn<S>>, requestedSize: int32, pages: nat) {
    forall s :: Holds(s) in turns ==> TotalPages(|c.encode(s)|, requestedSize) <= pages
  }

  /** k * pages, unrolled. */
  ghost function Times(k: nat, pages: nat): (r: nat) {
    if k == 0 then 0 else pages + Times(k - 1, pages)
  }

  lemma {:induction false} TimesIsProduct(k: nat, pages: nat)
    ensures Times(k, pages) == k * pages
  {
    if k == 0 {
    } else {
      TimesIsProduct(k - 1, pages);
      assert k * pages == (k - 1) * pages + pages;
    }
  }

  /** What the load can still cost from request i on, with k changes to come. */
  ghost function Budget<S>(c: Codec<S>, turns: seq<Turn<S>>, i: nat, cur: Cursor, pages: nat): nat
    requires i <= |turns| && 0 <= cur.pageNum <= pages && 1 <= pages
  {
    var k := Changes(turns, i);
    if cur == FRESH then Times(k + 1, pages)
    else if i < |turns| && turns[i].Holds? && cur.lastChecksum != c.checksum(c.encode(turns[i].snapshot)) then
      1 + Times(k + 1, pages)
    else pages - cur.pageNum + Times(k, pages)
  }

  lemma {:induction false} ResetWithinBudget<S>(c: Codec<S>, turns: seq<Turn<S>>, i: nat, cur: Cursor, pages: nat)
    requires i < |turns| && turns[i].Holds? && 0 <= cur.pageNum <= pages && 1 <= pages
    requires cur != FRESH && cur.lastChecksum != c.checksum(c.encode(turns[i].snapshot))
    ensures 1 + Budget(c, turns, i + 1, FRESH, pages) <= Budget(c, turns, i, cur, pages)
  {
  }

  lemma {:induction false} AcceptWithinBudget<S>(
    c: Codec<S>, turns: seq<Turn<S>>, i: nat, cur: Cursor, next: Cursor, pages: nat)
    requires i < |turns| && turns[i].Holds? && 0 <= cur.pageNum && 1 <= pages
    requires cur == FRESH || cur.lastChecksum == c.checksum(c.encode(turns[i].snapshot))
    requires next.pageNum == cur.pageNum + 1 < pages
    requires next.lastChecksum == c.checksum(c.encode(turns[i].snapshot)) != ""
    ensures 1 + Budget(c, turns, i + 1, next, pages) <= Budget(c, turns, i, cur, pages)
  {
  }

  lemma {:induction false} LoadWithinBudget<S(!new)>(
    c: Codec<S>, turns: seq<Turn<S>>, requestedSize: int32, i: nat, cur: Cursor, pages: nat)
    requires i <= |turns| && 1 <= pages
    requires NonEmptyChecksums(c, turns) && NeedAtMost(c, turns, requestedSize, pages)
    requires cur == FRESH || (1 <= cur.pageNum < pages && cur.lastChecksum != "")
    ensures var o := Load(c, turns, requestedSize, i, cur);
            && o.requests <= i + Budget(c, turns, i, cur, pages)
            && (o.StillLoading? ==> o.requests == |turns|)
    decreases |turns| - i
  {
    hide AnswerPage, TotalPages;
    if i < |turns| && turns[i].Holds? {
      assert Holds(turns[i].snapshot) in turns;
      var d := c.encode(turns[i].snapshot);
      var page := AnswerPage(d, c.checksum(d), cur.pageNum, requestedSize);
      if page.Page? {
        PageFacts(d, c.checksum(d), cur.pageNum, requestedSize);
        if Mismatch(cur, page) {
          LoadWithinBudget(c, turns, requestedSize, i + 1, FRESH, pages);
          ResetWithinBudget(c, turns, i, cur, pages);
        } else {
          var next := Accept(cur, page);
          if next.pageNum < page.totalPages {
            LoadWithinBudget(c, turns, requestedSize, i + 1, next, pages);
            AcceptWithinBudget(c, turns, i, cur, next, pages);
          }
        }
      }
    }
  }

  lemma {:induction false} TimesAtMost(k: nat, changes: nat, pages: nat)
    requires k <= changes
    ensures Times(k, pages) <= changes * pages
  {
    TimesIsProduct(k, pages);
    assert changes * pages - k * pages == (changes - k) * pages;
  }

  /** If the server's state changes at most k times and never needs more than N >= 1 pages, the
      load has stopped after (k + 1) * N requests. */
  lemma {:induction false} TransferStops<S(!new)>(
    c: Codec<S>, turns: seq<Turn<S>>, configuredSize: int32, changes: nat, pages: nat)
    requires NonEmptyChecksums(c, turns) && NeedAtMost(c, turns, LoaderPageSize(configuredSize), pages) && 1 <= pages
    requires Changes(turns, 0) <= changes
    ensures var o := Transfer(c, turns, configuredSize);
            && o.requests <= (changes + 1) * pages
            && (|turns| > (changes + 1) * pages ==> !o.StillLoading?)
  {
    TimesAtMost(Changes(turns, 0) + 1, changes + 1, pages);
    LoadWithinBudget(c, turns, LoaderPageSize(configuredSize), 0, FRESH, pages);
  }

  // ---- Without changes: exactly one request per page, or none that completes ----

  /** The server holds s at every request; the loader has accepted pages 0..i-1. */
  lemma {:induction false} StableLoad<S>(
    c: Codec<S>, s: S, turns: seq<Turn<S>>, requestedSize: int32, i: nat, cur: Cursor)
    requires i <= |turns| && forall j | 0 <= j < |turns| :: turns[j] == Holds(s)
    requires c.checksum(c.encode(s)) != "" && cur.pageNum == i
    requires if i == 0 then cur == FRESH else Consistent(c, cur, c.encode(s), requestedSize)
    ensures var d := c.encode(s);
            var o := Load(c, turns, requestedSize, i, cur);
            var pages := TotalPages(|d|, requestedSize);
            && (o.Got? ==> Transferable(d, requestedSize) && pages <= |turns| && o == Got(d, pages))
            && (Transferable(d, requestedSize) && i < pages <= |turns| ==> o.Got?)
    decreases |turns| - i
  {
    hide AnswerPage;
    if i < |turns| {
      var d := c.encode(s);
      var page := AnswerPage(d, c.checksum(d), cur.pageNum, requestedSize);
      if page.Page? {
        PageFacts(d, c.checksum(d), cur.pageNum, requestedSize);
        AcceptKeepsPartial(d, c.checksum(d), requestedSize, cur);
        var next := Accept(cur, page);
        if next.pageNum < page.totalPages {
          StableLoad(c, s, turns, requestedSize, i + 1, next);
        } else if |d| <= MAX_INT32 {
          PageServed(d, c.checksum(d), cur.pageNum, requestedSize);
        } else {
          LongDataNeverCompletes(d, c.checksum(d), cur.pageNum, requestedSize);
        }
      } else if |d| <= MAX_INT32 && i < TotalPages(|d|, requestedSize) {
        PageServed(d, c.checksum(d), cur.pageNum, requestedSize);
      }
    }
  }

  /** While nothing changes and no request fails, the load returns the snapshot after exactly
      TotalPages requests - so no reset and no rejected page - if and only if the snapshot is
      Transferable and the schedule lasts that long. */
  lemma {:induction false} StableTransfer<S>(c: Codec<S>, s: S, turns: seq<Turn<S>>, configuredSize: int32)
    requires forall j | 0 <= j < |turns| :: turns[j] == Holds(s)
    requires c.checksum(c.encode(s)) != ""
    ensures var d := c.encode(s);
            var size := LoaderPageSize(configuredSize);
            && (Transfer(c, turns, configuredSize).Got? <==> Transferable(d, size) && TotalPages(|d|, size) <= |turns|)
            && (Transfer(c, turns, configuredSize).Got? ==>
                  Transfer(c, turns, configuredSize) == Got(d, TotalPages(|d|, size)))
  {
    var d := c.encode(s);
    var size := LoaderPageSize(configuredSize);
    StableLoad(c, s, turns, size, 0, FRESH);
  }

  // ---- The loader ----

  datatype LoadResult<+S> = Loaded(snapshot: S) | LoadFailed | Unfinished

  ghost function ResultOf<S>(c: Codec<S>, o: Outcome): LoadResult<S> {
    match o
    case Got(data, _) => (match c.decode(data) case Some(s) => Loaded(s) case None => LoadFailed)
    case Error(_) => LoadFailed
    case StillLoading(_) => Unfinished
  }

  /** For every behaviour of the environment: what a load returns is one snapshot that the
      server held at one of the requests made. */
  lemma {:induction false} TransferIsOneSnapshot<S(!new)>(c: Codec<S>, turns: seq<Turn<S>>, configuredSize: int32)
    requires NonEmptyChecksums(c, turns) && CollisionFree(c, turns) && RoundTrips(c, turns)
    ensures var o := Transfer(c, turns, configuredSize);
            && o.requests <= |turns|
            && (ResultOf(c, o).Loaded? ==> Holds(ResultOf(c, o).snapshot) in turns[..o.requests])
  {
    var o := Transfer(c, turns, configuredSize);
    var j := LoadIsOneSnapshot(c, turns, LoaderPageSize(configuredSize), 0, FRESH, 0);
    if o.Got? {
      var s := turns[j].snapshot;
      assert turns[j] == Holds(s) && Holds(s) in turns;
      assert turns[..o.requests][j] == Holds(s);
    }
  }

  method LoadInternalsFromPreviousRun<S(!new)>(c: Codec<S>, turns: seq<Turn<S>>, continueAsNewPageSizeInBytes: int32)
    returns (result: LoadResult<S>, requests: nat)
    ensures result == ResultOf(c, Transfer(c, turns, continueAsNewPageSizeInBytes))
    ensures requests == Transfer(c, turns, continueAsNewPageSizeInBytes).requests
  {
    var pageSize := continueAsNewPageSizeInBytes;
    if pageSize == 0 {
      pageSize := DEFAULT_PAGE_SIZE;
    }
    hide AnswerPage;
    ghost var outcome := Transfer(c, turns, continueAsNewPageSizeInBytes);
    var sb: Bytes := [];
    var lastChecksum := "";
    var pageNum: int32 := 0;
    requests := 0;
    while true
      invariant requests <= |turns|
      invariant outcome == Load(c, turns, pageSize, requests, Cursor(pageNum, lastChecksum, sb))
      decreases |turns| - requests
    {
      if requests == |turns| {
        return Unfinished, requests;
      }
      var reply := Serve(c, turns[requests], pageNum, pageSize);
      requests := requests + 1;
      if reply.None? || !reply.value.Page? {
        return LoadFailed, requests;
      }
      var resp := reply.value;
      if lastChecksum != "" && lastChecksum != resp.checksum {
        pageNum := 0;
        sb := [];
        lastChecksum := "";
      } else {
        lastChecksum := resp.checksum;
        sb := sb + resp.jsonData;
        pageNum := Wrap32(pageNum + 1);
        if pageNum >= resp.totalPages {
          break;
        }
      }
    }
    assert outcome == Got(sb, requests);
    var decoded := c.decode(sb);
    result := if decoded.Some? then Loaded(decoded.value) else LoadFailed;
  }
}
