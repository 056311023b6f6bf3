/** The page-cutting half of the continue-as-new dump: how the closing run cuts page n
    out of the serialized snapshot, in int32 arithmetic. Products and the page count are
    written by recursion, which keeps the proofs linear; ProductIsTimes and PageCountIsCeil
    say that they are the source's pageSize * n and ceil(length / pageSize). */
module Paging {
  import opened GoTypes

  const DEFAULT_PAGE_SIZE: int32 := 1024 * 1024

  /** p * n. */
  function Product(p: int, n: int): int
    decreases if n < 0 then -n else n
  {
    if n == 0 then 0
    else if n > 0 then Product(p, n - 1) + p
    else Product(p, n + 1) - p
  }

  /** ceil(length / pageSize), before it is converted to int32. */
  function PageCount(length: nat, pageSize: int): (n: nat)
    requires pageSize > 0
    ensures n <= length
  {
    if length == 0 then 0
    else if length <= pageSize then 1
    else 1 + PageCount(length - pageSize, pageSize)
  }

  lemma {:induction false} ProductIsTimes(p: int, n: int)
    ensures Product(p, n) == p * n
    decreases if n < 0 then -n else n
  {
    if n > 0 {
      ProductIsTimes(p, n - 1);
      assert p * n == p * (n - 1) + p;
    } else if n < 0 {
      ProductIsTimes(p, n + 1);
      assert p * n == p * (n + 1) - p;
    }
  }

  /** PageCount is the least c with length <= p * c. */
  lemma {:induction false} PageCountIsCeil(length: nat, p: int)
    requires p > 0
    ensures length <= p * PageCount(length, p) < length + p
  {
    if length > p {
      PageCountIsCeil(length - p, p);
      assert p * PageCount(length, p) == p * PageCount(length - p, p) + p;
    }
  }

  lemma {:induction false} ProductMonotone(p: nat, a: int, b: int)
    requires 0 <= a <= b
    ensures Product(p, a) <= Product(p, b)
    decreases b - a
  {
    if a < b {
      ProductMonotone(p, a, b - 1);
    }
  }

  /** Page n exists exactly when it starts before the end. */
  lemma {:induction false} BelowCount(length: nat, p: int, n: nat)
    requires p > 0
    ensures n < PageCount(length, p) <==> Product(p, n) < length
    decreases n
  {
    if n == 0 {
    } else {
      if length > p {
        BelowCount(length - p, p, n - 1);
      } else {
        ProductMonotone(p, 1, n);
        assert Product(p, 1) == Product(p, 0) + p;
      }
    }
  }

  // ---- Page sizes ----

  /** The page size the loader puts in its requests. */
  function LoaderPageSize(configured: int32): int32 {
    if configured == 0 then DEFAULT_PAGE_SIZE else configured
  }

  /** The page size the handler works with. */
  function HandlerPageSize(requested: int32): (p: int32)
    ensures p > 0
  {
    if requested > 0 then requested else DEFAULT_PAGE_SIZE
  }

  /** Loader and handler agree on the page size, whatever int32 was configured. */
  lemma {:induction false} SamePageSize(configured: int32)
    ensures HandlerPageSize(LoaderPageSize(configured)) == HandlerPageSize(configured)
    ensures LoaderPageSize(configured) > 0 ==> HandlerPageSize(configured) == LoaderPageSize(configured)
    ensures HandlerPageSize(configured) == if configured > 0 then configured else 1_048_576
  {
  }

  // ---- The handler ----

  /** int32(f) for a float64; out of range this is what amd64 produces. */
  function FloatToInt32(f: int): int32 {
    if MIN_INT32 <= f <= MAX_INT32 then f else MIN_INT32
  }

  function TotalPages(length: nat, requestedSize: int32): int32 {
    FloatToInt32(PageCount(length, HandlerPageSize(requestedSize)))
  }

  datatype PageReply =
    | Page(checksum: string, totalPages: int32, jsonData: Bytes)
    | WrongPage   // "wrong pageNum" error
    | SlicePanic  // wholeData[start:end] out of range

  /** The query handler, once the snapshot is serialized to wholeData. */
  function AnswerPage(wholeData: Bytes, checksum: string, pageNum: int32, requestedSize: int32): PageReply {
    var pageSize := HandlerPageSize(requestedSize);
    var totalPages := TotalPages(|wholeData|, requestedSize);
    if pageNum >= totalPages then WrongPage
    else
      var start := Wrap32(Product(pageSize, pageNum));
      var unclamped := Wrap32(start + pageSize);
      var end := if unclamped > Wrap32(|wholeData|) then Wrap32(|wholeData|) else unclamped;
      if 0 <= start <= end <= |wholeData| then Page(checksum, totalPages, wholeData[start..end])
      else SlicePanic
  }

  /** Where page n ends, without overflow. */
  function PageEnd(length: nat, p: nat, n: nat): int {
    if Product(p, n + 1) <= length then Product(p, n + 1) else length
  }

  /** A page is refused if and only if it is not below the page count. */
  lemma {:induction false} WrongPageExactly(data: Bytes, checksum: string, n: int32, requestedSize: int32)
    requires |data| <= MAX_INT32
    ensures AnswerPage(data, checksum, n, requestedSize) == WrongPage <==>
              n >= PageCount(|data|, HandlerPageSize(requestedSize))
  {
  }

  /** A page below the page count is cut exactly, unless the end of the page as computed
      before clamping leaves int32: then the slice expression panics. */
  lemma {:induction false} PageExact(data: Bytes, checksum: string, n: int32, requestedSize: int32)
    requires |data| <= MAX_INT32
    requires 0 <= n < TotalPages(|data|, requestedSize)
    ensures var p := HandlerPageSize(requestedSize);
            var r := AnswerPage(data, checksum, n, requestedSize);
            && 0 <= Product(p, n) < PageEnd(|data|, p, n) <= |data|
            && (Product(p, n + 1) <= MAX_INT32 <==> r.Page?)
            && (r.Page? ==> r == Page(checksum, PageCount(|data|, p), data[Product(p, n)..PageEnd(|data|, p, n)]))
            && (!r.Page? ==> r == SlicePanic)
  {
    var p := HandlerPageSize(requestedSize);
    BelowCount(|data|, p, n);
    ProductMonotone(p, 0, n);
    assert Product(p, n + 1) == Product(p, n) + p;
  }

  /** The failing input: both numbers are an int32 and the data has two pages, but the second
      page cannot be served. */
  lemma {:induction false} SecondPagePanics(data: Bytes, checksum: string)
    requires |data| == 1_600_000_000
    ensures TotalPages(|data|, 1_500_000_000) == 2
    ensures AnswerPage(data, checksum, 0, 1_500_000_000).Page?
    ensures AnswerPage(data, checksum, 1, 1_500_000_000) == SlicePanic
  {
    var p := 1_500_000_000;
    assert PageCount(|data|, p) == 1 + PageCount(100_000_000, p);
    assert Product(p, 1) == Product(p, 0) + p && Product(p, 2) == Product(p, 1) + p;
    PageExact(data, checksum, 0, p);
    PageExact(data, checksum, 1, p);
  }

  // ---- The pages partition the data ----

  /** What the loader has after accepting pages 0..n-1. */
  ghost function Joined(data: Bytes, checksum: string, requestedSize: int32, n: nat): Bytes
    requires n <= MAX_INT32
  {
    if n == 0 then []
    else
      var r := AnswerPage(data, checksum, n - 1, requestedSize);
      Joined(data, checksum, requestedSize, n - 1) + if r.Page? then r.jsonData else []
  }

  /** The data and the page size fit the handler's arithmetic; the condition is exact, see
      SnapshotTransfer.StableTransfer. */
  predicate Transferable(d: Bytes, requestedSize: int32) {
    var p := HandlerPageSize(requestedSize);
    0 < |d| <= MAX_INT32 && Product(p, PageCount(|d|, p)) <= MAX_INT32
  }

  /** It holds whenever length and page size together fit in int32. */
  lemma {:induction false} SmallIsTransferable(d: Bytes, requestedSize: int32)
    requires 0 < |d| && |d| + HandlerPageSize(requestedSize) <= MAX_INT32
    ensures Transferable(d, requestedSize)
  {
    var p := HandlerPageSize(requestedSize);
    BelowCount(|d|, p, PageCount(|d|, p) - 1);
  }

  lemma {:induction false} LastPageEnds(length: nat, p: int32)
    requires p > 0 && length > 0
    ensures PageStart(length, p, PageCount(length, p)) == length
  {
    var c := PageCount(length, p);
    BelowCount(length, p, c);
    assert Product(p, c - 1 + 1) == Product(p, c);
  }

  lemma {:induction false} PageServed(d: Bytes, sum: string, n: int32, requestedSize: int32)
    requires 0 <= n < TotalPages(|d|, requestedSize) && |d| <= MAX_INT32
    ensures var r := AnswerPage(d, sum, n, requestedSize);
            && (Transferable(d, requestedSize) ==> r.Page?)
            && (r.Page? && n + 1 == r.totalPages ==> Transferable(d, requestedSize))
  {
    var p := HandlerPageSize(requestedSize);
    PageExact(d, sum, n, requestedSize);
    ProductMonotone(p, n + 1, PageCount(|d|, p));
  }

  /** Every page is served, is not empty and is full except possibly the last, and all of
      them in order are the data. */
  lemma {:induction false} PagesPartition(data: Bytes, checksum: string, requestedSize: int32, n: nat)
    requires Transferable(data, requestedSize)
    requires n <= TotalPages(|data|, requestedSize)
    ensures forall i: int32 | 0 <= i < n ::
              var r := AnswerPage(data, checksum, i, requestedSize);
              && r.Page? && 0 < |r.jsonData| <= HandlerPageSize(requestedSize)
              && (i + 1 < TotalPages(|data|, requestedSize) ==> |r.jsonData| == HandlerPageSize(requestedSize))
    ensures n == TotalPages(|data|, requestedSize) ==> Joined(data, checksum, requestedSize, n) == data
  {
    var p := HandlerPageSize(requestedSize);
    JoinedIsPrefix(data, checksum, requestedSize, n);
    LastPageEnds(|data|, p);
    forall i: int32 | 0 <= i < n
      ensures var r := AnswerPage(data, checksum, i, requestedSize);
              && r.Page? && 0 < |r.jsonData| <= p && (i + 1 < TotalPages(|data|, requestedSize) ==> |r.jsonData| == p)
    {
      PageServed(data, checksum, i, requestedSize);
      PageExact(data, checksum, i, requestedSize);
      BelowCount(|data|, p, i + 1);
      assert Product(p, i + 1) == Product(p, i) + p;
    }
  }

  /** Where page n starts: where the page before ends. */
  function PageStart(length: nat, p: nat, n: nat): int {
    if n == 0 then 0 else PageEnd(length, p, n - 1)
  }

  lemma {:induction false} PageIsSlice(data: Bytes, checksum: string, n: int32, requestedSize: int32)
    requires Transferable(data, requestedSize) && 0 <= n < TotalPages(|data|, requestedSize)
    ensures var p := HandlerPageSize(requestedSize);
            var r := AnswerPage(data, checksum, n, requestedSize);
            && 0 <= PageStart(|data|, p, n) <= PageEnd(|data|, p, n) <= |data|
            && r.Page? && r.jsonData == data[PageStart(|data|, p, n)..PageEnd(|data|, p, n)]
  {
    PageServed(data, checksum, n, requestedSize);
    PageExact(data, checksum, n, requestedSize);
  }

  lemma {:induction false} JoinedIsPrefix(data: Bytes, checksum: string, requestedSize: int32, n: nat)
    requires Transferable(data, requestedSize)
    requires n <= TotalPages(|data|, requestedSize)
    ensures var k := PageStart(|data|, HandlerPageSize(requestedSize), n);
            0 <= k <= |data| && Joined(data, checksum, requestedSize, n) == data[..k]
  {
    hide AnswerPage, TotalPages, Transferable, PageEnd;
    if n == 0 {
    } else {
      JoinedIsPrefix(data, checksum, requestedSize, n - 1);
      PageIsSlice(data, checksum, n - 1, requestedSize);
      var p := HandlerPageSize(requestedSize);
      var s, e := PageStart(|data|, p, n - 1), PageEnd(|data|, p, n - 1);
      assert data[..s] + data[s..e] == data[..e];
    }
  }

  // ---- Data longer than int32 ----

  /** The first page whose slice can only panic: the first that starts after Wrap32(length). */
  ghost function FirstBadPage(length: nat, p: int): nat
    requires p > 0
  {
    var w: int := Wrap32(length);
    if w < 0 then 0 else PageCount(w + 1, p)
  }

  /** Data too long for int32 is never completed by a sequential reader: the pages up to
      FirstBadPage are never the last ones, and FirstBadPage itself is not served. */
  lemma {:induction false} LongDataNeverCompletes(data: Bytes, checksum: string, n: int32, requestedSize: int32)
    requires |data| > MAX_INT32
    requires 0 <= n <= FirstBadPage(|data|, HandlerPageSize(requestedSize))
    ensures var r := AnswerPage(data, checksum, n, requestedSize);
            r.Page? ==> n < FirstBadPage(|data|, HandlerPageSize(requestedSize)) && n + 1 < r.totalPages
  {
    var p := HandlerPageSize(requestedSize);
    var w: int := Wrap32(|data|);
    assert |data| >= w + 0x1_0000_0000;
    if w >= 0 {
      var m: nat := n;
      BelowCount(w + 1, p, m);
      if m > 0 {
        BelowCount(w + 1, p, m - 1);
      }
      BelowCount(|data|, p, m + 1);
      assert Product(p, m + 1) == Product(p, m) + p;
    }
  }
}
