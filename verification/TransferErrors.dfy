/** When a continue-as-new load fails although every request is answered: the loader asks for a page
    that a smaller snapshot does not have any more. And what becomes of a load whose failed requests
    are repeated without limit, which is the default. */
module TransferErrors {
  import opened GoTypes
  import opened Paging
  import opened SnapshotTransfer

  /** Every request is answered, and every snapshot held can be served page by page. */
  ghost predicate Answered<S(!new)>(c: Codec<S>, turns: seq<Turn<S>>, requestedSize: int32) {
    && (forall i | 0 <= i < |turns| :: turns[i].Holds?)
    && (forall i | 0 <= i < |turns| :: Transferable(c.encode(turns[i].snapshot), requestedSize))
  }

  /** The loader's cursor before request i; None when the load ended before. */
  ghost function CursorAt<S>(c: Codec<S>, turns: seq<Turn<S>>, requestedSize: int32, i: nat): Option<Cursor>
    requires i <= |turns|
  {
    if i == 0 then Some(FRESH)
    else
      var before := CursorAt(c, turns, requestedSize, i - 1);
      if before.None? then None
      else
        var cur := before.value;
        var reply := Serve(c, turns[i - 1], cur.pageNum, requestedSize);
        if reply.None? || !reply.value.Page? then None
        else if Mismatch(cur, reply.value) then Some(FRESH)
        else
          var next := Accept(cur, reply.value);
          if next.pageNum >= reply.value.totalPages then None else Some(next)
  }

  /** The pages of the snapshot held at request i. */
  ghost function PagesHeld<S>(c: Codec<S>, turns: seq<Turn<S>>, requestedSize: int32, i: nat): int32
    requires i < |turns| && turns[i].Holds?
  {
    TotalPages(|c.encode(turns[i].snapshot)|, requestedSize)
  }

  /** At request i the loader asks for a page that the snapshot does not have. */
  ghost predicate AsksBeyond<S>(c: Codec<S>, turns: seq<Turn<S>>, requestedSize: int32, i: nat)
    requires i < |turns| && turns[i].Holds?
  {
    var cur := CursorAt(c, turns, requestedSize, i);
    cur.Some? && cur.value.pageNum >= PagesHeld(c, turns, requestedSize, i)
  }

  lemma {:induction false} EndedStays<S>(c: Codec<S>, turns: seq<Turn<S>>, requestedSize: int32, i: nat, k: nat)
    requires i <= k <= |turns| && CursorAt(c, turns, requestedSize, i).None?
    ensures CursorAt(c, turns, requestedSize, k).None?
    decreases k
  {
    hide Serve, Accept, Mismatch;
    if i == k {
    } else {
      EndedStays(c, turns, requestedSize, i, k - 1);
    }
  }

  /** A page below the page count is served. */
  lemma {:induction false} ServedBelow<S>(c: Codec<S>, turn: Turn<S>, pageNum: int32, requestedSize: int32)
    requires turn.Holds? && Transferable(c.encode(turn.snapshot), requestedSize) && pageNum >= 0
    ensures var reply := Serve(c, turn, pageNum, requestedSize);
            var pages := TotalPages(|c.encode(turn.snapshot)|, requestedSize);
            && reply.Some? && (reply.value.Page? <==> pageNum < pages)
            && (reply.value.Page? ==>
                  reply.value.totalPages == pages && reply.value.checksum == c.checksum(c.encode(turn.snapshot)))
  {
    if pageNum < TotalPages(|c.encode(turn.snapshot)|, requestedSize) {
      PageServed(c.encode(turn.snapshot), c.checksum(c.encode(turn.snapshot)), pageNum, requestedSize);
    }
  }

  lemma {:induction false} AsksBeyondNow<S>(c: Codec<S>, turns: seq<Turn<S>>, requestedSize: int32, i: nat, cur: Cursor)
    requires i < |turns| && turns[i].Holds? && CursorAt(c, turns, requestedSize, i) == Some(cur)
    ensures AsksBeyond(c, turns, requestedSize, i) <==> cur.pageNum >= PagesHeld(c, turns, requestedSize, i)
  {
  }

  lemma {:induction false} NotAfterTheEnd<S>(c: Codec<S>, turns: seq<Turn<S>>, requestedSize: int32, i: nat)
    requires i < |turns| && turns[i].Holds? && CursorAt(c, turns, requestedSize, i).None?
    ensures !AsksBeyond(c, turns, requestedSize, i)
  {
  }

  /** What one answered request does: an error, the end, or one more request with the next cursor. */
  lemma {:induction false} OneRequest<S(!new)>(
    c: Codec<S>, turns: seq<Turn<S>>, requestedSize: int32, i: nat, cur: Cursor)
    returns (next: Option<Cursor>)
    requires i < |turns| && Answered(c, turns, requestedSize)
    requires CursorAt(c, turns, requestedSize, i) == Some(cur) && 0 <= cur.pageNum
    ensures CursorAt(c, turns, requestedSize, i + 1) == next
    ensures AsksBeyond(c, turns, requestedSize, i) ==>
              next.None? && Load(c, turns, requestedSize, i, cur) == Error(i + 1)
    ensures !AsksBeyond(c, turns, requestedSize, i) && next.None? ==> Load(c, turns, requestedSize, i, cur).Got?
    ensures next.Some? ==>
              0 <= next.value.pageNum
                && Load(c, turns, requestedSize, i, cur) == Load(c, turns, requestedSize, i + 1, next.value)
  {
    hide Transferable, TotalPages, Serve, AsksBeyond;
    ServedBelow(c, turns[i], cur.pageNum, requestedSize);
    AsksBeyondNow(c, turns, requestedSize, i, cur);
    next := CursorAt(c, turns, requestedSize, i + 1);
  }

  /** From request i on, the loader asks at some request for a page that does not exist. */
  ghost predicate AsksBeyondFrom<S(!new)>(c: Codec<S>, turns: seq<Turn<S>>, requestedSize: int32, i: nat)
    requires forall k | 0 <= k < |turns| :: turns[k].Holds?
  {
    exists k :: i <= k < |turns| && AsksBeyond(c, turns, requestedSize, k)
  }

  lemma {:induction false} NowOrLater<S(!new)>(c: Codec<S>, turns: seq<Turn<S>>, requestedSize: int32, i: nat)
    requires i < |turns| && forall k | 0 <= k < |turns| :: turns[k].Holds?
    ensures AsksBeyondFrom(c, turns, requestedSize, i) <==>
            AsksBeyond(c, turns, requestedSize, i) || AsksBeyondFrom(c, turns, requestedSize, i + 1)
  {
    hide AsksBeyond;
  }

  lemma {:induction false} NeverAfterTheEnd<S(!new)>(c: Codec<S>, turns: seq<Turn<S>>, requestedSize: int32, i: nat)
    requires i <= |turns| && forall k | 0 <= k < |turns| :: turns[k].Holds?
    requires CursorAt(c, turns, requestedSize, i).None?
    ensures !AsksBeyondFrom(c, turns, requestedSize, i)
  {
    hide AsksBeyond, CursorAt;
    forall k | i <= k < |turns| ensures !AsksBeyond(c, turns, requestedSize, k) {
      EndedStays(c, turns, requestedSize, i, k);
      NotAfterTheEnd(c, turns, requestedSize, k);
    }
  }

  lemma {:induction false} NoRequestsLeft<S(!new)>(c: Codec<S>, turns: seq<Turn<S>>, requestedSize: int32, cur: Cursor)
    requires forall k | 0 <= k < |turns| :: turns[k].Holds?
    ensures Load(c, turns, requestedSize, |turns|, cur) == StillLoading(|turns|)
    ensures !AsksBeyondFrom(c, turns, requestedSize, |turns|)
  {
  }

  lemma {:induction false} LoadErrsExactly<S(!new)>(
    c: Codec<S>, turns: seq<Turn<S>>, requestedSize: int32, i: nat, cur: Cursor)
    requires i <= |turns| && Answered(c, turns, requestedSize)
    requires CursorAt(c, turns, requestedSize, i) == Some(cur) && 0 <= cur.pageNum
    ensures Load(c, turns, requestedSize, i, cur).Error? <==> AsksBeyondFrom(c, turns, requestedSize, i)
    decreases |turns| - i
  {
    hide Load, CursorAt, AsksBeyond, AsksBeyondFrom, Transferable;
    if i == |turns| {
      NoRequestsLeft(c, turns, requestedSize, cur);
    } else {
      var next := OneRequest(c, turns, requestedSize, i, cur);
      NowOrLater(c, turns, requestedSize, i);
      if next.Some? {
        LoadErrsExactly(c, turns, requestedSize, i + 1, next.value);
      } else {
        NeverAfterTheEnd(c, turns, requestedSize, i + 1);
      }
    }
  }

  /** The loader does not start over when the snapshot gets smaller than what it already has: the
      load fails if and only if, at some request, it asks for a page past the end. */
  lemma {:induction false} TransferErrsExactly<S(!new)>(c: Codec<S>, turns: seq<Turn<S>>, configuredSize: int32)
    requires Answered(c, turns, LoaderPageSize(configuredSize))
    ensures Transfer(c, turns, configuredSize).Error? <==>
            exists k :: 0 <= k < |turns| && AsksBeyond(c, turns, LoaderPageSize(configuredSize), k)
  {
    LoadErrsExactly(c, turns, LoaderPageSize(configuredSize), 0, FRESH);
  }

  // ---- Page counts that never drop ----

  ghost predicate NeverShrinks<S(!new)>(c: Codec<S>, turns: seq<Turn<S>>, requestedSize: int32)
    requires forall i | 0 <= i < |turns| :: turns[i].Holds?
  {
    forall i, j | 0 <= i <= j < |turns| ::
      PagesHeld(c, turns, requestedSize, i) <= PagesHeld(c, turns, requestedSize, j)
  }

  lemma {:induction false} CursorBelow<S(!new)>(c: Codec<S>, turns: seq<Turn<S>>, requestedSize: int32, i: nat)
    requires i <= |turns| && Answered(c, turns, requestedSize)
    requires NeverShrinks(c, turns, requestedSize)
    ensures var cur := CursorAt(c, turns, requestedSize, i);
            cur.Some? ==>
              || cur.value == FRESH
              || (1 <= i && 1 <= cur.value.pageNum < PagesHeld(c, turns, requestedSize, i - 1))
  {
    hide Transferable, TotalPages, Serve;
    if i == 0 {
    } else {
      CursorBelow(c, turns, requestedSize, i - 1);
      var before := CursorAt(c, turns, requestedSize, i - 1);
      if before.Some? {
        ServedBelow(c, turns[i - 1], before.value.pageNum, requestedSize);
      }
    }
  }

  lemma {:induction false} HasAPage(d: Bytes, requestedSize: int32)
    requires Transferable(d, requestedSize)
    ensures TotalPages(|d|, requestedSize) >= 1
  {
    BelowCount(|d|, HandlerPageSize(requestedSize), 0);
  }

  /** So a snapshot that only grows in pages is always received: after at most (k + 1) * N answered
      requests, where k counts the changes and N the pages needed. */
  lemma {:induction false} GrowingTransferSucceeds<S(!new)>(
    c: Codec<S>, turns: seq<Turn<S>>, configuredSize: int32, changes: nat, pages: nat)
    requires Answered(c, turns, LoaderPageSize(configuredSize)) && NonEmptyChecksums(c, turns)
    requires NeverShrinks(c, turns, LoaderPageSize(configuredSize))
    requires NeedAtMost(c, turns, LoaderPageSize(configuredSize), pages) && 1 <= pages
    requires Changes(turns, 0) <= changes && |turns| > (changes + 1) * pages
    ensures Transfer(c, turns, configuredSize).Got?
        && Transfer(c, turns, configuredSize).requests <= (changes + 1) * pages
  {
    var size := LoaderPageSize(configuredSize);
    TransferErrsExactly(c, turns, configuredSize);
    forall k | 0 <= k < |turns| ensures !AsksBeyond(c, turns, size, k) {
      CursorBelow(c, turns, size, k);
      HasAPage(c.encode(turns[k].snapshot), size);
      assert k > 0 ==> PagesHeld(c, turns, size, k - 1) <= PagesHeld(c, turns, size, k);
    }
    TransferStops(c, turns, configuredSize, changes, pages);
  }

  /** Two bytes while b, one byte otherwise. */
  const TWO_OR_ONE: Codec<bool> :=
    Codec(b => if b then [1, 0] else [0], d => Some(|d| == 2), d => if |d| == 2 then "two" else "one")

  lemma {:induction false} TwoAndOnePages(two: Bytes, one: Bytes, size: int32)
    requires |two| == 2 && |one| == 1 && size == 1
    ensures Transferable(two, size) && Transferable(one, size)
    ensures AnswerPage(two, "two", 0, size) == Page("two", 2, [two[0]])
    ensures AnswerPage(one, "one", 1, size) == WrongPage
  {
    SmallIsTransferable(two, size);
    SmallIsTransferable(one, size);
    var p := HandlerPageSize(size);
    PageCountIsCeil(|two|, p);
    PageCountIsCeil(|one|, p);
    ProductIsTimes(p, 1);
    ProductIsTimes(p, 0);
    hide Product, PageCount, Transferable;
    PageExact(two, "two", 0, size);
  }

  /** The failing input: the first page of two is received, then the snapshot shrinks to one page. */
  lemma {:induction false} ShrinkingSnapshotFails()
    ensures var turns := [Holds(true), Holds(false), Holds(false), Holds(false)];
            && Answered(TWO_OR_ONE, turns, 1) && RoundTrips(TWO_OR_ONE, turns)
            && NonEmptyChecksums(TWO_OR_ONE, turns) && CollisionFree(TWO_OR_ONE, turns)
            && Transfer(TWO_OR_ONE, turns, 1) == Error(2)
  {
    hide AnswerPage, Transferable, Load;
    var turns := [Holds(true), Holds(false), Holds(false), Holds(false)];
    TwoAndOnePages([1, 0], [0], 1);
    assert TWO_OR_ONE.encode(true) == [1, 0] && TWO_OR_ONE.encode(false) == [0];
    var cur := Cursor(1, "two", [1]);
    assert Accept(FRESH, Page("two", 2, [1])) == cur;
    LoadOnce(TWO_OR_ONE, turns, 1, 0, FRESH);
    LoadOnce(TWO_OR_ONE, turns, 1, 1, cur);
  }

  /** One step of the definition. */
  lemma {:induction false} LoadOnce<S>(c: Codec<S>, turns: seq<Turn<S>>, requestedSize: int32, i: nat, cur: Cursor)
    requires i < |turns|
    ensures var reply := Serve(c, turns[i], cur.pageNum, requestedSize);
            && (reply.None? || !reply.value.Page? ==> Load(c, turns, requestedSize, i, cur) == Error(i + 1))
            && (reply.Some? && reply.value.Page? && !Mismatch(cur, reply.value) &&
                Accept(cur, reply.value).pageNum < reply.value.totalPages ==>
                  Load(c, turns, requestedSize, i, cur) ==
                    Load(c, turns, requestedSize, i + 1, Accept(cur, reply.value)))
  {
  }

  // ---- Unlimited attempts ----

  /** The page asked for at request i is not served: an error of the request or of the handler, or
      its panic. */
  predicate NotServed<S>(c: Codec<S>, turn: Turn<S>, pageNum: int32, requestedSize: int32) {
    var reply := Serve(c, turn, pageNum, requestedSize);
    reply.None? || !reply.value.Page?
  }

  /** The load when a request that fails is made again, until it succeeds: turn i is one attempt. */
  ghost function LoadRetrying<S>(c: Codec<S>, turns: seq<Turn<S>>, requestedSize: int32, i: nat, cur: Cursor): Outcome
    requires i <= |turns|
    decreases |turns| - i
  {
    if i == |turns| then StillLoading(i)
    else if NotServed(c, turns[i], cur.pageNum, requestedSize) then LoadRetrying(c, turns, requestedSize, i + 1, cur)
    else
      var page := Serve(c, turns[i], cur.pageNum, requestedSize).value;
      if Mismatch(cur, page) then LoadRetrying(c, turns, requestedSize, i + 1, FRESH)
      else
        var next := Accept(cur, page);
        if next.pageNum >= page.totalPages then Got(next.received, i + 1)
        else LoadRetrying(c, turns, requestedSize, i + 1, next)
  }

  /** Without failures the attempts do not matter. */
  lemma {:induction false} RetryingAgrees<S>(
    c: Codec<S>, turns: seq<Turn<S>>, requestedSize: int32, i: nat, cur: Cursor)
    requires i <= |turns| && !Load(c, turns, requestedSize, i, cur).Error?
    ensures LoadRetrying(c, turns, requestedSize, i, cur) == Load(c, turns, requestedSize, i, cur)
    decreases |turns| - i
  {
    hide Serve;
    if i == |turns| {
    } else {
      var page := Serve(c, turns[i], cur.pageNum, requestedSize).value;
      if Mismatch(cur, page) {
        RetryingAgrees(c, turns, requestedSize, i + 1, FRESH);
      } else if Accept(cur, page).pageNum < page.totalPages {
        RetryingAgrees(c, turns, requestedSize, i + 1, Accept(cur, page));
      }
    }
  }

  /** With failures, whatever the environment does: the data is still one snapshot, as a whole, that
      the server held at one of the attempts. */
  lemma {:induction false} RetryingIsOneSnapshot<S(!new)>(
    c: Codec<S>, turns: seq<Turn<S>>, requestedSize: int32, i: nat, cur: Cursor, seen: nat)
    returns (j: nat)
    requires i <= |turns|
    requires NonEmptyChecksums(c, turns) && CollisionFree(c, turns)
    requires || cur == FRESH
             || (seen < i && turns[seen].Holds? && Consistent(c, cur, c.encode(turns[seen].snapshot), requestedSize))
    ensures var o := LoadRetrying(c, turns, requestedSize, i, cur);
            && !o.Error? && i <= o.requests <= |turns|
            && (o.Got? ==> j < o.requests && turns[j].Holds? && c.encode(turns[j].snapshot) == o.data)
    decreases |turns| - i
  {
    hide AnswerPage, Partial;
    j := i;
    if i == |turns| {
    } else if NotServed(c, turns[i], cur.pageNum, requestedSize) {
      j := RetryingIsOneSnapshot(c, turns, requestedSize, i + 1, cur, seen);
    } else {
      assert Holds(turns[i].snapshot) in turns;
      var d := c.encode(turns[i].snapshot);
      var page := AnswerPage(d, c.checksum(d), cur.pageNum, requestedSize);
      PageFacts(d, c.checksum(d), cur.pageNum, requestedSize);
      if Mismatch(cur, page) {
        j := RetryingIsOneSnapshot(c, turns, requestedSize, i + 1, FRESH, i);
      } else {
        assert cur != FRESH ==> c.encode(turns[seen].snapshot) == d by {
          assert cur != FRESH ==> Holds(turns[seen].snapshot) in turns;
        }
        AcceptKeepsPartial(d, c.checksum(d), requestedSize, cur);
        var next := Accept(cur, page);
        if next.pageNum < page.totalPages {
          j := RetryingIsOneSnapshot(c, turns, requestedSize, i + 1, next, i);
        }
      }
    }
  }

  /** The load stays at a request for as long as its page is not served, and goes on with the same
      cursor when it is. */
  lemma {:induction false} StaysAtItsRequest<S>(
    c: Codec<S>, turns: seq<Turn<S>>, requestedSize: int32, i: nat, k: nat, cur: Cursor)
    requires i <= k <= |turns|
    requires forall j | i <= j < k :: NotServed(c, turns[j], cur.pageNum, requestedSize)
    ensures LoadRetrying(c, turns, requestedSize, i, cur) == LoadRetrying(c, turns, requestedSize, k, cur)
    decreases k - i
  {
    hide NotServed;
    if i == k {
    } else {
      StaysAtItsRequest(c, turns, requestedSize, i + 1, k, cur);
    }
  }

  /** The schedule of ShrinkingSnapshotFails, when the closed run keeps its short snapshot: with
      unlimited attempts the load never ends. */
  lemma {:induction false} ShrunkenSnapshotHangs(n: nat)
    ensures var turns := [Holds(true)] + seq(n, _ => Holds(false));
            LoadRetrying(TWO_OR_ONE, turns, 1, 0, FRESH) == StillLoading(n + 1)
  {
    hide AnswerPage, LoadRetrying;
    var turns := [Holds(true)] + seq(n, _ => Holds(false));
    TwoAndOnePages([1, 0], [0], 1);
    assert TWO_OR_ONE.encode(true) == [1, 0] && TWO_OR_ONE.encode(false) == [0];
    var cur := Cursor(1, "two", [1]);
    assert Accept(FRESH, Page("two", 2, [1])) == cur;
    FirstPageServed(turns, cur);
    StaysAtItsRequest(TWO_OR_ONE, turns, 1, 1, n + 1, cur);
    NoAttemptsLeft(TWO_OR_ONE, turns, 1, cur);
  }

  lemma {:induction false} FirstPageServed(turns: seq<Turn<bool>>, cur: Cursor)
    requires turns != [] && !NotServed(TWO_OR_ONE, turns[0], 0, 1)
    requires var page := Serve(TWO_OR_ONE, turns[0], 0, 1).value;
             cur == Accept(FRESH, page) && cur.pageNum < page.totalPages
    ensures LoadRetrying(TWO_OR_ONE, turns, 1, 0, FRESH) == LoadRetrying(TWO_OR_ONE, turns, 1, 1, cur)
  {
  }

  lemma {:induction false} NoAttemptsLeft<S>(c: Codec<S>, turns: seq<Turn<S>>, requestedSize: int32, cur: Cursor)
    ensures LoadRetrying(c, turns, requestedSize, |turns|, cur) == StillLoading(|turns|)
  {
  }
}
