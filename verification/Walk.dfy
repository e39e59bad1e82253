/**
 Following cursors. A client reads the first page, then each next page with the cursor of the one
 before, while the journal grows between reads.
 */
module Walk {
  import opened Basics
  import opened Cursor
  import opened Paging
  import opened PageText
  import opened Snapshot

  /** Page `i` is read from store `i`, with the cursor of the page before; every store extends the one before. */
  ghost predicate Follows(q: Request, at: Option<int>, stores: seq<Store>, pages: seq<Page>) {
    && |stores| == |pages| > 0 && Valid(stores[0])
    && ReadPage(q, stores[0], None, at) == Ok(pages[0])
    && forall j {:trigger stores[j]} :: 0 < j < |stores| ==>
         Extends(stores[j - 1], stores[j]) && ReadsOn(q, at, pages[j - 1], stores[j], pages[j])
  }

  ghost predicate ReadsOn(q: Request, at: Option<int>, page: Page, s: Store, next: Page) {
    page.nextKey.Some? && ReadPage(q, s, page.nextKey, at) == Ok(next)
  }

  /** The sequence pinned by the first read. */
  function Bound(s: Store, at: Option<int>): int {
    if at.None? then s.latest else at.value
  }

  function Gathered(pages: seq<Page>): seq<Row> {
    if pages == [] then [] else Gathered(pages[..|pages| - 1]) + pages[|pages| - 1].items
  }

  function FrameAt(q: Request, bound: int): Frame {
    FrameOf(q.codec, q.schemaVersion, bound, q.job, q.collection)
  }

  /**
   What a read that goes on after the first `m` rows of the view may return: a refused cursor just when the payload of
   the last key is over 6141 octets (so the cursor is over 8192 characters), an error just when the next row does
   not fit a page by itself, and otherwise a page that starts at row `m` and is not empty while rows are left.
   */
  ghost predicate NextOutcome(q: Request, bound: int, view: seq<Row>, m: nat, r: Result<Page, ReadError>)
    requires 0 < m <= |view|
  {
    if |q.codec.dumps(q.job, q.collection, bound, view[m - 1].key)| > 6141 then r == Err(CursorRefused)
    else NextPage(q, bound, view, m, r)
  }

  ghost predicate NextPage(q: Request, bound: int, view: seq<Row>, m: nat, r: Result<Page, ReadError>)
    requires 0 < m <= |view|
  {
    var f := FrameAt(q, bound);
    match r
    case Ok(page) => exists n: nat :: Covers(f, view, m, n, page)
    case Err(e) => e == PageFailed(RowTooLarge) && m < |view| && !Fits(f, Take(view[m..], FETCH), q.limit)(1)
  }

  /** Reading on from the `m`-th row of a view that is still the view of the current store. */
  lemma ReadNext(q: Request, s: Store, bound: int, m: nat, at: Option<int>)
    requires q.codec.Lawful() && Valid(s) && Readable(s, bound)
    requires 0 <= bound <= s.latest && (at.None? || at.value == bound)
    requires 0 < m <= |View(s, bound)|
    requires Size(FrameAt(q, bound), [], false) <= q.limit
    ensures
      var cursor := FrameAt(q, bound).continuation(View(s, bound)[m - 1].key);
      NextOutcome(q, bound, View(s, bound), m, ReadPage(q, s, Some(cursor), at))
  {
    var key := View(s, bound)[m - 1].key;
    CursorRoundTrip(q.codec, q.job, q.collection, bound, key, s.latest, q.job, q.collection, at);
    if |q.codec.dumps(q.job, q.collection, bound, key)| <= 6141 {
      ReadAtKey(q, s, bound, m, FrameAt(q, bound).continuation(key), at);
    }
  }

  /** What is read once the cursor has been accepted. */
  lemma ReadAtKey(q: Request, s: Store, bound: int, m: nat, cursor: string, at: Option<int>)
    requires Valid(s) && Readable(s, bound) && 0 <= bound <= s.latest && 0 < m <= |View(s, bound)|
    requires Size(FrameAt(q, bound), [], false) <= q.limit
    requires DecodeCursor(q.codec, s.latest, q.job, q.collection, Some(cursor), at)
      == Ok((Some(View(s, bound)[m - 1].key), bound))
    ensures NextPage(q, bound, View(s, bound), m, ReadPage(q, s, Some(cursor), at))
  {
    RowsAfterKey(s, bound, m - 1);
    ViewKeys(s, bound);
    CutAtOffset(FrameAt(q, bound), q.limit, View(s, bound), m);
  }

  /**
   The outcomes of a first read: of an unknown sequence, of rows that share a key, of too small a limit, or a page.
   */
  ghost predicate FirstOutcome(q: Request, s: Store, bound: int, r: Result<Page, ReadError>) {
    var f := FrameAt(q, bound);
    if bound < 0 || s.latest < bound then r == Err(UnknownSequence)
    else if !Readable(s, bound) then r == Err(PageFailed(DuplicateKey))
    else if Size(f, [], false) > q.limit then r == Err(PageFailed(EnvelopeTooLarge))
    else
      match r
      case Ok(page) => exists n: nat :: Covers(f, View(s, bound), 0, n, page)
      case Err(e) =>
        e == PageFailed(RowTooLarge) && View(s, bound) != [] && !Fits(f, Take(View(s, bound), FETCH), q.limit)(1)
  }

  lemma FirstRead(q: Request, s: Store, at: Option<int>)
    requires Valid(s)
    ensures FirstOutcome(q, s, Bound(s, at), ReadPage(q, s, None, at))
  {
    var bound := Bound(s, at);
    var view := View(s, bound);
    if 0 <= bound <= s.latest && Readable(s, bound) {
      ViewKeys(s, bound);
      assert view[0..] == view;
      CutAtOffset(FrameAt(q, bound), q.limit, view, 0);
    }
  }

  /** A first read that succeeds starts the view of its own store. */
  lemma ReadFirst(q: Request, s: Store, at: Option<int>)
    requires Valid(s) && ReadPage(q, s, None, at).Ok?
    ensures
      var bound := Bound(s, at);
      && 0 <= bound <= s.latest && Readable(s, bound)
      && Size(FrameAt(q, bound), [], false) <= q.limit
      && exists n: nat :: Covers(FrameAt(q, bound), View(s, bound), 0, n, ReadPage(q, s, None, at).value)
  {
    var bound := Bound(s, at);
    var view := View(s, bound);
    ViewKeys(s, bound);
    assert view[0..] == view;
    CutAtOffset(FrameAt(q, bound), q.limit, view, 0);
  }

  // ----- pages that continue each other, whatever the frame -----

  /** If the first page stopped after row `m` of the view, the next one starts there. */
  ghost predicate Continues(f: Frame, view: seq<Row>, page: Page, next: Page) {
    page.nextKey.Some? &&
    forall m: nat :: StopsAt(f, view, m, page) ==> exists n: nat :: Covers(f, view, m, n, next)
  }

  ghost predicate StopsAt(f: Frame, view: seq<Row>, m: nat, page: Page) {
    0 < m <= |view| && page.nextKey == Some(f.continuation(view[m - 1].key))
  }

  ghost predicate Chained(f: Frame, view: seq<Row>, pages: seq<Page>) {
    && pages != [] && (exists n: nat :: Covers(f, view, 0, n, pages[0]))
    && forall j {:trigger pages[j]} :: 0 < j < |pages| ==> Continues(f, view, pages[j - 1], pages[j])
  }

  /** The rows gathered are the first `m` of the view, and the last page says whether that is all. */
  ghost predicate Progress(f: Frame, view: seq<Row>, m: nat, pages: seq<Page>)
    requires pages != []
  {
    var next := pages[|pages| - 1].nextKey;
    && m <= |view| && Gathered(pages) == view[..m]
    && (m == |view| ==> next == None)
    && (m < |view| ==> m > 0 && next == Some(f.continuation(view[m - 1].key)))
  }

  lemma {:induction false} ChainProgress(f: Frame, view: seq<Row>, pages: seq<Page>) returns (m: nat)
    requires Chained(f, view, pages)
    ensures Progress(f, view, m, pages)
    decreases |pages|
  {
    var last := |pages| - 1;
    if last == 0 {
      var n: nat :| Covers(f, view, 0, n, pages[0]);
      assert Gathered(pages[..0]) == [];
      m := n;
    } else {
      var front := pages[..last];
      ChainFront(f, view, pages);
      var k := ChainProgress(f, view, front);
      assert front[last - 1] == pages[last - 1];
      m := NextProgress(f, view, k, pages);
    }
  }

  lemma ChainFront(f: Frame, view: seq<Row>, pages: seq<Page>)
    requires Chained(f, view, pages) && |pages| > 1
    ensures Chained(f, view, pages[..|pages| - 1])
    ensures Continues(f, view, pages[|pages| - 2], pages[|pages| - 1])
  {
    var front := pages[..|pages| - 1];
    forall j {:trigger front[j]} | 0 < j < |front| ensures Continues(f, view, front[j - 1], front[j]) {
      assert front[j] == pages[j] && front[j - 1] == pages[j - 1];
    }
    assert pages[|pages| - 1] == pages[|pages| - 1];
  }

  lemma NextProgress(f: Frame, view: seq<Row>, k: nat, pages: seq<Page>) returns (m: nat)
    requires |pages| > 1 && Progress(f, view, k, pages[..|pages| - 1])
    requires Continues(f, view, pages[|pages| - 2], pages[|pages| - 1])
    ensures Progress(f, view, m, pages)
  {
    var last := |pages| - 1;
    assert pages[..last][last - 1] == pages[last - 1];
    assert StopsAt(f, view, k, pages[last - 1]);
    var n: nat :| Covers(f, view, k, n, pages[last]);
    assert view[..k] + view[k..k + n] == view[..k + n];
    m := k + n;
  }

  // ----- the walk -----

  lemma StepContinues(q: Request, at: Option<int>, first: Store, s: Store, bound: int, page: Page, next: Page)
    requires q.codec.Lawful() && Extends(first, s) && Readable(first, bound)
    requires 0 <= bound <= first.latest && (at.None? || at.value == bound)
    requires Size(FrameAt(q, bound), [], false) <= q.limit
    requires ReadsOn(q, at, page, s, next)
    ensures Continues(FrameAt(q, bound), View(first, bound), page, next)
  {
    var f, view := FrameAt(q, bound), View(first, bound);
    ViewIsStable(first, s, bound);
    forall m: nat | StopsAt(f, view, m, page)
      ensures exists n: nat :: Covers(f, view, m, n, next)
    {
      ReadNext(q, s, bound, m, at);
    }
  }

  lemma WalkProgress(q: Request, at: Option<int>, stores: seq<Store>, pages: seq<Page>) returns (m: nat)
    requires q.codec.Lawful() && Follows(q, at, stores, pages)
    ensures
      var bound := Bound(stores[0], at);
      && 0 <= bound <= stores[0].latest && Readable(stores[0], bound)
      && Size(FrameAt(q, bound), [], false) <= q.limit
      && Progress(FrameAt(q, bound), View(stores[0], bound), m, pages)
  {
    var bound := Bound(stores[0], at);
    ReadFirst(q, stores[0], at);
    forall j | 0 < j < |pages|
      ensures Continues(FrameAt(q, bound), View(stores[0], bound), pages[j - 1], pages[j])
    {
      ExtendsRun(stores, j);
      StepContinues(q, at, stores[0], stores[j], bound, pages[j - 1], pages[j]);
    }
    m := ChainProgress(FrameAt(q, bound), View(stores[0], bound), pages);
  }

  /**
   A walk that has reached a page without a cursor has returned every row of the collection, once and
   in order, as it was at the pinned sequence, although each page was read from a longer journal.
   */
  lemma WalkReturnsSnapshot(q: Request, at: Option<int>, stores: seq<Store>, pages: seq<Page>)
    requires q.codec.Lawful() && Follows(q, at, stores, pages)
    requires pages[|pages| - 1].nextKey.None?
    ensures Gathered(pages) == View(stores[0], Bound(stores[0], at))
    ensures Distinct(Keys(Gathered(pages)))
  {
    var m := WalkProgress(q, at, stores, pages);
    var view := View(stores[0], Bound(stores[0], at));
    assert view[..m] == view;
    ViewKeys(stores[0], Bound(stores[0], at));
  }

  /**
   The same by the table alone. Without `at`, a walk of a collection that is not keyed returns every row that the
   table held at the first read; a walk as of a sequence returns the rows written up to it; and of a keyed
   collection, the rows written last for their keys by then.
   */
  lemma WalkReturnsRows(q: Request, at: Option<int>, stores: seq<Store>, pages: seq<Page>)
    returns (p: nat)
    requires q.codec.Lawful() && Follows(q, at, stores, pages)
    requires pages[|pages| - 1].nextKey.None?
    ensures SplitsAt(stores[0].table, Bound(stores[0], at), p)
    ensures !stores[0].keyed ==> Gathered(pages) == RowsOf(stores[0].table[..p])
    ensures !stores[0].keyed && at.None? ==> Gathered(pages) == RowsOf(stores[0].table)
    ensures stores[0].keyed ==> forall k, text ::
      Row(k, text) in Gathered(pages) <==> exists i :: LastBy(stores[0].table, Bound(stores[0], at), i, k, text)
  {
    var bound := Bound(stores[0], at);
    WalkReturnsSnapshot(q, at, stores, pages);
    p := Splits(stores[0].table, bound);
    if !stores[0].keyed {
      ViewIsPrefix(stores[0], bound, p);
      if at.None? { LatestViewIsTable(stores[0]); }
    } else {
      forall k, text ensures Row(k, text) in Gathered(pages) <==> exists i :: LastBy(stores[0].table, bound, i, k, text)
      {
        KeyedViewShowsLast(stores[0], bound, k, text);
      }
    }
  }

  /**
   The only ways a walk can stop early are those of `NextOutcome`: a cursor that is too long, or a row that does not
   fit. Otherwise the next read, from any longer journal, returns at least one further row of the same view.
   */
  lemma WalkStopsOnlyFor(q: Request, at: Option<int>, stores: seq<Store>, pages: seq<Page>, later: Store)
    requires q.codec.Lawful() && Follows(q, at, stores, pages)
    requires Extends(stores[|stores| - 1], later)
    requires pages[|pages| - 1].nextKey.Some?
    ensures
      var bound := Bound(stores[0], at);
      var view, m := View(stores[0], bound), |Gathered(pages)|;
      && 0 < m < |view|
      && NextOutcome(q, bound, view, m, ReadPage(q, later, pages[|pages| - 1].nextKey, at))
  {
    var m := WalkProgress(q, at, stores, pages);
    var bound := Bound(stores[0], at);
    ExtendsRun(stores, |stores| - 1);
    ExtendsTrans(stores[0], stores[|stores| - 1], later);
    ViewIsStable(stores[0], later, bound);
    ReadNext(q, later, bound, m, at);
  }

  lemma ExtendsTrans(a: Store, b: Store, c: Store)
    requires Extends(a, b) && Extends(b, c)
    ensures Extends(a, c)
  {
  }
}
