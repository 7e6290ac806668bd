/** The PDF pane's page counter and font size, as functions of their
    previous values. The document itself is represented by its page count;
    loading it and extracting page text are not modelled. */
module Viewer {

  import opened Outcomes

  /** The current page lies within the open document: it is page 0 of any
      document (a document without pages still sets page 0) or an existing
      page. With no document open the page is 0. */
  predicate PageInRange(document: Option<nat>, page: nat) {
    page == 0 || (document.Some? && page < document.value)
  }

  datatype PageTurn = Forward | Back

  /** `next_page` and `previous_page`: move by one page unless there is no
      document or the move would leave it. */
  function Turned(turn: PageTurn, document: Option<nat>, page: nat): (r: nat)
    ensures document.None? ==> r == page
    ensures PageInRange(document, page) ==> PageInRange(document, r)
    ensures turn == Forward ==> r == page || r == page + 1
    ensures turn == Back ==> r == page || r + 1 == page
  {
    match turn
    case Forward =>
      if document.Some? && page < document.value - 1 then page + 1 else page
    case Back =>
      if document.Some? && page > 0 then page - 1 else page
  }

  /** The page after a sequence of page turns, applied in order. */
  function TurnedAll(turns: seq<PageTurn>, document: Option<nat>, page: nat): nat
    decreases |turns|
  {
    if turns == [] then page else TurnedAll(turns[1..], document, Turned(turns[0], document, page))
  }

  function Repeat<T>(x: T, n: nat): (r: seq<T>)
    ensures |r| == n
    ensures forall k :: 0 <= k < n ==> r[k] == x
  {
    if n == 0 then [] else [x] + Repeat(x, n - 1)
  }

  /** No sequence of page turns leaves the document. */
  lemma {:induction false} TurnedAllInRange(turns: seq<PageTurn>, document: Option<nat>, page: nat)
    requires PageInRange(document, page)
    ensures PageInRange(document, TurnedAll(turns, document, page))
    decreases |turns|
  {
    if turns != [] {
      TurnedAllInRange(turns[1..], document, Turned(turns[0], document, page));
    }
  }

  /** Without a document the page buttons do nothing. */
  lemma {:induction false} TurnedAllWithoutDocument(turns: seq<PageTurn>, page: nat)
    ensures TurnedAll(turns, None, page) == page
    decreases |turns|
  {
    if turns != [] {
      TurnedAllWithoutDocument(turns[1..], page);
    }
  }

  /** Pressing "Next Page" n times stops at the last page. */
  lemma {:induction false} ForwardSaturates(n: nat, pages: nat, page: nat)
    requires page < pages
    ensures TurnedAll(Repeat(Forward, n), Some(pages), page) == Min(page + n, pages - 1)
    decreases n
  {
    if n > 0 {
      var r := Repeat(Forward, n);
      assert r[1..] == Repeat(Forward, n - 1);
      ForwardSaturates(n - 1, pages, Turned(Forward, Some(pages), page));
    }
  }

  /** Pressing "Previous Page" n times stops at the first page. */
  lemma {:induction false} BackSaturates(n: nat, pages: nat, page: nat)
    requires page < pages
    ensures TurnedAll(Repeat(Back, n), Some(pages), page) == Max(page - n, 0)
    decreases n
  {
    if n > 0 {
      var r := Repeat(Back, n);
      assert r[1..] == Repeat(Back, n - 1);
      BackSaturates(n - 1, pages, Turned(Back, Some(pages), page));
    }
  }

  // ---------------------------------------------------------------------
  // Font size

  const MinPointSize: int := 5
  const MaxPointSize: int := 30

  /** `QFont.setPointSize(requested)`: the font takes a positive size as
      asked, and ignores any other, keeping its size. */
  function SetPointSize(current: int, requested: int): int {
    if requested > 0 then requested else current
  }

  datatype Zoom = In | Out

  /** `zoom_in` asks for one point more below 30, `zoom_out` for one point
      less above 5. */
  function Zoomed(zoom: Zoom, size: int): (r: int)
    ensures MinPointSize <= size <= MaxPointSize ==> MinPointSize <= r <= MaxPointSize
    ensures size < 0 ==> r == size
    ensures zoom == In ==> r == size || (r == size + 1 && r <= MaxPointSize)
    ensures zoom == Out ==> r == size || (r == size - 1 && r >= MinPointSize)
  {
    match zoom
    case In => if size < MaxPointSize then SetPointSize(size, size + 1) else size
    case Out => if size > MinPointSize then SetPointSize(size, size - 1) else size
  }

  /** The point size after a sequence of zoom actions, applied in order. */
  function ZoomedAll(zooms: seq<Zoom>, size: int): int
    decreases |zooms|
  {
    if zooms == [] then size else ZoomedAll(zooms[1..], Zoomed(zooms[0], size))
  }

  /** A size within [5, 30] stays within [5, 30] whatever is pressed. */
  lemma {:induction false} ZoomedAllInRange(zooms: seq<Zoom>, size: int)
    requires MinPointSize <= size <= MaxPointSize
    ensures MinPointSize <= ZoomedAll(zooms, size) <= MaxPointSize
    decreases |zooms|
  {
    if zooms != [] {
      ZoomedAllInRange(zooms[1..], Zoomed(zooms[0], size));
    }
  }

  /** Pressing "Zoom In" n times from a size of at most 30 grows the font
      by n points, but no further than 30. */
  lemma {:induction false} ZoomInSaturates(n: nat, size: int)
    requires 0 <= size <= MaxPointSize
    ensures ZoomedAll(Repeat(In, n), size) == Min(size + n, MaxPointSize)
    decreases n
  {
    if n > 0 {
      var r := Repeat(In, n);
      assert r[1..] == Repeat(In, n - 1);
      ZoomInSaturates(n - 1, Zoomed(In, size));
    }
  }

  /** Qt reports a point size of -1 for a font sized in pixels; zooming in
      then asks for size 0, which Qt ignores, so no zoom action changes a
      negative size. */
  lemma {:induction false} NegativeSizeIsFixed(zooms: seq<Zoom>, size: int)
    requires size < 0
    ensures ZoomedAll(zooms, size) == size
    decreases |zooms|
  {
    if zooms != [] {
      NegativeSizeIsFixed(zooms[1..], size);
    }
  }
}
