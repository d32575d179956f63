/**
 * The data source of a conductor (onboarding) view: an ordered list of page
 * descriptors served one page at a time to a page-view host, which asks for
 * the page before or after the one on screen.
 *
 * The host, its gestures and the storyboard are outside this module. What is
 * left is the sequencing rule: the page at position n is the n-th descriptor
 * with one field overridden according to whether n is the last position, and
 * a neighbour exists exactly when the bounds-checked step stays inside the list.
 */
module Conductor {
  import opened Wrappers

  /**
   * One page descriptor. Only the two display flags the data source touches
   * are modelled; everything else the descriptor carries (title, text,
   * images, ...) is the uninterpreted `content`.
   */
  datatype PageData<C> = PageData(hideSkipButton: bool, advanceText: Option<string>, content: C)

  /** What a page view controller is configured with: its position and its resolved descriptor. */
  datatype Page<C> = Page(pageNumber: int, pageData: PageData<C>)

  /**
   * A view controller handed back by the host. Only a conductor page view
   * controller carries a page number; any other controller fails the downcast.
   */
  datatype Controller<C> = PageController(page: Page<C>) | OtherController

  /**
   * The page at position n, with the position-dependent override applied:
   * the last page always shows no skip button, every other page has no
   * advance text. All other fields come from pages[n] unchanged.
   */
  function Resolve<C>(pages: seq<PageData<C>>, n: int): (r: Page<C>)
    requires 0 <= n < |pages|
    ensures r.pageNumber == n
    ensures r.pageData.content == pages[n].content
    ensures n == |pages| - 1 ==>
              r.pageData.hideSkipButton && r.pageData.advanceText == pages[n].advanceText
    ensures n != |pages| - 1 ==>
              r.pageData.advanceText == None && r.pageData.hideSkipButton == pages[n].hideSkipButton
  {
    var data := pages[n];
    Page(n, if n == |pages| - 1 then data.(hideSkipButton := true) else data.(advanceText := None))
  }

  /**
   * The page before page p: none at or before the first page, otherwise the
   * resolved page p - 1. The source indexes without a bounds check, so the
   * step back must land inside the list.
   */
  function Before<C>(pages: seq<PageData<C>>, p: int): (r: Option<Page<C>>)
    requires p <= |pages|
    ensures r.Some? <==> 0 < p
    ensures r.Some? ==> r.value.pageNumber == p - 1 && 0 <= r.value.pageNumber < |pages|
    ensures r.Some? ==> r.value == Resolve(pages, r.value.pageNumber)
  {
    if p > 0 then Some(Resolve(pages, p - 1)) else None
  }

  /**
   * The page after page p: none at or past the last page (so never any for an
   * empty list), otherwise the resolved page p + 1.
   */
  function After<C>(pages: seq<PageData<C>>, p: int): (r: Option<Page<C>>)
    requires -1 <= p
    ensures r.Some? <==> p < |pages| - 1
    ensures r.Some? ==> r.value.pageNumber == p + 1 && 0 <= r.value.pageNumber < |pages|
    ensures r.Some? ==> r.value == Resolve(pages, r.value.pageNumber)
  {
    if p < |pages| - 1 then Some(Resolve(pages, p + 1)) else None
  }

  /** Stepping forward and then back, or back and then forward, returns to the same resolved page. */
  lemma StepsAreInverse<C>(pages: seq<PageData<C>>, p: int)
    requires 0 <= p < |pages|
    ensures After(pages, p).Some? ==>
              Before(pages, After(pages, p).value.pageNumber) == Some(Resolve(pages, p))
    ensures Before(pages, p).Some? ==>
              After(pages, Before(pages, p).value.pageNumber) == Some(Resolve(pages, p))
  {
  }

  /** The pages the host shows when the user keeps paging forward from page p until no successor is offered. */
  function ForwardRun<C>(pages: seq<PageData<C>>, p: int): seq<Page<C>>
    requires 0 <= p < |pages|
    decreases |pages| - p
  {
    match After(pages, p)
    case None => [Resolve(pages, p)]
    case Some(next) => [Resolve(pages, p)] + ForwardRun(pages, next.pageNumber)
  }

  /** The pages the host shows when the user keeps paging backward from page p until no predecessor is offered. */
  function BackwardRun<C>(pages: seq<PageData<C>>, p: int): seq<Page<C>>
    requires 0 <= p < |pages|
    decreases p
  {
    match Before(pages, p)
    case None => [Resolve(pages, p)]
    case Some(previous) => [Resolve(pages, p)] + BackwardRun(pages, previous.pageNumber)
  }

  /** Paging forward from p shows every later page exactly once, in order, and stops at the last one. */
  lemma {:induction false} ForwardRunShowsRest<C>(pages: seq<PageData<C>>, p: int)
    requires 0 <= p < |pages|
    ensures |ForwardRun(pages, p)| == |pages| - p
    ensures forall i :: 0 <= i < |pages| - p ==> ForwardRun(pages, p)[i] == Resolve(pages, p + i)
    decreases |pages| - p
  {
    if p < |pages| - 1 {
      ForwardRunShowsRest(pages, p + 1);
    }
  }

  /** Paging backward from p shows every earlier page exactly once, in reverse order, and stops at page 0. */
  lemma {:induction false} BackwardRunShowsStart<C>(pages: seq<PageData<C>>, p: int)
    requires 0 <= p < |pages|
    ensures |BackwardRun(pages, p)| == p + 1
    ensures forall i :: 0 <= i <= p ==> BackwardRun(pages, p)[i] == Resolve(pages, p - i)
  {
    if p > 0 {
      BackwardRunShowsStart(pages, p - 1);
    }
  }

  /**
   * A whole walk through a non-empty list from page 0: as many pages as the
   * presentation count, numbered 0 onwards, none but the last with advance
   * text, and the last without a skip button.
   */
  lemma {:induction false} WalkFromFirstPage<C>(pages: seq<PageData<C>>)
    requires |pages| > 0
    ensures |ForwardRun(pages, 0)| == |pages|
    ensures forall i :: 0 <= i < |pages| ==> ForwardRun(pages, 0)[i].pageNumber == i
    ensures forall i :: 0 <= i < |pages| - 1 ==> ForwardRun(pages, 0)[i].pageData.advanceText == None
    ensures ForwardRun(pages, 0)[|pages| - 1].pageData.hideSkipButton
  {
    ForwardRunShowsRest(pages, 0);
  }

  /**
   * Three pages, starting on the first: forward from 0 gives page 1 without
   * advance text, forward from 1 gives page 2 without a skip button and with
   * its own advance text, and there is nothing after 2 or before 0.
   */
  lemma ThreePageWalk<C>(a: C, b: C, c: C)
    ensures var pages := [PageData(false, Some("Next"), a), PageData(false, Some("Next"), b),
                          PageData(false, Some("Done"), c)];
            && After(pages, 0) == Some(Page(1, PageData(false, None, b)))
            && After(pages, 1) == Some(Page(2, PageData(true, Some("Done"), c)))
            && After(pages, 2) == None
            && Before(pages, 0) == None
  {
  }

  /**
   * The data source object. `pageData` is fixed by the initializer (its
   * setter is private to the source file and never used after init);
   * `startingPage` is public and may be changed at any time.
   */
  class ConductorDataSource<C> {
    const pageData: seq<PageData<C>>
    var startingPage: int

    constructor (pageData: seq<PageData<C>>)
      ensures this.pageData == pageData && startingPage == 0
    {
      this.pageData := pageData;
      startingPage := 0;
    }

    /** Assigns the public `startingPage` property; it is not checked against the page count. */
    method SetStartingPage(page: int)
      modifies this
      ensures startingPage == page
    {
      startingPage := page;
    }

    /**
     * Builds the controller for page `pageNumber`. `instantiated` says whether
     * the storyboard produced a conductor page view controller; when it did
     * not, nothing is indexed and nothing is returned. Otherwise a local copy
     * of the descriptor receives the override; the stored list is not written.
     */
    method ViewController(pageNumber: int, instantiated: bool) returns (vc: Option<Page<C>>)
      requires instantiated ==> 0 <= pageNumber < |pageData|
      ensures vc.Some? <==> instantiated
      ensures vc.Some? ==> vc.value == Resolve(pageData, pageNumber)
    {
      if !instantiated {
        return None;
      }
      var data := pageData[pageNumber];
      if pageNumber == |pageData| - 1 {
        data := data.(hideSkipButton := true);
      } else {
        data := data.(advanceText := None);
      }
      vc := Some(Page(pageNumber, data));
    }

    /** The controller before `current`: none unless `current` is a conductor page with a page before it. */
    method PageBefore(current: Controller<C>, instantiated: bool) returns (vc: Option<Page<C>>)
      requires current.PageController? && instantiated ==> current.page.pageNumber <= |pageData|
      ensures current.OtherController? || !instantiated ==> vc == None
      ensures current.PageController? && instantiated ==> vc == Before(pageData, current.page.pageNumber)
    {
      if current.PageController? {
        var pageNumber := current.page.pageNumber;
        if pageNumber > 0 {
          vc := ViewController(pageNumber - 1, instantiated);
          return;
        }
      }
      return None;
    }

    /** The controller after `current`: none unless `current` is a conductor page with a page after it. */
    method PageAfter(current: Controller<C>, instantiated: bool) returns (vc: Option<Page<C>>)
      requires current.PageController? && instantiated ==> -1 <= current.page.pageNumber
      ensures current.OtherController? || !instantiated ==> vc == None
      ensures current.PageController? && instantiated ==> vc == After(pageData, current.page.pageNumber)
    {
      if current.PageController? {
        var pageNumber := current.page.pageNumber;
        if pageNumber < |pageData| - 1 {
          vc := ViewController(pageNumber + 1, instantiated);
          return;
        }
      }
      return None;
    }

    /** The number of dots in the page indicator: the number of descriptors given at init. */
    method PresentationCount() returns (count: int)
      ensures count == |pageData|
    {
      count := |pageData|;
    }

    /** The page the indicator starts on: whatever `startingPage` holds, unvalidated. */
    method PresentationIndex() returns (index: int)
      ensures index == startingPage
    {
      index := startingPage;
    }
  }
}
