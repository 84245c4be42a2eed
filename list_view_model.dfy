/**
 * `PokemonListViewModel`
 * (PokemonApp/Presentation/Features/PokemonList/PokemonListViewModel.swift):
 * the paginated list, its single-flight load gate, the lookahead trigger
 * for the next page, opening a detail and pull-to-refresh.
 *
 * The use cases are oracles: `fetch` answers a (limit, offset) request,
 * `fetchDetail` a name, `preload` a list of sprite URLs. Every request
 * made is appended to a log, so the requests are observable.
 *
 * Each method of the class is tied to a step function on `ListState`;
 * the properties are stated on the step functions.
 */
module ListViewModel {
  import opened Base
  import opened Text
  import opened Errors
  import opened Entities

  /** `pageSize`. */
  const PageSize: int := 20

  /** How close to the end of `items` the shown row must be to load the next page. */
  const Lookahead: int := 5

  /** A request made on a use case. */
  datatype Call = FetchPage(limit: int, offset: int) | FetchDetail(name: string) | Preload(urls: seq<Url>)

  /** The list use case `fetchPage(limit:offset:)`. */
  type PageSource = (int, int) -> Result<seq<Summary>, Error>

  /** Every field of the view model, and the requests it has made. */
  datatype ListState = ListState(
    items: seq<Summary>,
    isLoading: bool,
    isRefreshing: bool,
    isPaging: bool,
    error: Option<string>,
    navigationDetail: Option<Detail>,
    openingId: Option<int>,
    page: int,
    endReached: bool,
    isLoadingGate: bool,
    calls: seq<Call>)

  /** The state `init` leaves. */
  function Initial(): (s: ListState)
    ensures Inv(s) && Idle(s) && s.calls == []
  {
    ListState([], false, false, false, None, None, None, 0, false, false, [])
  }

  /** The cursor invariant: before the first page arrives there are no items and no end. */
  predicate Inv(s: ListState)
  {
    s.page >= 0 && (s.page == 0 ==> s.items == [] && !s.endReached)
  }

  /** No operation is in progress. */
  predicate Idle(s: ListState)
  {
    !s.isLoadingGate && !s.isLoading && !s.isPaging && !s.isRefreshing && s.openingId.None?
  }

  /** The offset the next load requests. */
  function Offset(page: int): int
  {
    page * PageSize
  }

  /**
   * `load(reset:)`. With the gate held nothing happens. Otherwise a reset
   * first clears the cursor and the items; one page is requested at the
   * cursor; a success appends it, records whether it was short and
   * advances the cursor by one; a failure only records the humanized
   * error. The gate and both progress flags end cleared.
   */
  function LoadStep(s: ListState, reset: bool, fetch: PageSource): (r: ListState)
    ensures s.isLoadingGate ==> r == s
    ensures !s.isLoadingGate ==> !r.isLoadingGate && !r.isLoading && !r.isPaging
    ensures !s.isLoadingGate ==>
      r.calls == s.calls + [FetchPage(PageSize, if reset then 0 else Offset(s.page))]
    ensures r.isRefreshing == s.isRefreshing && r.navigationDetail == s.navigationDetail
    ensures r.openingId == s.openingId
  {
    if s.isLoadingGate then s else Finish(Begin(s, reset), fetch)
  }

  /** The first half of `load` once the gate is free: take the gate, and reset or mark paging. */
  function Begin(s: ListState, reset: bool): ListState
  {
    if reset then s.(isLoadingGate := true, page := 0, endReached := false, items := [], isLoading := true)
    else s.(isLoadingGate := true, isPaging := true)
  }

  /**
   * The second half: request the page at the cursor, let its answer
   * settle the list fields, then run the `defer` blocks.
   */
  function Finish(s: ListState, fetch: PageSource): ListState
  {
    var outcome := fetch(PageSize, Offset(s.page));
    ListState(
      items := if outcome.Ok? then s.items + outcome.value else s.items,
      isLoading := false,
      isRefreshing := s.isRefreshing,
      isPaging := false,
      error := if outcome.Ok? then s.error else Some(Humanize(outcome.error)),
      navigationDetail := s.navigationDetail,
      openingId := s.openingId,
      page := if outcome.Ok? then s.page + 1 else s.page,
      endReached := if outcome.Ok? then |outcome.value| < PageSize else s.endReached,
      isLoadingGate := false,
      calls := s.calls + [FetchPage(PageSize, Offset(s.page))])
  }

  /**
   * What a load with the gate free does with the page: a success appends
   * it after the (possibly reset) items, records whether it was short and
   * advances the cursor by one; a failure keeps items, cursor and end flag
   * as they were just before the fetch and records the humanized error.
   */
  lemma LoadOutcome(s: ListState, reset: bool, fetch: PageSource)
    requires !s.isLoadingGate
    ensures var r := LoadStep(s, reset, fetch);
      var page := if reset then 0 else s.page;
      var items := if reset then [] else s.items;
      var endReached := if reset then false else s.endReached;
      match fetch(PageSize, Offset(page))
      case Ok(batch) =>
        r.items == items + batch && r.endReached == (|batch| < PageSize) && r.page == page + 1
        && r.error == s.error
      case Err(e) =>
        r.items == items && r.endReached == endReached && r.page == page
        && r.error == Some(Humanize(e))
  {
  }

  /** `items.firstIndex(of:)`. */
  function FirstIndex(xs: seq<Summary>, x: Summary): (r: Option<nat>)
    ensures r.None? <==> x !in xs
    ensures r.Some? ==> r.value < |xs| && xs[r.value] == x && x !in xs[..r.value]
  {
    if xs == [] then None
    else if xs[0] == x then Some(0)
    else
      match FirstIndex(xs[1..], x)
      case None => None
      case Some(k) =>
        assert xs[..k + 1] == [xs[0]] + xs[1..][..k];
        Some(k + 1)
  }

  /** The row shown is among the last `Lookahead` items and more pages may follow. */
  predicate NearEnd(s: ListState, item: Summary)
  {
    !s.endReached && item in s.items && FirstIndex(s.items, item).value >= |s.items| - Lookahead
  }

  /** `loadNextIfNeeded(current:)`: a non-reset load when the row is near the end, else nothing. */
  function LoadNextStep(s: ListState, item: Summary, fetch: PageSource): (r: ListState)
    ensures !NearEnd(s, item) ==> r == s
    ensures NearEnd(s, item) ==> r == LoadStep(s, false, fetch)
  {
    if s.endReached then s
    else
      match FirstIndex(s.items, item)
      case None => s
      case Some(idx) => if idx >= |s.items| - Lookahead then LoadStep(s, false, fetch) else s
  }

  /**
   * `openDetail(_:)`. While another opening is in progress nothing
   * happens. Otherwise the detail is fetched by name and, only if that
   * succeeds, its sprites are preloaded; navigation is set only when both
   * succeed, and a failure of either records the humanized error.
   */
  function OpenDetailStep(
    s: ListState, item: Summary,
    fetchDetail: string -> Result<Detail, Error>,
    preload: seq<Url> -> Outcome<Error>): (r: ListState)
    ensures s.openingId.Some? ==> r == s
    ensures r.openingId.None? <==> s.openingId.None?
    ensures r.navigationDetail != s.navigationDetail ==>
      fetchDetail(item.name).Ok? && preload(fetchDetail(item.name).value.spriteURLs).Pass?
      && r.navigationDetail == Some(fetchDetail(item.name).value)
    ensures (s.openingId.None? && fetchDetail(item.name).Ok?
             && preload(fetchDetail(item.name).value.spriteURLs).Pass?) ==>
      r.navigationDetail == Some(fetchDetail(item.name).value) && r.error == s.error
    ensures s.openingId.None? && fetchDetail(item.name).Err? ==>
      r.calls == s.calls + [FetchDetail(item.name)] && r.error == Some(Humanize(fetchDetail(item.name).error))
    ensures s.openingId.None? && fetchDetail(item.name).Ok? ==>
      r.calls == s.calls + [FetchDetail(item.name), Preload(fetchDetail(item.name).value.spriteURLs)]
    ensures (s.openingId.None? && fetchDetail(item.name).Ok?
             && preload(fetchDetail(item.name).value.spriteURLs).Fail?) ==>
      r.navigationDetail == s.navigationDetail
      && r.error == Some(Humanize(preload(fetchDetail(item.name).value.spriteURLs).error))
    ensures r.items == s.items && r.page == s.page && r.endReached == s.endReached
    ensures r.isLoadingGate == s.isLoadingGate && r.isRefreshing == s.isRefreshing
  {
    if s.openingId.Some? then s
    else
      match fetchDetail(item.name)
      case Err(e) => s.(error := Some(Humanize(e)), calls := s.calls + [FetchDetail(item.name)])
      case Ok(detail) =>
        var calls := s.calls + [FetchDetail(item.name), Preload(detail.spriteURLs)];
        match preload(detail.spriteURLs)
        case Fail(e) => s.(error := Some(Humanize(e)), calls := calls)
        case Pass => s.(navigationDetail := Some(detail), calls := calls)
  }

  /** `userRefresh()`: a reset load, unless a refresh is already running; the flag ends cleared. */
  function RefreshStep(s: ListState, fetch: PageSource): (r: ListState)
    ensures s.isRefreshing ==> r == s
    ensures !s.isRefreshing ==> !r.isRefreshing
    ensures !s.isRefreshing ==> r == LoadStep(s.(isRefreshing := true), true, fetch).(isRefreshing := false)
  {
    if s.isRefreshing then s
    else LoadStep(s.(isRefreshing := true), true, fetch).(isRefreshing := false)
  }

  /** Every operation keeps the cursor invariant. */
  lemma InvPreserved(
    s: ListState, reset: bool, item: Summary, fetch: PageSource,
    fetchDetail: string -> Result<Detail, Error>, preload: seq<Url> -> Outcome<Error>)
    requires Inv(s)
    ensures Inv(LoadStep(s, reset, fetch))
    ensures Inv(LoadNextStep(s, item, fetch))
    ensures Inv(OpenDetailStep(s, item, fetchDetail, preload))
    ensures Inv(RefreshStep(s, fetch))
  {
    assert Inv(LoadStep(s.(isRefreshing := true), true, fetch));
  }

  /** Starting idle, every operation ends idle. */
  lemma IdlePreserved(
    s: ListState, reset: bool, item: Summary, fetch: PageSource,
    fetchDetail: string -> Result<Detail, Error>, preload: seq<Url> -> Outcome<Error>)
    requires Idle(s)
    ensures Idle(LoadStep(s, reset, fetch))
    ensures Idle(LoadNextStep(s, item, fetch))
    ensures Idle(OpenDetailStep(s, item, fetchDetail, preload))
    ensures Idle(RefreshStep(s, fetch))
  {
  }

  /**
   * The next page is requested exactly when the gate is free, the end is
   * not reached, the row is in the list and its first index is within the
   * last five.
   */
  lemma LoadNextRequestsIff(s: ListState, item: Summary, fetch: PageSource)
    ensures |LoadNextStep(s, item, fetch).calls| > |s.calls| <==>
      !s.isLoadingGate && !s.endReached && item in s.items
      && FirstIndex(s.items, item).value >= |s.items| - Lookahead
  {
  }

  /**
   * A reset load from the initial state followed by a plain load requests
   * offsets 0 and then 20 when the first page arrives, and the second
   * page is appended after the first.
   */
  lemma {:induction false} TwoLoadsRequestConsecutivePages(fetch: PageSource)
    requires fetch(PageSize, 0).Ok? && fetch(PageSize, PageSize).Ok?
    ensures var s1 := LoadStep(Initial(), true, fetch);
      var s2 := LoadStep(s1, false, fetch);
      && s2.calls == [FetchPage(20, 0), FetchPage(20, 20)]
      && s2.items == fetch(20, 0).value + fetch(20, 20).value
      && s2.page == 2
  {
    var s1 := LoadStep(Initial(), true, fetch);
    assert s1.page == 1 && s1.calls == [FetchPage(20, 0)];
  }

  /**
   * After a short page the end is reached, and no row triggers another
   * request (the list tests' "does not load when end reached").
   */
  lemma ShortPageStopsPaging(s: ListState, fetch: PageSource, item: Summary, next: PageSource)
    requires !s.isLoadingGate
    requires fetch(PageSize, Offset(s.page)).Ok? && |fetch(PageSize, Offset(s.page)).value| < PageSize
    ensures LoadNextStep(LoadStep(s, false, fetch), item, next) == LoadStep(s, false, fetch)
  {
  }

  /**
   * A refresh with the gate free starts over: it requests offset 0, and a
   * success leaves exactly that page and the cursor at 1.
   */
  lemma RefreshStartsOver(s: ListState, fetch: PageSource)
    requires !s.isRefreshing && !s.isLoadingGate
    ensures var r := RefreshStep(s, fetch);
      && r.calls == s.calls + [FetchPage(PageSize, 0)]
      && (fetch(PageSize, 0).Ok? ==> r.items == fetch(PageSize, 0).value && r.page == 1)
      && (fetch(PageSize, 0).Err? ==> r.items == [] && r.page == 0 && !r.endReached)
  {
    if fetch(PageSize, 0).Ok? {
      assert [] + fetch(PageSize, 0).value == fetch(PageSize, 0).value;
    }
  }

  /** The view model, with the fields the source updates in place. */
  class PokemonListViewModel {
    var items: seq<Summary>
    var isLoading: bool
    var isRefreshing: bool
    var isPaging: bool
    var error: Option<string>
    var navigationDetail: Option<Detail>
    var openingId: Option<int>
    var page: int
    var endReached: bool
    var isLoadingGate: bool
    /** The requests made on the use cases so far. */
    ghost var calls: seq<Call>

    ghost function State(): ListState
      reads this
    {
      ListState(items, isLoading, isRefreshing, isPaging, error, navigationDetail, openingId,
                page, endReached, isLoadingGate, calls)
    }

    constructor()
      ensures State() == Initial()
    {
      items := [];
      isLoading := false;
      isRefreshing := false;
      isPaging := false;
      error := None;
      navigationDetail := None;
      openingId := None;
      page := 0;
      endReached := false;
      isLoadingGate := false;
      calls := [];
    }

    method Load(reset: bool, fetch: PageSource)
      modifies this
      ensures State() == LoadStep(old(State()), reset, fetch)
    {
      if isLoadingGate {
        return;
      }
      isLoadingGate := true;
      if reset {
        page := 0;
        endReached := false;
        items := [];
        isLoading := true;
      } else {
        isPaging := true;
      }
      Complete(fetch);
    }

    /** The `do`/`catch` around the page fetch, and the two `defer` blocks. */
    method Complete(fetch: PageSource)
      modifies this
      ensures State() == Finish(old(State()), fetch)
    {
      var offset := page * PageSize;
      calls := calls + [FetchPage(PageSize, offset)];
      var outcome := fetch(PageSize, offset);
      if outcome.Ok? {
        items := items + outcome.value;
        endReached := |outcome.value| < PageSize;
        page := page + 1;
      } else {
        error := Some(Humanize(outcome.error));
      }
      isLoading := false;
      isPaging := false;
      isLoadingGate := false;
    }

    method LoadNextIfNeeded(item: Summary, fetch: PageSource)
      modifies this
      ensures State() == LoadNextStep(old(State()), item, fetch)
    {
      if endReached {
        return;
      }
      var idx := FirstIndex(items, item);
      if idx.None? {
        return;
      }
      if idx.value >= |items| - Lookahead {
        Load(false, fetch);
      }
    }

    method OpenDetail(
      item: Summary,
      fetchDetail: string -> Result<Detail, Error>,
      preload: seq<Url> -> Outcome<Error>)
      modifies this
      ensures State() == OpenDetailStep(old(State()), item, fetchDetail, preload)
    {
      if openingId.Some? {
        return;
      }
      openingId := Some(item.id);
      calls := calls + [FetchDetail(item.name)];
      var detail := fetchDetail(item.name);
      if detail.Err? {
        error := Some(Humanize(detail.error));
      } else {
        calls := calls + [Preload(detail.value.spriteURLs)];
        var preloaded := preload(detail.value.spriteURLs);
        if preloaded.Fail? {
          error := Some(Humanize(preloaded.error));
        } else {
          navigationDetail := Some(detail.value);
        }
      }
      // `defer { openingId = nil }`
      openingId := None;
    }

    method UserRefresh(fetch: PageSource)
      modifies this
      ensures State() == RefreshStep(old(State()), fetch)
    {
      if isRefreshing {
        return;
      }
      isRefreshing := true;
      Load(true, fetch);
      isRefreshing := false;
    }
  }
}
