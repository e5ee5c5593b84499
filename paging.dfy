/// The page loop shared by every listing function of github.go: fetch a page,
/// process its items in order, stop after the first response whose
/// `NextPage` is 0, otherwise ask for `NextPage` next. Any failure aborts.
module Paging {
  import opened GitHub

  /// One listing endpoint, already bound to an owner and a repository.
  type Fetch<T> = ListOptions -> Result<Page<T>>

  /// What the loop body does with one item: a new state, or the error that
  /// aborts the whole listing.
  type Step<!S, -T> = (S, T) -> Result<S>

  /// The pages that follow `opt` reach a last page, or a failing request,
  /// within `n` requests. A real server could send `NextPage` values that cycle;
  /// this is what the loop needs to terminate.
  ghost predicate EndsWithin<T>(fetch: Fetch<T>, opt: ListOptions, n: nat)
    decreases n
  {
    n > 0 &&
    match fetch(opt)
    case Err(_) => true
    case Ok(p) => p.nextPage == 0 || EndsWithin(fetch, opt.(page := p.nextPage), n - 1)
  }

  /// The inner `for _, item := range page` loop.
  function Fold<S, T>(step: Step<S, T>, s: S, items: seq<T>): Result<S>
    decreases |items|
  {
    if items == [] then Ok(s)
    else
      match step(s, items[0])
      case Err(e) => Err(e)
      case Ok(s') => Fold(step, s', items[1..])
  }

  /// The outer `for { ... }` loop, from the request `opt` on, starting in state `s`.
  function Walk<S, T>(fetch: Fetch<T>, step: Step<S, T>, opt: ListOptions, n: nat, s: S): Result<S>
    requires EndsWithin(fetch, opt, n)
    decreases n
  {
    match fetch(opt)
    case Err(e) => Err(e)
    case Ok(page) =>
      match Fold(step, s, page.items)
      case Err(e) => Err(e)
      case Ok(s') =>
        if page.nextPage == 0 then Ok(s')
        else Walk(fetch, step, opt.(page := page.nextPage), n - 1, s')
  }

  /// The requests the outer loop makes, in order, from `opt` on.
  ghost function Requests<S, T>(fetch: Fetch<T>, step: Step<S, T>, opt: ListOptions, n: nat, s: S): seq<ListOptions>
    requires EndsWithin(fetch, opt, n)
    decreases n
  {
    if fetch(opt).Err? || Fold(step, s, fetch(opt).value.items).Err? || fetch(opt).value.nextPage == 0 then [opt]
    else [opt] + Requests(fetch, step, opt.(page := fetch(opt).value.nextPage), n - 1, Fold(step, s, fetch(opt).value.items).value)
  }

  /// The identifiers the loop body passes to `Users.GetByID` for one item,
  /// in the state it finds.
  type Asks<!S, -T> = (S, T) -> seq<int>

  /// The `GetByID` calls of the inner loop, in order, up to the first failure.
  ghost function FoldLookups<S, T>(step: Step<S, T>, asks: Asks<S, T>, s: S, items: seq<T>): seq<int>
    decreases |items|
  {
    if items == [] then []
    else
      asks(s, items[0]) +
      match step(s, items[0])
      case Err(_) => []
      case Ok(s') => FoldLookups(step, asks, s', items[1..])
  }

  /// The `GetByID` calls of the whole walk from `opt` on, page after page.
  ghost function Lookups<S, T>(fetch: Fetch<T>, step: Step<S, T>, asks: Asks<S, T>, opt: ListOptions, n: nat, s: S): seq<int>
    requires EndsWithin(fetch, opt, n)
    decreases n
  {
    match fetch(opt)
    case Err(_) => []
    case Ok(page) =>
      FoldLookups(step, asks, s, page.items) +
      match Fold(step, s, page.items)
      case Err(_) => []
      case Ok(s') =>
        if page.nextPage == 0 then [] else Lookups(fetch, step, asks, opt.(page := page.nextPage), n - 1, s')
  }

  /// The pages the server offers from `opt` on, following `NextPage` up to
  /// the last page, regardless of what is done with their items.
  ghost function Chain<T>(fetch: Fetch<T>, opt: ListOptions, n: nat): Result<seq<Page<T>>>
    requires EndsWithin(fetch, opt, n)
    decreases n
  {
    match fetch(opt)
    case Err(e) => Err(e)
    case Ok(page) =>
      if page.nextPage == 0 then Ok([page])
      else
        match Chain(fetch, opt.(page := page.nextPage), n - 1)
        case Err(e) => Err(e)
        case Ok(pages) => Ok([page] + pages)
  }

  /// The requests that walk `Chain`: one per page, and the failing one if any.
  ghost function ChainRequests<T>(fetch: Fetch<T>, opt: ListOptions, n: nat): seq<ListOptions>
    requires EndsWithin(fetch, opt, n)
    decreases n
  {
    [opt] +
    match fetch(opt)
    case Err(_) => []
    case Ok(page) =>
      if page.nextPage == 0 then []
      else ChainRequests(fetch, opt.(page := page.nextPage), n - 1)
  }

  /// The pages the loop receives from `opt` on when no item fails: those of
  /// `Chain` up to the first failing request, or all of them.
  ghost function Fetched<T>(fetch: Fetch<T>, opt: ListOptions, n: nat): seq<Page<T>>
    requires EndsWithin(fetch, opt, n)
    decreases n
  {
    match fetch(opt)
    case Err(_) => []
    case Ok(page) =>
      [page] + if page.nextPage == 0 then [] else Fetched(fetch, opt.(page := page.nextPage), n - 1)
  }

  /// All items of `pages`, page after page.
  function Flatten<T>(pages: seq<Page<T>>): seq<T>
  {
    if pages == [] then [] else pages[0].items + Flatten(pages[1..])
  }

  /// Continue a fold that may already have failed.
  function Then<S, T>(r: Result<S>, step: Step<S, T>, items: seq<T>): Result<S>
  {
    match r
    case Err(e) => Err(e)
    case Ok(s) => Fold(step, s, items)
  }

  // ---------------------------------------------------------------------------
  // Unfolding facts the loops of the listing methods use, one item or one page
  // at a time.

  lemma {:induction false} FoldAt<S, T>(step: Step<S, T>, s: S, items: seq<T>, i: nat)
    requires i < |items|
    ensures step(s, items[i]).Err? ==> Fold(step, s, items[i..]) == Err(step(s, items[i]).error)
    ensures step(s, items[i]).Ok? ==> Fold(step, s, items[i..]) == Fold(step, step(s, items[i]).value, items[i + 1..])
  {
    assert items[i..][0] == items[i];
    assert items[i..][1..] == items[i + 1..];
  }

  /// One turn of the outer loop: the page request at `opt` and the fold over its items.
  lemma {:induction false} WalkAt<S, T>(fetch: Fetch<T>, step: Step<S, T>, opt: ListOptions, n: nat, s: S)
    requires EndsWithin(fetch, opt, n)
    ensures fetch(opt).Err? ==>
              Walk(fetch, step, opt, n, s) == Err(fetch(opt).error) && Requests(fetch, step, opt, n, s) == [opt]
    ensures fetch(opt).Ok? && Fold(step, s, fetch(opt).value.items).Err? ==>
              && Walk(fetch, step, opt, n, s) == Err(Fold(step, s, fetch(opt).value.items).error)
              && Requests(fetch, step, opt, n, s) == [opt]
    ensures fetch(opt).Ok? && Fold(step, s, fetch(opt).value.items).Ok? && fetch(opt).value.nextPage == 0 ==>
              && Walk(fetch, step, opt, n, s) == Ok(Fold(step, s, fetch(opt).value.items).value)
              && Requests(fetch, step, opt, n, s) == [opt]
    ensures fetch(opt).Ok? && Fold(step, s, fetch(opt).value.items).Ok? && fetch(opt).value.nextPage != 0 ==>
              var next := opt.(page := fetch(opt).value.nextPage);
              var s' := Fold(step, s, fetch(opt).value.items).value;
              && n > 1 && EndsWithin(fetch, next, n - 1)
              && Walk(fetch, step, opt, n, s) == Walk(fetch, step, next, n - 1, s')
              && Requests(fetch, step, opt, n, s) == [opt] + Requests(fetch, step, next, n - 1, s')
  {
  }

  /// One item of the inner loop: its own lookups, then those of the rest
  /// unless it failed.
  lemma {:induction false} FoldLookupsAt<S, T>(step: Step<S, T>, asks: Asks<S, T>, s: S, items: seq<T>, i: nat)
    requires i < |items|
    ensures FoldLookups(step, asks, s, items[i..]) ==
              asks(s, items[i]) +
              if step(s, items[i]).Err? then [] else FoldLookups(step, asks, step(s, items[i]).value, items[i + 1..])
  {
    assert items[i..][0] == items[i];
    assert items[i..][1..] == items[i + 1..];
  }

  /// One turn of the outer loop: the lookups of the page, then those of the
  /// pages after it.
  lemma {:induction false} WalkLookupsAt<S, T>(fetch: Fetch<T>, step: Step<S, T>, asks: Asks<S, T>, opt: ListOptions, n: nat, s: S)
    requires EndsWithin(fetch, opt, n)
    ensures fetch(opt).Err? ==> Lookups(fetch, step, asks, opt, n, s) == []
    ensures fetch(opt).Ok? && (Fold(step, s, fetch(opt).value.items).Err? || fetch(opt).value.nextPage == 0) ==>
              Lookups(fetch, step, asks, opt, n, s) == FoldLookups(step, asks, s, fetch(opt).value.items)
    ensures fetch(opt).Ok? && Fold(step, s, fetch(opt).value.items).Ok? && fetch(opt).value.nextPage != 0 ==>
              var next := opt.(page := fetch(opt).value.nextPage);
              && n > 1 && EndsWithin(fetch, next, n - 1)
              && Lookups(fetch, step, asks, opt, n, s) ==
                 FoldLookups(step, asks, s, fetch(opt).value.items) +
                 Lookups(fetch, step, asks, next, n - 1, Fold(step, s, fetch(opt).value.items).value)
  {
    if fetch(opt).Ok? {
      var items := fetch(opt).value.items;
      assert FoldLookups(step, asks, s, items) + [] == FoldLookups(step, asks, s, items);
    }
  }

  /// The invariant of an inner loop that started in state `init` and is
  /// about to process `items[i]` in state `s`, having made the lookups
  /// `looked`: what is left to do completes the fold.
  ghost predicate FoldMidway<S, T>(step: Step<S, T>, asks: Asks<S, T>, init: S, items: seq<T>, s: S, i: nat, looked: seq<int>)
  {
    && i <= |items|
    && Fold(step, init, items) == Fold(step, s, items[i..])
    && FoldLookups(step, asks, init, items) == looked + FoldLookups(step, asks, s, items[i..])
  }

  lemma FoldMidwayStart<S, T>(step: Step<S, T>, asks: Asks<S, T>, init: S, items: seq<T>)
    ensures FoldMidway(step, asks, init, items, init, 0, [])
  {
    assert items[0..] == items;
  }

  /// An item that succeeds: its lookups are made and the loop goes on.
  lemma FoldMidwayStep<S, T>(step: Step<S, T>, asks: Asks<S, T>, init: S, items: seq<T>, s: S, i: nat, looked: seq<int>)
    requires FoldMidway(step, asks, init, items, s, i, looked) && i < |items|
    requires step(s, items[i]).Ok?
    ensures FoldMidway(step, asks, init, items, step(s, items[i]).value, i + 1, looked + asks(s, items[i]))
  {
    FoldAt(step, s, items, i);
    FoldLookupsAt(step, asks, s, items, i);
  }

  /// An item that fails: its lookups are the last, and the fold fails with its error.
  lemma FoldMidwayFails<S, T>(step: Step<S, T>, asks: Asks<S, T>, init: S, items: seq<T>, s: S, i: nat, looked: seq<int>)
    requires FoldMidway(step, asks, init, items, s, i, looked) && i < |items|
    requires step(s, items[i]).Err?
    ensures Fold(step, init, items) == Err(step(s, items[i]).error)
    ensures FoldLookups(step, asks, init, items) == looked + asks(s, items[i])
  {
    FoldAt(step, s, items, i);
    FoldLookupsAt(step, asks, s, items, i);
    assert asks(s, items[i]) + [] == asks(s, items[i]);
  }

  /// Every item processed: the fold ends in state `s`.
  lemma FoldMidwayEnds<S, T>(step: Step<S, T>, asks: Asks<S, T>, init: S, items: seq<T>, s: S, looked: seq<int>)
    requires FoldMidway(step, asks, init, items, s, |items|, looked)
    ensures Fold(step, init, items) == Ok(s)
    ensures FoldLookups(step, asks, init, items) == looked
  {
    assert items[|items|..] == [];
    assert looked + [] == looked;
  }

  /// The invariant of an outer loop that started at `start` in state `init`
  /// and is about to ask for `opt` in state `s`, having made the requests
  /// `requested` and the lookups `looked`: what is left to do completes the walk.
  ghost predicate Midway<S, T>(fetch: Fetch<T>, step: Step<S, T>, asks: Asks<S, T>,
                               start: ListOptions, bound: nat, init: S,
                               opt: ListOptions, n: nat, s: S, requested: seq<ListOptions>, looked: seq<int>)
  {
    && EndsWithin(fetch, start, bound)
    && EndsWithin(fetch, opt, n)
    && Walk(fetch, step, start, bound, init) == Walk(fetch, step, opt, n, s)
    && Requests(fetch, step, start, bound, init) == requested + Requests(fetch, step, opt, n, s)
    && Lookups(fetch, step, asks, start, bound, init) == looked + Lookups(fetch, step, asks, opt, n, s)
  }

  /// Nothing is done before the first request.
  lemma MidwayStart<S, T>(fetch: Fetch<T>, step: Step<S, T>, asks: Asks<S, T>, start: ListOptions, bound: nat, init: S)
    requires EndsWithin(fetch, start, bound)
    ensures Midway(fetch, step, asks, start, bound, init, start, bound, init, [], [])
  {
  }

  /// The last turn of the outer loop: the request failed, the page's items
  /// failed, or the page was the last one; the walk ends here.
  lemma MidwayStops<S, T>(fetch: Fetch<T>, step: Step<S, T>, asks: Asks<S, T>,
                          start: ListOptions, bound: nat, init: S,
                          opt: ListOptions, n: nat, s: S, requested: seq<ListOptions>, looked: seq<int>)
    requires Midway(fetch, step, asks, start, bound, init, opt, n, s, requested, looked)
    requires fetch(opt).Err? || Fold(step, s, fetch(opt).value.items).Err? || fetch(opt).value.nextPage == 0
    ensures Walk(fetch, step, start, bound, init) ==
              if fetch(opt).Err? then Err(fetch(opt).error) else Fold(step, s, fetch(opt).value.items)
    ensures Requests(fetch, step, start, bound, init) == requested + [opt]
    ensures Lookups(fetch, step, asks, start, bound, init) ==
              looked + if fetch(opt).Err? then [] else FoldLookups(step, asks, s, fetch(opt).value.items)
  {
    WalkLookupsAt(fetch, step, asks, opt, n, s);
  }

  /// A turn of the outer loop after which it asks for the next page.
  lemma MidwayGoesOn<S, T>(fetch: Fetch<T>, step: Step<S, T>, asks: Asks<S, T>,
                           start: ListOptions, bound: nat, init: S,
                           opt: ListOptions, n: nat, s: S, requested: seq<ListOptions>, looked: seq<int>)
    requires Midway(fetch, step, asks, start, bound, init, opt, n, s, requested, looked)
    requires fetch(opt).Ok? && Fold(step, s, fetch(opt).value.items).Ok? && fetch(opt).value.nextPage != 0
    ensures n > 1
    ensures Midway(fetch, step, asks, start, bound, init,
                   opt.(page := fetch(opt).value.nextPage), n - 1, Fold(step, s, fetch(opt).value.items).value,
                   requested + [opt], looked + FoldLookups(step, asks, s, fetch(opt).value.items))
  {
    var next := opt.(page := fetch(opt).value.nextPage);
    var s' := Fold(step, s, fetch(opt).value.items).value;
    var pageLooked := FoldLookups(step, asks, s, fetch(opt).value.items);
    GoesOn(fetch, step, asks, opt, n, s);
    assert requested + ([opt] + Requests(fetch, step, next, n - 1, s'))
        == (requested + [opt]) + Requests(fetch, step, next, n - 1, s');
    assert looked + (pageLooked + Lookups(fetch, step, asks, next, n - 1, s'))
        == (looked + pageLooked) + Lookups(fetch, step, asks, next, n - 1, s');
  }

  /// A page whose items succeed and after which there is another page: the
  /// walk, its requests and its lookups go on from that page.
  lemma GoesOn<S, T>(fetch: Fetch<T>, step: Step<S, T>, asks: Asks<S, T>, opt: ListOptions, n: nat, s: S)
    requires EndsWithin(fetch, opt, n)
    requires fetch(opt).Ok? && Fold(step, s, fetch(opt).value.items).Ok? && fetch(opt).value.nextPage != 0
    ensures var next := opt.(page := fetch(opt).value.nextPage);
      var s' := Fold(step, s, fetch(opt).value.items).value;
      && n > 1 && EndsWithin(fetch, next, n - 1)
      && Walk(fetch, step, opt, n, s) == Walk(fetch, step, next, n - 1, s')
      && Requests(fetch, step, opt, n, s) == [opt] + Requests(fetch, step, next, n - 1, s')
      && Lookups(fetch, step, asks, opt, n, s) ==
           FoldLookups(step, asks, s, fetch(opt).value.items) + Lookups(fetch, step, asks, next, n - 1, s')
  {
  }

  // ---------------------------------------------------------------------------
  // Properties of the loop.

  /// The walk ends within `n` requests.
  lemma {:induction false} RequestsBounded<S, T>(fetch: Fetch<T>, step: Step<S, T>, opt: ListOptions, n: nat, s: S)
    requires EndsWithin(fetch, opt, n)
    ensures 1 <= |Requests(fetch, step, opt, n, s)| <= n
    decreases n
  {
    match fetch(opt)
    case Err(_) =>
    case Ok(page) =>
      match Fold(step, s, page.items)
      case Err(_) =>
      case Ok(s') =>
        if page.nextPage != 0 {
          RequestsBounded(fetch, step, opt.(page := page.nextPage), n - 1, s');
        }
  }

  /// Folding over two item sequences one after the other is folding over their concatenation.
  lemma {:induction false} FoldAppend<S, T>(step: Step<S, T>, s: S, a: seq<T>, b: seq<T>)
    ensures Fold(step, s, a + b) == Then(Fold(step, s, a), step, b)
    decreases |a|
  {
    if a == [] {
      assert a + b == b;
    } else {
      assert (a + b)[0] == a[0];
      assert (a + b)[1..] == a[1..] + b;
      match step(s, a[0])
      case Err(_) =>
      case Ok(s') => FoldAppend(step, s', a[1..], b);
    }
  }

  /// When every page request succeeds, the walk is one fold over every item of
  /// every page, in page order: how the items are split into pages does not matter.
  lemma {:induction false} WalkIsFold<S, T>(fetch: Fetch<T>, step: Step<S, T>, opt: ListOptions, n: nat, s: S, pages: seq<Page<T>>)
    requires EndsWithin(fetch, opt, n)
    requires Chain(fetch, opt, n) == Ok(pages)
    ensures Walk(fetch, step, opt, n, s) == Fold(step, s, Flatten(pages))
    decreases n
  {
    var page := fetch(opt).value;
    if page.nextPage == 0 {
      assert pages == [page];
      assert Flatten(pages) == page.items + Flatten(pages[1..]);
      assert page.items + [] == page.items;
    } else {
      var rest := Chain(fetch, opt.(page := page.nextPage), n - 1).value;
      assert pages == [page] + rest;
      assert pages[1..] == rest;
      FoldAppend(step, s, page.items, Flatten(rest));
      match Fold(step, s, page.items)
      case Err(_) =>
      case Ok(s') => WalkIsFold(fetch, step, opt.(page := page.nextPage), n - 1, s', rest);
    }
  }

  /// A failing page request makes the whole walk fail: either with that
  /// error, or with an item error that came before it.
  lemma {:induction false} ChainErrorFailsWalk<S, T>(fetch: Fetch<T>, step: Step<S, T>, opt: ListOptions, n: nat, s: S)
    requires EndsWithin(fetch, opt, n)
    requires Chain(fetch, opt, n).Err?
    ensures Walk(fetch, step, opt, n, s).Err?
    decreases n
  {
    match fetch(opt)
    case Err(_) =>
    case Ok(page) =>
      match Fold(step, s, page.items)
      case Err(_) =>
      case Ok(s') =>
        ChainErrorFailsWalk(fetch, step, opt.(page := page.nextPage), n - 1, s');
  }

  /// A walk that succeeds makes exactly the requests of the page chain.
  lemma {:induction false} SuccessfulWalkRequests<S, T>(fetch: Fetch<T>, step: Step<S, T>, opt: ListOptions, n: nat, s: S)
    requires EndsWithin(fetch, opt, n)
    requires Walk(fetch, step, opt, n, s).Ok?
    ensures Chain(fetch, opt, n).Ok?
    ensures Requests(fetch, step, opt, n, s) == ChainRequests(fetch, opt, n)
    ensures |Requests(fetch, step, opt, n, s)| == |Chain(fetch, opt, n).value|
    decreases n
  {
    var page := fetch(opt).value;
    if page.nextPage != 0 {
      var s' := Fold(step, s, page.items).value;
      SuccessfulWalkRequests(fetch, step, opt.(page := page.nextPage), n - 1, s');
    }
  }

  /// The shape of the request sequence: it starts at `opt`; each request but
  /// the last got a page whose `NextPage` is not 0 and the next request asks for
  /// that page with the same options otherwise; the last request failed or got
  /// the page whose `NextPage` is 0. So the loop stops right after the first
  /// last page and fetches once per page up to it.
  lemma {:induction false} ChainRequestsShape<T>(fetch: Fetch<T>, opt: ListOptions, n: nat)
    requires EndsWithin(fetch, opt, n)
    ensures var rs := ChainRequests(fetch, opt, n);
      && 1 <= |rs| <= n
      && rs[0] == opt
      && (forall k :: 0 <= k < |rs| - 1 ==>
            fetch(rs[k]).Ok? && fetch(rs[k]).value.nextPage != 0
            && rs[k + 1] == rs[k].(page := fetch(rs[k]).value.nextPage))
      && (fetch(rs[|rs| - 1]).Err? || fetch(rs[|rs| - 1]).value.nextPage == 0)
    decreases n
  {
    var rs := ChainRequests(fetch, opt, n);
    match fetch(opt)
    case Err(_) =>
    case Ok(page) =>
      if page.nextPage != 0 {
        var next := opt.(page := page.nextPage);
        ChainRequestsShape(fetch, next, n - 1);
        var tail := ChainRequests(fetch, next, n - 1);
        assert rs == [opt] + tail;
        forall k | 0 <= k < |rs| - 1
          ensures fetch(rs[k]).Ok? && fetch(rs[k]).value.nextPage != 0
                  && rs[k + 1] == rs[k].(page := fetch(rs[k]).value.nextPage)
        {
          if k > 0 {
            assert rs[k] == tail[k - 1] && rs[k + 1] == tail[k];
          }
        }
      }
  }

  /// The result does not depend on the bound used to prove termination.
  lemma {:induction false} WalkBoundIrrelevant<S, T>(fetch: Fetch<T>, step: Step<S, T>, opt: ListOptions, n: nat, m: nat, s: S)
    requires EndsWithin(fetch, opt, n) && EndsWithin(fetch, opt, m)
    ensures Walk(fetch, step, opt, n, s) == Walk(fetch, step, opt, m, s)
    ensures Requests(fetch, step, opt, n, s) == Requests(fetch, step, opt, m, s)
    decreases n
  {
    match fetch(opt)
    case Err(_) =>
    case Ok(page) =>
      match Fold(step, s, page.items)
      case Err(_) =>
      case Ok(s') =>
        if page.nextPage != 0 {
          WalkBoundIrrelevant(fetch, step, opt.(page := page.nextPage), n - 1, m - 1, s');
        }
  }

  /// The lookups of a run of items followed by another run: those of the
  /// first, then, if it succeeded, those of the second.
  lemma {:induction false} FoldLookupsAppend<S, T>(step: Step<S, T>, asks: Asks<S, T>, s: S, a: seq<T>, b: seq<T>)
    ensures FoldLookups(step, asks, s, a + b) ==
              FoldLookups(step, asks, s, a) +
              if Fold(step, s, a).Err? then [] else FoldLookups(step, asks, Fold(step, s, a).value, b)
    decreases |a|
  {
    if a == [] {
      assert a + b == b;
    } else {
      assert (a + b)[0] == a[0];
      assert (a + b)[1..] == a[1..] + b;
      match step(s, a[0])
      case Err(_) =>
      case Ok(s') =>
        FoldLookupsAppend(step, asks, s', a[1..], b);
    }
  }

  /// When every page request succeeds, the walk's lookups are those of one
  /// pass over every item of every page.
  lemma {:induction false} WalkLookupsIsFold<S, T>(fetch: Fetch<T>, step: Step<S, T>, asks: Asks<S, T>, opt: ListOptions, n: nat, s: S, pages: seq<Page<T>>)
    requires EndsWithin(fetch, opt, n)
    requires Chain(fetch, opt, n) == Ok(pages)
    ensures Lookups(fetch, step, asks, opt, n, s) == FoldLookups(step, asks, s, Flatten(pages))
    decreases n
  {
    var page := fetch(opt).value;
    if page.nextPage == 0 {
      assert pages == [page];
      assert Flatten(pages) == page.items + Flatten(pages[1..]);
      assert page.items + [] == page.items;
      assert FoldLookups(step, asks, s, page.items) + [] == FoldLookups(step, asks, s, page.items);
    } else {
      var rest := Chain(fetch, opt.(page := page.nextPage), n - 1).value;
      assert pages == [page] + rest;
      assert pages[1..] == rest;
      FoldLookupsAppend(step, asks, s, page.items, Flatten(rest));
      match Fold(step, s, page.items)
      case Err(_) =>
      case Ok(s') => WalkLookupsIsFold(fetch, step, asks, opt.(page := page.nextPage), n - 1, s', rest);
    }
  }

  /// A loop body that asks for nothing makes no lookup, however the pages go.
  lemma {:induction false} NoLookups<S, T>(fetch: Fetch<T>, step: Step<S, T>, asks: Asks<S, T>, opt: ListOptions, n: nat, s: S)
    requires EndsWithin(fetch, opt, n)
    requires forall x: S, y: T :: asks(x, y) == []
    ensures Lookups(fetch, step, asks, opt, n, s) == []
    decreases n
  {
    match fetch(opt)
    case Err(_) =>
    case Ok(page) =>
      FoldNoLookups(step, asks, s, page.items);
      match Fold(step, s, page.items)
      case Err(_) =>
      case Ok(s') =>
        if page.nextPage != 0 {
          NoLookups(fetch, step, asks, opt.(page := page.nextPage), n - 1, s');
        }
  }

  lemma {:induction false} FoldNoLookups<S, T>(step: Step<S, T>, asks: Asks<S, T>, s: S, items: seq<T>)
    requires forall x: S, y: T :: asks(x, y) == []
    ensures FoldLookups(step, asks, s, items) == []
    decreases |items|
  {
    if items != [] {
      assert asks(s, items[0]) == [];
      match step(s, items[0])
      case Err(_) =>
      case Ok(s') => FoldNoLookups(step, asks, s', items[1..]);
    }
  }

  /// When every page request succeeds, the pages received are those of the chain.
  lemma {:induction false} ChainFetched<T>(fetch: Fetch<T>, opt: ListOptions, n: nat)
    requires EndsWithin(fetch, opt, n)
    requires Chain(fetch, opt, n).Ok?
    ensures Chain(fetch, opt, n) == Ok(Fetched(fetch, opt, n))
    decreases n
  {
    var page := fetch(opt).value;
    if page.nextPage == 0 {
      assert Chain(fetch, opt, n) == Ok([page]);
      assert Fetched(fetch, opt, n) == [page] + [] == [page];
    } else {
      var next := opt.(page := page.nextPage);
      ChainFetched(fetch, next, n - 1);
      assert Fetched(fetch, opt, n) == [page] + Fetched(fetch, next, n - 1);
    }
  }

  /// Whether or not a page request fails, the walk's lookups are those of
  /// one pass over every item of the pages received: a failing request
  /// adds none and ends the walk.
  lemma {:induction false} WalkLookupsFetched<S, T>(fetch: Fetch<T>, step: Step<S, T>, asks: Asks<S, T>, opt: ListOptions, n: nat, s: S)
    requires EndsWithin(fetch, opt, n)
    ensures Lookups(fetch, step, asks, opt, n, s) == FoldLookups(step, asks, s, Flatten(Fetched(fetch, opt, n)))
    decreases n
  {
    match fetch(opt)
    case Err(_) =>
      assert Fetched(fetch, opt, n) == [];
    case Ok(page) =>
      var pages := Fetched(fetch, opt, n);
      var rest := if page.nextPage == 0 then [] else Fetched(fetch, opt.(page := page.nextPage), n - 1);
      assert pages == [page] + rest && pages[1..] == rest;
      assert Flatten(pages) == page.items + Flatten(rest);
      FoldLookupsAppend(step, asks, s, page.items, Flatten(rest));
      match Fold(step, s, page.items)
      case Err(_) =>
        assert FoldLookups(step, asks, s, page.items) + [] == FoldLookups(step, asks, s, page.items);
      case Ok(s') =>
        if page.nextPage == 0 {
          assert FoldLookups(step, asks, s, page.items) + [] == FoldLookups(step, asks, s, page.items);
        } else {
          WalkLookupsFetched(fetch, step, asks, opt.(page := page.nextPage), n - 1, s');
        }
  }

  /// A walk that succeeds received every page of the chain and is one fold
  /// over their items.
  lemma WalkOkFetched<S, T>(fetch: Fetch<T>, step: Step<S, T>, opt: ListOptions, n: nat, s: S)
    requires EndsWithin(fetch, opt, n)
    requires Walk(fetch, step, opt, n, s).Ok?
    ensures Chain(fetch, opt, n) == Ok(Fetched(fetch, opt, n))
    ensures Walk(fetch, step, opt, n, s) == Fold(step, s, Flatten(Fetched(fetch, opt, n)))
  {
    SuccessfulWalkRequests(fetch, step, opt, n, s);
    ChainFetched(fetch, opt, n);
    WalkIsFold(fetch, step, opt, n, s, Fetched(fetch, opt, n));
  }

  /// Whether or not a page request fails, the walk is one fold over the
  /// items of the pages received; when that fold succeeds, the walk still
  /// fails with the error of a failing page request, if there was one.
  lemma {:induction false} WalkFetched<S, T>(fetch: Fetch<T>, step: Step<S, T>, opt: ListOptions, n: nat, s: S)
    requires EndsWithin(fetch, opt, n)
    ensures Walk(fetch, step, opt, n, s) ==
              match Fold(step, s, Flatten(Fetched(fetch, opt, n)))
              case Err(e) => Err(e)
              case Ok(s') => if Chain(fetch, opt, n).Ok? then Ok(s') else Err(Chain(fetch, opt, n).error)
    decreases n
  {
    match fetch(opt)
    case Err(_) =>
      assert Fetched(fetch, opt, n) == [];
    case Ok(page) =>
      var next := opt.(page := page.nextPage);
      var pages := Fetched(fetch, opt, n);
      var rest := if page.nextPage == 0 then [] else Fetched(fetch, next, n - 1);
      assert pages == [page] + rest && pages[1..] == rest;
      assert Flatten(pages) == page.items + Flatten(rest);
      FoldAppend(step, s, page.items, Flatten(rest));
      match Fold(step, s, page.items)
      case Err(_) =>
      case Ok(s') =>
        if page.nextPage == 0 {
          assert Flatten(rest) == [];
          assert Chain(fetch, opt, n) == Ok([page]);
        } else {
          WalkFetched(fetch, step, next, n - 1, s');
        }
  }
}
