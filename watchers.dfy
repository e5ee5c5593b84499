/// `listWatchers`: the watchers of a repository, each replaced by the full
/// profile; no times are recorded.
module Watchers {
  import opened GitHub
  import opened Paging
  import opened Listing

  /// The watcher listing of the configured repository.
  function WatcherList(client: Client, cfg: Config): Fetch<User>
  {
    opt => client.listWatchers(cfg.owner, cfg.repo, opt)
  }

  /// The loop body of `listWatchers`: look the watcher up and append the profile.
  function WatcherStep(client: Client): Step<seq<User>, User>
  {
    (us: seq<User>, u: User) =>
      match client.getByID(u.id)
      case Err(e) => Err(e)
      case Ok(v) => Ok(us + [v])
  }

  /// The identifier `WatcherStep` looks up: the watcher's.
  function WatcherAsks(): Asks<seq<User>, User>
  {
    (us: seq<User>, u: User) => [u.id]
  }

  /// The outcome of `listWatchers`: the looked-up watchers and no times.
  function ListWatchersSpec(client: Client, cfg: Config, bound: nat): Result<Collected>
    requires EndsWithin(WatcherList(client, cfg), FirstPage, bound)
  {
    match Walk(WatcherList(client, cfg), WatcherStep(client), FirstPage, bound, [])
    case Err(e) => Err(e)
    case Ok(us) => Ok(Collected(us, []))
  }

  /// The listing requests `listWatchers` makes.
  ghost function ListWatchersRequests(client: Client, cfg: Config, bound: nat): seq<ListOptions>
    requires EndsWithin(WatcherList(client, cfg), FirstPage, bound)
  {
    Requests(WatcherList(client, cfg), WatcherStep(client), FirstPage, bound, [])
  }

  /// The `GetByID` calls `listWatchers` makes.
  ghost function ListWatchersLookups(client: Client, cfg: Config, bound: nat): seq<int>
    requires EndsWithin(WatcherList(client, cfg), FirstPage, bound)
  {
    Lookups(WatcherList(client, cfg), WatcherStep(client), WatcherAsks(), FirstPage, bound, [])
  }

  /// `listWatchers`: walk the watcher pages and look every watcher up.
  method ListWatchers(client: Client, cfg: Config, ghost bound: nat)
    returns (users: seq<User>, times: seq<Time>, err: Option<Error>, ghost requested: seq<ListOptions>, ghost looked: seq<int>)
    requires EndsWithin(WatcherList(client, cfg), FirstPage, bound)
    ensures Returned(ListWatchersSpec(client, cfg, bound), users, times, err)
    ensures times == []
    ensures requested == ListWatchersRequests(client, cfg, bound)
    ensures looked == ListWatchersLookups(client, cfg, bound)
  {
    var r;
    r, requested, looked := WatcherPages(client, cfg, bound);
    times := [];
    match r
    case Err(e) =>
      return [], times, Some(e), requested, looked;
    case Ok(us) =>
      return us, times, None, requested, looked;
  }

  /// The page loop of `listWatchers`.
  method WatcherPages(client: Client, cfg: Config, ghost bound: nat)
    returns (r: Result<seq<User>>, ghost requested: seq<ListOptions>, ghost looked: seq<int>)
    requires EndsWithin(WatcherList(client, cfg), FirstPage, bound)
    ensures r == Walk(WatcherList(client, cfg), WatcherStep(client), FirstPage, bound, [])
    ensures requested == Requests(WatcherList(client, cfg), WatcherStep(client), FirstPage, bound, [])
    ensures looked == Lookups(WatcherList(client, cfg), WatcherStep(client), WatcherAsks(), FirstPage, bound, [])
  {
    ghost var fetch, step, asks := WatcherList(client, cfg), WatcherStep(client), WatcherAsks();
    var opt := FirstPage;
    ghost var fuel := bound;
    var all: seq<User> := [];
    requested, looked := [], [];
    MidwayStart(fetch, step, asks, FirstPage, bound, []);
    while true
      invariant Midway(fetch, step, asks, FirstPage, bound, [], opt, fuel, all, requested, looked)
      decreases fuel
    {
      var resp := client.listWatchers(cfg.owner, cfg.repo, opt);
      assert fetch(opt) == resp;
      if resp.Err? {
        MidwayStops(fetch, step, asks, FirstPage, bound, [], opt, fuel, all, requested, looked);
        return Err(resp.error), requested + [opt], looked + [];
      }
      var page := resp.value;
      var next, pageLooked := WatcherPage(client, all, page.items);
      if next.Err? || page.nextPage == 0 {
        MidwayStops(fetch, step, asks, FirstPage, bound, [], opt, fuel, all, requested, looked);
        return next, requested + [opt], looked + pageLooked;
      }
      MidwayGoesOn(fetch, step, asks, FirstPage, bound, [], opt, fuel, all, requested, looked);
      requested, looked := requested + [opt], looked + pageLooked;
      all := next.value;
      opt := opt.(page := page.nextPage);
      fuel := fuel - 1;
    }
  }

  /// The body of the page loop of `listWatchers`: the watchers of one page, in order.
  method WatcherPage(client: Client, all: seq<User>, listed: seq<User>) returns (r: Result<seq<User>>, ghost looked: seq<int>)
    ensures r == Fold(WatcherStep(client), all, listed)
    ensures looked == FoldLookups(WatcherStep(client), WatcherAsks(), all, listed)
  {
    ghost var step, asks := WatcherStep(client), WatcherAsks();
    var acc := all;
    looked := [];
    FoldMidwayStart(step, asks, all, listed);
    for i := 0 to |listed|
      invariant FoldMidway(step, asks, all, listed, acc, i, looked)
    {
      assert asks(acc, listed[i]) == [listed[i].id];
      var user := client.getByID(listed[i].id);
      if user.Err? {
        assert step(acc, listed[i]) == Err(user.error);
        FoldMidwayFails(step, asks, all, listed, acc, i, looked);
        return Err(user.error), looked + [listed[i].id];
      }
      assert step(acc, listed[i]) == Ok(acc + [user.value]);
      FoldMidwayStep(step, asks, all, listed, acc, i, looked);
      looked := looked + [listed[i].id];
      acc := acc + [user.value];
    }
    FoldMidwayEnds(step, asks, all, listed, acc, looked);
    return Ok(acc), looked;
  }

  // ---------------------------------------------------------------------------
  // What the listing returns.

  /// One page's loop, in closed form: every listed watcher is looked up, in
  /// order, and the profiles are appended.
  lemma {:induction false} WatcherFoldClosedForm(client: Client, us: seq<User>, listed: seq<User>)
    ensures Fold(WatcherStep(client), us, listed) == Extend(us, HydrateAll(client.getByID, IDs(listed)))
    decreases |listed|
  {
    if listed == [] {
      assert us + [] == us;
    } else {
      var ids := IDs(listed);
      assert ids[0] == listed[0].id && ids[1..] == IDs(listed[1..]);
      var tail := HydrateAll(client.getByID, IDs(listed[1..]));
      match client.getByID(listed[0].id)
      case Err(e) =>
        assert WatcherStep(client)(us, listed[0]) == Err(e);
      case Ok(v) =>
        assert WatcherStep(client)(us, listed[0]) == Ok(us + [v]);
        WatcherFoldClosedForm(client, us + [v], listed[1..]);
        assert HydrateAll(client.getByID, ids) == if tail.Ok? then Ok([v] + tail.value) else tail;
        if tail.Ok? {
          assert us + [v] + tail.value == us + ([v] + tail.value);
        }
    }
  }

  /// When every page request succeeds, `listWatchers` returns exactly the
  /// lookups of all listed watchers, in listing order, and no times.
  lemma ListWatchersContents(client: Client, cfg: Config, bound: nat, pages: seq<Page<User>>)
    requires EndsWithin(WatcherList(client, cfg), FirstPage, bound)
    requires Chain(WatcherList(client, cfg), FirstPage, bound) == Ok(pages)
    ensures var looked := HydrateAll(client.getByID, IDs(Flatten(pages)));
      ListWatchersSpec(client, cfg, bound) ==
        if looked.Ok? then Ok(Collected(looked.value, [])) else Err(looked.error)
  {
    WalkIsFold(WatcherList(client, cfg), WatcherStep(client), FirstPage, bound, [], pages);
    WatcherFoldClosedForm(client, [], Flatten(pages));
    var looked := HydrateAll(client.getByID, IDs(Flatten(pages)));
    if looked.Ok? {
      assert [] + looked.value == looked.value;
    }
  }

  /// On success user `i` is the profile of the `i`-th listed watcher, across all pages.
  lemma ListWatchersAligned(client: Client, cfg: Config, bound: nat, pages: seq<Page<User>>)
    requires EndsWithin(WatcherList(client, cfg), FirstPage, bound)
    requires Chain(WatcherList(client, cfg), FirstPage, bound) == Ok(pages)
    requires ListWatchersSpec(client, cfg, bound).Ok?
    ensures var c := ListWatchersSpec(client, cfg, bound).value;
      var listed := Flatten(pages);
      && |c.users| == |listed| && c.times == []
      && forall i :: 0 <= i < |listed| ==> client.getByID(listed[i].id) == Ok(c.users[i])
  {
    ListWatchersContents(client, cfg, bound, pages);
    HydrateAllResult(client.getByID, IDs(Flatten(pages)));
  }

  // ---------------------------------------------------------------------------
  // Which lookups the listing makes.

  /// One page's lookups: `Tried` over the listed watchers, in order, so all
  /// of them, or those up to and including the first whose lookup fails.
  lemma {:induction false} WatcherLookupsClosedForm(client: Client, us: seq<User>, listed: seq<User>)
    ensures var looked := FoldLookups(WatcherStep(client), WatcherAsks(), us, listed);
      && looked == Tried(client.getByID, IDs(listed))
      && (Fold(WatcherStep(client), us, listed).Ok? ==> looked == IDs(listed))
    decreases |listed|
  {
    if listed != [] {
      var ids := IDs(listed);
      assert ids == [listed[0].id] + IDs(listed[1..]);
      assert ids[0] == listed[0].id && ids[1..] == IDs(listed[1..]);
      assert WatcherAsks()(us, listed[0]) == [listed[0].id];
      match client.getByID(listed[0].id)
      case Err(e) =>
        assert WatcherStep(client)(us, listed[0]) == Err(e);
      case Ok(v) =>
        assert WatcherStep(client)(us, listed[0]) == Ok(us + [v]);
        WatcherLookupsClosedForm(client, us + [v], listed[1..]);
    }
  }

  /// `listWatchers` looks every listed watcher up once, in listing order,
  /// whether or not a page request fails: its lookups run over the watchers
  /// of the pages it received and stop at the first failing one; when it
  /// succeeds it has looked up all of them.
  lemma ListWatchersLookupsAll(client: Client, cfg: Config, bound: nat)
    requires EndsWithin(WatcherList(client, cfg), FirstPage, bound)
    ensures var ids := IDs(Flatten(Fetched(WatcherList(client, cfg), FirstPage, bound)));
      var looked := ListWatchersLookups(client, cfg, bound);
      && looked == Tried(client.getByID, ids)
      && StopsAtFirstFailure(client.getByID, ids, looked)
      && (ListWatchersSpec(client, cfg, bound).Ok? ==> looked == ids)
  {
    var fetch, step := WatcherList(client, cfg), WatcherStep(client);
    var received := Flatten(Fetched(fetch, FirstPage, bound));
    WalkLookupsFetched(fetch, step, WatcherAsks(), FirstPage, bound, []);
    WatcherLookupsClosedForm(client, [], received);
    TriedCut(client.getByID, IDs(received));
    if ListWatchersSpec(client, cfg, bound).Ok? {
      WalkOkFetched(fetch, step, FirstPage, bound, []);
    }
  }
}
