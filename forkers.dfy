/// `listForkers`: the forks of a repository, filtered by creation time, each
/// replaced by its owner's full profile.
module Forkers {
  import opened GitHub
  import opened Paging
  import opened Listing

  /// The fork listing of the configured repository.
  function Forks(client: Client, cfg: Config): Fetch<Repository>
  {
    opt => client.listForks(cfg.owner, cfg.repo, opt)
  }

  /// The loop body of `listForkers`: a fork outside the window is skipped,
  /// otherwise its owner is looked up and appended with the fork's creation time.
  function ForkStep(client: Client, dates: Dates, w: Window): Step<Collected, Repository>
  {
    (c: Collected, repo: Repository) =>
      if !InWindow(dates, w, repo.createdAt) then Ok(c)
      else
        match client.getByID(repo.owner.id)
        case Err(e) => Err(e)
        case Ok(u) => Ok(Collected(c.users + [u], c.times + [repo.createdAt]))
  }

  /// The identifier `ForkStep` looks up: the owner's, for a fork inside the window.
  function ForkAsks(dates: Dates, w: Window): Asks<Collected, Repository>
  {
    (c: Collected, repo: Repository) => if InWindow(dates, w, repo.createdAt) then [repo.owner.id] else []
  }

  /// The forks that pass the filter, in order.
  function KeptForks(dates: Dates, w: Window, repos: seq<Repository>): (r: seq<Repository>)
    ensures |r| <= |repos|
    ensures w.NoFilter? ==> r == repos
  {
    if repos == [] then []
    else if InWindow(dates, w, repos[0].createdAt) then [repos[0]] + KeptForks(dates, w, repos[1..])
    else KeptForks(dates, w, repos[1..])
  }

  function OwnerIDs(repos: seq<Repository>): (r: seq<int>)
    ensures |r| == |repos| && forall i :: 0 <= i < |repos| ==> r[i] == repos[i].owner.id
  {
    if repos == [] then [] else [repos[0].owner.id] + OwnerIDs(repos[1..])
  }

  function CreatedTimes(repos: seq<Repository>): (r: seq<Time>)
    ensures |r| == |repos| && forall i :: 0 <= i < |repos| ==> r[i] == repos[i].createdAt
  {
    if repos == [] then [] else [repos[0].createdAt] + CreatedTimes(repos[1..])
  }

  /// The outcome of `listForkers`.
  function ListForkersSpec(client: Client, dates: Dates, cfg: Config, bound: nat): Result<Collected>
    requires EndsWithin(Forks(client, cfg), FirstPage, bound)
  {
    match ParseWindow(dates, cfg)
    case Err(e) => Err(e)
    case Ok(w) => Walk(Forks(client, cfg), ForkStep(client, dates, w), FirstPage, bound, Collected([], []))
  }

  /// The listing requests `listForkers` makes.
  ghost function ListForkersRequests(client: Client, dates: Dates, cfg: Config, bound: nat): seq<ListOptions>
    requires EndsWithin(Forks(client, cfg), FirstPage, bound)
  {
    match ParseWindow(dates, cfg)
    case Err(_) => []
    case Ok(w) => Requests(Forks(client, cfg), ForkStep(client, dates, w), FirstPage, bound, Collected([], []))
  }

  /// The `GetByID` calls `listForkers` makes: none when the window does not parse.
  ghost function ListForkersLookups(client: Client, dates: Dates, cfg: Config, bound: nat): seq<int>
    requires EndsWithin(Forks(client, cfg), FirstPage, bound)
  {
    match ParseWindow(dates, cfg)
    case Err(_) => []
    case Ok(w) => Lookups(Forks(client, cfg), ForkStep(client, dates, w), ForkAsks(dates, w), FirstPage, bound, Collected([], []))
  }

  /// `listForkers`: parse the window if both dates are set, then walk the fork
  /// pages; for every fork inside the window look its owner up and record the
  /// owner and the fork's creation time.
  method ListForkers(client: Client, dates: Dates, cfg: Config, ghost bound: nat)
    returns (users: seq<User>, times: seq<Time>, err: Option<Error>, ghost requested: seq<ListOptions>, ghost looked: seq<int>)
    requires EndsWithin(Forks(client, cfg), FirstPage, bound)
    ensures Returned(ListForkersSpec(client, dates, cfg, bound), users, times, err)
    ensures requested == ListForkersRequests(client, dates, cfg, bound)
    ensures looked == ListForkersLookups(client, dates, cfg, bound)
  {
    var w := NoFilter;
    if |cfg.startDate| > 0 && |cfg.endDate| > 0 {
      var start := dates.parseDate(cfg.startDate);
      if start.Err? {
        return [], [], Some(start.error), [], [];
      }
      var end := dates.parseDate(cfg.endDate);
      if end.Err? {
        return [], [], Some(end.error), [], [];
      }
      w := Between(start.value, end.value);
    }
    assert ParseWindow(dates, cfg) == Ok(w);
    var r;
    r, requested, looked := ForkPages(client, dates, cfg, w, bound);
    match r
    case Err(e) =>
      return [], [], Some(e), requested, looked;
    case Ok(c) =>
      return c.users, c.times, None, requested, looked;
  }

  /// The page loop of `listForkers`.
  method ForkPages(client: Client, dates: Dates, cfg: Config, w: Window, ghost bound: nat)
    returns (r: Result<Collected>, ghost requested: seq<ListOptions>, ghost looked: seq<int>)
    requires EndsWithin(Forks(client, cfg), FirstPage, bound)
    ensures r == Walk(Forks(client, cfg), ForkStep(client, dates, w), FirstPage, bound, Collected([], []))
    ensures requested == Requests(Forks(client, cfg), ForkStep(client, dates, w), FirstPage, bound, Collected([], []))
    ensures looked == Lookups(Forks(client, cfg), ForkStep(client, dates, w), ForkAsks(dates, w), FirstPage, bound, Collected([], []))
  {
    ghost var fetch, step, asks := Forks(client, cfg), ForkStep(client, dates, w), ForkAsks(dates, w);
    ghost var init := Collected([], []);
    var opt := FirstPage;
    ghost var fuel := bound;
    var c := Collected([], []);
    requested, looked := [], [];
    MidwayStart(fetch, step, asks, FirstPage, bound, init);
    while true
      invariant Midway(fetch, step, asks, FirstPage, bound, init, opt, fuel, c, requested, looked)
      decreases fuel
    {
      var resp := client.listForks(cfg.owner, cfg.repo, opt);
      assert fetch(opt) == resp;
      if resp.Err? {
        MidwayStops(fetch, step, asks, FirstPage, bound, init, opt, fuel, c, requested, looked);
        return Err(resp.error), requested + [opt], looked + [];
      }
      var page := resp.value;
      var next, pageLooked := ForkPage(client, dates, w, c, page.items);
      if next.Err? || page.nextPage == 0 {
        MidwayStops(fetch, step, asks, FirstPage, bound, init, opt, fuel, c, requested, looked);
        return next, requested + [opt], looked + pageLooked;
      }
      MidwayGoesOn(fetch, step, asks, FirstPage, bound, init, opt, fuel, c, requested, looked);
      requested, looked := requested + [opt], looked + pageLooked;
      c := next.value;
      opt := opt.(page := page.nextPage);
      fuel := fuel - 1;
    }
  }

  /// The body of the page loop of `listForkers`: the forks of one page, in order.
  method ForkPage(client: Client, dates: Dates, w: Window, c: Collected, repos: seq<Repository>)
    returns (r: Result<Collected>, ghost looked: seq<int>)
    ensures r == Fold(ForkStep(client, dates, w), c, repos)
    ensures looked == FoldLookups(ForkStep(client, dates, w), ForkAsks(dates, w), c, repos)
  {
    ghost var step, asks := ForkStep(client, dates, w), ForkAsks(dates, w);
    var users, times := c.users, c.times;
    looked := [];
    FoldMidwayStart(step, asks, c, repos);
    for i := 0 to |repos|
      invariant FoldMidway(step, asks, c, repos, Collected(users, times), i, looked)
    {
      var repo := repos[i];
      ghost var cur := Collected(users, times);
      if w.Between? && !dates.checkTime(w.start, w.end, repo.createdAt) {
        assert step(cur, repo) == Ok(cur) && asks(cur, repo) == [];
        FoldMidwayStep(step, asks, c, repos, cur, i, looked);
        assert looked + [] == looked;
        continue;
      }
      assert asks(cur, repo) == [repo.owner.id];
      var user := client.getByID(repo.owner.id);
      if user.Err? {
        assert step(cur, repo) == Err(user.error);
        FoldMidwayFails(step, asks, c, repos, cur, i, looked);
        return Err(user.error), looked + [repo.owner.id];
      }
      assert step(cur, repo) == Ok(Collected(users + [user.value], times + [repo.createdAt]));
      FoldMidwayStep(step, asks, c, repos, cur, i, looked);
      looked := looked + [repo.owner.id];
      users := users + [user.value];
      times := times + [repo.createdAt];
    }
    FoldMidwayEnds(step, asks, c, repos, Collected(users, times), looked);
    return Ok(Collected(users, times)), looked;
  }

  // ---------------------------------------------------------------------------
  // What the listing returns.

  /// One page's loop, in closed form: exactly the forks inside the window
  /// have their owner looked up, in order; the owners are appended to the
  /// users and the forks' creation times to the times.
  lemma {:induction false} ForkFoldClosedForm(client: Client, dates: Dates, w: Window, c: Collected, repos: seq<Repository>)
    ensures var kept := KeptForks(dates, w, repos);
      Fold(ForkStep(client, dates, w), c, repos) ==
        AppendLookups(c, HydrateAll(client.getByID, OwnerIDs(kept)), CreatedTimes(kept))
    decreases |repos|
  {
    var step := ForkStep(client, dates, w);
    if repos == [] {
      assert c.users + [] == c.users && c.times + [] == c.times;
    } else {
      var repo := repos[0];
      var rest := repos[1..];
      var kept := KeptForks(dates, w, rest);
      if !InWindow(dates, w, repo.createdAt) {
        assert step(c, repo) == Ok(c);
        ForkFoldClosedForm(client, dates, w, c, rest);
      } else {
        var here := [repo] + kept;
        assert here[0] == repo && here[1..] == kept;
        assert KeptForks(dates, w, repos) == here;
        var ids := [repo.owner.id] + OwnerIDs(kept);
        assert OwnerIDs(here) == ids;
        assert CreatedTimes(here) == [repo.createdAt] + CreatedTimes(kept);
        assert ids[0] == repo.owner.id && ids[1..] == OwnerIDs(kept);
        match client.getByID(repo.owner.id)
        case Err(e) =>
          assert step(c, repo) == Err(e);
          assert HydrateAll(client.getByID, ids) == Err(e);
        case Ok(u) =>
          var c' := Collected(c.users + [u], c.times + [repo.createdAt]);
          assert step(c, repo) == Ok(c');
          ForkFoldClosedForm(client, dates, w, c', rest);
          var tail := HydrateAll(client.getByID, OwnerIDs(kept));
          assert HydrateAll(client.getByID, ids) == if tail.Ok? then Ok([u] + tail.value) else tail;
          AppendOne(c, u, repo.createdAt, tail, CreatedTimes(kept));
      }
    }
  }

  /// When every page request succeeds and the window parses, `listForkers`
  /// returns one user per fork inside the window, in listing order: user `i` is
  /// the looked-up owner of the `i`-th such fork and time `i` is that fork's
  /// creation time. The first failing owner lookup is returned instead.
  lemma ListForkersContents(client: Client, dates: Dates, cfg: Config, bound: nat, pages: seq<Page<Repository>>, w: Window)
    requires EndsWithin(Forks(client, cfg), FirstPage, bound)
    requires Chain(Forks(client, cfg), FirstPage, bound) == Ok(pages)
    requires ParseWindow(dates, cfg) == Ok(w)
    ensures var kept := KeptForks(dates, w, Flatten(pages));
      ListForkersSpec(client, dates, cfg, bound) ==
        AppendLookups(Collected([], []), HydrateAll(client.getByID, OwnerIDs(kept)), CreatedTimes(kept))
  {
    var kept := KeptForks(dates, w, Flatten(pages));
    WalkIsFold(Forks(client, cfg), ForkStep(client, dates, w), FirstPage, bound, Collected([], []), pages);
    ForkFoldClosedForm(client, dates, w, Collected([], []), Flatten(pages));
  }

  /// Users and times stay aligned: on success both lists have one entry per
  /// fork inside the window and entry `i` of each comes from the same fork.
  lemma ListForkersAligned(client: Client, dates: Dates, cfg: Config, bound: nat, pages: seq<Page<Repository>>, w: Window)
    requires EndsWithin(Forks(client, cfg), FirstPage, bound)
    requires Chain(Forks(client, cfg), FirstPage, bound) == Ok(pages)
    requires ParseWindow(dates, cfg) == Ok(w)
    requires ListForkersSpec(client, dates, cfg, bound).Ok?
    ensures var c := ListForkersSpec(client, dates, cfg, bound).value;
      var kept := KeptForks(dates, w, Flatten(pages));
      && |c.users| == |c.times| == |kept|
      && forall i :: 0 <= i < |kept| ==>
           client.getByID(kept[i].owner.id) == Ok(c.users[i]) && c.times[i] == kept[i].createdAt
  {
    var kept := KeptForks(dates, w, Flatten(pages));
    ListForkersContents(client, dates, cfg, bound, pages, w);
    var looked := HydrateAll(client.getByID, OwnerIDs(kept));
    HydrateAllResult(client.getByID, OwnerIDs(kept));
    assert [] + looked.value == looked.value;
    assert [] + CreatedTimes(kept) == CreatedTimes(kept);
  }

  /// The window is applied only when both dates are set: with either one
  /// empty, every fork of every page has its owner looked up and is returned.
  lemma ListForkersUnfiltered(client: Client, dates: Dates, cfg: Config, bound: nat, pages: seq<Page<Repository>>)
    requires EndsWithin(Forks(client, cfg), FirstPage, bound)
    requires Chain(Forks(client, cfg), FirstPage, bound) == Ok(pages)
    requires |cfg.startDate| == 0 || |cfg.endDate| == 0
    ensures ListForkersSpec(client, dates, cfg, bound) ==
        AppendLookups(Collected([], []), HydrateAll(client.getByID, OwnerIDs(Flatten(pages))), CreatedTimes(Flatten(pages)))
  {
    assert ParseWindow(dates, cfg) == Ok(NoFilter);
    assert KeptForks(dates, NoFilter, Flatten(pages)) == Flatten(pages);
    ListForkersContents(client, dates, cfg, bound, pages, NoFilter);
  }

  /// A fork outside the window is never looked up, whether or not a page
  /// request fails: changing what the lookup answers for anything but the
  /// owners of the forks inside the window on the pages received changes nothing.
  lemma ListForkersSkipsFilteredOut(client: Client, dates: Dates, cfg: Config, bound: nat,
                                    w: Window, getByID: int -> Result<User>)
    requires EndsWithin(Forks(client, cfg), FirstPage, bound)
    requires ParseWindow(dates, cfg) == Ok(w)
    requires forall r :: r in KeptForks(dates, w, Flatten(Fetched(Forks(client, cfg), FirstPage, bound))) ==>
               getByID(r.owner.id) == client.getByID(r.owner.id)
    ensures Forks(client.(getByID := getByID), cfg) == Forks(client, cfg)
    ensures ListForkersSpec(client.(getByID := getByID), dates, cfg, bound) == ListForkersSpec(client, dates, cfg, bound)
  {
    var other := client.(getByID := getByID);
    var fetch := Forks(client, cfg);
    assert Forks(other, cfg) == fetch;
    var received := Flatten(Fetched(fetch, FirstPage, bound));
    var ids := OwnerIDs(KeptForks(dates, w, received));
    forall i | 0 <= i < |ids| ensures getByID(ids[i]) == client.getByID(ids[i]) {
      assert KeptForks(dates, w, received)[i] in KeptForks(dates, w, received);
    }
    HydrateAllLocal(getByID, ids, client.getByID, ids);
    WalkFetched(fetch, ForkStep(client, dates, w), FirstPage, bound, Collected([], []));
    WalkFetched(fetch, ForkStep(other, dates, w), FirstPage, bound, Collected([], []));
    ForkFoldClosedForm(client, dates, w, Collected([], []), received);
    ForkFoldClosedForm(other, dates, w, Collected([], []), received);
  }

  // ---------------------------------------------------------------------------
  // Which lookups the listing makes.

  /// One page's lookups: `Tried` over the owners of the forks inside the
  /// window, in order, so all of them, or those up to and including the first
  /// whose lookup fails.
  lemma {:induction false} ForkLookupsClosedForm(client: Client, dates: Dates, w: Window, c: Collected, repos: seq<Repository>)
    ensures var ids := OwnerIDs(KeptForks(dates, w, repos));
      var looked := FoldLookups(ForkStep(client, dates, w), ForkAsks(dates, w), c, repos);
      && looked == Tried(client.getByID, ids)
      && (Fold(ForkStep(client, dates, w), c, repos).Ok? ==> looked == ids)
    decreases |repos|
  {
    var step, asks := ForkStep(client, dates, w), ForkAsks(dates, w);
    if repos != [] {
      var repo := repos[0];
      var kept := KeptForks(dates, w, repos[1..]);
      if !InWindow(dates, w, repo.createdAt) {
        assert step(c, repo) == Ok(c) && asks(c, repo) == [];
        ForkLookupsClosedForm(client, dates, w, c, repos[1..]);
      } else {
        assert asks(c, repo) == [repo.owner.id];
        var here := [repo] + kept;
        assert here[0] == repo && here[1..] == kept;
        var ids := [repo.owner.id] + OwnerIDs(kept);
        assert OwnerIDs(KeptForks(dates, w, repos)) == ids;
        assert ids[0] == repo.owner.id && ids[1..] == OwnerIDs(kept);
        match client.getByID(repo.owner.id)
        case Err(e) =>
          assert step(c, repo) == Err(e);
        case Ok(u) =>
          var c' := Collected(c.users + [u], c.times + [repo.createdAt]);
          assert step(c, repo) == Ok(c');
          ForkLookupsClosedForm(client, dates, w, c', repos[1..]);
      }
    }
  }

  /// `listForkers` looks up only the owners of forks inside the window,
  /// whether or not a page request fails: its lookups run over those owners
  /// on the pages it received, in listing order, and stop at the first
  /// failing one; when it succeeds it has looked up all of them. When the
  /// window does not parse it looks up nothing.
  lemma ListForkersLookupsKept(client: Client, dates: Dates, cfg: Config, bound: nat)
    requires EndsWithin(Forks(client, cfg), FirstPage, bound)
    ensures ParseWindow(dates, cfg).Err? ==> ListForkersLookups(client, dates, cfg, bound) == []
    ensures ParseWindow(dates, cfg).Ok? ==>
      var received := Flatten(Fetched(Forks(client, cfg), FirstPage, bound));
      var ids := OwnerIDs(KeptForks(dates, ParseWindow(dates, cfg).value, received));
      var looked := ListForkersLookups(client, dates, cfg, bound);
      && looked == Tried(client.getByID, ids)
      && StopsAtFirstFailure(client.getByID, ids, looked)
      && (ListForkersSpec(client, dates, cfg, bound).Ok? ==> looked == ids)
  {
    if ParseWindow(dates, cfg).Ok? {
      var w := ParseWindow(dates, cfg).value;
      var fetch, step := Forks(client, cfg), ForkStep(client, dates, w);
      var received := Flatten(Fetched(fetch, FirstPage, bound));
      WalkLookupsFetched(fetch, step, ForkAsks(dates, w), FirstPage, bound, Collected([], []));
      ForkLookupsClosedForm(client, dates, w, Collected([], []), received);
      TriedCut(client.getByID, OwnerIDs(KeptForks(dates, w, received)));
      if ListForkersSpec(client, dates, cfg, bound).Ok? {
        WalkOkFetched(fetch, step, FirstPage, bound, Collected([], []));
      }
    }
  }
}
