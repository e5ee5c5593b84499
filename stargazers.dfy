/// `listStargazers`: the stargazers of a repository, filtered by the time
/// they starred it, either as listed or replaced by their full profile.
module Stargazers {
  import opened GitHub
  import opened Paging
  import opened Listing

  /// The stargazer listing of the configured repository.
  function StarList(client: Client, cfg: Config): Fetch<Stargazer>
  {
    opt => client.listStargazers(cfg.owner, cfg.repo, opt)
  }

  /// The loop body of `listStargazers`: a stargazer outside the window is
  /// skipped; otherwise the listed user (with `onlyID`) or its looked-up
  /// profile is appended with the time it starred the repository.
  function StarStep(client: Client, dates: Dates, w: Window, onlyID: bool): Step<Collected, Stargazer>
  {
    (c: Collected, sg: Stargazer) =>
      if !InWindow(dates, w, sg.starredAt) then Ok(c)
      else if onlyID then Ok(Collected(c.users + [sg.user], c.times + [sg.starredAt]))
      else
        match client.getByID(sg.user.id)
        case Err(e) => Err(e)
        case Ok(u) => Ok(Collected(c.users + [u], c.times + [sg.starredAt]))
  }

  /// The identifier `StarStep` looks up: the stargazer's, when it is inside
  /// the window and `onlyID` is off.
  function StarAsks(dates: Dates, w: Window, onlyID: bool): Asks<Collected, Stargazer>
  {
    (c: Collected, sg: Stargazer) => if InWindow(dates, w, sg.starredAt) && !onlyID then [sg.user.id] else []
  }

  /// The stargazers that pass the filter, in order.
  function KeptStargazers(dates: Dates, w: Window, sgs: seq<Stargazer>): (r: seq<Stargazer>)
    ensures |r| <= |sgs|
    ensures w.NoFilter? ==> r == sgs
  {
    if sgs == [] then []
    else if InWindow(dates, w, sgs[0].starredAt) then [sgs[0]] + KeptStargazers(dates, w, sgs[1..])
    else KeptStargazers(dates, w, sgs[1..])
  }

  function ListedUsers(sgs: seq<Stargazer>): (r: seq<User>)
    ensures |r| == |sgs| && forall i :: 0 <= i < |sgs| ==> r[i] == sgs[i].user
  {
    if sgs == [] then [] else [sgs[0].user] + ListedUsers(sgs[1..])
  }

  function StarredTimes(sgs: seq<Stargazer>): (r: seq<Time>)
    ensures |r| == |sgs| && forall i :: 0 <= i < |sgs| ==> r[i] == sgs[i].starredAt
  {
    if sgs == [] then [] else [sgs[0].starredAt] + StarredTimes(sgs[1..])
  }

  /// The users recorded for the stargazers `kept`: as listed with `onlyID`,
  /// otherwise their looked-up profiles.
  function Recorded(client: Client, onlyID: bool, kept: seq<Stargazer>): Result<seq<User>>
  {
    if onlyID then Ok(ListedUsers(kept)) else HydrateAll(client.getByID, IDs(ListedUsers(kept)))
  }

  /// The outcome of `listStargazers`.
  function ListStargazersSpec(client: Client, dates: Dates, cfg: Config, onlyID: bool, bound: nat): Result<Collected>
    requires EndsWithin(StarList(client, cfg), FirstPage, bound)
  {
    match ParseWindow(dates, cfg)
    case Err(e) => Err(e)
    case Ok(w) => Walk(StarList(client, cfg), StarStep(client, dates, w, onlyID), FirstPage, bound, Collected([], []))
  }

  /// The listing requests `listStargazers` makes.
  ghost function ListStargazersRequests(client: Client, dates: Dates, cfg: Config, onlyID: bool, bound: nat): seq<ListOptions>
    requires EndsWithin(StarList(client, cfg), FirstPage, bound)
  {
    match ParseWindow(dates, cfg)
    case Err(_) => []
    case Ok(w) => Requests(StarList(client, cfg), StarStep(client, dates, w, onlyID), FirstPage, bound, Collected([], []))
  }

  /// The `GetByID` calls `listStargazers` makes: none when the window does not parse.
  ghost function ListStargazersLookups(client: Client, dates: Dates, cfg: Config, onlyID: bool, bound: nat): seq<int>
    requires EndsWithin(StarList(client, cfg), FirstPage, bound)
  {
    match ParseWindow(dates, cfg)
    case Err(_) => []
    case Ok(w) =>
      Lookups(StarList(client, cfg), StarStep(client, dates, w, onlyID), StarAsks(dates, w, onlyID), FirstPage, bound, Collected([], []))
  }

  /// `listStargazers`: parse the window if both dates are set, then walk the
  /// stargazer pages; for every stargazer inside the window record the user
  /// (looked up unless `onlyID`) and the time it starred the repository.
  method ListStargazers(client: Client, dates: Dates, cfg: Config, onlyID: bool, ghost bound: nat)
    returns (users: seq<User>, times: seq<Time>, err: Option<Error>, ghost requested: seq<ListOptions>, ghost looked: seq<int>)
    requires EndsWithin(StarList(client, cfg), FirstPage, bound)
    ensures Returned(ListStargazersSpec(client, dates, cfg, onlyID, bound), users, times, err)
    ensures requested == ListStargazersRequests(client, dates, cfg, onlyID, bound)
    ensures looked == ListStargazersLookups(client, dates, cfg, onlyID, bound)
  {
    var w := NoFilter;
    if |cfg.startDate| > 0 && |cfg.endDate| > 0 {
      var start := dates.parseDate(cfg.startDate);
      if start.Err? {
        return [], [], Some(start.error), [], [];
      }
      var end := dates.parseDate(cfg.endDate);
      if end.Err? {
        return [], [], Some(end.error), [], [];
      }
      w := Between(start.value, end.value);
    }
    assert ParseWindow(dates, cfg) == Ok(w);
    var r;
    r, requested, looked := StarPages(client, dates, cfg, w, onlyID, bound);
    match r
    case Err(e) =>
      return [], [], Some(e), requested, looked;
    case Ok(c) =>
      return c.users, c.times, None, requested, looked;
  }

  /// The page loop of `listStargazers`.
  method StarPages(client: Client, dates: Dates, cfg: Config, w: Window, onlyID: bool, ghost bound: nat)
    returns (r: Result<Collected>, ghost requested: seq<ListOptions>, ghost looked: seq<int>)
    requires EndsWithin(StarList(client, cfg), FirstPage, bound)
    ensures r == Walk(StarList(client, cfg), StarStep(client, dates, w, onlyID), FirstPage, bound, Collected([], []))
    ensures requested == Requests(StarList(client, cfg), StarStep(client, dates, w, onlyID), FirstPage, bound, Collected([], []))
    ensures looked == Lookups(StarList(client, cfg), StarStep(client, dates, w, onlyID), StarAsks(dates, w, onlyID),
                              FirstPage, bound, Collected([], []))
  {
    ghost var fetch, step, asks := StarList(client, cfg), StarStep(client, dates, w, onlyID), StarAsks(dates, w, onlyID);
    ghost var init := Collected([], []);
    var opt := FirstPage;
    ghost var fuel := bound;
    var c := Collected([], []);
    requested, looked := [], [];
    MidwayStart(fetch, step, asks, FirstPage, bound, init);
    while true
      invariant Midway(fetch, step, asks, FirstPage, bound, init, opt, fuel, c, requested, looked)
      decreases fuel
    {
      var resp := client.listStargazers(cfg.owner, cfg.repo, opt);
      assert fetch(opt) == resp;
      if resp.Err? {
        MidwayStops(fetch, step, asks, FirstPage, bound, init, opt, fuel, c, requested, looked);
        return Err(resp.error), requested + [opt], looked + [];
      }
      var page := resp.value;
      var next, pageLooked := StarPage(client, dates, w, onlyID, c, page.items);
      if next.Err? || page.nextPage == 0 {
        MidwayStops(fetch, step, asks, FirstPage, bound, init, opt, fuel, c, requested, looked);
        return next, requested + [opt], looked + pageLooked;
      }
      MidwayGoesOn(fetch, step, asks, FirstPage, bound, init, opt, fuel, c, requested, looked);
      requested, looked := requested + [opt], looked + pageLooked;
      c := next.value;
      opt := opt.(page := page.nextPage);
      fuel := fuel - 1;
    }
  }

  /// The body of the page loop of `listStargazers`: the stargazers of one page, in order.
  method StarPage(client: Client, dates: Dates, w: Window, onlyID: bool, c: Collected, sgs: seq<Stargazer>)
    returns (r: Result<Collected>, ghost looked: seq<int>)
    ensures r == Fold(StarStep(client, dates, w, onlyID), c, sgs)
    ensures looked == FoldLookups(StarStep(client, dates, w, onlyID), StarAsks(dates, w, onlyID), c, sgs)
  {
    ghost var step, asks := StarStep(client, dates, w, onlyID), StarAsks(dates, w, onlyID);
    var users, times := c.users, c.times;
    looked := [];
    FoldMidwayStart(step, asks, c, sgs);
    for i := 0 to |sgs|
      invariant FoldMidway(step, asks, c, sgs, Collected(users, times), i, looked)
    {
      var sg := sgs[i];
      ghost var cur := Collected(users, times);
      if w.Between? && !dates.checkTime(w.start, w.end, sg.starredAt) {
        assert step(cur, sg) == Ok(cur) && asks(cur, sg) == [];
        FoldMidwayStep(step, asks, c, sgs, cur, i, looked);
        assert looked + [] == looked;
        continue;
      }
      var user;
      if onlyID {
        user := sg.user;
        assert asks(cur, sg) == [];
        assert step(cur, sg) == Ok(Collected(users + [user], times + [sg.starredAt]));
        FoldMidwayStep(step, asks, c, sgs, cur, i, looked);
        assert looked + [] == looked;
      } else {
        assert asks(cur, sg) == [sg.user.id];
        var profile := client.getByID(sg.user.id);
        if profile.Err? {
          assert step(cur, sg) == Err(profile.error);
          FoldMidwayFails(step, asks, c, sgs, cur, i, looked);
          return Err(profile.error), looked + [sg.user.id];
        }
        user := profile.value;
        assert step(cur, sg) == Ok(Collected(users + [user], times + [sg.starredAt]));
        FoldMidwayStep(step, asks, c, sgs, cur, i, looked);
        looked := looked + [sg.user.id];
      }
      users := users + [user];
      times := times + [sg.starredAt];
    }
    FoldMidwayEnds(step, asks, c, sgs, Collected(users, times), looked);
    return Ok(Collected(users, times)), looked;
  }

  // ---------------------------------------------------------------------------
  // What the listing returns.

  /// One page's loop, in closed form: exactly the stargazers inside the
  /// window are recorded, in order, with the times they starred.
  lemma {:induction false} StarFoldClosedForm(client: Client, dates: Dates, w: Window, onlyID: bool, c: Collected, sgs: seq<Stargazer>)
    ensures var kept := KeptStargazers(dates, w, sgs);
      Fold(StarStep(client, dates, w, onlyID), c, sgs) ==
        AppendLookups(c, Recorded(client, onlyID, kept), StarredTimes(kept))
    decreases |sgs|
  {
    var step := StarStep(client, dates, w, onlyID);
    if sgs == [] {
      assert c.users + [] == c.users && c.times + [] == c.times;
    } else {
      var sg := sgs[0];
      var rest := sgs[1..];
      var kept := KeptStargazers(dates, w, rest);
      if !InWindow(dates, w, sg.starredAt) {
        assert step(c, sg) == Ok(c);
        StarFoldClosedForm(client, dates, w, onlyID, c, rest);
      } else {
        var here := [sg] + kept;
        assert here[0] == sg && here[1..] == kept;
        assert KeptStargazers(dates, w, sgs) == here;
        var listed := [sg.user] + ListedUsers(kept);
        assert ListedUsers(here) == listed;
        assert StarredTimes(here) == [sg.starredAt] + StarredTimes(kept);
        var tail := Recorded(client, onlyID, kept);
        if onlyID {
          var c' := Collected(c.users + [sg.user], c.times + [sg.starredAt]);
          assert step(c, sg) == Ok(c');
          StarFoldClosedForm(client, dates, w, onlyID, c', rest);
          AppendOne(c, sg.user, sg.starredAt, tail, StarredTimes(kept));
        } else {
          var ids := [sg.user.id] + IDs(ListedUsers(kept));
          assert IDs(listed) == ids;
          assert ids[0] == sg.user.id && ids[1..] == IDs(ListedUsers(kept));
          match client.getByID(sg.user.id)
          case Err(e) =>
            assert step(c, sg) == Err(e);
            assert HydrateAll(client.getByID, ids) == Err(e);
          case Ok(u) =>
            var c' := Collected(c.users + [u], c.times + [sg.starredAt]);
            assert step(c, sg) == Ok(c');
            StarFoldClosedForm(client, dates, w, onlyID, c', rest);
            assert HydrateAll(client.getByID, ids) == if tail.Ok? then Ok([u] + tail.value) else tail;
            AppendOne(c, u, sg.starredAt, tail, StarredTimes(kept));
        }
      }
    }
  }

  /// When every page request succeeds and the window parses,
  /// `listStargazers` records one user per stargazer inside the window, in
  /// listing order, with the times they starred.
  lemma ListStargazersContents(client: Client, dates: Dates, cfg: Config, onlyID: bool, bound: nat,
                               pages: seq<Page<Stargazer>>, w: Window)
    requires EndsWithin(StarList(client, cfg), FirstPage, bound)
    requires Chain(StarList(client, cfg), FirstPage, bound) == Ok(pages)
    requires ParseWindow(dates, cfg) == Ok(w)
    ensures var kept := KeptStargazers(dates, w, Flatten(pages));
      ListStargazersSpec(client, dates, cfg, onlyID, bound) ==
        AppendLookups(Collected([], []), Recorded(client, onlyID, kept), StarredTimes(kept))
  {
    WalkIsFold(StarList(client, cfg), StarStep(client, dates, w, onlyID), FirstPage, bound, Collected([], []), pages);
    StarFoldClosedForm(client, dates, w, onlyID, Collected([], []), Flatten(pages));
  }

  /// Users and times stay aligned: on success both lists have one entry per
  /// stargazer inside the window, entry `i` of each comes from the same
  /// stargazer, and the user is the listed one with `onlyID` and its
  /// looked-up profile without.
  lemma ListStargazersAligned(client: Client, dates: Dates, cfg: Config, onlyID: bool, bound: nat,
                              pages: seq<Page<Stargazer>>, w: Window)
    requires EndsWithin(StarList(client, cfg), FirstPage, bound)
    requires Chain(StarList(client, cfg), FirstPage, bound) == Ok(pages)
    requires ParseWindow(dates, cfg) == Ok(w)
    requires ListStargazersSpec(client, dates, cfg, onlyID, bound).Ok?
    ensures var c := ListStargazersSpec(client, dates, cfg, onlyID, bound).value;
      var kept := KeptStargazers(dates, w, Flatten(pages));
      && |c.users| == |c.times| == |kept|
      && (forall i :: 0 <= i < |kept| ==> c.times[i] == kept[i].starredAt)
      && (onlyID ==> forall i :: 0 <= i < |kept| ==> c.users[i] == kept[i].user)
      && (!onlyID ==> forall i :: 0 <= i < |kept| ==> client.getByID(kept[i].user.id) == Ok(c.users[i]))
  {
    var kept := KeptStargazers(dates, w, Flatten(pages));
    ListStargazersContents(client, dates, cfg, onlyID, bound, pages, w);
    var looked := Recorded(client, onlyID, kept);
    HydrateAllResult(client.getByID, IDs(ListedUsers(kept)));
    assert [] + looked.value == looked.value;
    assert [] + StarredTimes(kept) == StarredTimes(kept);
  }

  /// With `onlyID` no profile is looked up, whether or not a page request
  /// fails: the outcome is the same whatever the lookup answers, and once
  /// the window parses a successful page chain cannot fail.
  lemma ListStargazersOnlyIDNoLookup(client: Client, dates: Dates, cfg: Config, bound: nat, getByID: int -> Result<User>)
    requires EndsWithin(StarList(client, cfg), FirstPage, bound)
    ensures StarList(client.(getByID := getByID), cfg) == StarList(client, cfg)
    ensures ListStargazersSpec(client.(getByID := getByID), dates, cfg, true, bound) ==
            ListStargazersSpec(client, dates, cfg, true, bound)
    ensures ParseWindow(dates, cfg).Ok? && Chain(StarList(client, cfg), FirstPage, bound).Ok? ==>
              ListStargazersSpec(client, dates, cfg, true, bound).Ok?
  {
    var other := client.(getByID := getByID);
    var fetch := StarList(client, cfg);
    assert StarList(other, cfg) == fetch;
    match ParseWindow(dates, cfg)
    case Err(_) =>
    case Ok(w) =>
      var received := Flatten(Fetched(fetch, FirstPage, bound));
      WalkFetched(fetch, StarStep(client, dates, w, true), FirstPage, bound, Collected([], []));
      WalkFetched(fetch, StarStep(other, dates, w, true), FirstPage, bound, Collected([], []));
      StarFoldClosedForm(client, dates, w, true, Collected([], []), received);
      StarFoldClosedForm(other, dates, w, true, Collected([], []), received);
  }

  /// The window is applied only when both dates are set: with either one
  /// empty every stargazer of every page is recorded.
  lemma ListStargazersUnfiltered(client: Client, dates: Dates, cfg: Config, onlyID: bool, bound: nat,
                                 pages: seq<Page<Stargazer>>)
    requires EndsWithin(StarList(client, cfg), FirstPage, bound)
    requires Chain(StarList(client, cfg), FirstPage, bound) == Ok(pages)
    requires |cfg.startDate| == 0 || |cfg.endDate| == 0
    ensures ListStargazersSpec(client, dates, cfg, onlyID, bound) ==
        AppendLookups(Collected([], []), Recorded(client, onlyID, Flatten(pages)), StarredTimes(Flatten(pages)))
  {
    assert ParseWindow(dates, cfg) == Ok(NoFilter);
    assert KeptStargazers(dates, NoFilter, Flatten(pages)) == Flatten(pages);
    ListStargazersContents(client, dates, cfg, onlyID, bound, pages, NoFilter);
  }

  /// A stargazer outside the window is never looked up, whether or not a
  /// page request fails: changing what the lookup answers for anyone but the
  /// stargazers inside the window on the pages received changes nothing.
  lemma ListStargazersSkipsFilteredOut(client: Client, dates: Dates, cfg: Config, onlyID: bool, bound: nat,
                                       w: Window, getByID: int -> Result<User>)
    requires EndsWithin(StarList(client, cfg), FirstPage, bound)
    requires ParseWindow(dates, cfg) == Ok(w)
    requires forall sg :: sg in KeptStargazers(dates, w, Flatten(Fetched(StarList(client, cfg), FirstPage, bound))) ==>
               getByID(sg.user.id) == client.getByID(sg.user.id)
    ensures StarList(client.(getByID := getByID), cfg) == StarList(client, cfg)
    ensures ListStargazersSpec(client.(getByID := getByID), dates, cfg, onlyID, bound) ==
            ListStargazersSpec(client, dates, cfg, onlyID, bound)
  {
    var other := client.(getByID := getByID);
    var fetch := StarList(client, cfg);
    assert StarList(other, cfg) == fetch;
    var received := Flatten(Fetched(fetch, FirstPage, bound));
    var kept := KeptStargazers(dates, w, received);
    var ids := IDs(ListedUsers(kept));
    forall i | 0 <= i < |ids| ensures getByID(ids[i]) == client.getByID(ids[i]) {
      assert kept[i] in kept;
    }
    HydrateAllLocal(getByID, ids, client.getByID, ids);
    WalkFetched(fetch, StarStep(client, dates, w, onlyID), FirstPage, bound, Collected([], []));
    WalkFetched(fetch, StarStep(other, dates, w, onlyID), FirstPage, bound, Collected([], []));
    StarFoldClosedForm(client, dates, w, onlyID, Collected([], []), received);
    StarFoldClosedForm(other, dates, w, onlyID, Collected([], []), received);
  }

  // ---------------------------------------------------------------------------
  // Which lookups the listing makes.

  /// One page's lookups: none with `onlyID`; otherwise `Tried` over the
  /// stargazers inside the window, in order, so all of them, or those up to
  /// and including the first whose lookup fails.
  lemma {:induction false} StarLookupsClosedForm(client: Client, dates: Dates, w: Window, onlyID: bool, c: Collected, sgs: seq<Stargazer>)
    ensures var ids := if onlyID then [] else IDs(ListedUsers(KeptStargazers(dates, w, sgs)));
      var looked := FoldLookups(StarStep(client, dates, w, onlyID), StarAsks(dates, w, onlyID), c, sgs);
      && looked == Tried(client.getByID, ids)
      && (Fold(StarStep(client, dates, w, onlyID), c, sgs).Ok? ==> looked == ids)
    decreases |sgs|
  {
    var step, asks := StarStep(client, dates, w, onlyID), StarAsks(dates, w, onlyID);
    if sgs != [] {
      var sg := sgs[0];
      var kept := KeptStargazers(dates, w, sgs[1..]);
      if !InWindow(dates, w, sg.starredAt) {
        assert step(c, sg) == Ok(c) && asks(c, sg) == [];
        StarLookupsClosedForm(client, dates, w, onlyID, c, sgs[1..]);
      } else {
        var here := [sg] + kept;
        assert here[0] == sg && here[1..] == kept;
        assert KeptStargazers(dates, w, sgs) == here;
        if onlyID {
          var c' := Collected(c.users + [sg.user], c.times + [sg.starredAt]);
          assert step(c, sg) == Ok(c') && asks(c, sg) == [];
          StarLookupsClosedForm(client, dates, w, onlyID, c', sgs[1..]);
        } else {
          assert asks(c, sg) == [sg.user.id];
          assert ListedUsers(here) == [sg.user] + ListedUsers(kept);
          var ids := IDs(ListedUsers(here));
          assert ids == [sg.user.id] + IDs(ListedUsers(kept));
          assert ids[0] == sg.user.id && ids[1..] == IDs(ListedUsers(kept));
          match client.getByID(sg.user.id)
          case Err(e) =>
            assert step(c, sg) == Err(e);
          case Ok(u) =>
            var c' := Collected(c.users + [u], c.times + [sg.starredAt]);
            assert step(c, sg) == Ok(c');
            StarLookupsClosedForm(client, dates, w, onlyID, c', sgs[1..]);
        }
      }
    }
  }

  /// Without `onlyID`, `listStargazers` looks up only the stargazers inside
  /// the window, whether or not a page request fails: its lookups run over
  /// those stargazers on the pages it received, in listing order, and stop
  /// at the first failing one; when it succeeds it has looked up all of them.
  /// When the window does not parse it looks up nothing.
  lemma ListStargazersLookupsKept(client: Client, dates: Dates, cfg: Config, bound: nat)
    requires EndsWithin(StarList(client, cfg), FirstPage, bound)
    ensures ParseWindow(dates, cfg).Err? ==> ListStargazersLookups(client, dates, cfg, false, bound) == []
    ensures ParseWindow(dates, cfg).Ok? ==>
      var received := Flatten(Fetched(StarList(client, cfg), FirstPage, bound));
      var ids := IDs(ListedUsers(KeptStargazers(dates, ParseWindow(dates, cfg).value, received)));
      var looked := ListStargazersLookups(client, dates, cfg, false, bound);
      && looked == Tried(client.getByID, ids)
      && StopsAtFirstFailure(client.getByID, ids, looked)
      && (ListStargazersSpec(client, dates, cfg, false, bound).Ok? ==> looked == ids)
  {
    if ParseWindow(dates, cfg).Ok? {
      var w := ParseWindow(dates, cfg).value;
      var fetch, step := StarList(client, cfg), StarStep(client, dates, w, false);
      var received := Flatten(Fetched(fetch, FirstPage, bound));
      WalkLookupsFetched(fetch, step, StarAsks(dates, w, false), FirstPage, bound, Collected([], []));
      StarLookupsClosedForm(client, dates, w, false, Collected([], []), received);
      TriedCut(client.getByID, IDs(ListedUsers(KeptStargazers(dates, w, received))));
      if ListStargazersSpec(client, dates, cfg, false, bound).Ok? {
        WalkOkFetched(fetch, step, FirstPage, bound, Collected([], []));
      }
    }
  }

  /// With `onlyID`, `listStargazers` makes no `GetByID` call at all, however
  /// the page requests go.
  lemma ListStargazersOnlyIDLooksUpNothing(client: Client, dates: Dates, cfg: Config, bound: nat)
    requires EndsWithin(StarList(client, cfg), FirstPage, bound)
    ensures ListStargazersLookups(client, dates, cfg, true, bound) == []
  {
    if ParseWindow(dates, cfg).Ok? {
      var w := ParseWindow(dates, cfg).value;
      var asks := StarAsks(dates, w, true);
      forall x: Collected, y: Stargazer ensures asks(x, y) == [] {
      }
      NoLookups(StarList(client, cfg), StarStep(client, dates, w, true), asks, FirstPage, bound, Collected([], []));
    }
  }
}
