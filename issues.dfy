/// `listIssues`: the reporters of a repository's issues, each looked up once,
/// in the order they first report an issue.
module Issues {
  import opened GitHub
  import opened Paging

  /// The issue listing of the configured repository.
  function IssueList(client: Client, cfg: Config): Fetch<Issue>
  {
    opt => client.listIssues(cfg.owner, cfg.repo, opt)
  }

  /// The users found so far and `userCache`, the identifiers already looked up.
  datatype Reporters = Reporters(users: seq<User>, cache: set<int>)

  /// The loop body of `listIssues`: a reporter already in the cache is
  /// skipped; otherwise it is looked up, appended and added to the cache.
  function IssueStep(client: Client): Step<Reporters, Issue>
  {
    (s: Reporters, issue: Issue) =>
      if issue.user.id in s.cache then Ok(s)
      else
        match client.getByID(issue.user.id)
        case Err(e) => Err(e)
        case Ok(u) => Ok(Reporters(s.users + [u], s.cache + {issue.user.id}))
  }

  /// The identifier `IssueStep` looks up: the reporter's, unless cached.
  function IssueAsks(): Asks<Reporters, Issue>
  {
    (s: Reporters, issue: Issue) => if issue.user.id in s.cache then [] else [issue.user.id]
  }

  function ReporterIDs(issues: seq<Issue>): (r: seq<int>)
    ensures |r| == |issues| && forall i :: 0 <= i < |issues| ==> r[i] == issues[i].user.id
  {
    if issues == [] then [] else [issues[0].user.id] + ReporterIDs(issues[1..])
  }

  /// Record a batch of looked-up reporters: the profiles are appended and the
  /// identifiers enter the cache; a failed lookup fails.
  function Settle(s: Reporters, looked: Result<seq<User>>, ids: seq<int>): Result<Reporters>
  {
    match looked
    case Err(e) => Err(e)
    case Ok(us) => Ok(Reporters(s.users + us, s.cache + Elements(ids)))
  }

  /// The outcome of `listIssues`.
  function ListIssuesSpec(client: Client, cfg: Config, bound: nat): Result<seq<User>>
    requires EndsWithin(IssueList(client, cfg), FirstPage, bound)
  {
    match Walk(IssueList(client, cfg), IssueStep(client), FirstPage, bound, Reporters([], {}))
    case Err(e) => Err(e)
    case Ok(s) => Ok(s.users)
  }

  /// The listing requests `listIssues` makes.
  ghost function ListIssuesRequests(client: Client, cfg: Config, bound: nat): seq<ListOptions>
    requires EndsWithin(IssueList(client, cfg), FirstPage, bound)
  {
    Requests(IssueList(client, cfg), IssueStep(client), FirstPage, bound, Reporters([], {}))
  }

  /// The `GetByID` calls `listIssues` makes.
  ghost function ListIssuesLookups(client: Client, cfg: Config, bound: nat): seq<int>
    requires EndsWithin(IssueList(client, cfg), FirstPage, bound)
  {
    Lookups(IssueList(client, cfg), IssueStep(client), IssueAsks(), FirstPage, bound, Reporters([], {}))
  }

  /// `listIssues`: walk the issue pages and look every new reporter up once.
  method ListIssues(client: Client, cfg: Config, ghost bound: nat)
    returns (users: seq<User>, err: Option<Error>, ghost requested: seq<ListOptions>, ghost looked: seq<int>)
    requires EndsWithin(IssueList(client, cfg), FirstPage, bound)
    ensures var r := ListIssuesSpec(client, cfg, bound);
      && (r.Err? ==> err == Some(r.error) && users == [])
      && (r.Ok? ==> err == None && users == r.value)
    ensures requested == ListIssuesRequests(client, cfg, bound)
    ensures looked == ListIssuesLookups(client, cfg, bound)
  {
    var r;
    r, requested, looked := IssuePages(client, cfg, bound);
    match r
    case Err(e) =>
      return [], Some(e), requested, looked;
    case Ok(s) =>
      return s.users, None, requested, looked;
  }

  /// The page loop of `listIssues`.
  method IssuePages(client: Client, cfg: Config, ghost bound: nat)
    returns (r: Result<Reporters>, ghost requested: seq<ListOptions>, ghost looked: seq<int>)
    requires EndsWithin(IssueList(client, cfg), FirstPage, bound)
    ensures r == Walk(IssueList(client, cfg), IssueStep(client), FirstPage, bound, Reporters([], {}))
    ensures requested == Requests(IssueList(client, cfg), IssueStep(client), FirstPage, bound, Reporters([], {}))
    ensures looked == Lookups(IssueList(client, cfg), IssueStep(client), IssueAsks(), FirstPage, bound, Reporters([], {}))
  {
    ghost var fetch, step, asks := IssueList(client, cfg), IssueStep(client), IssueAsks();
    ghost var init := Reporters([], {});
    var opt := FirstPage;
    ghost var fuel := bound;
    var s := Reporters([], {});
    requested, looked := [], [];
    MidwayStart(fetch, step, asks, FirstPage, bound, init);
    while true
      invariant Midway(fetch, step, asks, FirstPage, bound, init, opt, fuel, s, requested, looked)
      decreases fuel
    {
      var resp := client.listIssues(cfg.owner, cfg.repo, opt);
      assert fetch(opt) == resp;
      if resp.Err? {
        MidwayStops(fetch, step, asks, FirstPage, bound, init, opt, fuel, s, requested, looked);
        return Err(resp.error), requested + [opt], looked + [];
      }
      var page := resp.value;
      var next, pageLooked := IssuePage(client, s, page.items);
      if next.Err? || page.nextPage == 0 {
        MidwayStops(fetch, step, asks, FirstPage, bound, init, opt, fuel, s, requested, looked);
        return next, requested + [opt], looked + pageLooked;
      }
      MidwayGoesOn(fetch, step, asks, FirstPage, bound, init, opt, fuel, s, requested, looked);
      requested, looked := requested + [opt], looked + pageLooked;
      s := next.value;
      opt := opt.(page := page.nextPage);
      fuel := fuel - 1;
    }
  }

  /// The body of the page loop of `listIssues`: the issues of one page, in order.
  method IssuePage(client: Client, s: Reporters, issues: seq<Issue>) returns (r: Result<Reporters>, ghost looked: seq<int>)
    ensures r == Fold(IssueStep(client), s, issues)
    ensures looked == FoldLookups(IssueStep(client), IssueAsks(), s, issues)
  {
    ghost var step, asks := IssueStep(client), IssueAsks();
    var users, userCache := s.users, s.cache;
    looked := [];
    FoldMidwayStart(step, asks, s, issues);
    for i := 0 to |issues|
      invariant FoldMidway(step, asks, s, issues, Reporters(users, userCache), i, looked)
    {
      var id := issues[i].user.id;
      ghost var cur := Reporters(users, userCache);
      if id in userCache {
        assert step(cur, issues[i]) == Ok(cur) && asks(cur, issues[i]) == [];
        FoldMidwayStep(step, asks, s, issues, cur, i, looked);
        assert looked + [] == looked;
        continue;
      }
      assert asks(cur, issues[i]) == [id];
      var user := client.getByID(id);
      if user.Err? {
        assert step(cur, issues[i]) == Err(user.error);
        FoldMidwayFails(step, asks, s, issues, cur, i, looked);
        return Err(user.error), looked + [id];
      }
      assert step(cur, issues[i]) == Ok(Reporters(users + [user.value], userCache + {id}));
      FoldMidwayStep(step, asks, s, issues, cur, i, looked);
      looked := looked + [id];
      users := users + [user.value];
      userCache := userCache + {id};
    }
    FoldMidwayEnds(step, asks, s, issues, Reporters(users, userCache), looked);
    return Ok(Reporters(users, userCache)), looked;
  }

  // ---------------------------------------------------------------------------
  // What the listing returns.

  /// One page's loop, in closed form: exactly the reporters not yet in the
  /// cache are looked up, each once, in the order they first appear.
  lemma {:induction false} IssueFoldClosedForm(client: Client, s: Reporters, issues: seq<Issue>)
    ensures var ids := FirstSeen(ReporterIDs(issues), s.cache);
      Fold(IssueStep(client), s, issues) == Settle(s, HydrateAll(client.getByID, ids), ids)
    decreases |issues|
  {
    var all := ReporterIDs(issues);
    if issues == [] {
      assert s.users + [] == s.users && s.cache + Elements([]) == s.cache;
    } else {
      var id := issues[0].user.id;
      assert all[0] == id && all[1..] == ReporterIDs(issues[1..]);
      if id in s.cache {
        assert IssueStep(client)(s, issues[0]) == Ok(s);
        IssueFoldClosedForm(client, s, issues[1..]);
      } else {
        var rest := FirstSeen(ReporterIDs(issues[1..]), s.cache + {id});
        var ids := [id] + rest;
        assert FirstSeen(all, s.cache) == ids;
        assert ids[0] == id && ids[1..] == rest;
        match client.getByID(id)
        case Err(e) =>
          assert IssueStep(client)(s, issues[0]) == Err(e);
          assert HydrateAll(client.getByID, ids) == Err(e);
        case Ok(u) =>
          var s' := Reporters(s.users + [u], s.cache + {id});
          assert IssueStep(client)(s, issues[0]) == Ok(s');
          IssueFoldClosedForm(client, s', issues[1..]);
          var tail := HydrateAll(client.getByID, rest);
          assert HydrateAll(client.getByID, ids) == if tail.Ok? then Ok([u] + tail.value) else tail;
          if tail.Ok? {
            assert s.users + [u] + tail.value == s.users + ([u] + tail.value);
            assert s.cache + {id} + Elements(rest) == s.cache + Elements(ids);
          }
      }
    }
  }

  /// When every page request succeeds, `listIssues` looks up the distinct
  /// reporters of all listed issues, in first-seen order, each exactly once,
  /// and returns the profiles in that order; the first failing lookup is
  /// returned instead.
  lemma ListIssuesContents(client: Client, cfg: Config, bound: nat, pages: seq<Page<Issue>>)
    requires EndsWithin(IssueList(client, cfg), FirstPage, bound)
    requires Chain(IssueList(client, cfg), FirstPage, bound) == Ok(pages)
    ensures var looked := HydrateAll(client.getByID, FirstSeen(ReporterIDs(Flatten(pages)), {}));
      ListIssuesSpec(client, cfg, bound) == looked
  {
    var ids := FirstSeen(ReporterIDs(Flatten(pages)), {});
    WalkIsFold(IssueList(client, cfg), IssueStep(client), FirstPage, bound, Reporters([], {}), pages);
    IssueFoldClosedForm(client, Reporters([], {}), Flatten(pages));
    var looked := HydrateAll(client.getByID, ids);
    if looked.Ok? {
      assert [] + looked.value == looked.value;
    }
  }

  /// On success user `i` is the profile of the `i`-th distinct reporter, no
  /// reporter is looked up twice, and the reporters are in the order of their
  /// first issue. With a lookup that answers each identifier with that
  /// account, the returned users have pairwise distinct identifiers.
  lemma ListIssuesDistinct(client: Client, cfg: Config, bound: nat, pages: seq<Page<Issue>>)
    requires EndsWithin(IssueList(client, cfg), FirstPage, bound)
    requires Chain(IssueList(client, cfg), FirstPage, bound) == Ok(pages)
    requires ListIssuesSpec(client, cfg, bound).Ok?
    ensures var users := ListIssuesSpec(client, cfg, bound).value;
      var all := ReporterIDs(Flatten(pages));
      var ids := FirstSeen(all, {});
      && |users| == |ids|
      && (forall i :: 0 <= i < |ids| ==> client.getByID(ids[i]) == Ok(users[i]))
      && Distinct(ids)
      && (forall x :: x in ids <==> x in all)
      && (forall i, j :: 0 <= i < j < |ids| && ids[i] in all && ids[j] in all ==> IndexOf(all, ids[i]) < IndexOf(all, ids[j]))
      && (Consistent(client.getByID) ==> Distinct(IDs(users)))
  {
    var all := ReporterIDs(Flatten(pages));
    var ids := FirstSeen(all, {});
    ListIssuesContents(client, cfg, bound, pages);
    HydrateAllResult(client.getByID, ids);
    FirstSeenDistinct(all, {});
    FirstSeenMembers(all, {});
    FirstSeenOrder(all, {});
    var users := ListIssuesSpec(client, cfg, bound).value;
    if Consistent(client.getByID) {
      forall i, j | 0 <= i < j < |users| ensures IDs(users)[i] != IDs(users)[j] {
        assert client.getByID(ids[i]).value.id == ids[i];
        assert client.getByID(ids[j]).value.id == ids[j];
      }
    }
  }

  // ---------------------------------------------------------------------------
  // Which lookups the listing makes.

  /// One page's lookups: `Tried` over the reporters not yet cached, in
  /// first-seen order, so all of them, or those up to and including the
  /// first whose lookup fails.
  lemma {:induction false} IssueLookupsClosedForm(client: Client, s: Reporters, issues: seq<Issue>)
    ensures var ids := FirstSeen(ReporterIDs(issues), s.cache);
      var looked := FoldLookups(IssueStep(client), IssueAsks(), s, issues);
      && looked == Tried(client.getByID, ids)
      && (Fold(IssueStep(client), s, issues).Ok? ==> looked == ids)
    decreases |issues|
  {
    if issues != [] {
      var id := issues[0].user.id;
      var all := ReporterIDs(issues);
      assert all[0] == id && all[1..] == ReporterIDs(issues[1..]);
      if id in s.cache {
        assert IssueStep(client)(s, issues[0]) == Ok(s);
        assert IssueAsks()(s, issues[0]) == [];
        IssueLookupsClosedForm(client, s, issues[1..]);
      } else {
        var rest := FirstSeen(ReporterIDs(issues[1..]), s.cache + {id});
        var ids := [id] + rest;
        assert FirstSeen(all, s.cache) == ids;
        assert ids[0] == id && ids[1..] == rest;
        assert IssueAsks()(s, issues[0]) == [id];
        match client.getByID(id)
        case Err(e) =>
          assert IssueStep(client)(s, issues[0]) == Err(e);
        case Ok(u) =>
          var s' := Reporters(s.users + [u], s.cache + {id});
          assert IssueStep(client)(s, issues[0]) == Ok(s');
          IssueLookupsClosedForm(client, s', issues[1..]);
      }
    }
  }

  /// `listIssues` calls `GetByID` at most once per reporter, whether or not
  /// a page request fails: its lookups run over the distinct reporters of
  /// the pages it received, in first-seen order, and stop at the first
  /// failing one; when it succeeds it has looked up all of them.
  lemma ListIssuesLooksUpOnce(client: Client, cfg: Config, bound: nat)
    requires EndsWithin(IssueList(client, cfg), FirstPage, bound)
    ensures var received := Flatten(Fetched(IssueList(client, cfg), FirstPage, bound));
      var ids := FirstSeen(ReporterIDs(received), {});
      var looked := ListIssuesLookups(client, cfg, bound);
      && looked == Tried(client.getByID, ids)
      && StopsAtFirstFailure(client.getByID, ids, looked)
      && Distinct(looked)
      && (ListIssuesSpec(client, cfg, bound).Ok? ==> looked == ids)
  {
    var fetch, step := IssueList(client, cfg), IssueStep(client);
    var received := Flatten(Fetched(fetch, FirstPage, bound));
    var ids := FirstSeen(ReporterIDs(received), {});
    WalkLookupsFetched(fetch, step, IssueAsks(), FirstPage, bound, Reporters([], {}));
    IssueLookupsClosedForm(client, Reporters([], {}), received);
    TriedCut(client.getByID, ids);
    FirstSeenDistinct(ReporterIDs(received), {});
    DistinctPrefix(ids, ListIssuesLookups(client, cfg, bound));
    if ListIssuesSpec(client, cfg, bound).Ok? {
      WalkOkFetched(fetch, step, FirstPage, bound, Reporters([], {}));
    }
  }
}
