/// `listCommits`: the authors of a repository's commits, as listed (no
/// profile lookup).
module Commits {
  import opened GitHub
  import opened Paging

  /// The commit listing of the configured repository.
  function CommitList(client: Client, cfg: Config): Fetch<Commit>
  {
    opt => client.listCommits(cfg.owner, cfg.repo, opt)
  }

  /// The loop body of `listCommits` as written. The map is keyed by the
  /// address of the author's identifier, and every decoded commit has its
  /// own, so the membership test never finds an earlier entry: every commit
  /// adds its author.
  function CommitStep(): Step<seq<User>, Commit>
  {
    (us: seq<User>, c: Commit) => Ok(us + [c.author])
  }

  function Authors(cs: seq<Commit>): (r: seq<User>)
    ensures |r| == |cs| && forall i :: 0 <= i < |cs| ==> r[i] == cs[i].author
  {
    if cs == [] then [] else [cs[0].author] + Authors(cs[1..])
  }

  /// The outcome of `listCommits`, with the authors in listing order.
  function ListCommitsSpec(client: Client, cfg: Config, bound: nat): Result<seq<User>>
    requires EndsWithin(CommitList(client, cfg), FirstPage, bound)
  {
    Walk(CommitList(client, cfg), CommitStep(), FirstPage, bound, [])
  }

  /// The listing requests `listCommits` makes.
  ghost function ListCommitsRequests(client: Client, cfg: Config, bound: nat): seq<ListOptions>
    requires EndsWithin(CommitList(client, cfg), FirstPage, bound)
  {
    Requests(CommitList(client, cfg), CommitStep(), FirstPage, bound, [])
  }

  /// `listCommits`: walk the commit pages and collect every author.
  method ListCommits(client: Client, cfg: Config, ghost bound: nat)
    returns (users: seq<User>, err: Option<Error>, ghost requested: seq<ListOptions>)
    requires EndsWithin(CommitList(client, cfg), FirstPage, bound)
    ensures var r := ListCommitsSpec(client, cfg, bound);
      && (r.Err? ==> err == Some(r.error) && users == [])
      && (r.Ok? ==> err == None && users == r.value)
    ensures requested == ListCommitsRequests(client, cfg, bound)
  {
    ghost var fetch := CommitList(client, cfg);
    ghost var step := CommitStep();
    var opt := FirstPage;
    ghost var fuel := bound;
    var all: seq<User> := [];
    requested := [];
    while true
      invariant EndsWithin(fetch, opt, fuel)
      invariant Walk(fetch, step, FirstPage, bound, []) == Walk(fetch, step, opt, fuel, all)
      invariant Requests(fetch, step, FirstPage, bound, []) == requested + Requests(fetch, step, opt, fuel, all)
      decreases fuel
    {
      var resp := client.listCommits(cfg.owner, cfg.repo, opt);
      assert fetch(opt) == resp;
      WalkAt(fetch, step, opt, fuel, all);
      requested := requested + [opt];
      if resp.Err? {
        return [], Some(resp.error), requested;
      }
      var page := resp.value;
      all := CommitPage(all, page.items);
      if page.nextPage == 0 {
        return all, None, requested;
      }
      opt := opt.(page := page.nextPage);
      fuel := fuel - 1;
    }
  }

  /// The body of the page loop of `listCommits`: the commits of one page, in order.
  method CommitPage(all: seq<User>, cs: seq<Commit>) returns (r: seq<User>)
    ensures Fold(CommitStep(), all, cs) == Ok(r)
  {
    ghost var step := CommitStep();
    r := all;
    var i := 0;
    while i < |cs|
      invariant 0 <= i <= |cs|
      invariant Fold(step, all, cs) == Fold(step, r, cs[i..])
    {
      FoldAt(step, r, cs, i);
      r := r + [cs[i].author];
      i := i + 1;
    }
    assert cs[i..] == [];
  }

  /// One page's loop, in closed form: every author is appended, in order.
  lemma {:induction false} CommitFoldClosedForm(us: seq<User>, cs: seq<Commit>)
    ensures Fold(CommitStep(), us, cs) == Ok(us + Authors(cs))
    decreases |cs|
  {
    if cs == [] {
      assert us + [] == us;
    } else {
      assert CommitStep()(us, cs[0]) == Ok(us + [cs[0].author]);
      CommitFoldClosedForm(us + [cs[0].author], cs[1..]);
      assert us + [cs[0].author] + Authors(cs[1..]) == us + Authors(cs);
    }
  }

  /// `listCommits` fails exactly when some page request fails; otherwise it
  /// returns one author per listed commit, across all pages. The source
  /// returns them in map order, which is unspecified, so only the multiset
  /// is stated.
  lemma ListCommitsOutcome(client: Client, cfg: Config, bound: nat)
    requires EndsWithin(CommitList(client, cfg), FirstPage, bound)
    ensures ListCommitsSpec(client, cfg, bound).Ok? <==> Chain(CommitList(client, cfg), FirstPage, bound).Ok?
    ensures ListCommitsSpec(client, cfg, bound).Ok? ==>
      multiset(ListCommitsSpec(client, cfg, bound).value) ==
        multiset(Authors(Flatten(Chain(CommitList(client, cfg), FirstPage, bound).value)))
  {
    var fetch := CommitList(client, cfg);
    match Chain(fetch, FirstPage, bound)
    case Err(_) =>
      ChainErrorFailsWalk(fetch, CommitStep(), FirstPage, bound, []);
    case Ok(pages) =>
      WalkIsFold(fetch, CommitStep(), FirstPage, bound, [], pages);
      CommitFoldClosedForm([], Flatten(pages));
      assert [] + Authors(Flatten(pages)) == Authors(Flatten(pages));
  }

  /// As written, an author with several commits is returned several times:
  /// a single page listing two commits by the same account yields that
  /// account twice.
  lemma ListCommitsKeepsDuplicates(client: Client, cfg: Config, u: User)
    requires client.listCommits(cfg.owner, cfg.repo, FirstPage) == Ok(Page([Commit(u), Commit(u)], 0))
    ensures EndsWithin(CommitList(client, cfg), FirstPage, 1)
    ensures ListCommitsSpec(client, cfg, 1) == Ok([u, u])
  {
    var fetch := CommitList(client, cfg);
    assert fetch(FirstPage) == Ok(Page([Commit(u), Commit(u)], 0));
    var cs := [Commit(u), Commit(u)];
    CommitFoldClosedForm([], cs);
    assert Authors(cs) == [u, u] by {
      assert Authors(cs) == [u] + Authors(cs[1..]);
      assert cs[1..] == [Commit(u)];
    }
    assert [] + [u, u] == [u, u];
    assert EndsWithin(fetch, FirstPage, 1);
    WalkAt(fetch, CommitStep(), FirstPage, 1, []);
  }

  // ---------------------------------------------------------------------------
  // Authors keyed by identifier value, as the membership test intends.

  /// The authors collected so far and the identifiers already recorded.
  datatype Seen = Seen(users: seq<User>, ids: set<int>)

  /// The loop body with the map keyed by the identifier's value: an author
  /// already recorded is skipped.
  function CommitStepByID(): Step<Seen, Commit>
  {
    (s: Seen, c: Commit) =>
      if c.author.id in s.ids then Ok(s) else Ok(Seen(s.users + [c.author], s.ids + {c.author.id}))
  }

  /// The authors of `cs` whose identifier is not in `seen`, each at its first commit.
  function FirstAuthors(cs: seq<Commit>, seen: set<int>): seq<User>
    decreases |cs|
  {
    if cs == [] then []
    else if cs[0].author.id in seen then FirstAuthors(cs[1..], seen)
    else [cs[0].author] + FirstAuthors(cs[1..], seen + {cs[0].author.id})
  }

  /// The outcome of `listCommits` with authors keyed by identifier value.
  function ListCommitsByIDSpec(client: Client, cfg: Config, bound: nat): Result<seq<User>>
    requires EndsWithin(CommitList(client, cfg), FirstPage, bound)
  {
    match Walk(CommitList(client, cfg), CommitStepByID(), FirstPage, bound, Seen([], {}))
    case Err(e) => Err(e)
    case Ok(s) => Ok(s.users)
  }

  /// `listCommits` with the map keyed by the identifier's value: walk the
  /// commit pages and collect each author once.
  method ListCommitsByID(client: Client, cfg: Config, ghost bound: nat)
    returns (users: seq<User>, err: Option<Error>)
    requires EndsWithin(CommitList(client, cfg), FirstPage, bound)
    ensures var r := ListCommitsByIDSpec(client, cfg, bound);
      && (r.Err? ==> err == Some(r.error) && users == [])
      && (r.Ok? ==> err == None && users == r.value)
  {
    ghost var fetch := CommitList(client, cfg);
    ghost var step := CommitStepByID();
    var opt := FirstPage;
    ghost var fuel := bound;
    var s := Seen([], {});
    while true
      invariant EndsWithin(fetch, opt, fuel)
      invariant Walk(fetch, step, FirstPage, bound, Seen([], {})) == Walk(fetch, step, opt, fuel, s)
      decreases fuel
    {
      var resp := client.listCommits(cfg.owner, cfg.repo, opt);
      assert fetch(opt) == resp;
      WalkAt(fetch, step, opt, fuel, s);
      if resp.Err? {
        return [], Some(resp.error);
      }
      var page := resp.value;
      s := CommitPageByID(s, page.items);
      if page.nextPage == 0 {
        return s.users, None;
      }
      opt := opt.(page := page.nextPage);
      fuel := fuel - 1;
    }
  }

  /// The body of the corrected page loop: the commits of one page, in order.
  method CommitPageByID(s: Seen, cs: seq<Commit>) returns (r: Seen)
    ensures Fold(CommitStepByID(), s, cs) == Ok(r)
  {
    ghost var step := CommitStepByID();
    var users, ids := s.users, s.ids;
    var i := 0;
    while i < |cs|
      invariant 0 <= i <= |cs|
      invariant Fold(step, s, cs) == Fold(step, Seen(users, ids), cs[i..])
    {
      FoldAt(step, Seen(users, ids), cs, i);
      var author := cs[i].author;
      if author.id !in ids {
        users := users + [author];
        ids := ids + {author.id};
      }
      i := i + 1;
    }
    assert cs[i..] == [];
    return Seen(users, ids);
  }

  /// The identifiers of the first authors are the first-seen identifiers.
  lemma {:induction false} FirstAuthorsIDs(cs: seq<Commit>, seen: set<int>)
    ensures IDs(FirstAuthors(cs, seen)) == FirstSeen(IDs(Authors(cs)), seen)
    decreases |cs|
  {
    if cs != [] {
      var ids := IDs(Authors(cs));
      assert ids[0] == cs[0].author.id && ids[1..] == IDs(Authors(cs[1..]));
      if cs[0].author.id in seen {
        FirstAuthorsIDs(cs[1..], seen);
      } else {
        FirstAuthorsIDs(cs[1..], seen + {cs[0].author.id});
        var rest := FirstAuthors(cs[1..], seen + {cs[0].author.id});
        assert IDs([cs[0].author] + rest) == [cs[0].author.id] + IDs(rest);
      }
    }
  }

  /// One page's loop keyed by identifier value, in closed form.
  lemma {:induction false} CommitByIDFoldClosedForm(s: Seen, cs: seq<Commit>)
    ensures Fold(CommitStepByID(), s, cs) ==
      Ok(Seen(s.users + FirstAuthors(cs, s.ids), s.ids + Elements(IDs(Authors(cs)))))
    decreases |cs|
  {
    if cs == [] {
      assert s.users + [] == s.users && s.ids + Elements([]) == s.ids;
    } else {
      var a := cs[0].author;
      var ids := IDs(Authors(cs));
      assert ids == [a.id] + IDs(Authors(cs[1..]));
      assert Elements(ids) == {a.id} + Elements(IDs(Authors(cs[1..])));
      if a.id in s.ids {
        assert CommitStepByID()(s, cs[0]) == Ok(s);
        CommitByIDFoldClosedForm(s, cs[1..]);
        assert FirstAuthors(cs, s.ids) == FirstAuthors(cs[1..], s.ids);
        assert s.ids + Elements(ids) == s.ids + Elements(IDs(Authors(cs[1..])));
      } else {
        var s' := Seen(s.users + [a], s.ids + {a.id});
        assert CommitStepByID()(s, cs[0]) == Ok(s');
        CommitByIDFoldClosedForm(s', cs[1..]);
        assert s.users + [a] + FirstAuthors(cs[1..], s'.ids) == s.users + FirstAuthors(cs, s.ids);
        assert s'.ids + Elements(IDs(Authors(cs[1..]))) == s.ids + Elements(ids);
      }
    }
  }

  /// Keyed by identifier value, `listCommits` returns each author of the
  /// listed commits exactly once, at its first commit.
  lemma ListCommitsByIDDistinct(client: Client, cfg: Config, bound: nat, pages: seq<Page<Commit>>)
    requires EndsWithin(CommitList(client, cfg), FirstPage, bound)
    requires Chain(CommitList(client, cfg), FirstPage, bound) == Ok(pages)
    ensures ListCommitsByIDSpec(client, cfg, bound) == Ok(FirstAuthors(Flatten(pages), {}))
    ensures Distinct(IDs(FirstAuthors(Flatten(pages), {})))
    ensures forall id :: id in IDs(FirstAuthors(Flatten(pages), {})) <==> id in IDs(Authors(Flatten(pages)))
  {
    var cs := Flatten(pages);
    WalkIsFold(CommitList(client, cfg), CommitStepByID(), FirstPage, bound, Seen([], {}), pages);
    CommitByIDFoldClosedForm(Seen([], {}), cs);
    assert [] + FirstAuthors(cs, {}) == FirstAuthors(cs, {});
    FirstAuthorsIDs(cs, {});
    FirstSeenDistinct(IDs(Authors(cs)), {});
    FirstSeenMembers(IDs(Authors(cs)), {});
  }
}
