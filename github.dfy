/// Records exchanged with the code-hosting platform, and the collaborators
/// that the listing and printing functions of github.go receive from outside:
/// the REST client, the date helpers and the field formatters.
module GitHub {

  datatype Option<+T> = None | Some(value: T)

  /// The `(value, error)` pair of a Go call: exactly one of the two is set.
  datatype Result<+T> = Ok(value: T) | Err(error: Error)

  /// The errors the modelled code can return.
  datatype Error =
    | Api(message: string)   // any failure reported by the REST client
    | Syntax(num: string)    // strconv.ParseInt: the text is not a decimal number
    | Range(num: string)     // strconv.ParseInt: the number does not fit in 64 bits
    | BadDate(text: string)  // a failure reported by parseDate

  /// An instant. Only `checkTime` compares instants, and it is abstract, so
  /// nothing here depends on the unit or on how the window bounds are read.
  type Time = int

  /// A platform account. The listing endpoints return it partly filled and
  /// `Users.GetByID` returns it complete; the identifier is always present.
  datatype User = User(
    id: int,
    login: Option<string>,
    name: Option<string>,
    email: Option<string>,
    location: Option<string>,
    company: Option<string>,
    blog: Option<string>,
    bio: Option<string>,
    publicRepos: Option<int>,
    following: Option<int>,
    followers: Option<int>,
    htmlURL: Option<string>)

  /// A repository as the fork and repository listings return it.
  datatype Repository = Repository(name: string, owner: User, createdAt: Time)

  /// One entry of the stargazer listing.
  datatype Stargazer = Stargazer(starredAt: Time, user: User)

  /// One entry of the issue listing: only the reporter matters here.
  datatype Issue = Issue(user: User)

  /// One entry of the commit listing: only the author matters here.
  datatype Commit = Commit(author: User)

  /// `github.ListOptions`: which page to ask for and how many items per page.
  datatype ListOptions = ListOptions(page: int, perPage: int)

  /// One response of a listing endpoint: its items and `resp.NextPage`,
  /// which is 0 on the last page.
  datatype Page<T> = Page(items: seq<T>, nextPage: int)

  /// The page size every listing asks for.
  const PerPage: int := 100

  /// The options of the first request: page 0 lets the platform pick its first page.
  const FirstPage: ListOptions := ListOptions(0, PerPage)

  /// The REST client, reduced to the calls github.go makes. Each listing takes
  /// the owner, the repository name and the list options.
  datatype Client = Client(
    listCommits: (string, string, ListOptions) -> Result<Page<Commit>>,
    listForks: (string, string, ListOptions) -> Result<Page<Repository>>,
    listWatchers: (string, string, ListOptions) -> Result<Page<User>>,
    listIssues: (string, string, ListOptions) -> Result<Page<Issue>>,
    listStargazers: (string, string, ListOptions) -> Result<Page<Stargazer>>,
    getByID: int -> Result<User>)

  /// The command-line configuration the listings read.
  datatype Config = Config(owner: string, repo: string, startDate: string, endDate: string)

  /// `parseDate` and `checkTime`, which github.go calls but does not define.
  datatype Dates = Dates(
    parseDate: string -> Result<Time>,
    checkTime: (Time, Time, Time) -> bool)

  /// `unifyInt`, `unifyStr` and `unifyDate`, which github.go calls but does not
  /// define: they render a possibly absent field as text.
  datatype Formatter = Formatter(
    unifyInt: Option<int> -> string,
    unifyStr: Option<string> -> string,
    unifyDate: Time -> string)

  /// The identifiers of `users`, in order.
  function IDs(users: seq<User>): (r: seq<int>)
    ensures |r| == |users| && forall i :: 0 <= i < |users| ==> r[i] == users[i].id
  {
    if users == [] then [] else [users[0].id] + IDs(users[1..])
  }

  /// The `Users.GetByID` calls made, in order, for `ids`: the first failure
  /// aborts, otherwise every profile is returned in the order of `ids`. The
  /// keys are identifiers, or lines of a file that each name one.
  function HydrateAll<K>(getByID: K -> Result<User>, ids: seq<K>): Result<seq<User>>
    decreases |ids|
  {
    if ids == [] then Ok([])
    else
      match getByID(ids[0])
      case Err(e) => Err(e)
      case Ok(u) =>
        match HydrateAll(getByID, ids[1..])
        case Err(e) => Err(e)
        case Ok(us) => Ok([u] + us)
  }

  /// The keys `HydrateAll` passes to the lookup, in order: all of `ids`, or
  /// those up to and including the first whose lookup fails.
  function Tried<K>(getByID: K -> Result<User>, ids: seq<K>): (r: seq<K>)
    ensures r <= ids
    decreases |ids|
  {
    if ids == [] then []
    else [ids[0]] + if getByID(ids[0]).Err? then [] else Tried(getByID, ids[1..])
  }

  /// `looked` is a run of lookups over `ids` that stops at the first
  /// failure: all of `ids` when every lookup succeeds, otherwise `ids` up to
  /// and including the first key whose lookup fails.
  ghost predicate StopsAtFirstFailure<K>(getByID: K -> Result<User>, ids: seq<K>, looked: seq<K>)
  {
    && ((forall i :: 0 <= i < |ids| ==> getByID(ids[i]).Ok?) ==> looked == ids)
    && ((exists i :: 0 <= i < |ids| && getByID(ids[i]).Err?) ==>
          exists k :: 0 <= k < |ids| && looked == ids[..k + 1] && getByID(ids[k]).Err?
                      && forall j :: 0 <= j < k ==> getByID(ids[j]).Ok?)
  }

  /// `HydrateAll` tries every key when every lookup succeeds, and otherwise
  /// stops right after the first key whose lookup fails.
  lemma TriedCut<K>(getByID: K -> Result<User>, ids: seq<K>)
    ensures StopsAtFirstFailure(getByID, ids, Tried(getByID, ids))
  {
    if forall i :: 0 <= i < |ids| ==> getByID(ids[i]).Ok? {
      TriedAll(getByID, ids);
    } else {
      HydrateAllResult(getByID, ids);
      var r := HydrateAll(getByID, ids);
      var k :| 0 <= k < |ids| && getByID(ids[k]) == Err(r.error) && forall j :: 0 <= j < k ==> getByID(ids[j]).Ok?;
      TriedStopsAt(getByID, ids, k);
    }
  }

  lemma {:induction false} TriedAll<K>(getByID: K -> Result<User>, ids: seq<K>)
    requires forall i :: 0 <= i < |ids| ==> getByID(ids[i]).Ok?
    ensures Tried(getByID, ids) == ids
    decreases |ids|
  {
    if ids != [] {
      var tail := ids[1..];
      forall i | 0 <= i < |tail| ensures getByID(tail[i]).Ok? {
        assert tail[i] == ids[i + 1];
      }
      TriedAll(getByID, tail);
      assert getByID(ids[0]).Ok?;
      assert [ids[0]] + tail == ids;
    }
  }

  lemma {:induction false} TriedStopsAt<K>(getByID: K -> Result<User>, ids: seq<K>, k: nat)
    requires k < |ids| && getByID(ids[k]).Err?
    requires forall j :: 0 <= j < k ==> getByID(ids[j]).Ok?
    ensures Tried(getByID, ids) == ids[..k + 1]
    decreases k
  {
    if k == 0 {
      assert Tried(getByID, ids) == [ids[0]];
    } else {
      var tail := ids[1..];
      assert getByID(ids[0]).Ok?;
      assert tail[k - 1] == ids[k];
      forall j | 0 <= j < k - 1 ensures getByID(tail[j]).Ok? {
        assert tail[j] == ids[j + 1];
      }
      TriedStopsAt(getByID, tail, k - 1);
      assert [ids[0]] + tail[..k] == ids[..k + 1];
    }
  }

  /// Append a batch of looked-up profiles; a failed lookup fails.
  function Extend(us: seq<User>, looked: Result<seq<User>>): Result<seq<User>>
  {
    match looked
    case Err(e) => Err(e)
    case Ok(vs) => Ok(us + vs)
  }

  /// The lookups succeed exactly when every identifier resolves; then the
  /// profiles line up with the identifiers. Otherwise the error is that of the
  /// first identifier that does not resolve.
  lemma {:induction false} HydrateAllResult<K>(getByID: K -> Result<User>, ids: seq<K>)
    ensures var r := HydrateAll(getByID, ids);
      && (r.Ok? <==> forall i :: 0 <= i < |ids| ==> getByID(ids[i]).Ok?)
      && (r.Ok? ==> |r.value| == |ids| && forall i :: 0 <= i < |ids| ==> getByID(ids[i]) == Ok(r.value[i]))
      && (r.Err? ==> exists i :: 0 <= i < |ids| && getByID(ids[i]) == Err(r.error)
                                 && forall j :: 0 <= j < i ==> getByID(ids[j]).Ok?)
    decreases |ids|
  {
    if ids != [] {
      HydrateAllResult(getByID, ids[1..]);
      var r := HydrateAll(getByID, ids);
      var tail := HydrateAll(getByID, ids[1..]);
      if getByID(ids[0]).Ok? {
        if tail.Ok? {
          forall i | 0 <= i < |ids| ensures getByID(ids[i]) == Ok(r.value[i]) {
            if i > 0 {
              assert ids[i] == ids[1..][i - 1];
            }
          }
        } else {
          var k :| 0 <= k < |ids[1..]| && getByID(ids[1..][k]) == Err(tail.error)
                    && forall j :: 0 <= j < k ==> getByID(ids[1..][j]).Ok?;
          assert getByID(ids[k + 1]) == Err(r.error);
          forall j | 0 <= j < k + 1 ensures getByID(ids[j]).Ok? {
            if j > 0 {
              assert ids[j] == ids[1..][j - 1];
            }
          }
        }
      }
    }
  }

  /// The lookups depend only on what is answered for the keys asked: two
  /// lookups that answer alike key by key give the same outcome.
  lemma {:induction false} HydrateAllLocal<K, L>(f: K -> Result<User>, xs: seq<K>, g: L -> Result<User>, ys: seq<L>)
    requires |xs| == |ys|
    requires forall i :: 0 <= i < |xs| ==> f(xs[i]) == g(ys[i])
    ensures HydrateAll(f, xs) == HydrateAll(g, ys)
    decreases |xs|
  {
    if xs != [] {
      assert f(xs[0]) == g(ys[0]);
      forall i | 0 <= i < |xs[1..]| ensures f(xs[1..][i]) == g(ys[1..][i]) {
        assert xs[1..][i] == xs[i + 1] && ys[1..][i] == ys[i + 1];
      }
      HydrateAllLocal(f, xs[1..], g, ys[1..]);
    }
  }

  /// A profile lookup that answers every identifier with that identifier's account.
  ghost predicate Consistent(getByID: int -> Result<User>)
  {
    forall id :: getByID(id).Ok? ==> getByID(id).value.id == id
  }

  // ---------------------------------------------------------------------------
  // First occurrences, as the caches of `listIssues` and `listCommits` keep them.

  /// The identifiers of `ids` that are not in `seen`, each kept at its first occurrence.
  function FirstSeen(ids: seq<int>, seen: set<int>): seq<int>
    decreases |ids|
  {
    if ids == [] then []
    else if ids[0] in seen then FirstSeen(ids[1..], seen)
    else [ids[0]] + FirstSeen(ids[1..], seen + {ids[0]})
  }

  /// The position of the first occurrence of `x` in `ids`.
  function IndexOf(ids: seq<int>, x: int): (k: nat)
    requires x in ids
    ensures k < |ids| && ids[k] == x && x !in ids[..k]
    decreases |ids|
  {
    if ids[0] == x then 0 else 1 + IndexOf(ids[1..], x)
  }

  function Elements(ids: seq<int>): (r: set<int>)
    ensures forall x :: x in r <==> x in ids
  {
    set x | x in ids
  }

  /// The identifiers kept are exactly those of `ids` not in `seen`.
  lemma {:induction false} FirstSeenMembers(ids: seq<int>, seen: set<int>)
    ensures forall x :: x in FirstSeen(ids, seen) <==> x in ids && x !in seen
    decreases |ids|
  {
    if ids != [] {
      if ids[0] in seen {
        FirstSeenMembers(ids[1..], seen);
        assert ids == [ids[0]] + ids[1..];
      } else {
        FirstSeenMembers(ids[1..], seen + {ids[0]});
        assert ids == [ids[0]] + ids[1..];
      }
    }
  }

  /// No element occurs twice.
  predicate Distinct(s: seq<int>)
  {
    forall i, j :: 0 <= i < j < |s| ==> s[i] != s[j]
  }

  /// A prefix of a sequence without repetitions has none either.
  lemma DistinctPrefix(s: seq<int>, t: seq<int>)
    requires Distinct(s) && t <= s
    ensures Distinct(t)
  {
    forall i, j | 0 <= i < j < |t| ensures t[i] != t[j] {
      assert t[i] == s[i] && t[j] == s[j];
    }
  }

  /// No identifier is kept twice.
  lemma {:induction false} FirstSeenDistinct(ids: seq<int>, seen: set<int>)
    ensures Distinct(FirstSeen(ids, seen))
    decreases |ids|
  {
    if ids != [] {
      if ids[0] in seen {
        assert FirstSeen(ids, seen) == FirstSeen(ids[1..], seen);
        FirstSeenDistinct(ids[1..], seen);
      } else {
        var tail := FirstSeen(ids[1..], seen + {ids[0]});
        FirstSeenDistinct(ids[1..], seen + {ids[0]});
        FirstSeenMembers(ids[1..], seen + {ids[0]});
        var r := [ids[0]] + tail;
        forall i, j | 0 <= i < j < |r| ensures r[i] != r[j] {
          if i == 0 {
            assert r[j] == tail[j - 1] && tail[j - 1] in tail;
          } else {
            assert r[i] == tail[i - 1] && r[j] == tail[j - 1];
          }
        }
      }
    }
  }

  /// An identifier of the tail other than the head is found one place later
  /// in the whole sequence.
  lemma IndexOfTail(ids: seq<int>, x: int)
    requires ids != [] && x in ids[1..] && x != ids[0]
    ensures x in ids && IndexOf(ids, x) == 1 + IndexOf(ids[1..], x)
  {
    assert ids == [ids[0]] + ids[1..];
  }

  /// The identifiers are kept in the order of their first occurrence.
  lemma {:induction false} FirstSeenOrder(ids: seq<int>, seen: set<int>)
    ensures var r := FirstSeen(ids, seen);
      && (forall k :: 0 <= k < |r| ==> r[k] in ids)
      && forall i, j :: 0 <= i < j < |r| && r[i] in ids && r[j] in ids ==> IndexOf(ids, r[i]) < IndexOf(ids, r[j])
    decreases |ids|
  {
    if ids != [] {
      var seen' := if ids[0] in seen then seen else seen + {ids[0]};
      var tail := FirstSeen(ids[1..], seen');
      FirstSeenOrder(ids[1..], seen');
      FirstSeenMembers(ids[1..], seen');
      // Every identifier kept from the tail differs from ids[0], so its first
      // occurrence in ids is one past its first occurrence in the tail.
      forall k | 0 <= k < |tail| ensures tail[k] in ids && IndexOf(ids, tail[k]) == 1 + IndexOf(ids[1..], tail[k]) {
        assert tail[k] in FirstSeen(ids[1..], seen');
        IndexOfTail(ids, tail[k]);
      }
      var r := FirstSeen(ids, seen);
      if ids[0] !in seen {
        assert r == [ids[0]] + tail;
        forall i, j | 0 <= i < j < |r| ensures IndexOf(ids, r[i]) < IndexOf(ids, r[j]) {
          assert r[j] == tail[j - 1];
          if i > 0 {
            assert r[i] == tail[i - 1];
          }
        }
      }
    }
  }
}
