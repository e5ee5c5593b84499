# github.go in Dafny

A model of the listing and printing core of `github.go`, a command-line
tool that lists the people around a repository on GitHub:
- commit authors;
- owners of forks;
- watchers;
- stargazers;
- issue reporters;
- the accounts named in a file of user identifiers.

Each listing walks a paginated REST endpoint. It asks for 100 items per
page, starting at page 0, and follows `NextPage` until the platform
answers 0. It filters items by an optional creation or starring window. It
may look each item's account up with `Users.GetByID`, and aborts on the
first error. The printers turn the accounts into tab-separated reports.
`printRepos` sorts repository names.

The remote client, `parseDate`, `checkTime` and the `unify*` formatters
are not defined in `github.go`. They enter the model as function values:
`GitHub.Client`, `GitHub.Dates` and `GitHub.Formatter`. Every listing
function is an imperative method with the loops of the source. It is
proved equal to a functional specification built from `Paging.Walk`, the
outer page loop, and `Paging.Fold`, the inner item loop. Lemmas then give
each specification in closed form and prove what the source promises
about it:
- which requests are made;
- which items are looked up;
- alignment of users and times;
- first-seen order and distinctness for issues;
- what the printed reports read back as.

Modules, one per file:
- `GitHub`: records, the client, and the `GetByID` lookups.
- `Paging`: the shared page loop.
- `Listing`: the time window and the `(users, times, err)` result.
- `Forkers`, `Watchers`, `Issues`, `Stargazers`, `Commits`, `UserFile`:
  one per listing function.
- `Numbers`: `strconv.ParseInt`.
- `Text`: `strings.Join` and `strings.Split`, and the order of
  `sort.Strings`.
- `Output`: the three user printers.
- `Repos`: `printRepos`.
- `UserSlice`.

Termination of the page loop needs a bound. Every listing takes a ghost
`bound` and requires `EndsWithin(fetch, FirstPage, bound)`: the page chain
reaches a last page or a failure within `bound` requests.
`Paging.WalkBoundIrrelevant` shows that the outcome does not depend on
the bound.

Only `listIssues` removes duplicates: its `userCache` skips reporters it
has already looked up. `listWatchers` returns one entry per listed
watcher. `listForkers` and `listStargazers` return one entry per listed
item inside the time window. `listCommits` tests its map for an earlier
author but never finds one (see Findings), and returns its authors in map
order.

Every listing method also returns, as ghost outputs, the page requests it
made and the identifiers it passed to `Users.GetByID`, in order.
`Paging.Requests` and `Paging.Lookups` specify them. A run of lookups
stops right after the first one that fails (`GitHub.Tried`,
`GitHub.StopsAtFirstFailure`). A failing page request ends the listing
with the lookups made for the pages received before it (`Paging.Fetched`).

## Model

| member | source | states |
|---|---|---|
| Paging.WalkIsFold | github.go:141-168 | when every page request succeeds, the page loop is one pass over all items of all pages in page order; how items are split into pages does not matter |
| Paging.ChainRequestsShape | github.go:163-167 | the first request asks for the first page; each next request repeats the options with `Page` set to the previous `NextPage`, which was not 0; the last request failed or got `NextPage == 0` |
| Paging.SuccessfulWalkRequests | github.go:163-168 | a successful listing makes exactly one request per page of the chain, and no more |
| Paging.RequestsBounded | github.go:141-168 | the loop makes at least one and at most `bound` requests |
| Paging.ChainErrorFailsWalk | github.go:142-145 | a failing page request makes the whole listing fail |
| Paging.WalkBoundIrrelevant | github.go:141-168 | outcome and requests are independent of the termination bound |
| Paging.FoldLookupsAppend | github.go:147-161 | the lookups of two item runs are those of the first, then those of the second unless the first failed |
| Paging.WalkLookupsIsFold | github.go:141-168 | when every page request succeeds, the listing's lookups are those of one pass over all items of all pages |
| Paging.NoLookups | github.go:141-168 | a loop body that looks nothing up makes no lookup, whatever the pages |
| Paging.ChainFetched | github.go:141-168 | when every page request succeeds, the pages the loop receives are exactly the page chain |
| Paging.WalkLookupsFetched | github.go:141-168 | whether or not a page request fails, the listing's lookups are those of one pass over the items of the pages received before it; a failing request adds none and ends the loop |
| Paging.WalkFetched | github.go:141-168 | whether or not a page request fails, the listing's outcome is one pass over the items of the pages received; if that pass succeeds, a failing page request's error is returned |
| Paging.WalkOkFetched | github.go:141-168 | a listing that succeeds received every page of the chain, and its outcome is one pass over all their items |
| Paging.FoldAppend | github.go:147-161 | processing two item runs one after the other is processing their concatenation, and an error stops it |
| GitHub.TriedCut | github.go:154-159 | the identifiers a run of `GetByID` lookups tries are all of them when every lookup succeeds, and otherwise exactly those up to and including the first whose lookup fails |
| GitHub.HydrateAllResult | github.go:154-159 | the `GetByID` lookups succeed iff every identifier resolves; then profile `i` is the lookup of identifier `i`; otherwise the error is that of the first failing lookup |
| Listing.ParseWindow | github.go:114-132 | no window iff a date is empty; otherwise the start is parsed first and either parse failure is the error; the window holds both parsed dates |
| Forkers.ListForkers | github.go:113-171 | returns the users and times of the specification on success, nothing but the error on failure, and makes exactly its requests and its `GetByID` calls |
| Forkers.ForkPages | github.go:141-168 | the outer loop equals `Walk` over the fork pages, with the same requests and lookups |
| Forkers.ForkPage | github.go:147-161 | the inner loop equals `Fold` of the fork step over one page, and its `GetByID` calls are the step's |
| Forkers.KeptForks | github.go:147-152 | the filter keeps no more forks than listed, and all of them without a window |
| Forkers.ForkFoldClosedForm | github.go:147-161 | exactly the forks inside the window have their owner looked up, in order; owners go to users and creation times to times |
| Forkers.ListForkersContents | github.go:141-170 | on a successful page chain, the result is the owner lookups of the kept forks with their creation times |
| Forkers.ListForkersAligned | github.go:159-160 | on success users and times have one entry per kept fork; entry `i` of both comes from the same fork |
| Forkers.ListForkersUnfiltered | github.go:147-152 | with either date empty, every fork of every page is kept |
| Forkers.ListForkersSkipsFilteredOut | github.go:147-157 | whether or not a page request fails, the outcome does not depend on what the lookup answers for anything but the owners of the forks inside the window on the pages received |
| Forkers.ForkLookupsClosedForm | github.go:147-158 | one page's lookups are exactly `Tried` over the owners of its forks inside the window, in order: all of them, or up to and including the first failing one; all of them when the page succeeds |
| Forkers.ListForkersLookupsKept | github.go:113-170 | no lookup when the window does not parse; otherwise, whether or not a page request fails, the lookups are the owners of the forks inside the window on the pages received, in listing order, stopping right after the first failing lookup (`StopsAtFirstFailure`), and all of them on success |
| Watchers.ListWatchers | github.go:173-204 | returns the looked-up watchers and always an empty times list; on failure nothing but the error; makes exactly its requests and its `GetByID` calls |
| Watchers.WatcherPages | github.go:180-201 | the outer loop equals `Walk` over the watcher pages, with the same requests and lookups |
| Watchers.WatcherPage | github.go:186-194 | the inner loop equals `Fold` of the watcher step over one page, and its `GetByID` calls are the step's |
| Watchers.WatcherFoldClosedForm | github.go:186-194 | every listed watcher is looked up, in order |
| Watchers.ListWatchersContents | github.go:180-203 | on a successful page chain, the result is the lookups of all listed watchers and no times |
| Watchers.WatcherLookupsClosedForm | github.go:186-194 | one page's lookups are exactly `Tried` over its watchers, in order: all of them, or up to and including the first failing one; all of them when the page succeeds |
| Watchers.ListWatchersLookupsAll | github.go:180-203 | whether or not a page request fails, the lookups are the watchers of the pages received, in listing order, stopping right after the first failing lookup (`StopsAtFirstFailure`), and all of them on success |
| Watchers.ListWatchersAligned | github.go:186-203 | on success user `i` is the profile of the `i`-th listed watcher, and times is empty |
| Issues.ListIssues | github.go:206-242 | returns the reporters of the specification, or nothing but the error, and makes exactly its requests and its `GetByID` calls |
| Issues.IssuePages | github.go:213-239 | the outer loop equals `Walk` over the issue pages, with the same requests and lookups |
| Issues.IssuePage | github.go:219-232 | the inner loop equals `Fold` of the cached-reporter step over one page, and its `GetByID` calls are the step's |
| GitHub.FirstSeenMembers | github.go:219-231 | an identifier is kept iff it occurs and is not yet cached |
| GitHub.FirstSeenDistinct | github.go:220-231 | no identifier is kept twice |
| GitHub.FirstSeenOrder | github.go:219-231 | kept identifiers are in the order of their first occurrence |
| Issues.IssueFoldClosedForm | github.go:219-232 | exactly the reporters not yet cached are looked up, once each, in first-seen order, and then cached |
| Issues.ListIssuesContents | github.go:213-241 | on a successful page chain, the result is the lookups of the distinct reporters in first-seen order |
| Issues.IssueLookupsClosedForm | github.go:219-231 | one page's lookups are exactly `Tried` over the reporters not yet cached, in first-seen order: all of them, or up to and including the first failing one; all of them when the page succeeds |
| Issues.ListIssuesLooksUpOnce | github.go:212-231 | whether or not a page request fails, no reporter is looked up twice: the lookups are the distinct reporters of the pages received, in first-seen order, stopping right after the first failing lookup (`StopsAtFirstFailure`), and all of them on success |
| Issues.ListIssuesDistinct | github.go:212-231 | on success the reporters are looked up once each, cover every reporter, and keep first-seen order; with a consistent lookup the returned identifiers are distinct |
| Stargazers.ListStargazers | github.go:244-306 | returns the users and times of the specification, or nothing but the error, and makes exactly its requests and its `GetByID` calls |
| Stargazers.StarPages | github.go:270-303 | the outer loop equals `Walk` over the stargazer pages, with the same requests and lookups |
| Stargazers.StarPage | github.go:276-296 | the inner loop equals `Fold` of the stargazer step over one page, and its `GetByID` calls are the step's |
| Stargazers.KeptStargazers | github.go:277-281 | the filter keeps no more stargazers than listed, and all of them without a window |
| Stargazers.StarFoldClosedForm | github.go:276-296 | exactly the stargazers inside the window are recorded, in order, with their starring times |
| Stargazers.ListStargazersContents | github.go:270-305 | on a successful page chain, the result is the recorded kept stargazers with their starring times |
| Stargazers.ListStargazersAligned | github.go:294-295 | on success users and times have one entry per kept stargazer from the same stargazer; the user is the listed one with `onlyID` and the profile without |
| Stargazers.ListStargazersOnlyIDNoLookup | github.go:285-292 | with `onlyID`, whether or not a page request fails, the outcome does not depend on the lookup; once the window parses, a successful page chain cannot fail |
| Stargazers.ListStargazersUnfiltered | github.go:277-281 | with either date empty, every stargazer is recorded |
| Stargazers.ListStargazersSkipsFilteredOut | github.go:277-291 | whether or not a page request fails, the outcome does not depend on what the lookup answers for anything but the stargazers inside the window on the pages received |
| Stargazers.StarLookupsClosedForm | github.go:276-292 | one page looks nothing up with `onlyID`; otherwise its lookups are exactly `Tried` over its stargazers inside the window, in order: all of them, or up to and including the first failing one; all of them when the page succeeds |
| Stargazers.ListStargazersLookupsKept | github.go:244-305 | without `onlyID`: no lookup when the window does not parse; otherwise, whether or not a page request fails, the lookups are the stargazers inside the window on the pages received, in listing order, stopping right after the first failing lookup (`StopsAtFirstFailure`), and all of them on success |
| Stargazers.ListStargazersOnlyIDLooksUpNothing | github.go:285-287 | with `onlyID` no `GetByID` call is made, whatever the pages |
| Commits.ListCommits | github.go:73-111 | as written: returns the collected authors, or nothing but the error, and makes exactly its requests |
| Commits.CommitPage | github.go:87-93 | as written: the inner loop equals `Fold` of the commit step |
| Commits.CommitFoldClosedForm | github.go:87-93 | as written: every commit adds its author, in order |
| Commits.ListCommitsOutcome | github.go:81-110 | fails iff some page request fails; otherwise returns one author per listed commit, as a multiset |
| Commits.ListCommitsKeepsDuplicates | github.go:87-92 | as written: one page of two commits by the same account returns that account twice |
| Commits.ListCommitsByID | github.go:73-111 | keyed by identifier value: returns the specification's authors or nothing but the error |
| Commits.CommitPageByID | github.go:87-93 | keyed by identifier value: the inner loop equals `Fold` of the deduplicating step |
| Commits.FirstAuthorsIDs | github.go:87-93 | the kept authors' identifiers are the first-seen identifiers |
| Commits.CommitByIDFoldClosedForm | github.go:87-93 | keyed by identifier value: each new author is appended once and recorded as seen |
| Commits.ListCommitsByIDDistinct | github.go:79-92 | keyed by identifier value: each author of the listed commits appears exactly once |
| Numbers.ScanDigitsResult | github.go:325 | the base-10 digit scan succeeds iff the text is all digits and its value fits in 64 unsigned bits, and yields that value; too large is a range error |
| Numbers.ParseIntResult | github.go:325 | `ParseInt(s, 10, 64)` succeeds iff `s` is a signed numeral whose value is a 64-bit integer, and returns that value; other numerals give a range error, and any other failure is a syntax or range error |
| Numbers.ParseInt | github.go:325 | a success is a 64-bit integer; an error is a syntax or range error naming the whole text |
| Numbers.ParseIntDecimal | github.go:325 | every 64-bit integer written in decimal parses back to itself |
| Numbers.DigitsValue | github.go:325 | decimal digits read back give the number |
| UserFile.ListUsers | github.go:308-340 | returns the accounts of the specification, or nothing but the error |
| UserFile.ReadString | github.go:319-321 | returns the next line, ending with its first newline, and exactly the text after it; at end of file no line is returned, no newline is left and nothing is consumed |
| UserFile.TrimLeft | github.go:323 | strips exactly the leading white space |
| UserFile.Word | github.go:323 | takes the longest run of non-space characters at the front |
| UserFile.LinesCount | github.go:318-337 | one line is read per newline in the file |
| UserFile.LinesDropUnterminated | github.go:319-321 | a last line without a newline is never processed |
| UserFile.LineFoldClosedForm | github.go:318-336 | the loop looks up one account per line, in file order |
| UserFile.ListUsersResult | github.go:318-337 | succeeds iff every line parses and resolves; then one account per newline, account `i` from line `i`; otherwise the error of the first failing line |
| UserFile.FirstFieldOfDecimal | github.go:323 | the first field of a line holding a decimal is that decimal |
| UserFile.IdFileLines | github.go:319 | a file of decimals, one per line, reads as those lines |
| UserFile.ListUsersOfIdFile | github.go:318-336 | a file written one identifier per line returns the outcome of looking up those identifiers, in order |
| Text.FirstIndex | github.go:319 | the position of the first occurrence of a character |
| Text.SplitJoin | github.go:63 | splitting `strings.Join` output at the separator gives back the parts, when no part holds it |
| Text.CountJoin | github.go:63 | joined clean parts hold one separator fewer than there are parts |
| Text.SplitAppend | github.go:63 | splitting at one separator splits both sides |
| Text.BelowIrreflexive | github.go:70 | no login is below itself |
| Text.BelowTransitive | github.go:70 | the string order is transitive |
| Text.BelowTotal | github.go:61 | any two different strings are ordered one way or the other |
| Text.SortedUnique | github.go:61 | two sorted arrangements of the same strings are equal, so the sorted output does not depend on the algorithm |
| Output.PrintUsers | github.go:342-383 | the logged text is the table of the user rows |
| Output.UserCells | github.go:347-378 | a row is `owner/repo` when both are non-empty, the twelve profile fields, and the date when times were given |
| Output.AppendRow | github.go:352-379 | appends the cells with a tab between each two, then a newline |
| Output.ProfileColumns | github.go:352-374 | there are twelve profile fields |
| Output.RepoColumn | github.go:347-350 | the prefix column is present iff owner and repository are both non-empty |
| Output.TimeColumn | github.go:375-378 | the date column is present iff times were given |
| Output.ReadTable | github.go:345-380 | a report with clean cells splits back into one line per row and one cell per column |
| Output.PrintUsersColumns | github.go:342-380 | one line per account; it splits into the prefix, the twelve profile fields and the date; 11 tabs plus one per optional column |
| Output.PrintUserNames | github.go:385-399 | the logged text is the table of the identifier and e-mail rows |
| Output.PrintUserNamesColumns | github.go:385-396 | one line per account: optional prefix, identifier, e-mail address |
| Output.PrintUserIDs | github.go:401-415 | the logged text is the table of the identifier rows |
| Output.PrintUserIDsColumns | github.go:401-412 | one line per account: the identifier, then a tab and the date iff times were given |
| Repos.SortStrings | github.go:61 | the names end up sorted and are a permutation of the original |
| Repos.Insert | github.go:61 | one insertion step extends the sorted prefix by one, rearranges only that prefix, and leaves the rest of the array unchanged |
| Repos.PrintRepos | github.go:54-65 | the names are sorted and a permutation of the repository names; the logged text joins them by newlines |
| Repos.PrintReposLines | github.go:63 | the logged text of a non-empty listing splits back into the sorted names |
| UserSlice.Less | github.go:70 | strict: an account's login is not less than itself; of two different logins one is less |
| UserSlice.Swap | github.go:71 | exchanges two entries and keeps the same accounts |
| UserSlice.LessIsStrictWeakOrder | github.go:70 | `Less` is irreflexive, asymmetric and transitive, and incomparable accounts share their login |

## Left out

- `newClient` and `listPublicRepos`: these build or call the client. The client is a parameter here.
- Log output. Each printer returns the text it would log.
- `printRepos` also logs each repository record; only the names are modelled.
- File I/O in `listUsers`. The file's contents are a string parameter. A failure to open the file is not modelled.
- `ReadString` read errors other than `io.EOF` are not modelled. The source ignores them and processes the partial line.
- `errors.Trace` wrapping. The returned error is the underlying one.
- `parseDate`, `checkTime` and the `unify*` formatters are not defined in `github.go`. They are parameters, and their behaviour is not modelled.
- Contexts, cancellation and rate limiting are not modelled.
- Time is an integer instant. Only `checkTime` compares instants.
- Commits.ListCommits: the source returns the map's values in Go's randomised iteration order. The model keeps listing order, and `ListCommitsOutcome` states only the multiset.
- Nil-pointer panics are excluded by the types or by preconditions:
  - the repository name, and the owner, user, author, identifier and time of a listed item, are always present;
  - UserFile.ListUsers requires `FieldsReached`: every line the loop reaches has a field;
  - UserSlice.Less requires both logins;
  - Output.PrintUsers and Output.PrintUserIDs require at least as many times as users, when any are given.
- `int(id)` in `listUsers` assumes a 64-bit `int`, as on the platforms the tool targets.
- Strings are sequences of characters, not bytes. Go compares strings by UTF-8 bytes, and that order agrees with the character order used here. Invalid UTF-8 is not modelled.
- `UserSlice.Len` is the array's length and needs no contract.
- The page loop's termination relies on the platform eventually returning `NextPage == 0`. This is a precondition here: `EndsWithin` holds for a ghost bound.
- Output.PrintUsersColumns: assumes the formatters and the owner and repository names produce no tab or newline. The source does not check this.
- Output.PrintUserNamesColumns: makes the same assumption.
- Output.PrintUserIDsColumns: assumes the formatters produce no tab or newline.

## Findings

| source | as written | input that shows it | evidently intended | confidence | as-written member | corrected member |
|---|---|---|---|---|---|---|
| github.go:79-92 | the author map is keyed by `*int`, the address of the decoded author's `ID` field, and each decoded commit has its own, so the `ok` test never finds an earlier entry and every commit adds its author | one page listing two commits by the same account | key the map by the identifier value and return each author once | not executed | Commits.ListCommitsKeepsDuplicates | Commits.ListCommitsByIDDistinct |
