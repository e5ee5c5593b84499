/// The reports github.go writes to its log: one line per account, its
/// columns separated by tabs (`printUsers`, `printUserNames`, `printUserIDs`).
module Output {
  import opened GitHub
  import opened Text

  // ---------------------------------------------------------------------------
  // Reports as tables of cells.

  /// The text of a report: every row's cells joined by tabs, and a newline
  /// after every row.
  function Table(rows: seq<seq<string>>): string
    decreases |rows|
  {
    if rows == [] then [] else Table(rows[..|rows| - 1]) + Join(rows[|rows| - 1], '\t') + "\n"
  }

  /// No cell holds a tab or a newline, so the text can be read back.
  predicate CleanCells(cells: seq<string>)
  {
    Clean(cells, '\t') && Clean(cells, '\n')
  }

  /// The lines of a report.
  function RowTexts(rows: seq<seq<string>>): (r: seq<string>)
    ensures |r| == |rows| && forall i :: 0 <= i < |rows| ==> r[i] == Join(rows[i], '\t')
    decreases |rows|
  {
    if rows == [] then [] else RowTexts(rows[..|rows| - 1]) + [Join(rows[|rows| - 1], '\t')]
  }

  /// The rows written so far, followed by a partial line `last`, split at newlines.
  lemma {:induction false} SplitTable(rows: seq<seq<string>>, last: string)
    requires forall i :: 0 <= i < |rows| ==> CleanCells(rows[i])
    requires '\n' !in last
    ensures Split(Table(rows) + last, '\n') == RowTexts(rows) + [last]
    decreases |rows|
  {
    SplitNone(last, '\n');
    if rows != [] {
      var init := rows[..|rows| - 1];
      var text := Join(rows[|rows| - 1], '\t');
      JoinClean(rows[|rows| - 1], '\t', '\n');
      assert Table(rows) + last == (Table(init) + text) + ['\n'] + last;
      SplitAppend(Table(init) + text, last, '\n');
      SplitTable(init, text);
      assert RowTexts(rows) == RowTexts(init) + [text];
    } else {
      assert Table(rows) + last == last;
    }
  }

  /// A report whose cells hold no tab or newline reads back as its rows:
  /// one line per row, each ending with a newline, and the cells of each line
  /// separated by one tab fewer than there are cells.
  lemma ReadTable(rows: seq<seq<string>>)
    requires forall i :: 0 <= i < |rows| ==> |rows[i]| > 0 && CleanCells(rows[i])
    ensures var lines := Split(Table(rows), '\n');
      && |lines| == |rows| + 1 && lines[|rows|] == []
      && forall i :: 0 <= i < |rows| ==>
           Split(lines[i], '\t') == rows[i] && Count(lines[i], '\t') == |rows[i]| - 1
  {
    SplitTable(rows, []);
    assert Table(rows) + [] == Table(rows);
    forall i | 0 <= i < |rows|
      ensures Split(Join(rows[i], '\t'), '\t') == rows[i] && Count(Join(rows[i], '\t'), '\t') == |rows[i]| - 1
    {
      SplitJoin(rows[i], '\t');
      CountJoin(rows[i], '\t');
    }
  }

  /// Append one row to the report: its cells with a tab between each two,
  /// then a newline.
  method AppendRow(content: string, cells: seq<string>) returns (out: string)
    ensures out == content + Join(cells, '\t') + "\n"
  {
    out := content;
    ghost var start := |content|;
    for j := 0 to |cells|
      invariant out == content + Join(cells[..j], '\t')
    {
      if j > 0 {
        out := out + "\t";
      }
      out := out + cells[j];
      JoinSnoc(cells[..j], cells[j], '\t');
      assert cells[..j + 1] == cells[..j] + [cells[j]];
    }
    assert cells[..|cells|] == cells;
    out := out + "\n";
  }

  /// Writing one more row appends its line to the text.
  lemma TableStep(rows: seq<seq<string>>, i: nat)
    requires i < |rows|
    ensures Table(rows[..i + 1]) == Table(rows[..i]) + Join(rows[i], '\t') + "\n"
  {
    assert rows[..i + 1][..i] == rows[..i];
  }

  // ---------------------------------------------------------------------------
  // The columns.

  /// `owner/repo` in front of every row, when both are non-empty.
  function RepoColumn(owner: string, repo: string): (r: seq<string>)
    ensures |r| == if |owner| > 0 && |repo| > 0 then 1 else 0
  {
    if |owner| > 0 && |repo| > 0 then [owner + "/" + repo] else []
  }

  /// The twelve profile columns of `printUsers`, in the order it writes them.
  function ProfileColumns(f: Formatter, u: User): (r: seq<string>)
    ensures |r| == 12
  {
    [ f.unifyInt(Some(u.id)), f.unifyStr(u.login), f.unifyStr(u.name), f.unifyStr(u.email),
      f.unifyStr(u.location), f.unifyStr(u.company), f.unifyStr(u.blog), f.unifyStr(u.bio),
      f.unifyInt(u.publicRepos), f.unifyInt(u.following), f.unifyInt(u.followers),
      f.unifyStr(u.htmlURL) ]
  }

  /// The date column of row `i`: present exactly when times were given.
  function TimeColumn(f: Formatter, times: seq<Time>, i: nat): (r: seq<string>)
    requires times == [] || i < |times|
    ensures |r| == if times == [] then 0 else 1
  {
    if |times| > 0 then [f.unifyDate(times[i])] else []
  }

  /// A printer's rows have one row per account; row `i` is `row(i)`.
  function Rows(n: nat, row: nat --> seq<string>): (r: seq<seq<string>>)
    requires forall i :: 0 <= i < n ==> row.requires(i)
    ensures |r| == n && forall i :: 0 <= i < n ==> r[i] == row(i)
    decreases n
  {
    if n == 0 then [] else Rows(n - 1, row) + [row(n - 1)]
  }

  /// Each `unify*` call renders a field without a tab or a newline.
  ghost predicate Plain(f: Formatter)
  {
    && (forall x :: '\t' !in f.unifyInt(x) && '\n' !in f.unifyInt(x))
    && (forall x :: '\t' !in f.unifyStr(x) && '\n' !in f.unifyStr(x))
    && (forall t :: '\t' !in f.unifyDate(t) && '\n' !in f.unifyDate(t))
  }

  /// The owner and repository names hold no tab or newline.
  predicate PlainNames(owner: string, repo: string)
  {
    '\t' !in owner && '\n' !in owner && '\t' !in repo && '\n' !in repo
  }

  lemma CleanCellsAppend(a: seq<string>, b: seq<string>)
    requires CleanCells(a) && CleanCells(b)
    ensures CleanCells(a + b)
  {
    assert forall i :: |a| <= i < |a + b| ==> (a + b)[i] == b[i - |a|];
  }

  lemma ProfileColumnsClean(f: Formatter, u: User)
    requires Plain(f)
    ensures CleanCells(ProfileColumns(f, u))
  {
  }

  lemma TimeColumnClean(f: Formatter, times: seq<Time>, i: nat)
    requires times == [] || i < |times|
    requires Plain(f)
    ensures CleanCells(TimeColumn(f, times, i))
  {
    if |times| > 0 {
      PlainDate(f, times[i]);
    }
  }

  lemma PlainDate(f: Formatter, t: Time)
    requires Plain(f)
    ensures '\t' !in f.unifyDate(t) && '\n' !in f.unifyDate(t)
  {
  }

  lemma RepoColumnClean(owner: string, repo: string)
    requires PlainNames(owner, repo)
    ensures CleanCells(RepoColumn(owner, repo))
  {
    if |owner| > 0 && |repo| > 0 {
      var cell := owner + "/" + repo;
      assert forall c :: c in cell ==> c in owner || c == '/' || c in repo;
    }
  }

  // ---------------------------------------------------------------------------
  // printUsers

  /// One row of `printUsers`.
  function UserRow(f: Formatter, owner: string, repo: string, u: User, times: seq<Time>, i: nat): seq<string>
    requires times == [] || i < |times|
  {
    RepoColumn(owner, repo) + ProfileColumns(f, u) + TimeColumn(f, times, i)
  }

  /// The rows of `printUsers`; it indexes `times` for every account when any
  /// time is given.
  function UsersRows(f: Formatter, owner: string, repo: string, users: seq<User>, times: seq<Time>): seq<seq<string>>
    requires times == [] || |users| <= |times|
  {
    Rows(|users|, i requires 0 <= i < |users| => UserRow(f, owner, repo, users[i], times, i))
  }

  /// `printUsers`: the text it logs.
  method PrintUsers(f: Formatter, owner: string, repo: string, users: seq<User>, times: seq<Time>)
    returns (content: string)
    requires times == [] || |users| <= |times|
    ensures content == Table(UsersRows(f, owner, repo, users, times))
  {
    ghost var rows := UsersRows(f, owner, repo, users, times);
    var printTime := |times| > 0;
    content := [];
    for i := 0 to |users|
      invariant content == Table(rows[..i])
    {
      var cells := UserCells(f, owner, repo, users[i], printTime, times, i);
      assert rows[i] == cells;
      content := AppendRow(content, cells);
      TableStep(rows, i);
    }
    assert rows[..|users|] == rows;
  }

  /// The cells `printUsers` writes for `user`, the `i`-th account.
  method UserCells(f: Formatter, owner: string, repo: string, user: User, printTime: bool, times: seq<Time>, i: nat)
    returns (cells: seq<string>)
    requires printTime <==> |times| > 0
    requires times == [] || i < |times|
    ensures cells == UserRow(f, owner, repo, user, times, i)
  {
    cells := [];
    if |owner| > 0 && |repo| > 0 {
      cells := cells + [owner + "/" + repo];
    }
    cells := cells + ProfileColumns(f, user);
    if printTime {
      cells := cells + [f.unifyDate(times[i])];
    }
  }

  /// The report of `printUsers` has a line per account and reads back as its
  /// columns: `owner/repo` first when both are non-empty, then the twelve
  /// profile fields, then the date when times were given. Its lines hold
  /// 11 tabs, one more for each optional column.
  lemma PrintUsersColumns(f: Formatter, owner: string, repo: string, users: seq<User>, times: seq<Time>)
    requires times == [] || |users| <= |times|
    requires Plain(f) && PlainNames(owner, repo)
    ensures var lines := Split(Table(UsersRows(f, owner, repo, users, times)), '\n');
      var extra := (if |owner| > 0 && |repo| > 0 then 1 else 0) + (if times == [] then 0 else 1);
      && |lines| == |users| + 1 && lines[|users|] == []
      && forall i :: 0 <= i < |users| ==>
           && Split(lines[i], '\t') == RepoColumn(owner, repo) + ProfileColumns(f, users[i]) + TimeColumn(f, times, i)
           && Count(lines[i], '\t') == 11 + extra
  {
    var rows := UsersRows(f, owner, repo, users, times);
    RepoColumnClean(owner, repo);
    forall i | 0 <= i < |rows| ensures |rows[i]| > 0 && CleanCells(rows[i]) {
      assert rows[i] == UserRow(f, owner, repo, users[i], times, i);
      ProfileColumnsClean(f, users[i]);
      TimeColumnClean(f, times, i);
      CleanCellsAppend(RepoColumn(owner, repo), ProfileColumns(f, users[i]));
      CleanCellsAppend(RepoColumn(owner, repo) + ProfileColumns(f, users[i]), TimeColumn(f, times, i));
    }
    ReadTable(rows);
  }

  // ---------------------------------------------------------------------------
  // printUserNames

  /// One row of `printUserNames`: the identifier and the e-mail address.
  function NameRow(f: Formatter, owner: string, repo: string, u: User): seq<string>
  {
    RepoColumn(owner, repo) + [f.unifyInt(Some(u.id)), f.unifyStr(u.email)]
  }

  function NamesRows(f: Formatter, owner: string, repo: string, users: seq<User>): seq<seq<string>>
  {
    Rows(|users|, i requires 0 <= i < |users| => NameRow(f, owner, repo, users[i]))
  }

  /// `printUserNames`: the text it logs.
  method PrintUserNames(f: Formatter, owner: string, repo: string, users: seq<User>) returns (content: string)
    ensures content == Table(NamesRows(f, owner, repo, users))
  {
    ghost var rows := NamesRows(f, owner, repo, users);
    content := [];
    for i := 0 to |users|
      invariant content == Table(rows[..i])
    {
      var user := users[i];
      var cells := [];
      if |owner| > 0 && |repo| > 0 {
        cells := cells + [owner + "/" + repo];
      }
      cells := cells + [f.unifyInt(Some(user.id)), f.unifyStr(user.email)];
      assert cells == NameRow(f, owner, repo, user) == rows[i];
      content := AppendRow(content, cells);
      TableStep(rows, i);
    }
    assert rows[..|users|] == rows;
  }

  /// The report of `printUserNames` has a line per account: `owner/repo` when
  /// both are non-empty, then the identifier and the e-mail address.
  lemma PrintUserNamesColumns(f: Formatter, owner: string, repo: string, users: seq<User>)
    requires Plain(f) && PlainNames(owner, repo)
    ensures var lines := Split(Table(NamesRows(f, owner, repo, users)), '\n');
      && |lines| == |users| + 1 && lines[|users|] == []
      && forall i :: 0 <= i < |users| ==>
           && Split(lines[i], '\t') == RepoColumn(owner, repo) + [f.unifyInt(Some(users[i].id)), f.unifyStr(users[i].email)]
           && Count(lines[i], '\t') == if |owner| > 0 && |repo| > 0 then 2 else 1
  {
    var rows := NamesRows(f, owner, repo, users);
    RepoColumnClean(owner, repo);
    forall i | 0 <= i < |rows| ensures |rows[i]| > 0 && CleanCells(rows[i]) {
      assert rows[i] == NameRow(f, owner, repo, users[i]);
      CleanCellsAppend(RepoColumn(owner, repo), [f.unifyInt(Some(users[i].id)), f.unifyStr(users[i].email)]);
    }
    ReadTable(rows);
  }

  // ---------------------------------------------------------------------------
  // printUserIDs

  /// One row of `printUserIDs`: the identifier, and the date when times were given.
  function IDRow(f: Formatter, u: User, times: seq<Time>, i: nat): seq<string>
    requires times == [] || i < |times|
  {
    [f.unifyInt(Some(u.id))] + TimeColumn(f, times, i)
  }

  function IDsRows(f: Formatter, users: seq<User>, times: seq<Time>): seq<seq<string>>
    requires times == [] || |users| <= |times|
  {
    Rows(|users|, i requires 0 <= i < |users| => IDRow(f, users[i], times, i))
  }

  /// `printUserIDs`: the text it logs.
  method PrintUserIDs(f: Formatter, users: seq<User>, times: seq<Time>) returns (content: string)
    requires times == [] || |users| <= |times|
    ensures content == Table(IDsRows(f, users, times))
  {
    ghost var rows := IDsRows(f, users, times);
    var printTime := |times| > 0;
    content := [];
    for i := 0 to |users|
      invariant content == Table(rows[..i])
    {
      var cells := [f.unifyInt(Some(users[i].id))];
      if printTime {
        cells := cells + [f.unifyDate(times[i])];
      }
      assert cells == IDRow(f, users[i], times, i) == rows[i];
      content := AppendRow(content, cells);
      TableStep(rows, i);
    }
    assert rows[..|users|] == rows;
  }

  /// The report of `printUserIDs` has a line per account: the identifier,
  /// then a tab and the date exactly when times were given.
  lemma PrintUserIDsColumns(f: Formatter, users: seq<User>, times: seq<Time>)
    requires times == [] || |users| <= |times|
    requires Plain(f)
    ensures var lines := Split(Table(IDsRows(f, users, times)), '\n');
      && |lines| == |users| + 1 && lines[|users|] == []
      && forall i :: 0 <= i < |users| ==>
           && Split(lines[i], '\t') == [f.unifyInt(Some(users[i].id))] + TimeColumn(f, times, i)
           && Count(lines[i], '\t') == if times == [] then 0 else 1
  {
    var rows := IDsRows(f, users, times);
    forall i | 0 <= i < |rows| ensures |rows[i]| > 0 && CleanCells(rows[i]) {
      assert rows[i] == IDRow(f, users[i], times, i);
      TimeColumnClean(f, times, i);
      CleanCellsAppend([f.unifyInt(Some(users[i].id))], TimeColumn(f, times, i));
    }
    ReadTable(rows);
  }
}
