/// `listUsers`: the accounts named by a file of user identifiers, one per
/// line, each looked up in file order.
module UserFile {
  import opened GitHub
  import opened Paging
  import opened Numbers
  import opened Text

  /// `unicode.IsSpace`: the Latin-1 white space characters and the other
  /// characters of Unicode's White_Space property.
  predicate IsSpace(c: char)
  {
    || c == '\t' || c == '\n' || c == '\U{000B}' || c == '\U{000C}' || c == '\r' || c == ' '
    || c == '\U{0085}' || c == '\U{00A0}' || c == '\U{1680}'
    || ('\U{2000}' <= c <= '\U{200A}')
    || c == '\U{2028}' || c == '\U{2029}' || c == '\U{202F}' || c == '\U{205F}' || c == '\U{3000}'
  }

  // ---------------------------------------------------------------------------
  // Reading lines with `ReadString('\n')`.

  /// The lines `ReadString('\n')` returns before it reports `io.EOF`: every
  /// newline-terminated line, newline included. A last line without a
  /// newline comes back together with `io.EOF`, so it is not among them.
  function Lines(s: string): seq<string>
    decreases |s|
  {
    if '\n' !in s then []
    else
      var k := FirstIndex(s, '\n');
      [s[..k + 1]] + Lines(s[k + 1..])
  }

  // ---------------------------------------------------------------------------
  // The first field of a line.

  function TrimLeft(s: string): (r: string)
    ensures |r| <= |s| && r == s[|s| - |r|..]
    ensures r == [] || !IsSpace(r[0])
    ensures forall i :: 0 <= i < |s| - |r| ==> IsSpace(s[i])
    decreases |s|
  {
    if s != [] && IsSpace(s[0]) then TrimLeft(s[1..]) else s
  }

  /// The leading run of characters that are not white space.
  function Word(s: string): (r: string)
    ensures |r| <= |s| && r == s[..|r|]
    ensures forall i :: 0 <= i < |r| ==> !IsSpace(r[i])
    ensures |r| == |s| || IsSpace(s[|r|])
    decreases |s|
  {
    if s != [] && !IsSpace(s[0]) then [s[0]] + Word(s[1..]) else []
  }

  /// `strings.Fields(strings.TrimSpace(line))[0]`. A line without a field
  /// makes the source panic; here it gives the empty text, and the callers'
  /// preconditions exclude it.
  function FirstField(line: string): string
  {
    Word(TrimLeft(line))
  }

  predicate HasField(line: string)
  {
    exists i :: 0 <= i < |line| && !IsSpace(line[i])
  }

  // ---------------------------------------------------------------------------
  // The loop of `listUsers`.

  /// One line of the file: its first field parsed as a 64-bit decimal, then
  /// the account with that identifier looked up.
  function LineUser(getByID: int -> Result<User>, line: string): Result<User>
  {
    match ParseInt(FirstField(line))
    case Err(e) => Err(e)
    case Ok(id) => getByID(id)
  }

  /// The loop body of `listUsers`: append the account of one line.
  function LineStep(getByID: int -> Result<User>): Step<seq<User>, string>
  {
    (us: seq<User>, line: string) =>
      match LineUser(getByID, line)
      case Err(e) => Err(e)
      case Ok(u) => Ok(us + [u])
  }

  /// `LineUser` as a lookup keyed by lines.
  function LineLookup(getByID: int -> Result<User>): string -> Result<User>
  {
    line => LineUser(getByID, line)
  }

  /// Every line the loop reaches holds a field: the loop stops at the first
  /// failing line, so the lines after it may be anything.
  ghost predicate FieldsReached(getByID: int -> Result<User>, lines: seq<string>)
    decreases |lines|
  {
    lines == [] ||
    (HasField(lines[0]) && (LineUser(getByID, lines[0]).Ok? ==> FieldsReached(getByID, lines[1..])))
  }

  /// The outcome of `listUsers` on a file with contents `content`.
  function ListUsersSpec(client: Client, content: string): Result<seq<User>>
  {
    Fold(LineStep(client.getByID), [], Lines(content))
  }

  /// `listUsers`: read the file line by line and look up the identifier at
  /// the head of each line; the first failure aborts.
  method ListUsers(client: Client, content: string) returns (users: seq<User>, err: Option<Error>)
    requires FieldsReached(client.getByID, Lines(content))
    ensures var r := ListUsersSpec(client, content);
      && (r.Err? ==> err == Some(r.error) && users == [])
      && (r.Ok? ==> err == None && users == r.value)
  {
    ghost var step := LineStep(client.getByID);
    var rest := content;
    users := [];
    while true
      invariant Fold(step, [], Lines(content)) == Fold(step, users, Lines(rest))
      decreases |rest|
    {
      var line, next := ReadString(rest);
      if line.None? {
        return users, None;
      }
      FoldAt(step, users, Lines(rest), 0);
      var id := ParseInt(FirstField(line.value));
      if id.Err? {
        return [], Some(id.error);
      }
      var user := client.getByID(id.value);
      if user.Err? {
        return [], Some(user.error);
      }
      assert LineUser(client.getByID, line.value) == Ok(user.value);
      users := users + [user.value];
      rest := next;
    }
  }

  /// `br.ReadString('\n')` on the unread text `rest`: the next line, newline
  /// included, and what follows it; none when no newline is left (`io.EOF`).
  method ReadString(rest: string) returns (line: Option<string>, next: string)
    ensures line.None? <==> Lines(rest) == []
    ensures line.Some? ==> |next| < |rest| && Lines(rest) == [line.value] + Lines(next)
    ensures line.Some? ==> rest == line.value + next && line.value[|line.value| - 1] == '\n'
    ensures line.None? ==> next == rest && '\n' !in rest
  {
    var k := 0;
    while k < |rest| && rest[k] != '\n'
      invariant 0 <= k <= |rest| && '\n' !in rest[..k]
    {
      k := k + 1;
    }
    if k == |rest| {
      assert rest[..k] == rest;
      return None, rest;
    }
    FirstIndexIs(rest, '\n', k);
    return Some(rest[..k + 1]), rest[k + 1..];
  }

  // ---------------------------------------------------------------------------
  // What `ReadString` hands back.

  /// Every newline ends exactly one line: `listUsers` reads as many lines as
  /// the file has newlines.
  lemma {:induction false} LinesCount(s: string)
    ensures |Lines(s)| == Count(s, '\n')
    decreases |s|
  {
    if '\n' in s {
      var k := FirstIndex(s, '\n');
      LinesCount(s[k + 1..]);
      assert s == s[..k] + [s[k]] + s[k + 1..];
      CountAppend(s[..k] + [s[k]], s[k + 1..], '\n');
      CountAppend(s[..k], [s[k]], '\n');
      CountNone(s[..k], '\n');
    } else {
      CountNone(s, '\n');
    }
  }

  /// A last line without a newline is dropped: appending text without a
  /// newline to a file that is empty or ends with a newline adds no line.
  lemma {:induction false} LinesDropUnterminated(s: string, t: string)
    requires s == [] || s[|s| - 1] == '\n'
    requires '\n' !in t
    ensures Lines(s + t) == Lines(s)
    decreases |s|
  {
    if s == [] {
      assert s + t == t;
    } else {
      assert s[|s| - 1] in s;
      var k := FirstIndex(s, '\n');
      var st := s + t;
      assert st[..k] == s[..k] && st[k] == '\n';
      assert '\n' in st;
      assert '\n' !in st[..k] by {
        assert st[..k] == s[..k];
      }
      FirstIndexIs(st, '\n', k);
      assert st[..k + 1] == s[..k + 1];
      assert st[k + 1..] == s[k + 1..] + t;
      var rest := s[k + 1..];
      if rest != [] {
        assert rest[|rest| - 1] == s[|s| - 1];
      }
      LinesDropUnterminated(rest, t);
    }
  }

  // ---------------------------------------------------------------------------
  // What `listUsers` returns.

  /// The loop over the lines, in closed form: one lookup per line, in order.
  lemma {:induction false} LineFoldClosedForm(getByID: int -> Result<User>, us: seq<User>, lines: seq<string>)
    ensures Fold(LineStep(getByID), us, lines) == Extend(us, HydrateAll(LineLookup(getByID), lines))
    decreases |lines|
  {
    var step := LineStep(getByID);
    if lines == [] {
      assert us + [] == us;
    } else {
      var tail := HydrateAll(LineLookup(getByID), lines[1..]);
      match LineUser(getByID, lines[0])
      case Err(e) =>
        assert step(us, lines[0]) == Err(e);
      case Ok(u) =>
        assert step(us, lines[0]) == Ok(us + [u]);
        LineFoldClosedForm(getByID, us + [u], lines[1..]);
        assert HydrateAll(LineLookup(getByID), lines) == if tail.Ok? then Ok([u] + tail.value) else tail;
        if tail.Ok? {
          assert us + [u] + tail.value == us + ([u] + tail.value);
        }
    }
  }

  /// `listUsers` adds exactly one account per newline-terminated line, in
  /// file order: account `i` is the one whose identifier heads line `i`.
  /// The first line whose identifier does not parse, or whose account cannot
  /// be looked up, aborts with that error.
  lemma ListUsersResult(client: Client, content: string)
    ensures var r := ListUsersSpec(client, content);
      var lines := Lines(content);
      && (r.Ok? <==> forall i :: 0 <= i < |lines| ==> LineUser(client.getByID, lines[i]).Ok?)
      && (r.Ok? ==> |r.value| == |lines| == Count(content, '\n')
                    && forall i :: 0 <= i < |lines| ==> LineUser(client.getByID, lines[i]) == Ok(r.value[i]))
      && (r.Err? ==> exists i :: 0 <= i < |lines| && LineUser(client.getByID, lines[i]) == Err(r.error)
                                 && forall j :: 0 <= j < i ==> LineUser(client.getByID, lines[j]).Ok?)
  {
    var lines := Lines(content);
    LineFoldClosedForm(client.getByID, [], lines);
    HydrateAllResult(LineLookup(client.getByID), lines);
    LinesCount(content);
    var looked := HydrateAll(LineLookup(client.getByID), lines);
    if looked.Ok? {
      assert [] + looked.value == looked.value;
    }
  }

  // ---------------------------------------------------------------------------
  // Files of identifiers.

  /// A file listing `ids` in decimal, one per line.
  function IdFile(ids: seq<int>): string
    decreases |ids|
  {
    if ids == [] then [] else Decimal(ids[0]) + "\n" + IdFile(ids[1..])
  }

  lemma DecimalHasNoSpace(x: int)
    ensures |Decimal(x)| > 0 && forall i :: 0 <= i < |Decimal(x)| ==> !IsSpace(Decimal(x)[i])
  {
    var d := Decimal(x);
    if x < 0 {
      forall i | 0 <= i < |d| ensures !IsSpace(d[i]) {
        if i > 0 {
          assert d[i] == Digits(-x)[i - 1];
        }
      }
    }
  }

  /// The first field of a line written by `IdFile` is the decimal it holds.
  lemma FirstFieldOfDecimal(x: int)
    ensures FirstField(Decimal(x) + "\n") == Decimal(x)
    ensures HasField(Decimal(x) + "\n")
  {
    var d := Decimal(x);
    var s := d + "\n";
    DecimalHasNoSpace(x);
    assert s[0] == d[0];
    assert TrimLeft(s) == s;
    WordOf(d, "\n");
  }

  /// The word at the head of a run of non-space characters followed by a
  /// space, or by nothing, is that run.
  lemma {:induction false} WordOf(w: string, rest: string)
    requires forall i :: 0 <= i < |w| ==> !IsSpace(w[i])
    requires rest == [] || IsSpace(rest[0])
    ensures Word(w + rest) == w
    decreases |w|
  {
    if w == [] {
      assert w + rest == rest;
    } else {
      assert (w + rest)[0] == w[0] && (w + rest)[1..] == w[1..] + rest;
      WordOf(w[1..], rest);
    }
  }

  /// The lines an identifier file consists of.
  function IdLines(ids: seq<int>): (r: seq<string>)
    ensures |r| == |ids| && forall i :: 0 <= i < |ids| ==> r[i] == Decimal(ids[i]) + "\n"
    decreases |ids|
  {
    if ids == [] then []
    else
      var tail := IdLines(ids[1..]);
      assert forall i :: 1 <= i < |ids| ==> ids[1..][i - 1] == ids[i];
      [Decimal(ids[0]) + "\n"] + tail
  }

  /// An identifier file, followed by any text without a newline, is read as
  /// its lines.
  lemma {:induction false} IdFileLines(ids: seq<int>, tail: string)
    requires '\n' !in tail
    ensures Lines(IdFile(ids) + tail) == IdLines(ids)
    decreases |ids|
  {
    if ids == [] {
      assert IdFile(ids) + tail == tail;
    } else {
      var d := Decimal(ids[0]);
      var more := IdFile(ids[1..]) + tail;
      var s := IdFile(ids) + tail;
      assert s == d + "\n" + more;
      DecimalHasNoSpace(ids[0]);
      assert s[..|d|] == d;
      assert '\n' !in d;
      FirstIndexIs(s, '\n', |d|);
      assert s[..|d| + 1] == d + "\n";
      assert s[|d| + 1..] == more;
      IdFileLines(ids[1..], tail);
    }
  }

  /// A file written by `IdFile` is read back: every line holds a field, and
  /// `listUsers` looks up exactly the identifiers written, in order. A last
  /// line without a newline is ignored.
  lemma ListUsersOfIdFile(client: Client, ids: seq<int>, tail: string)
    requires forall i :: 0 <= i < |ids| ==> IsInt64(ids[i])
    requires '\n' !in tail
    ensures FieldsReached(client.getByID, Lines(IdFile(ids) + tail))
    ensures ListUsersSpec(client, IdFile(ids) + tail) == HydrateAll(client.getByID, ids)
  {
    var lines := IdLines(ids);
    IdFileLines(ids, tail);
    forall i | 0 <= i < |lines|
      ensures HasField(lines[i]) && LineUser(client.getByID, lines[i]) == client.getByID(ids[i])
    {
      IdLineUser(client.getByID, ids[i]);
    }
    FieldsReachedAll(client.getByID, lines);
    LineFoldClosedForm(client.getByID, [], lines);
    HydrateAllLocal(LineLookup(client.getByID), lines, client.getByID, ids);
    var looked := HydrateAll(client.getByID, ids);
    if looked.Ok? {
      assert [] + looked.value == looked.value;
    }
  }

  /// The line written for one identifier has a field and looks that identifier up.
  lemma IdLineUser(getByID: int -> Result<User>, id: int)
    requires IsInt64(id)
    ensures HasField(Decimal(id) + "\n") && LineUser(getByID, Decimal(id) + "\n") == getByID(id)
  {
    FirstFieldOfDecimal(id);
    ParseIntDecimal(id);
  }

  lemma {:induction false} FieldsReachedAll(getByID: int -> Result<User>, lines: seq<string>)
    requires forall i :: 0 <= i < |lines| ==> HasField(lines[i])
    ensures FieldsReached(getByID, lines)
    decreases |lines|
  {
    if lines != [] {
      forall i | 0 <= i < |lines[1..]| ensures HasField(lines[1..][i]) {
        assert lines[1..][i] == lines[i + 1];
      }
      FieldsReachedAll(getByID, lines[1..]);
    }
  }
}
