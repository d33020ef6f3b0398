/**
 * The `issues` table of a GitHub repository: how the fetched issue records
 * are flattened into ten parallel columns, the table's schema and the
 * request that creates it.
 */
module RepoIssues {
  import opened Common
  import opened Repo

  const NUMBER: string := "number"
  const TITLE: string := "title"
  const STATE: string := "state"
  const USER: string := "user"
  const LABELS: string := "labels"
  // The column is named "assigness" in the source, and so here.
  const ASSIGNESS: string := "assigness"
  const COMMENTS: string := "comments"
  const CREATED_AT: string := "created_at"
  const UPDATED_AT: string := "updated_at"
  const CLOSED_AT: string := "closed_at"

  datatype Label = Label(name: Bytes)
  datatype Author = Author(login: Bytes)

  /** One issue as the GitHub client returns it; text fields are held as
      their UTF-8 bytes and times as milliseconds since the epoch. */
  datatype Issue = Issue(
    number: int,
    title: Bytes,
    state: Bytes,
    user: Author,
    labels: seq<Label>,
    assignees: seq<Author>,
    comments: nat,
    createdAtMillis: int,
    updatedAtMillis: int,
    closedAtMillis: Option<int>)

  // ---------------------------------------------------------------------------
  // Joining names with commas

  /** The parts separated by single commas, with no trailing comma. */
  function JoinComma(parts: seq<Bytes>): Bytes
  {
    if |parts| == 0 then []
    else if |parts| == 1 then parts[0]
    else parts[0] + [COMMA] + JoinComma(parts[1..])
  }

  /** What the fold leaves in its buffer: every part followed by a comma. */
  function FoldComma(parts: seq<Bytes>): Bytes
  {
    if |parts| == 0 then [] else FoldComma(parts[..|parts| - 1]) + parts[|parts| - 1] + [COMMA]
  }

  lemma {:induction false} JoinCommaSnoc(parts: seq<Bytes>, x: Bytes)
    requires |parts| > 0
    ensures JoinComma(parts + [x]) == JoinComma(parts) + [COMMA] + x
  {
    if |parts| == 1 {
      assert parts + [x] == [parts[0], x];
      assert (parts + [x])[1..] == [x];
    } else {
      assert (parts + [x])[1..] == parts[1..] + [x];
      JoinCommaSnoc(parts[1..], x);
    }
  }

  /** After the fold, dropping the last byte leaves exactly the join. */
  lemma {:induction false} FoldCommaIsJoinPlusComma(parts: seq<Bytes>)
    requires |parts| > 0
    ensures FoldComma(parts) == JoinComma(parts) + [COMMA]
  {
    var init := parts[..|parts| - 1];
    if |init| == 0 {
      assert parts == [parts[0]];
    } else {
      FoldCommaIsJoinPlusComma(init);
      assert init + [parts[|parts| - 1]] == parts;
      JoinCommaSnoc(init, parts[|parts| - 1]);
    }
  }

  /** The comma-join of the names as the source builds it: fold each name and
      a comma onto a buffer, then `pop` the last byte, which does nothing when
      the buffer is empty. */
  method JoinNames(names: seq<Bytes>) returns (content: Bytes)
    ensures content == JoinComma(names)
  {
    content := [];
    var i := 0;
    while i < |names|
      invariant 0 <= i <= |names|
      invariant content == FoldComma(names[..i])
    {
      assert names[..i + 1][..i] == names[..i];
      content := content + names[i] + [COMMA];
      i := i + 1;
    }
    assert names[..i] == names;
    if |content| > 0 {
      FoldCommaIsJoinPlusComma(names);
      content := content[..|content| - 1];
    }
  }

  /** Splitting at every comma; the inverse of `JoinComma` on comma-free parts. */
  function SplitComma(b: Bytes): (r: seq<Bytes>)
    ensures |r| > 0
  {
    if |b| == 0 then [[]]
    else if b[0] == COMMA then [[]] + SplitComma(b[1..])
    else
      var rest := SplitComma(b[1..]);
      [[b[0]] + rest[0]] + rest[1..]
  }

  lemma {:induction false} SplitCommaFree(x: Bytes)
    requires COMMA !in x
    ensures SplitComma(x) == [x]
  {
    if |x| > 0 {
      SplitCommaFree(x[1..]);
      assert [x[0]] + x[1..] == x;
    }
  }

  lemma {:induction false} SplitCommaAppend(x: Bytes, y: Bytes)
    requires COMMA !in x
    ensures SplitComma(x + [COMMA] + y) == [x] + SplitComma(y)
  {
    if |x| == 0 {
      assert x + [COMMA] + y == [COMMA] + y;
      assert ([COMMA] + y)[1..] == y;
    } else {
      assert (x + [COMMA] + y)[1..] == x[1..] + [COMMA] + y;
      SplitCommaAppend(x[1..], y);
      assert [x[0]] + x[1..] == x;
    }
  }

  /** A non-empty list of comma-free names is recovered from its join. */
  lemma {:induction false} SplitJoinComma(parts: seq<Bytes>)
    requires |parts| > 0
    requires forall k :: 0 <= k < |parts| ==> COMMA !in parts[k]
    ensures SplitComma(JoinComma(parts)) == parts
  {
    if |parts| == 1 {
      SplitCommaFree(parts[0]);
    } else {
      SplitJoinComma(parts[1..]);
      SplitCommaAppend(parts[0], JoinComma(parts[1..]));
      assert [parts[0]] + parts[1..] == parts;
    }
  }

  // ---------------------------------------------------------------------------
  // Times

  const U32_MODULUS: int := 0x1_0000_0000

  /** Rust's integer `/`, which rounds toward zero. */
  function TruncDiv(a: int, b: int): int
    requires b > 0
  {
    if a >= 0 then a / b else -((-a) / b)
  }

  /** An `as u32` cast: the low 32 bits of the two's-complement value. */
  function AsU32(x: int): nat
  {
    x % U32_MODULUS
  }

  /** `(millis / 1000) as u32`. */
  function SecondsFromMillis(millis: int): (r: nat)
    ensures r < U32_MODULUS
    ensures 0 <= millis ==> r == (millis / 1000) % U32_MODULUS
    ensures 0 <= millis < 1000 * U32_MODULUS ==> r == millis / 1000
    ensures -1000 < millis < 0 ==> r == 0
  {
    AsU32(TruncDiv(millis, 1000))
  }

  /** A time at least a second before the epoch truncates to a negative
      number of seconds, which the cast wraps to the top of the `u32` range. */
  lemma PreEpochWraps(millis: int)
    requires -1000 * U32_MODULUS < millis <= -1000
    ensures SecondsFromMillis(millis) == U32_MODULUS - (-millis) / 1000
  {
  }

  /** `closed_at` stays absent exactly when the issue has no close time. */
  function ClosedAt(issue: Issue): (r: Option<nat>)
    ensures r.None? <==> issue.closedAtMillis.None?
    ensures r.Some? ==> r.value == SecondsFromMillis(issue.closedAtMillis.value)
  {
    match issue.closedAtMillis
    case None => None
    case Some(ms) => Some(SecondsFromMillis(ms))
  }

  function LabelNames(labels: seq<Label>): seq<Bytes> {
    seq(|labels|, k requires 0 <= k < |labels| => labels[k].name)
  }

  function Logins(users: seq<Author>): seq<Bytes> {
    seq(|users|, k requires 0 <= k < |users| => users[k].login)
  }

  /** The ten parallel vectors the loop fills, one per column. */
  datatype IssueArrays = IssueArrays(
    numbers: seq<int>,
    titles: seq<Bytes>,
    states: seq<Bytes>,
    users: seq<Bytes>,
    labels: seq<Bytes>,
    assignees: seq<Bytes>,
    comments: seq<nat>,
    createdAts: seq<nat>,
    updatedAts: seq<nat>,
    closedAts: seq<Option<nat>>)

  predicate AllOfLength(a: IssueArrays, n: nat) {
    && |a.numbers| == n && |a.titles| == n && |a.states| == n && |a.users| == n && |a.labels| == n
    && |a.assignees| == n && |a.comments| == n && |a.createdAts| == n && |a.updatedAts| == n && |a.closedAts| == n
  }

  /** The entries one issue contributes, as the loop body computes them. */
  predicate RowIs(a: IssueArrays, k: nat, issue: Issue)
    requires k < |a.numbers| && AllOfLength(a, |a.numbers|)
  {
    && a.numbers[k] == issue.number
    && a.titles[k] == issue.title
    && a.states[k] == issue.state
    && a.users[k] == issue.user.login
    && a.labels[k] == JoinComma(LabelNames(issue.labels))
    && a.assignees[k] == JoinComma(Logins(issue.assignees))
    && a.comments[k] == issue.comments
    && a.createdAts[k] == SecondsFromMillis(issue.createdAtMillis)
    && a.updatedAts[k] == SecondsFromMillis(issue.updatedAtMillis)
    && a.closedAts[k] == ClosedAt(issue)
  }

  /** The vectors after the loop has run over `issues`. */
  function FlattenIssues(issues: seq<Issue>): (a: IssueArrays)
    ensures AllOfLength(a, |issues|)
  {
    if |issues| == 0 then IssueArrays([], [], [], [], [], [], [], [], [], [])
    else
      var a := FlattenIssues(issues[..|issues| - 1]);
      var issue := issues[|issues| - 1];
      IssueArrays(
        a.numbers + [issue.number],
        a.titles + [issue.title],
        a.states + [issue.state],
        a.users + [issue.user.login],
        a.labels + [JoinComma(LabelNames(issue.labels))],
        a.assignees + [JoinComma(Logins(issue.assignees))],
        a.comments + [issue.comments],
        a.createdAts + [SecondsFromMillis(issue.createdAtMillis)],
        a.updatedAts + [SecondsFromMillis(issue.updatedAtMillis)],
        a.closedAts + [ClosedAt(issue)])
  }

  /** Entry k of every vector comes from issue k: one entry per issue, in issue order. */
  lemma {:induction false} FlattenIssuesAt(issues: seq<Issue>, k: nat)
    requires k < |issues|
    ensures AllOfLength(FlattenIssues(issues), |issues|)
    ensures RowIs(FlattenIssues(issues), k, issues[k])
  {
    if k < |issues| - 1 {
      FlattenIssuesAt(issues[..|issues| - 1], k);
    }
  }

  /** The ten columns of the issues table, in the declared order: column j
      fits field j of the schema and holds that field's vector. */
  function IssueColumns(issues: seq<Issue>): (cols: seq<Column>)
    ensures |cols| == |Schema()| == 10
    ensures forall j :: 0 <= j < 10 ==> ColumnLength(cols[j]) == |issues|
    ensures forall j :: 0 <= j < |cols| ==> Fits(cols[j], Schema()[j])
    ensures var a := FlattenIssues(issues);
            cols[0] == Int64Column(a.numbers) && cols[1] == BytesColumn(a.titles) &&
            cols[2] == BytesColumn(a.states) && cols[3] == BytesColumn(a.users) &&
            cols[4] == BytesColumn(a.labels) && cols[5] == BytesColumn(a.assignees) &&
            cols[6] == UInt32Column(a.comments) && cols[7] == UInt32Column(a.createdAts) &&
            cols[8] == UInt32Column(a.updatedAts) && cols[9] == NullableUInt32Column(a.closedAts)
  {
    var a := FlattenIssues(issues);
    [ Int64Column(a.numbers), BytesColumn(a.titles), BytesColumn(a.states), BytesColumn(a.users),
      BytesColumn(a.labels), BytesColumn(a.assignees), UInt32Column(a.comments),
      UInt32Column(a.createdAts), UInt32Column(a.updatedAts), NullableUInt32Column(a.closedAts) ]
  }

  /** `get_data_from_github`: the fetch (client creation, listing, paging)
      is given as its outcome; on success the loop pushes one entry per issue
      onto each of the ten vectors. */
  method GetDataFromGithub(fetched: Result<seq<Issue>, ErrorCode>) returns (r: Result<seq<Column>, ErrorCode>)
    ensures fetched.Err? ==> r == Err(fetched.error)
    ensures fetched.Ok? ==> r == Ok(IssueColumns(fetched.value))
  {
    if fetched.Err? {
      return Err(fetched.error);
    }
    var issues := fetched.value;
    var numbers: seq<int> := [];
    var titles: seq<Bytes> := [];
    var states: seq<Bytes> := [];
    var users: seq<Bytes> := [];
    var labels: seq<Bytes> := [];
    var assignees: seq<Bytes> := [];
    var comments: seq<nat> := [];
    var createdAts: seq<nat> := [];
    var updatedAts: seq<nat> := [];
    var closedAts: seq<Option<nat>> := [];
    var i := 0;
    while i < |issues|
      invariant 0 <= i <= |issues|
      invariant IssueArrays(numbers, titles, states, users, labels, assignees, comments, createdAts, updatedAts, closedAts)
                == FlattenIssues(issues[..i])
    {
      assert issues[..i + 1][..i] == issues[..i];
      var issue := issues[i];
      numbers := numbers + [issue.number];
      titles := titles + [issue.title];
      states := states + [issue.state];
      users := users + [issue.user.login];
      var labelsStr := JoinNames(LabelNames(issue.labels));
      labels := labels + [labelsStr];
      var assigneesStr := JoinNames(Logins(issue.assignees));
      assignees := assignees + [assigneesStr];
      comments := comments + [issue.comments];
      createdAts := createdAts + [SecondsFromMillis(issue.createdAtMillis)];
      updatedAts := updatedAts + [SecondsFromMillis(issue.updatedAtMillis)];
      var closedAt := match issue.closedAtMillis
        case None => None
        case Some(ms) => Some(SecondsFromMillis(ms));
      closedAts := closedAts + [closedAt];
      i := i + 1;
    }
    assert issues[..i] == issues;
    r := Ok([
      Int64Column(numbers), BytesColumn(titles), BytesColumn(states), BytesColumn(users),
      BytesColumn(labels), BytesColumn(assignees), UInt32Column(comments),
      UInt32Column(createdAts), UInt32Column(updatedAts), NullableUInt32Column(closedAts)]);
  }

  // ---------------------------------------------------------------------------
  // Schema and creation request

  function FieldNames(s: DataSchema): seq<string> {
    seq(|s|, i requires 0 <= i < |s| => s[i].name)
  }

  /** The ten fields in declared order; only `closed_at` is nullable. */
  function Schema(): (s: DataSchema)
    ensures FieldNames(s) == [NUMBER, TITLE, STATE, USER, LABELS, ASSIGNESS, COMMENTS, CREATED_AT, UPDATED_AT, CLOSED_AT]
    ensures forall i :: 0 <= i < |s| ==> (s[i].nullable <==> s[i].name == CLOSED_AT)
    ensures |s| == 10 && s[0].dataType == Int64 && (forall i :: 1 <= i < 6 ==> s[i].dataType == Vu8) &&
            s[6].dataType == UInt32
    ensures forall i :: 7 <= i < 10 ==> s[i].dataType == Timestamp(0)
  {
    [ DataField(NUMBER, Int64, false),
      DataField(TITLE, Vu8, false),
      DataField(STATE, Vu8, false),
      DataField(USER, Vu8, false),
      DataField(LABELS, Vu8, false),
      DataField(ASSIGNESS, Vu8, false),
      DataField(COMMENTS, UInt32, false),
      DataField(CREATED_AT, Timestamp(0), false),
      DataField(UPDATED_AT, Timestamp(0), false),
      DataField(CLOSED_AT, Timestamp(0), true) ]
  }

  /** The request `create_table` sends to the meta service: database = owner,
      table = repo + "_issues", never `if not exists`, the GITHUB engine, and
      engine options from which the same table options parse back. */
  function CreateTableRequest(opt: RepoTableOptions, tenant: string): (req: CreateTableReq)
    ensures !req.ifNotExists
    ensures req.nameIdent == TableNameIdent(tenant, opt.owner, opt.repo + "_issues")
    ensures req.tableMeta.schema == Schema() && req.tableMeta.engine == "GITHUB"
    ensures req.tableMeta.engineOptions == OptionsMap(opt)
    ensures TryFromMap(req.tableMeta.engineOptions) == Ok(opt)
  {
    RoundTrip(opt);
    CreateTableReq(
      false,
      TableNameIdent(tenant, opt.owner, opt.repo + "_" + "issues"),
      TableMeta(Schema(), "GITHUB", OptionsMap(opt)))
  }
}
