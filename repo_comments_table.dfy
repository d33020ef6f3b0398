/**
 * The `comments` table of a GitHub repository: how the fetched issue
 * comments are flattened into three parallel columns, the table's schema
 * and the request that creates it.
 */
module RepoComments {
  import opened Common
  import opened Repo

  const COMMENT_ID: string := "comment_id"
  const USER: string := "user"
  const BODY: string := "body"

  /** One issue comment as the GitHub client returns it; the body may be absent. */
  datatype Comment = Comment(id: nat, userLogin: Bytes, body: Option<Bytes>)

  /** `body.unwrap_or_else(|| "")`: a missing body contributes no bytes. */
  function BodyBytes(c: Comment): (b: Bytes)
    ensures c.body.None? ==> b == []
    ensures c.body.Some? ==> b == c.body.value
  {
    match c.body
    case None => []
    case Some(text) => text
  }

  /** The three vectors the loop fills. */
  datatype CommentArrays = CommentArrays(ids: seq<nat>, users: seq<Bytes>, bodies: seq<Bytes>)

  /** The vectors after the loop has run over `comments`. */
  function FlattenComments(comments: seq<Comment>): (a: CommentArrays)
    ensures |a.ids| == |a.users| == |a.bodies| == |comments|
  {
    if |comments| == 0 then CommentArrays([], [], [])
    else
      var a := FlattenComments(comments[..|comments| - 1]);
      var c := comments[|comments| - 1];
      CommentArrays(a.ids + [c.id], a.users + [c.userLogin], a.bodies + [BodyBytes(c)])
  }

  /** Entry k of every vector comes from comment k. */
  lemma {:induction false} FlattenCommentsAt(comments: seq<Comment>, k: nat)
    requires k < |comments|
    ensures |FlattenComments(comments).ids| == |comments|
    ensures FlattenComments(comments).ids[k] == comments[k].id
    ensures FlattenComments(comments).users[k] == comments[k].userLogin
    ensures FlattenComments(comments).bodies[k] == BodyBytes(comments[k])
  {
    if k < |comments| - 1 {
      FlattenCommentsAt(comments[..|comments| - 1], k);
    }
  }

  /** The columns in the order id, user, body: column j fits field j of the
      schema and holds that field's vector. */
  function CommentColumns(comments: seq<Comment>): (cols: seq<Column>)
    ensures |cols| == |Schema()| == 3
    ensures forall j :: 0 <= j < 3 ==> ColumnLength(cols[j]) == |comments|
    ensures forall j :: 0 <= j < |cols| ==> Fits(cols[j], Schema()[j])
    ensures var a := FlattenComments(comments);
            cols[0] == UInt64Column(a.ids) && cols[1] == BytesColumn(a.users) && cols[2] == BytesColumn(a.bodies)
  {
    var a := FlattenComments(comments);
    [UInt64Column(a.ids), BytesColumn(a.users), BytesColumn(a.bodies)]
  }

  /** `get_data_from_github`: the fetch is given as its outcome; on success
      the loop pushes one entry per comment onto each of the three vectors. */
  method GetDataFromGithub(fetched: Result<seq<Comment>, ErrorCode>) returns (r: Result<seq<Column>, ErrorCode>)
    ensures fetched.Err? ==> r == Err(fetched.error)
    ensures fetched.Ok? ==> r == Ok(CommentColumns(fetched.value))
  {
    if fetched.Err? {
      return Err(fetched.error);
    }
    var comments := fetched.value;
    var ids: seq<nat> := [];
    var users: seq<Bytes> := [];
    var bodies: seq<Bytes> := [];
    var i := 0;
    while i < |comments|
      invariant 0 <= i <= |comments|
      invariant CommentArrays(ids, users, bodies) == FlattenComments(comments[..i])
    {
      assert comments[..i + 1][..i] == comments[..i];
      var comment := comments[i];
      ids := ids + [comment.id];
      users := users + [comment.userLogin];
      var body := match comment.body
        case None => []
        case Some(text) => text;
      bodies := bodies + [body];
      i := i + 1;
    }
    assert comments[..i] == comments;
    r := Ok([UInt64Column(ids), BytesColumn(users), BytesColumn(bodies)]);
  }

  /** Exactly `comment_id` (u64), `user`, `body`, in that order, none nullable. */
  function Schema(): (s: DataSchema)
    ensures |s| == 3
    ensures s[0] == DataField(COMMENT_ID, UInt64, false)
    ensures s[1].name == USER && s[2].name == BODY
    ensures s[1].dataType == Vu8 && s[2].dataType == Vu8
    ensures forall i :: 0 <= i < |s| ==> !s[i].nullable
  {
    [ DataField(COMMENT_ID, UInt64, false),
      DataField(USER, Vu8, false),
      DataField(BODY, Vu8, false) ]
  }

  /** The request `create_table` sends to the meta service: database = owner,
      table = repo + "_comments", never `if not exists`, the GITHUB engine,
      and engine options from which the same table options parse back. */
  function CreateTableRequest(opt: RepoTableOptions, tenant: string): (req: CreateTableReq)
    ensures !req.ifNotExists
    ensures req.nameIdent == TableNameIdent(tenant, opt.owner, opt.repo + "_comments")
    ensures req.tableMeta.schema == Schema() && req.tableMeta.engine == "GITHUB"
    ensures req.tableMeta.engineOptions == OptionsMap(opt)
    ensures TryFromMap(req.tableMeta.engineOptions) == Ok(opt)
  {
    RoundTrip(opt);
    CreateTableReq(
      false,
      TableNameIdent(tenant, opt.owner, opt.repo + "_" + "comments"),
      TableMeta(Schema(), "GITHUB", OptionsMap(opt)))
  }
}
