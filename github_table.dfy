/**
 * The GITHUB table engine: opening a table from its stored options, the
 * dispatch from a table type to the table that serves it, and the one-shot
 * source that feeds the fetched columns into a pipeline.
 */
module GithubTable {
  import opened Common
  import opened GithubTypes
  import opened Repo
  import RepoIssues
  import RepoComments

  /** The parts of `TableInfo` the engine reads. */
  datatype TableInfo = TableInfo(schema: DataSchema, engineOptions: map<string, string>)

  datatype Table = GithubTable(tableInfo: TableInfo, options: RepoTableOptions)

  /** `GithubTable::try_create`: the table's options are parsed from its
      engine options, and a parse error is the result. */
  function TryCreate(info: TableInfo): (r: Result<Table, ErrorCode>)
    ensures r.Ok? <==> TryFromMap(info.engineOptions).Ok?
    ensures r.Ok? ==> r.value == GithubTable(info, TryFromMap(info.engineOptions).value)
    ensures r.Err? ==> r.error == TryFromMap(info.engineOptions).error
  {
    var options :- TryFromMap(info.engineOptions);
    Ok(GithubTable(info, options))
  }

  /** A table created by the issues or comments creator opens again with the
      options it was created from. */
  lemma CreatedTablesReopen(opt: RepoTableOptions, tenant: string)
    ensures var req := RepoIssues.CreateTableRequest(opt, tenant);
            TryCreate(TableInfo(req.tableMeta.schema, req.tableMeta.engineOptions)) ==
              Ok(GithubTable(TableInfo(req.tableMeta.schema, req.tableMeta.engineOptions), opt))
    ensures var req := RepoComments.CreateTableRequest(opt, tenant);
            TryCreate(TableInfo(req.tableMeta.schema, req.tableMeta.engineOptions)) ==
              Ok(GithubTable(TableInfo(req.tableMeta.schema, req.tableMeta.engineOptions), opt))
  {
  }

  datatype StorageDescription = StorageDescription(engineName: string, comment: string)

  /** The engine registers under the name GITHUB. */
  function Description(): (d: StorageDescription)
    ensures d.engineName == "GITHUB"
    ensures d.comment == d.engineName + " Storage Engine"
  {
    StorageDescription("GITHUB", "GITHUB Storage Engine")
  }

  // ---------------------------------------------------------------------------
  // Type dispatch

  /** The table structs, each holding the options it was built from. */
  datatype TableImpl =
    | RepoCommentsTable(options: RepoTableOptions)
    | RepoInfoTable(options: RepoTableOptions)
    | RepoIssuesTable(options: RepoTableOptions)
    | RepoPRsTable(options: RepoTableOptions)

  function KindOf(t: TableImpl): GithubTableType {
    match t
    case RepoCommentsTable(_) => Comments
    case RepoInfoTable(_) => Info
    case RepoIssuesTable(_) => Issues
    case RepoPRsTable(_) => PullRequests
  }

  /** `From<RepoTableOptions> for Box<dyn GithubDataGetter>`. */
  function DataGetterOf(options: RepoTableOptions): (t: TableImpl)
    ensures KindOf(t) == options.tableType && t.options == options
  {
    match options.tableType
    case Comments => RepoCommentsTable(options)
    case Info => RepoInfoTable(options)
    case Issues => RepoIssuesTable(options)
    case PullRequests => RepoPRsTable(options)
  }

  /** `From<RepoTableOptions> for Box<dyn GithubTableCreater>`. */
  function TableCreaterOf(options: RepoTableOptions): (t: TableImpl)
    ensures KindOf(t) == options.tableType && t.options == options
  {
    match options.tableType
    case Comments => RepoCommentsTable(options)
    case Info => RepoInfoTable(options)
    case Issues => RepoIssuesTable(options)
    case PullRequests => RepoPRsTable(options)
  }

  /** The two dispatches pick the same table for the same options. */
  lemma DispatchesAgree(options: RepoTableOptions)
    ensures DataGetterOf(options) == TableCreaterOf(options)
  {
  }

  // ---------------------------------------------------------------------------
  // Reading

  /** `Statistics`, reduced to its row and byte counts. */
  datatype Statistics = Statistics(readRows: nat, readBytes: nat)
  const DefaultStatistics: Statistics := Statistics(0, 0)

  datatype Partition = Partition(name: string)

  /** `read_partitions`: default statistics and no partitions at all. */
  function ReadPartitions(t: Table): (r: (Statistics, seq<Partition>))
    ensures r.0 == DefaultStatistics && |r.1| == 0
  {
    (DefaultStatistics, [])
  }

  /** `read`: the fetched columns (given here as the fetch's outcome) become
      a stream of exactly one block with the table's schema. `fetched` is
      what the getter `DataGetterOf(t.options)` answers: for the Issues and
      Comments kinds, the result of `RepoIssues.GetDataFromGithub` or
      `RepoComments.GetDataFromGithub`. */
  function Read(t: Table, fetched: Result<seq<Column>, ErrorCode>): (r: Result<seq<DataBlock>, ErrorCode>)
    ensures fetched.Err? ==> r == Err(fetched.error)
    ensures fetched.Ok? ==> r.Ok? && |r.value| == 1
    ensures fetched.Ok? ==> r.value[0] == DataBlock(t.tableInfo.schema, fetched.value)
  {
    var arrays :- fetched;
    Ok([DataBlock(t.tableInfo.schema, arrays)])
  }

  /** A processor description: an asynchronous source running for one output port. */
  datatype ProcessorDesc = AsyncSource(name: string, output: nat, schema: DataSchema, options: RepoTableOptions)

  /** A simple pipe: boundary ports (by identity) and its processors. */
  datatype Pipe = SimplePipe(inputsPort: seq<nat>, outputsPort: seq<nat>, processors: seq<ProcessorDesc>)

  const GITHUB_SOURCE_NAME: string := "GithubSource"

  /** `read2`: given the identity of a freshly created output port, appends
      one source pipe and leaves the pipes already there untouched. */
  function Read2(t: Table, pipes: seq<Pipe>, output: nat): (r: seq<Pipe>)
    ensures |r| == |pipes| + 1 && r[..|pipes|] == pipes
    ensures r[|pipes|].inputsPort == [] && r[|pipes|].outputsPort == [output]
    ensures |r[|pipes|].processors| == 1
    ensures r[|pipes|].processors[0] == AsyncSource(GITHUB_SOURCE_NAME, output, t.tableInfo.schema, t.options)
  {
    pipes + [SimplePipe([], [output], [AsyncSource(GITHUB_SOURCE_NAME, output, t.tableInfo.schema, t.options)])]
  }

  /** The source behind `read2`: its `finish` flag makes the fetch happen at
      most once, so at most one block is ever produced. */
  class GithubSource {
    var finish: bool
    const schema: DataSchema
    const options: RepoTableOptions
    /** How many blocks `Generate` has produced. */
    ghost var produced: nat

    ghost predicate Valid()
      reads this
    {
      produced <= 1 && (!finish ==> produced == 0)
    }

    /** `GithubSource::create`: a new source has not fetched yet. */
    constructor (schema: DataSchema, options: RepoTableOptions)
      ensures Valid() && !finish && produced == 0
      ensures this.schema == schema && this.options == options
    {
      this.schema := schema;
      this.options := options;
      finish := false;
      produced := 0;
    }

    /** `generate`: `None` once `finish` is set; otherwise `finish` is set
        first and then the fetch runs (given here as its outcome, what the
        getter `DataGetterOf(options)` answers, as for `Read`), so a failed
        fetch is not retried either. */
    method Generate(fetched: Result<seq<Column>, ErrorCode>) returns (r: Result<Option<DataBlock>, ErrorCode>)
      requires Valid()
      modifies this
      ensures Valid() && finish
      ensures old(finish) ==> r == Ok(None) && produced == old(produced)
      ensures !old(finish) && fetched.Err? ==> r == Err(fetched.error) && produced == old(produced)
      ensures !old(finish) && fetched.Ok? ==> r == Ok(Some(DataBlock(schema, fetched.value))) && produced == 1
    {
      if finish {
        return Ok(None);
      }
      finish := true;
      match fetched {
        case Err(e) =>
          return Err(e);
        case Ok(arrays) =>
          produced := produced + 1;
          return Ok(Some(DataBlock(schema, arrays)));
      }
    }
  }

  /** However often `generate` is called, and whatever the fetches return,
      a fresh source answers the first call with the first fetch's outcome
      and every later call with `None`, so it yields at most one block. */
  method SourceYieldsAtMostOneBlock(schema: DataSchema, options: RepoTableOptions, fetches: seq<Result<seq<Column>, ErrorCode>>)
    returns (answers: seq<Result<Option<DataBlock>, ErrorCode>>, blocks: nat)
    ensures |answers| == |fetches|
    ensures |fetches| > 0 && fetches[0].Err? ==> answers[0] == Err(fetches[0].error)
    ensures |fetches| > 0 && fetches[0].Ok? ==> answers[0] == Ok(Some(DataBlock(schema, fetches[0].value)))
    ensures forall k :: 1 <= k < |answers| ==> answers[k] == Ok(None)
    ensures blocks <= 1
    ensures blocks == 1 <==> |fetches| > 0 && fetches[0].Ok?
  {
    var src := new GithubSource(schema, options);
    answers := [];
    blocks := 0;
    var i := 0;
    while i < |fetches|
      invariant 0 <= i <= |fetches| && |answers| == i
      invariant src.Valid() && blocks == src.produced && src.schema == schema
      invariant i > 0 ==> src.finish
      invariant i == 0 ==> !src.finish && blocks == 0
      invariant i > 0 && fetches[0].Err? ==> answers[0] == Err(fetches[0].error) && blocks == 0
      invariant i > 0 && fetches[0].Ok? ==> answers[0] == Ok(Some(DataBlock(schema, fetches[0].value))) && blocks == 1
      invariant forall k :: 1 <= k < i ==> answers[k] == Ok(None)
    {
      var r := src.Generate(fetches[i]);
      answers := answers + [r];
      if r.Ok? && r.value.Some? {
        blocks := blocks + 1;
      }
      i := i + 1;
    }
  }
}
