/**
 * The GITHUB database: on initialisation it lists an organisation's
 * repositories and creates one table per repository and table type.
 */
module GithubDatabase {
  import opened Common
  import opened GithubTypes
  import opened Repo

  /** The parts of `DatabaseInfo` the database reads. */
  datatype DatabaseInfo = DatabaseInfo(dbName: string, engineOptions: map<string, string>)

  /** `engine_options.get("token").cloned().unwrap_or_default()`. */
  function Token(engineOptions: map<string, string>): (t: string)
    ensures TOKEN in engineOptions ==> t == engineOptions[TOKEN]
    ensures TOKEN !in engineOptions ==> t == ""
  {
    if TOKEN in engineOptions then engineOptions[TOKEN] else ""
  }

  /** The options of the four tables of one repository, in variant order. */
  function RepoOptions(owner: string, repo: string, token: string): (r: seq<RepoTableOptions>)
    ensures |r| == 4
  {
    var types := AllTableTypes();
    seq(4, j requires 0 <= j < 4 => RepoTableOptions(repo, owner, token, types[j]))
  }

  /** `repos.iter().cartesian_product(GithubTableType::iter()).map(..)`. */
  function GenerateOptions(owner: string, repos: seq<string>, token: string): (r: seq<RepoTableOptions>)
    ensures |r| == 4 * |repos|
  {
    if |repos| == 0 then []
    else RepoOptions(owner, repos[0], token) + GenerateOptions(owner, repos[1..], token)
  }

  /** Repo-major order: entry 4*i+j is repository i with the j-th table type. */
  lemma {:induction false} GenerateOptionsAt(owner: string, repos: seq<string>, token: string, i: nat, j: nat)
    requires i < |repos| && j < 4
    ensures 4 * i + j < |GenerateOptions(owner, repos, token)|
    ensures GenerateOptions(owner, repos, token)[4 * i + j] ==
              RepoTableOptions(repos[i], owner, token, AllTableTypes()[j])
  {
    var r := GenerateOptions(owner, repos, token);
    var head := RepoOptions(owner, repos[0], token);
    if i == 0 {
      assert r[j] == head[j];
    } else {
      GenerateOptionsAt(owner, repos[1..], token, i - 1, j);
      assert r[4 * i + j] == GenerateOptions(owner, repos[1..], token)[4 * (i - 1) + j];
    }
  }

  /** Every generated option belongs to the database's owner, carries the
      shared token and names a listed repository; every pair of a listed
      repository and a table type is generated. */
  lemma GeneratedOptionsCover(owner: string, repos: seq<string>, token: string)
    ensures forall o :: o in GenerateOptions(owner, repos, token) ==>
              o.owner == owner && o.token == token && o.repo in repos
    ensures forall i, t :: 0 <= i < |repos| ==>
              RepoTableOptions(repos[i], owner, token, t) in GenerateOptions(owner, repos, token)
  {
    var r := GenerateOptions(owner, repos, token);
    forall o | o in r
      ensures o.owner == owner && o.token == token && o.repo in repos
    {
      var k :| 0 <= k < |r| && r[k] == o;
      var i, j := k / 4, k % 4;
      GenerateOptionsAt(owner, repos, token, i, j);
    }
    forall i, t | 0 <= i < |repos|
      ensures RepoTableOptions(repos[i], owner, token, t) in r
    {
      var types := AllTableTypes();
      assert t in types;
      var j :| 0 <= j < |types| && types[j] == t;
      GenerateOptionsAt(owner, repos, token, i, j);
    }
  }

  /** The creations the loop makes succeed, in order, for the first `n` options.
      `create(tenant, done, opt)` is the outcome of creating the table of
      `opt` after the tables of `done` were created. */
  ghost predicate CreatedInOrder(tenant: string, create: (string, seq<RepoTableOptions>, RepoTableOptions) -> Option<ErrorCode>,
                                 opts: seq<RepoTableOptions>, n: nat)
    requires n <= |opts|
  {
    forall k :: 0 <= k < n ==> create(tenant, opts[..k], opts[k]).None?
  }

  /** `init_database`. The repository listing (one page of at most 100
      names, client set-up included) is given as its outcome and the
      creation of each table through its creator as `create`. `attempted`
      records the options whose creation was started. */
  method InitDatabase(db: DatabaseInfo, tenant: string, listed: Result<seq<string>, ErrorCode>,
                      create: (string, seq<RepoTableOptions>, RepoTableOptions) -> Option<ErrorCode>)
    returns (r: Result<(), ErrorCode>, ghost attempted: seq<RepoTableOptions>)
    ensures listed.Err? ==> r == Err(listed.error) && attempted == []
    ensures listed.Ok? ==>
              var opts := GenerateOptions(db.dbName, listed.value, Token(db.engineOptions));
              (r.Ok? <==> CreatedInOrder(tenant, create, opts, |opts|))
    ensures listed.Ok? ==>
              var opts := GenerateOptions(db.dbName, listed.value, Token(db.engineOptions));
              |attempted| <= |opts| && attempted == opts[..|attempted|] &&
              (r.Ok? ==> attempted == opts && CreatedInOrder(tenant, create, opts, |opts|)) &&
              (r.Err? ==>
                 (|attempted| > 0 &&
                  CreatedInOrder(tenant, create, opts, |attempted| - 1) &&
                  create(tenant, opts[..|attempted| - 1], opts[|attempted| - 1]) == Some(r.error)))
  {
    attempted := [];
    if listed.Err? {
      return Err(listed.error), attempted;
    }
    var token := Token(db.engineOptions);
    var options := GenerateOptions(db.dbName, listed.value, token);
    var i := 0;
    while i < |options|
      invariant 0 <= i <= |options|
      invariant attempted == options[..i]
      invariant CreatedInOrder(tenant, create, options, i)
    {
      var opt := options[i];
      attempted := attempted + [opt];
      var outcome := create(tenant, options[..i], opt);
      if outcome.Some? {
        return Err(outcome.value), attempted;
      }
      i := i + 1;
    }
    assert options[..i] == options;
    r := Ok(());
  }
}
