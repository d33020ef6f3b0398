/**
 * Options of a GitHub-backed table and their conversion to and from the
 * string map kept as the table's engine options.
 */
module Repo {
  import opened Common
  import opened GithubTypes

  const OWNER: string := "owner"
  const REPO: string := "repo"
  const TOKEN: string := "token"
  const TABLE_TYPE: string := "table_type"

  datatype RepoTableOptions = RepoTableOptions(repo: string, owner: string, token: string, tableType: GithubTableType)

  /** The engine-option map of `options`: exactly the four keys, each holding its field. */
  function OptionsMap(o: RepoTableOptions): (m: map<string, string>)
    ensures m.Keys == {OWNER, REPO, TOKEN, TABLE_TYPE}
    ensures m[OWNER] == o.owner && m[REPO] == o.repo && m[TOKEN] == o.token
    ensures m[TABLE_TYPE] == Name(o.tableType)
  {
    map[OWNER := o.owner, REPO := o.repo, TOKEN := o.token, TABLE_TYPE := Name(o.tableType)]
  }

  /** `From<RepoTableOptions> for BTreeMap`: four successive inserts into an empty map. */
  method IntoMap(options: RepoTableOptions) returns (m: map<string, string>)
    ensures m == OptionsMap(options)
  {
    m := map[];
    m := m[OWNER := options.owner];
    m := m[REPO := options.repo];
    m := m[TOKEN := options.token];
    m := m[TABLE_TYPE := Name(options.tableType)];
  }

  function MissingKey(key: string): ErrorCode {
    UnexpectedError("Github engine table missing " + key + " key")
  }

  /** The message strum's `ParseError::VariantNotFound` displays. */
  const VARIANT_NOT_FOUND: string := "Matching variant not found"

  /** `TryFrom<&BTreeMap>`: the keys are looked up in the order owner, repo,
      token, table_type and the first missing one is reported; an unknown
      table type is reported after all four are present. */
  function TryFromMap(m: map<string, string>): (r: Result<RepoTableOptions, ErrorCode>)
    ensures r.Err? ==> r.error.UnexpectedError?
    ensures r.Ok? ==> OWNER in m && REPO in m && TOKEN in m && TABLE_TYPE in m
    ensures r.Ok? ==> r.value.owner == m[OWNER] && r.value.repo == m[REPO] && r.value.token == m[TOKEN]
                      && Name(r.value.tableType) == m[TABLE_TYPE]
  {
    if OWNER !in m then Err(MissingKey(OWNER))
    else if REPO !in m then Err(MissingKey(REPO))
    else if TOKEN !in m then Err(MissingKey(TOKEN))
    else if TABLE_TYPE !in m then Err(MissingKey(TABLE_TYPE))
    else match Parse(m[TABLE_TYPE])
      case None => Err(UnexpectedError("Unsupported Github table type: " + VARIANT_NOT_FOUND))
      case Some(t) => Ok(RepoTableOptions(m[REPO], m[OWNER], m[TOKEN], t))
  }

  /** The first missing key, in the order owner, repo, token, table_type, is
      the one reported; an unparseable table type is reported only when all
      four keys are present. */
  lemma MissingKeyOrder(m: map<string, string>)
    ensures OWNER !in m ==> TryFromMap(m) == Err(MissingKey(OWNER))
    ensures OWNER in m && REPO !in m ==> TryFromMap(m) == Err(MissingKey(REPO))
    ensures OWNER in m && REPO in m && TOKEN !in m ==> TryFromMap(m) == Err(MissingKey(TOKEN))
    ensures OWNER in m && REPO in m && TOKEN in m && TABLE_TYPE !in m ==> TryFromMap(m) == Err(MissingKey(TABLE_TYPE))
    ensures OWNER in m && REPO in m && TOKEN in m && TABLE_TYPE in m ==>
              (TryFromMap(m).Err? <==> Parse(m[TABLE_TYPE]).None?)
    ensures TryFromMap(m).Err? && OWNER in m && REPO in m && TOKEN in m && TABLE_TYPE in m ==>
              TryFromMap(m) == Err(UnexpectedError("Unsupported Github table type: " + VARIANT_NOT_FOUND))
  {
  }

  /** Round trip: parsing the serialised options gives the options back. */
  lemma RoundTrip(o: RepoTableOptions)
    ensures TryFromMap(OptionsMap(o)) == Ok(o)
  {
    ParseName(o.tableType);
  }

  /** Whether two maps agree on key `k`: both lack it or both hold the same value. */
  predicate SameAt(m: map<string, string>, n: map<string, string>, k: string) {
    (k in m <==> k in n) && (k in m ==> m[k] == n[k])
  }

  /** Keys other than the four are ignored: two maps that agree on the four
      keys parse alike, whatever else they hold. */
  lemma IgnoresOtherKeys(m: map<string, string>, n: map<string, string>)
    requires SameAt(m, n, OWNER) && SameAt(m, n, REPO) && SameAt(m, n, TOKEN) && SameAt(m, n, TABLE_TYPE)
    ensures TryFromMap(m) == TryFromMap(n)
  {
  }

  /** Parsing succeeds with `o` exactly when the map holds `o`'s serialisation
      on the four keys (whatever else it holds). */
  lemma TryFromMapExactly(m: map<string, string>, o: RepoTableOptions)
    ensures TryFromMap(m) == Ok(o) <==>
              (forall k :: k in OptionsMap(o) ==> k in m && m[k] == OptionsMap(o)[k])
  {
    var om := OptionsMap(o);
    if TryFromMap(m) == Ok(o) {
      ParseName(o.tableType);
    }
    if forall k :: k in om ==> k in m && m[k] == om[k] {
      assert OWNER in om && REPO in om && TOKEN in om && TABLE_TYPE in om;
      ParseName(o.tableType);
    }
  }
}
