# A verified model of databend's GitHub engine, binder scope and aggregation transform

This project models, in Dafny, seven pieces of the databend query engine (`query/src`) and proves properties of them:

- **The aggregation processor** (`transform_aggregator.dfy`, with the ports in `ports.dfy`).
  - `AggregatorTransform` moves through the states ConsumeData, Generate and Finished.
  - It pulls blocks from its input port and feeds them to an inner aggregator until the input port reports finished. Then it pushes the aggregator's output blocks to its output port.
  - `event` is a fixed decision ladder. It is specified by pure step functions over what the processor observes: its state, both ports, and the log of pushed blocks.
  - `event` and its two halves, the methods that change the state and the ports, are proved to follow those functions. `process` and its two halves are proved against the aggregator's outcome functions.
  - A class invariant says two things:
    - every generated block is pushed exactly once, in order, except a block that is still pending or is dropped at the end;
    - in Finished, the output port is finished.
  - The choice of inner aggregator (`try_create_partial` / `try_create_final`) is a pure selection.
- **The binder's `BindContext`** (`bind_context.dfy`): a scope holding an ordered list of column bindings. It supports appending a binding, applying a table alias, resolving a column reference, and listing the result columns.
- **GitHub table options** (`repo.dfy`, `table_type.dfy`): `RepoTableOptions` is serialised to and parsed from a four-key string map. The table-type enum has snake_case names.
- **The GITHUB table engine** (`github_table.dfy`). This covers:
  - opening a table from its engine options;
  - the dispatch from table type to table struct;
  - `read`, `read2` and `read_partitions`;
  - the one-shot `GithubSource`.
- **The issues and comments tables** (`repo_issues_table.dfy`, `repo_comments_table.dfy`). This covers:
  - the loops that flatten fetched records into parallel column vectors;
  - the comma-join of label names and assignee logins;
  - the conversion from milliseconds to `u32` seconds;
  - the schemas and the create-table requests.
- **The GITHUB database** (`github_database.dfy`): `init_database` defaults the token and generates the options for repositories × table types. It then creates the tables in order and stops at the first failure.

Every GitHub, meta-service and clock call is replaced by a parameter holding its outcome:

- the fetched issues or comments;
- the repository listing;
- the outcome of each table creation;
- the outcome of the inner aggregator's `consume` and `generate`, as functions of its history.

`common.dfy` holds the shared values: `Option`, `Result`, error codes, bytes, schema fields, columns, blocks and create-table requests.

### Finished before data

`consume_event` checks `is_finished()` before `has_data()` (`transform_aggregator.rs:183-192`). A block left in a finished input port is therefore never pulled, unless the port reports finished only after its slot is drained. The model's ports may be finished while holding a block. `TransformAggregator.FinishedInputIsNotDrained` shows that the block then stays unpulled.

## Model

| member | source | states |
|---|---|---|
| GithubTypes.Name | query/src/storages/github/github_table.rs:49-50 | The derived display form is snake_case: a non-empty string of lower-case letters and underscores that neither starts nor ends with an underscore. |
| GithubTypes.Parse | query/src/storages/github/github_table.rs:49-56 | Parsing accepts exactly the four snake_case names. What it returns displays as the string parsed. |
| GithubTypes.AllTableTypes | query/src/storages/github/github_table.rs:49-56 | `iter()` lists the four variants in declaration order, so every variant appears and none appears twice. |
| GithubTypes.ParseName | query/src/storages/github/github_table.rs:49-56 | Display and parse are inverse: parsing a variant's name gives the variant back. |
| GithubTypes.NameInjective | query/src/storages/github/github_table.rs:49-56 | Distinct variants have distinct names. |
| Repo.OptionsMap | query/src/storages/github/repo.rs:37-46 | The serialised map has exactly the keys owner, repo, token and table_type. Each key holds its field, and table_type holds the snake_case name. |
| Repo.IntoMap | query/src/storages/github/repo.rs:38-45 | The four successive inserts into an empty map build exactly that map. |
| Repo.TryFromMap | query/src/storages/github/repo.rs:48-79 | Every error is an `UnexpectedError`. Success needs all four keys. The result's fields are the map's values, and its table type displays as the stored string. |
| Repo.MissingKeyOrder | query/src/storages/github/repo.rs:51-71 | The first missing key, in the order owner, repo, token, table_type, is the one reported. With all four present, parsing fails exactly when the type does not parse, and the message is "Unsupported Github table type: Matching variant not found". |
| Repo.RoundTrip | query/src/storages/github/repo.rs:37-79 | Parsing the serialised options gives the same options back. |
| Repo.IgnoresOtherKeys | query/src/storages/github/repo.rs:50-78 | Two maps that agree on the four keys parse alike, so keys other than the four do not change the outcome. |
| Repo.TryFromMapExactly | query/src/storages/github/repo.rs:37-79 | Parsing yields `o` exactly when the map agrees with `o`'s serialisation on the four keys, whatever else it holds. |
| RepoIssues.JoinNames | query/src/storages/github/repo_issues_table.rs:105-121 | Folding each name and a comma into a buffer and then popping the last byte gives exactly the names joined by single commas. The join has no trailing comma and is empty for no names. |
| RepoIssues.FoldCommaIsJoinPlusComma | query/src/storages/github/repo_issues_table.rs:105-110 | For a non-empty name list, the buffer the fold leaves is the join plus one trailing comma. |
| RepoIssues.JoinCommaSnoc | query/src/storages/github/repo_issues_table.rs:105-109 | Adding one more name adds a comma and that name at the end of the join. |
| RepoIssues.SplitJoinComma | query/src/storages/github/repo_issues_table.rs:105-121 | The join is lossless for a non-empty list of comma-free names: splitting it at commas gives the names back. The empty list and the list of one empty name both join to the empty string. |
| RepoIssues.SecondsFromMillis | query/src/storages/github/repo_issues_table.rs:123-126 | `(ms / 1000) as u32` is below 2^32. For non-negative times it is the whole seconds modulo 2^32, and it has no wrap-around below 1000·2^32 ms. The division truncates toward zero, so the second before the epoch gives 0. |
| RepoIssues.PreEpochWraps | query/src/storages/github/repo_issues_table.rs:123 | A time at least a second before the epoch, within 2^32 seconds of it, truncates to minus its whole seconds and is cast to 2^32 minus those seconds. So -1000 ms gives 2^32-1. |
| RepoIssues.ClosedAt | query/src/storages/github/repo_issues_table.rs:127-130 | `closed_at` is absent exactly when the issue has no close time. Otherwise it is the same seconds conversion. |
| RepoIssues.FlattenIssues | query/src/storages/github/repo_issues_table.rs:100-131 | After the loop, all ten vectors have as many entries as there are issues. |
| RepoIssues.FlattenIssuesAt | query/src/storages/github/repo_issues_table.rs:100-131 | Entry k of each vector comes from issue k: number, title, state and login are copied. labels and assignees are the comma-joins. The comment count is copied. The three times are converted. |
| RepoIssues.IssueColumns | query/src/storages/github/repo_issues_table.rs:133-144 | Ten columns, each as long as the issue list. Column j fits field j of the schema in type and nullability, and holds that field's vector. |
| RepoIssues.GetDataFromGithub | query/src/storages/github/repo_issues_table.rs:68-145 | A fetch error is returned unchanged. Otherwise the per-issue loop and its ten vectors give exactly the flattened columns. |
| RepoIssues.Schema | query/src/storages/github/repo_issues_table.rs:48-63 | The ten fields are number, title, state, user, labels, assigness, comments, created_at, updated_at and closed_at, in that order. Only closed_at is nullable. number is Int64; title, state, user, labels and assigness are Vu8; comments is UInt32; the three times are Timestamp(0). |
| RepoIssues.CreateTableRequest | query/src/storages/github/repo_issues_table.rs:150-167 | The request is never `if not exists`. Its database is the owner and its table is repo + "_issues". It uses the issues schema and the GITHUB engine. Its engine options are the serialised options, which parse back to the same options. |
| RepoComments.BodyBytes | query/src/storages/github/repo_comments_table.rs:80-86 | A comment without a body contributes no bytes. Otherwise it contributes the body's bytes. |
| RepoComments.FlattenComments | query/src/storages/github/repo_comments_table.rs:77-87 | All three vectors have as many entries as there are comments. |
| RepoComments.FlattenCommentsAt | query/src/storages/github/repo_comments_table.rs:77-87 | Entry k of the id, user and body vectors comes from comment k. |
| RepoComments.CommentColumns | query/src/storages/github/repo_comments_table.rs:89-93 | Three columns, each as long as the comment list. Column j fits field j of the schema (id, user, body) in type and nullability, and holds that field's vector. |
| RepoComments.GetDataFromGithub | query/src/storages/github/repo_comments_table.rs:53-94 | A fetch error is returned unchanged. Otherwise the per-comment loop gives exactly those columns. |
| RepoComments.Schema | query/src/storages/github/repo_comments_table.rs:40-48 | Exactly comment_id (u64), user and body (bytes), in that order; none is nullable. |
| RepoComments.CreateTableRequest | query/src/storages/github/repo_comments_table.rs:99-116 | The request is never `if not exists`. Its database is the owner and its table is repo + "_comments". It uses the comments schema and the GITHUB engine. Its engine options are the serialised options, which parse back to the same options. |
| GithubTable.TryCreate | query/src/storages/github/github_table.rs:64-70 | Opening succeeds exactly when the engine options parse. The table keeps its info and the parsed options. A parse error is returned as it is. |
| GithubTable.CreatedTablesReopen | query/src/storages/github/github_table.rs:64-70 | A table created by the issues or comments creator opens again with the options it was created from. |
| GithubTable.Description | query/src/storages/github/github_table.rs:72-78 | The engine is named GITHUB, with comment "GITHUB Storage Engine". |
| GithubTable.DataGetterOf | query/src/storages/github/github_table.rs:144-153 | Each table type is served by the table struct of that kind, which carries the options unchanged. |
| GithubTable.TableCreaterOf | query/src/storages/github/github_table.rs:155-164 | Each table type is created by the table struct of that kind, which carries the options unchanged. |
| GithubTable.DispatchesAgree | query/src/storages/github/github_table.rs:144-164 | Both dispatches pick the same table for the same options. |
| GithubTable.ReadPartitions | query/src/storages/github/github_table.rs:91-97 | Default statistics and no partitions. |
| GithubTable.Read | query/src/storages/github/github_table.rs:99-113 | A fetch error is returned unchanged. Otherwise the stream holds exactly one block: the table's schema over the fetched columns. |
| GithubTable.Read2 | query/src/storages/github/github_table.rs:115-131 | Exactly one pipe is appended and the existing pipes are kept. It has no input ports, the new output port, and one GithubSource processor with the table's schema and options. |
| GithubTable.GithubSource.constructor | query/src/storages/github/github_table.rs:172-185 | A new source has `finish` unset and has produced nothing. |
| GithubTable.GithubSource.Generate | query/src/storages/github/github_table.rs:188-201 | Once `finish` is set, every call answers `None`. The flag is set before the fetch, so a failed fetch is not retried. A successful first fetch yields one block with the source's schema. At most one block is ever produced. |
| GithubTable.SourceYieldsAtMostOneBlock | query/src/storages/github/github_table.rs:192-201 | However many times `generate` runs, whatever the fetches return, a new source answers the first call with the first fetch's outcome: its error, or one block with the source's schema. Every later call answers `None`. So it yields at most one block, and one exactly when the first fetch succeeds. |
| GithubDatabase.Token | query/src/databases/github/github_database.rs:53-59 | The token is the `token` engine option, or "" when there is none. |
| GithubDatabase.RepoOptions | query/src/databases/github/github_database.rs:79-85 | One repository contributes four options. |
| GithubDatabase.GenerateOptions | query/src/databases/github/github_database.rs:76-85 | There are four options per listed repository. |
| GithubDatabase.GenerateOptionsAt | query/src/databases/github/github_database.rs:76-85 | Repo-major order: option 4·i+j is repository i with the j-th table type. Its owner is the database name and it carries the shared token. |
| GithubDatabase.GeneratedOptionsCover | query/src/databases/github/github_database.rs:76-85 | Every option has the database's owner, the shared token and a listed repository. Every pair of a listed repository and a table type is generated. |
| GithubDatabase.InitDatabase | query/src/databases/github/github_database.rs:52-94 | A listing error is returned before anything is created. Tables are created in option order. It succeeds exactly when every creation, in that order, succeeds, and then every option was attempted. On the first failure that error is returned: every earlier creation succeeded and no later option was attempted. |
| Common.NatToString | query/src/sql/planner/binder/bind_context.rs:95-99 | A count is written as a non-empty string of decimal digits. |
| Common.NatToStringValue | query/src/sql/planner/binder/bind_context.rs:95-99 | Those digits denote the count, with no leading zero. |
| BindContext.Candidates | query/src/sql/planner/binder/bind_context.rs:111-126 | The collected bindings are exactly the matching ones, taken from the scope. With a table, a binding matches on an equal `Some` table name and an equal column name. Without one, it matches on the column name alone. |
| BindContext.NoCandidates | query/src/sql/planner/binder/bind_context.rs:128-132 | Nothing is collected exactly when no binding matches. |
| BindContext.SoleMatch | query/src/sql/planner/binder/bind_context.rs:138-140 | A binding that alone matches is the only one collected. |
| BindContext.TwoMatches | query/src/sql/planner/binder/bind_context.rs:133-137 | Two matching bindings make the reference ambiguous. |
| BindContext.ResolvesUniquely | query/src/sql/planner/binder/bind_context.rs:128-140 | Exactly one binding is collected iff one binding matches and no other does. |
| BindContext.ProjectColumns | query/src/sql/planner/binder/bind_context.rs:149-154 | There is one `(index, column_name)` per binding, in binding order. |
| BindContext.BindContext.constructor | query/src/sql/planner/binder/bind_context.rs:56-58 | `new`: no parent, no columns, no expression and no aggregate scalars. |
| BindContext.BindContext.WithParent | query/src/sql/planner/binder/bind_context.rs:60-67 | An empty scope over the given parent. |
| BindContext.BindContext.Push | query/src/sql/planner/binder/bind_context.rs:70-72 | A fresh empty scope whose parent is the old one. |
| BindContext.BindContext.AllColumnBindings | query/src/sql/planner/binder/bind_context.rs:75-77 | The bindings as they are, in order. |
| BindContext.BindContext.AddColumnBinding | query/src/sql/planner/binder/bind_context.rs:79-81 | The binding is appended at the end. Earlier bindings and the other fields are unchanged. |
| BindContext.BindContext.ApplyTableAlias | query/src/sql/planner/binder/bind_context.rs:85-105 | Every binding of the original table moves to the alias name, and the others keep their table. Index, type and scalar never change. It errs exactly when the alias lists more columns than there are, with "table has N columns available but K columns specified". The table renames stay applied after that error. On success the first K column names become the alias's names in order, and the rest keep theirs. |
| BindContext.BindContext.ResolveColumn | query/src/sql/planner/binder/bind_context.rs:109-141 | The loops collect exactly the candidates. None gives `column "c" doesn't exist` and more than one gives `column reference "c" is ambiguous`, both as `SemanticError`. Exactly one gives that binding. |
| BindContext.BindContext.ResultColumns | query/src/sql/planner/binder/bind_context.rs:149-154 | `(index, column_name)` per binding, same length and order. |
| BindContext.ResolveColumnUnique | query/src/sql/planner/binder/bind_context.rs:109-141 | Resolution succeeds iff exactly one binding matches. It then returns a matching binding of the scope. Failures are the two semantic errors. |
| TransformAggregator.SelectPartial | query/src/pipelines/new/processors/transforms/transform_aggregator.rs:37-108 | Without group columns, the partial single-key aggregator is used over the argument ports, and its creation error is passed on. With group columns, the parameters' ports are used and the key width or serializer follows the hash method. `HAS_AGG` holds iff there are aggregate functions. |
| TransformAggregator.SingleKeyIgnoresFunctions | query/src/pipelines/new/processors/transforms/transform_aggregator.rs:44-50 | Without group columns, the choice depends on neither the aggregate functions nor the hash method. |
| TransformAggregator.SelectFinal | query/src/pipelines/new/processors/transforms/transform_aggregator.rs:19-35 | Without group columns, the final single-key aggregator is used and its creation error is passed on. |
| TransformAggregator.ToGenerate | query/src/pipelines/new/processors/transforms/transform_aggregator.rs:137-150 | Only ConsumeData moves on, to Generate with `is_finished` false and no output block. Any other state gives `LogicalError`. |
| TransformAggregator.ConsumeStep | query/src/pipelines/new/processors/transforms/transform_aggregator.rs:177-205 | The ladder is stated rung by rung, from condition to outcome. Outside ConsumeData the result is "It's a bug". The output side is never touched. 1. A pending block gives Sync with nothing changed. 2. Otherwise a finished input moves to a fresh Generate state and gives Sync. This is checked before the data. 3. Otherwise data on the port is pulled. A block goes to the slot with Sync; a pulled error is returned. 4. Otherwise need-data is set and the answer is NeedData. |
| TransformAggregator.GenerateStep | query/src/pipelines/new/processors/transforms/transform_aggregator.rs:208-239 | The ladder is stated rung by rung, from condition to outcome. Outside Generate the result is "It's a bug". The input side is never touched. Leaving Generate always leaves the output port finished. 1. A finished output gives Finished and drops any pending block. 2. Otherwise, when the port cannot take data, the answer is NeedConsume. 3. Otherwise a pending block is pushed exactly once and the slot is emptied. 4. Otherwise an exhausted aggregator finishes the port and gives Finished. 5. Otherwise the answer is Sync. |
| TransformAggregator.EventStep | query/src/pipelines/new/processors/transforms/transform_aggregator.rs:158-164 | Finished is terminal: it answers Finished and changes nothing. The state never moves backwards. Errors only pass on an error pulled from the input. At most one block is appended to the pushed log. |
| TransformAggregator.SyncMeansWork | query/src/pipelines/new/processors/transforms/transform_aggregator.rs:177-239 | A Sync answer leaves a pending input block or a Generate state with no pending output and the aggregator not exhausted. So `process` never overwrites a pending output. |
| TransformAggregator.FinishedInputIsNotDrained | query/src/pipelines/new/processors/transforms/transform_aggregator.rs:183-195 | A finished input port that still holds a block moves to Generate without pulling it. |
| TransformAggregator.NoDoublePush | query/src/pipelines/new/processors/transforms/transform_aggregator.rs:216-223 | Right after a push, a second event pushes nothing, because the slot is full. |
| TransformAggregator.Aggregator.Consume | query/src/pipelines/new/processors/transforms/transform_aggregator.rs:114 | `consume` answers as the aggregator's outcome function says, and it records the block only on success. |
| TransformAggregator.Aggregator.Generate | query/src/pipelines/new/processors/transforms/transform_aggregator.rs:115 | `generate` answers as the outcome function says. Every block it hands out is logged. |
| TransformAggregator.AggregatorTransform.constructor | query/src/pipelines/new/processors/transforms/transform_aggregator.rs:126-135 | `create` gives ConsumeData with no pending input, holding the given aggregator and ports. |
| TransformAggregator.AggregatorTransform.NextEvent | query/src/pipelines/new/processors/transforms/transform_aggregator.rs:158-164 | `event` changes the state and the ports exactly as EventStep says. It keeps the invariant: every generated block is pushed once and in order, except a pending or dropped one, and Finished has a finished output port. |
| TransformAggregator.AggregatorTransform.ConsumeEvent | query/src/pipelines/new/processors/transforms/transform_aggregator.rs:177-205 | `consume_event` behaves as ConsumeStep says, through the port's `pull_data` and `set_need_data`, and keeps the invariant. |
| TransformAggregator.AggregatorTransform.GenerateEvent | query/src/pipelines/new/processors/transforms/transform_aggregator.rs:208-239 | `generate_event` behaves as GenerateStep says, through `push_data` and `finish`, and keeps the invariant. |
| TransformAggregator.AggregatorTransform.Process | query/src/pipelines/new/processors/transforms/transform_aggregator.rs:166-172 | In Finished it succeeds with the state and the aggregator unchanged. In ConsumeData it consumes and leaves the aggregator's output and call count alone. In Generate it generates: the aggregator's call count advances by one and its answer is logged. It keeps the invariant. |
| TransformAggregator.AggregatorTransform.Consume | query/src/pipelines/new/processors/transforms/transform_aggregator.rs:250-256 | The pending block, if any, is taken from the slot and handed to the aggregator once, and its error is passed on. With no block, nothing happens. |
| TransformAggregator.AggregatorTransform.GenerateBlock | query/src/pipelines/new/processors/transforms/transform_aggregator.rs:268-277 | The aggregator is called once: its call count advances by one, and a block it answers is logged. Its answer becomes the output slot, and a `None` answer sets `is_finished`. An error leaves the state unchanged. |

## Left out

- Ports: the port implementation (`pipelines/new/processors/port`) is not modelled.
  - `Ports` is a single-threaded stand-in holding the flags, the slot and a log of pushes.
  - Atomics, sharing across threads and the neighbouring processors' side of the ports are not modelled.
  - `pull_data` is taken to leave need-data as it is, and `push_data` to succeed always.
- Inner aggregators: `FinalSingleKeyAggregator`, `PartialSingleKeyAggregator`, the `Keys*PartialAggregator`s, `SerializerPartialAggregator` and the hash-method payloads are not part of this model.
  - `Aggregator` is abstract: its answers are functions of the blocks it consumed and of how many times it generated.
  - The selection functions return which aggregator would be built, not the aggregator.
- TransformAggregator.SelectFinal: the grouped final path is `unimplemented!()` in the source, so the function requires an empty group list.
- TransformAggregator.AggregatorTransform.Process: it requires that no output block is pending in Generate. The executor calls `process` only after `event` answered Sync, and `SyncMeansWork` shows that Sync never leaves a pending output.
- TransformAggregator.AggregatorTransform.GenerateBlock: it requires that no output block is pending, where `generate` would overwrite it. The invariant that every generated block is pushed once does not survive an overwrite. It is reached only through `process` after a Sync answer, which `SyncMeansWork` shows never leaves a pending output.
- Ownership: Finished drops the aggregator and the ports in the source. The model's transform keeps its references but never uses them again.
- `name()` and `NAME` are not modelled beyond the aggregator's `name` field.
- GithubTable.Read2: the new output port is given by its identity, and the processor by a description. Fresh port allocation and `ProcessorPtr`/`AsyncSourcer` wrapping are not modelled.
- `Statistics` is reduced to a default value with a row and a byte count.
- `DataBlock`, `DataSchema`, `Series`, `ColumnRef`, `TableInfo`, `DatabaseInfo` and `CreateTableReq` keep only the fields the modelled code builds or reads.
- The `read` stream is a sequence of blocks.
- I/O: GitHub client creation, listing, `all_pages` paging, `.await`, `ctx.meta.create_table`, chrono's `timestamp_millis` and tracing are replaced by parameters holding their outcomes.
  - `init_database` sees only the first page of repositories (at most 100), as `send()` returns it.
  - Each table's creation outcome is an abstract function of the tenant, the tables created before it and its options.
- `RepoInfoTable` and `RepoPRsTable` are not part of this model. They appear only as dispatch targets.
- Text: strings from GitHub are taken as their UTF-8 bytes, given. Identifiers in a `TableAlias` are taken in their display form.
- Widths: the issue number (i64), the comment count (u32) and the comment id (u64) are unbounded integers. Their widths matter to no modelled property. The `as u32` cast of timestamps is modelled exactly.
- BindContext: the `Scalar` and `SExpr` payloads are opaque identifiers. `push` shares the old scope as a parent, where the source moves it into a box.
