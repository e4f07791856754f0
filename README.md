# awesome-python-webapp: the ORM, its database layer and its request dispatch, in Dafny

This project models the core of the blog application `awesome-python-webapp`:

- **Field descriptors and model declaration** (`transwarp/orm.py`). Field kinds carry their defaults and column types, and a class-wide counter numbers the fields. The metaclass turns a class body into a schema: the mapping, the single primary key, the table name and the hook attributes. `_gen_sql` prints the `create table` text.
- **The record operations** (`transwarp/orm.py`). These are `__getattr__`/`__setattr__`, `get`, `find_first`, `find_by` and `find_all`, plus `insert`, `update` and `delete`.
  - `insert` and `update` write missing defaults into the record and build the statement the database layer receives.
- **The database layer** (`transwarp/db.py`).
  - `create_engine` merges the connection parameters.
  - `_Engine` rewrites `?` placeholders to `%s` (the "format" paramstyle of PEP 249) and handles commit, rollback and cleanup.
  - The per-thread context `_DbCtx` is driven by `with connection():` and `with transaction():`.
  - `insert` and `delete` build their statements, and `_select` turns rows into dictionaries.
- **The web framework's dispatch** (`framework.py`).
  - The `@get`/`@post` decorators, and the signature helpers that read a handler's parameters.
  - How `RequestHandler.__call__` assembles a handler's keyword arguments from a request or refuses it with 400.
  - The tag check of `add_route`, and the way `response_factory` classifies a handler's return value.
- **The relative-time filter** `datetime_filter` (`app.py`).

Dictionaries that Python iterates in an unspecified order are handled in two ways.

- A method picks the order with `Common.IterationOrder`.
- A pure function takes the order as a parameter `cols`/`order`, constrained by `KeyOrder(cols, m)`: every key exactly once.

Results that do not depend on the order are proved for every order, for example `Orm.DdlIgnoresDictOrder` and the `Framework.Overlay` loop.

Objects whose state the source changes in place are classes:

- `Orm.FieldCounter` (the `Field._count` counter) and `Orm.Record` (a model instance).
- `Db.Engine`, `Db.EngineSlot` (the module's `engine` global) and `Db.DbCtx`.
- `Framework.Router` (the `_routes` table).

Each class method is proved against a pure specification function, and the properties are proved about those functions.

Files:

- `common.dfy`: Python values, exceptions and string helpers.
- `db.dfy`: module `Db`.
- `orm.dfy`: module `Orm`.
- `framework.dfy`: module `Framework`.
- `app.dfy`: module `App`.

## Model

| member | source | states |
|---|---|---|
| Common.IterationOrder | awesome-python-webapp/www/transwarp/orm.py:297 | iterating a dictionary visits every key exactly once, in some order |
| Db.ToFormatStyle | awesome-python-webapp/www/transwarp/db.py:191 | the rewritten SQL contains no `?` and is longer by exactly one character per `?` |
| Db.RewriteIsSplitJoin | awesome-python-webapp/www/transwarp/db.py:191 | the rewrite is Python's `replace`: split on every `?`, join with `%s` |
| Db.RewriteKeepsPlainSql | awesome-python-webapp/www/transwarp/db.py:191 | SQL without placeholders reaches the driver unchanged |
| Db.RewriteCountsPlaceholders | awesome-python-webapp/www/transwarp/db.py:191 | each `?` of the caller becomes exactly one `%s` |
| Db.Insert | awesome-python-webapp/www/transwarp/db.py:152-157 | fails exactly when there is no keyword, since unpacking `zip(*{})` fails; otherwise the statement names the columns in iteration order, with one argument per column aligned with its column |
| Db.Delete | awesome-python-webapp/www/transwarp/db.py:161-165 | fails exactly when there is no condition; otherwise one `col=?` per key, with the values aligned |
| Db.InsertPlaceholderCount | awesome-python-webapp/www/transwarp/db.py:154-156 | an insert statement has exactly one `?` per column |
| Db.DeletePlaceholderCount | awesome-python-webapp/www/transwarp/db.py:163-164 | a delete statement has exactly one `?` per condition |
| Db.Zip | awesome-python-webapp/www/transwarp/db.py:104 | `dict(zip(names, values))` has the names up to the shorter length as its keys |
| Db.ZipAt | awesome-python-webapp/www/transwarp/db.py:104-105 | with distinct column names, every name is paired with its own value |
| Db.SelectOne | awesome-python-webapp/www/transwarp/db.py:98-104 | gives None exactly when there is no row, or the row is empty; raises exactly when a row comes without a description; otherwise gives the row keyed by the column names |
| Db.SelectAll | awesome-python-webapp/www/transwarp/db.py:98-105 | gives one dictionary per row, in row order; raises exactly when rows come without a description |
| Db.MergedKeys | awesome-python-webapp/www/transwarp/db.py:27-32 | the driver receives the connection arguments, the four driver defaults, the keywords and `buffered`, and nothing else |
| Db.MergedConnection | awesome-python-webapp/www/transwarp/db.py:22-31 | a `user` keyword overrides `usr`; password, database, host and port are always the arguments |
| Db.MergedKeywords | awesome-python-webapp/www/transwarp/db.py:28-32 | a keyword overrides the driver default of the same name; a default nobody overrides survives; `buffered` is always True |
| Db.MergeParams | awesome-python-webapp/www/transwarp/db.py:27-32 | the loop-and-update merge equals the three dictionaries laid over each other, with `buffered` forced on |
| Db.PopDefaults | awesome-python-webapp/www/transwarp/db.py:29-31 | popping each default out of the keywords and then updating with the rest equals laying the dictionaries over each other; the rest holds exactly the keywords that are not defaults |
| Db.LayerPopped | awesome-python-webapp/www/transwarp/db.py:29-31 | the pop-then-update result, stated pointwise, is the layered dictionary |
| Db.TxDepthSteps | awesome-python-webapp/www/transwarp/db.py:274-282 | entering a transaction sets the depth to one more than before (0 before a first init); exiting lowers it by exactly one |
| Db.OnlyOutermostSettles | awesome-python-webapp/www/transwarp/db.py:280-291 | an exit that does not reach depth 0 sends no commit or rollback to the driver; at most it closes the connection |
| Db.EnterNState | awesome-python-webapp/www/transwarp/db.py:274-279 | after `n` nested entries, the context holds the engine and its depth is `n` (plus any previous depth) |
| Db.UnwindWithoutEngine | awesome-python-webapp/www/transwarp/db.py:280-291 | exits after the context has dropped its engine reach no driver; the exit that reaches depth 0 raises AttributeError on the missing engine |
| Db.SingleTransaction | awesome-python-webapp/www/transwarp/db.py:274-291 | one transaction commits (or rolls back when the block raised), then closes the connection and resets the context |
| Db.FailedCommit | awesome-python-webapp/www/transwarp/db.py:203-212 | a failed commit is followed by a rollback; the cleanup in `finally` still closes the connection; the driver's error is raised |
| Db.NestedTransactions | awesome-python-webapp/www/transwarp/db.py:280-291 | with two or more nested transactions the innermost exit closes the connection; nothing is ever committed; the outermost exit raises AttributeError |
| Db.TransactionInsideConnection | awesome-python-webapp/www/transwarp/db.py:258-291 | a transaction inside `with connection():` commits and closes, and the connection's exit then does nothing |
| Db.Engine.Commit | awesome-python-webapp/www/transwarp/db.py:203-212 | the engine's new state and error are those of the commit specification |
| Db.Engine.Rollback | awesome-python-webapp/www/transwarp/db.py:214-217 | the engine's new state and error are those of the rollback specification |
| Db.Engine.Cleanup | awesome-python-webapp/www/transwarp/db.py:183-188 | closes the connection if the engine holds one |
| Db.EngineCursor | awesome-python-webapp/www/transwarp/db.py:179-182 | opening a cursor fails exactly when the engine holds no connection, and then with DBError "don't connect to database" |
| Db.CursorGuard | awesome-python-webapp/www/transwarp/db.py:179-196 | `cursor` and `execute` succeed on the same engines; without a connection `execute` skips `cursor`'s guard and fails with AttributeError, leaving the engine unchanged |
| Db.Engine.Cursor | awesome-python-webapp/www/transwarp/db.py:179-182 | the guard of `cursor`, as specified, with the engine unchanged |
| Db.Engine.Execute | awesome-python-webapp/www/transwarp/db.py:189-196 | the driver receives the statement with `?` rewritten to `%s`, and the arguments |
| Db.EngineSlot.CreateEngine | awesome-python-webapp/www/transwarp/db.py:22-33 | a second call raises "Engine is already initialized." and keeps the engine; the first call creates a connected engine with the merged parameters |
| Db.DbCtx.Init | awesome-python-webapp/www/transwarp/db.py:234-238 | takes the module's engine, sets the cleanup flag and resets the depth |
| Db.DbCtx.Cleanup | awesome-python-webapp/www/transwarp/db.py:240-245 | when the flag is set, drops the engine and closes its connection |
| Db.DbCtx.EnterConnection | awesome-python-webapp/www/transwarp/db.py:258-262 | initialises the context only if it is not yet initialised |
| Db.DbCtx.ExitConnection | awesome-python-webapp/www/transwarp/db.py:265-267 | always attempts cleanup |
| Db.DbCtx.EnterTransaction | awesome-python-webapp/www/transwarp/db.py:274-279 | initialises if needed and raises the depth by one |
| Db.DbCtx.ExitTransaction | awesome-python-webapp/www/transwarp/db.py:280-291 | lowers the depth; at depth 0 commits, or rolls back when the block raised; then cleans up when the flag is set |
| Orm.ReadDefault | awesome-python-webapp/www/transwarp/orm.py:31-34 | a literal default reads as itself; a callable default reads as what the call returns |
| Orm.Filled | awesome-python-webapp/www/transwarp/orm.py:45-94 | a field subclass fills `default` and `ddl` only when the caller did not pass them, and changes no other argument |
| Orm.DeclaredField | awesome-python-webapp/www/transwarp/orm.py:16-29 | a declared field has the kind's default and type unless given; its order is the counter value; name, key, nullability, updatability and insertability take the documented fallbacks |
| Orm.VersionField | awesome-python-webapp/www/transwarp/orm.py:96-98 | a version field reads 0, and is a non-null, non-key bigint column |
| Orm.FieldCounter.New | awesome-python-webapp/www/transwarp/orm.py:28-29 | the new field takes the current counter value as its order, and the counter goes up by one |
| Orm.FieldCounter.NewVersion | awesome-python-webapp/www/transwarp/orm.py:96-98 | as `New`, for a version field |
| Orm.Normalised | awesome-python-webapp/www/transwarp/orm.py:146-161 | an unnamed field is named after its attribute; a key field becomes non-nullable and non-updatable; nothing else changes |
| Orm.Compile | awesome-python-webapp/www/transwarp/orm.py:129-178 | `Model` itself is left alone; any other class fails exactly when it has no key field or several, with the matching TypeError; otherwise the schema is valid and keyed by the one key field |
| Orm.CompileMappings | awesome-python-webapp/www/transwarp/orm.py:145-168 | the mapping holds exactly the field attributes, named after the attribute when unnamed; the other attributes stay on the class |
| Orm.CompileSchema | awesome-python-webapp/www/transwarp/orm.py:145-165 | a class with exactly one key field compiles to its mapping, keyed by that field |
| Orm.CompileAttrs | awesome-python-webapp/www/transwarp/orm.py:169-177 | `__table__` defaults to the lower-cased class name; `__mappings__`, `__primary_key__` and `__sql__` are always set; each hook the class does not define is None |
| Orm.MetaShadows | awesome-python-webapp/www/transwarp/orm.py:172-174 | on a declared model, `__mappings__`, `__primary_key__` and `__sql__` read as the class's attributes whatever the record holds |
| Orm.Declare | awesome-python-webapp/www/transwarp/orm.py:129-178 | the metaclass's loops produce exactly what `Compile` specifies |
| Orm.ScanFields | awesome-python-webapp/www/transwarp/orm.py:143-165 | the scan raises exactly when two key fields are met; otherwise the mapping is the normalised fields, and a key is found exactly when one exists |
| Orm.PopFields | awesome-python-webapp/www/transwarp/orm.py:167-168 | after the mapped attributes are popped, the class keeps exactly its non-field attributes |
| Orm.DefaultHooks | awesome-python-webapp/www/transwarp/orm.py:175-177 | the hooks the class lacks are added as None; the other attributes are unchanged |
| Orm.TwoKeys | awesome-python-webapp/www/transwarp/orm.py:151-153 | two distinct key attributes mean more than one primary key |
| Orm.Place | awesome-python-webapp/www/transwarp/orm.py:107 | inserting into a sorted list keeps it sorted and adds exactly the one field |
| Orm.SortByOrder | awesome-python-webapp/www/transwarp/orm.py:107 | the sort by `_order` returns a sorted permutation of the fields |
| Orm.PlaceStable | awesome-python-webapp/www/transwarp/orm.py:107 | insertion puts the new field before every field of equal order |
| Orm.SortStable | awesome-python-webapp/www/transwarp/orm.py:107 | the sort is stable: for every order value, the fields carrying it come out in the sequence they went in |
| Orm.ForeignKeysPresent | awesome-python-webapp/www/transwarp/orm.py:114-121 | there is a foreign-key clause exactly when some field is a foreign key |
| Orm.DdlFrame | awesome-python-webapp/www/transwarp/orm.py:106-123 | the DDL has the two header lines, one line per column, the key line, one line per foreign key and `);` |
| Orm.DdlColumn | awesome-python-webapp/www/transwarp/orm.py:116 | column `i` prints its name and type, with ` not null` exactly when the column is not nullable |
| Orm.DdlKeys | awesome-python-webapp/www/transwarp/orm.py:117-121 | the key line names the key column and ends in a comma exactly when foreign keys follow; the last foreign-key line has no comma |
| Orm.SortKeepsForeignKeys | awesome-python-webapp/www/transwarp/orm.py:107-118 | sorting loses no foreign key |
| Orm.StrictlySortedUnique | awesome-python-webapp/www/transwarp/orm.py:107 | two strictly ascending lists of the same fields are equal |
| Orm.SortedStrict | awesome-python-webapp/www/transwarp/orm.py:107 | sorting fields with distinct orders gives a strictly ascending list |
| Orm.DdlIgnoresDictOrder | awesome-python-webapp/www/transwarp/orm.py:102-123 | when the orders are distinct, `_gen_sql` prints the same text whatever order the mapping iterates in |
| Orm.SortedIdentity | awesome-python-webapp/www/transwarp/orm.py:107 | sorting fields that are already strictly ascending changes nothing |
| Orm.GenSql | awesome-python-webapp/www/transwarp/orm.py:102-123 | the appending loops produce the specified DDL text for the sorted fields |
| Orm.AppendColumns | awesome-python-webapp/www/transwarp/orm.py:107-116 | one column line per field, the last key's name, and the foreign keys in order |
| Orm.AppendForeignKeys | awesome-python-webapp/www/transwarp/orm.py:119-121 | one line per foreign key, with a comma on all but the last |
| Orm.GetAttr | awesome-python-webapp/www/transwarp/orm.py:232-236 | reading an attribute succeeds exactly when the record has the key; otherwise it raises AttributeError naming the key |
| Orm.SetThenGet | awesome-python-webapp/www/transwarp/orm.py:232-239 | an attribute written is read back, and every other attribute reads as before |
| Orm.Lookup | awesome-python-webapp/www/transwarp/orm.py:232-236 | a class attribute shadows the record's entry; otherwise the record's entry is read |
| Orm.Fill | awesome-python-webapp/www/transwarp/orm.py:317-326 | every present entry is kept, and every selected mapped column has a value afterwards |
| Orm.FillAdds | awesome-python-webapp/www/transwarp/orm.py:324-325 | a missing column is added exactly when it is selected, mapped and not a class attribute, and then holds its field's default |
| Orm.FillReads | awesome-python-webapp/www/transwarp/orm.py:297-326 | a callable default is consulted only for the missing selected columns it fills: two fills whose callables agree there give the same record |
| Orm.FillIdempotent | awesome-python-webapp/www/transwarp/orm.py:297-326 | filling twice is filling once: a second `insert`/`update` writes no further default |
| Orm.InsertArgs | awesome-python-webapp/www/transwarp/orm.py:316-326 | the arguments of `insert` are exactly the insertable columns |
| Orm.InsertColumns | awesome-python-webapp/www/transwarp/orm.py:311-327 | the insert fails only when no column is insertable; its columns are exactly the insertable ones; a stored value is sent as is, and a missing one as its default |
| Orm.SetClauseInjective | awesome-python-webapp/www/transwarp/orm.py:304 | distinct columns give distinct SET entries |
| Orm.UpdateStmt | awesome-python-webapp/www/transwarp/orm.py:306-308 | the update raises AttributeError exactly when the record lacks the key attribute; otherwise it has one argument per column, plus the key |
| Orm.UpdateColumns | awesome-python-webapp/www/transwarp/orm.py:290-308 | the SET list holds exactly the updatable columns, never the key, with pairwise distinct entries; the SQL is `update` + table + SET + `where pk=?`, with the values read after the defaults were written and the key value last |
| Orm.UpdateKeepsStored | awesome-python-webapp/www/transwarp/orm.py:298-303 | `update` never overwrites a value the record holds, so a non-updatable column keeps it |
| Orm.DeleteStmt | awesome-python-webapp/www/transwarp/orm.py:334-338 | the delete raises exactly when the key attribute is missing; otherwise it deletes by the key column, with the key value as the only argument |
| Orm.UpdateDefaultAsWritten | awesome-python-webapp/www/transwarp/orm.py:302 | as written, reading a default during `update` always raises TypeError |
| Orm.UpdateDefaultAsWrittenFails | awesome-python-webapp/www/transwarp/orm.py:183-187 | for the doctest's `User` lacking `passwd`, the code as written raises "'str' object is not callable"; the corrected update writes `'******'` |
| Orm.UserDeclared | awesome-python-webapp/www/transwarp/orm.py:183-190 | declaring the doctest's `User` succeeds, with key `id`, table `user`, and fields named after their attributes |
| Orm.UserKey | awesome-python-webapp/www/transwarp/orm.py:184 | `id` is the only key field of `User` |
| Orm.UserMapping | awesome-python-webapp/www/transwarp/orm.py:183-188 | the metaclass maps `User`'s five fields, `id` non-updatable as the key and `email` non-updatable as declared |
| Orm.TypedDeclaration | awesome-python-webapp/www/transwarp/orm.py:45-61 | a typed field declared with only key, updatability and default is, once normalised, a non-null column of the kind's type |
| Orm.UserDdl | awesome-python-webapp/www/transwarp/orm.py:215-224 | `User().__sql__()` prints the doctest's nine lines, whatever order the mapping iterates in |
| Orm.UserLines | awesome-python-webapp/www/transwarp/orm.py:216-224 | the DDL lines of `User` are the doctest's lines |
| Orm.NineLines | awesome-python-webapp/www/transwarp/orm.py:106-122 | a table of five columns without foreign keys prints exactly nine lines |
| Orm.WithoutForeignKeys | awesome-python-webapp/www/transwarp/orm.py:117-122 | without foreign keys, the key line has no comma and `);` follows it |
| Orm.NoForeignKeys | awesome-python-webapp/www/transwarp/orm.py:114-115 | fields without the foreign-key flag give no foreign-key clause |
| Orm.LastKey | awesome-python-webapp/www/transwarp/orm.py:112-113 | the key line names the last key field met |
| Orm.FirstRecord | awesome-python-webapp/www/transwarp/orm.py:247 | `cls(**d) if d else None`: a record exactly when a non-empty row with column names came back, holding that row |
| Orm.Get | awesome-python-webapp/www/transwarp/orm.py:241-247 | selects by the key field's name, with `pk` as the only argument; no row gives None |
| Orm.FindFirst | awesome-python-webapp/www/transwarp/orm.py:249-256 | selects with the caller's WHERE clause and arguments; no row gives None |
| Orm.FindAll | awesome-python-webapp/www/transwarp/orm.py:268-274 | selects the whole table, with one record per row |
| Orm.FindBy | awesome-python-webapp/www/transwarp/orm.py:258-266 | selects with the caller's WHERE clause, with one record per row |
| Orm.GetFindsKey | awesome-python-webapp/www/transwarp/orm.py:241-247 | the record `get(pk)` returns reads `pk` back as its key attribute |
| Orm.InsertLoop | awesome-python-webapp/www/transwarp/orm.py:317-326 | the loop writes exactly the specified defaults and reads exactly the insertable columns |
| Orm.UpdateLoop | awesome-python-webapp/www/transwarp/orm.py:297-305 | the loop writes the defaults, and lists each updatable column once with its SET entry and value |
| Orm.UpdateDone | awesome-python-webapp/www/transwarp/orm.py:297-305 | once all updatable columns are done, the state is the one `update` promises |
| Orm.Record.SetAttr | awesome-python-webapp/www/transwarp/orm.py:238-239 | stores the value under the key and changes nothing else |
| Orm.Record.Attribute | awesome-python-webapp/www/transwarp/orm.py:232-236 | an attribute reads exactly when it is a class attribute or a record entry |
| Orm.Record.Insert | awesome-python-webapp/www/transwarp/orm.py:311-328 | runs `pre_insert` when set, writes the missing defaults, and issues `db.insert` of the insertable columns |
| Orm.Record.Update | awesome-python-webapp/www/transwarp/orm.py:290-309 | runs `pre_update` when set, writes the missing defaults of the updatable columns, and issues the update by key |
| Orm.Record.Delete | awesome-python-webapp/www/transwarp/orm.py:330-339 | runs `pre_delete` when set, then deletes by key; the record is otherwise unchanged |
| Framework.Get | awesome-python-webapp/www/framework.py:16-27 | the wrapper is tagged `GET` with the path, and keeps the name and the signature |
| Framework.Post | awesome-python-webapp/www/framework.py:29-40 | the wrapper is tagged `POST` with the path, and keeps the name and the signature |
| Framework.KeywordOnlyNames | awesome-python-webapp/www/framework.py:42-62 | a name is listed exactly when it names a keyword-only parameter (only those without a default, for the required list) |
| Framework.RequiredAreNamed | awesome-python-webapp/www/framework.py:42-62 | the required keyword arguments are named keyword arguments, in the same order |
| Framework.GetNamedKwArgs | awesome-python-webapp/www/framework.py:56-62 | the loop lists the keyword-only parameters in declaration order |
| Framework.GetRequiredKwArgs | awesome-python-webapp/www/framework.py:42-48 | the loop lists the keyword-only parameters without a default, in declaration order |
| Framework.HasKind | awesome-python-webapp/www/framework.py:50-54 | true exactly when some parameter has the kind: keyword-only for `has_named_kw_args` (lines 50-54), `**kw` for `has_var_kw_arg` (lines 64-68) |
| Framework.RequestArgMeaning | awesome-python-webapp/www/framework.py:70-82 | `has_request_arg` is true exactly when a `request` parameter is followed only by `*args`, keyword-only parameters or `**kw`; without a `request` parameter it is false, never an error |
| Framework.HasRequestArg | awesome-python-webapp/www/framework.py:70-82 | the loop returns, or raises ValueError, exactly as specified |
| Framework.HandlerFor | awesome-python-webapp/www/framework.py:86-92 | building the wrapper fails exactly when `has_request_arg` raises; otherwise it records the request flag |
| Framework.NewRequestHandler | awesome-python-webapp/www/framework.py:86-92 | `__init__` computes exactly the specified wrapper |
| Framework.DecoratedSameHandler | awesome-python-webapp/www/framework.py:20-26 | decorating changes nothing the wrapper reads from the signature |
| Framework.Posted | awesome-python-webapp/www/framework.py:98-111 | a missing content type gives "Missing Content-Type"; a JSON content type with a non-object body gives "JSON body must be onject."; a content type that is neither JSON, a form nor multipart gives "Unsupported Content-Type: …", and only it; accepted arguments are the JSON object when the type is JSON and the form otherwise |
| Framework.FirstValues | awesome-python-webapp/www/framework.py:114-117 | the query gives one argument per parsed key |
| Framework.Gathered | awesome-python-webapp/www/framework.py:96-117 | only a handler that takes keyword arguments reads the body or query; only a POST can be refused; no arguments are gathered exactly when the handler takes none, or the request is neither a POST nor a GET with a query string |
| Framework.Lift | awesome-python-webapp/www/framework.py:119 | every request value becomes the keyword argument of the same name |
| Framework.Only | awesome-python-webapp/www/framework.py:123-127 | the copy keeps exactly the listed names that are present, with their values |
| Framework.FirstMissing | awesome-python-webapp/www/framework.py:136-139 | nothing is missing exactly when every name is present; otherwise the result is the first name missing |
| Framework.MatchInfoOnly | awesome-python-webapp/www/framework.py:118-119 | when no arguments were gathered, the handler gets exactly `match_info`, plus the request if it takes it |
| Framework.GatheredSource | awesome-python-webapp/www/framework.py:96-117 | for a handler taking keyword arguments, a POST supplies its JSON object when typed JSON and its form otherwise; a GET with a query supplies the first query values |
| Framework.ArgumentSources | awesome-python-webapp/www/framework.py:118-134 | each argument is the request (exactly for `request` when the handler takes it), else the `match_info` value when the path has one, else the kept body or query value, whose source `GatheredSource` states |
| Framework.RequestPassedIff | awesome-python-webapp/www/framework.py:133-134 | the request object is passed exactly when the handler takes it, and only under `request` |
| Framework.OnlyNamedArgs | awesome-python-webapp/www/framework.py:121-127 | a handler without `**kw` but with named keyword arguments gets only those, `match_info` and `request` |
| Framework.RequiredChecked | awesome-python-webapp/www/framework.py:136-139 | the handler is invoked exactly when every required argument is present; otherwise the 400 answer names a missing one |
| Framework.PostRefusals | awesome-python-webapp/www/framework.py:98-111 | a POST lacking a content type, carrying a non-object JSON body, or of an unsupported type is refused with the matching message |
| Framework.KeepNamed | awesome-python-webapp/www/framework.py:121-127 | the copying loop keeps exactly the named arguments when there is no `**kw` |
| Framework.Overlay | awesome-python-webapp/www/framework.py:129-132 | in any iteration order, the loop lays `match_info` over the gathered arguments |
| Framework.QueryArgs | awesome-python-webapp/www/framework.py:112-117 | the loop takes the first value of every parsed key |
| Framework.CheckRequired | awesome-python-webapp/www/framework.py:136-139 | the loop finds the first required name missing |
| Framework.Gather | awesome-python-webapp/www/framework.py:96-117 | reading the body or the query gives the specified arguments or refusal |
| Framework.Call | awesome-python-webapp/www/framework.py:95-139 | `__call__`, up to invoking the handler, has exactly the specified outcome |
| Framework.RouteFor | awesome-python-webapp/www/framework.py:147-156 | a function lacking `__method__` or `__route__` raises "@get or @post not defined in …"; a registered route carries the tags and the built wrapper |
| Framework.DecoratedRegisters | awesome-python-webapp/www/framework.py:16-40 | a function decorated with `@get`/`@post` passes the tag check, and is registered under its verb and path unless its signature is refused |
| Framework.Router.AddRoute | awesome-python-webapp/www/framework.py:147-156 | appends exactly the specified route; on an error the table is unchanged |
| Framework.Respond | awesome-python-webapp/www/framework.py:267-298 | a status response always has a code in [100, 600); a redirect comes exactly from a string starting `redirect:`; a response object is passed through exactly when one was returned |
| Framework.RedirectTarget | awesome-python-webapp/www/framework.py:273-275 | `redirect:` followed by a location redirects to that location, with the 9-character prefix dropped |
| Framework.DictResponse | awesome-python-webapp/www/framework.py:279-288 | a dictionary is rendered with its template exactly when it names one (not None), and is sent as JSON otherwise |
| Framework.StatusSource | awesome-python-webapp/www/framework.py:289-298 | a status comes exactly from an integer, or a pair whose first item is an integer, in [100, 600); any other pair is sent as plain text |
| App.DatetimeFilter | awesome-python-webapp/www/app.py:38-49 | no text is computed exactly for a week or more |
| App.Buckets | awesome-python-webapp/www/app.py:39-47 | under a minute, including a future time, shows "1分钟前"; otherwise the count shown is the whole units elapsed: 1-59 minutes, 1-23 hours or 1-6 days |
| App.SameTextSameTime | awesome-python-webapp/www/app.py:39-47 | two elapsed times that show the same text fall in the same bucket, with the same count |
| App.TextInjective | awesome-python-webapp/www/app.py:43-47 | distinct counts or units print distinct texts |
| App.DecimalInjective | awesome-python-webapp/www/app.py:43-47 | `'%s' % n` prints distinct naturals differently |

## Left out

- **Database I/O.** The MySQL driver, its cursor objects and `fetchone`/`fetchall` are left out. `_Engine.connect` (db.py:177-178) only returns the stored connection, which the model reduces to the engine's `connected` flag. A query's answer is a `Db.Cursor` value (its description and rows). The driver's success or failure is a parameter (`commitFails`).
- **Concurrency and the server.** The `threading.local` separation of `_DbCtx` is left out: one context is modelled. Also left out: the aiohttp event loop, coroutines and `yield from`, the handler's own execution, and the server lifecycle (`init`, `start`, `stop`, `restart`), including the restart `add_route` triggers on a running server.
- **Logging** is left out, and so is the metaclass's `subclasses` registry, which only feeds a warning.
- **Plumbing outside the core.** Not modelled:
  - `add_routes` (dynamic import and `dir` scan), `add_static`, `add_middleware`, `add_template`, `logger_factory`
  - the `asyncio.coroutine` wrapping in `add_route`
  - `init_jinja2` and the start-up calls of `app.py`
  - Jinja2 rendering and `json.dumps`: a response body is kept as the value to render or serialise
- **`Field.__str__`** (orm.py:36-43) is left out: it only feeds log messages.
- **`count_all`/`count_by`** (orm.py:276-288) are left out: they call `db.select_int`, which db.py does not define.
- **Python's object model in attribute lookup.** Two simplifications:
  - Only class attributes set by the class body and the metaclass shadow a record's entries. The metaclass's `__mappings__`, `__primary_key__` and `__sql__` are among them, as opaque values (`Orm.MetaAttrs`); their contents are the schema's mapping, key and DDL. Members that `Model` and `dict` supply (`get`, `update`, `keys`, …) are not.
  - A hook is run exactly when its class attribute is truthy. What the hook does to the record is a parameter `hook`, and a truthy hook that is not callable is not distinguished.
- **Callable defaults.** What a callable default returns on a given read is the parameter `produce` (per column), since its value depends on the clock (`time.time`) or on code not in this model. Floats are kept by their printed text.
- **Order of iteration.** Two things are not fixed:
  - The column order of `insert`/`update` SQL is whatever Python 2's dictionary iteration gives. It is an order parameter or an `IterationOrder` choice, not declaration order.
  - `create_engine` pops its defaults in the order `IterationOrder` picks. Its result does not depend on that order.
- **Field objects shared between classes.** The metaclass's in-place changes to a field (`name`, `nullable`, `updatable`) are modelled on a copy. A field object shared by two classes, and so mutated twice, is not modelled.
- **`mapping.values()` order in `_gen_sql`.** The sort uses `cmp` on `_order` and is stable. Its output is proved independent of the dictionary order only when the orders are distinct, which the field counter guarantees.
- **Defects that crash at run time.** The model follows each one's evident intent:
  - db.py:54, 75: `func(args, kw)`.
  - db.py:280-285: `__exit__` lacks its exception parameters and reads an unbound `exctype`. Whether the block raised is the parameter `raised`.
  - db.py:26, 216: `DbError` for `DBError`. Both raise `DBError`.
  - db.py:33, 176-188: the engine stores the connect factory, and `cleanup` reads `_connection`. Both are read as the engine's connection.
  - db.py:137, 147: `update` defined twice. The statements are modelled, not the call into `_update`.
  - orm.py:115, 119-121: a 4-tuple formatted into three placeholders, and a counter never advanced. Each foreign key gives one line, with no comma on the last.
  - orm.py:266: an unbound `i` in `find_by`. The model gives one record per row.
  - framework.py:290: an unbound `t`. A bare integer status gives a response with that status.
  - framework.py:116: `parse` is not imported. The parsed query is part of the `Request`.
  - framework.py:144: `APIError` is not imported. Errors raised by the handler are not modelled.
- **Nested transactions follow the code.** A single `should_cleanup` flag lets the innermost exit clean up, so the outermost exit raises AttributeError (`Db.NestedTransactions`). The model keeps that behaviour.
- App.DatetimeFilter: the date shown for a week or more (app.py:48-49) is not computed, because it needs calendar conversion of a float timestamp. The elapsed time is a parameter `delta`, standing for `int(time.time() - t)`.
- Framework.Respond: returning `True`/`False` goes to the plain-text fallback, as its integer value is never a status. The bytes of a `str` body are kept as the text to encode.
- Framework.Posted: a malformed JSON body (for which `request.json()` raises) is not modelled. A form body is a dictionary, so repeated form keys are not modelled.
- Framework.HasKind: the source returns `True` or falls off the end with `None`; the model returns a boolean.

## Findings

| source | as written | input that shows it | evidently intended | confidence | as-written member | corrected member |
|---|---|---|---|---|---|---|
| awesome-python-webapp/www/transwarp/orm.py:302 | `arg = v.default()` calls the value the `default` property already evaluated | `update()` on the doctest's `User` record when it lacks `passwd`: the property returns `'******'`, and calling it raises TypeError "'str' object is not callable" | `arg = v.default`, as `insert` does at orm.py:325 | not executed | Orm.UpdateDefaultAsWritten, Orm.UpdateDefaultAsWrittenFails | Orm.UpdateColumn, Orm.Record.Update |
