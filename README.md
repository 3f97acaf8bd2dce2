# yii2-service data-access layer, modelled in Dafny

This project models the data-access layer of the yii2-service package. It covers the
`Dao` class with its base `DaoAbstract`, and the simpler `Service` facade. Both sit
on the Yii ActiveRecord ORM. The ORM itself is not modelled. Each of its answers is a
parameter of the operation that asks for it:
- the outcome of a model's `save()` or `delete()`;
- whether `one()` matched a row;
- the count returned by a batch `INSERT`, or the exception it throws;
- the raw SQL text of a command;
- the model's primary key and attribute list, held in a `Schema` value.

What the layer itself decides is modelled and proved:

- **Condition composition and query shaping** (`dao_abstract.dfy`).
  - `getWhere` builds `['and', where?, baseWhere?]`.
  - A bare number becomes a primary-key lookup.
  - An empty order becomes `"<pk> DESC"`.
  - A projection containing `" as "` (in any case) switches to array output.
  - The meaning of a condition is given by `Holds`. It is proved that every query
    selects exactly the rows that satisfy both the caller's condition and the base
    condition.
- **The stateful `Dao` object** (`dao.dfy`).
  - It holds the public configuration: base condition, `asArray` and `isSaveSql`.
  - It holds an append-only SQL log and error log, and memoised primary-key and
    attribute lists.
  - Its transaction is ghost state: a sequence of `Begin`/`Commit`/`RollBack` events.
  - A ghost log records every write sent to the ORM: each new model saved, each
    matched model saved or deleted, and each multi-row INSERT. `inc` and `dec` write
    through one `updateAll`; they change no state of the object, so they return that
    call instead of logging it.
- **The batch coordinators** `addAll`, `updateAll`, `batchInsert` and `_batchInsert`.
  - `batch.dfy` states each one as a function of the ORM's answers. The function
    gives the result, how many items were attempted, the transaction events and the
    new error-log entries.
  - The class methods are loops proved to end in exactly that state.
  - Lemmas cover the cases: every item succeeds, or the first failure is at k.
- **Pagination**: `Dao` clamps both page and limit; `Service` clamps only the page.
- **The `inc`/`dec` update map** (`increments.dfy`).
  - A string field list is split on `','`.
  - A keyed entry sets the step for itself and for the positional entries after it.
  - A later duplicate field overwrites an earlier one.
- **PHP built-ins the layer relies on** (`php_strings.dfy`): `strpos`, `stripos`,
  `explode`, and the decimal text that `"$step"` interpolation writes.
- **`getDbName`**, on a DSN string given as a parameter.
- **`Service`** (`service.dfy`).
  - Its error list is static. Dafny has no static mutable field, so the list is one
    `ErrorList` object handed to each `Service` constructor. The model relies on
    callers passing every `Service` the same `ErrorList`; `SharedErrors` states the
    sharing under that assumption.

Behaviour of the code that the proofs make visible:
- `inc` and `dec` pass the caller's condition to the ORM unchanged. The base
  condition is not applied, so they can update rows that `get` would not return.
- When a save throws inside `Service::updateAll`, the exception object is logged
  and no rollback is issued. The transaction is left open (`UpdateAllVariants`).
- `_batchInsert` takes its column list from the first item that has any attribute.
  Each row holds only the values of the attributes that item has. Items with
  different attributes can give rows of the right length whose values sit under
  the wrong column: with attributes a, b, c, items {a, b} and {a, c} put the second
  item's c under column b (`RowsMisalignWhenKeysDiffer`).
- When an `add` inside `addAll` fails at item k > 0, the transaction is rolled back,
  yet `addAll` returns the ids of items 0 to k - 1. The rollback removed those rows
  (`AddAllStopsAtFirstFailure`: `tx == [Begin, RollBack]` with `|result| == k`).
- When a chunk of `batchInsert` throws after earlier chunks inserted rows, the whole
  batch is rolled back, yet the method returns the earlier chunks' row count. That
  count is positive and names rows the rollback undid (`ThrowReportsUndoneRows`).
- In `getDbName`, a segment that mentions "dbname" but has no `'='` yields the
  segment minus its first character. `strpos` gives false there, and false + 1 is 1.
- Yii's `ArrayHelper::filter` returns keys in the order of the attribute list, so
  the columns follow the model's attribute order, not the item's key order.

## Model

| member | source | states |
|---|---|---|
| PhpStrings.IndexOf | src/DaoAbstract.php:262 | strpos: the position of the first occurrence of the needle, or none when it occurs nowhere |
| PhpStrings.ContainsIgnoringCase | src/DaoAbstract.php:126 | stripos(...) !== false: it never holds for a needle longer than the text, and holds whenever the needle occurs exactly |
| PhpStrings.ContainsIgnoringCaseMeans | src/DaoAbstract.php:261 | stripos finds the needle exactly when it occurs somewhere up to ASCII case |
| PhpStrings.Split | src/Dao.php:300 | explode gives at least one piece; no piece contains the delimiter; joining the pieces gives the input back |
| PhpStrings.SplitJoin | src/Dao.php:300 | splitting a join of delimiter-free pieces gives the pieces back |
| PhpStrings.IntToString | src/Dao.php:308 | "$step" interpolation: non-empty decimal digits, preceded by '-' exactly when the step is negative |
| PhpStrings.NatToString | src/Dao.php:308 | the decimal digits of a natural number, with no leading zero |
| PhpStrings.IntToStringRoundTrip | src/Dao.php:308 | the text written for the step reads back as the same integer, sign included |
| DaoAbstract.Truthy | src/DaoAbstract.php:161-164 | the conditions PHP treats as false in `if ($where)`: the empty array, null, 0, '' and '0' |
| DaoAbstract.GetWhere | src/DaoAbstract.php:158-168 | the condition is an 'and' list holding where (when truthy) first and baseWhere (when truthy) last, 0 to 2 operands, each truthy |
| DaoAbstract.GetWhereMeansBoth | src/DaoAbstract.php:158-168 | a row satisfies the composed condition iff it satisfies both where and baseWhere |
| DaoAbstract.BaseWhereNeverBypassed | src/DaoAbstract.php:164-166 | no caller condition selects a row the base condition rejects |
| DaoAbstract.ResolveWhere | src/DaoAbstract.php:119 | a numeric condition becomes [pk => n]; any other is unchanged |
| DaoAbstract.NumericWhereIsPkLookup | src/DaoAbstract.php:119 | a numeric condition selects exactly the rows whose primary key equals it |
| DaoAbstract.OrderOrDefault | src/DaoAbstract.php:124 | a truthy order is kept; a falsy one becomes "pk DESC" |
| DaoAbstract.ArrayMode | src/DaoAbstract.php:126-127 | the instance flag forces array output; a column list never adds it; a string projection adds it iff stripos finds " as " |
| DaoAbstract.ArrayModeMeans | src/DaoAbstract.php:126-127 | array output iff the instance flag is set or the projection string contains " as " in any case |
| DaoAbstract.ShapeQuery | src/DaoAbstract.php:115-133 | getQuery: an 'and' of at most two conditions; a number becomes the pk lookup as first operand (0 included); a truthy caller condition comes first and a truthy base condition last; the projection is kept; a falsy order becomes "pk DESC"; the instance flag forces arrays |
| DaoAbstract.ShapeQuerySelects | src/DaoAbstract.php:115-133 | every query getQuery builds selects exactly the rows satisfying the resolved condition and the base condition; for a number, the pk lookup within the base condition |
| DaoAbstract.ResolveWhereIdempotent | src/Dao.php:28 | get resolving the number before getQuery does it again changes nothing |
| DaoAbstract.AfterEquals | src/DaoAbstract.php:262 | substr(item, strpos(item, '=') + 1): a proper suffix of a non-empty item; the text after the first '='; without '=', the item minus its first character |
| DaoAbstract.DbNameIn | src/DaoAbstract.php:260-265 | a non-empty answer is the text after '=' of some segment naming dbname |
| DaoAbstract.DbName | src/DaoAbstract.php:257-266 | getDbName never returns text containing ';' |
| DaoAbstract.DbNameInMeans | src/DaoAbstract.php:259-265 | the scan returns the text after '=' of the first segment naming dbname, '' when none does |
| DaoAbstract.DbNameMeans | src/DaoAbstract.php:257-266 | getDbName on a DSN: the first ';'-separated segment containing "dbname" (any case) decides; '' when none does |
| DaoAbstract.LastSql | src/DaoAbstract.php:290-296 | the last logged statement, '' for an empty log |
| DaoAbstract.LastSqlAfterAppend | src/DaoAbstract.php:290-314 | after setSql(s), getLastSql returns s whatever was logged before |
| Batch.AddReply | src/Dao.php:93-102 | add: a saved record returns its pk value and logs nothing; a rejected one returns 0 and logs one entry; an exception escapes |
| Batch.AddAllSpec | src/Dao.php:66-86 | addAll commits iff every add returns a non-zero id, else rolls back; returns the ids of a prefix of the keys in input order; logs at most one entry |
| Batch.AddAllAllSaved | src/Dao.php:71-80 | every add succeeding: commit, nothing logged, every key mapped to its id in input order |
| Batch.AddAllStopsAtFirstFailure | src/Dao.php:71-85 | first failing add at k: rollback, ids of the keys before k only, nothing after k attempted, one entry logged unless add returned 0 for a saved record |
| Batch.AddAllRun | src/Dao.php:66-86 | the exact run of addAll for each way the first failing item can fail |
| Batch.UpdateReply | src/Dao.php:166-177 | update: true iff a matched model saves; a rejection returns false and logs its errors; no match returns false and logs nothing; an exception escapes |
| Batch.DeleteReply | src/Dao.php:214-229 | delete: true iff a matched model's delete removes rows; any other matched outcome logs exactly one entry; no match logs nothing |
| Batch.DeleteStylesAgree | src/Service.php:181-196 | given the same matched model and the same answer from delete(), the two replies agree; only the logged exception's form differs (their queries differ, so they may match different models) |
| Batch.DaoUpdateAllSpec | src/Dao.php:185-207 | updateAll: true iff models matched and every save succeeds; no match means no transaction and no entry; a failure rolls back and logs one entry |
| Batch.ServiceUpdateAllSpec | src/Service.php:153-174 | Service::updateAll: as Dao's, but the failure entry may leave the transaction open |
| Batch.UpdateAllVariants | src/Service.php:169-171 | the first failing save is the last attempted; on a throw Dao rolls back and logs the message, Service logs the exception object and issues no rollback |
| Batch.DaoUpdateAllFailsAt | src/Dao.php:191-197 | first failing save at k: rollback, one entry, false, k + 1 saves attempted |
| Batch.DaoUpdateAllSucceeds | src/Dao.php:191-200 | every save succeeding: commit, true, nothing logged |
| Batch.ServiceUpdateAllFailsAt | src/Service.php:159-171 | rejection: rollback and the model's errors; throw: the exception object and no rollback |
| Batch.ServiceUpdateAllSucceeds | src/Service.php:159-168 | every save succeeding: commit, true, nothing logged |
| Batch.Chunks | src/Dao.php:112 | array_chunk: every chunk is non-empty and at most n long, all but the last exactly n |
| Batch.ChunksFlatten | src/Dao.php:112 | the chunks concatenated are the input, in order |
| Batch.ChunkCount | src/Dao.php:112 | the number of chunks is the least that can hold the input |
| Batch.ThreeChunksFor2500Rows | src/Dao.php:112 | 2500 rows are sent as three INSERT statements |
| Batch.InsertedAtLeastChunks | src/Dao.php:123 | n chunks that each insert rows report at least n rows |
| Batch.BatchInsertSpec | src/Dao.php:109-132 | batchInsert commits iff every chunk inserts rows, returning the sum; otherwise it rolls back, logging at most one entry |
| Batch.BatchInsertSucceeds | src/Dao.php:117-126 | every chunk inserting rows: commit, the sum of all counts, nothing logged |
| Batch.ThrowReportsUndoneRows | src/Dao.php:117-131 | a throw after k > 0 successful chunks rolls back, yet returns the earlier count, at least k rows |
| Batch.BatchInsertFailsAt | src/Dao.php:117-131 | first failing chunk at k: rollback; a zero count returns 0 and logs nothing; a throw returns the earlier chunks' rows and logs its message |
| Batch.PresentAttributes | src/Dao.php:147 | filtering keeps only keys the item has, at most one per attribute |
| Batch.AttributeIndexAt | src/Dao.php:147 | the filtered keys are a subsequence of the attribute list: filtered key p is the attribute at the p-th computed index |
| Batch.AttributeIndicesIncrease | src/Dao.php:147 | those attribute indices strictly increase, so the columns keep attribute order whatever the item's key order |
| Batch.PresentAttributesMeans | src/Dao.php:147 | a name survives the filter iff it is a model attribute and a key of the item |
| Batch.PresentAttributesAll | src/Dao.php:147 | an item with every attribute keeps all of them, in attribute order |
| Batch.RowFor | src/Dao.php:151 | one item's row: no wider than the attribute list; for an item with every attribute, its values in attribute order |
| Batch.BatchRows | src/Dao.php:145-152 | one row per item of the chunk, none wider than the attribute list |
| Batch.BatchColumns | src/Dao.php:145-150 | the column list holds model attributes only |
| Batch.AssembleRows | src/Dao.php:143-152 | the columns are the filtered keys of the first item keeping any; exactly one row per item, in order, holding that item's filtered values |
| Batch.PresentAttributesBySupport | src/Dao.php:147 | the filtered keys depend only on which attributes the item has |
| Batch.RowsAlignWithColumns | src/Dao.php:145-154 | when all items have the same attributes, position p of every row holds that item's value for column p |
| Batch.RowsMisalignWhenKeysDiffer | src/Dao.php:145-154 | with attributes a, b, c, items {a, b} and {a, c} give columns a, b and a second row of full length holding c's value under b |
| Increments.Entries | src/Dao.php:300 | a string field list becomes one positional entry per comma-separated piece |
| Increments.Render | src/Dao.php:308 | the expression starts with the field itself followed by " + " (inc) or " - " (dec) |
| Increments.RenderReadsBack | src/Dao.php:308 | the text after the field and operator reads back as the step |
| Increments.UpdateMap | src/Dao.php:301-309 | the map inc/dec send: empty iff the field list is empty; the last entry's field is always assigned |
| Increments.UpdateMapSize | src/Dao.php:301-309 | at most one assignment per entry |
| Increments.UpdateMapSelfRelative | src/Dao.php:301-309 | every assignment updates its own column: its expression is that field, the operator, then a step |
| Increments.BuildUpdateMap | src/Dao.php:300-309 | the loop of inc/dec builds exactly the update map of the entries |
| Increments.UpdateMapKeys | src/Dao.php:302-309 | the update map's fields are exactly the fields the entries name |
| Increments.UpdateMapLastWins | src/Dao.php:302-309 | a field named more than once takes its last entry's expression, with the step in force there |
| Increments.StepAfterIsLastKeyed | src/Dao.php:303-307 | a keyed entry's step carries over to every positional entry after it, up to the next keyed entry |
| Increments.StepAfterWithoutKeyed | src/Dao.php:303-307 | with no keyed entry the caller's step is used throughout |
| Increments.UpdateMapUniformStep | src/Dao.php:300-309 | positional entries only: every field is set to "field +/- step" with the caller's step |
| Increments.CsvFieldsShareStep | src/Dao.php:300-309 | a comma-separated list: its fields are exactly the pieces, all with the caller's step |
| Dao.PageWindow | src/Dao.php:55-57 | the offset is never negative and the limit at least 1; a limit below 1 becomes 10; a page below 1 reads page 1 |
| Dao.PagesTile | src/Dao.php:55-58 | page p + 1 starts where page p ends |
| Dao.Dao.constructor | src/DaoAbstract.php:25-65 | a new object has the given configuration, empty logs and empty memos |
| Dao.Dao.GetPk | src/DaoAbstract.php:89-97 | the first primary-key column; once memoised, the memo never changes |
| Dao.Dao.GetAttributes | src/DaoAbstract.php:320-326 | the model's attributes; a non-empty memo never changes |
| Dao.Dao.SetErrors | src/DaoAbstract.php:201-204 | appends exactly one entry |
| Dao.Dao.GetErrors | src/DaoAbstract.php:192-195 | every entry, oldest first |
| Dao.Dao.SetSql | src/DaoAbstract.php:311-314 | appends exactly one statement, which becomes the last SQL |
| Dao.Dao.GetSql | src/DaoAbstract.php:302-305 | every logged statement, oldest first |
| Dao.Dao.GetLastSql | src/DaoAbstract.php:290-296 | the newest statement, '' for an empty log |
| Dao.Dao.GetDefaultOrder | src/DaoAbstract.php:281-284 | "pk DESC" |
| Dao.Dao.GetQuery | src/DaoAbstract.php:115-133 | the query is the shaped query of the arguments and the instance state; the SQL log grows by the query's text iff isSaveSql |
| Dao.Dao.Get | src/Dao.php:25-30 | the same query getQuery builds for the condition |
| Dao.Dao.GetAll | src/Dao.php:39-42 | the query getQuery builds |
| Dao.Dao.GetPage | src/Dao.php:53-59 | the query getQuery builds, with the clamped window |
| Dao.Dao.Add | src/Dao.php:93-102 | returns and logs as add does; one new model is saved |
| Dao.Dao.AddAll | src/Dao.php:66-86 | ends in the state addAll's run describes: ids, transaction events, log entries, and saves of exactly the attempted items |
| Dao.Dao.AddEach | src/Dao.php:71-78 | stops at the first failing add; the ids, entries and saves so far |
| Dao.Dao.BatchInsertChunk | src/Dao.php:141-158 | one INSERT of the chunk's columns and rows; its SQL logged unconditionally; the count or the exception |
| Dao.Dao.BatchInsert | src/Dao.php:109-132 | ends in the state batchInsert's run describes; the SQL log and INSERTs cover exactly the attempted chunks |
| Dao.Dao.InsertChunks | src/Dao.php:113-131 | the transaction over the chunks, as batchInsert's run describes |
| Dao.Dao.ExecuteChunks | src/Dao.php:117-124 | runs chunks until the first that inserts nothing or throws; the rows before it |
| Dao.Dao.Update | src/Dao.php:166-177 | the query as getQuery builds it, without array mode; returns and logs as update does |
| Dao.Dao.SaveFound | src/Dao.php:169-176 | a matched model is patched and saved once; nothing when none matched |
| Dao.Dao.UpdateAll | src/Dao.php:185-207 | ends in the state Dao::updateAll's run describes; exactly the attempted models are saved |
| Dao.Dao.SaveEachMatched | src/Dao.php:188-206 | the transaction over the matched models |
| Dao.Dao.Delete | src/Dao.php:214-229 | the query selects only the primary key, without array mode; returns and logs as delete does; records one delete exactly when a model matched |
| Dao.Dao.DeleteFound | src/Dao.php:217-228 | the delete of the matched model, recorded once, and its log entry |
| Dao.Dao.Inc | src/Dao.php:298-311 | one UPDATE with the entries' "+" map and the caller's condition unchanged; true iff rows changed |
| Dao.Dao.Dec | src/Dao.php:331-344 | as inc, with "-" |
| Service.ErrorList.constructor | src/Service.php:239 | the class-wide list starts empty |
| Service.PageOffset | src/Service.php:121-125 | a page below 1 reads page 1; offset (page - 1) * limit with the limit as given |
| Service.PagingAgreesWithDao | src/Service.php:119-126 | for a limit of at least 1, Service pages exactly as Dao does |
| Service.NegativeLimitGivesNegativeOffset | src/Service.php:121-125 | with no limit clamp, a negative limit past page 1 gives a negative offset |
| Service.Service.constructor | src/Service.php:20 | a new object has the given model class and shares the given error list |
| Service.Service.Init | src/Service.php:25-30 | raises with the class name iff the model class does not exist |
| Service.Service.GetPk | src/Service.php:52-56 | the first primary-key column, '' (null) when there is none |
| Service.Service.GetDefaultOrder | src/Service.php:264-267 | "pk DESC" |
| Service.Service.Get | src/Service.php:92-95 | the condition and order pass through as given; array output |
| Service.Service.GetAll | src/Service.php:104-108 | the condition passes through; a falsy order becomes "pk DESC"; array output |
| Service.Service.GetPage | src/Service.php:119-126 | as getAll, with the window of PageOffset and the limit as given |
| Service.Service.SetErrors | src/Service.php:254-258 | appends one entry to the shared list and returns true |
| Service.Service.GetErrors | src/Service.php:245-248 | the shared list, oldest first |
| Service.Service.Add | src/Service.php:73-83 | returns and logs as add does, into the shared list |
| Service.Service.Update | src/Service.php:134-145 | the condition passes through; returns and logs as update does |
| Service.Service.UpdateAll | src/Service.php:153-174 | ends in the state Service::updateAll's run describes |
| Service.Service.Delete | src/Service.php:181-196 | selects only the primary key; returns as delete does, logging a caught exception as the object; records one delete exactly when a model matched |
| Service.SharedErrors | src/Service.php:239-258 | an entry logged through one Service object is read back through another |

## Left out

- src/StaticDao.php and src/StaticService.php are not part of this model. They are static-call dispatch onto instances and have no logic of their own.
- `deleteAll`, `count`, `sum`, `min` and `max` (src/Dao.php:237-289, src/Service.php:204-234) are not modelled. Their results are the ORM's.
- `getAutoIncrement` and `getTableName` are not modelled. They run a live query and depend on the connection's quoting.
- `find`, `getModel`, `model`, `raw`, `setModel` and the accessors of the public fields (model class, base condition, asArray) are not modelled. Those fields are plain fields of the class.
- The ORM is not modelled.
  - Queries are returned as a description (`QuerySpec`); the rows they fetch are not modelled.
  - A SQL text is a parameter, and the SQL rendering is not modelled.
  - The condition `Holds` evaluates only hashes, 'and' and 'or'; every other operator is a parameter.
- Only transaction events are modelled; isolation and atomicity are not.
- Only exceptions from `save()`, `delete()` and `execute()` are modelled; other throws (`createCommand`, `getRawSql`) are not.
- PHP's split between Error and Exception is not modelled. `addAll`, `batchInsert` and `updateAll` catch only Exception, while `delete` catches Throwable; the model has a single kind of throw.
- PHP loose comparison is not modelled. Page, limit and step are integers, and `Service::getPage`'s default limit `''` is not represented.
- A numeric `where` (number or numeric string) is modelled as the `Number` constructor.
- Primary-key values are integers.
- Dao.Dao.AddAll: the ids are a sequence of (key, id) pairs in input order. PHP array keys are unique, so duplicate keys in the input, which PHP would collapse, are not collapsed here.
- Dao.Dao.BatchInsertChunk: `getAttributes` is called once per non-empty chunk, while the source calls it once per item. The memo makes every call return the same list, so only the call count differs.
- Batch.DeleteReply: when delete() returns 0, the logged errors are taken to be empty. The model's own errors are not an input there.
- Service.Service.Init: `class_exists` is modelled as membership in a set of declared class names. Yii runs `init` from the constructor; here it is a separate method.
- The `order` argument is a string only. The source documents it as mixed, and Yii's `orderBy` also takes an array of column => direction; array orders are not modelled.
- The `Service` error list is static in the source; here callers must pass each `Service` the same `ErrorList` object for the sharing to hold.
- The error logs hold `LoggedError` values: a model's messages, a message string, or an exception object. The source stores these mixed PHP values in one array.
