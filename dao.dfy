/**
 * Dao (over DaoAbstract): a data-access object bound to one model class. It
 * keeps a base condition that every query it builds is narrowed by, an
 * optional log of the SQL it issued, an error log, and memoised primary-key
 * and attribute lists. Reads hand a query description to the ORM; writes go
 * through the ORM's models or multi-row INSERT commands, the batch ones inside
 * one transaction. Every answer of the ORM (a save's outcome, the matched
 * model, the raw SQL text of a command) is a parameter of the operation.
 */
module Dao {
  import opened Orm
  import opened PhpStrings
  import opened DaoAbstract
  import opened Batch
  import opened Increments

  /** getPage's (offset, limit): a page below 1 is page 1, a limit below 1 is 10. */
  function PageWindow(page: int, limit: int): (w: (int, int))
    ensures w.0 >= 0 && w.1 >= 1
    ensures limit >= 1 ==> w.1 == limit
    ensures limit < 1 ==> w.1 == 10
    ensures page <= 1 ==> w.0 == 0
    ensures page >= 1 ==> w.0 == (page - 1) * w.1
  {
    var p := if page < 1 then 1 else page;
    var l := if limit < 1 then 10 else limit;
    ((p - 1) * l, l)
  }

  /** Consecutive pages tile the result: page p + 1 starts where page p ends. */
  lemma PagesTile(page: int, limit: int)
    requires page >= 1
    ensures PageWindow(page + 1, limit).0 == PageWindow(page, limit).0 + PageWindow(page, limit).1
  {
    var l := PageWindow(page, limit).1;
    assert page * l == (page - 1) * l + l;
  }

  class Dao {
    /** The model class this object serves, and what the ORM reports about it. */
    const modelClass: string
    const schema: Schema

    /** Public configuration. */
    var baseWhere: Where
    var asArray: bool
    var isSaveSql: bool

    /** The SQL log, the error log and the memoised attribute and primary-key lists. */
    var sqlLog: seq<string>
    var errors: seq<LoggedError>
    var attributeCache: seq<string>
    var pkCache: string

    /** The transaction events this object caused, and what it asked the ORM to persist. */
    ghost var txLog: seq<TxEvent>
    ghost var ormCalls: seq<OrmCall>

    /** The memoised lists are either still empty or what the ORM reports. */
    ghost predicate Valid()
      reads this
    {
      && (pkCache == "" || pkCache == schema.FirstPrimaryKey())
      && (attributeCache == [] || attributeCache == schema.attributes)
    }

    constructor (modelClass: string, schema: Schema, baseWhere: Where, asArray: bool, isSaveSql: bool)
      ensures Valid()
      ensures this.modelClass == modelClass && this.schema == schema
      ensures this.baseWhere == baseWhere && this.asArray == asArray && this.isSaveSql == isSaveSql
      ensures sqlLog == [] && errors == [] && attributeCache == [] && pkCache == ""
      ensures txLog == [] && ormCalls == []
    {
      this.modelClass := modelClass;
      this.schema := schema;
      this.baseWhere := baseWhere;
      this.asArray := asArray;
      this.isSaveSql := isSaveSql;
      sqlLog := [];
      errors := [];
      attributeCache := [];
      pkCache := "";
      txLog := [];
      ormCalls := [];
    }

    /** getPk: the first primary-key column, asked of the ORM only while the memo is falsy. */
    method GetPk() returns (pk: string)
      requires Valid()
      modifies this`pkCache
      ensures Valid()
      ensures pk == schema.FirstPrimaryKey()
      ensures !Falsy(old(pkCache)) ==> pkCache == old(pkCache)
      ensures Falsy(old(pkCache)) && |schema.primaryKey| > 0 ==> pkCache == schema.primaryKey[0]
    {
      if Falsy(pkCache) {
        if |schema.primaryKey| > 0 {
          pkCache := schema.primaryKey[0];
        }
      }
      pk := pkCache;
    }

    /** getAttributes: the model's attribute names, asked of the ORM only while the memo is empty. */
    method GetAttributes() returns (attrs: seq<string>)
      requires Valid()
      modifies this`attributeCache
      ensures Valid()
      ensures attrs == schema.attributes
      ensures old(attributeCache) != [] ==> attributeCache == old(attributeCache)
    {
      if attributeCache == [] {
        attributeCache := schema.attributes;
      }
      attrs := attributeCache;
    }

    /** setErrors: appends one entry to the error log. */
    method SetErrors(e: LoggedError)
      modifies this`errors
      ensures errors == old(errors) + [e]
    {
      errors := errors + [e];
    }

    /** getErrors: every entry logged so far, oldest first. */
    method GetErrors() returns (r: seq<LoggedError>)
      ensures r == errors
    {
      r := errors;
    }

    /** setSql: appends one statement to the SQL log, which becomes the last SQL. */
    method SetSql(sql: string)
      modifies this`sqlLog
      ensures sqlLog == old(sqlLog) + [sql]
      ensures GetLastSql() == sql
    {
      sqlLog := sqlLog + [sql];
      LastSqlAfterAppend(old(sqlLog), sql);
    }

    /** getSql: every statement logged so far, oldest first. */
    method GetSql() returns (r: seq<string>)
      ensures r == sqlLog
    {
      r := sqlLog;
    }

    /** getLastSql: the most recent statement of the log, '' when there is none. */
    function GetLastSql(): (r: string)
      reads this
      ensures sqlLog == [] ==> r == ""
      ensures sqlLog != [] ==> r == sqlLog[|sqlLog| - 1]
    {
      LastSql(sqlLog)
    }

    /** getDefaultOrder: the primary key, descending. */
    method GetDefaultOrder() returns (order: string)
      requires Valid()
      modifies this`pkCache
      ensures Valid()
      ensures order == PkDescending(schema.FirstPrimaryKey())
    {
      var pk := GetPk();
      order := PkDescending(pk);
    }

    /**
     * getQuery: the query for a condition, projection and order, narrowed by
     * the base condition. rawSql is the text the ORM renders for it; it is
     * logged when isSaveSql is set.
     */
    method GetQuery(where: Where, fields: Fields, order: string, rawSql: string) returns (q: QuerySpec)
      requires Valid()
      modifies this`pkCache, this`sqlLog
      ensures Valid()
      ensures q == ShapeQuery(where, fields, order, schema.FirstPrimaryKey(), baseWhere, asArray)
      ensures sqlLog == if isSaveSql then old(sqlLog) + [rawSql] else old(sqlLog)
    {
      var w := where;
      if where.Number? {
        var pk := GetPk();
        w := Hash([(pk, Int(where.n))]);
      }
      var condition := GetWhere(w, baseWhere);
      var orderBy := order;
      if Falsy(order) {
        orderBy := GetDefaultOrder();
      }
      q := QuerySpec(condition, fields, orderBy, ArrayMode(fields, asArray));
      if isSaveSql {
        SetSql(rawSql);
      }
    }

    /** get: the query whose one() gives the first matching row; a number looks up the primary key. */
    method Get(where: Where, fields: Fields, order: string, rawSql: string) returns (q: QuerySpec)
      requires Valid()
      modifies this`pkCache, this`sqlLog
      ensures Valid()
      ensures q == ShapeQuery(where, fields, order, schema.FirstPrimaryKey(), baseWhere, asArray)
      ensures sqlLog == if isSaveSql then old(sqlLog) + [rawSql] else old(sqlLog)
    {
      var w := where;
      if where.Number? {
        var pk := GetPk();
        w := ResolveWhere(where, pk);
      }
      ResolveWhereIdempotent(where, schema.FirstPrimaryKey());
      q := GetQuery(w, fields, order, rawSql);
    }

    /** getAll: the query whose all() gives every matching row. */
    method GetAll(where: Where, fields: Fields, order: string, rawSql: string) returns (q: QuerySpec)
      requires Valid()
      modifies this`pkCache, this`sqlLog
      ensures Valid()
      ensures q == ShapeQuery(where, fields, order, schema.FirstPrimaryKey(), baseWhere, asArray)
      ensures sqlLog == if isSaveSql then old(sqlLog) + [rawSql] else old(sqlLog)
    {
      q := GetQuery(where, fields, order, rawSql);
    }

    /** getPage: the query together with the window (offset, limit) its all() is restricted to. */
    method GetPage(where: Where, page: int, limit: int, fields: Fields, order: string, rawSql: string)
      returns (q: QuerySpec, offset: int, size: int)
      requires Valid()
      modifies this`pkCache, this`sqlLog
      ensures Valid()
      ensures q == ShapeQuery(where, fields, order, schema.FirstPrimaryKey(), baseWhere, asArray)
      ensures (offset, size) == PageWindow(page, limit)
      ensures sqlLog == if isSaveSql then old(sqlLog) + [rawSql] else old(sqlLog)
    {
      var p := if page < 1 then 1 else page;
      size := if limit < 1 then 10 else limit;
      offset := (p - 1) * size;
      q := GetQuery(where, fields, order, rawSql);
    }

    /**
     * add: saves a new model built from record; returns its primary-key value,
     * or 0 with the model's errors logged when validation rejects it. An
     * exception from save escapes.
     */
    method Add(record: Record, save: SaveOutcome) returns (r: Completion<int>)
      requires Valid()
      modifies this`errors, this`pkCache, this`ormCalls
      ensures Valid()
      ensures r == AddReply(save).0
      ensures errors == old(errors) + AddReply(save).1
      ensures ormCalls == old(ormCalls) + [SaveNew(record)]
    {
      ormCalls := ormCalls + [SaveNew(record)];
      match save {
        case Saved(id) =>
          var _ := GetPk();
          r := Returned(id);
        case Rejected(messages) =>
          SetErrors(ModelErrors(messages));
          r := Returned(0);
        case Threw(message) =>
          r := Raised(message);
      }
    }

    /**
     * addAll: adds the items one by one inside a transaction, keyed like the
     * input; stops and rolls back at the first item whose add fails.
     */
    method AddAll(data: seq<(Key, Record)>, saves: seq<SaveOutcome>) returns (ids: seq<(Key, int)>)
      requires Valid() && |saves| == |data|
      modifies this`errors, this`pkCache, this`ormCalls, this`txLog
      ensures Valid()
      ensures var run := AddAllSpec(KeysOf(data), saves);
        && ids == run.result
        && txLog == old(txLog) + run.tx
        && errors == old(errors) + run.logged
        && ormCalls == old(ormCalls) + Inserts(data, run.attempted)
    {
      txLog := txLog + [Begin];
      var k, thrown;
      ids, k, thrown := AddEach(data, saves);
      AddAllRun(KeysOf(data), saves, k);
      if k < |data| {
        txLog := txLog + [RollBack];
        if thrown.Some? {
          SetErrors(ExceptionMessage(thrown.value));
        }
      } else {
        txLog := txLog + [Commit];
      }
    }

    /**
     * The loop of addAll: adds each item until one's add returns 0 or throws.
     * k is that item (|data| when there is none) and thrown its exception.
     */
    method AddEach(data: seq<(Key, Record)>, saves: seq<SaveOutcome>)
      returns (ids: seq<(Key, int)>, k: nat, thrown: Option<string>)
      requires Valid() && |saves| == |data|
      modifies this`errors, this`pkCache, this`ormCalls
      ensures Valid()
      ensures k == FirstWhere(saves, AddFails)
      ensures ids == CollectedIds(KeysOf(data), saves, k)
      ensures thrown == if k < |data| && saves[k].Threw? then Some(saves[k].message) else None
      ensures errors == old(errors) + if k < |data| && saves[k].Rejected? then [ModelErrors(saves[k].errors)] else []
      ensures ormCalls == old(ormCalls) + Inserts(data, if k < |data| then k + 1 else k)
    {
      ghost var keys := KeysOf(data);
      ids := [];
      k := 0;
      thrown := None;
      while k < |data|
        invariant k <= FirstWhere(saves, AddFails) && Valid()
        invariant ids == CollectedIds(keys, saves, k)
        invariant errors == old(errors)
        invariant ormCalls == old(ormCalls) + Inserts(data, k)
      {
        InsertsSnoc(data, k);
        var r := Add(data[k].1, saves[k]);
        if r.Raised? || r.value == 0 {
          FirstWhereHit(saves, AddFails, k);
          if r.Raised? {
            thrown := Some(r.message);
          }
          return;
        }
        FirstWhereStep(saves, AddFails, k);
        CollectedIdsSnoc(keys, saves, k);
        ids := ids + [(data[k].0, r.value)];
        k := k + 1;
      }
    }

    /**
     * _batchInsert: one multi-row INSERT for a chunk, its columns taken from
     * the first item that keeps any attribute; the statement's SQL is always
     * logged, then it is executed.
     */
    method BatchInsertChunk(table: string, chunk: seq<Record>, reply: ChunkReply) returns (r: Completion<int>)
      requires Valid()
      modifies this`attributeCache, this`sqlLog, this`ormCalls
      ensures Valid()
      ensures ormCalls == old(ormCalls) + [InsertCommand(table, chunk, schema.attributes)]
      ensures sqlLog == old(sqlLog) + [reply.rawSql]
      ensures reply.outcome.Executed? ==> r == Returned(reply.outcome.count)
      ensures reply.outcome.ExecThrew? ==> r == Raised(reply.outcome.message)
    {
      var attrs := schema.attributes;
      if |chunk| > 0 {
        attrs := GetAttributes();
      }
      var columns, rows := AssembleRows(chunk, attrs);
      assert rows == BatchRows(chunk, attrs);
      ormCalls := ormCalls + [InsertRows(table, columns, rows)];
      SetSql(reply.rawSql);
      match reply.outcome {
        case Executed(count) => r := Returned(count);
        case ExecThrew(message) => r := Raised(message);
      }
    }

    /**
     * batchInsert: the rows in chunks of 1000, one INSERT per chunk inside a
     * transaction; returns the rows inserted. replies[i] is what the ORM
     * answers for chunk i.
     */
    method BatchInsert(data: seq<Record>, replies: seq<ChunkReply>) returns (rows: int)
      requires Valid()
      requires |replies| == |Chunks(data, ChunkSize)|
      modifies this`errors, this`attributeCache, this`sqlLog, this`ormCalls, this`txLog
      ensures Valid()
      ensures var run := BatchInsertSpec(Outcomes(replies));
        && rows == run.result
        && txLog == old(txLog) + run.tx
        && errors == old(errors) + run.logged
        && sqlLog == old(sqlLog) + SqlTexts(replies, run.attempted)
        && ormCalls == old(ormCalls) + InsertCommands(schema.tableName, Chunks(data, ChunkSize), schema.attributes, run.attempted)
    {
      var chunks := Chunks(data, ChunkSize);
      rows := InsertChunks(schema.tableName, chunks, replies);
    }

    /** The transaction of batchInsert over the chunks. */
    method InsertChunks(table: string, chunks: seq<seq<Record>>, replies: seq<ChunkReply>) returns (rows: int)
      requires Valid()
      requires |replies| == |chunks|
      modifies this`errors, this`attributeCache, this`sqlLog, this`ormCalls, this`txLog
      ensures Valid()
      ensures var run := BatchInsertSpec(Outcomes(replies));
        && rows == run.result
        && txLog == old(txLog) + run.tx
        && errors == old(errors) + run.logged
        && sqlLog == old(sqlLog) + SqlTexts(replies, run.attempted)
        && ormCalls == old(ormCalls) + InsertCommands(table, chunks, schema.attributes, run.attempted)
    {
      ghost var outcomes := Outcomes(replies);
      txLog := txLog + [Begin];
      var inserted, k, thrown := ExecuteChunks(table, chunks, replies);
      if k < |chunks| {
        BatchInsertFailsAt(outcomes, k);
        txLog := txLog + [RollBack];
        if thrown.Some? {
          SetErrors(ExceptionMessage(thrown.value));
          rows := inserted;
        } else {
          rows := 0;
        }
      } else {
        BatchInsertSucceeds(outcomes);
        assert outcomes[..|outcomes|] == outcomes;
        txLog := txLog + [Commit];
        rows := inserted;
      }
    }

    /**
     * The loop of batchInsert: runs _batchInsert on each chunk until one
     * inserts nothing or throws. k is that chunk (|chunks| when there is
     * none), inserted the rows of the chunks before it, thrown its exception.
     */
    method ExecuteChunks(table: string, chunks: seq<seq<Record>>, replies: seq<ChunkReply>)
      returns (inserted: int, k: nat, thrown: Option<string>)
      requires Valid()
      requires |replies| == |chunks|
      modifies this`attributeCache, this`sqlLog, this`ormCalls
      ensures Valid()
      ensures k == FirstWhere(Outcomes(replies), ChunkFails)
      ensures inserted == Inserted(Outcomes(replies), k)
      ensures thrown == if k < |chunks| && replies[k].outcome.ExecThrew? then Some(replies[k].outcome.message) else None
      ensures var n := if k < |chunks| then k + 1 else k;
        && sqlLog == old(sqlLog) + SqlTexts(replies, n)
        && ormCalls == old(ormCalls) + InsertCommands(table, chunks, schema.attributes, n)
    {
      ghost var outcomes := Outcomes(replies);
      inserted := 0;
      k := 0;
      thrown := None;
      while k < |chunks|
        invariant k <= FirstWhere(outcomes, ChunkFails) && Valid()
        invariant inserted == Inserted(outcomes, k)
        invariant sqlLog == old(sqlLog) + SqlTexts(replies, k)
        invariant ormCalls == old(ormCalls) + InsertCommands(table, chunks, schema.attributes, k)
      {
        SqlTextsSnoc(replies, k);
        InsertCommandsSnoc(table, chunks, schema.attributes, k);
        var r := BatchInsertChunk(table, chunks[k], replies[k]);
        assert outcomes[k] == replies[k].outcome;
        if r.Raised? || r.value == 0 {
          FirstWhereHit(outcomes, ChunkFails, k);
          if r.Raised? {
            thrown := Some(r.message);
          }
          return;
        }
        FirstWhereStep(outcomes, ChunkFails, k);
        inserted := inserted + r.value;
        k := k + 1;
      }
    }

    /**
     * update: patches and saves the first model the condition matches (found
     * is the answer of one() and, when it matched, of the save).
     */
    method Update(where: Where, patch: Record, rawSql: string, found: Option<SaveOutcome>)
      returns (q: QuerySpec, r: Completion<bool>)
      requires Valid()
      modifies this`pkCache, this`sqlLog, this`errors, this`ormCalls
      ensures Valid()
      ensures q == ShapeQuery(where, FieldText(""), "", schema.FirstPrimaryKey(), baseWhere, asArray).(asArray := false)
      ensures sqlLog == if isSaveSql then old(sqlLog) + [rawSql] else old(sqlLog)
      ensures r == UpdateReply(found).0
      ensures errors == old(errors) + UpdateReply(found).1
      ensures ormCalls == old(ormCalls) + (if found.Some? then [SaveMatched(0, patch)] else [])
    {
      q := GetQuery(where, FieldText(""), "", rawSql);
      q := q.(asArray := false);
      r := SaveFound(patch, found);
    }

    /** The part of update after the query: patch and save the model, if one matched. */
    method SaveFound(patch: Record, found: Option<SaveOutcome>) returns (r: Completion<bool>)
      modifies this`errors, this`ormCalls
      ensures r == UpdateReply(found).0
      ensures errors == old(errors) + UpdateReply(found).1
      ensures ormCalls == old(ormCalls) + (if found.Some? then [SaveMatched(0, patch)] else [])
    {
      r := Returned(false);
      if found.Some? {
        ormCalls := ormCalls + [SaveMatched(0, patch)];
        match found.value {
          case Saved(_) => r := Returned(true);
          case Rejected(messages) => SetErrors(ModelErrors(messages));
          case Threw(message) => r := Raised(message);
        }
      }
    }

    /**
     * updateAll: patches and saves every matched model inside a transaction
     * (saves[i] is the answer of the i-th model's save); stops and rolls back
     * at the first failure. Nothing matched: false, and no transaction.
     */
    method UpdateAll(where: Where, patch: Record, rawSql: string, saves: seq<SaveOutcome>)
      returns (q: QuerySpec, ok: bool)
      requires Valid()
      modifies this`pkCache, this`sqlLog, this`errors, this`ormCalls, this`txLog
      ensures Valid()
      ensures q == ShapeQuery(where, FieldText(""), "", schema.FirstPrimaryKey(), baseWhere, asArray).(asArray := false)
      ensures sqlLog == if isSaveSql then old(sqlLog) + [rawSql] else old(sqlLog)
      ensures var run := DaoUpdateAllSpec(saves);
        && ok == run.result
        && txLog == old(txLog) + run.tx
        && errors == old(errors) + run.logged
        && ormCalls == old(ormCalls) + Patches(patch, run.attempted)
    {
      q := GetQuery(where, FieldText(""), "", rawSql);
      q := q.(asArray := false);
      if saves == [] {
        ok := false;
      } else {
        ok := SaveEachMatched(patch, saves);
      }
    }

    /** The transaction of updateAll over a non-empty list of matched models. */
    method SaveEachMatched(patch: Record, saves: seq<SaveOutcome>) returns (ok: bool)
      requires saves != []
      modifies this`errors, this`ormCalls, this`txLog
      ensures var run := DaoUpdateAllSpec(saves);
        && ok == run.result
        && txLog == old(txLog) + run.tx
        && errors == old(errors) + run.logged
        && ormCalls == old(ormCalls) + Patches(patch, run.attempted)
    {
      txLog := txLog + [Begin];
      for i := 0 to |saves|
        invariant forall j :: 0 <= j < i ==> saves[j].Saved?
        invariant errors == old(errors) && txLog == old(txLog) + [Begin]
        invariant ormCalls == old(ormCalls) + Patches(patch, i)
      {
        ormCalls := ormCalls + [SaveMatched(i, patch)];
        assert Patches(patch, i + 1) == Patches(patch, i) + [SaveMatched(i, patch)];
        if !saves[i].Saved? {
          DaoUpdateAllFailsAt(saves, i);
          txLog := txLog + [RollBack];
          SetErrors(DaoSaveFailure(saves[i]));
          return false;
        }
      }
      DaoUpdateAllSucceeds(saves);
      txLog := txLog + [Commit];
      ok := true;
    }

    /**
     * delete: deletes the first model the condition matches, selecting only
     * its primary key; found is the answer of one() and, when it matched, of
     * delete().
     */
    method Delete(where: Where, rawSql: string, found: Option<DeleteOutcome>) returns (q: QuerySpec, ok: bool)
      requires Valid()
      modifies this`pkCache, this`sqlLog, this`errors, this`ormCalls
      ensures Valid()
      ensures var pk := schema.FirstPrimaryKey();
        q == ShapeQuery(where, FieldText(pk), "", pk, baseWhere, asArray).(asArray := false)
      ensures sqlLog == if isSaveSql then old(sqlLog) + [rawSql] else old(sqlLog)
      ensures ok == DeleteReply(found, AsMessage).0
      ensures errors == old(errors) + DeleteReply(found, AsMessage).1
      ensures ormCalls == old(ormCalls) + (if found.Some? then [DeleteMatched] else [])
    {
      var pk := GetPk();
      q := GetQuery(where, FieldText(pk), "", rawSql);
      q := q.(asArray := false);
      ok := DeleteFound(found);
    }

    /** The part of delete after the query: delete the model, if one matched. */
    method DeleteFound(found: Option<DeleteOutcome>) returns (ok: bool)
      modifies this`errors, this`ormCalls
      ensures ok == DeleteReply(found, AsMessage).0
      ensures errors == old(errors) + DeleteReply(found, AsMessage).1
      ensures ormCalls == old(ormCalls) + (if found.Some? then [DeleteMatched] else [])
    {
      ok := false;
      if found.Some? {
        ormCalls := ormCalls + [DeleteMatched];
        match found.value {
          case Deleted(count) =>
            if count != 0 {
              ok := true;
            } else {
              SetErrors(ModelErrors([]));
            }
          case Vetoed(messages) => SetErrors(ModelErrors(messages));
          case DeleteThrew(message) => SetErrors(ExceptionMessage(message));
        }
      }
    }

    /**
     * inc: one UPDATE of every row the condition matches, adding the step to
     * each named field; true when any row changed. The condition goes to the
     * ORM as given: neither the numeric shortcut nor the base condition applies.
     */
    method Inc(where: Where, field: FieldArg, step: int, reply: ExecOutcome) returns (call: OrmCall, r: Completion<bool>)
      ensures call == UpdateMatching(UpdateMap(Entries(field), step, Up), where)
      ensures reply.Executed? ==> r == Returned(reply.count != 0)
      ensures reply.ExecThrew? ==> r == Raised(reply.message)
    {
      var upData := BuildUpdateMap(field, step, Up);
      call := UpdateMatching(upData, where);
      match reply {
        case Executed(count) => r := Returned(count != 0);
        case ExecThrew(message) => r := Raised(message);
      }
    }

    /** dec: as inc, subtracting the step. */
    method Dec(where: Where, field: FieldArg, step: int, reply: ExecOutcome) returns (call: OrmCall, r: Completion<bool>)
      ensures call == UpdateMatching(UpdateMap(Entries(field), step, Down), where)
      ensures reply.Executed? ==> r == Returned(reply.count != 0)
      ensures reply.ExecThrew? ==> r == Raised(reply.message)
    {
      var upData := BuildUpdateMap(field, step, Down);
      call := UpdateMatching(upData, where);
      match reply {
        case Executed(count) => r := Returned(count != 0);
        case ExecThrew(message) => r := Raised(message);
      }
    }
  }
}
