/**
 * Service: the simpler data-access facade bound to one model class. It keeps
 * no per-instance state besides the class name: conditions go to the ORM as
 * given (no base condition, no numeric shortcut), results always come back as
 * arrays, and the primary key is asked of the ORM on every use. Its error list
 * is static, so every Service object appends to and reads the same list.
 */
module Service {
  import opened Orm
  import opened PhpStrings
  import opened DaoAbstract
  import opened Batch
  import Dao

  /** The static error list of the Service class: one object, shared by every instance. */
  class ErrorList {
    var entries: seq<LoggedError>

    constructor ()
      ensures entries == []
    {
      entries := [];
    }
  }

  /** getPage's offset: a page below 1 is page 1; the limit is used as given. */
  function PageOffset(page: int, limit: int): (offset: int)
    ensures page <= 1 ==> offset == 0
    ensures page >= 1 ==> offset == (page - 1) * limit
  {
    var p := if page < 1 then 1 else page;
    (p - 1) * limit
  }

  /** For a positive limit, Service pages exactly as Dao does. */
  lemma PagingAgreesWithDao(page: int, limit: int)
    requires limit >= 1
    ensures Dao.PageWindow(page, limit) == (PageOffset(page, limit), limit)
  {
  }

  /** Without Dao's clamp, a negative limit past page 1 asks for a negative offset. */
  lemma NegativeLimitGivesNegativeOffset(page: int, limit: int)
    requires page >= 2 && limit < 0
    ensures PageOffset(page, limit) < 0
  {
    assert (page - 1) * limit <= limit by {
      assert (page - 1) * limit == limit + (page - 2) * limit;
      assert (page - 2) * limit <= 0;
    }
  }

  class Service {
    /** The model class name, what the ORM reports about it, and the class-wide error list. */
    const model: string
    const schema: Schema
    const statics: ErrorList

    /** The transaction events this object caused, and what it asked the ORM to persist. */
    ghost var txLog: seq<TxEvent>
    ghost var ormCalls: seq<OrmCall>

    constructor (model: string, schema: Schema, statics: ErrorList)
      ensures this.model == model && this.schema == schema && this.statics == statics
      ensures txLog == [] && ormCalls == []
    {
      this.model := model;
      this.schema := schema;
      this.statics := statics;
      txLog := [];
      ormCalls := [];
    }

    /** init: refuses a model class that does not exist, raising with its name. */
    method Init(declared: set<string>) returns (raised: Option<string>)
      ensures raised.None? <==> model in declared
      ensures raised.Some? ==> raised.value == model
    {
      if model !in declared {
        raised := Some(model);
      } else {
        raised := None;
      }
    }

    /** getPk: the first primary-key column, asked of the ORM each time; null ('') when there is none. */
    method GetPk() returns (pk: string)
      ensures |schema.primaryKey| > 0 ==> pk == schema.primaryKey[0]
      ensures |schema.primaryKey| == 0 ==> pk == ""
    {
      pk := schema.FirstPrimaryKey();
    }

    /** getDefaultOrder: the primary key, descending. */
    method GetDefaultOrder() returns (order: string)
      ensures order == schema.FirstPrimaryKey() + " DESC"
    {
      var pk := GetPk();
      order := pk + " DESC";
    }

    /** get: the query whose one() gives the first matching row, as an array, in the order given (none by default). */
    method Get(where: Where, fields: Fields, order: string) returns (q: QuerySpec)
      ensures q.condition == where && q.select == fields && q.orderBy == order && q.asArray
    {
      q := QuerySpec(where, fields, order, true);
    }

    /** getAll: the query whose all() gives every matching row, as arrays, primary key descending by default. */
    method GetAll(where: Where, fields: Fields, order: string) returns (q: QuerySpec)
      ensures q.condition == where && q.select == fields && q.asArray
      ensures q.orderBy == OrderOrDefault(order, schema.FirstPrimaryKey())
    {
      var orderBy := order;
      if Falsy(order) {
        orderBy := GetDefaultOrder();
      }
      q := QuerySpec(where, fields, orderBy, true);
    }

    /** getPage: as getAll, restricted to the window (offset, limit). */
    method GetPage(where: Where, page: int, limit: int, fields: Fields, order: string)
      returns (q: QuerySpec, offset: int, size: int)
      ensures q.condition == where && q.select == fields && q.asArray
      ensures q.orderBy == OrderOrDefault(order, schema.FirstPrimaryKey())
      ensures offset == PageOffset(page, limit) && size == limit
    {
      var p := page;
      if p < 1 {
        p := 1;
      }
      var orderBy := order;
      if Falsy(order) {
        orderBy := GetDefaultOrder();
      }
      offset := (p - 1) * limit;
      size := limit;
      q := QuerySpec(where, fields, orderBy, true);
    }

    /** setErrors: appends one entry to the class-wide error list and returns true. */
    method SetErrors(e: LoggedError) returns (ok: bool)
      modifies statics
      ensures ok
      ensures statics.entries == old(statics.entries) + [e]
    {
      statics.entries := statics.entries + [e];
      ok := true;
    }

    /** getErrors: the class-wide error list, oldest first. */
    method GetErrors() returns (r: seq<LoggedError>)
      ensures r == statics.entries
    {
      r := statics.entries;
    }

    /**
     * add: saves a new model built from record; returns its primary-key value,
     * or 0 with the model's errors logged when validation rejects it. An
     * exception from save escapes.
     */
    method Add(record: Record, save: SaveOutcome) returns (r: Completion<int>)
      modifies statics, this`ormCalls
      ensures r == AddReply(save).0
      ensures statics.entries == old(statics.entries) + AddReply(save).1
      ensures ormCalls == old(ormCalls) + [SaveNew(record)]
    {
      ormCalls := ormCalls + [SaveNew(record)];
      match save {
        case Saved(id) =>
          var _ := GetPk();
          r := Returned(id);
        case Rejected(messages) =>
          var _ := SetErrors(ModelErrors(messages));
          r := Returned(0);
        case Threw(message) =>
          r := Raised(message);
      }
    }

    /**
     * update: patches and saves the first model the condition matches (found
     * is the answer of one() and, when it matched, of the save).
     */
    method Update(where: Where, patch: Record, found: Option<SaveOutcome>) returns (q: QuerySpec, r: Completion<bool>)
      modifies statics, this`ormCalls
      ensures q == QuerySpec(where, FieldText(""), "", false)
      ensures r == UpdateReply(found).0
      ensures statics.entries == old(statics.entries) + UpdateReply(found).1
      ensures ormCalls == old(ormCalls) + (if found.Some? then [SaveMatched(0, patch)] else [])
    {
      q := QuerySpec(where, FieldText(""), "", false);
      r := Returned(false);
      if found.Some? {
        ormCalls := ormCalls + [SaveMatched(0, patch)];
        match found.value {
          case Saved(_) => r := Returned(true);
          case Rejected(messages) => var _ := SetErrors(ModelErrors(messages));
          case Threw(message) => r := Raised(message);
        }
      }
    }

    /**
     * updateAll: patches and saves every matched model inside a transaction
     * (saves[i] is the answer of the i-th model's save). A rejected save rolls
     * back; an exception is logged as the exception object and the transaction
     * is left open. Nothing matched: false, and no transaction.
     */
    method UpdateAll(where: Where, patch: Record, saves: seq<SaveOutcome>) returns (q: QuerySpec, ok: bool)
      modifies statics, this`ormCalls, this`txLog
      ensures q == QuerySpec(where, FieldText(""), "", false)
      ensures var run := ServiceUpdateAllSpec(saves);
        && ok == run.result
        && txLog == old(txLog) + run.tx
        && statics.entries == old(statics.entries) + run.logged
        && ormCalls == old(ormCalls) + Patches(patch, run.attempted)
    {
      q := QuerySpec(where, FieldText(""), "", false);
      ok := false;
      if saves == [] {
        return;
      }
      txLog := txLog + [Begin];
      for i := 0 to |saves|
        invariant forall j :: 0 <= j < i ==> saves[j].Saved?
        invariant statics.entries == old(statics.entries) && txLog == old(txLog) + [Begin]
        invariant ormCalls == old(ormCalls) + Patches(patch, i)
      {
        ormCalls := ormCalls + [SaveMatched(i, patch)];
        assert Patches(patch, i + 1) == Patches(patch, i) + [SaveMatched(i, patch)];
        match saves[i] {
          case Saved(_) =>
          case Rejected(messages) =>
            ServiceUpdateAllFailsAt(saves, i);
            txLog := txLog + [RollBack];
            var _ := SetErrors(ModelErrors(messages));
            return;
          case Threw(message) =>
            ServiceUpdateAllFailsAt(saves, i);
            var _ := SetErrors(ExceptionObject(message));
            return;
        }
      }
      ServiceUpdateAllSucceeds(saves);
      txLog := txLog + [Commit];
      ok := true;
    }

    /**
     * delete: deletes the first model the condition matches, selecting only
     * its primary key; found is the answer of one() and, when it matched, of
     * delete(). A caught exception is logged as the exception object.
     */
    method Delete(where: Where, found: Option<DeleteOutcome>) returns (q: QuerySpec, ok: bool)
      modifies statics, this`ormCalls
      ensures q == QuerySpec(where, FieldText(schema.FirstPrimaryKey()), "", false)
      ensures ok == DeleteReply(found, AsObject).0
      ensures statics.entries == old(statics.entries) + DeleteReply(found, AsObject).1
      ensures ormCalls == old(ormCalls) + (if found.Some? then [DeleteMatched] else [])
    {
      var pk := GetPk();
      q := QuerySpec(where, FieldText(pk), "", false);
      ok := false;
      if found.Some? {
        ormCalls := ormCalls + [DeleteMatched];
        match found.value {
          case Deleted(count) =>
            if count != 0 {
              ok := true;
            } else {
              var _ := SetErrors(ModelErrors([]));
            }
          case Vetoed(messages) => var _ := SetErrors(ModelErrors(messages));
          case DeleteThrew(message) => var _ := SetErrors(ExceptionObject(message));
        }
      }
    }
  }

  /**
   * The error list is class-wide: an entry logged through one Service object
   * is read back through any other.
   */
  method SharedErrors(a: Service, b: Service, e: LoggedError) returns (seen: seq<LoggedError>)
    requires a.statics == b.statics
    modifies a.statics
    ensures seen == old(a.statics.entries) + [e]
    ensures seen[|seen| - 1] == e
  {
    var _ := a.SetErrors(e);
    seen := b.GetErrors();
  }
}
