/**
 * The vocabulary shared by the data-access layer and the ORM it sits on:
 * the values the layer hands to the ORM (conditions, query descriptions,
 * insert commands) and the answers the ORM gives back. The ORM itself is not
 * modelled; every answer it gives is an input of the operation that asks.
 */
module Orm {

  datatype Option<+T> = None | Some(value: T)

  /** A scalar column value. */
  datatype Value = Int(i: int) | Str(s: string)

  /** A row as a caller hands it over: column name to value. */
  type Record = map<string, Value>

  /** A key of a PHP array: an integer index or a string. */
  datatype Key = Index(i: int) | Name(s: string)

  /** A query condition in the ORM's array format. */
  datatype Where =
    | Hash(pairs: seq<(string, Value)>)     // ['column' => value, ...]; [] is the empty condition
    | Op(op: string, operands: seq<Where>)  // ['and', c1, c2], ['or', ...], ['like', ...]
    | Text(sql: string)                     // a condition written as a (non-numeric) string
    | Number(n: int)                        // a bare number or numeric string
    | Null

  /** The `select` argument: a string such as "id, name as title", or a list of columns. */
  datatype Fields = FieldText(text: string) | FieldList(names: seq<string>)

  /** What a query asks the ORM for: condition, projection, order and output shape. */
  datatype QuerySpec = QuerySpec(condition: Where, select: Fields, orderBy: string, asArray: bool)

  /** What the ORM reports about a model class. */
  datatype Schema = Schema(tableName: string, primaryKey: seq<string>, attributes: seq<string>)
  {
    /** `array_shift($keys)` of primaryKey(): the first key column, null ("") when there is none. */
    function FirstPrimaryKey(): string {
      if |primaryKey| > 0 then primaryKey[0] else ""
    }
  }

  /** The order clause used when a caller gives none: primary key, descending. */
  function PkDescending(pk: string): string {
    pk + " DESC"
  }

  /** The answer of ActiveRecord::save(): saved (with the record's primary-key value), rejected by validation, or an exception. */
  datatype SaveOutcome = Saved(pkValue: int) | Rejected(errors: seq<string>) | Threw(message: string)

  /** The answer of ActiveRecord::delete(): the number of rows removed, a veto with the model's errors, or an exception. */
  datatype DeleteOutcome = Deleted(rows: nat) | Vetoed(errors: seq<string>) | DeleteThrew(message: string)

  /** The answer of Command::execute() or ActiveRecord::updateAll(): affected rows, or an exception. */
  datatype ExecOutcome = Executed(count: nat) | ExecThrew(message: string)

  /** What the ORM answers for one chunk of a batch insert: its raw SQL text and the outcome of executing it. */
  datatype ChunkReply = ChunkReply(rawSql: string, outcome: ExecOutcome)

  /** Transaction events on the connection. */
  datatype TxEvent = Begin | Commit | RollBack

  /** An entry of an error log: a model's validation messages, an exception's message, or an exception object. */
  datatype LoggedError =
    | ModelErrors(messages: seq<string>)
    | ExceptionMessage(message: string)
    | ExceptionObject(message: string)

  /** What the layer asked the ORM to persist. */
  datatype OrmCall =
    | SaveNew(record: Record)                                              // add: a new model saved
    | SaveMatched(index: nat, patch: Record)                               // update/updateAll: the index-th matched model patched and saved
    | DeleteMatched                                                        // delete: the matched model deleted
    | InsertRows(table: string, columns: seq<string>, rows: seq<seq<Value>>) // one multi-row INSERT
    | UpdateMatching(assignments: map<string, string>, condition: Where)    // updateAll: column := raw expression

  /** How a PHP call ends: it returns a value, or an exception escapes it. */
  datatype Completion<+T> = Returned(value: T) | Raised(message: string)
}
