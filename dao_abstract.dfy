/**
 * The pure decisions of DaoAbstract: how a caller's condition and the
 * instance's base condition are combined (getWhere), how a query is shaped
 * (getQuery: numeric shortcut, default order, array output), the database
 * name taken from the DSN (getDbName) and the last logged SQL (getLastSql).
 * The state these read (base condition, flags, logs, memoised primary key)
 * lives in the Dao class.
 */
module DaoAbstract {
  import opened Orm
  import opened PhpStrings

  /** PHP truthiness of a condition, as `if ($where)` tests it. */
  predicate Truthy(w: Where)
    ensures !Truthy(w) <==> w == Hash([]) || w == Null || w == Number(0) || w == Text("") || w == Text("0")
  {
    match w
    case Hash(pairs) => |pairs| > 0
    case Op(_, _) => true
    case Text(sql) => !Falsy(sql)
    case Number(n) => n != 0
    case Null => false
  }

  /**
   * What a condition means for one row. Conditions the model does not
   * interpret (string conditions, numbers, operators other than 'and' and
   * 'or') are decided by `atom`; an empty condition holds for every row, as
   * the ORM drops it from the query.
   */
  predicate Holds(w: Where, row: Record, atom: (Where, Record) -> bool)
    decreases w
  {
    if !Truthy(w) then true
    else match w
      case Hash(pairs) =>
        forall i :: 0 <= i < |pairs| ==> pairs[i].0 in row && row[pairs[i].0] == pairs[i].1
      case Op(op, operands) =>
        if op == "and" then
          forall i :: 0 <= i < |operands| ==> Holds(operands[i], row, atom)
        else if op == "or" then
          (forall i :: 0 <= i < |operands| ==> !Truthy(operands[i]))
          || (exists i :: 0 <= i < |operands| && Truthy(operands[i]) && Holds(operands[i], row, atom))
        else atom(w, row)
      case _ => atom(w, row)
  }

  /** getWhere: ['and', where if non-empty, baseWhere if non-empty]. */
  function GetWhere(where: Where, baseWhere: Where): (c: Where)
    ensures c.Op? && c.op == "and"
    ensures |c.operands| == (if Truthy(where) then 1 else 0) + (if Truthy(baseWhere) then 1 else 0)
    ensures Truthy(where) ==> c.operands[0] == where
    ensures Truthy(baseWhere) ==> c.operands[|c.operands| - 1] == baseWhere
    ensures forall i :: 0 <= i < |c.operands| ==> c.operands[i] in {where, baseWhere} && Truthy(c.operands[i])
  {
    Op("and", (if Truthy(where) then [where] else []) + (if Truthy(baseWhere) then [baseWhere] else []))
  }

  /**
   * The composed condition selects exactly the rows both parts select:
   * intersection when both are present, the present part alone otherwise,
   * every row when neither is.
   */
  lemma GetWhereMeansBoth(where: Where, baseWhere: Where, row: Record, atom: (Where, Record) -> bool)
    ensures Holds(GetWhere(where, baseWhere), row, atom) <==> Holds(where, row, atom) && Holds(baseWhere, row, atom)
  {
    var c := GetWhere(where, baseWhere);
    if Truthy(where) && Truthy(baseWhere) {
      assert c.operands == [where, baseWhere];
    } else if Truthy(where) {
      assert c.operands == [where];
    } else if Truthy(baseWhere) {
      assert c.operands == [baseWhere];
    } else {
      assert c.operands == [];
    }
  }

  /** No caller condition can widen a query past the base condition. */
  lemma BaseWhereNeverBypassed(where: Where, baseWhere: Where, row: Record, atom: (Where, Record) -> bool)
    requires Holds(GetWhere(where, baseWhere), row, atom)
    ensures Holds(baseWhere, row, atom)
  {
    GetWhereMeansBoth(where, baseWhere, row, atom);
  }

  /** The numeric shortcut: a bare number stands for "primary key equals it". */
  function ResolveWhere(where: Where, pk: string): (w: Where)
    ensures !where.Number? ==> w == where
    ensures where.Number? ==> w.Hash? && w.pairs == [(pk, Int(where.n))]
  {
    if where.Number? then Hash([(pk, Int(where.n))]) else where
  }

  /** A numeric condition selects exactly the rows whose primary key is that number (zero included). */
  lemma NumericWhereIsPkLookup(n: int, pk: string, row: Record, atom: (Where, Record) -> bool)
    ensures Holds(ResolveWhere(Number(n), pk), row, atom) <==> pk in row && row[pk] == Int(n)
  {
    var w := ResolveWhere(Number(n), pk);
    assert Truthy(w);
    assert w.pairs[0] == (pk, Int(n));
  }

  /** The order clause getQuery uses: the caller's, or primary key descending when that is falsy. */
  function OrderOrDefault(order: string, pk: string): (o: string)
    ensures !Falsy(order) ==> o == order
    ensures Falsy(order) ==> o == pk + " DESC"
  {
    if Falsy(order) then PkDescending(pk) else order
  }

  /** getQuery's output shape: rows as arrays when the projection aliases a column (" as ", any case), else the instance flag. */
  function ArrayMode(fields: Fields, asArray: bool): (arrays: bool)
    ensures asArray ==> arrays
    ensures fields.FieldList? ==> arrays == asArray
    ensures fields.FieldText? && !asArray ==> (arrays <==> ContainsIgnoringCase(fields.text, " as "))
  {
    (fields.FieldText? && ContainsIgnoringCase(fields.text, " as ")) || asArray
  }

  lemma ArrayModeMeans(fields: Fields, asArray: bool)
    ensures ArrayMode(fields, asArray) <==>
      asArray || (fields.FieldText? && exists i :: OccursAt(Lower(fields.text), " as ", i))
  {
    if fields.FieldText? {
      ContainsIgnoringCaseMeans(fields.text, " as ");
      assert Lower(" as ") == " as ";
    }
  }

  /** The query getQuery builds from its arguments and the instance's state. */
  function ShapeQuery(where: Where, fields: Fields, order: string, pk: string, baseWhere: Where, asArray: bool): (q: QuerySpec)
    ensures q.select == fields
    ensures q.condition.Op? && q.condition.op == "and" && |q.condition.operands| <= 2
    ensures where.Number? ==> |q.condition.operands| >= 1 && q.condition.operands[0] == Hash([(pk, Int(where.n))])
    ensures !where.Number? && Truthy(where) ==> |q.condition.operands| >= 1 && q.condition.operands[0] == where
    ensures Truthy(baseWhere) ==> |q.condition.operands| >= 1 && q.condition.operands[|q.condition.operands| - 1] == baseWhere
    ensures !Falsy(order) ==> q.orderBy == order
    ensures Falsy(order) ==> q.orderBy == pk + " DESC"
    ensures asArray ==> q.asArray
  {
    QuerySpec(GetWhere(ResolveWhere(where, pk), baseWhere), fields, OrderOrDefault(order, pk), ArrayMode(fields, asArray))
  }

  /**
   * Every query getQuery builds selects exactly the rows that satisfy the
   * (resolved) caller condition and the base condition.
   */
  lemma ShapeQuerySelects(where: Where, fields: Fields, order: string, pk: string, baseWhere: Where, asArray: bool,
                          row: Record, atom: (Where, Record) -> bool)
    ensures var q := ShapeQuery(where, fields, order, pk, baseWhere, asArray);
      Holds(q.condition, row, atom) <==> Holds(ResolveWhere(where, pk), row, atom) && Holds(baseWhere, row, atom)
    ensures where.Number? ==>
      (Holds(ShapeQuery(where, fields, order, pk, baseWhere, asArray).condition, row, atom) <==>
       pk in row && row[pk] == Int(where.n) && Holds(baseWhere, row, atom))
  {
    GetWhereMeansBoth(ResolveWhere(where, pk), baseWhere, row, atom);
    if where.Number? {
      NumericWhereIsPkLookup(where.n, pk, row, atom);
    }
  }

  /** Resolving twice is resolving once (Dao::get resolves before getQuery does again). */
  lemma ResolveWhereIdempotent(where: Where, pk: string)
    ensures ResolveWhere(ResolveWhere(where, pk), pk) == ResolveWhere(where, pk)
  {
  }

  /** A DSN segment names the database when it contains "dbname" in any case. */
  predicate NamesDb(segment: string) {
    ContainsIgnoringCase(segment, "dbname")
  }

  /** substr($item, strpos($item, '=') + 1): without '=', strpos is false and false + 1 is 1. */
  function AfterEquals(item: string): (r: string)
    ensures |r| <= |item| && r == item[|item| - |r|..]
    ensures |item| >= 1 ==> |r| < |item|
    ensures forall p :: 0 <= p < |item| && item[p] == '=' && (forall q :: 0 <= q < p ==> item[q] != '=') ==> r == item[p + 1..]
    ensures |item| >= 1 && (forall p :: 0 <= p < |item| ==> item[p] != '=') ==> r == item[1..]
  {
    assert forall p :: 0 <= p < |item| ==> (OccursAt(item, "=", p) <==> item[p] == '=') by {
      forall p | 0 <= p < |item| ensures OccursAt(item, "=", p) <==> item[p] == '=' {
        assert |item[p..p + 1]| == 1 && item[p..p + 1][0] == item[p];
      }
    }
    match IndexOf(item, "=")
    case Some(p) => item[p + 1..]
    case None => if |item| >= 1 then item[1..] else ""
  }

  function DbNameIn(segments: seq<string>): (r: string)
    ensures r != "" ==> exists j :: 0 <= j < |segments| && NamesDb(segments[j]) && r == AfterEquals(segments[j])
  {
    if segments == [] then ""
    else if NamesDb(segments[0]) then AfterEquals(segments[0])
    else DbNameIn(segments[1..])
  }

  /** getDbName: the database name written in the DSN. */
  function DbName(dsn: string): (name: string)
    ensures ';' !in name
  {
    var segments := Split(dsn, ';');
    var name := DbNameIn(segments);
    assert ';' !in name by {
      if name != "" {
        var j :| 0 <= j < |segments| && NamesDb(segments[j]) && name == AfterEquals(segments[j]);
        assert name == segments[j][|segments[j]| - |name|..];
      }
    }
    name
  }

  lemma {:induction false} DbNameInMeans(segments: seq<string>)
    ensures (forall j :: 0 <= j < |segments| ==> !NamesDb(segments[j])) ==> DbNameIn(segments) == ""
    ensures forall j ::
              0 <= j < |segments| && NamesDb(segments[j]) && (forall i :: 0 <= i < j ==> !NamesDb(segments[i]))
              ==> DbNameIn(segments) == AfterEquals(segments[j])
  {
    if segments != [] {
      DbNameInMeans(segments[1..]);
      if !NamesDb(segments[0]) {
        forall j | 0 < j < |segments| && NamesDb(segments[j]) && (forall i :: 0 <= i < j ==> !NamesDb(segments[i]))
          ensures DbNameIn(segments) == AfterEquals(segments[j])
        {
          assert segments[1..][j - 1] == segments[j];
          forall i | 0 <= i < j - 1 ensures !NamesDb(segments[1..][i]) {
            assert segments[1..][i] == segments[i + 1];
          }
        }
      }
    }
  }

  /**
   * getDbName returns the text after the first '=' of the first ';'-separated
   * segment that mentions "dbname" (any case), and '' when none does.
   */
  lemma DbNameMeans(dsn: string, j: nat)
    ensures var segs := Split(dsn, ';');
      (forall k :: 0 <= k < |segs| ==> !NamesDb(segs[k])) ==> DbName(dsn) == ""
    ensures var segs := Split(dsn, ';');
      j < |segs| && NamesDb(segs[j]) && (forall i :: 0 <= i < j ==> !NamesDb(segs[i]))
      ==> DbName(dsn) == AfterEquals(segs[j])
  {
    DbNameInMeans(Split(dsn, ';'));
  }

  /** getLastSql: the most recent entry of the SQL log, '' when it is empty. */
  function LastSql(log: seq<string>): (r: string)
    ensures log == [] ==> r == ""
    ensures log != [] ==> r == log[|log| - 1]
  {
    if log == [] then "" else log[|log| - 1]
  }

  /** After setSql(s), getLastSql returns s, whatever was logged before. */
  lemma LastSqlAfterAppend(log: seq<string>, s: string)
    ensures LastSql(log + [s]) == s
  {
  }
}
