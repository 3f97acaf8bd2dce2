/**
 * The batch mutation coordinators (addAll, updateAll, batchInsert) stated as
 * functions of the ORM's answers: which items are attempted, whether the
 * transaction commits or rolls back, what is returned and what is logged.
 * The Dao and Service classes run these as loops and are proved to end in
 * exactly the state these functions describe. Also here: array_chunk and the
 * column/row assembly of _batchInsert.
 */
module Batch {
  import opened Orm

  /** The index of the first element satisfying p; |s| when there is none. */
  function FirstWhere<T>(s: seq<T>, p: T -> bool): (k: nat)
    ensures k <= |s|
    ensures forall j :: 0 <= j < k ==> !p(s[j])
    ensures k < |s| ==> p(s[k])
  {
    if s == [] then 0
    else if p(s[0]) then 0
    else 1 + FirstWhere(s[1..], p)
  }

  /** A scan that has not yet reached the first match moves past an element that does not match. */
  lemma FirstWhereStep<T>(s: seq<T>, p: T -> bool, k: nat)
    requires k <= FirstWhere(s, p) && k < |s| && !p(s[k])
    ensures k + 1 <= FirstWhere(s, p)
  {
  }

  /** A scan that has not yet passed the first match stops at the first element that matches. */
  lemma FirstWhereHit<T>(s: seq<T>, p: T -> bool, k: nat)
    requires k <= FirstWhere(s, p) && k < |s| && p(s[k])
    ensures FirstWhere(s, p) == k
  {
  }

  /** How one coordinator call ends: its result, how many items it attempted, its transaction events and its new log entries. */
  datatype Run<T> = Run(result: T, attempted: nat, tx: seq<TxEvent>, logged: seq<LoggedError>)

  // ---------------------------------------------------------------- add / addAll

  /** add: the primary-key value for a saved record; 0 and one logged entry for a rejected one; an exception passes through. */
  function AddReply(save: SaveOutcome): (r: (Completion<int>, seq<LoggedError>))
    ensures save.Saved? <==> r.0.Returned? && r.1 == []
    ensures save.Saved? ==> r.0 == Returned(save.pkValue)
    ensures save.Rejected? <==> r.0 == Returned(0) && |r.1| == 1
    ensures save.Threw? <==> r.0.Raised?
  {
    match save
    case Saved(id) => (Returned(id), [])
    case Rejected(errors) => (Returned(0), [ModelErrors(errors)])
    case Threw(message) => (Raised(message), [])
  }

  /** addAll stops at an item whose add returns 0 (falsy) or raises. */
  predicate AddFails(save: SaveOutcome) {
    !(save.Saved? && save.pkValue != 0)
  }

  /** The ids addAll has collected from its first k items, all of them saved. */
  function CollectedIds(keys: seq<Key>, saves: seq<SaveOutcome>, k: nat): seq<(Key, int)>
    requires k <= |keys| && |keys| == |saves|
    requires forall j :: 0 <= j < k ==> !AddFails(saves[j])
  {
    seq(k, j requires 0 <= j < k => assert !AddFails(saves[j]); (keys[j], saves[j].pkValue))
  }

  lemma CollectedIdsSnoc(keys: seq<Key>, saves: seq<SaveOutcome>, k: nat)
    requires k < |keys| && |keys| == |saves|
    requires forall j :: 0 <= j <= k ==> !AddFails(saves[j])
    ensures CollectedIds(keys, saves, k + 1) == CollectedIds(keys, saves, k) + [(keys[k], saves[k].pkValue)]
  {
  }

  /**
   * addAll, given the items' keys and the ORM's answer to each save: ids of
   * the items before the first failure, in input order; commit when there is
   * no failure, roll back otherwise; at most one new log entry.
   */
  function AddAllSpec(keys: seq<Key>, saves: seq<SaveOutcome>): (r: Run<seq<(Key, int)>>)
    requires |keys| == |saves|
    ensures r.tx == [Begin, Commit] <==> forall j :: 0 <= j < |saves| ==> !AddFails(saves[j])
    ensures r.tx == [Begin, Commit] || r.tx == [Begin, RollBack]
    ensures |r.result| <= |keys| && r.attempted <= |keys|
    ensures forall j :: 0 <= j < |r.result| ==> !AddFails(saves[j]) && r.result[j] == (keys[j], saves[j].pkValue)
    ensures |r.logged| <= 1
  {
    var k := FirstWhere(saves, AddFails);
    var ids := CollectedIds(keys, saves, k);
    if k == |saves| then Run(ids, k, [Begin, Commit], [])
    else
      var logged := match saves[k]
        case Saved(_) => []
        case Rejected(errors) => [ModelErrors(errors)]
        case Threw(message) => [ExceptionMessage(message)];
      Run(ids, k + 1, [Begin, RollBack], logged)
  }

  /** When every add returns a non-zero id, addAll commits and maps every key, in input order, to its id. */
  lemma AddAllAllSaved(keys: seq<Key>, saves: seq<SaveOutcome>)
    requires |keys| == |saves|
    requires forall j :: 0 <= j < |saves| ==> !AddFails(saves[j])
    ensures var r := AddAllSpec(keys, saves);
      && r.tx == [Begin, Commit]
      && r.logged == []
      && r.attempted == |keys|
      && |r.result| == |keys|
      && forall j :: 0 <= j < |keys| ==> r.result[j] == (keys[j], saves[j].pkValue)
  {
  }

  /**
   * When the first failing add is at k, addAll rolls back, returns the ids of
   * the keys before k, never attempts an item after k, and logs one entry
   * unless add itself returned 0 for a saved record.
   */
  lemma AddAllStopsAtFirstFailure(keys: seq<Key>, saves: seq<SaveOutcome>, k: nat)
    requires |keys| == |saves| && k < |saves|
    requires AddFails(saves[k]) && forall j :: 0 <= j < k ==> !AddFails(saves[j])
    ensures var r := AddAllSpec(keys, saves);
      && r.tx == [Begin, RollBack]
      && r.attempted == k + 1
      && |r.result| == k
      && (forall j :: 0 <= j < k ==> r.result[j] == (keys[j], saves[j].pkValue))
      && |r.logged| == (if saves[k].Saved? then 0 else 1)
      && (saves[k].Threw? ==> r.logged == [ExceptionMessage(saves[k].message)])
      && (saves[k].Rejected? ==> r.logged == [ModelErrors(saves[k].errors)])
  {
    assert FirstWhere(saves, AddFails) == k;
  }

  /** addAll's run when the first failing add is at k (k == |saves| when there is none). */
  lemma AddAllRun(keys: seq<Key>, saves: seq<SaveOutcome>, k: nat)
    requires |keys| == |saves| && k == FirstWhere(saves, AddFails)
    ensures k == |saves| ==> AddAllSpec(keys, saves) == Run(CollectedIds(keys, saves, k), k, [Begin, Commit], [])
    ensures k < |saves| && saves[k].Saved? ==>
      AddAllSpec(keys, saves) == Run(CollectedIds(keys, saves, k), k + 1, [Begin, RollBack], [])
    ensures k < |saves| && saves[k].Rejected? ==>
      AddAllSpec(keys, saves) == Run(CollectedIds(keys, saves, k), k + 1, [Begin, RollBack], [ModelErrors(saves[k].errors)])
    ensures k < |saves| && saves[k].Threw? ==>
      AddAllSpec(keys, saves) == Run(CollectedIds(keys, saves, k), k + 1, [Begin, RollBack], [ExceptionMessage(saves[k].message)])
  {
  }

  // ---------------------------------------------------------------- update / delete

  /**
   * update, given the matched model (None when one() finds nothing) and the
   * answer of its save: true when saved; false with the model's errors logged
   * when rejected; false and nothing logged when nothing matched; an
   * exception from save escapes.
   */
  function UpdateReply(found: Option<SaveOutcome>): (r: (Completion<bool>, seq<LoggedError>))
    ensures r.0 == Returned(true) <==> found.Some? && found.value.Saved?
    ensures r.0.Raised? <==> found.Some? && found.value.Threw?
    ensures r.1 != [] <==> found.Some? && found.value.Rejected?
    ensures found.Some? && found.value.Rejected? ==> r == (Returned(false), [ModelErrors(found.value.errors)])
    ensures found.None? ==> r == (Returned(false), [])
  {
    match found
    case None => (Returned(false), [])
    case Some(Saved(_)) => (Returned(true), [])
    case Some(Rejected(errors)) => (Returned(false), [ModelErrors(errors)])
    case Some(Threw(message)) => (Raised(message), [])
  }

  /** How a caught exception is logged: Dao logs its message, Service the exception object. */
  datatype ExceptionStyle = AsMessage | AsObject

  function CaughtException(style: ExceptionStyle, message: string): LoggedError {
    if style == AsMessage then ExceptionMessage(message) else ExceptionObject(message)
  }

  /**
   * delete, given the matched model and the answer of its delete(): true when
   * it removed rows; otherwise false, with the model's errors logged for a
   * veto or a count of 0 (a model nothing rejected has no errors), the caught
   * exception logged for a throw, and nothing logged when nothing matched.
   */
  function DeleteReply(found: Option<DeleteOutcome>, style: ExceptionStyle): (r: (bool, seq<LoggedError>))
    ensures r.0 <==> found.Some? && found.value.Deleted? && found.value.rows > 0
    ensures r.0 ==> r.1 == []
    ensures found.None? ==> r.1 == []
    ensures found.Some? && !r.0 ==> |r.1| == 1
    ensures found.Some? && found.value.Vetoed? ==> r.1 == [ModelErrors(found.value.errors)]
    ensures found.Some? && found.value.DeleteThrew? ==> r.1 == [CaughtException(style, found.value.message)]
  {
    match found
    case None => (false, [])
    case Some(Deleted(rows)) => if rows != 0 then (true, []) else (false, [ModelErrors([])])
    case Some(Vetoed(errors)) => (false, [ModelErrors(errors)])
    case Some(DeleteThrew(message)) => (false, [CaughtException(style, message)])
  }

  /**
   * Given the same matched model and the same answer from delete(), Dao::delete
   * and Service::delete return the same and log the same, except for the form
   * of a caught exception. (Their queries differ, so they need not match the
   * same model.)
   */
  lemma DeleteStylesAgree(found: Option<DeleteOutcome>)
    ensures DeleteReply(found, AsMessage).0 == DeleteReply(found, AsObject).0
    ensures !(found.Some? && found.value.DeleteThrew?) ==> DeleteReply(found, AsMessage) == DeleteReply(found, AsObject)
    ensures found.Some? && found.value.DeleteThrew? ==>
      && DeleteReply(found, AsMessage).1 == [ExceptionMessage(found.value.message)]
      && DeleteReply(found, AsObject).1 == [ExceptionObject(found.value.message)]
  {
  }

  // ---------------------------------------------------------------- updateAll

  /** The log entry Dao::updateAll writes for a failed save. */
  function DaoSaveFailure(save: SaveOutcome): LoggedError
    requires !save.Saved?
  {
    match save
    case Rejected(errors) => ModelErrors(errors)
    case Threw(message) => ExceptionMessage(message)
  }

  predicate SaveFails(save: SaveOutcome) {
    !save.Saved?
  }

  /**
   * Dao::updateAll once the query has returned its models (saves[i] is the
   * answer of the i-th model's save): false with no transaction when nothing
   * matched; otherwise commit and true when every save succeeds, else roll
   * back at the first failure, log it and return false.
   */
  function DaoUpdateAllSpec(saves: seq<SaveOutcome>): (r: Run<bool>)
    ensures r.result <==> |saves| > 0 && forall j :: 0 <= j < |saves| ==> saves[j].Saved?
    ensures saves == [] ==> r.tx == [] && r.logged == [] && r.attempted == 0
    ensures r.result ==> r.tx == [Begin, Commit] && r.logged == [] && r.attempted == |saves|
    ensures saves != [] && !r.result ==> r.tx == [Begin, RollBack] && |r.logged| == 1
    ensures r.attempted <= |saves|
  {
    if saves == [] then Run(false, 0, [], [])
    else
      var k := FirstWhere(saves, SaveFails);
      if k == |saves| then Run(true, k, [Begin, Commit], [])
      else Run(false, k + 1, [Begin, RollBack], [DaoSaveFailure(saves[k])])
  }

  /**
   * Service::updateAll: as Dao::updateAll, except that an exception is logged
   * as the exception object and no rollback is issued for it.
   */
  function ServiceUpdateAllSpec(saves: seq<SaveOutcome>): (r: Run<bool>)
    ensures r.result <==> |saves| > 0 && forall j :: 0 <= j < |saves| ==> saves[j].Saved?
    ensures saves == [] ==> r.tx == [] && r.logged == [] && r.attempted == 0
    ensures r.result ==> r.tx == [Begin, Commit] && r.logged == [] && r.attempted == |saves|
    ensures saves != [] && !r.result ==> |r.logged| == 1
    ensures r.attempted <= |saves|
  {
    if saves == [] then Run(false, 0, [], [])
    else
      var k := FirstWhere(saves, SaveFails);
      if k == |saves| then Run(true, k, [Begin, Commit], [])
      else match saves[k]
        case Rejected(errors) => Run(false, k + 1, [Begin, RollBack], [ModelErrors(errors)])
        case Threw(message) => Run(false, k + 1, [Begin], [ExceptionObject(message)])
  }

  /**
   * The first failing save at k is the last one attempted. The two variants
   * agree unless that save throws; then Dao::updateAll rolls back and logs the
   * message, while Service::updateAll leaves the transaction open and logs the
   * exception object.
   */
  lemma UpdateAllVariants(saves: seq<SaveOutcome>, k: nat)
    requires k < |saves| && !saves[k].Saved? && forall j :: 0 <= j < k ==> saves[j].Saved?
    ensures DaoUpdateAllSpec(saves).attempted == k + 1 == ServiceUpdateAllSpec(saves).attempted
    ensures saves[k].Rejected? ==> DaoUpdateAllSpec(saves) == ServiceUpdateAllSpec(saves)
    ensures saves[k].Threw? ==>
      && DaoUpdateAllSpec(saves).tx == [Begin, RollBack]
      && DaoUpdateAllSpec(saves).logged == [ExceptionMessage(saves[k].message)]
      && ServiceUpdateAllSpec(saves).tx == [Begin]
      && ServiceUpdateAllSpec(saves).logged == [ExceptionObject(saves[k].message)]
  {
    assert FirstWhere(saves, SaveFails) == k;
  }

  /** Dao::updateAll's run when the first failing save is at k. */
  lemma DaoUpdateAllFailsAt(saves: seq<SaveOutcome>, k: nat)
    requires k < |saves| && !saves[k].Saved? && forall j :: 0 <= j < k ==> saves[j].Saved?
    ensures DaoUpdateAllSpec(saves) == Run(false, k + 1, [Begin, RollBack], [DaoSaveFailure(saves[k])])
  {
    assert FirstWhere(saves, SaveFails) == k;
  }

  /** Dao::updateAll's run when every save succeeds. */
  lemma DaoUpdateAllSucceeds(saves: seq<SaveOutcome>)
    requires saves != [] && forall j :: 0 <= j < |saves| ==> saves[j].Saved?
    ensures DaoUpdateAllSpec(saves) == Run(true, |saves|, [Begin, Commit], [])
  {
    assert FirstWhere(saves, SaveFails) == |saves|;
  }

  /** Service::updateAll's run when the first failing save is at k. */
  lemma ServiceUpdateAllFailsAt(saves: seq<SaveOutcome>, k: nat)
    requires k < |saves| && !saves[k].Saved? && forall j :: 0 <= j < k ==> saves[j].Saved?
    ensures saves[k].Rejected? ==> ServiceUpdateAllSpec(saves) == Run(false, k + 1, [Begin, RollBack], [ModelErrors(saves[k].errors)])
    ensures saves[k].Threw? ==> ServiceUpdateAllSpec(saves) == Run(false, k + 1, [Begin], [ExceptionObject(saves[k].message)])
  {
    assert FirstWhere(saves, SaveFails) == k;
  }

  /** Service::updateAll's run when every save succeeds. */
  lemma ServiceUpdateAllSucceeds(saves: seq<SaveOutcome>)
    requires saves != [] && forall j :: 0 <= j < |saves| ==> saves[j].Saved?
    ensures ServiceUpdateAllSpec(saves) == Run(true, |saves|, [Begin, Commit], [])
  {
    assert FirstWhere(saves, SaveFails) == |saves|;
  }

  // ---------------------------------------------------------------- batchInsert

  /** The rows per INSERT statement of batchInsert. */
  const ChunkSize: nat := 1000

  function Flatten<T>(cs: seq<seq<T>>): seq<T> {
    if cs == [] then [] else cs[0] + Flatten(cs[1..])
  }

  /** array_chunk(s, n): consecutive pieces of s, all of n elements but the last, which is not empty. */
  function Chunks<T>(s: seq<T>, n: nat): (cs: seq<seq<T>>)
    requires n > 0
    ensures forall i :: 0 <= i < |cs| ==> 0 < |cs[i]| <= n
    ensures forall i :: 0 <= i < |cs| - 1 ==> |cs[i]| == n
    decreases |s|
  {
    if |s| == 0 then []
    else if |s| <= n then [s]
    else [s[..n]] + Chunks(s[n..], n)
  }

  /** The chunks, concatenated, are the input: nothing is lost, duplicated or reordered. */
  lemma {:induction false} ChunksFlatten<T>(s: seq<T>, n: nat)
    requires n > 0
    ensures Flatten(Chunks(s, n)) == s
    decreases |s|
  {
    if |s| > n {
      var cs := Chunks(s, n);
      ChunksFlatten(s[n..], n);
      assert cs[1..] == Chunks(s[n..], n);
      assert s == s[..n] + s[n..];
    } else if |s| > 0 {
      assert Flatten([s]) == s + Flatten([s][1..]);
    }
  }

  /** There are as few chunks as can hold the input: ceil(|s| / n). */
  lemma {:induction false} ChunkCount<T>(s: seq<T>, n: nat)
    requires n > 0
    ensures |Chunks(s, n)| * n >= |s|
    ensures |Chunks(s, n)| > 0 ==> (|Chunks(s, n)| - 1) * n < |s|
    decreases |s|
  {
    if |s| > n {
      var m := |Chunks(s[n..], n)|;
      ChunkCount(s[n..], n);
      assert |Chunks(s, n)| == m + 1;
      assert (m + 1) * n == m * n + n;
    }
  }

  /** 2500 rows go out as exactly three INSERT statements. */
  lemma ThreeChunksFor2500Rows<T>(s: seq<T>)
    requires |s| == 2500
    ensures |Chunks(s, ChunkSize)| == 3
  {
    ChunkCount(s, ChunkSize);
    var c := |Chunks(s, ChunkSize)|;
    assert c * 1000 >= 2500;
    assert (c - 1) * 1000 < 2500;
  }

  /** A chunk of execute() answers fails when it inserts nothing (0 is falsy) or throws. */
  predicate ChunkFails(o: ExecOutcome) {
    !(o.Executed? && o.count != 0)
  }

  /** The rows reported by the first n chunks, counting those that executed. */
  function Inserted(outcomes: seq<ExecOutcome>, n: nat): nat
    requires n <= |outcomes|
  {
    if n == 0 then 0
    else Inserted(outcomes, n - 1) + (if outcomes[n - 1].Executed? then outcomes[n - 1].count else 0)
  }

  /** Chunks that each insert rows report at least one row apiece. */
  lemma {:induction false} InsertedAtLeastChunks(outcomes: seq<ExecOutcome>, n: nat)
    requires n <= |outcomes|
    requires forall j :: 0 <= j < n ==> !ChunkFails(outcomes[j])
    ensures Inserted(outcomes, n) >= n
  {
    if n > 0 {
      InsertedAtLeastChunks(outcomes, n - 1);
    }
  }

  /**
   * batchInsert, given the outcome of each chunk's INSERT: commit and the sum
   * of the counts when every chunk inserts rows; roll back and 0 when a chunk
   * inserts none; roll back, log the message and return the count of the
   * earlier chunks when a chunk throws.
   */
  function BatchInsertSpec(outcomes: seq<ExecOutcome>): (r: Run<int>)
    ensures r.tx == [Begin, Commit] <==> forall j :: 0 <= j < |outcomes| ==> !ChunkFails(outcomes[j])
    ensures r.tx == [Begin, Commit] || r.tx == [Begin, RollBack]
    ensures r.tx == [Begin, Commit] ==> r.result == Inserted(outcomes, |outcomes|) && r.attempted == |outcomes| && r.logged == []
    ensures r.attempted <= |outcomes| && |r.logged| <= 1 && r.result >= 0
  {
    var k := FirstWhere(outcomes, ChunkFails);
    if k == |outcomes| then Run(Inserted(outcomes, |outcomes|), k, [Begin, Commit], [])
    else match outcomes[k]
      case Executed(_) => Run(0, k + 1, [Begin, RollBack], [])
      case ExecThrew(message) => Run(Inserted(outcomes, k), k + 1, [Begin, RollBack], [ExceptionMessage(message)])
  }

  /** batchInsert's run when every chunk inserts rows. */
  lemma BatchInsertSucceeds(outcomes: seq<ExecOutcome>)
    requires forall j :: 0 <= j < |outcomes| ==> !ChunkFails(outcomes[j])
    ensures BatchInsertSpec(outcomes) == Run(Inserted(outcomes, |outcomes|), |outcomes|, [Begin, Commit], [])
  {
    assert FirstWhere(outcomes, ChunkFails) == |outcomes|;
  }

  /**
   * batchInsert's run when the first failing chunk is at k: the failing chunk
   * is the last one attempted, and no chunk failure ever commits.
   */
  lemma BatchInsertFailsAt(outcomes: seq<ExecOutcome>, k: nat)
    requires k < |outcomes| && ChunkFails(outcomes[k]) && forall j :: 0 <= j < k ==> !ChunkFails(outcomes[j])
    ensures outcomes[k].Executed? ==> BatchInsertSpec(outcomes) == Run(0, k + 1, [Begin, RollBack], [])
    ensures outcomes[k].ExecThrew? ==>
      BatchInsertSpec(outcomes) == Run(Inserted(outcomes, k), k + 1, [Begin, RollBack], [ExceptionMessage(outcomes[k].message)])
  {
    assert FirstWhere(outcomes, ChunkFails) == k;
  }

  /**
   * A throw after k > 0 chunks have inserted rows rolls the whole batch back,
   * yet batchInsert still returns a positive count: at least k rows that the
   * rollback undid.
   */
  lemma ThrowReportsUndoneRows(outcomes: seq<ExecOutcome>, k: nat)
    requires 0 < k < |outcomes| && outcomes[k].ExecThrew?
    requires forall j :: 0 <= j < k ==> !ChunkFails(outcomes[j])
    ensures BatchInsertSpec(outcomes).tx == [Begin, RollBack]
    ensures BatchInsertSpec(outcomes).result == Inserted(outcomes, k) >= k > 0
  {
    BatchInsertFailsAt(outcomes, k);
    InsertedAtLeastChunks(outcomes, k);
  }

  // ---------------------------------------------------------------- _batchInsert rows

  /** ArrayHelper::filter($item, $attributes) keys: the attributes the item has, in attribute order. */
  function PresentAttributes(item: Record, attrs: seq<string>): (cols: seq<string>)
    ensures |cols| <= |attrs|
    ensures forall p :: 0 <= p < |cols| ==> cols[p] in item
  {
    if attrs == [] then []
    else (if attrs[0] in item then [attrs[0]] else []) + PresentAttributes(item, attrs[1..])
  }

  /**
   * Where each filtered key sits in the attribute list (see
   * AttributeIndexAt).
   */
  function AttributeIndices(item: Record, attrs: seq<string>): (ix: seq<nat>)
    ensures |ix| == |PresentAttributes(item, attrs)|
    ensures forall p :: 0 <= p < |ix| ==> ix[p] < |attrs|
  {
    if attrs == [] then []
    else
      var r := AttributeIndices(item, attrs[1..]);
      if attrs[0] in item then [0] + ShiftIndices(r) else ShiftIndices(r)
  }

  /** Each index one further on, as when a list loses its head. */
  function ShiftIndices(r: seq<nat>): (s: seq<nat>)
    ensures |s| == |r|
    ensures forall p :: 0 <= p < |r| ==> s[p] == r[p] + 1
  {
    if r == [] then [] else [r[0] + 1] + ShiftIndices(r[1..])
  }

  /**
   * The filtered keys are a subsequence of the attributes: filtered key p is
   * the attribute at index p of AttributeIndices (and, by
   * AttributeIndicesIncrease, those indices keep attribute order).
   */
  lemma {:induction false} AttributeIndexAt(item: Record, attrs: seq<string>, p: nat)
    requires p < |AttributeIndices(item, attrs)|
    ensures PresentAttributes(item, attrs)[p] == attrs[AttributeIndices(item, attrs)[p]]
    decreases |attrs|
  {
    var tail := attrs[1..];
    var r := AttributeIndices(item, tail);
    var k := if attrs[0] in item then 1 else 0;
    if p >= k {
      AttributeIndexAt(item, tail, p - k);
      assert AttributeIndices(item, attrs)[p] == ShiftIndices(r)[p - k] == r[p - k] + 1;
      assert PresentAttributes(item, attrs)[p] == PresentAttributes(item, tail)[p - k];
    }
  }

  /**
   * The attribute indices of the filtered keys strictly increase: the keys
   * keep attribute order whatever order the item's own keys are in.
   */
  lemma {:induction false} AttributeIndicesIncrease(item: Record, attrs: seq<string>)
    ensures forall p, q :: 0 <= p < q < |AttributeIndices(item, attrs)| ==>
      AttributeIndices(item, attrs)[p] < AttributeIndices(item, attrs)[q]
  {
    if attrs != [] {
      AttributeIndicesIncrease(item, attrs[1..]);
      var r := AttributeIndices(item, attrs[1..]);
      var ix := AttributeIndices(item, attrs);
      if attrs[0] in item {
        assert ix == [0] + ShiftIndices(r);
        forall p, q | 0 <= p < q < |ix|
          ensures ix[p] < ix[q]
        {
          assert ix[q] == r[q - 1] + 1;
          if p > 0 { assert ix[p] == r[p - 1] + 1; }
        }
      } else {
        assert ix == ShiftIndices(r);
      }
    }
  }

  /** The filter keeps exactly the attributes the item has. */
  lemma {:induction false} PresentAttributesMeans(item: Record, attrs: seq<string>, a: string)
    ensures a in PresentAttributes(item, attrs) <==> a in attrs && a in item
  {
    if attrs != [] {
      PresentAttributesMeans(item, attrs[1..], a);
      assert attrs == [attrs[0]] + attrs[1..];
    }
  }

  /** array_values of the filtered item. */
  function ValuesFor(item: Record, cols: seq<string>): (vs: seq<Value>)
    requires forall p :: 0 <= p < |cols| ==> cols[p] in item
    ensures |vs| == |cols|
  {
    seq(|cols|, p requires 0 <= p < |cols| => item[cols[p]])
  }

  /** An item that has every attribute keeps them all, in attribute order. */
  lemma {:induction false} PresentAttributesAll(item: Record, attrs: seq<string>)
    requires forall a :: a in attrs ==> a in item
    ensures PresentAttributes(item, attrs) == attrs
  {
    if attrs != [] {
      PresentAttributesAll(item, attrs[1..]);
    }
  }

  /**
   * The positional row _batchInsert emits for one item: no wider than the
   * attribute list, and for an item that has every attribute, its values in
   * attribute order.
   */
  function RowFor(item: Record, attrs: seq<string>): (row: seq<Value>)
    ensures |row| <= |attrs|
    ensures (forall a :: a in attrs ==> a in item) ==>
      |row| == |attrs| && forall p :: 0 <= p < |attrs| ==> row[p] == item[attrs[p]]
  {
    var cols := PresentAttributes(item, attrs);
    assert (forall a :: a in attrs ==> a in item) ==> cols == attrs by {
      if forall a :: a in attrs ==> a in item {
        PresentAttributesAll(item, attrs);
      }
    }
    ValuesFor(item, cols)
  }

  /** The positional rows _batchInsert emits for a chunk: one per item, in order, none wider than the attribute list. */
  function BatchRows(chunk: seq<Record>, attrs: seq<string>): (rows: seq<seq<Value>>)
    ensures |rows| == |chunk|
    ensures forall i :: 0 <= i < |chunk| ==> |rows[i]| <= |attrs|
  {
    seq(|chunk|, i requires 0 <= i < |chunk| => RowFor(chunk[i], attrs))
  }

  /** The column list _batchInsert sends: the keys of the first item that keeps any attribute after filtering. */
  function BatchColumns(chunk: seq<Record>, attrs: seq<string>): (cols: seq<string>)
    ensures forall a :: a in cols ==> a in attrs
  {
    var k := FirstWhere(chunk, item => PresentAttributes(item, attrs) != []);
    if k < |chunk| then
      var cols := PresentAttributes(chunk[k], attrs);
      assert forall a :: a in cols ==> a in attrs by {
        forall a | a in cols ensures a in attrs {
          PresentAttributesMeans(chunk[k], attrs, a);
        }
      }
      cols
    else []
  }

  /**
   * The loop of _batchInsert: filter each item to the model's attributes,
   * take the column list from the first item that keeps any, and emit one
   * positional row per item, in order.
   */
  method AssembleRows(chunk: seq<Record>, attrs: seq<string>) returns (columns: seq<string>, rows: seq<seq<Value>>)
    ensures columns == BatchColumns(chunk, attrs)
    ensures |rows| == |chunk|
    ensures forall i :: 0 <= i < |chunk| ==> rows[i] == RowFor(chunk[i], attrs)
  {
    ghost var k := FirstWhere(chunk, item => PresentAttributes(item, attrs) != []);
    columns := [];
    rows := [];
    for i := 0 to |chunk|
      invariant i <= k ==> columns == []
      invariant i > k ==> columns == PresentAttributes(chunk[k], attrs)
      invariant |rows| == i
      invariant forall j :: 0 <= j < i ==> rows[j] == RowFor(chunk[j], attrs)
    {
      var present := PresentAttributes(chunk[i], attrs);
      if columns == [] {
        columns := present;
      }
      rows := rows + [ValuesFor(chunk[i], present)];
    }
  }

  /** The filtered keys depend only on which attributes an item has. */
  lemma {:induction false} PresentAttributesBySupport(a: Record, b: Record, attrs: seq<string>)
    requires forall x :: x in attrs ==> (x in a <==> x in b)
    ensures PresentAttributes(a, attrs) == PresentAttributes(b, attrs)
  {
    if attrs != [] {
      PresentAttributesBySupport(a, b, attrs[1..]);
    }
  }

  /**
   * When every item has the same attributes, every emitted row lines up with
   * the column list: the value at position p is the item's value for column p.
   */
  lemma RowsAlignWithColumns(chunk: seq<Record>, attrs: seq<string>, i: nat, p: nat)
    requires 0 <= i < |chunk|
    requires forall j, x :: 0 <= j < |chunk| && x in attrs ==> (x in chunk[j] <==> x in chunk[0])
    requires p < |BatchColumns(chunk, attrs)|
    ensures BatchColumns(chunk, attrs)[p] in chunk[i]
    ensures |RowFor(chunk[i], attrs)| == |BatchColumns(chunk, attrs)|
    ensures RowFor(chunk[i], attrs)[p] == chunk[i][BatchColumns(chunk, attrs)[p]]
  {
    var k := FirstWhere(chunk, item => PresentAttributes(item, attrs) != []);
    assert k < |chunk|;
    PresentAttributesBySupport(chunk[i], chunk[0], attrs);
    PresentAttributesBySupport(chunk[k], chunk[0], attrs);
  }

  /**
   * Without that, rows of the right length can still hold the wrong values:
   * the column list comes from the first item, so a later item with a
   * different attribute puts that attribute's value under another column.
   * Here the second item's value for "c" lands under column "b", which that
   * item does not have.
   */
  lemma RowsMisalignWhenKeysDiffer()
    ensures var chunk := [map["a" := Int(1), "b" := Int(2)], map["a" := Int(3), "c" := Int(4)]];
      && BatchColumns(chunk, ["a", "b", "c"]) == ["a", "b"]
      && RowFor(chunk[1], ["a", "b", "c"]) == [Int(3), Int(4)]
      && "b" !in chunk[1] && chunk[1]["c"] == Int(4)
  {
    var chunk := [map["a" := Int(1), "b" := Int(2)], map["a" := Int(3), "c" := Int(4)]];
    var attrs := ["a", "b", "c"];
    assert PresentAttributes(chunk[0], attrs) == ["a", "b"];
    assert PresentAttributes(chunk[1], attrs) == ["a", "c"];
    assert FirstWhere(chunk, item => PresentAttributes(item, attrs) != []) == 0;
  }

  // ---------------------------------------------------------------- what the coordinators send

  function KeysOf(data: seq<(Key, Record)>): seq<Key> {
    seq(|data|, i requires 0 <= i < |data| => data[i].0)
  }

  /** The saves addAll issues for the first n items, in order. */
  function Inserts(data: seq<(Key, Record)>, n: nat): seq<OrmCall>
    requires n <= |data|
  {
    seq(n, i requires 0 <= i < n => SaveNew(data[i].1))
  }

  /** The saves updateAll issues for the first n matched models. */
  function Patches(patch: Record, n: nat): seq<OrmCall> {
    seq(n, i requires 0 <= i < n => SaveMatched(i, patch))
  }

  function Outcomes(replies: seq<ChunkReply>): seq<ExecOutcome> {
    seq(|replies|, i requires 0 <= i < |replies| => replies[i].outcome)
  }

  /** The SQL texts of the first n chunks. */
  function SqlTexts(replies: seq<ChunkReply>, n: nat): seq<string>
    requires n <= |replies|
  {
    seq(n, i requires 0 <= i < n => replies[i].rawSql)
  }

  /** The INSERT statement _batchInsert sends for one chunk. */
  function InsertCommand(table: string, chunk: seq<Record>, attrs: seq<string>): OrmCall {
    InsertRows(table, BatchColumns(chunk, attrs), BatchRows(chunk, attrs))
  }

  /** The INSERT statements batchInsert sends for the first n chunks. */
  function InsertCommands(table: string, chunks: seq<seq<Record>>, attrs: seq<string>, n: nat): seq<OrmCall>
    requires n <= |chunks|
  {
    seq(n, i requires 0 <= i < n => InsertCommand(table, chunks[i], attrs))
  }

  lemma InsertsSnoc(data: seq<(Key, Record)>, i: nat)
    requires i < |data|
    ensures Inserts(data, i + 1) == Inserts(data, i) + [SaveNew(data[i].1)]
  {
  }

  lemma SqlTextsSnoc(replies: seq<ChunkReply>, i: nat)
    requires i < |replies|
    ensures SqlTexts(replies, i + 1) == SqlTexts(replies, i) + [replies[i].rawSql]
  {
  }

  lemma InsertCommandsSnoc(table: string, chunks: seq<seq<Record>>, attrs: seq<string>, i: nat)
    requires i < |chunks|
    ensures InsertCommands(table, chunks, attrs, i + 1)
         == InsertCommands(table, chunks, attrs, i) + [InsertCommand(table, chunks[i], attrs)]
  {
  }
}
