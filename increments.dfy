/**
 * The update map that Dao::inc and Dao::dec hand to the ORM's updateAll:
 * every named field is set to the expression "field + step" (or
 * "field - step"), evaluated by the database in one statement. A field list
 * given as a string is split on ','; in an array, a positional entry uses the
 * current step and a keyed entry `field => v` makes v the current step, for
 * that field and for the positional entries after it.
 */
module Increments {
  import opened PhpStrings

  /** One element of the field argument. */
  datatype FieldEntry =
    | Positional(name: string)       // [0 => 'hits']
    | Keyed(name: string, step: int) // ['hits' => 5]

  /** The field argument: a comma-separated string, or an array. */
  datatype FieldArg = NameList(csv: string) | EntryArray(entries: seq<FieldEntry>)

  /** inc writes "+", dec writes "-". */
  datatype Direction = Up | Down

  /** is_string($field) ? explode(',', $field) : $field */
  function Entries(arg: FieldArg): (es: seq<FieldEntry>)
    ensures arg.NameList? ==> |es| == |Split(arg.csv, ',')|
    ensures arg.NameList? ==> forall i :: 0 <= i < |es| ==> es[i] == Positional(Split(arg.csv, ',')[i])
  {
    match arg
    case NameList(csv) =>
      var names := Split(csv, ',');
      seq(|names|, i requires 0 <= i < |names| => Positional(names[i]))
    case EntryArray(entries) => entries
  }

  /** The operator text inc and dec write between the field and the step. */
  function Operator(dir: Direction): string {
    if dir == Up then " + " else " - "
  }

  /**
   * The raw SQL expression for one field, "$field + $step" or "$field - $step":
   * the field itself, the operator, then the step's text.
   */
  function Render(field: string, dir: Direction, step: int): (expr: string)
    ensures |expr| > |field| + 3
    ensures expr[..|field|] == field && expr[|field|..|field| + 3] == Operator(dir)
  {
    field + Operator(dir) + IntToString(step)
  }

  /** The text after the field and the operator reads back as the step. */
  lemma RenderReadsBack(field: string, dir: Direction, step: int)
    ensures ParseInt(Render(field, dir, step)[|field| + 3..]) == step
  {
    IntToStringRoundTrip(step);
    assert Render(field, dir, step)[|field| + 3..] == IntToString(step);
  }

  /** The step in force after the entries: that of the last keyed entry, else the initial one. */
  function StepAfter(entries: seq<FieldEntry>, step0: int): int {
    if entries == [] then step0
    else match entries[|entries| - 1]
      case Keyed(_, v) => v
      case Positional(_) => StepAfter(entries[..|entries| - 1], step0)
  }

  /** The update map after the entries: each entry adds its field, or overwrites it when it is already there. */
  function UpdateMap(entries: seq<FieldEntry>, step0: int, dir: Direction): (m: map<string, string>)
    ensures m == map[] <==> entries == []
    ensures entries != [] ==> entries[|entries| - 1].name in m
  {
    if entries == [] then map[]
    else
      var n := |entries| - 1;
      UpdateMap(entries[..n], step0, dir)[entries[n].name := Render(entries[n].name, dir, StepAfter(entries, step0))]
  }

  /** One more entry: the map and the step in force take one step. */
  lemma UpdateMapStep(entries: seq<FieldEntry>, step0: int, dir: Direction)
    requires entries != []
    ensures var n := |entries| - 1;
      && StepAfter(entries, step0) == (if entries[n].Keyed? then entries[n].step else StepAfter(entries[..n], step0))
      && UpdateMap(entries, step0, dir) ==
         UpdateMap(entries[..n], step0, dir)[entries[n].name := Render(entries[n].name, dir, StepAfter(entries, step0))]
  {
  }

  /** The loop shared by inc and dec. */
  method BuildUpdateMap(field: FieldArg, step: int, dir: Direction) returns (upData: map<string, string>)
    ensures upData == UpdateMap(Entries(field), step, dir)
  {
    var fields := Entries(field);
    upData := map[];
    var current := step;
    for i := 0 to |fields|
      invariant upData == UpdateMap(fields[..i], step, dir)
      invariant current == StepAfter(fields[..i], step)
    {
      ghost var seen := fields[..i + 1];
      assert seen[..i] == fields[..i] && seen[i] == fields[i];
      if fields[i].Keyed? {
        current := fields[i].step;
      }
      UpdateMapStep(seen, step, dir);
      upData := upData[fields[i].name := Render(fields[i].name, dir, current)];
    }
    assert fields[..|fields|] == fields;
  }

  /** The field names of the entries, in order. */
  function Names(entries: seq<FieldEntry>): seq<string> {
    seq(|entries|, i requires 0 <= i < |entries| => entries[i].name)
  }

  /** The map has exactly the fields the entries name. */
  lemma {:induction false} UpdateMapKeys(entries: seq<FieldEntry>, step0: int, dir: Direction)
    ensures forall f :: f in UpdateMap(entries, step0, dir) <==> f in Names(entries)
  {
    if entries != [] {
      var n := |entries| - 1;
      UpdateMapKeys(entries[..n], step0, dir);
      assert Names(entries) == Names(entries[..n]) + [entries[n].name];
    }
  }

  /** The map holds at most one assignment per entry. */
  lemma {:induction false} UpdateMapSize(entries: seq<FieldEntry>, step0: int, dir: Direction)
    ensures |UpdateMap(entries, step0, dir)| <= |entries|
  {
    if entries != [] {
      UpdateMapSize(entries[..|entries| - 1], step0, dir);
    }
  }

  /** Every assignment in the map updates its own column: the expression is the field itself, the operator, then a step. */
  lemma {:induction false} UpdateMapSelfRelative(entries: seq<FieldEntry>, step0: int, dir: Direction, f: string)
    requires f in UpdateMap(entries, step0, dir)
    ensures var e := UpdateMap(entries, step0, dir)[f];
      |e| > |f| + 3 && e[..|f|] == f && e[|f|..|f| + 3] == Operator(dir)
  {
    var n := |entries| - 1;
    if entries[n].name != f {
      UpdateMapSelfRelative(entries[..n], step0, dir, f);
    }
  }

  /**
   * A field named more than once takes the value of its last entry, with the
   * step in force at that entry.
   */
  lemma {:induction false} UpdateMapLastWins(entries: seq<FieldEntry>, step0: int, dir: Direction, i: nat)
    requires i < |entries|
    requires forall j :: i < j < |entries| ==> entries[j].name != entries[i].name
    ensures entries[i].name in UpdateMap(entries, step0, dir)
    ensures UpdateMap(entries, step0, dir)[entries[i].name] == Render(entries[i].name, dir, StepAfter(entries[..i + 1], step0))
  {
    var n := |entries| - 1;
    UpdateMapStep(entries, step0, dir);
    if i == n {
      assert entries[..i + 1] == entries;
    } else {
      var prefix := entries[..n];
      assert prefix[i] == entries[i];
      assert prefix[..i + 1] == entries[..i + 1];
      forall j | i < j < |prefix| ensures prefix[j].name != prefix[i].name {
        assert prefix[j] == entries[j];
      }
      UpdateMapLastWins(prefix, step0, dir, i);
      assert entries[n].name != entries[i].name;
    }
  }

  /** A keyed entry's step carries over to every positional entry after it, until the next keyed entry. */
  lemma {:induction false} StepAfterIsLastKeyed(entries: seq<FieldEntry>, step0: int, k: nat)
    requires k < |entries| && entries[k].Keyed?
    requires forall j :: k < j < |entries| ==> entries[j].Positional?
    ensures StepAfter(entries, step0) == entries[k].step
  {
    var n := |entries| - 1;
    if k < n {
      var prefix := entries[..n];
      assert prefix[k] == entries[k];
      forall j | k < j < |prefix| ensures prefix[j].Positional? {
        assert prefix[j] == entries[j];
      }
      StepAfterIsLastKeyed(prefix, step0, k);
    }
  }

  /** With no keyed entry, every field uses the step the caller passed. */
  lemma {:induction false} StepAfterWithoutKeyed(entries: seq<FieldEntry>, step0: int)
    requires forall j :: 0 <= j < |entries| ==> entries[j].Positional?
    ensures StepAfter(entries, step0) == step0
  {
    if entries != [] {
      var prefix := entries[..|entries| - 1];
      forall j | 0 <= j < |prefix| ensures prefix[j].Positional? {
        assert prefix[j] == entries[j];
      }
      StepAfterWithoutKeyed(prefix, step0);
    }
  }

  /** Positional entries alone: every named field gets the caller's step. */
  lemma {:induction false} UpdateMapUniformStep(entries: seq<FieldEntry>, step0: int, dir: Direction)
    requires forall j :: 0 <= j < |entries| ==> entries[j].Positional?
    ensures forall f :: f in UpdateMap(entries, step0, dir) ==> UpdateMap(entries, step0, dir)[f] == Render(f, dir, step0)
  {
    if entries != [] {
      var n := |entries| - 1;
      var prefix := entries[..n];
      forall j | 0 <= j < |prefix| ensures prefix[j].Positional? {
        assert prefix[j] == entries[j];
      }
      UpdateMapUniformStep(prefix, step0, dir);
      StepAfterWithoutKeyed(entries, step0);
    }
  }

  /** A comma-separated field list: each listed name is a key, and all share the caller's step. */
  lemma CsvFieldsShareStep(csv: string, step: int, dir: Direction)
    ensures var m := UpdateMap(Entries(NameList(csv)), step, dir);
      && (forall f :: f in m <==> f in Split(csv, ','))
      && (forall f :: f in m ==> m[f] == Render(f, dir, step))
  {
    var es := Entries(NameList(csv));
    UpdateMapUniformStep(es, step, dir);
    UpdateMapKeys(es, step, dir);
    assert Names(es) == Split(csv, ',');
  }
}
