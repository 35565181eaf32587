/** The `find` table function: a one-column, one-row virtual table whose
    tables overload the scalar function `wrapped`, and the entry point
    that registers both (tests/test_find_function.rs). */
module FindTableFunction {
  import opened Extension

  /** The schema every `find` table declares. */
  const CreateSql: string := "CREATE TABLE x(a)"

  /** The text column `a` holds. */
  const BareA: string := "Bare A access!"

  /** What `wrapped` writes before its argument. */
  const WrappedPrefix: string := "Wrapped access! "

  /** The rows a scan of `find` presents, as the values of column `a`:
      exactly one, holding `BareA`. Row ids count these rows from 1. */
  const Rows: seq<string> := [BareA]

  datatype Columns = A

  /** `column(index)`: the declared column at a column index; only 0 is one. */
  function ColumnAt(index: Int32): (r: Option<Columns>)
    ensures r.Some? <==> index == 0
  {
    if index == 0 then Some(A) else None
  }

  /** The column names `CreateSql` declares, in order. */
  const ColumnNames: seq<string> := ["a"]

  /** The schema `connect` declares lists exactly `ColumnNames`, and the
      column indexes `ColumnAt` recognises are exactly their positions. */
  lemma SchemaMatchesColumns()
    ensures CreateSql == "CREATE TABLE x(" + ColumnNames[0] + ")" && |ColumnNames| == 1
    ensures forall i: Int32 :: ColumnAt(i).Some? <==> 0 <= i < |ColumnNames|
  {
  }

  /** The extra planning information `find_function` may return with an
      implementation: a constraint operator and a user-data pointer. */
  datatype FindResult = FindResult(impl: Implementation, constraintOp: Option<Int32>, userData: Option<nat>)

  /** One constraint the planner offers to `best_index`. */
  datatype IndexConstraint = IndexConstraint(column: Int32, op: nat, usable: bool)

  /** The planner's index-negotiation record: the offered constraints, for
      each the argument position the table wants it passed at (0 = not
      used), and the plan number and text handed back to `filter`. */
  datatype IndexInfo = IndexInfo(
    constraints: seq<IndexConstraint>,
    argvIndex: seq<nat>,
    idxNum: Int32,
    idxStr: Option<string>)

  /** `wrapped(values)`: writes "Wrapped access! " followed by the text of
      the first argument. The fixture indexes `values[0]` and unwraps its
      text, so the engine must pass one argument that converts to text. */
  function Wrapped(values: seq<EngineValue>): (r: Result<string>)
    requires |values| >= 1 && values[0].text.Ok?
    ensures r.Ok?
    ensures |r.value| == |WrappedPrefix| + |values[0].text.value|
    ensures r.value[..|WrappedPrefix|] == WrappedPrefix
    ensures r.value[|WrappedPrefix|..] == values[0].text.value
  {
    Ok(WrappedPrefix + values[0].text.value)
  }

  /** A `find` table instance. It holds no state of its own. */
  class FindTable {

    constructor ()
    {
    }

    /** `connect`: always succeeds with the schema `CreateSql` and a new
        table, whatever the auxiliary data and the declared arguments. */
    static method Connect(aux: Option<()>, args: seq<string>) returns (r: Result<(string, FindTable)>)
      ensures r.Ok? && r.value.0 == CreateSql && fresh(r.value.1)
    {
      var table := new FindTable();
      r := Ok((CreateSql, table));
    }

    /** `destroy`: always succeeds. */
    method Destroy() returns (r: Result<()>)
      ensures r.Ok?
    {
      r := Ok(());
    }

    /** `best_index`: always succeeds and leaves the planner's record as it
        was given: no constraint is consumed, so the plan is a full scan. */
    method BestIndex(info: IndexInfo) returns (r: Result<IndexInfo>)
      ensures r.Ok? && r.value == info
    {
      r := Ok(info);
    }

    /** `open`: always succeeds with a new cursor at row id 0 and no value. */
    method Open() returns (r: Result<FindCursor>)
      ensures r.Ok? && fresh(r.value)
      ensures r.value.rowid == 0 && r.value.value == None
    {
      var cursor := new FindCursor.New();
      r := Ok(cursor);
    }

    /** `find_function(argc, name)`: offers the raw `wrapped` implementation,
        with no constraint and no user data, exactly when the name is
        "wrapped", whatever the argument count; otherwise nothing. */
    function FindFunction(argc: Int32, name: string): (r: Option<FindResult>)
      ensures r.Some? <==> name == "wrapped"
      ensures r.Some? ==> r.value == FindResult(WrappedImpl, None, None)
    {
      if name == "wrapped" then Some(FindResult(WrappedImpl, None, None)) else None
    }
  }

  /** A cursor over a `find` table: the current row id and an unused value. */
  class FindCursor {
    var rowid: Int64
    var value: Option<string>

    /** `FindCursor::new`: before `filter`, at row id 0 with no value. */
    constructor New()
      ensures rowid == 0 && value == None
    {
      rowid := 0;
      value := None;
    }

    /** `eof`: the cursor has moved past the last of `Rows`. */
    predicate Eof()
      reads this
      ensures Eof() <==> rowid > |Rows|
    {
      rowid >= 2
    }

    /** `filter`: whatever plan and constraint values it is given, moves to
        the first row, so the scan is not at its end. */
    method Filter(idxNum: Int32, idxStr: Option<string>, values: seq<EngineValue>) returns (r: Result<()>)
      modifies this
      ensures r.Ok?
      ensures rowid == 1 && !Eof()
      ensures value == old(value)
    {
      rowid := 1;
      r := Ok(());
    }

    /** `next`: moves to the following row id. Once at the end the cursor
        stays there, and from the first row one step reaches the end. The
        fixture's `+= 1` on an `i64` panics on overflow in a debug build. */
    method Next() returns (r: Result<()>)
      requires rowid < Int64Max
      modifies this
      ensures r.Ok?
      ensures rowid == old(rowid) + 1
      ensures old(Eof()) ==> Eof()
      ensures old(rowid) == 1 ==> Eof()
      ensures value == old(value)
    {
      rowid := rowid + 1;
      r := Ok(());
    }

    /** `column(i)`: for column 0 writes the text of `a` (on a row of the
        scan, that row's value in `Rows`); for any other index writes
        nothing. Either way it succeeds. */
    method Column(i: Int32) returns (r: Result<()>, written: Option<SqlResult>)
      ensures r.Ok?
      ensures written.Some? <==> i == 0
      ensures written.Some? ==> written.value == TextResult(BareA)
      ensures i == 0 && 1 <= rowid <= |Rows| ==> written == Some(TextResult(Rows[rowid - 1]))
    {
      match ColumnAt(i) {
      case Some(A) =>
        written := Some(TextResult(BareA));
      case None =>
        written := None;
      }
      r := Ok(());
    }

    /** `rowid`: the current row id; reads only. */
    method Rowid() returns (r: Result<Int64>)
      ensures r == Ok(rowid)
    {
      r := Ok(rowid);
    }
  }

  /** `sqlite3_find_init`: makes sure a global ("wrapped", 1) exists (an
      existing definition is kept; otherwise the engine's placeholder is
      installed) and registers the table function `find` with its
      overload hook. */
  function FindInit(db: Registry): (r: Result<Registry>)
    ensures r.Ok?
    ensures ("wrapped", 1) in r.value.functions
    ensures ("wrapped", 1) in db.functions ==> r.value.functions == db.functions
    ensures ("wrapped", 1) !in db.functions ==>
              r.value.functions == db.functions[("wrapped", 1) := FunctionDef({Utf8}, OverloadPlaceholder)]
    ensures r.value.modules == db.modules["find" := TableFunction(true)]
  {
    match OverloadFunction(db, "wrapped", 1)
    case Err(e) => Err(e)
    case Ok(db1) => DefineTableFunctionWithFind(db1, "find")
  }

  /** The module `find` is registered with its overload hook. */
  predicate HasFindHook(db: Registry)
  {
    "find" in db.modules && db.modules["find"].hasFind
  }

  /** How the engine binds a scalar call at planning time. The name and
      argument count must name a global function; when the first argument
      is a column of a `find` table (`table != null`) whose module was
      registered with its overload hook, the table's `find_function` may
      substitute its own implementation; otherwise the global definition
      is used. */
  function ResolveCall(db: Registry, table: FindTable?, name: string, argc: Int32): (r: Result<Implementation>)
    ensures (name, argc) !in db.functions ==> r == Err(NoSuchFunction(name))
    ensures (name, argc) in db.functions && table != null && HasFindHook(db) && name == "wrapped" ==>
              r == Ok(WrappedImpl)
    ensures (name, argc) in db.functions && (table == null || !HasFindHook(db) || name != "wrapped") ==>
              r == Ok(db.functions[(name, argc)].impl)
  {
    if (name, argc) !in db.functions then Err(NoSuchFunction(name))
    else if table != null && HasFindHook(db) && table.FindFunction(argc, name).Some? then
      Ok(table.FindFunction(argc, name).value.impl)
    else Ok(db.functions[(name, argc)].impl)
  }

  /** Calls one of the callables a one-argument `wrapped` can be bound to:
      the table's `wrapped`, or the engine's placeholder. */
  function Invoke(impl: Implementation, name: string, values: seq<EngineValue>): Result<string>
    requires impl == WrappedImpl || impl == OverloadPlaceholder
    requires |values| >= 1 && values[0].text.Ok?
  {
    if impl == WrappedImpl then Wrapped(values) else CallPlaceholder(name)
  }

  /** Overload routing after `sqlite3_find_init` on a connection without a
      global `wrapped`: applied to a column of `find`, `wrapped` runs the
      table's implementation; anywhere else it reaches the placeholder,
      which fails with "unable to use function wrapped in the requested
      context". Without the entry point's `overload_function`, the name
      would not resolve at all, even on the table's column. */
  lemma OverloadRouting(db: Registry, table: FindTable, arg: EngineValue)
    requires ("wrapped", 1) !in db.functions
    requires arg.text.Ok?
    ensures ResolveCall(FindInit(db).value, table, "wrapped", 1) == Ok(WrappedImpl)
    ensures Invoke(WrappedImpl, "wrapped", [arg]) == Ok(WrappedPrefix + arg.text.value)
    ensures ResolveCall(FindInit(db).value, null, "wrapped", 1) == Ok(OverloadPlaceholder)
    ensures Invoke(OverloadPlaceholder, "wrapped", [arg]) == Err(WrongContext("wrapped"))
    ensures ResolveCall(db, table, "wrapped", 1) == Err(NoSuchFunction("wrapped"))
  {
  }

  /** `select a from find`, as the engine drives the table: connect, plan,
      open, filter, then column 0 while not at the end, stepping with next.
      The scan yields exactly the rows of `Rows`. */
  method SelectA() returns (cells: seq<Option<SqlResult>>)
    ensures |cells| == |Rows|
    ensures forall k :: 0 <= k < |Rows| ==> cells[k] == Some(TextResult(Rows[k]))
  {
    var connected := FindTable.Connect(None, []);
    var table := connected.value.1;
    var plan := table.BestIndex(IndexInfo([], [], 0, None));
    var openResult := table.Open();
    var cursor := openResult.value;
    var _ := cursor.Filter(plan.value.idxNum, plan.value.idxStr, []);
    cells := [];
    while !cursor.Eof()
      invariant 1 <= cursor.rowid <= |Rows| + 1
      invariant |cells| == cursor.rowid - 1
      invariant forall k :: 0 <= k < |cells| ==> cells[k] == Some(TextResult(Rows[k]))
      decreases |Rows| + 1 - cursor.rowid
    {
      var _, cell := cursor.Column(0);
      cells := cells + [cell];
      var _ := cursor.Next();
    }
  }

  /** `select wrapped(a) from find` after `sqlite3_find_init`: the engine
      connects and plans the scan, then, coding the result column, routes
      `wrapped` on column `a` to the table's implementation; the scan calls
      the bound callable on each row's cell: one row, "Wrapped access! Bare
      A access!". */
  method SelectWrappedA() returns (out: seq<string>)
    ensures |out| == |Rows|
    ensures forall k :: 0 <= k < |Rows| ==> out[k] == WrappedPrefix + Rows[k]
    ensures out == ["Wrapped access! Bare A access!"]
  {
    var db := FindInit(EmptyRegistry).value;
    var connected := FindTable.Connect(None, []);
    var table := connected.value.1;
    var plan := table.BestIndex(IndexInfo([], [], 0, None));
    var binding := ResolveCall(db, table, "wrapped", 1);
    assert binding == Ok(WrappedImpl);
    var openResult := table.Open();
    var cursor := openResult.value;
    var _ := cursor.Filter(plan.value.idxNum, plan.value.idxStr, []);
    out := [];
    while !cursor.Eof()
      invariant 1 <= cursor.rowid <= |Rows| + 1
      invariant |out| == cursor.rowid - 1
      invariant forall k :: 0 <= k < |out| ==> out[k] == WrappedPrefix + Rows[k]
      decreases |Rows| + 1 - cursor.rowid
    {
      var _, cell := cursor.Column(0);
      var result := Invoke(binding.value, "wrapped", [TextArg(cell.value.text)]);
      out := out + [result.value];
      var _ := cursor.Next();
    }
    assert WrappedPrefix + BareA == "Wrapped access! Bare A access!";
  }
}
