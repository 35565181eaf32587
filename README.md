# sqlite-loadable fixture extensions, modelled in Dafny

The sqlite-loadable crate lets Rust code implement SQLite extension points:
scalar functions, virtual tables ("table functions") and per-table function
overloading. This project models the four small extensions its test suite
builds on top of that crate. Every call into the crate (`api::*`,
`define_*`) or into the engine is treated as an abstract operation.

- `hello` (tests/test_hello.rs) is a deterministic UTF-8 scalar function that
  writes `hello, NAME!`.
- `addx` (tests/test_manual_load.rs) is a two-argument scalar function that
  writes the 32-bit sum of its arguments.
- `check_auxdata` (tests/test_auxdata.rs) is a two-argument scalar function.
  It checks that slot 1 of its invocation context's auxdata store misses,
  caches its value there, reads it back, and writes `label=value`.
- `find` (tests/test_find_function.rs) is a one-column, one-row table
  function. Its cursor follows SQLite's filter/next/eof/column/rowid protocol.
  Its tables overload the scalar function `wrapped`.

Files:

- `extension.dfy` (module `Extension`) holds the engine side: 32- and 64-bit
  integer types, engine values, result cells, the connection's function and
  module registry, and small text-splitting helpers.
  - An engine value is represented only by the results of the two
    conversions the fixtures use. These are `value_text`, which can fail, and
    `value_int`.
  - `overload_function` follows SQLite's `sqlite3_overload_function`. An
    existing function of that name and arity is kept. Otherwise a
    placeholder is installed that fails with "unable to use function NAME in
    the requested context".
- `hello.dfy`, `manual_load.dfy`, `auxdata.dfy` and `find_table.dfy` hold one
  fixture each.
  - Pure code (`hello`, `add`, `wrapped`, `column`, `find_function`) becomes
    functions.
  - The auxdata store is a class `InvocationContext`. It holds a slot map and
    a result cell, and `check_auxdata` is a method over it.
  - `FindCursor` is a class whose methods update its `rowid` field in place.
  - A scalar function's write to the result cell is its returned value.
  - When a fixture panics (an `unwrap`, an `expect`, indexing past the
    argument slice, a failed `assert!`, or an integer overflow in a debug
    build), the model turns that case into a precondition.

The generic virtual-table design lets `filter` choose its start from the
index plan. It also allows `column`/`rowid` only on a cursor that is not
exhausted. The `find` fixture ignores the plan and checks nothing, and the
model follows the fixture. The engine's side of the two `find` queries and
of the nested `check_auxdata` query is modelled as client methods
(`SelectA`, `SelectWrappedA`, `SelectNested`). These methods make the calls
those queries depend on, in the engine's order. For `wrapped(a)` that order
is: connect, `best_index`, then `find_function` while the result column is
coded, then open, filter and the row loop.

## Model

| member | source | states |
|---|---|---|
| `HelloFunction.Hello` | tests/test_hello.rs:4-9 | needs at least one argument (else the `expect` panics). It fails exactly when the first argument's text conversion fails, with that error, and then writes nothing. Otherwise it writes a text of length name+8 that starts with "hello, ", ends with "!", and has the name in between |
| `HelloFunction.GreetedNameInvertsHello` | tests/test_hello.rs:7 | the name can be recovered from every greeting `hello` writes (round trip through `GreetedName`) |
| `HelloFunction.HelloDependsOnlyOnName` | tests/test_hello.rs:5-7 | the result depends only on the first argument's text (what the DETERMINISTIC flag declares), and different names give different greetings |
| `HelloFunction.HelloAlex` | tests/test_hello.rs:35-44 | `hello('alex')` is "hello, alex!" |
| `HelloFunction.HelloInit` | tests/test_hello.rs:11-16 | the entry point succeeds. It binds ("hello", 1) to `hello` with flags {UTF8, DETERMINISTIC}, adds no other key and changes no other registration |
| `ManualLoad.Add` | tests/test_manual_load.rs:4-9 | always Ok. It writes the sum of the integer conversions of arguments 0 and 1. Requires two arguments and a sum that fits in i32 |
| `ManualLoad.AddReadsOnlyOperands` | tests/test_manual_load.rs:5-7 | two calls whose first two arguments have the same integer conversions give the same result. Text conversions and arguments after the second are not read |
| `ManualLoad.ManualInit` | tests/test_manual_load.rs:11-15 | the entry point succeeds. It binds ("addx", 2) to `add` with no flags, adds no other key and changes no other registration |
| `ManualLoad.AddxOneTwo` | tests/test_manual_load.rs:40-50 | after loading, `addx` with two arguments is `add`, and `addx(1, 2)` is 3 |
| `AuxdataCheck.InvocationContext.AuxGetText` | tests/test_auxdata.rs:8-14 | `auxdata_get::<String>` hits exactly when the slot holds a text payload, and then returns that payload. An empty slot or a payload of another type is a miss |
| `AuxdataCheck.InvocationContext.AuxSet` | tests/test_auxdata.rs:10-11 | `auxdata_set` puts the payload in the slot. It changes no other slot and not the result cell |
| `AuxdataCheck.InvocationContext.ResultText` | tests/test_auxdata.rs:16 | `result_text` fills the result cell with the text and does not touch the slots |
| `AuxdataCheck.LabelValue` | tests/test_auxdata.rs:16 | the written text is the label, then '=', then the value, in that order and with nothing else |
| `AuxdataCheck.SplitLabelValue` | tests/test_auxdata.rs:16 | when the label has no '=', splitting the written text at its first '=' gives back the label and the value |
| `AuxdataCheck.CheckAuxdata` | tests/test_auxdata.rs:4-19 | requires two text arguments and a miss on slot 1 (else the `unwrap`s or the `assert!` panic). Always Ok. Afterwards slot 1 holds the value and a get returns exactly it, no other slot has changed, and the result cell holds "label=value" |
| `AuxdataCheck.SelectNested` | tests/test_auxdata.rs:46-59 | `check_auxdata(o, check_auxdata(i, v))` runs each call in its own fresh context, so the outer call's miss assertion holds. The result is "o=i=v" |
| `AuxdataCheck.SameContextHits` | tests/test_auxdata.rs:46-48 | a second get in the same context after `check_auxdata` hits with the cached value. So the miss assertion holds only because each call node has its own context |
| `AuxdataCheck.AuxdataInit` | tests/test_auxdata.rs:21-25 | the entry point succeeds. It binds ("check_auxdata", 2) to `check_auxdata` with flags {UTF8}, adds no other key and changes no other registration |
| `FindTableFunction.ColumnAt` | tests/test_find_function.rs:21-26 | a column index names a column exactly when it is 0 |
| `FindTableFunction.SchemaMatchesColumns` | tests/test_find_function.rs:17-26 | the schema "CREATE TABLE x(a)" lists exactly the one column `a`, and the indexes `column` accepts are exactly the positions of the listed columns |
| `FindTableFunction.Wrapped` | tests/test_find_function.rs:70-76 | requires one argument that converts to text (else the indexing or the `unwrap` panics). Always Ok. It writes "Wrapped access! " followed by that text, with nothing else |
| `FindTableFunction.FindTable.Connect` | tests/test_find_function.rs:38-47 | succeeds for any auxiliary data and any arguments, with schema "CREATE TABLE x(a)" and a new table |
| `FindTableFunction.FindTable.Destroy` | tests/test_find_function.rs:48-50 | always succeeds |
| `FindTableFunction.FindTable.BestIndex` | tests/test_find_function.rs:52-54 | always succeeds and leaves the planner's record unchanged: no constraint is consumed |
| `FindTableFunction.FindTable.Open` | tests/test_find_function.rs:56-58 | always succeeds with a new cursor at row id 0 whose value is None |
| `FindTableFunction.FindTable.FindFunction` | tests/test_find_function.rs:61-67 | returns Some((raw `wrapped`, None, None)) exactly when the name is "wrapped", for any argc. Otherwise it returns None |
| `FindTableFunction.FindCursor.New` | tests/test_find_function.rs:86-93 | a new cursor is at row id 0 with value None |
| `FindTableFunction.FindCursor.Eof` | tests/test_find_function.rs:112-114 | eof holds exactly when the row id is past the last of the table's rows |
| `FindTableFunction.FindCursor.Filter` | tests/test_find_function.rs:97-105 | for any plan number, plan text and values: always Ok. Afterwards the row id is 1, eof is false and the value field is unchanged |
| `FindTableFunction.FindCursor.Next` | tests/test_find_function.rs:107-110 | always Ok. The row id grows by exactly 1. Once eof holds it keeps holding, and one step from row 1 reaches eof. Requires no i64 overflow |
| `FindTableFunction.FindCursor.Column` | tests/test_find_function.rs:116-122 | always Ok. It writes a value exactly for column 0: "Bare A access!", which on a row of the scan is that row's value. It writes nothing for any other index |
| `FindTableFunction.FindCursor.Rowid` | tests/test_find_function.rs:124-126 | returns Ok with the current row id and changes nothing |
| `FindTableFunction.FindInit` | tests/test_find_function.rs:129-134 | the entry point succeeds. Afterwards a global ("wrapped", 1) exists: the one already there, or otherwise the engine's placeholder. The table function `find` is registered with its overload hook |
| `FindTableFunction.ResolveCall` | tests/test_find_function.rs:61-67 | an unknown (name, argc) does not resolve. On a `find` column, with `find` registered with its overload hook, "wrapped" resolves to the table's implementation. Any other call resolves to the global definition |
| `FindTableFunction.OverloadRouting` | tests/test_find_function.rs:129-134 | after the entry point, `wrapped` on a `find` column runs the table's implementation, which writes "Wrapped access! " and the argument. Anywhere else it reaches the placeholder, which fails with the wrong-context error. Without the entry point's `overload_function`, `wrapped` would not resolve at all |
| `FindTableFunction.SelectA` | tests/test_find_function.rs:153-163 | `select a from find` (connect, best_index, open, filter, then column/next until eof) yields exactly one row, "Bare A access!" |
| `FindTableFunction.SelectWrappedA` | tests/test_find_function.rs:164-174 | `select wrapped(a) from find` plans the scan, routes `wrapped` to the table's implementation, and calls the bound implementation on each row. It yields exactly "Wrapped access! Bare A access!" |

## Left out

- The tokio/libsql test harnesses (`Builder`, `prepare`, `query_row`), `sqlite3_auto_extension` and the `transmute` of the entry point are loading and I/O, not extension logic.
- The `#[sqlite_entrypoint]` expansion, the `#[repr(C)]` base-record-first layout and `mem::zeroed()` are ABI layout concerns. Table and cursor are plain classes without the base record.
- The library's `value_text`, `value_int`, `result_text`, `result_int`, `auxdata_get`/`auxdata_set`, `overload_function`, `define_scalar_function` and `define_table_function_with_find` are not part of this model, because their source is not available.
  - Engine values are represented by the results of their text and integer conversions.
  - Writing a result and registering a function or module are taken to always succeed, so the `?` after `result_text` in `hello` and `wrapped` never fires.
- `TextArg`: a text argument's integer conversion is fixed at 0. No function that takes text reads it.
- Auxdata destructors are not modelled: neither the release of an overwritten payload nor clean-up when the engine tears a context down. The model keeps only which payload each slot holds.
- Cursor `close` and the release of tables and cursors belong to the library and the engine, and are not modelled.
- `FindCursor.value` is kept only as its initial None, which `filter` and `next` leave unchanged. The fixture never uses it.
- `ManualLoad.Add`: requires a sum within i32, because the fixture's `a + b` panics on overflow in a debug build. The wrap-around of a release build is not modelled.
- `FindTableFunction.FindCursor.Next`: requires a row id below the i64 maximum, for the same reason.
- The engine-side methods (`SelectA`, `SelectWrappedA`, `SelectNested`) model only the calls those queries make. SQL parsing, planning costs and constraint passing are engine behaviour.
- The `static`-feature manual-load test is commented out in the fixture. Only its expected value is kept, in `ManualLoad.AddxOneTwo`.
- The registry matches function names exactly and by exact argument count. SQLite matches names case-insensitively and lets a variadic (-1) definition match any count, so `WRAPPED(a)` is not resolved in the model.
- `FindTableFunction.Invoke` dispatches only the two callables a one-argument `wrapped` can be bound to. A general dispatch over every registered function is not modelled.
- Concurrency is not modelled, because none is involved.
