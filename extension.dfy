/** The engine-facing operations every fixture extension calls: value
    conversion, result cells, and the function/module registry that the
    entry points write into. The adapter library's own bodies are not part
    of this model; each operation here is stated by the behaviour the
    fixtures rely on and, where the engine decides it, by SQLite's
    documented behaviour. */
module Extension {

  /** C `int`, the width of SQLite's `sqlite3_value_int` and of argument counts. */
  type Int32 = x: int | -0x8000_0000 <= x < 0x8000_0000
  /** `i64`/`sqlite3_int64`, the width of a row id. */
  type Int64 = x: int | -0x8000_0000_0000_0000 <= x < 0x8000_0000_0000_0000

  const Int32Max: int := 0x7fff_ffff
  const Int64Max: int := 0x7fff_ffff_ffff_ffff

  datatype Option<+T> = None | Some(value: T)

  /** Failures an extension reports through the engine's error channel. */
  datatype Error =
    | ValueConversion(message: string)  // text extraction on bytes that are not UTF-8
    | NoSuchFunction(name: string)      // no global function of that name and arity
    | WrongContext(name: string)        // an overload placeholder called outside its table

  datatype Result<+T> = Ok(value: T) | Err(error: Error)

  /** One engine value handle, seen only through the two conversions the
      fixtures use: `value_text` (which fails on text that is not UTF-8) and
      `value_int` (the engine's coercion to a 32-bit integer). */
  datatype EngineValue = EngineValue(text: Result<string>, integer: Int32)

  /** A text argument. No function in this model that reads text also
      reads the integer conversion, which is fixed at 0 here. */
  function TextArg(s: string): EngineValue
  {
    EngineValue(Ok(s), 0)
  }

  /** What a scalar function or a cursor's column writes into the engine's result cell. */
  datatype SqlResult = TextResult(text: string) | IntResult(n: Int32)

  /** `FunctionFlags`: the configuration bits passed with a registration. */
  datatype FunctionFlag = Utf8 | Deterministic | Innocuous | DirectOnly

  /** The callables the fixtures hand to the engine. `OverloadPlaceholder`
      is the function the engine installs for `overload_function`. */
  datatype Implementation =
    | HelloImpl
    | AddImpl
    | CheckAuxdataImpl
    | WrappedImpl
    | OverloadPlaceholder

  datatype FunctionDef = FunctionDef(flags: set<FunctionFlag>, impl: Implementation)

  /** A virtual-table module registered as a table function (usable
      without `CREATE VIRTUAL TABLE`), optionally with an overload hook. */
  datatype ModuleDef = TableFunction(hasFind: bool)

  /** The connection's registry: global scalar functions keyed by
      (name, argument count) and virtual-table modules keyed by name. */
  datatype Registry = Registry(
    functions: map<(string, int), FunctionDef>,
    modules: map<string, ModuleDef>)

  const EmptyRegistry: Registry := Registry(map[], map[])

  /** `define_scalar_function`: binds (name, arity) to a callable and its flags,
      replacing an earlier binding of the same key. */
  function DefineScalarFunction(db: Registry, name: string, arity: Int32,
                                impl: Implementation, flags: set<FunctionFlag>): Result<Registry>
  {
    Ok(db.(functions := db.functions[(name, arity) := FunctionDef(flags, impl)]))
  }

  /** `overload_function`: SQLite keeps an existing (name, arity) function
      untouched; otherwise it installs a UTF-8 placeholder that only a
      virtual table's overload hook can replace. */
  function OverloadFunction(db: Registry, name: string, arity: Int32): Result<Registry>
  {
    if (name, arity) in db.functions then Ok(db)
    else Ok(db.(functions := db.functions[(name, arity) := FunctionDef({Utf8}, OverloadPlaceholder)]))
  }

  /** `define_table_function_with_find`: registers a module under `name`
      whose tables answer `find_function`. */
  function DefineTableFunctionWithFind(db: Registry, name: string): Result<Registry>
  {
    Ok(db.(modules := db.modules[name := TableFunction(true)]))
  }

  /** What the placeholder does when the engine calls it: SQLite reports
      "unable to use function NAME in the requested context". */
  function CallPlaceholder(name: string): Result<string>
  {
    Err(WrongContext(name))
  }

  /** Splits a text at its first occurrence of `c`; None when `c` does not occur. */
  function SplitAtFirst(s: string, c: char): (r: Option<(string, string)>)
    ensures r.None? <==> c !in s
    ensures r.Some? ==> s == r.value.0 + [c] + r.value.1 && c !in r.value.0
  {
    if s == [] then None
    else if s[0] == c then Some(([], s[1..]))
    else match SplitAtFirst(s[1..], c)
      case None => None
      case Some(parts) => Some(([s[0]] + parts.0, parts.1))
  }

  /** The split is the one at the first `c`: any decomposition whose head
      lacks `c` is the one `SplitAtFirst` finds. */
  lemma {:induction false} SplitAtFirstFinds(s: string, c: char, head: string, tail: string)
    requires s == head + [c] + tail && c !in head
    ensures SplitAtFirst(s, c) == Some((head, tail))
  {
    if head == [] {
      assert s[0] == c && s[1..] == tail;
    } else {
      assert s[0] == head[0] && s[1..] == head[1..] + [c] + tail;
      assert c !in head[1..] by {
        forall i | 0 <= i < |head[1..]| ensures head[1..][i] != c {
          assert head[1..][i] == head[i + 1];
        }
      }
      SplitAtFirstFinds(s[1..], c, head[1..], tail);
      assert [head[0]] + head[1..] == head;
    }
  }
}
