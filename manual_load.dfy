/** The `add` scalar function and its entry point, registered as `addx`
    (tests/test_manual_load.rs). */
module ManualLoad {
  import opened Extension

  /** `add(values)`: writes the sum of the integer conversions of the first
      two arguments and always succeeds. The fixture indexes `values[0]`
      and `values[1]` and adds two `i32`s without overflow handling (a
      panic in the fixture's debug build), so the engine must pass two
      arguments whose sum fits in 32 bits. */
  function Add(values: seq<EngineValue>): (r: Result<Int32>)
    requires |values| >= 2
    requires -0x8000_0000 <= values[0].integer + values[1].integer <= Int32Max
    ensures r.Ok?
    ensures r.value == values[0].integer + values[1].integer
  {
    Ok(values[0].integer + values[1].integer)
  }

  /** `add` reads only the integer conversions of its first two arguments:
      their text conversions and any further arguments do not matter. */
  lemma AddReadsOnlyOperands(v: seq<EngineValue>, w: seq<EngineValue>)
    requires |v| >= 2 && |w| >= 2
    requires -0x8000_0000 <= v[0].integer + v[1].integer <= Int32Max
    requires v[0].integer == w[0].integer && v[1].integer == w[1].integer
    ensures Add(v) == Add(w)
  {
  }

  /** `sqlite3_manual_init`: registers ("addx", 2) with no flags, bound to `Add`. */
  function ManualInit(db: Registry): (r: Result<Registry>)
    ensures r.Ok?
    ensures ("addx", 2) in r.value.functions
    ensures r.value.functions[("addx", 2)] == FunctionDef({}, AddImpl)
    ensures forall k :: k in db.functions && k != ("addx", 2) ==>
              k in r.value.functions && r.value.functions[k] == db.functions[k]
    ensures r.value.functions.Keys == db.functions.Keys + {("addx", 2)}
    ensures r.value.modules == db.modules
  {
    DefineScalarFunction(db, "addx", 2, AddImpl, {})
  }

  /** The expectation of the disabled static-load test: after loading,
      `addx` with two arguments is `Add`, and `addx(1, 2)` is 3. */
  lemma AddxOneTwo()
    ensures ManualInit(EmptyRegistry).value.functions[("addx", 2)].impl == AddImpl
    ensures Add([EngineValue(Ok("1"), 1), EngineValue(Ok("2"), 2)]) == Ok(3)
  {
  }
}
