/** The `hello` scalar function and the entry point that registers it
    (tests/test_hello.rs). */
module HelloFunction {
  import opened Extension

  /** `hello(values)`: reads the first argument as text and writes
      "hello, NAME!" into the result cell. A failed text conversion is
      returned as the call's error and nothing is written. The fixture
      panics ("1st argument as name") on an empty argument list, so the
      engine must pass at least one argument. */
  function Hello(values: seq<EngineValue>): (r: Result<string>)
    requires |values| >= 1
    ensures r.Err? <==> values[0].text.Err?
    ensures r.Err? ==> r.error == values[0].text.error
    ensures r.Ok? ==>
      && |r.value| == |values[0].text.value| + 8
      && r.value[..7] == "hello, "
      && r.value[|r.value| - 1] == '!'
      && r.value[7..|r.value| - 1] == values[0].text.value
  {
    match values[0].text
    case Err(e) => Err(e)
    case Ok(name) => Ok("hello, " + name + "!")
  }

  /** Recovers the name from a greeting: the inverse of `Hello` on its outputs. */
  function GreetedName(s: string): Option<string>
  {
    if |s| >= 8 && s[..7] == "hello, " && s[|s| - 1] == '!' then Some(s[7..|s| - 1]) else None
  }

  /** Every greeting `Hello` writes gives back exactly the name it was made from. */
  lemma GreetedNameInvertsHello(values: seq<EngineValue>)
    requires |values| >= 1 && values[0].text.Ok?
    ensures Hello(values).Ok?
    ensures GreetedName(Hello(values).value) == Some(values[0].text.value)
  {
  }

  /** Two calls agree when their first arguments agree, whatever else is
      passed: the result depends only on the name, as the DETERMINISTIC
      flag declares. Different names give different greetings. */
  lemma HelloDependsOnlyOnName(v: seq<EngineValue>, w: seq<EngineValue>)
    requires |v| >= 1 && |w| >= 1
    ensures v[0].text == w[0].text ==> Hello(v) == Hello(w)
    ensures Hello(v).Ok? && Hello(v) == Hello(w) ==> v[0].text == w[0].text
  {
  }

  /** `select hello('alex')` yields "hello, alex!". */
  lemma HelloAlex()
    ensures Hello([TextArg("alex")]) == Ok("hello, alex!")
  {
    assert "hello, " + "alex" + "!" == "hello, alex!";
  }

  /** `sqlite3_hello_init`: registers ("hello", 1) as a UTF-8, deterministic
      function bound to `Hello`, leaving every other registration alone. */
  function HelloInit(db: Registry): (r: Result<Registry>)
    ensures r.Ok?
    ensures ("hello", 1) in r.value.functions
    ensures r.value.functions[("hello", 1)] == FunctionDef({Utf8, Deterministic}, HelloImpl)
    ensures forall k :: k in db.functions && k != ("hello", 1) ==>
              k in r.value.functions && r.value.functions[k] == db.functions[k]
    ensures r.value.functions.Keys == db.functions.Keys + {("hello", 1)}
    ensures r.value.modules == db.modules
  {
    DefineScalarFunction(db, "hello", 1, HelloImpl, {Utf8, Deterministic})
  }
}
