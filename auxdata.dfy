/** The `check_auxdata` scalar function over a per-context auxdata store,
    and its entry point (tests/test_auxdata.rs). */
module AuxdataCheck {
  import opened Extension

  /** An owned auxdata payload, tagged with its type so that a read at the
      wrong type is a miss rather than a reinterpretation. */
  datatype AuxPayload = TextPayload(text: string) | OtherPayload(typeTag: nat)

  /** One evaluation context of one function-call node: the auxdata slots
      visible to that node and the result cell it writes. The engine gives
      every call node its own context, nested calls included. */
  class InvocationContext {
    var aux: map<Int32, AuxPayload>
    var result: Option<SqlResult>

    /** A context the engine has just set up: no slot filled, nothing written. */
    constructor ()
      ensures aux == map[] && result == None
    {
      aux := map[];
      result := None;
    }

    /** `auxdata_get::<String>(context, slot)`: a hit exactly when the slot
        holds a text payload, and then that payload; an empty slot or a
        payload of another type is a miss. */
    function AuxGetText(slot: Int32): (r: Option<string>)
      reads this
      ensures r.Some? <==> slot in aux && aux[slot].TextPayload?
      ensures r.Some? ==> aux[slot] == TextPayload(r.value)
    {
      if slot in aux && aux[slot].TextPayload? then Some(aux[slot].text) else None
    }

    /** `auxdata_set(context, slot, payload)`: installs the payload in the
        slot, replacing whatever was there; other slots and the result cell
        are untouched. */
    method AuxSet(slot: Int32, payload: AuxPayload)
      modifies this
      ensures aux == old(aux)[slot := payload]
      ensures result == old(result)
    {
      aux := aux[slot := payload];
    }

    /** `result_text(context, text)`: writes the text into the result cell. */
    method ResultText(text: string)
      modifies this
      ensures result == Some(TextResult(text))
      ensures aux == old(aux)
    {
      result := Some(TextResult(text));
    }
  }

  /** The text `check_auxdata` writes: the label, '=', then the value. */
  function LabelValue(labelText: string, value: string): (r: string)
    ensures |r| == |labelText| + 1 + |value|
    ensures r[..|labelText|] == labelText && r[|labelText|] == '=' && r[|labelText| + 1..] == value
  {
    labelText + "=" + value
  }

  /** A label without '=' is recovered from the written text together with
      the value, so the outer text of a nested call splits into the outer
      label and the inner call's whole result. */
  lemma SplitLabelValue(labelText: string, value: string)
    requires '=' !in labelText
    ensures SplitAtFirst(LabelValue(labelText, value), '=') == Some((labelText, value))
  {
    SplitAtFirstFinds(LabelValue(labelText, value), '=', labelText, value);
  }

  /** `check_auxdata(context, values)`: reads a label and a value as text,
      asserts that slot 1 misses, caches the value in slot 1, reads it back
      (a hit equal to the value) and writes "label=value". Both arguments
      must be present and convert to text and slot 1 must miss on entry:
      otherwise the fixture's `unwrap`s or `assert!` panic. */
  method CheckAuxdata(ctx: InvocationContext, values: seq<EngineValue>) returns (r: Result<()>)
    requires |values| >= 2 && values[0].text.Ok? && values[1].text.Ok?
    requires ctx.AuxGetText(1) == None
    modifies ctx
    ensures r.Ok?
    ensures ctx.aux == old(ctx.aux)[1 := TextPayload(values[1].text.value)]
    ensures ctx.AuxGetText(1) == Some(values[1].text.value)
    ensures ctx.result == Some(TextResult(LabelValue(values[0].text.value, values[1].text.value)))
  {
    var labelText := values[0].text.value;
    var value := values[1].text.value;
    var miss := ctx.AuxGetText(1);
    assert miss == None;
    ctx.AuxSet(1, TextPayload(value));
    var entry := ctx.AuxGetText(1);
    assert entry == Some(value);
    ctx.ResultText(LabelValue(labelText, value));
    r := Ok(());
  }

  /** `select check_auxdata(?1, check_auxdata(?2, ?3))`: the engine gives
      each call node a fresh context and evaluates the inner call first,
      passing the text it wrote as the outer call's value. The inner call
      fills slot 1 of its own context only, so the outer call's miss
      assertion still holds and the result is "outer=inner=value". */
  method SelectNested(outerLabel: string, innerLabel: string, value: string) returns (r: string)
    ensures r == outerLabel + "=" + innerLabel + "=" + value
  {
    var inner := new InvocationContext();
    var outer := new InvocationContext();
    var _ := CheckAuxdata(inner, [TextArg(innerLabel), TextArg(value)]);
    var innerText := inner.result.value.text;
    var _ := CheckAuxdata(outer, [TextArg(outerLabel), TextArg(innerText)]);
    r := outer.result.value.text;
  }

  /** What a second evaluation in the SAME context would see: slot 1 now
      hits with the cached value, so `check_auxdata`'s miss assertion could
      not hold there. This is why every call node needs its own context. */
  method SameContextHits(labelText: string, value: string) returns (second: Option<string>)
    ensures second == Some(value)
  {
    var ctx := new InvocationContext();
    var _ := CheckAuxdata(ctx, [TextArg(labelText), TextArg(value)]);
    second := ctx.AuxGetText(1);
  }

  /** `sqlite3_test_auxdata_init`: registers ("check_auxdata", 2) as a UTF-8
      function bound to `CheckAuxdata`, leaving every other registration alone. */
  function AuxdataInit(db: Registry): (r: Result<Registry>)
    ensures r.Ok?
    ensures ("check_auxdata", 2) in r.value.functions
    ensures r.value.functions[("check_auxdata", 2)] == FunctionDef({Utf8}, CheckAuxdataImpl)
    ensures forall k :: k in db.functions && k != ("check_auxdata", 2) ==>
              k in r.value.functions && r.value.functions[k] == db.functions[k]
    ensures r.value.functions.Keys == db.functions.Keys + {("check_auxdata", 2)}
    ensures r.value.modules == db.modules
  {
    DefineScalarFunction(db, "check_auxdata", 2, CheckAuxdataImpl, {Utf8})
  }
}
