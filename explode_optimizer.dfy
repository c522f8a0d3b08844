/**
 * The compiler's optimiser for calls to `explode`: from the argument list of
 * the call it either declines, raises a compiler error, or emits a call to
 * `zephir_fast_explode_str` (literal delimiter) or `zephir_fast_explode`.
 *
 * The compilation context is reduced to what the decision reads: whether the
 * result symbol is usable, whether it must be initialised, its C code and
 * its name. Resolving an argument to C code and escaping a literal
 * (`add_slashes`) are taken as given functions.
 */
module ExplodeOptimizer {
  import opened Wrappers

  /** One argument of the call as the parser delivers it: its type tag and literal value. */
  datatype Param = Param(tag: string, value: string)

  /** What the compilation context says about the symbol receiving the result. */
  datatype CallSite = CallSite(
    symbolIsNotVariableAndString: bool,
    mustInitSymbolVariable: bool,
    symbolCode: string,
    symbolRealName: string)

  /** The limit argument of the emitted C call. */
  datatype Limit = LongMax | LiteralLimit(text: string) | RuntimeLimit(code: string)

  /** The emitted C call; for the string form the delimiter is the escaped literal. */
  datatype ExplodeCall =
    | FastExplodeStr(delimiter: string, subject: string, limit: Limit)
    | FastExplode(delimiter: string, subject: string, limit: Limit)

  datatype CompiledExpression = CompiledExpression(kind: string, code: string)

  /** The three ways the optimiser can end. */
  datatype Outcome =
    | Declined
    | CompileError(message: string)
    | Emit(
        call: ExplodeCall,
        line: string,                // the C statement written to the code printer
        headers: seq<string>,        // headers registered, in order
        dynamicTypes: string,        // dynamic type given to the result symbol
        initVariant: bool,           // whether the result symbol was initialised
        result: CompiledExpression)

  const TooFewParameters := "'explode' require two parameter"
  const NotVariant := "Returned values by functions can only be assigned to variant variables"

  // ---------------------------------------------------------------------
  // The decision, argument by argument
  // ---------------------------------------------------------------------

  /**
   * Where the limit comes from, by number of arguments: none with two; with
   * three, the third as a literal when it is an int literal and as code
   * otherwise; with more, the fourth after a literal delimiter and the third
   * otherwise.
   */
  function ChooseLimit(ps: seq<Param>, resolve: Param -> string): Limit
    requires |ps| >= 2
  {
    if |ps| == 2 then LongMax
    else if |ps| == 3 then
      (if ps[2].tag == "int" then LiteralLimit(ps[2].value) else RuntimeLimit(resolve(ps[2])))
    else if ps[0].tag == "string" then RuntimeLimit(resolve(ps[3]))
    else RuntimeLimit(resolve(ps[2]))
  }

  /** A literal delimiter selects the string form; otherwise all of it is code. */
  function ChooseCall(ps: seq<Param>, resolve: Param -> string, addSlashes: string -> string): ExplodeCall
    requires |ps| >= 2
  {
    var limit := ChooseLimit(ps, resolve);
    if ps[0].tag == "string" then FastExplodeStr(addSlashes(ps[0].value), resolve(ps[1]), limit)
    else FastExplode(resolve(ps[0]), resolve(ps[1]), limit)
  }

  function LimitCode(l: Limit): string
  {
    match l
    case LongMax => "LONG_MAX"
    case LiteralLimit(t) => t + " "
    case RuntimeLimit(c) => "zephir_get_intval(" + c + ") "
  }

  /** The C statement printed for `call`, writing into `symbol`. */
  function CallLine(call: ExplodeCall, symbol: string): string
  {
    match call
    case FastExplodeStr(d, s, l) =>
      "zephir_fast_explode_str(" + symbol + ", SL(\"" + d + "\"), " + s + ", " + LimitCode(l) + " TSRMLS_CC);"
    case FastExplode(d, s, l) =>
      "zephir_fast_explode(" + symbol + ", " + d + ", " + s + ", " + LimitCode(l) + " TSRMLS_CC);"
  }

  /**
   * The outcome of optimising `explode(parameters)`, where `parameters` is
   * None when the call has no parameter list.
   */
  function Decide(
    parameters: Option<seq<Param>>, site: CallSite,
    resolve: Param -> string, addSlashes: string -> string): (r: Outcome)
    ensures parameters.None? <==> r == Declined
    ensures parameters.Some? && |parameters.value| < 2 <==> r == CompileError(TooFewParameters)
    ensures r == CompileError(NotVariant) <==>
      parameters.Some? && |parameters.value| >= 2 && site.symbolIsNotVariableAndString
    ensures r.Emit? <==>
      parameters.Some? && |parameters.value| >= 2 && !site.symbolIsNotVariableAndString
    ensures r.Emit? ==> (r.call.FastExplodeStr? <==> parameters.value[0].tag == "string")
    ensures r.Emit? ==>
      r.call.delimiter ==
        (if parameters.value[0].tag == "string" then addSlashes(parameters.value[0].value)
         else resolve(parameters.value[0]))
    ensures r.Emit? ==> r.call.subject == resolve(parameters.value[1])
    ensures r.Emit? ==> r.line == CallLine(r.call, site.symbolCode)
    ensures r.Emit? ==> |r.headers| > 0 && r.headers[|r.headers| - 1] == "kernel/string"
    ensures r.Emit? ==> ("kernel/operators" in r.headers <==> r.call.limit.RuntimeLimit?)
    ensures r.Emit? ==> r.dynamicTypes == "array" && r.initVariant == site.mustInitSymbolVariable
    ensures r.Emit? ==> r.result == CompiledExpression("variable", site.symbolRealName)
  {
    match parameters
    case None => Declined
    case Some(ps) =>
      if |ps| < 2 then CompileError(TooFewParameters)
      else if site.symbolIsNotVariableAndString then CompileError(NotVariant)
      else
        var call := ChooseCall(ps, resolve, addSlashes);
        Emit(call, CallLine(call, site.symbolCode),
             (if call.limit.RuntimeLimit? then ["kernel/operators"] else []) + ["kernel/string"],
             "array", site.mustInitSymbolVariable,
             CompiledExpression("variable", site.symbolRealName))
  }

  /**
   * The limit is explode's own third argument whenever the call has exactly
   * three: a literal int is inlined, anything else is converted at run time.
   */
  lemma ThirdArgumentIsLimit(ps: seq<Param>, site: CallSite, resolve: Param -> string, addSlashes: string -> string)
    requires |ps| == 3 && !site.symbolIsNotVariableAndString
    ensures Decide(Some(ps), site, resolve, addSlashes).call.limit ==
      if ps[2].tag == "int" then LiteralLimit(ps[2].value) else RuntimeLimit(resolve(ps[2]))
  {
  }

  /** Without a third argument the limit is LONG_MAX and no operators header is needed. */
  lemma TwoArgumentsUseLongMax(ps: seq<Param>, site: CallSite, resolve: Param -> string, addSlashes: string -> string)
    requires |ps| == 2 && !site.symbolIsNotVariableAndString
    ensures Decide(Some(ps), site, resolve, addSlashes).call.limit == LongMax
    ensures Decide(Some(ps), site, resolve, addSlashes).headers == ["kernel/string"]
  {
  }

  // ---------------------------------------------------------------------
  // The optimiser as the compiler runs it
  // ---------------------------------------------------------------------

  /** The entries of a PHP list with unset slots, in order and re-indexed from 0. */
  function Present(slots: seq<Option<Param>>): seq<Param>
  {
    if slots == [] then []
    else (if slots[0].Some? then [slots[0].value] else []) + Present(slots[1..])
  }

  /** A parameter is among the entries exactly when some slot still holds it. */
  lemma {:induction false} PresentMembers(slots: seq<Option<Param>>, p: Param)
    ensures p in Present(slots) <==> Some(p) in slots
  {
    if slots != [] {
      PresentMembers(slots[1..], p);
      assert slots == [slots[0]] + slots[1..];
    }
  }

  /** A list whose every slot is set, one per parameter. */
  function Slots(ps: seq<Param>): seq<Option<Param>>
  {
    seq(|ps|, k requires 0 <= k < |ps| => Some(ps[k]))
  }

  /** A list with no slot unset holds exactly the parameters. */
  lemma {:induction false} PresentSlots(ps: seq<Param>)
    ensures Present(Slots(ps)) == ps
  {
    if ps != [] {
      assert Slots(ps)[1..] == Slots(ps[1..]);
      PresentSlots(ps[1..]);
    }
  }

  /** Unsetting the first slot drops the first parameter. */
  lemma PresentUnsetFirst(ps: seq<Param>)
    requires |ps| >= 1
    ensures Present(Slots(ps)[0 := None]) == ps[1..]
  {
    assert Slots(ps)[0 := None][1..] == Slots(ps[1..]);
    PresentSlots(ps[1..]);
  }

  /** The entries of a three-slot list. */
  lemma PresentOfThree(a: Option<Param>, b: Option<Param>, c: Option<Param>)
    ensures Present([a, b, c]) ==
      (if a.Some? then [a.value] else []) + (if b.Some? then [b.value] else []) + (if c.Some? then [c.value] else [])
  {
    var ha, hb, hc := if a.Some? then [a.value] else [], if b.Some? then [b.value] else [], if c.Some? then [c.value] else [];
    assert [a, b, c][1..] == [b, c];
    assert [b, c][1..] == [c];
    assert [c][1..] == [];
    assert Present([c]) == hc + Present([]) == hc;
    assert Present([b, c]) == hb + hc;
  }

  /** `getReadOnlyResolvedParams`: each remaining parameter resolved to C code. */
  function ResolveAll(ps: seq<Param>, resolve: Param -> string): seq<string>
  {
    seq(|ps|, k requires 0 <= k < |ps| => resolve(ps[k]))
  }

  /**
   * The parameters that reach resolution: a literal int limit of a
   * three-argument call and a literal string delimiter are consumed first.
   */
  function Remaining(ps: seq<Param>): (r: seq<Param>)
    requires |ps| >= 2
  {
    var kept := if |ps| == 3 && ps[2].tag == "int" then ps[..2] else ps;
    if ps[0].tag == "string" then kept[1..] else kept
  }

  /**
   * The "process limit" and literal-delimiter steps of `optimize`: the
   * parameter list is a PHP list whose slots are unset as literals are
   * consumed; the index of a run-time limit among the resolved parameters
   * drops to 1 when the delimiter was consumed and two parameters remain.
   */
  method ConsumeLiterals(ps: seq<Param>, addSlashes: string -> string)
    returns (parameters: seq<Option<Param>>, limit: Limit, str: Option<string>, limitOffset: nat)
    requires |ps| >= 2
    ensures Present(parameters) == Remaining(ps)
    ensures limit == if |ps| == 3 && ps[2].tag == "int" then LiteralLimit(ps[2].value) else LongMax
    ensures str == if ps[0].tag == "string" then Some(addSlashes(ps[0].value)) else None
    ensures limitOffset == if ps[0].tag == "string" && |Remaining(ps)| == 2 then 1 else 2
  {
    parameters := Slots(ps);
    PresentSlots(ps);
    ghost var literalLimit := |ps| == 3 && ps[2].tag == "int";
    limit := LongMax;
    limitOffset := 2;
    if |Present(parameters)| == 3 && parameters[2].value.tag == "int" {
      limit := LiteralLimit(parameters[2].value.value);
      parameters := parameters[2 := None];
      assert parameters == [Some(ps[0]), Some(ps[1]), None];
      PresentOfThree(Some(ps[0]), Some(ps[1]), None);
    }

    str := None;
    if parameters[0].value.tag == "string" {
      str := Some(addSlashes(parameters[0].value.value));
      parameters := parameters[0 := None];
      if literalLimit {
        assert parameters == [None, Some(ps[1]), None];
        PresentOfThree(None, Some(ps[1]), None);
      } else {
        PresentUnsetFirst(ps);
      }
      if |Present(parameters)| == 2 {
        limitOffset := 1;
      }
    }
  }

  /**
   * The compiler's index arithmetic agrees with the table: a run-time limit
   * is the remaining parameter at `limitOffset` whenever that index exists,
   * and otherwise the limit found while consuming literals stands.
   */
  lemma LimitOffsetAgrees(ps: seq<Param>, resolve: Param -> string)
    requires |ps| >= 2
    ensures var rest := Remaining(ps);
      var limitOffset := if ps[0].tag == "string" && |rest| == 2 then 1 else 2;
      ChooseLimit(ps, resolve) ==
        if limitOffset < |rest| then RuntimeLimit(resolve(rest[limitOffset]))
        else if |ps| == 3 && ps[2].tag == "int" then LiteralLimit(ps[2].value)
        else LongMax
  {
  }

  /**
   * `ExplodeOptimizer::optimize` as the compiler runs it: argument checks,
   * literal consumption, resolution of the rest, the run-time limit when its
   * index exists, header registration and the printed C call.
   */
  method Optimize(
    expression: Option<seq<Param>>, site: CallSite,
    resolve: Param -> string, addSlashes: string -> string) returns (r: Outcome)
    ensures r == Decide(expression, site, resolve, addSlashes)
  {
    if expression.None? {
      return Declined;
    }
    var ps := expression.value;
    if |ps| < 2 {
      return CompileError(TooFewParameters);
    }
    if site.symbolIsNotVariableAndString {
      return CompileError(NotVariant);
    }

    var parameters, limit, str, limitOffset := ConsumeLiterals(ps, addSlashes);
    var resolvedParams := ResolveAll(Present(parameters), resolve);

    var headers: seq<string> := [];
    if limitOffset < |resolvedParams| {
      headers := headers + ["kernel/operators"];
      limit := RuntimeLimit(resolvedParams[limitOffset]);
    }
    headers := headers + ["kernel/string"];
    LimitOffsetAgrees(ps, resolve);

    var symbol := site.symbolCode;
    var call: ExplodeCall;
    var line: string;
    if str.Some? {
      call := FastExplodeStr(str.value, resolvedParams[0], limit);
      line := "zephir_fast_explode_str(" + symbol + ", SL(\"" + str.value + "\"), "
        + resolvedParams[0] + ", " + LimitCode(limit) + " TSRMLS_CC);";
      assert line == CallLine(call, symbol);
    } else {
      call := FastExplode(resolvedParams[0], resolvedParams[1], limit);
      line := "zephir_fast_explode(" + symbol + ", " + resolvedParams[0] + ", "
        + resolvedParams[1] + ", " + LimitCode(limit) + " TSRMLS_CC);";
      assert line == CallLine(call, symbol);
    }
    assert call == ChooseCall(ps, resolve, addSlashes);
    r := Emit(call, line, headers, "array", site.mustInitSymbolVariable,
              CompiledExpression("variable", site.symbolRealName));
  }
}
