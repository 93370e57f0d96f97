/**
 * The tool registry `TOOLS`: an ordered mapping (a Python dict keeps
 * insertion order) from tool name to the tool's JSON-Schema-shaped
 * definition and its handler.
 */
module Registry {
  import opened Python
  import opened Handlers

  /** The schema of one parameter; `enumValues` is present only where the schema lists an `enum`. */
  datatype ParameterSpec = ParameterSpec(typ: string, description: string, enumValues: Option<seq<string>>)

  datatype ParametersSchema = ParametersSchema(typ: string, properties: seq<(string, ParameterSpec)>, required: seq<string>)

  /** The `function` object of a definition. */
  datatype FunctionSpec = FunctionSpec(name: string, description: string, parameters: ParametersSchema)

  /** `{"type": "function", "function": {...}}`. */
  datatype ToolDefinition = ToolDefinition(typ: string, func: FunctionSpec)

  /** Which of the two handler functions an entry holds. */
  datatype HandlerKind = EvaluateArithmeticHandler | GetCurrentTimeHandler

  datatype ToolEntry = ToolEntry(definition: ToolDefinition, handler: HandlerKind)

  /** One key of the registry with its value, in insertion order. */
  datatype Registration = Registration(name: string, entry: ToolEntry)

  const ArithmeticDefinition: ToolDefinition :=
    ToolDefinition("function", FunctionSpec(
      "evaluate_arithmetic",
      "Evaluate a simple arithmetic expression provided as input. The expression should be numeric only and may contain +, -, *, /, parentheses, and '^' for exponentiation.",
      ParametersSchema("object",
        [("expression", ParameterSpec("string", "The arithmetic expression to evaluate", None))],
        ["expression"])))

  const TimeDefinition: ToolDefinition :=
    ToolDefinition("function", FunctionSpec(
      "get_current_time",
      "Get the current time, date, and timezone information",
      ParametersSchema("object",
        [("format", ParameterSpec("string", "Optional format for the time (default, 24h, 12h)", Some(["default", "24h", "12h"])))],
        [])))

  /** `LLMAgent.TOOLS`. */
  const Tools: seq<Registration> := [
    Registration("evaluate_arithmetic", ToolEntry(ArithmeticDefinition, EvaluateArithmeticHandler)),
    Registration("get_current_time", ToolEntry(TimeDefinition, GetCurrentTimeHandler))
  ]

  /** The keys, in order. */
  function Names(regs: seq<Registration>): (names: seq<string>)
    ensures |names| == |regs|
    ensures forall i :: 0 <= i < |regs| ==> names[i] == regs[i].name
  {
    if regs == [] then [] else [regs[0].name] + Names(regs[1..])
  }

  /** Keys of a dict are distinct. */
  predicate DistinctNames(regs: seq<Registration>) {
    forall i, j :: 0 <= i < j < |regs| ==> regs[i].name != regs[j].name
  }

  /** `TOOLS[name]`, or `None` where the subscript raises `KeyError`. */
  function Lookup(regs: seq<Registration>, name: string): (r: Option<ToolEntry>)
    ensures r.Some? <==> name in Names(regs)
    ensures r.Some? ==> exists i :: 0 <= i < |regs| && regs[i] == Registration(name, r.value)
  {
    if regs == [] then None
    else if regs[0].name == name then Some(regs[0].entry)
    else
      assert Names(regs) == [regs[0].name] + Names(regs[1..]);
      var r := Lookup(regs[1..], name);
      assert r.Some? ==> exists i :: 0 <= i < |regs[1..]| && regs[1..][i] == Registration(name, r.value);
      assert forall i :: 0 <= i < |regs[1..]| ==> regs[1..][i] == regs[i + 1];
      r
  }

  /** With distinct keys, looking up the `i`-th key yields the `i`-th value. */
  lemma {:induction false} LookupRegistered(regs: seq<Registration>, i: nat)
    requires DistinctNames(regs)
    requires i < |regs|
    ensures Lookup(regs, regs[i].name) == Some(regs[i].entry)
  {
    if i > 0 {
      assert regs[0].name != regs[i].name;
      assert DistinctNames(regs[1..]) by {
        forall a, b | 0 <= a < b < |regs[1..]| ensures regs[1..][a].name != regs[1..][b].name {
          assert regs[1..][a] == regs[a + 1] && regs[1..][b] == regs[b + 1];
        }
      }
      assert regs[1..][i - 1] == regs[i];
      LookupRegistered(regs[1..], i - 1);
    }
  }

  /** Every parameter a schema marks as required is one of its properties. */
  predicate RequiredAreProperties(p: ParametersSchema) {
    forall k :: k in p.required ==> exists j :: 0 <= j < |p.properties| && p.properties[j].0 == k
  }

  /**
   * The registry is a well-formed dict whose every definition is named by
   * its own key and has a consistent schema.
   */
  lemma ToolsWellFormed()
    ensures Names(Tools) == ["evaluate_arithmetic", "get_current_time"]
    ensures DistinctNames(Tools)
    ensures forall i :: 0 <= i < |Tools| ==> Tools[i].entry.definition.func.name == Tools[i].name
    ensures forall i :: 0 <= i < |Tools| ==> Tools[i].entry.definition.typ == "function"
    ensures forall i :: 0 <= i < |Tools| ==> RequiredAreProperties(Tools[i].entry.definition.func.parameters)
  {
    assert ArithmeticDefinition.func.parameters.properties[0].0 == "expression";
  }

  /**
   * Calls the handler an entry holds: `TOOLS[name]["handler"](arguments)`.
   * Only the arithmetic handler can raise, and then it raises what
   * `evaluate_arithmetic` raises.
   */
  function RunHandler<V>(kind: HandlerKind, args: Args, evaluator: string -> EvalOutcome<V>, clock: Clock): (r: Outcome<ToolResult<V>>)
    ensures kind == GetCurrentTimeHandler ==> r == Returned(GetCurrentTime(args, clock))
    ensures r.Raised? ==> kind == EvaluateArithmeticHandler && EvaluateArithmetic(args, evaluator) == Raised(r.exception)
    ensures kind == EvaluateArithmeticHandler && r.Returned? ==>
      EvaluateArithmetic(args, evaluator).Returned? && r.value == ArithmeticValue(EvaluateArithmetic(args, evaluator).value)
  {
    match kind
    case EvaluateArithmeticHandler =>
      (match EvaluateArithmetic(args, evaluator)
       case Returned(v) => Returned(ArithmeticValue(v))
       case Raised(e) => Raised(e))
    case GetCurrentTimeHandler =>
      Returned(GetCurrentTime(args, clock))
  }
}
