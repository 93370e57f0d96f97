/**
 * The two tool handlers. `evaluate_arithmetic` rewrites every caret into
 * Python's power operator and hands the text to an evaluator, which stays
 * abstract; every failure of the evaluator becomes a `ValueError`.
 * `get_current_time` reports a reading of the host clock.
 */
module Handlers {
  import opened Python

  /** A value in a tool call's argument mapping, as decoded from JSON. */
  datatype ArgValue = Str(s: string) | NonString(typeName: string)

  /** The argument mapping of a tool call. */
  type Args = map<string, ArgValue>

  /** What the evaluator does with a text: it yields a value or fails with a reason. */
  datatype EvalOutcome<V> = Evaluated(value: V) | EvalFailed(reason: string)

  /** A reading of the host clock, already formatted as `%H:%M:%S` and `%Y-%m-%d`. */
  datatype Clock = Clock(time: string, date: string, tzname: Option<string>)

  /** What a handler returns. */
  datatype ToolResult<V> =
    | ArithmeticValue(value: V)
    | TimeInfo(currentTime: string, currentDate: string, timezone: string)

  const EvalErrorPrefix: string := "Error evaluating expression: "

  /** The number of carets in `s`. */
  function CountCarets(s: string): nat {
    if s == [] then 0 else (if s[0] == '^' then 1 else 0) + CountCarets(s[1..])
  }

  /** `s.replace('^', '**')`. */
  function ReplaceCaret(s: string): (r: string)
    ensures '^' !in r
    ensures |r| == |s| + CountCarets(s)
    ensures CountCarets(s) == 0 ==> r == s
  {
    if s == [] then []
    else (if s[0] == '^' then "**" else [s[0]]) + ReplaceCaret(s[1..])
  }

  lemma {:induction false} CountCaretsAppend(a: string, b: string)
    ensures CountCarets(a + b) == CountCarets(a) + CountCarets(b)
  {
    if a != [] {
      assert (a + b)[1..] == a[1..] + b;
      CountCaretsAppend(a[1..], b);
    } else {
      assert a + b == b;
    }
  }

  /** The rewrite works character by character: it distributes over concatenation. */
  lemma {:induction false} ReplaceCaretAppend(a: string, b: string)
    ensures ReplaceCaret(a + b) == ReplaceCaret(a) + ReplaceCaret(b)
  {
    if a == [] {
      assert a + b == b;
    } else {
      assert (a + b)[0] == a[0];
      assert (a + b)[1..] == a[1..] + b;
      ReplaceCaretAppend(a[1..], b);
    }
  }

  /**
   * Every character keeps its order: the character at index `i` of `s` lands
   * at index `i + (carets before it)` of the result, unchanged unless it is a
   * caret, which becomes `**` there.
   */
  lemma ReplaceCaretAt(s: string, i: nat)
    requires i < |s|
    ensures var r, p := ReplaceCaret(s), i + CountCarets(s[..i]);
      if s[i] == '^' then p + 1 < |r| && r[p] == '*' && r[p + 1] == '*'
      else p < |r| && r[p] == s[i]
  {
    var pre, post := s[..i], s[i..];
    assert s == pre + post;
    ReplaceCaretAppend(pre, post);
    assert post[0] == s[i];
    assert ReplaceCaret(post) == (if s[i] == '^' then "**" else [s[i]]) + ReplaceCaret(post[1..]);
    assert |ReplaceCaret(pre)| == i + CountCarets(pre);
  }

  /** `r.replace('**', '^')`, scanning left to right. */
  function RestoreCaret(r: string): string {
    if |r| >= 2 && r[0] == '*' && r[1] == '*' then "^" + RestoreCaret(r[2..])
    else if r == [] then []
    else [r[0]] + RestoreCaret(r[1..])
  }

  /** On text without `*`, turning `**` back into `^` undoes the rewrite. */
  lemma {:induction false} RestoreReplaceCaret(s: string)
    requires '*' !in s
    ensures RestoreCaret(ReplaceCaret(s)) == s
  {
    if s != [] {
      var rest := ReplaceCaret(s[1..]);
      assert '*' !in s[1..] by {
        forall i | 0 <= i < |s[1..]| ensures s[1..][i] != '*' { assert s[1..][i] == s[i + 1]; }
      }
      RestoreReplaceCaret(s[1..]);
      if s[0] == '^' {
        assert ReplaceCaret(s) == "**" + rest;
        assert ("**" + rest)[2..] == rest;
      } else {
        assert ReplaceCaret(s) == [s[0]] + rest;
        assert ([s[0]] + rest)[1..] == rest;
      }
    }
  }

  /**
   * `args.get("expression", "")`, followed by the call of `.replace` on it:
   * `None` when that value is not a string (the call then fails).
   */
  function Expression(args: Args): (e: Option<string>)
    ensures "expression" !in args ==> e == Some("")
    ensures "expression" in args ==> (e.Some? <==> args["expression"].Str?)
    ensures e.Some? && "expression" in args ==> args["expression"] == Str(e.value)
  {
    if "expression" !in args then Some("")
    else match args["expression"]
      case Str(s) => Some(s)
      case NonString(_) => None
  }

  /**
   * `evaluate_arithmetic(args)` with `eval` abstracted as `evaluator`. A
   * non-string `expression` makes `.replace` raise `AttributeError` before
   * the `try`; inside it every failure becomes a `ValueError`.
   */
  function EvaluateArithmetic<V>(args: Args, evaluator: string -> EvalOutcome<V>): (r: Outcome<V>)
    ensures Expression(args).None? ==> r.Raised? && r.exception.AttributeError?
    ensures Expression(args).Some? ==>
      var text := ReplaceCaret(Expression(args).value);
      && (r.Returned? <==> evaluator(text).Evaluated?)
      && (r.Returned? ==> r.value == evaluator(text).value)
      && (r.Raised? ==> r.exception == ValueError(EvalErrorPrefix + evaluator(text).reason))
  {
    match Expression(args)
    case None =>
      var typeName := args["expression"].typeName;
      Raised(AttributeError("'" + typeName + "' object has no attribute 'replace'"))
    case Some(expression) =>
      match evaluator(ReplaceCaret(expression))
      case Evaluated(v) => Returned(v)
      case EvalFailed(reason) => Raised(ValueError(EvalErrorPrefix + reason))
  }

  /** The handler raises nothing but `ValueError` and, for a non-string argument, `AttributeError`. */
  lemma EvaluateArithmeticRaises<V>(args: Args, evaluator: string -> EvalOutcome<V>)
    ensures var r := EvaluateArithmetic(args, evaluator);
      && (r.Raised? ==> (r.exception.ValueError? <==> Expression(args).Some?))
      && (r.Raised? ==> r.exception.ValueError? || r.exception.AttributeError?)
  {
  }

  /** A missing `expression` key evaluates the empty string. */
  lemma MissingExpressionEvaluatesEmpty<V>(args: Args, evaluator: string -> EvalOutcome<V>)
    requires "expression" !in args
    ensures EvaluateArithmetic(args, evaluator).Returned? <==> evaluator("").Evaluated?
  {
    assert ReplaceCaret("") == "";
  }

  /** `{"expression": "2^3"}` reaches the evaluator as `2**3`. */
  lemma CaretBecomesPower<V>(evaluator: string -> EvalOutcome<V>)
    ensures var r := EvaluateArithmetic(map["expression" := Str("2^3")], evaluator);
      && (r.Returned? <==> evaluator("2**3").Evaluated?)
      && (r.Returned? ==> r.value == evaluator("2**3").value)
  {
    assert ReplaceCaret("2^3") == "2**3" by {
      assert ReplaceCaret("3") == "3";
      assert ReplaceCaret("^3") == "**3";
    }
  }

  /** `get_current_time(args)`: the arguments are ignored; a missing or empty zone name reads "UTC". */
  function GetCurrentTime<V>(args: Args, clock: Clock): (r: ToolResult<V>)
    ensures r.TimeInfo? && r.currentTime == clock.time && r.currentDate == clock.date
    ensures r.timezone != ""
    ensures clock.tzname.Some? && clock.tzname.value != "" ==> r.timezone == clock.tzname.value
    ensures clock.tzname.None? || clock.tzname.value == "" ==> r.timezone == "UTC"
  {
    var zone := if clock.tzname.Some? && clock.tzname.value != "" then clock.tzname.value else "UTC";
    TimeInfo(clock.time, clock.date, zone)
  }
}
