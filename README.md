# Tool-calling agent: a Dafny model

This project models the deterministic core of the behaviour-cloning tool-calling agent in
`agent_behavior_cloning/llm_with_function_calling.py`. It has four parts:

- **`get_date_feedback`** (`date_feedback.dfy`, module `DateFeedback`). It validates a
  predicted date against the pattern `^\d{4}-\d{2}-\d{2}$` and compares it with today's
  `%Y-%m-%d` string, which is passed in. The regular expression is modelled as a list of
  fixed-count pieces matched by `FullMatch`. That match is proved equal to a positional shape
  predicate. The function returns exactly one of the three message strings.
- **The two handlers** (`handlers.dfy`, module `Handlers`).
  - `evaluate_arithmetic` reads `args.get("expression", "")` and replaces every `^` by `**`
    (`ReplaceCaret`). It then hands the result to an abstract evaluator that stands in for
    `eval`. Every evaluator failure becomes `ValueError("Error evaluating expression: …")`.
  - A non-string `expression` is also covered: `.replace` raises `AttributeError`, which
    happens outside the `try`.
  - `get_current_time` reads a `Clock` value that is passed in. A missing or empty zone name
    falls back to `"UTC"`.
- **The registry** (`registry.dfy`, module `Registry`). `TOOLS` is an ordered sequence of
  key/entry pairs (a Python dict keeps insertion order). The entries hold the exact
  definition strings and the handler each one calls. `Lookup` is the `TOOLS[name]`
  subscript, with `None` standing for `KeyError`.
- **`LLMAgent`** (`agent.dfy`, module `Agent`). This is a class with the `model` field,
  `GetToolDefinitions`, and the `process_query` control flow as the method `ProcessQuery`.
  That method delegates its `for` loop to `WalkToolCalls` and the `try` block to
  `TryToolCall`.
  - The chat backend, the evaluator, the clock and `str()` of a tool result are oracles
    collected in a `Host` value. The clock is indexed by tool call: the handler of the
    `j`-th requested call reads `clock(j)`. Two identical `get_current_time` calls in one
    reply can therefore report different times and send different follow-ups.
  - Each method also returns a ghost trace of `Event`s: the chat requests it sent and the
    handlers it ran, in order.
  - Each method is proved equal to a specification function over `Trial` values. A `Trial`
    records what happened to one requested tool call: skipped, unknown tool, handler raised,
    or follow-up sent with its response. `ProcessQueryContract` then states the promised
    behaviour without the loop.

`python.dfy` (module `Python`) holds `Option`, the Python exceptions that matter here, and
`Outcome` (returned value or raised exception).

The model follows the code as written, including where it departs from what its docstring and comments suggest:

- When every requested tool call fails with `ValueError`, the loop falls through to
  `return message["content"]`. The answer is then the first reply's content
  (`WalkFallsBack`). This fall-through is not left undetermined.
- A tool name missing from `TOOLS` raises `KeyError` inside the `try`. `except ValueError`
  does not catch it, so it escapes `process_query` (`UnknownToolRaisesKeyError`). It is not
  converted into a skip.
- A `ValueError` raised by the follow-up chat call is inside the same `try`. It is
  swallowed, and the loop moves on to the next tool call.
- A handler that raises `ValueError` is followed by the next call's handler, so one query
  can run several handlers. At most one handler runs when the first call tried is decisive:
  its handler and follow-up finish without `ValueError`, or it raises any other exception.

## Model

| member | source | states |
|---|---|---|
| DateFeedback.GetDateFeedback | agent_behavior_cloning/llm_with_function_calling.py:17-29 | the format error is returned iff the input is not 4 digits, '-', 2 digits, '-', 2 digits; "Success!" iff well-shaped and equal to today; "Error: Wrong date." iff well-shaped and different; so exactly one message |
| DateFeedback.DatePatternMatchesShape | agent_behavior_cloning/llm_with_function_calling.py:18-20 | a full match of `^\d{4}-\d{2}-\d{2}$` holds iff the string has length 10, '-' at positions 4 and 7 and ASCII digits elsewhere |
| DateFeedback.NoCalendarCheck | agent_behavior_cloning/llm_with_function_calling.py:18-21 | "2024-13-99" passes the format check: no month or day range is checked |
| DateFeedback.SuccessIffToday | agent_behavior_cloning/llm_with_function_calling.py:23-29 | with a well-shaped today string, "Success!" is returned iff the prediction equals it |
| Handlers.ReplaceCaret | agent_behavior_cloning/llm_with_function_calling.py:54 | the rewritten string contains no '^', is longer by exactly the number of carets, and is unchanged when there is no caret |
| Handlers.ReplaceCaretAt | agent_behavior_cloning/llm_with_function_calling.py:54 | the character at position i lands at i plus the carets before it; a '^' becomes "**" there, any other character is kept, so order is preserved |
| Handlers.ReplaceCaretAppend | agent_behavior_cloning/llm_with_function_calling.py:54 | the rewrite is textual: it distributes over concatenation |
| Handlers.RestoreReplaceCaret | agent_behavior_cloning/llm_with_function_calling.py:54 | for text without '*', turning "**" back into '^' recovers the original: the rewrite loses nothing |
| Handlers.Expression | agent_behavior_cloning/llm_with_function_calling.py:53 | a missing key yields ""; a string value is returned as is; a non-string value gives none |
| Handlers.MissingExpressionEvaluatesEmpty | agent_behavior_cloning/llm_with_function_calling.py:53-57 | without the key, the handler succeeds iff the evaluator accepts the empty string |
| Handlers.CaretBecomesPower | agent_behavior_cloning/llm_with_function_calling.py:53-57 | `{"expression": "2^3"}` returns exactly what the evaluator gives for "2**3", and fails iff it fails |
| Handlers.EvaluateArithmetic | agent_behavior_cloning/llm_with_function_calling.py:45-59 | a non-string expression raises AttributeError; otherwise the evaluator sees the rewritten text, a success returns its value unchanged, and any failure raises ValueError with the "Error evaluating expression: " prefix and never a value |
| Handlers.EvaluateArithmeticRaises | agent_behavior_cloning/llm_with_function_calling.py:53-59 | the handler raises ValueError exactly when the expression is a string, and otherwise only AttributeError |
| Handlers.GetCurrentTime | agent_behavior_cloning/llm_with_function_calling.py:36-43 | returns the clock's time and date; the zone is the clock's non-empty name, else "UTC"; never empty; the arguments are ignored |
| Registry.Names | agent_behavior_cloning/llm_with_function_calling.py:62-105 | the keys of the registry, one per entry, in insertion order |
| Registry.Lookup | agent_behavior_cloning/llm_with_function_calling.py:168 | `TOOLS[name]` finds an entry iff the name is a key, and the entry found is one stored under that key |
| Registry.LookupRegistered | agent_behavior_cloning/llm_with_function_calling.py:168 | with distinct keys, looking up the i-th key yields the i-th entry |
| Registry.ToolsWellFormed | agent_behavior_cloning/llm_with_function_calling.py:62-105 | the keys are "evaluate_arithmetic" then "get_current_time", distinct; each definition has type "function", is named by its own key, and requires only declared parameters |
| Registry.RunHandler | agent_behavior_cloning/llm_with_function_calling.py:168 | the time handler returns exactly `get_current_time(arguments)` for the given clock reading; only the arithmetic handler raises, and it raises or returns exactly what `evaluate_arithmetic` does |
| Agent.LLMAgent.constructor | agent_behavior_cloning/llm_with_function_calling.py:107-115 | the agent keeps the model name it is given |
| Agent.LLMAgent.GetToolDefinitions | agent_behavior_cloning/llm_with_function_calling.py:117-119 | one definition per registry entry, in registry order; the i-th is `TOOLS[key_i]["definition"]` and its function name is the i-th key |
| Agent.LLMAgent.ProcessQuery | agent_behavior_cloning/llm_with_function_calling.py:143-189 | the answer and the trace of requests and handler runs are those of the specification `Answer` / `AnswerEvents` |
| Agent.LLMAgent.WalkToolCalls | agent_behavior_cloning/llm_with_function_calling.py:161-189 | the loop over the tool calls yields `Walk` of the calls' trials from the first, with the fall-through content, and exactly `WalkEvents` |
| Agent.LLMAgent.TryToolCall | agent_behavior_cloning/llm_with_function_calling.py:167-183 | the `try` block's result and events are those of the call's trial |
| Agent.Trials | agent_behavior_cloning/llm_with_function_calling.py:161 | one trial per requested tool call |
| Agent.TrialsAt | agent_behavior_cloning/llm_with_function_calling.py:161-183 | trial j is the `try` block applied to the j-th tool call, in backend order |
| Agent.SkippedTrial | agent_behavior_cloning/llm_with_function_calling.py:162 | a tool call without a "function" entry is skipped and cannot decide the answer |
| Agent.TriedThenWalk | agent_behavior_cloning/llm_with_function_calling.py:161-186 | while no call before i was decisive, the events so far followed by the rest of the walk are the whole walk's events, and the answer is unchanged |
| Agent.WalkStopsAtFirstDecisive | agent_behavior_cloning/llm_with_function_calling.py:167-183 | the first call whose handler and follow-up finish without ValueError decides the answer, and exactly the calls up to it have been tried: no later handler runs |
| Agent.WalkFallsBack | agent_behavior_cloning/llm_with_function_calling.py:185-189 | when every call is skipped or raises ValueError, all have been tried and the answer is the first reply's content |
| Agent.WalkRaisesNoValueError | agent_behavior_cloning/llm_with_function_calling.py:185-186 | a ValueError never escapes the loop |
| Agent.TrialEventsShape | agent_behavior_cloning/llm_with_function_calling.py:167-179 | trying one call sends only a follow-up [user(query), first reply, tool(name, …)] with no tools, the agent's model and temperature 0.7, and runs a handler only for that call's registered function |
| Agent.TriedEventsShape | agent_behavior_cloning/llm_with_function_calling.py:161-179 | every request sent while walking the tool calls is a follow-up [user(query), first reply, tool(…)] with no tools, the agent's model and temperature 0.7, and every handler run is a registered tool requested by one of the calls tried so far |
| Agent.UnknownToolRaisesKeyError | agent_behavior_cloning/llm_with_function_calling.py:168 | a tool name outside the registry raises KeyError, which decides the answer (it escapes) before any handler runs |
| Agent.TimeToolReachesFollowUp | agent_behavior_cloning/llm_with_function_calling.py:168-179 | the trial of the j-th call, when it names `get_current_time`, always runs the handler and sends its follow-up carrying the stringified time read for that call |
| Agent.ArithmeticToolReachesFollowUp | agent_behavior_cloning/llm_with_function_calling.py:168-179 | an arithmetic call whose evaluation succeeds sends its follow-up with the stringified value |
| Agent.ArithmeticFailureIsSkipped | agent_behavior_cloning/llm_with_function_calling.py:168-186 | an arithmetic call whose evaluation fails raises the prefixed ValueError and is skipped |
| Agent.ProcessQueryContract | agent_behavior_cloning/llm_with_function_calling.py:143-189 | a failing first chat call escapes after one request; an empty tool-call list gives the content verbatim after exactly one chat call; otherwise the first decisive call decides, after exactly the calls up to it, and with none decisive the first content is returned after all were tried; a ValueError escapes only from the first chat call |

## Left out

- `ollama.chat` is an oracle: a total function from request to reply-or-exception, the `chat` field of `Host`. The backend's nondeterminism, transport and the response's wire format are not modelled.
- `eval` with empty builtins is the abstract `evaluator`. Its numeric semantics, float division and sandboxing are not modelled.
- `datetime.now()`, `strftime` and `tzname()` are not modelled. Today's date string is a parameter of `GetDateFeedback`, and the time handler reads a `Clock` value. Each tool call's handler gets its own reading, `clock(j)`. The readings are arbitrary: nothing says that later readings are later times. Within one handler run, the three separate clock reads are treated as one.
- `str(tool_result)` is the abstract `show` oracle. Python's repr rules are not modelled.
- The `@trace.model` / `@bundle(trainable=True)` decorators and the `opto` imports belong to an external optimisation framework. They are not part of this model.
- The `print` logging, including the `except ValueError` message, is not modelled. Neither are the `test_tool_execution` driver, `__main__`, or the commented-out code (`execute_tool`, `_call_ollama`, the system message).
- DateFeedback.IsDigit: `\d` is modelled as the ASCII digits only. Python's regex also matches other Unicode decimal digits.
- Message content is a string. A `None` content from the backend is not modelled.
- `tool_calls` is a sequence, and a `None` list is the empty sequence (both are falsy in the source). A reply dict missing the `tool_calls` key would raise `KeyError` at line 158; that case is not modelled.
- Exceptions raised by `str()`, by `followup_response["message"]["content"]`, or by a malformed `tool_call["function"]` entry are not modelled. Non-`Exception` base exceptions such as `KeyboardInterrupt` are not modelled either.
- `evaluate_arithmetic` receives a dict of arguments. Arguments that are not a dict (where `args.get` itself would fail) are not modelled.
- Handlers.GetCurrentTime: the declared `format` argument is ignored, as in the source. Its result records the clock's strings rather than formatting them, so the `HH:MM:SS` / `YYYY-MM-DD` shapes are not stated.
