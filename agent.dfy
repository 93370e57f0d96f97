/**
 * `LLMAgent.process_query`: one chat call with the registry's tool
 * definitions, then, if the reply requests tool calls, a walk over them in
 * the backend's order. The first call whose handler and follow-up chat both
 * finish without `ValueError` decides the answer; a `ValueError` skips to the
 * next call, any other exception escapes, and when every call is skipped the
 * answer is the first reply's content.
 *
 * The chat backend, the evaluator, the clock and `str()` of a tool result are
 * oracles collected in a `Host`. The method also returns, as a ghost trace,
 * the chat requests it sends and the handlers it runs, in order.
 */
module Agent {
  import opened Python
  import opened Handlers
  import opened Registry

  datatype Role = User | Assistant | ToolRole

  /** The `function` entry of a tool call: the tool's name and its arguments. */
  datatype FunctionCall = FunctionCall(name: string, arguments: Args)

  /** A requested tool call; `call` is `None` where the entry has no `"function"` key. */
  datatype ToolCall = ToolCall(call: Option<FunctionCall>)

  /** A chat message; `name` is set on tool messages, `toolCalls` on assistant replies (empty for `None`). */
  datatype Message = Message(role: Role, content: string, name: Option<string>, toolCalls: seq<ToolCall>)

  /** The arguments of one `ollama.chat` call; `tools` is `None` for `tools=None`. */
  datatype ChatRequest = ChatRequest(model: string, messages: seq<Message>, tools: Option<seq<ToolDefinition>>, temperature: real)

  const Temperature: real := 0.7

  /**
   * The oracles: the chat backend, `eval`, the clock and `str()` of a tool
   * result. `clock(j)` is the clock as read when the handler of the `j`-th
   * requested tool call runs, so each handler run reads the clock afresh.
   */
  datatype Host<!V> = Host(
    chat: ChatRequest -> Outcome<Message>,
    evaluator: string -> EvalOutcome<V>,
    clock: nat -> Clock,
    show: ToolResult<V> -> string)

  /** What the agent does that the outside world can see. */
  datatype Event = ChatSent(request: ChatRequest) | HandlerRan(tool: string, arguments: Args)

  function UserMessage(query: string): Message {
    Message(User, query, None, [])
  }

  function ToolMessage(tool: string, content: string): Message {
    Message(ToolRole, content, Some(tool), [])
  }

  /** The first request: the user's query alone, with every tool definition. */
  function InitialRequest(model: string, query: string): ChatRequest {
    ChatRequest(model, [UserMessage(query)], Some(LLMAgent.GetToolDefinitions()), Temperature)
  }

  /** The follow-up request: query, the first reply and the tool's result, with no tools. */
  function FollowUpRequest(model: string, query: string, reply: Message, tool: string, result: string): ChatRequest {
    ChatRequest(model, [UserMessage(query), reply, ToolMessage(tool, result)], None, Temperature)
  }

  /**
   * What stays fixed while the tool calls of one query are tried: the tool
   * registry, the model, the user's query and the first reply.
   */
  datatype Round = Round(tools: seq<Registration>, model: string, query: string, reply: Message)

  /** What happened when one requested tool call was tried. */
  datatype Trial =
    | Skipped                                   // the entry has no "function": not tried
    | Unregistered(tool: string)                // `TOOLS[tool_name]` raised KeyError
    | HandlerRaised(tool: string, arguments: Args, error: Exception)
    | FollowUpSent(tool: string, arguments: Args, request: ChatRequest, response: Outcome<Message>)

  /**
   * The `try` block for one tool call: look the tool up, run its handler,
   * send the follow-up request.
   */
  function TrialOf<V>(r: Round, tc: ToolCall, now: Clock, host: Host<V>): Trial {
    match tc.call
    case None => Skipped
    case Some(f) =>
      match Lookup(r.tools, f.name)
      case None => Unregistered(f.name)
      case Some(entry) =>
        match RunHandler(entry.handler, f.arguments, host.evaluator, now)
        case Raised(e) => HandlerRaised(f.name, f.arguments, e)
        case Returned(result) =>
          var request := FollowUpRequest(r.model, r.query, r.reply, f.name, host.show(result));
          FollowUpSent(f.name, f.arguments, request, host.chat(request))
  }

  /** What the `try` block of a tried call yields: the follow-up reply's content, or the exception. */
  function TrialResult(t: Trial): Outcome<string>
    requires !t.Skipped?
  {
    match t
    case Unregistered(tool) => Raised(KeyError(tool))
    case HandlerRaised(_, _, e) => Raised(e)
    case FollowUpSent(_, _, _, response) =>
      match response
      case Raised(e) => Raised(e)
      case Returned(m) => Returned(m.content)
  }

  /** What a trial does that can be seen: the handler it runs and the request it sends. */
  function TrialEvents(t: Trial): seq<Event> {
    match t
    case Skipped => []
    case Unregistered(_) => []
    case HandlerRaised(tool, args, _) => [HandlerRan(tool, args)]
    case FollowUpSent(tool, args, request, _) => [HandlerRan(tool, args), ChatSent(request)]
  }

  /** A trial ends the loop unless the call was skipped or its `try` block raised `ValueError`. */
  predicate Decisive(t: Trial) {
    !t.Skipped? && !TrialResult(t).RaisedValueError()
  }

  /** The trials of all the reply's tool calls, in the backend's order. */
  function Trials<V>(r: Round, host: Host<V>): (ts: seq<Trial>)
    ensures |ts| == |r.reply.toolCalls|
  {
    TrialsUpTo(r, host, |r.reply.toolCalls|)
  }

  /** The trials of the first `n` tool calls. */
  function TrialsUpTo<V>(r: Round, host: Host<V>, n: nat): (ts: seq<Trial>)
    requires n <= |r.reply.toolCalls|
    ensures |ts| == n
  {
    if n == 0 then [] else TrialsUpTo(r, host, n - 1) + [TrialOf(r, r.reply.toolCalls[n - 1], host.clock(n - 1), host)]
  }

  lemma {:induction false} TrialsUpToAt<V>(r: Round, host: Host<V>, n: nat, j: nat)
    requires j < n <= |r.reply.toolCalls|
    ensures TrialsUpTo(r, host, n)[j] == TrialOf(r, r.reply.toolCalls[j], host.clock(j), host)
  {
    if j < n - 1 {
      TrialsUpToAt(r, host, n - 1, j);
    }
  }

  /** A tool call with no `"function"` entry is skipped. */
  lemma SkippedTrial<V>(r: Round, host: Host<V>, j: nat)
    requires j < |r.reply.toolCalls| && r.reply.toolCalls[j].call.None?
    ensures Trials(r, host)[j] == Skipped && !Decisive(Trials(r, host)[j])
  {
    TrialsAt(r, host, j);
  }

  /** Trial `j` is the `try` block run on the reply's tool call `j`. */
  lemma TrialsAt<V>(r: Round, host: Host<V>, j: nat)
    requires j < |r.reply.toolCalls|
    ensures Trials(r, host)[j] == TrialOf(r, r.reply.toolCalls[j], host.clock(j), host)
  {
    TrialsUpToAt(r, host, |r.reply.toolCalls|, j);
  }

  /**
   * The answer of the `for` loop from trial `i` on, followed by the
   * fall-through `return message["content"]` (`fallback`).
   */
  function Walk(ts: seq<Trial>, fallback: string, i: nat): Outcome<string>
    decreases |ts| - i
  {
    if i >= |ts| then Returned(fallback)
    else if Decisive(ts[i]) then TrialResult(ts[i])
    else Walk(ts, fallback, i + 1)
  }

  /** The events of the loop from trial `i` on. */
  function WalkEvents(ts: seq<Trial>, i: nat): seq<Event>
    decreases |ts| - i
  {
    if i >= |ts| then []
    else if Decisive(ts[i]) then TrialEvents(ts[i])
    else TrialEvents(ts[i]) + WalkEvents(ts, i + 1)
  }

  /** The events of the first `i` trials, in order. */
  function Tried(ts: seq<Trial>, i: nat): seq<Event>
    requires i <= |ts|
  {
    if i == 0 then [] else Tried(ts, i - 1) + TrialEvents(ts[i - 1])
  }

  /** The result of `process_query(query)`. */
  function Answer<V>(model: string, query: string, host: Host<V>): Outcome<string> {
    match host.chat(InitialRequest(model, query))
    case Raised(e) => Raised(e)
    case Returned(reply) =>
      if reply.toolCalls == [] then Returned(reply.content)
      else Walk(Trials(Round(Tools, model, query, reply), host), reply.content, 0)
  }

  /** The chat requests that `process_query(query)` sends and the handlers it runs, in order. */
  function AnswerEvents<V>(model: string, query: string, host: Host<V>): seq<Event> {
    [ChatSent(InitialRequest(model, query))] +
    match host.chat(InitialRequest(model, query))
    case Raised(_) => []
    case Returned(reply) =>
      if reply.toolCalls == [] then [] else WalkEvents(Trials(Round(Tools, model, query, reply), host), 0)
  }

  /** Trial `k` is the first decisive one. */
  predicate IsFirstDecisive(ts: seq<Trial>, k: int) {
    0 <= k < |ts| && Decisive(ts[k]) && forall j :: 0 <= j < k ==> !Decisive(ts[j])
  }

  /** While no trial before `i` was decisive, the loop's events are those tried so far followed by the rest of the walk. */
  lemma {:induction false} TriedThenWalk(ts: seq<Trial>, fallback: string, i: nat)
    requires i <= |ts|
    requires forall j :: 0 <= j < i ==> !Decisive(ts[j])
    ensures Tried(ts, i) + WalkEvents(ts, i) == WalkEvents(ts, 0)
    ensures Walk(ts, fallback, i) == Walk(ts, fallback, 0)
  {
    if i > 0 {
      TriedThenWalk(ts, fallback, i - 1);
      var a, b, c := Tried(ts, i - 1), TrialEvents(ts[i - 1]), WalkEvents(ts, i);
      assert WalkEvents(ts, i - 1) == b + c;
      assert (a + b) + c == a + (b + c);
    }
  }

  /** The first decisive trial decides the answer, and exactly the trials up to it have happened. */
  lemma WalkStopsAtFirstDecisive(ts: seq<Trial>, fallback: string, k: nat)
    requires IsFirstDecisive(ts, k)
    ensures Walk(ts, fallback, 0) == TrialResult(ts[k])
    ensures WalkEvents(ts, 0) == Tried(ts, k + 1)
  {
    TriedThenWalk(ts, fallback, k);
  }

  /** When no trial is decisive, every call was tried and the answer is the fallback. */
  lemma WalkFallsBack(ts: seq<Trial>, fallback: string)
    requires forall j :: 0 <= j < |ts| ==> !Decisive(ts[j])
    ensures Walk(ts, fallback, 0) == Returned(fallback)
    ensures WalkEvents(ts, 0) == Tried(ts, |ts|)
  {
    TriedThenWalk(ts, fallback, |ts|);
    assert Tried(ts, |ts|) + [] == Tried(ts, |ts|);
  }

  /** The walk never lets a `ValueError` escape. */
  lemma {:induction false} WalkRaisesNoValueError(ts: seq<Trial>, fallback: string, i: nat)
    ensures !Walk(ts, fallback, i).RaisedValueError()
    decreases |ts| - i
  {
    if i < |ts| && !Decisive(ts[i]) {
      WalkRaisesNoValueError(ts, fallback, i + 1);
    }
  }

  /** Each event of the first `i` trials comes from one of them. */
  lemma {:induction false} TriedFrom(ts: seq<Trial>, i: nat, e: Event)
    requires i <= |ts|
    requires e in Tried(ts, i)
    ensures exists j :: 0 <= j < i && e in TrialEvents(ts[j])
  {
    if e !in TrialEvents(ts[i - 1]) {
      TriedFrom(ts, i - 1, e);
    }
  }

  /**
   * Trying one call sends at most one request, a follow-up of the fixed
   * three-message shape with no tools, and runs a handler only for a call
   * that has a `"function"` entry naming a registered tool.
   */
  lemma TrialEventsShape<V>(r: Round, tc: ToolCall, now: Clock, host: Host<V>, e: Event)
    requires e in TrialEvents(TrialOf(r, tc, now, host))
    ensures e.ChatSent? ==>
      && e.request.tools == None
      && e.request.model == r.model
      && e.request.temperature == Temperature
      && |e.request.messages| == 3
      && e.request.messages[0] == UserMessage(r.query)
      && e.request.messages[1] == r.reply
      && e.request.messages[2].role == ToolRole
      && e.request.messages[2].name == Some(tc.call.value.name)
    ensures e.HandlerRan? ==> tc.call == Some(FunctionCall(e.tool, e.arguments)) && e.tool in Names(r.tools)
  {
  }

  /** Every request sent while trying tool calls is a follow-up with no tools, and every handler run is a registered one. */
  lemma TriedEventsShape<V>(r: Round, host: Host<V>, i: nat, e: Event)
    requires i <= |r.reply.toolCalls|
    requires e in Tried(Trials(r, host), i)
    ensures e.ChatSent? ==>
      && e.request.tools == None
      && e.request.model == r.model
      && e.request.temperature == Temperature
      && |e.request.messages| == 3
      && e.request.messages[0] == UserMessage(r.query)
      && e.request.messages[1] == r.reply
      && e.request.messages[2].role == ToolRole
    ensures e.HandlerRan? ==>
      && e.tool in Names(r.tools)
      && exists j :: 0 <= j < i && r.reply.toolCalls[j].call == Some(FunctionCall(e.tool, e.arguments))
  {
    var ts := Trials(r, host);
    TriedFrom(ts, i, e);
    var j :| 0 <= j < i && e in TrialEvents(ts[j]);
    TrialsAt(r, host, j);
    TrialEventsShape(r, r.reply.toolCalls[j], host.clock(j), host, e);
  }

  /** A tool name outside the registry ends the walk with `KeyError`, before any handler runs. */
  lemma UnknownToolRaisesKeyError<V>(r: Round, f: FunctionCall, now: Clock, host: Host<V>)
    requires f.name !in Names(r.tools)
    ensures TrialOf(r, ToolCall(Some(f)), now, host) == Unregistered(f.name)
    ensures Decisive(Unregistered(f.name)) && TrialResult(Unregistered(f.name)) == Raised(KeyError(f.name))
  {
  }

  /**
   * A `get_current_time` call always reaches its follow-up chat: its handler
   * cannot raise. The time it reports is the clock as read for that call.
   */
  lemma TimeToolReachesFollowUp<V>(r: Round, host: Host<V>, j: nat)
    requires r.tools == Tools
    requires j < |r.reply.toolCalls| && r.reply.toolCalls[j].call.Some?
    requires r.reply.toolCalls[j].call.value.name == "get_current_time"
    ensures var f := r.reply.toolCalls[j].call.value;
      var request := FollowUpRequest(r.model, r.query, r.reply, f.name, host.show(GetCurrentTime(f.arguments, host.clock(j))));
      Trials(r, host)[j] == FollowUpSent(f.name, f.arguments, request, host.chat(request))
  {
    TrialsAt(r, host, j);
    ToolsWellFormed();
    LookupRegistered(Tools, 1);
  }

  /**
   * An arithmetic call whose evaluation succeeds reaches its follow-up chat,
   * with the stringified value as the tool message.
   */
  lemma ArithmeticToolReachesFollowUp<V>(model: string, query: string, reply: Message, f: FunctionCall, now: Clock, host: Host<V>)
    requires f.name == "evaluate_arithmetic"
    requires Expression(f.arguments).Some? && host.evaluator(ReplaceCaret(Expression(f.arguments).value)).Evaluated?
    ensures var v := host.evaluator(ReplaceCaret(Expression(f.arguments).value)).value;
      var request := FollowUpRequest(model, query, reply, f.name, host.show(ArithmeticValue(v)));
      TrialOf(Round(Tools, model, query, reply), ToolCall(Some(f)), now, host) == FollowUpSent(f.name, f.arguments, request, host.chat(request))
  {
    ToolsWellFormed();
    LookupRegistered(Tools, 0);
  }

  /** An arithmetic call whose evaluation fails raises `ValueError` and is skipped. */
  lemma ArithmeticFailureIsSkipped<V>(model: string, query: string, reply: Message, f: FunctionCall, now: Clock, host: Host<V>)
    requires f.name == "evaluate_arithmetic"
    requires Expression(f.arguments).Some? && host.evaluator(ReplaceCaret(Expression(f.arguments).value)).EvalFailed?
    ensures var t := TrialOf(Round(Tools, model, query, reply), ToolCall(Some(f)), now, host);
      && t == HandlerRaised(f.name, f.arguments, ValueError(EvalErrorPrefix + host.evaluator(ReplaceCaret(Expression(f.arguments).value)).reason))
      && !Decisive(t)
  {
    ToolsWellFormed();
    LookupRegistered(Tools, 0);
  }

  /**
   * What `process_query` promises, stated without the loop: a failing first
   * chat call escapes; a direct answer costs one chat call and is returned
   * verbatim; otherwise the first decisive tool call decides, after exactly
   * the tool calls up to it were tried, and when none is decisive the answer
   * is the first reply's content after all were tried; a `ValueError`
   * escapes only from the first chat call.
   */
  lemma ProcessQueryContract<V>(model: string, query: string, host: Host<V>)
    ensures var first := host.chat(InitialRequest(model, query));
      && (first.Raised? ==> Answer(model, query, host) == Raised(first.exception) && |AnswerEvents(model, query, host)| == 1)
      && (first.Returned? && first.value.toolCalls == [] ==>
            Answer(model, query, host) == Returned(first.value.content) && |AnswerEvents(model, query, host)| == 1)
      && (first.Returned? ==>
            var ts := Trials(Round(Tools, model, query, first.value), host);
            && ((forall j :: 0 <= j < |ts| ==> !Decisive(ts[j])) ==>
                  && Answer(model, query, host) == Returned(first.value.content)
                  && AnswerEvents(model, query, host) == [ChatSent(InitialRequest(model, query))] + Tried(ts, |ts|))
            && (forall k :: IsFirstDecisive(ts, k) ==>
                  && Answer(model, query, host) == TrialResult(ts[k])
                  && AnswerEvents(model, query, host) == [ChatSent(InitialRequest(model, query))] + Tried(ts, k + 1)))
      && (Answer(model, query, host).RaisedValueError() ==> first.Raised?)
  {
    var first := host.chat(InitialRequest(model, query));
    if first.Returned? {
      var ts := Trials(Round(Tools, model, query, first.value), host);
      if ts != [] {
        WalkRaisesNoValueError(ts, first.value.content, 0);
        if forall j :: 0 <= j < |ts| ==> !Decisive(ts[j]) {
          WalkFallsBack(ts, first.value.content);
        }
        forall k | IsFirstDecisive(ts, k)
          ensures Answer(model, query, host) == TrialResult(ts[k])
          ensures AnswerEvents(model, query, host) == [ChatSent(InitialRequest(model, query))] + Tried(ts, k + 1)
        {
          WalkStopsAtFirstDecisive(ts, first.value.content, k);
        }
      }
    }
  }

  class LLMAgent {
    const model: string

    constructor (model: string)
      ensures this.model == model
    {
      this.model := model;
    }

    /** `get_tool_definitions()`: `[TOOLS[name]["definition"] for name in TOOLS]`. */
    static function GetToolDefinitions(): (defs: seq<ToolDefinition>)
      ensures |defs| == |Tools|
      ensures forall i :: 0 <= i < |defs| ==>
        Lookup(Tools, Tools[i].name).Some? && defs[i] == Lookup(Tools, Tools[i].name).value.definition
      ensures forall i :: 0 <= i < |defs| ==> defs[i].func.name == Names(Tools)[i]
    {
      ToolsWellFormed();
      forall i | 0 <= i < |Tools| ensures Lookup(Tools, Tools[i].name) == Some(Tools[i].entry) {
        LookupRegistered(Tools, i);
      }
      seq(|Tools|, i requires 0 <= i < |Tools| => Tools[i].entry.definition)
    }

    /**
     * `process_query(user_query)`: the first chat call, with every tool
     * definition. `events` lists, in order, the chat requests sent and the
     * handlers run; `ProcessQueryContract` states what `Answer` and
     * `AnswerEvents` mean.
     */
    method ProcessQuery<V>(userQuery: string, host: Host<V>) returns (answer: Outcome<string>, ghost events: seq<Event>)
      ensures answer == Answer(model, userQuery, host)
      ensures events == AnswerEvents(model, userQuery, host)
    {
      var tools := GetToolDefinitions();
      var messages := [UserMessage(userQuery)];
      var request := ChatRequest(model, messages, Some(tools), Temperature);
      assert request == InitialRequest(model, userQuery);
      events := [ChatSent(request)];
      var initialResponse := host.chat(request);
      if initialResponse.Raised? {
        return Raised(initialResponse.exception), events;
      }
      var message := initialResponse.value;
      if |message.toolCalls| > 0 {
        ghost var walkEvents;
        answer, walkEvents := WalkToolCalls(Tools, userQuery, message, host);
        events := events + walkEvents;
      } else {
        answer := Returned(message.content);
      }
    }

    /**
     * The `for` loop of `process_query` over the first reply's tool calls,
     * in the backend's order, and the fall-through to the reply's content.
     */
    method WalkToolCalls<V>(tools: seq<Registration>, userQuery: string, message: Message, host: Host<V>)
      returns (answer: Outcome<string>, ghost events: seq<Event>)
      ensures answer == Walk(Trials(Round(tools, model, userQuery, message), host), message.content, 0)
      ensures events == WalkEvents(Trials(Round(tools, model, userQuery, message), host), 0)
    {
      ghost var ts := Trials(Round(tools, model, userQuery, message), host);
      var toolCalls := message.toolCalls;
      events := [];
      var i := 0;
      while i < |toolCalls|
        invariant 0 <= i <= |toolCalls|
        invariant forall j :: 0 <= j < i ==> !Decisive(ts[j])
        invariant events == Tried(ts, i)
      {
        var toolCall := toolCalls[i];
        if toolCall.call.Some? {
          var outcome, attemptEvents := TryToolCall(tools, userQuery, message, toolCall.call.value, host, i);
          events := events + attemptEvents;
          // except ValueError: log and carry on; anything else leaves the loop
          if !outcome.RaisedValueError() {
            WalkStopsAtFirstDecisive(ts, message.content, i);
            return outcome, events;
          }
          assert !Decisive(ts[i]);
        } else {
          SkippedTrial(Round(tools, model, userQuery, message), host, i);
        }
        i := i + 1;
      }
      WalkFallsBack(ts, message.content);
      return Returned(message.content), events;
    }

    /**
     * The `try` block for one tool call: look the handler up, run it, build
     * the three-message follow-up conversation and send it with no tools.
     */
    method TryToolCall<V>(tools: seq<Registration>, userQuery: string, message: Message, f: FunctionCall, host: Host<V>, i: nat)
      returns (outcome: Outcome<string>, ghost events: seq<Event>)
      requires i < |message.toolCalls| && message.toolCalls[i].call == Some(f)
      ensures var t := Trials(Round(tools, model, userQuery, message), host)[i];
        !t.Skipped? && outcome == TrialResult(t)
      ensures events == TrialEvents(Trials(Round(tools, model, userQuery, message), host)[i])
    {
      TrialsAt(Round(tools, model, userQuery, message), host, i);
      var toolName, arguments := f.name, f.arguments;
      events := [];
      var entry := Lookup(tools, toolName);
      if entry.None? {
        return Raised(KeyError(toolName)), events;
      }
      events := events + [HandlerRan(toolName, arguments)];
      var toolResult := RunHandler(entry.value.handler, arguments, host.evaluator, host.clock(i));
      if toolResult.Raised? {
        return Raised(toolResult.exception), events;
      }
      var messages := [UserMessage(userQuery), message, ToolMessage(toolName, host.show(toolResult.value))];
      var followUp := ChatRequest(model, messages, None, Temperature);
      events := events + [ChatSent(followUp)];
      var followUpResponse := host.chat(followUp);
      if followUpResponse.Raised? {
        return Raised(followUpResponse.exception), events;
      }
      return Returned(followUpResponse.value.content), events;
    }
  }
}
