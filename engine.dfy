/** `AIEngine`: the user message becomes content blocks and is stored, the history is loaded,
    and the agentic loop runs against the model service for at most `MAX_ITERATIONS` calls.
    The service is a function from the turns so far to its response; tool dispatch is a
    function from (tool name, input) to the text the dispatcher's result renders as. */
module Engine {
  import opened Wrappers
  import opened Text
  import opened Values
  import opened History

  const MaxIterations: nat := 10

  const MaxIterationsReply: string :=
    "[Error] Maximum tool-use iterations reached. Please try a simpler request."

  /** The reply when the model gives no text. */
  const NoResponse: string := "(no response)"

  /** Appended to a reply cut off at the token limit. */
  const TruncatedMarker: string := "\n…[response truncated]"

  /** The `type` of a content block the loop neither reads as text nor dispatches. */
  type OtherBlockKind = k: string | k != "text" && k != "tool_use" witness "thinking"

  /** A `stop_reason` other than the three the loop names. */
  type OtherStopReason = s: string | s != "end_turn" && s != "tool_use" && s != "max_tokens"
    witness "stop_sequence"

  /** A content block of a model response. */
  datatype Block =
    | TextBlock(text: string)
    | ToolUse(id: string, name: string, input: Value)
    | OtherBlock(kind: OtherBlockKind)

  datatype StopReason = EndTurn | ToolUseStop | MaxTokens | OtherStop(reason: OtherStopReason)

  datatype Response = Response(stopReason: StopReason, content: seq<Block>)

  datatype ToolResult = ToolResult(toolUseId: string, content: string)

  /** An entry of the `messages` list the loop sends and extends. */
  datatype Turn =
    | HistoryTurn(message: Message)
    | AssistantTurn(content: seq<Block>)
    | ToolResultTurn(results: seq<ToolResult>)

  /** The model service: the turns so far give a response, or the exception the client call
      raises. */
  type Model = seq<Turn> -> Result<Response>

  /** `registry.dispatch`: a tool name and its input give the text `str(result)` renders, or
      the exception the dispatch raises. */
  type Dispatch = (string, Value) -> Result<string>

  /** `[block.text for block in resp.content if block.type == "text"]`. */
  function TextParts(blocks: seq<Block>): (r: seq<string>)
    ensures |r| <= |blocks|
    ensures forall k :: 0 <= k < |r| ==> TextBlock(r[k]) in blocks
  {
    if blocks == [] then []
    else
      var front := TextParts(blocks[..|blocks| - 1]);
      assert forall b :: b in blocks[..|blocks| - 1] ==> b in blocks;
      match blocks[|blocks| - 1]
      case TextBlock(t) => front + [t]
      case _ => front
  }

  /** Selection keeps block order: the text parts of `a + b` are those of `a`, then those of
      `b`. */
  lemma {:induction false} TextPartsAppend(a: seq<Block>, b: seq<Block>)
    ensures TextParts(a + b) == TextParts(a) + TextParts(b)
    decreases |b|
  {
    if b == [] {
      assert a + b == a;
    } else {
      assert (a + b)[..|a + b| - 1] == a + b[..|b| - 1];
      TextPartsAppend(a, b[..|b| - 1]);
    }
  }

  /** A single block contributes its text exactly when it is a text block. */
  lemma TextPartsOne(b: Block)
    ensures TextParts([b]) == if b.TextBlock? then [b.text] else []
  {
    assert [b][..0] == [];
  }

  /** The `tool_use` blocks, in block order. */
  function ToolUses(blocks: seq<Block>): (r: seq<Block>)
    ensures |r| <= |blocks|
    ensures forall k :: 0 <= k < |r| ==> r[k].ToolUse? && r[k] in blocks
  {
    if blocks == [] then []
    else
      var front := ToolUses(blocks[..|blocks| - 1]);
      var last := blocks[|blocks| - 1];
      assert forall b :: b in blocks[..|blocks| - 1] ==> b in blocks;
      if last.ToolUse? then front + [last] else front
  }

  /** Selection keeps block order: the tool uses of `a + b` are those of `a`, then those of `b`. */
  lemma {:induction false} ToolUsesAppend(a: seq<Block>, b: seq<Block>)
    ensures ToolUses(a + b) == ToolUses(a) + ToolUses(b)
    decreases |b|
  {
    if b == [] {
      assert a + b == a;
    } else {
      assert (a + b)[..|a + b| - 1] == a + b[..|b| - 1];
      ToolUsesAppend(a, b[..|b| - 1]);
    }
  }

  /** Blocks that are not `tool_use` produce no dispatch. */
  lemma {:induction false} NoToolUseNoDispatch(blocks: seq<Block>)
    requires forall k :: 0 <= k < |blocks| ==> !blocks[k].ToolUse?
    ensures ToolUses(blocks) == []
  {
    if blocks != [] {
      NoToolUseNoDispatch(blocks[..|blocks| - 1]);
    }
  }

  /** Whether the dispatch of the `k`-th tool use of `blocks` returns. */
  predicate Returns(dispatch: Dispatch, blocks: seq<Block>, k: int)
    requires 0 <= k < |ToolUses(blocks)|
  {
    var u := ToolUses(blocks)[k];
    dispatch(u.name, u.input).Success?
  }

  /** The tool loop of one response: one `tool_result` per `tool_use` block, in block order,
      carrying that block's id; the first dispatch that raises, in block order, ends it with
      that exception. */
  function ToolResults(dispatch: Dispatch, blocks: seq<Block>): (r: Result<seq<ToolResult>>)
    ensures r.Success? ==> |r.value| == |ToolUses(blocks)|
  {
    if blocks == [] then Success([])
    else
      var front := blocks[..|blocks| - 1];
      var last := blocks[|blocks| - 1];
      var rest := ToolResults(dispatch, front);
      if rest.Failure? then Failure(rest.error)
      else if !last.ToolUse? then rest
      else match dispatch(last.name, last.input)
        case Failure(e) => Failure(e)
        case Success(t) => Success(rest.value + [ToolResult(last.id, t)])
  }

  /** The tool loop succeeds exactly when every dispatch returns, and then the `k`-th result
      answers the `k`-th tool use with what its dispatch returned; otherwise its exception is
      that of the first dispatch, in block order, that raised. */
  lemma {:induction false} ToolResultsMeaning(dispatch: Dispatch, blocks: seq<Block>)
    ensures var r := ToolResults(dispatch, blocks);
      && (r.Success? <==> forall k :: 0 <= k < |ToolUses(blocks)| ==> Returns(dispatch, blocks, k))
      && (r.Success? ==> forall k :: 0 <= k < |r.value| ==>
            var u := ToolUses(blocks)[k];
            r.value[k].toolUseId == u.id && dispatch(u.name, u.input) == Success(r.value[k].content))
      && (r.Failure? ==> exists k ::
            && 0 <= k < |ToolUses(blocks)| && !Returns(dispatch, blocks, k)
            && (forall j :: 0 <= j < k ==> Returns(dispatch, blocks, j))
            && r.error == dispatch(ToolUses(blocks)[k].name, ToolUses(blocks)[k].input).error)
    decreases |blocks|
  {
    if blocks != [] {
      var front := blocks[..|blocks| - 1];
      var last := blocks[|blocks| - 1];
      ToolResultsMeaning(dispatch, front);
      var rest := ToolResults(dispatch, front);
      assert ToolUses(blocks) == if last.ToolUse? then ToolUses(front) + [last] else ToolUses(front);
      assert forall k :: 0 <= k < |ToolUses(front)| ==> Returns(dispatch, blocks, k) == Returns(dispatch, front, k);
      if rest.Success? && last.ToolUse? && dispatch(last.name, last.input).Failure? {
        assert !Returns(dispatch, blocks, |ToolUses(front)|);
      }
    }
  }

  /** A dispatch that raises ends the tool loop for every later block too. */
  lemma {:induction false} RaisedStaysRaised(dispatch: Dispatch, a: seq<Block>, b: seq<Block>)
    requires ToolResults(dispatch, a).Failure?
    ensures ToolResults(dispatch, a + b) == ToolResults(dispatch, a)
    decreases |b|
  {
    if b == [] {
      assert a + b == a;
    } else {
      assert (a + b)[..|a + b| - 1] == a + b[..|b| - 1];
      RaisedStaysRaised(dispatch, a, b[..|b| - 1]);
    }
  }

  lemma RaisedOnPrefix(dispatch: Dispatch, blocks: seq<Block>, n: nat)
    requires n <= |blocks| && ToolResults(dispatch, blocks[..n]).Failure?
    ensures ToolResults(dispatch, blocks) == ToolResults(dispatch, blocks[..n])
  {
    RaisedStaysRaised(dispatch, blocks[..n], blocks[n..]);
    assert blocks[..n] + blocks[n..] == blocks;
  }

  /** What one response does to the loop: a final reply, the two turns to append, or the
      exception a tool dispatch raised. */
  datatype StepOutcome = Reply(text: string) | Continue(turns: seq<Turn>) | Raised(error: string)

  function Step(dispatch: Dispatch, resp: Response): (o: StepOutcome)
    ensures resp.stopReason == ToolUseStop <==> !o.Reply?
    ensures o.Raised? <==> resp.stopReason == ToolUseStop && ToolResults(dispatch, resp.content).Failure?
    ensures o.Raised? ==> o.error == ToolResults(dispatch, resp.content).error
    ensures o.Continue? ==>
      o.turns == [AssistantTurn(resp.content), ToolResultTurn(ToolResults(dispatch, resp.content).value)]
    ensures resp.stopReason == EndTurn ==>
      o.text == if TextParts(resp.content) == [] then NoResponse else Join("\n", TextParts(resp.content))
    ensures resp.stopReason == MaxTokens ==>
      o.text == Join("\n", TextParts(resp.content)) + TruncatedMarker
    ensures resp.stopReason.OtherStop? ==>
      o.text == if Join("\n", TextParts(resp.content)) == "" then NoResponse else Join("\n", TextParts(resp.content))
  {
    var parts := TextParts(resp.content);
    match resp.stopReason
    case EndTurn => Reply(if parts == [] then NoResponse else Join("\n", parts))
    case ToolUseStop =>
      (match ToolResults(dispatch, resp.content)
       case Failure(e) => Raised(e)
       case Success(results) => Continue([AssistantTurn(resp.content), ToolResultTurn(results)]))
    case MaxTokens => Reply(Join("\n", parts) + TruncatedMarker)
    case OtherStop(_) =>
      var text := Join("\n", parts);
      Reply(if text == "" then NoResponse else text)
  }

  /** An `end_turn` whose only text block is empty replies with the empty string: the
      `NoResponse` fallback applies only when there is no text block at all. */
  lemma EmptyTextEndTurn(dispatch: Dispatch)
    ensures Step(dispatch, Response(EndTurn, [TextBlock("")])) == Reply("")
  {
    assert [TextBlock("")][..0] == [];
  }

  /** A response other than `tool_use` never replies with the empty string unless it is an
      `end_turn` with text blocks. */
  lemma ReplyNeverEmpty(dispatch: Dispatch, resp: Response)
    requires resp.stopReason != ToolUseStop
    requires resp.stopReason == EndTurn ==> TextParts(resp.content) == []
    ensures Step(dispatch, resp).text != ""
  {
  }

  /** The result of the loop: the reply, the number of model calls, the final turns, and
      whether the iteration budget ran out. */
  datatype RunResult = RunResult(reply: string, calls: nat, turns: seq<Turn>, exhausted: bool)

  /** A result of the loop continued after `n` earlier model calls. */
  function AfterCalls(r: Result<RunResult>, n: nat): Result<RunResult> {
    match r
    case Success(x) => Success(x.(calls := x.calls + n))
    case Failure(e) => Failure(e)
  }

  lemma AfterCallsTwice(r: Result<RunResult>, m: nat, n: nat)
    ensures AfterCalls(AfterCalls(r, m), n) == AfterCalls(r, m + n)
  {
  }

  /** The loop, with `budget` model calls left; an exception of the model service or of a tool
      dispatch ends it. */
  function Run(model: Model, dispatch: Dispatch, turns: seq<Turn>, budget: nat): (r: Result<RunResult>)
    ensures r.Success? ==> r.value.calls <= budget
    ensures r.Success? ==> |turns| <= |r.value.turns| && r.value.turns[..|turns|] == turns
    ensures r.Success? && r.value.exhausted ==>
      && r.value.calls == budget && r.value.reply == MaxIterationsReply
      && |r.value.turns| == |turns| + 2 * budget
    ensures r.Success? && !r.value.exhausted ==>
      1 <= r.value.calls && |r.value.turns| == |turns| + 2 * (r.value.calls - 1)
    ensures budget > 0 && model(turns).Failure? ==> r == Failure(model(turns).error)
    decreases budget
  {
    if budget == 0 then Success(RunResult(MaxIterationsReply, 0, turns, true))
    else
      match model(turns)
      case Failure(e) => Failure(e)
      case Success(resp) =>
        match Step(dispatch, resp)
        case Reply(text) => Success(RunResult(text, 1, turns, false))
        case Raised(e) => Failure(e)
        case Continue(next) =>
          var r := Run(model, dispatch, turns + next, budget - 1);
          if r.Failure? then r
          else
            assert r.value.turns[..|turns|] == (turns + next)[..|turns|];
            AfterCalls(r, 1)
  }

  /** One unfolding of the loop. */
  lemma RunStep(model: Model, dispatch: Dispatch, turns: seq<Turn>, budget: nat)
    requires budget > 0 && model(turns).Success?
    ensures var o := Step(dispatch, model(turns).value);
      && (o.Reply? ==> Run(model, dispatch, turns, budget) == Success(RunResult(o.text, 1, turns, false)))
      && (o.Raised? ==> Run(model, dispatch, turns, budget) == Failure(o.error))
      && (o.Continue? ==>
            Run(model, dispatch, turns, budget) == AfterCalls(Run(model, dispatch, turns + o.turns, budget - 1), 1))
  {
  }

  /** A model that always asks for tools, with tools that always return, exhausts the budget:
      every one of the calls is made and the fixed "maximum iterations" reply is returned. */
  lemma {:induction false} AlwaysToolUseExhausts(model: Model, dispatch: Dispatch, turns: seq<Turn>, budget: nat)
    requires forall ts: seq<Turn> :: model(ts).Success? && model(ts).value.stopReason == ToolUseStop
    requires forall name: string, input: Value :: dispatch(name, input).Success?
    ensures Run(model, dispatch, turns, budget).Success?
    ensures Run(model, dispatch, turns, budget).value.exhausted
    ensures Run(model, dispatch, turns, budget).value.calls == budget
    ensures Run(model, dispatch, turns, budget).value.reply == MaxIterationsReply
    decreases budget
  {
    if budget > 0 {
      var resp := model(turns).value;
      ToolResultsMeaning(dispatch, resp.content);
      assert ToolResults(dispatch, resp.content).Success?;
      var next := Step(dispatch, resp).turns;
      AlwaysToolUseExhausts(model, dispatch, turns + next, budget - 1);
    }
  }

  /** A first response that is not `tool_use` ends the loop after one call. */
  lemma FirstReplyEnds(model: Model, dispatch: Dispatch, turns: seq<Turn>, budget: nat)
    requires budget > 0 && model(turns).Success? && model(turns).value.stopReason != ToolUseStop
    ensures Run(model, dispatch, turns, budget)
         == Success(RunResult(Step(dispatch, model(turns).value).text, 1, turns, false))
  {
  }

  /** A tool that raises during the first `tool_use` round aborts the loop with its exception:
      no further model call is made and no reply is produced. */
  lemma RaisingToolAborts(model: Model, dispatch: Dispatch, turns: seq<Turn>, budget: nat, k: nat)
    requires budget > 0 && model(turns).Success? && model(turns).value.stopReason == ToolUseStop
    requires var blocks := model(turns).value.content;
      && k < |ToolUses(blocks)| && !Returns(dispatch, blocks, k)
      && forall j :: 0 <= j < k ==> Returns(dispatch, blocks, j)
    ensures var u := ToolUses(model(turns).value.content)[k];
      Run(model, dispatch, turns, budget) == Failure(dispatch(u.name, u.input).error)
  {
    var blocks := model(turns).value.content;
    var r := ToolResults(dispatch, blocks);
    ToolResultsMeaning(dispatch, blocks);
    if r.Success? {
      assert false;
    } else {
      var i :| 0 <= i < |ToolUses(blocks)| && !Returns(dispatch, blocks, i)
        && (forall j :: 0 <= j < i ==> Returns(dispatch, blocks, j))
        && r.error == dispatch(ToolUses(blocks)[i].name, ToolUses(blocks)[i].input).error;
      if i < k {
        assert false;
      } else if k < i {
        assert false;
      }
    }
  }

  /** The tool loop extended by one block. */
  lemma ToolResultsSnoc(dispatch: Dispatch, blocks: seq<Block>, i: nat)
    requires i < |blocks|
    ensures var rest := ToolResults(dispatch, blocks[..i]);
      var b := blocks[i];
      ToolResults(dispatch, blocks[..i + 1])
        == if rest.Failure? || !b.ToolUse? then rest
           else match dispatch(b.name, b.input)
             case Failure(e) => Failure(e)
             case Success(t) => Success(rest.value + [ToolResult(b.id, t)])
  {
    assert blocks[..i + 1][..i] == blocks[..i];
  }

  /** The tool loop of one `tool_use` response. */
  method CollectToolResults(dispatch: Dispatch, blocks: seq<Block>) returns (r: Result<seq<ToolResult>>)
    ensures r == ToolResults(dispatch, blocks)
  {
    var results := [];
    var i := 0;
    while i < |blocks|
      invariant 0 <= i <= |blocks|
      invariant ToolResults(dispatch, blocks[..i]) == Success(results)
    {
      var block := blocks[i];
      ToolResultsSnoc(dispatch, blocks, i);
      if !block.ToolUse? {
        i := i + 1;
        continue;
      }
      var result := dispatch(block.name, block.input);
      if result.Failure? {
        RaisedOnPrefix(dispatch, blocks, i + 1);
        return Failure(result.error);
      }
      results := results + [ToolResult(block.id, result.value)];
      i := i + 1;
    }
    assert blocks[..i] == blocks;
    r := Success(results);
  }

  /** `_run_api`: `get_registry()` raises before `init_tools` (here `registry` is that failure
      or the registry's dispatch), then the loop of at most `MAX_ITERATIONS` model calls.
      The result's `turns` is the message list as the caller holds it when the loop returns. */
  method RunApi(model: Model, registry: Result<Dispatch>, history: seq<Turn>)
    returns (r: Result<RunResult>)
    ensures registry.Failure? ==> r == Failure(registry.error)
    ensures registry.Success? ==> r == Run(model, registry.value, history, MaxIterations)
    ensures r.Success? ==> r.value.calls <= MaxIterations
  {
    if registry.Failure? {
      return Failure(registry.error);
    }
    var dispatch := registry.value;
    var turns := history;
    var iteration := 0;
    while iteration < MaxIterations
      invariant 0 <= iteration <= MaxIterations
      invariant Run(model, dispatch, history, MaxIterations)
             == AfterCalls(Run(model, dispatch, turns, MaxIterations - iteration), iteration)
    {
      ghost var left := Run(model, dispatch, turns, MaxIterations - iteration);
      var resp := model(turns);
      if resp.Failure? {
        assert left == Failure(resp.error);
        return Failure(resp.error);
      }
      var o := HandleResponse(dispatch, resp.value);
      RunStep(model, dispatch, turns, MaxIterations - iteration);
      if o.Reply? {
        assert left == Success(RunResult(o.text, 1, turns, false));
        return Success(RunResult(o.text, iteration + 1, turns, false));
      }
      if o.Raised? {
        assert left == Failure(o.error);
        return Failure(o.error);
      }
      AfterCallsTwice(Run(model, dispatch, turns + o.turns, MaxIterations - iteration - 1), 1, iteration);
      turns := turns + o.turns;
      iteration := iteration + 1;
    }
    r := Success(RunResult(MaxIterationsReply, MaxIterations, turns, true));
  }

  /** The body of one iteration of `_run_api`: a `tool_use` response gives the assistant turn
      and the tool results to append, or the exception of a dispatch; any other one gives the
      reply. */
  method HandleResponse(dispatch: Dispatch, resp: Response) returns (o: StepOutcome)
    ensures o == Step(dispatch, resp)
  {
    var parts := TextParts(resp.content);
    if resp.stopReason == EndTurn {
      return Reply(if parts != [] then Join("\n", parts) else NoResponse);
    }
    if resp.stopReason == ToolUseStop {
      var results := CollectToolResults(dispatch, resp.content);
      if results.Failure? {
        return Raised(results.error);
      }
      return Continue([AssistantTurn(resp.content), ToolResultTurn(results.value)]);
    }
    var text := Join("\n", parts);
    if resp.stopReason == MaxTokens {
      text := text + TruncatedMarker;
    }
    o := Reply(if text != "" then text else NoResponse);
  }

  /** `_estimate_tokens` of a string: a quarter of its length, but at least one. */
  function EstimateTokens(text: string): (n: nat)
    ensures n >= 1
    ensures |text| >= 4 ==> 4 * n <= |text| < 4 * n + 4
    ensures |text| < 4 ==> n == 1
  {
    if |text| / 4 > 1 then |text| / 4 else 1
  }

  function TextContent(text: string): Value {
    Dict([("type", Str("text")), ("text", Str(text))])
  }

  /** The `image` block of an attachment read as base64 `data`. */
  function ImageContent(mime: string, data: string): Value {
    Dict([("type", Str("image")),
          ("source", Dict([("type", Str("base64")), ("media_type", Str(mime)), ("data", Str(data))]))])
  }

  /** Whether `process` tries to attach the media as an image: a guessed `image/` type in API
      mode. */
  predicate IsImageAttachment(mime: Option<string>, apiMode: bool) {
    mime.Some? && StartsWith(mime.value, "image/") && apiMode
  }

  /** The user content blocks of `process`. `mime` is what `mimetypes.guess_type` gives for
      the media path, `apiMode` whether an API client exists, and `imageData` the base64 text
      of the file, or None when reading it raised. */
  function UserContent(text: string, mediaPath: Option<string>, mime: Option<string>,
                       apiMode: bool, imageData: Option<string>): (r: seq<Value>)
    ensures 1 <= |r| <= 2
    ensures |r| == 2 <==> text != "" && mediaPath.Some? && mediaPath.value != ""
    ensures text != "" ==> r[0] == TextContent(text)
    ensures text == "" && (mediaPath.None? || mediaPath.value == "") ==> r == [TextContent("(empty message)")]
    ensures mediaPath.Some? && mediaPath.value != "" && IsImageAttachment(mime, apiMode) && imageData.Some? ==>
      r[|r| - 1] == ImageContent(mime.value, imageData.value)
    ensures mediaPath.Some? && mediaPath.value != "" && !(IsImageAttachment(mime, apiMode) && imageData.Some?) ==>
      r[|r| - 1] == TextContent("[Attached file: " + mediaPath.value + "]")
  {
    var first := if text != "" then [TextContent(text)] else [];
    var media :=
      if mediaPath.None? || mediaPath.value == "" then []
      else if IsImageAttachment(mime, apiMode) then
        match imageData
        case Some(data) => [ImageContent(mime.value, data)]
        case None => [TextContent("[Attached file: " + mediaPath.value + "]")]
      else [TextContent("[Attached file: " + mediaPath.value + "]")];
    var content := first + media;
    if content == [] then [TextContent("(empty message)")] else content
  }

  /** The CLI back end (`_run_cli`) is a parameter: the turns and the text give the reply.
      `_run_cli` catches every exception and turns it into a reply, so it always answers. */
  type Cli = (seq<Turn>, string) -> string

  function HistoryTurns(messages: seq<Message>): (r: seq<Turn>)
    ensures |r| == |messages| && forall k :: 0 <= k < |r| ==> r[k] == HistoryTurn(messages[k])
  {
    seq(|messages|, k requires 0 <= k < |messages| => HistoryTurn(messages[k]))
  }

  /** What answers the loaded conversation: the agentic loop in API mode (whose exceptions
      propagate), the CLI otherwise. */
  function Answer(model: Model, registry: Result<Dispatch>, cli: Cli, apiMode: bool,
                  loaded: seq<Turn>, text: string): (r: Result<string>)
    ensures !apiMode ==> r == Success(cli(loaded, text))
    ensures apiMode && registry.Failure? ==> r == Failure(registry.error)
    ensures apiMode && registry.Success? ==>
      var run := Run(model, registry.value, loaded, MaxIterations);
      (r.Success? <==> run.Success?) && (r.Success? ==> r.value == run.value.reply)
  {
    if !apiMode then Success(cli(loaded, text))
    else match registry
      case Failure(e) => Failure(e)
      case Success(dispatch) =>
        match Run(model, dispatch, loaded, MaxIterations)
        case Failure(e) => Failure(e)
        case Success(run) => Success(run.reply)
  }

  /** The exception `load(conv_id, sender_id, channel, summarize_fn=...)` raises: keyword
      arguments are bound before the positional count is checked. */
  const LoadArityError: string :=
    "TypeError: ConversationHistory.load() got an unexpected keyword argument 'summarize_fn'"

  /** `process` as written: it stores the user message and then calls `load` with a
      `summarize_fn` keyword and two extra positional arguments that `load` does not take,
      which raises TypeError; no reply is produced or stored. */
  method ProcessAsWritten(h: ConversationHistory, convId: string, text: string, mediaPath: Option<string>,
                          mime: Option<string>, apiMode: bool, imageData: Option<string>, now: real)
    returns (r: Result<string>)
    modifies h
    ensures r == Failure(LoadArityError)
    ensures h.conversations == old(h.conversations)
    ensures h.messages == old(h.messages) + [StoredMessage(convId, "user",
      List(UserContent(text, mediaPath, mime, apiMode, imageData)), EstimateTokens(text), now)]
  {
    var content := UserContent(text, mediaPath, mime, apiMode, imageData);
    h.Append(convId, "user", List(content), EstimateTokens(text), now);
    r := Failure(LoadArityError);
  }

  /** `process` with `load(conv_id)`: the user message is stored before the model runs and
      the reply after, and the reply is the loop's over the loaded history. An exception of
      the registry, the model service or a tool propagates: only the user message is then
      stored. */
  method Process(h: ConversationHistory, model: Model, registry: Result<Dispatch>, cli: Cli,
                 convId: string, text: string, mediaPath: Option<string>, mime: Option<string>,
                 apiMode: bool, imageData: Option<string>, now: real, later: real)
    returns (r: Result<string>)
    modifies h
    ensures h.conversations == old(h.conversations)
    ensures var user := StoredMessage(convId, "user",
                          List(UserContent(text, mediaPath, mime, apiMode, imageData)), EstimateTokens(text), now);
      var loaded := HistoryTurns(Untagged(Truncated(ConversationRows(old(h.messages) + [user], convId),
                                                    h.tokenBudget, h.keepRecent)));
      && r == Answer(model, registry, cli, apiMode, loaded, text)
      && (r.Failure? ==> h.messages == old(h.messages) + [user])
      && (r.Success? ==> h.messages == old(h.messages) + [user,
            StoredMessage(convId, "assistant", StoredContent(Str(r.value)), EstimateTokens(r.value), later)])
  {
    var content := UserContent(text, mediaPath, mime, apiMode, imageData);
    h.Append(convId, "user", List(content), EstimateTokens(text), now);
    var loaded := h.Load(convId);
    var answer := Respond(model, registry, cli, apiMode, HistoryTurns(loaded), text);
    if answer.Failure? {
      return answer;
    }
    h.Append(convId, "assistant", Str(answer.value), EstimateTokens(answer.value), later);
    AppendTwice(old(h.messages), h.messages[|old(h.messages)|], h.messages[|old(h.messages)| + 1]);
    r := answer;
  }

  lemma AppendTwice(rows: seq<StoredMessage>, a: StoredMessage, b: StoredMessage)
    ensures rows + [a] + [b] == rows + [a, b]
  {
  }

  /** The part of `process` between `load` and the second `append`: the loop in API mode,
      the CLI otherwise. */
  method Respond(model: Model, registry: Result<Dispatch>, cli: Cli, apiMode: bool,
                 turns: seq<Turn>, text: string) returns (r: Result<string>)
    ensures r == Answer(model, registry, cli, apiMode, turns, text)
  {
    if apiMode {
      var run := RunApi(model, registry, turns);
      if run.Failure? {
        return Failure(run.error);
      }
      return Success(run.value.reply);
    }
    return Success(cli(turns, text));
  }
}
