/**
 * The `Agent` of src/config/agent.py: model routing, the two backend
 * clients with the way they read a reply, the per-sub-question query with
 * optional web context, the three final checks and the final decision with
 * its fidelity guard. The HTTP exchanges themselves are function parameters
 * (`Backends`): a decoded JSON reply, or `Failure` when the request raised.
 */
module Agent {
  import opened Wrappers
  import opened Strings
  import opened Analyzer
  import opened WebSearch
  import Caching

  const Sonnet: string := "claude-3-5-sonnet-20240620"
  const Haiku: string := "claude-3-haiku-20240307"
  const Gpt35: string := "gpt-3.5-turbo"
  const Gpt4o: string := "gpt-4o"

  /** The models `multiple_final_checks` asks, in this order. */
  const FinalCheckModels: seq<string> := [Gpt4o, Sonnet, Gpt35]

  // ---------------------------------------------------------------------
  // model routing

  /**
   * `select_model`: the first matching rule wins. Every outcome is one of
   * four models; coding questions always go to Sonnet; Haiku is chosen
   * exactly for easy factual general questions; GPT-3.5 exactly for easy
   * factual or analytical non-expert ones that are not Haiku's; above 59
   * (and not one of those) it is always Sonnet, from 30 to 49 always GPT-4o.
   */
  function SelectModel(difficulty: int, questionType: QuestionType, expertise: Expertise, isCodingRelated: bool): (model: string)
    ensures model in {Sonnet, Haiku, Gpt35, Gpt4o}
    ensures isCodingRelated ==> model == Sonnet
    ensures model == Haiku <==>
      !isCodingRelated && difficulty < 15 && questionType == Factual && expertise == General
    ensures model == Gpt35 <==>
      !isCodingRelated && difficulty < 30 && (questionType == Factual || questionType == Analytical)
      && expertise != Expert && !(difficulty < 15 && questionType == Factual && expertise == General)
    ensures !isCodingRelated && difficulty >= 30 ==>
      (difficulty > 59 ==> model == Sonnet) && (difficulty < 50 ==> model == Gpt4o)
    ensures model == Sonnet <==>
      isCodingRelated
      || (model != Haiku && model != Gpt35
          && (difficulty > 59
              || (difficulty >= 50 && !(questionType == Analytical && expertise == Specialized)
                  && (questionType == Creative || expertise == Expert))))
  {
    if isCodingRelated then Sonnet
    else if difficulty < 15 && questionType == Factual && expertise == General then Haiku
    else if difficulty < 30 && (questionType == Factual || questionType == Analytical) && expertise != Expert then Gpt35
    else if difficulty > 59 then Sonnet
    else if difficulty < 50 || (questionType == Analytical && expertise == Specialized) then Gpt4o
    else if questionType == Creative || expertise == Expert then Sonnet
    else Gpt4o
  }

  /** `model.startswith("claude")`: the routing between the two backend clients. */
  predicate IsAnthropicModel(model: string)
  {
    StartsWith(model, "claude")
  }

  /** The two Claude models go to the Anthropic client and the two GPT models to the OpenAI client. */
  lemma SelectedModelProvider(difficulty: int, questionType: QuestionType, expertise: Expertise, isCodingRelated: bool)
    ensures var model := SelectModel(difficulty, questionType, expertise, isCodingRelated);
      IsAnthropicModel(model) <==> (model == Sonnet || model == Haiku)
  {
    assert Sonnet[..6] == "claude" && Haiku[..6] == "claude";
    assert Gpt35[0] != 'c' && Gpt4o[0] != 'c';
  }

  // ---------------------------------------------------------------------
  // requests and replies

  /** The fixed system prompts; their texts are not part of this model. */
  datatype SystemPrompt = QueryContextPrompt | FinalCheckPrompt | DecisionPrompt | VerificationPrompt

  /** A chat request: the system message and the one user message. */
  datatype Request = Request(system: SystemPrompt, user: string)

  /** A decoded Anthropic reply; `None` stands for a key the JSON object lacks. */
  datatype AnthropicReply = AnthropicReply(error: Option<ErrorBody>, content: Option<seq<ContentBlock>>)
  datatype ErrorBody = ErrorBody(message: Option<string>)
  datatype ContentBlock = ContentBlock(text: Option<string>)

  /** A decoded OpenAI chat-completions reply. */
  datatype OpenAIReply = OpenAIReply(choices: Option<seq<Choice>>)
  datatype Choice = Choice(message: Option<Message>)
  datatype Message = Message(content: Option<string>)

  /** Why a backend call raised. */
  datatype ApiError =
    | Transport(message: string)   // the HTTP exchange or JSON decoding raised
    | ErrorReply(message: string)  // the Anthropic reply carried an `error` object
    | MissingField(field: string)  // a key or index the client reads is absent

  /** The HTTP exchanges with each provider, given the model name and the request. */
  datatype Backends = Backends(
    anthropic: (string, Request) -> Result<AnthropicReply, string>,
    openai: (string, Request) -> Result<OpenAIReply, string>)

  /** The texts of all content blocks, when every block has one. */
  function BlockTexts(blocks: seq<ContentBlock>): (texts: Option<seq<string>>)
    ensures texts.Some? <==> forall k :: 0 <= k < |blocks| ==> blocks[k].text.Some?
    ensures texts.Some? ==> |texts.value| == |blocks| && forall k :: 0 <= k < |blocks| ==> texts.value[k] == blocks[k].text.value
  {
    if forall k :: 0 <= k < |blocks| ==> blocks[k].text.Some? then
      Some(seq(|blocks|, k requires 0 <= k < |blocks| => blocks[k].text.value))
    else None
  }

  /**
   * The reading of a reply in `query_anthropic`: an `error` object raises
   * its message, whatever else the reply holds; otherwise the texts of all
   * content blocks, in order, joined by single spaces.
   */
  function ReadAnthropicReply(reply: AnthropicReply): (r: Result<string, ApiError>)
    ensures reply.error.Some? ==> r.Failure?
    ensures reply.error.Some? && reply.error.value.message.Some? ==> r == Failure(ErrorReply(reply.error.value.message.value))
    ensures r.Success? <==>
      reply.error.None? && reply.content.Some? && forall k :: 0 <= k < |reply.content.value| ==> reply.content.value[k].text.Some?
    ensures r.Success? ==> r.value == Join(BlockTexts(reply.content.value).value, " ")
  {
    if reply.error.Some? then
      if reply.error.value.message.Some? then Failure(ErrorReply(reply.error.value.message.value))
      else Failure(MissingField("message"))
    else if reply.content.None? then Failure(MissingField("content"))
    else
      match BlockTexts(reply.content.value)
      case None => Failure(MissingField("text"))
      case Some(texts) => Success(Join(texts, " "))
  }

  /** A further content block adds a space and its text at the end of the answer. */
  lemma AnthropicBlockAppended(blocks: seq<ContentBlock>, text: string)
    requires |blocks| > 0
    requires ReadAnthropicReply(AnthropicReply(None, Some(blocks))).Success?
    ensures ReadAnthropicReply(AnthropicReply(None, Some(blocks + [ContentBlock(Some(text))]))) ==
      Success(ReadAnthropicReply(AnthropicReply(None, Some(blocks))).value + " " + text)
  {
    var texts := BlockTexts(blocks).value;
    var more := blocks + [ContentBlock(Some(text))];
    assert BlockTexts(more).value == texts + [text];
    JoinSnoc(texts, text, " ");
  }

  /** The reading of a reply in `query_openai`: the content of the first choice's message. */
  function ReadOpenAIReply(reply: OpenAIReply): (r: Result<string, ApiError>)
    ensures r.Success? <==>
      reply.choices.Some? && |reply.choices.value| > 0
      && reply.choices.value[0].message.Some? && reply.choices.value[0].message.value.content.Some?
    ensures r.Success? ==> r.value == reply.choices.value[0].message.value.content.value
  {
    if reply.choices.None? then Failure(MissingField("choices"))
    else if |reply.choices.value| == 0 then Failure(MissingField("choices[0]"))
    else if reply.choices.value[0].message.None? then Failure(MissingField("message"))
    else if reply.choices.value[0].message.value.content.None? then Failure(MissingField("content"))
    else Success(reply.choices.value[0].message.value.content.value)
  }

  /** Choices after the first are never read. */
  lemma OnlyFirstChoiceRead(first: Choice, rest: seq<Choice>)
    ensures ReadOpenAIReply(OpenAIReply(Some([first] + rest))) == ReadOpenAIReply(OpenAIReply(Some([first])))
  {
  }

  /** `query_anthropic`. */
  function QueryAnthropic(model: string, request: Request, backends: Backends): (r: Result<string, ApiError>)
    ensures backends.anthropic(model, request).Failure? ==> r == Failure(Transport(backends.anthropic(model, request).error))
    ensures backends.anthropic(model, request).Success? ==> r == ReadAnthropicReply(backends.anthropic(model, request).value)
  {
    match backends.anthropic(model, request)
    case Failure(e) => Failure(Transport(e))
    case Success(reply) => ReadAnthropicReply(reply)
  }

  /** `query_openai`. */
  function QueryOpenAI(model: string, request: Request, backends: Backends): (r: Result<string, ApiError>)
    ensures backends.openai(model, request).Failure? ==> r == Failure(Transport(backends.openai(model, request).error))
    ensures backends.openai(model, request).Success? ==> r == ReadOpenAIReply(backends.openai(model, request).value)
  {
    match backends.openai(model, request)
    case Failure(e) => Failure(Transport(e))
    case Success(reply) => ReadOpenAIReply(reply)
  }

  /** The dispatch `query_model_with_context` and `final_check` share: Claude models to Anthropic, all others to OpenAI. */
  function Query(model: string, request: Request, backends: Backends): (r: Result<string, ApiError>)
    ensures IsAnthropicModel(model) ==> r == QueryAnthropic(model, request, backends)
    ensures !IsAnthropicModel(model) ==> r == QueryOpenAI(model, request, backends)
  {
    if IsAnthropicModel(model) then QueryAnthropic(model, request, backends) else QueryOpenAI(model, request, backends)
  }

  // ---------------------------------------------------------------------
  // answering one sub-question

  const SearchFailedNote: string := "\n\nWeb Search Results: Unable to perform web search due to an error."

  /** The placeholder answer when the backend call for a sub-question raised. */
  function QueryFailed(model: string): string
  {
    "Error: Failed to query " + model
  }

  /** The user message for one sub-question, before and after the optional web context. */
  function QueryContext(fullQuery: string, subQuestion: string, needsWebSearch: bool,
                        search: (string, nat) -> Result<seq<SearchItem>, string>): string
  {
    var base := "Full Query Context: " + fullQuery + "\n\nSpecific Question to Answer: " + subQuestion;
    if !needsWebSearch then base
    else match search(subQuestion, DefaultNumResults)
      case Success(items) => base + "\n\nWeb Search Results:\n" + Strip(SummaryText(items, DefaultMaxChars))
      case Failure(_) => base + SearchFailedNote
  }

  /** Without the web-search flag the search backend is never consulted. */
  lemma NoSearchWithoutFlag(fullQuery: string, subQuestion: string,
                            search1: (string, nat) -> Result<seq<SearchItem>, string>,
                            search2: (string, nat) -> Result<seq<SearchItem>, string>)
    ensures QueryContext(fullQuery, subQuestion, false, search1) == QueryContext(fullQuery, subQuestion, false, search2)
    ensures QueryContext(fullQuery, subQuestion, false, search1) ==
      "Full Query Context: " + fullQuery + "\n\nSpecific Question to Answer: " + subQuestion
  {
  }

  /** A failed search does not fail the sub-question: the context then ends in a fixed note. */
  lemma FailedSearchNoted(fullQuery: string, subQuestion: string, search: (string, nat) -> Result<seq<SearchItem>, string>)
    requires search(subQuestion, DefaultNumResults).Failure?
    ensures var context := QueryContext(fullQuery, subQuestion, true, search);
      |context| >= |SearchFailedNote| && context[|context| - |SearchFailedNote|..] == SearchFailedNote
  {
  }

  /**
   * `query_model_with_context` (the function the two cache decorators
   * wrap): route by `select_model`, add the web context when the flag asks
   * for it, and query the routed backend. Every error is absorbed: the
   * answer is then the placeholder naming the model, and the model is
   * returned beside it either way.
   */
  method QueryModelWithContext(
    fullQuery: string, subQuestion: string, difficulty: int, questionType: QuestionType,
    expertise: Expertise, isCodingRelated: bool, needsWebSearch: bool,
    search: (string, nat) -> Result<seq<SearchItem>, string>, backends: Backends)
    returns (content: string, model: string)
    ensures model == SelectModel(difficulty, questionType, expertise, isCodingRelated)
    ensures (content, model) == QueryOutcome(fullQuery, subQuestion, difficulty, questionType, expertise,
                                             isCodingRelated, needsWebSearch, search, backends)
    ensures var reply := Query(model, Request(QueryContextPrompt, QueryContext(fullQuery, subQuestion, needsWebSearch, search)), backends);
      content == (if reply.Success? then reply.value else QueryFailed(model))
  {
    model := SelectModel(difficulty, questionType, expertise, isCodingRelated);
    var context := "Full Query Context: " + fullQuery + "\n\nSpecific Question to Answer: " + subQuestion;
    if needsWebSearch {
      var searchResults := WebSearchTool(subQuestion, search);
      if searchResults.Success? {
        context := context + "\n\nWeb Search Results:\n" + searchResults.value;
      } else {
        context := context + SearchFailedNote;
      }
    }
    var reply := Query(model, Request(QueryContextPrompt, context), backends);
    if reply.Success? {
      content := reply.value;
    } else {
      content := QueryFailed(model);
    }
  }

  // ---------------------------------------------------------------------
  // the cached query

  /** The name both cache decorators read from the wrapped coroutine. */
  const QueryFunctionName: string := "query_model_with_context"

  /** The `(content, model)` pair `query_model_with_context` returns. */
  function QueryOutcome(
    fullQuery: string, subQuestion: string, difficulty: int, questionType: QuestionType,
    expertise: Expertise, isCodingRelated: bool, needsWebSearch: bool,
    search: (string, nat) -> Result<seq<SearchItem>, string>, backends: Backends): (string, string)
  {
    var model := SelectModel(difficulty, questionType, expertise, isCodingRelated);
    var reply := Query(model, Request(QueryContextPrompt, QueryContext(fullQuery, subQuestion, needsWebSearch, search)), backends);
    (if reply.Success? then reply.value else QueryFailed(model), model)
  }

  /** A `QuestionType` member as an argument value; `AsQuestionType` reads it back. */
  function QuestionTypeValue(t: QuestionType): (v: Caching.Value)
    ensures AsQuestionType(v) == Some(t)
  {
    match t
    case Factual => Caching.EnumMember("QuestionType", "FACTUAL", 1)
    case Analytical => Caching.EnumMember("QuestionType", "ANALYTICAL", 2)
    case Creative => Caching.EnumMember("QuestionType", "CREATIVE", 3)
    case Technical => Caching.EnumMember("QuestionType", "TECHNICAL", 4)
  }

  function AsQuestionType(v: Caching.Value): Option<QuestionType>
  {
    if v == Caching.EnumMember("QuestionType", "FACTUAL", 1) then Some(Factual)
    else if v == Caching.EnumMember("QuestionType", "ANALYTICAL", 2) then Some(Analytical)
    else if v == Caching.EnumMember("QuestionType", "CREATIVE", 3) then Some(Creative)
    else if v == Caching.EnumMember("QuestionType", "TECHNICAL", 4) then Some(Technical)
    else None
  }

  /** An `Expertise` member as an argument value; `AsExpertise` reads it back. */
  function ExpertiseValue(e: Expertise): (v: Caching.Value)
    ensures AsExpertise(v) == Some(e)
  {
    match e
    case General => Caching.EnumMember("Expertise", "GENERAL", 1)
    case Specialized => Caching.EnumMember("Expertise", "SPECIALIZED", 2)
    case Expert => Caching.EnumMember("Expertise", "EXPERT", 3)
  }

  function AsExpertise(v: Caching.Value): Option<Expertise>
  {
    if v == Caching.EnumMember("Expertise", "GENERAL", 1) then Some(General)
    else if v == Caching.EnumMember("Expertise", "SPECIALIZED", 2) then Some(Specialized)
    else if v == Caching.EnumMember("Expertise", "EXPERT", 3) then Some(Expert)
    else None
  }

  /** The positional arguments of the call in src/main.py: the printed `Agent`, then the seven parameters. */
  function QueryArgs(
    agent: string, fullQuery: string, subQuestion: string, difficulty: int, questionType: QuestionType,
    expertise: Expertise, isCodingRelated: bool, needsWebSearch: bool): Caching.Args
  {
    [Caching.Object(agent), Caching.Str(fullQuery), Caching.Str(subQuestion), Caching.Int(difficulty),
     QuestionTypeValue(questionType), ExpertiseValue(expertise), Caching.Bool(isCodingRelated), Caching.Bool(needsWebSearch)]
  }

  /**
   * The decorated coroutine as the caches see it: for arguments of the
   * shape src/main.py passes it never raises and gives the `(content,
   * model)` tuple, placeholder answers included; any other shape raises.
   */
  function QueryCall(args: Caching.Args, kwargs: Caching.Kwargs,
                     search: (string, nat) -> Result<seq<SearchItem>, string>, backends: Backends): Result<Caching.Value, string>
  {
    if |args| == 8 && |kwargs| == 0 && args[1].Str? && args[2].Str? && args[3].Int?
       && AsQuestionType(args[4]).Some? && AsExpertise(args[5]).Some? && args[6].Bool? && args[7].Bool? then
      var answer := QueryOutcome(args[1].s, args[2].s, args[3].i, AsQuestionType(args[4]).value,
                                 AsExpertise(args[5]).value, args[6].b, args[7].b, search, backends);
      Success(Caching.Tuple([Caching.Str(answer.0), Caching.Str(answer.1)]))
    else Failure("TypeError")
  }

  function QueryBody(search: (string, nat) -> Result<seq<SearchItem>, string>, backends: Backends): Caching.Body
  {
    (args: Caching.Args, kwargs: Caching.Kwargs) => QueryCall(args, kwargs, search, backends)
  }

  /**
   * The same sub-question asked twice behind both caches: the first call
   * runs the query and stores whatever it returned, the "Error: Failed to
   * query" placeholder included, and the second is answered from the
   * persistent dictionary without running the query again.
   */
  method CachedQueryTwice(
    agent: string, fullQuery: string, subQuestion: string, difficulty: int, questionType: QuestionType,
    expertise: Expertise, isCodingRelated: bool, needsWebSearch: bool,
    search: (string, nat) -> Result<seq<SearchItem>, string>, backends: Backends)
    returns (first: Result<Caching.Value, string>, second: Result<Caching.Value, string>,
             stored: Option<Caching.Value>, runs: nat)
    ensures var answer := QueryOutcome(fullQuery, subQuestion, difficulty, questionType, expertise,
                                       isCodingRelated, needsWebSearch, search, backends);
      var v := Caching.Tuple([Caching.Str(answer.0), Caching.Str(answer.1)]);
      first == Success(v) && stored == Some(v) && second == Success(v) && runs == 1
    ensures var model := SelectModel(difficulty, questionType, expertise, isCodingRelated);
      Query(model, Request(QueryContextPrompt, QueryContext(fullQuery, subQuestion, needsWebSearch, search)), backends).Failure? ==>
      stored == Some(Caching.Tuple([Caching.Str(QueryFailed(model)), Caching.Str(model)]))
  {
    var args := QueryArgs(agent, fullQuery, subQuestion, difficulty, questionType, expertise, isCodingRelated, needsWebSearch);
    QueryCallOfArgs(agent, fullQuery, subQuestion, difficulty, questionType, expertise, isCodingRelated, needsWebSearch, search, backends);
    first, second, stored, runs := Caching.CallTwice(QueryFunctionName, args, [], QueryBody(search, backends));
  }

  /** The call shape of src/main.py reaches the query and returns its pair as a tuple. */
  lemma QueryCallOfArgs(
    agent: string, fullQuery: string, subQuestion: string, difficulty: int, questionType: QuestionType,
    expertise: Expertise, isCodingRelated: bool, needsWebSearch: bool,
    search: (string, nat) -> Result<seq<SearchItem>, string>, backends: Backends)
    ensures var answer := QueryOutcome(fullQuery, subQuestion, difficulty, questionType, expertise,
                                       isCodingRelated, needsWebSearch, search, backends);
      QueryBody(search, backends)(QueryArgs(agent, fullQuery, subQuestion, difficulty, questionType, expertise, isCodingRelated, needsWebSearch), [])
      == Success(Caching.Tuple([Caching.Str(answer.0), Caching.Str(answer.1)]))
  {
  }

  /**
   * A restarted program holds a new `Agent` with a new printed form, so the
   * saved answer for a sub-question is never found again: the query runs
   * once more although the file holds its answer.
   */
  method QueryAfterRestart(
    agentBefore: string, agentAfter: string, fullQuery: string, subQuestion: string, difficulty: int,
    questionType: QuestionType, expertise: Expertise, isCodingRelated: bool, needsWebSearch: bool,
    search: (string, nat) -> Result<seq<SearchItem>, string>, backends: Backends)
    returns (before: Result<Caching.Value, string>, after: Result<Caching.Value, string>, runsAfterRestart: nat)
    requires agentBefore != agentAfter
    ensures before.Success? && after == before
    ensures runsAfterRestart == 1
  {
    var args := QueryArgs(agentBefore, fullQuery, subQuestion, difficulty, questionType, expertise, isCodingRelated, needsWebSearch);
    var args' := QueryArgs(agentAfter, fullQuery, subQuestion, difficulty, questionType, expertise, isCodingRelated, needsWebSearch);
    assert args == [Caching.Object(agentBefore)] + args[1..] && args' == [Caching.Object(agentAfter)] + args[1..];
    Caching.KeysOfDistinctSelves(QueryFunctionName, agentBefore, agentAfter, args[1..], []);
    QueryCallOfArgs(agentBefore, fullQuery, subQuestion, difficulty, questionType, expertise, isCodingRelated, needsWebSearch, search, backends);
    QueryCallOfArgs(agentAfter, fullQuery, subQuestion, difficulty, questionType, expertise, isCodingRelated, needsWebSearch, search, backends);
    before, after, runsAfterRestart := Caching.RestartWithOtherKey(QueryFunctionName, args, args', [], QueryBody(search, backends));
  }

  // ---------------------------------------------------------------------
  // final checks

  /** The placeholder answer when a final check raised. */
  function FinalCheckFailed(model: string): string
  {
    "Error: Failed to perform final check with " + model
  }

  /** The text before the sub-answers in a final check's user message. */
  function FinalCheckHeader(fullQuery: string): string
  {
    "Original Query: " + fullQuery + "\n\nResponses to sub-questions:\n"
  }

  /** The user message of a final check: the query and the sub-answers joined by newlines. */
  function FinalCheckRequest(fullQuery: string, subResponses: seq<string>): Request
  {
    Request(FinalCheckPrompt, FinalCheckHeader(fullQuery) + Join(subResponses, "\n") + FinalCheckInstruction)
  }

  const FinalCheckInstruction: string :=
    "\n\n" + "Please provide a final, comprehensive answer to the original query based on these responses."

  /**
   * The final-check message keeps every sub-answer whole, in order, each
   * between two line breaks, however many lines it has itself: the k-th one
   * stands verbatim at its offset, the next one starts right after the line
   * break that follows it, and the last one is followed by the instruction.
   */
  lemma FinalCheckKeepsEveryAnswer(fullQuery: string, subResponses: seq<string>, k: nat)
    requires k < |subResponses|
    ensures var text := FinalCheckRequest(fullQuery, subResponses).user;
      var o := |FinalCheckHeader(fullQuery)| + JoinOffset(subResponses, "\n", k);
      var e := o + |subResponses[k]|;
      e < |text| && text[o..e] == subResponses[k] && text[o - 1] == '\n' && text[e] == '\n'
      && (k + 1 < |subResponses| ==> JoinOffset(subResponses, "\n", k + 1) == JoinOffset(subResponses, "\n", k) + |subResponses[k]| + 1)
      && (k + 1 == |subResponses| ==> text[e..] == FinalCheckInstruction)
  {
    var h := FinalCheckHeader(fullQuery);
    assert h[|h| - 1] == '\n';
    assert FinalCheckInstruction[0] == '\n';
    JoinedBetweenLines(h, subResponses, FinalCheckInstruction, k);
    JoinPlaces(subResponses, "\n", k);
  }

  /** A newline-joined list framed by text that ends and starts with a line break. */
  lemma JoinedBetweenLines(h: string, xs: seq<string>, t: string, k: nat)
    requires k < |xs| && |h| > 0 && h[|h| - 1] == '\n' && |t| > 0 && t[0] == '\n'
    ensures var text := h + Join(xs, "\n") + t;
      var o := |h| + JoinOffset(xs, "\n", k);
      var e := o + |xs[k]|;
      e < |text| && text[o..e] == xs[k] && text[o - 1] == '\n' && text[e] == '\n'
      && (k + 1 == |xs| ==> text[e..] == t)
  {
    var j := Join(xs, "\n");
    var text := h + j + t;
    JoinPlaces(xs, "\n", k);
    var o := JoinOffset(xs, "\n", k);
    var e := o + |xs[k]|;
    assert text == h + (j + t);
    SliceOfConcat(h, j + t, o, e);
    assert (j + t)[o..e] == j[o..e];
    if k > 0 {
      JoinPlaces(xs, "\n", k - 1);
      assert j[o - 1] == '\n';
    }
    if k + 1 < |xs| {
      assert j[e..e + 1] == "\n";
    } else {
      assert text[|h + j|..] == t;
    }
  }

  /** `final_check`: the routed backend's answer, or the placeholder naming the model when the call raised. */
  function FinalCheck(fullQuery: string, subResponses: seq<string>, model: string, backends: Backends): (answer: string)
    ensures var reply := Query(model, FinalCheckRequest(fullQuery, subResponses), backends);
      answer == (if reply.Success? then reply.value else FinalCheckFailed(model))
  {
    match Query(model, FinalCheckRequest(fullQuery, subResponses), backends)
    case Success(content) => content
    case Failure(_) => FinalCheckFailed(model)
  }

  /**
   * `multiple_final_checks`: one final check per model, gathered in the
   * order of the model list whatever order they finish in.
   */
  function MultipleFinalChecks(fullQuery: string, subResponses: seq<string>, backends: Backends): (answers: seq<string>)
    ensures |answers| == |FinalCheckModels|
    ensures forall k :: 0 <= k < |FinalCheckModels| ==>
      answers[k] == FinalCheck(fullQuery, subResponses, FinalCheckModels[k], backends)
  {
    [FinalCheck(fullQuery, subResponses, Gpt4o, backends),
     FinalCheck(fullQuery, subResponses, Sonnet, backends),
     FinalCheck(fullQuery, subResponses, Gpt35, backends)]
  }

  /** Of the three final checks only the second goes to the Anthropic client. */
  lemma FinalCheckProviders()
    ensures forall k :: 0 <= k < |FinalCheckModels| ==> (IsAnthropicModel(FinalCheckModels[k]) <==> k == 1)
  {
    assert Sonnet[..6] == "claude";
    assert Gpt35[0] != 'c' && Gpt4o[0] != 'c';
  }

  // ---------------------------------------------------------------------
  // the final decision

  const DecisionFailed: string := "Error: Failed to make final decision"

  /** The label of the answer at position `k` (counting from 1). */
  function Numbered(k: nat, response: string): string
  {
    "Response " + NatToString(k) + ":\n" + response
  }

  /** The consolidated final answers: each under its label, separated by blank lines. */
  function NumberedResponses(responses: seq<string>): string
  {
    Join(seq(|responses|, k requires 0 <= k < |responses| => Numbered(k + 1, responses[k])), "\n\n")
  }

  /** One more final answer adds a blank line and that answer under the next number. */
  lemma NumberedResponsesSnoc(responses: seq<string>, response: string)
    requires |responses| > 0
    ensures NumberedResponses(responses + [response]) ==
      NumberedResponses(responses) + "\n\n" + Numbered(|responses| + 1, response)
  {
    var labelled := seq(|responses|, k requires 0 <= k < |responses| => Numbered(k + 1, responses[k]));
    var more := responses + [response];
    assert seq(|more|, k requires 0 <= k < |more| => Numbered(k + 1, more[k])) == labelled + [Numbered(|responses| + 1, response)];
    JoinSnoc(labelled, Numbered(|responses| + 1, response), "\n\n");
  }

  /** A single final answer is shown under the label "Response 1". */
  lemma NumberedSingle(response: string)
    ensures NumberedResponses([response]) == "Response 1:\n" + response
  {
    assert NatToString(1) == "1";
  }

  /** `max(len(r) for r in responses)`. */
  function MaxLength(responses: seq<string>): (m: nat)
    requires |responses| > 0
    ensures forall k :: 0 <= k < |responses| ==> |responses[k]| <= m
    ensures exists k :: 0 <= k < |responses| && |responses[k]| == m
  {
    if |responses| == 1 then |responses[0]|
    else
      var rest := MaxLength(responses[1..]);
      assert forall k :: 1 <= k < |responses| ==> responses[k] == responses[1..][k - 1];
      if |responses[0]| >= rest then |responses[0]| else rest
  }

  /** The fidelity guard `len(content) < 0.8 * max(...)`, in integers. */
  predicate NeedsVerification(content: string, responses: seq<string>)
    requires |responses| > 0
  {
    5 * |content| < 4 * MaxLength(responses)
  }

  /** The integer guard is the guard on the real numbers at the factor 0.8. */
  lemma GuardIsEightyPercent(content: string, responses: seq<string>)
    requires |responses| > 0
    ensures NeedsVerification(content, responses) <==> (|content| as real) < 0.8 * (MaxLength(responses) as real)
  {
  }

  /** A chosen answer at least as long as every final answer is never sent for verification. */
  lemma LongAnswerNotVerified(content: string, responses: seq<string>)
    requires |responses| > 0
    requires forall k :: 0 <= k < |responses| ==> |responses[k]| <= |content|
    ensures !NeedsVerification(content, responses)
  {
  }

  const DecisionInstruction: string :=
    "\n\nPlease analyze these responses and select the best one, or synthesize a new response if necessary."

  const VerificationInstruction: string :=
    "\n\nPlease verify that the chosen response includes all necessary information, especially any code snippets, "
    + "from the original responses. If anything crucial is missing, particularly code, please provide a corrected "
    + "version that includes all necessary information and code."

  /** The decision request: the query and the numbered final answers. */
  function DecisionRequest(fullQuery: string, finalResponses: seq<string>): Request
  {
    Request(DecisionPrompt,
      "Original Query: " + fullQuery + "\n\nFinal Responses:\n" + NumberedResponses(finalResponses) + DecisionInstruction)
  }

  /** The verification request: the numbered final answers and the chosen one. */
  function VerificationRequest(finalResponses: seq<string>, chosen: string): Request
  {
    Request(VerificationPrompt,
      "Original responses:\n" + NumberedResponses(finalResponses) + "\n\nChosen response:\n" + chosen
      + VerificationInstruction)
  }

  /** Sonnet's reply to the decision request. */
  function FirstDecision(fullQuery: string, finalResponses: seq<string>, backends: Backends): Result<string, ApiError>
  {
    QueryAnthropic(Sonnet, DecisionRequest(fullQuery, finalResponses), backends)
  }

  /** When the fidelity guard fires: the decision came back, the final answers are not empty, and the decision is short. */
  predicate VerificationIssued(fullQuery: string, finalResponses: seq<string>, backends: Backends)
  {
    var first := FirstDecision(fullQuery, finalResponses, backends);
    first.Success? && |finalResponses| > 0 && NeedsVerification(first.value, finalResponses)
  }

  /**
   * `decide_best_response`: Sonnet picks or writes the answer; when it is
   * shorter than 80% of the longest final answer, one verification request
   * follows and its reply replaces the decision. Any error, including the
   * `max` of an empty list after a successful first request, gives the
   * decision placeholder. `requests` lists what was sent, in order.
   */
  method DecideBestResponse(fullQuery: string, finalResponses: seq<string>, backends: Backends)
    returns (answer: string, requests: seq<Request>)
    ensures 1 <= |requests| <= 2 && requests[0] == DecisionRequest(fullQuery, finalResponses)
    ensures |requests| == 2 <==> VerificationIssued(fullQuery, finalResponses, backends)
    ensures FirstDecision(fullQuery, finalResponses, backends).Failure? || |finalResponses| == 0 ==>
      answer == DecisionFailed
    ensures |requests| == 1 && FirstDecision(fullQuery, finalResponses, backends).Success? && |finalResponses| > 0 ==>
      answer == FirstDecision(fullQuery, finalResponses, backends).value
    ensures |requests| == 2 ==>
      requests[1] == VerificationRequest(finalResponses, FirstDecision(fullQuery, finalResponses, backends).value)
    ensures |requests| == 2 ==>
      var second := QueryAnthropic(Sonnet, requests[1], backends);
      answer == (if second.Success? then second.value else DecisionFailed)
  {
    var model := Sonnet;
    var request := DecisionRequest(fullQuery, finalResponses);
    requests := [request];
    var reply := QueryAnthropic(model, request, backends);
    if reply.Failure? {
      return DecisionFailed, requests;
    }
    var content := reply.value;
    if |finalResponses| == 0 {
      return DecisionFailed, requests;
    }
    if 5 * |content| < 4 * MaxLength(finalResponses) {
      var verification := VerificationRequest(finalResponses, content);
      requests := requests + [verification];
      var checked := QueryAnthropic(model, verification, backends);
      if checked.Failure? {
        return DecisionFailed, requests;
      }
      content := checked.value;
    }
    answer := content;
  }
}
