# Query-Processing in Dafny

This project models the request-handling core of Query-Processing, an
assistant that answers an open question in several steps:

1. A decomposer model splits the question into sub-questions. Each comes
   with a difficulty and a web-search flag.
2. An analyzer classifies each one by question type, required expertise and
   whether it is about code.
3. A routing table picks a Claude or GPT model for each sub-question. That
   model answers, optionally with a summary of web-search hits as context.
4. Three models write final answers from the sub-answers.
5. Claude Sonnet picks or writes the best of them. A fidelity guard re-asks
   when the chosen answer looks abbreviated.
6. Sub-question answers pass through two caches: one in memory, one
   persistent on disk.

Modules, one per file:

| module | file | models |
|---|---|---|
| `Wrappers` | `wrappers.dfy` | `Option` and `Result` |
| `Strings` | `strings.dfy` | the Python `str` operations the core uses: `split`, `join`, `replace`, `strip`, `lower`, `in`, `startswith`, `int()`, `str()` |
| `Decomposition` | `decomposition.dfy` | parsing the decomposer's reply (`question_decomp.py`) |
| `Analyzer` | `analyzer.dfy` | question types, expertise levels, the marker scan and the batch (`Analyzer.py`) |
| `WebSearch` | `websearch.dfy` | the bounded summary of search hits (`web_search.py`) |
| `Caching` | `caching.dfy` | cache keys, `make_serializable`, the memory and persistent caches (`caching.py`) |
| `Agent` | `agent.dfy` | routing, the two API clients, the per-sub-question query, final checks, the final decision (`agent.py`) |

How the source maps to the model:

- **Imperative code stays imperative.** The two loops of the source are
  methods with loops, proved against specification functions:
  `Decomposition.Decompose` and `WebSearch.SummarizeSearchResults`.
  `Analyzer.ParseAnalysis` (defaults overwritten step by step) and
  `Agent.DecideBestResponse` (requests sent one after the other) are
  methods without loops, also proved against functions. The two caches
  are classes whose methods update their dictionaries.
- **Errors are values.** A raised exception is `Failure` of a `Result`.
- **External calls are parameters.** Network calls are function-typed
  parameters: the two chat backends (`Agent.Backends`), the web search and
  the decorated coroutine.
- **The cache file is a state field.** `PersistentCache.saved` holds what
  the cache file contains.

## Model

| member | source | states |
|---|---|---|
| Analyzer.Classify | src/config/Analyzer.py:43-60 | For each question type and expertise level: the result is that value exactly when its marker occurs and no marker of higher priority does. FACTUAL beats CREATIVE beats TECHNICAL, with ANALYTICAL as the default. EXPERT beats SPECIALIZED, with GENERAL as the default. The coding flag is set exactly when `CODING=TRUE` occurs. Occurrence is the reference definition `Occurs`, not the scanning `Contains`. |
| Analyzer.ParseAnalysis | src/config/Analyzer.py:43-62 | The default-then-overwrite code returns exactly the triple `Classify` gives. |
| Analyzer.ZipAt | src/config/Analyzer.py:69 | `zip`'s result is as long as the shorter input, and entry i combines question i with result i. |
| Analyzer.AnalyzeQuestionsInOrder | src/config/Analyzer.py:65-69 | The batch has one entry per sub-question, in input order. Entry i is the question and difficulty of sub-question i with the classification of analysis i. |
| Decomposition.Decompose | src/config/question_decomp.py:18-26 | The loop over the stripped reply's lines returns exactly `DecomposeLines` of those lines. When `int()` raises, the loop stops with that error. |
| Decomposition.DecomposeCount | src/config/question_decomp.py:20-26 | A successful parse has exactly one entry per three-field line. There is no cap on the count, and never more entries than lines. |
| Decomposition.DecomposeFailsIff | src/config/question_decomp.py:21-24 | The parse fails exactly when some line has three fields and a difficulty that `int()` rejects. |
| Decomposition.RejectedIff | src/config/question_decomp.py:21-24 | A line is rejected exactly when it splits into three fields and its cleaned difficulty field does not parse as an integer. |
| Decomposition.DecomposeSnoc | src/config/question_decomp.py:20-26 | Lines are handled in order. A line added at the end is dropped when it lacks three fields; otherwise it appends its sub-question, or its error when nothing failed before. |
| Decomposition.DropsMalformedLine | src/config/question_decomp.py:21-22 | A line that does not split into exactly three fields changes nothing, wherever it stands. |
| Decomposition.NoEntryCap | src/config/question_decomp.py:20-26 | Any number of well-formed lines gives that many sub-questions. |
| Decomposition.ParseFormattedLine | src/config/question_decomp.py:21-26 | Round trip. A line written in the format the decomposer is asked for parses back to the (question, difficulty, flag) it was written from. The question must be trimmed and contain neither a bar character nor `Question: `. |
| Decomposition.FormattedLineFields | src/config/question_decomp.py:21 | Such a line splits at the field separator (space, bar, space) into exactly its three written fields. |
| Decomposition.DifficultyFieldParse | src/config/question_decomp.py:24 | Removing the prefix, stripping and calling `int()` on a written difficulty gives back that number, negative ones included. |
| Decomposition.SearchFieldParse | src/config/question_decomp.py:25 | The search field reads as true exactly when `true` was written, and as false for `false`. |
| Decomposition.SingleLine | src/config/question_decomp.py:20-26 | A reply of one accepted line gives exactly that line's sub-question. |
| Decomposition.ExampleLine | src/config/question_decomp.py:20-26 | The line for question `What is X?`, difficulty 42 and search flag `true`, written in the requested format, parses to `("What is X?", 42, True)`. |
| WebSearch.SummarizeSearchResults | src/tools/web_search.py:42-53 | The loop returns the stripped header followed by the blocks of the leading hits that fit (`SummaryText`). |
| WebSearch.SummaryWithinBudget | src/tools/web_search.py:44-51 | Whenever the header fits, the summary is at most `max_chars` long, before and after the final strip. |
| WebSearch.SummaryStopsAtFirstMisfit | src/tools/web_search.py:46-49 | The summary is the header plus a prefix of the hits, in order. The hit after that prefix would have overflowed the budget. A later, shorter hit never takes its place. |
| WebSearch.IncludedFits | src/tools/web_search.py:46-51 | Generalised to any starting count: the kept blocks fit, and the first hit left out does not. |
| WebSearch.StripOnlyTrailing | src/tools/web_search.py:53 | The final strip removes trailing whitespace only; the summary still starts with the header text. |
| WebSearch.NoResultsSummary | src/tools/web_search.py:43-53 | With no hit that fits, the summary is `Web search results:`. |
| WebSearch.Render | src/tools/web_search.py:47 | A hit's block is exactly 10 characters longer than its title, link and snippet together. |
| WebSearch.RenderAllConcat | src/tools/web_search.py:46-50 | Rendering concatenated hit lists concatenates their renderings. |
| WebSearch.WebSearchTool | src/tools/web_search.py:55-57 | The search is asked for five hits, and the hits it returns are summarised within 1000 characters. A raised error passes through unchanged. |
| Caching.Key | src/config/caching/caching.py:24 | A cache key starts with the function name and a colon. |
| Caching.KeysOfDistinctFunctions | src/config/caching/caching.py:24 | Two functions whose names differ and have no colon never share a key in the shared persistent dictionary. |
| Caching.KeysOfDistinctSelves | src/config/caching/caching.py:24 | Two calls that differ only in the printed form of their first argument, such as two `Agent` objects, never share a key. |
| Caching.MakeSerializable | src/config/caching/caching.py:57-67 | The result is sanitised: no coroutine, callable or tuple at any depth. Coroutines become `"coroutine"`, callables `"function"`, and everything else that is not a container passes through. Tuples and lists become lists whose k-th item is the sanitised k-th item. Dictionaries keep their keys in order, and each value is sanitised. |
| Caching.SanitizedIsFixed | src/config/caching/caching.py:57-67 | A value that is already sanitised comes back unchanged. |
| Caching.MakeSerializableIdempotent | src/config/caching/caching.py:57-67 | Sanitising twice is sanitising once. |
| Caching.SavedForm | src/config/caching/caching.py:15-17 | The file image has the same keys as the dictionary, with every value sanitised. |
| Caching.SavedFormUpdate | src/config/caching/caching.py:31-32 | Storing one entry and saving gives the old image with that entry's sanitised value added. |
| Caching.MemoryCache.constructor | src/config/caching/caching.py:37-38 | Each decorated function starts with an empty dictionary of its own. |
| Caching.MemoryCache.Call | src/config/caching/caching.py:39-45 | On a hit: the stored value, with nothing run or changed. On a miss: the coroutine runs once, its key is logged, and only a successful result is stored. |
| Caching.ClearMemoryCache | src/config/caching/caching.py:54-55 | The memory cache is left exactly as it was. |
| Caching.PersistentCache.Load | src/config/caching/caching.py:9-13 | The dictionary is the decoded file, or empty when there is none, and the file image is consistent with it. |
| Caching.PersistentCache.Call | src/config/caching/caching.py:21-35 | On a persistent hit: the stored value, with nothing else changed. Otherwise the memory layer answers. A successful result is stored in both dictionaries and the file is rewritten as the sanitised image. An error changes neither. |
| Caching.PersistentCache.Clear | src/config/caching/caching.py:49-52 | The dictionary and the file are both empty afterwards. |
| Caching.ClearThenRepeat | src/config/caching/caching.py:21-52 | After the persistent cache is cleared, a repeated call that succeeded the first time gives the same answer. The coroutine does not run again, because the memory cache still answers. A call that raised runs twice, and the second answer is that of the new run. |
| Caching.CallTwice | src/config/caching/caching.py:21-45 | The same call twice in a fresh process: a successful result is stored, answers the second call, and the coroutine runs once. A call that raised stores nothing and runs twice. |
| Caching.RestartWithOtherKey | src/config/caching/caching.py:9-35 | After a restart, a call whose key differs from the saved call's key is not answered from the file: the coroutine runs again. |
| Caching.ReloadAfterRestart | src/config/caching/caching.py:9-35 | After a restart, a stored result comes back from the file in sanitised form, with no coroutine run. |
| Agent.SelectModel | src/config/agent.py:40-54 | The model is always one of the four. Coding goes to Sonnet. Haiku exactly for easy factual general questions. GPT-3.5 exactly for the rule-3 cases that are not Haiku's. Above 59 Sonnet, from 30 to 49 GPT-4o. The Sonnet case is also stated as an if-and-only-if. |
| Agent.SelectedModelProvider | src/config/agent.py:82 | A selected Claude model, and only a Claude model, goes to the Anthropic client. |
| Agent.ReadAnthropicReply | src/config/agent.py:140-143 | An `error` object raises its message whatever else the reply holds. Otherwise the result is there exactly when every content block has a text, and it is the texts joined by single spaces. |
| Agent.AnthropicBlockAppended | src/config/agent.py:143 | One more content block appends a space and its text. |
| Agent.ReadOpenAIReply | src/config/agent.py:109 | The answer is the first choice's message content; a missing field raises. |
| Agent.OnlyFirstChoiceRead | src/config/agent.py:109 | Choices after the first never affect the answer. |
| Agent.Query | src/config/agent.py:82-87 | Claude models are asked through the Anthropic client and all others through the OpenAI client. |
| Agent.NoSearchWithoutFlag | src/config/agent.py:66-67 | Without the flag the context is the two fixed lines, and the search backend is never consulted. |
| Agent.FailedSearchNoted | src/config/agent.py:72-74 | A failed search does not fail the sub-question: the context ends in the fixed note. |
| Agent.QueryModelWithContext | src/config/agent.py:59-91 | The returned model is `select_model`'s choice. The content is the routed backend's answer to the context, or `Error: Failed to query <model>` when the call raised. |
| Agent.CachedQueryTwice | src/config/agent.py:56-91 | `query_model_with_context` behind both caches, asked the same sub-question twice: the first call returns the `(content, model)` tuple, which is stored and answers the second call, and the query runs only once. When the backend call raised, the stored tuple holds the `Error: Failed to query <model>` placeholder. |
| Agent.QueryAfterRestart | src/config/agent.py:56-59 | When the `Agent` before a restart prints differently from the one after it, the saved answer is not found and the query runs again. |
| Agent.FinalCheck | src/config/agent.py:154-172 | The routed backend's answer to the query and the joined sub-answers, or `Error: Failed to perform final check with <model>`. |
| Agent.FinalCheckKeepsEveryAnswer | src/config/agent.py:155-159 | For any sub-answers, multi-line ones included: the k-th one stands verbatim in the final-check message, between two line breaks. The next one starts right after the line break that follows it, and the last one is followed by the closing instruction. |
| Agent.MultipleFinalChecks | src/config/agent.py:148-151 | Exactly three answers, in list order, from GPT-4o, Sonnet and GPT-3.5. |
| Agent.FinalCheckProviders | src/config/agent.py:149 | Of the three final checks only the second goes to the Anthropic client. |
| Agent.NumberedResponsesSnoc | src/config/agent.py:177 | One more final answer adds a blank line and the answer under the next number. |
| Agent.NumberedSingle | src/config/agent.py:177 | One final answer is labelled `Response 1:`. |
| Agent.MaxLength | src/config/agent.py:190 | `max(len(r) ...)` is an upper bound on every length and is attained. |
| Agent.GuardIsEightyPercent | src/config/agent.py:190 | The integer guard `5*len < 4*max` holds exactly when `len < 0.8*max` holds over the reals. |
| Agent.LongAnswerNotVerified | src/config/agent.py:190 | A chosen answer at least as long as every final answer is never re-verified. |
| Agent.DecideBestResponse | src/config/agent.py:175-201 | The decision request always goes first, and at most one more request follows. The second request is sent exactly when the decision came back shorter than 80% of the longest final answer. Its reply then replaces the decision. Any error, including `max` of an empty list, gives `Error: Failed to make final decision`. |
| Strings.ContainsIffOccurs | src/config/Analyzer.py:47-59 | The scanning substring test agrees with the reference definition of an occurrence. |
| Strings.ParseIntOfString | src/config/question_decomp.py:24 | `int(str(i)) == i` for every integer. |
| Strings.LowerIsTrue | src/config/question_decomp.py:25 | `s.lower() == "true"` holds exactly for the case variants of `true`. |
| Strings.StripSpec | src/config/question_decomp.py:18 | `strip` returns the middle slice with whitespace on both sides removed. The result neither starts nor ends with whitespace. |
| Strings.JoinSplit | src/config/question_decomp.py:21 | Joining the pieces of a split with the separator gives back the text. |
| Strings.SplitJoinChar | src/config/agent.py:155 | Splitting a newline-joined list of lines that contain no newline gives back that list. |
| Strings.JoinPlaces | src/config/agent.py:155 | In `sep.join(xs)` every piece stands unchanged at its offset. The separator and then the next piece follow it; the last piece ends the text. |

## Left out

- Network I/O is left out. It covers the HTTP requests of `query_openai`, `query_anthropic` and the analyzer (src/config/Analyzer.py:23-40), and the DuckDuckGo page fetch and HTML scraping of `perform_web_search` (src/tools/web_search.py:7-40). Each is a function parameter returning a decoded reply or `Failure`. `perform_web_search`'s own caching and its `[]` on a client error are inside that parameter.
- The OpenAI call inside `decompose_question` is left out; the model starts from the reply text.
- Concurrency is left out. `asyncio.gather` is modelled by its result, which keeps the order of its tasks. Interleavings of the cache updates are not modelled.
- `tenacity.retry` on `query_model_with_context` is left out. Every error inside that function is caught and turned into the placeholder, so the retry never fires.
- Printing, colours and logging are left out, along with `Agent.__init__` and `print_colored`.
- `analyze_and_select_model` (src/config/agent.py:26-37) only prints; the list it returns is `Analyzer.AnalyzeQuestions`.
- The texts of the system prompts are not part of this model; each is a constructor of `Agent.SystemPrompt`. `src/config/prompts.py` and `src/main.py` are not part of this model.
- JSON file I/O is reduced to a snapshot: `query_cache.json` is `PersistentCache.saved`. The model does not capture that `json.dump` raises on values that `make_serializable` leaves unchanged but JSON cannot hold (enum members, other objects). It also does not capture that dictionary keys are rewritten as strings.
- Agent.ReadOpenAIReply: a JSON `null` content is modelled as a missing field (an error). Python would return `None` instead.
- Caching.Key: `repr` is simplified. Strings escape only backslash, the quote and `\n \r \t`, so other non-printable characters are not escaped. Objects are represented by their printed form. The key of `query_model_with_context` includes the printed `Agent` instance passed as `self`. The default `repr` of an `Agent` holds its memory address, which the model cannot know. So the persistent cache does not answer `query_model_with_context` across restarts (`Agent.QueryAfterRestart`, for two different printed forms).
- Strings.Lower: ASCII letters only. For the one use, `== "true"`, this is exact.
- Strings.ParseInt: ASCII digits only. `int()` also accepts other Unicode decimal digits.
- Agent.QueryCall: the wrapped coroutine accepts only the positional call of src/main.py:42 (the `Agent`, two strings, an integer, the two enum members, two booleans). Keyword arguments and other argument values, which Python would pass through, are modelled as a raised `TypeError`.
- Strings.IsSpace: covers the Unicode whitespace that Python's `str.strip()` removes. The model has no Unicode normalisation.
- Agent.DecideBestResponse: `0.8 * max(...)` is floating point in Python. The model uses the exact ratio `5*len < 4*max`, and `GuardIsEightyPercent` relates it to the real number 0.8. Rounding of the float product is not modelled.

## Notes on the source

- `decompose_question` has no cap on the number of sub-questions: every well-formed line counts (`Decomposition.NoEntryCap`). A maximum of ten appears only in the decomposition prompt (src/config/prompts.py:40), and the model follows the code.
- The retry decorator (src/config/agent.py:58) sits inside both caches, around a function that catches every error itself. So it never retries, and a cached answer is never recomputed.
- Error placeholders such as `Error: Failed to query <model>` are ordinary return values. The caches store them like answers, so a failed query is answered from the cache afterwards (`Agent.CachedQueryTwice`).
- A cached tuple is written to the file as a list (`Caching.ReloadAfterRestart`). In this program that never shows. The only cached function that returns a tuple is `query_model_with_context`, and its key holds the printed `Agent`, whose address changes with every process. After a restart its saved entries are never found (`Agent.QueryAfterRestart`). So only `perform_web_search` is answered from the file, and it returns a list already.
- Because of the memory layer, clearing the persistent cache does not make a query run again during the same process (`Caching.ClearThenRepeat`).
