# Prompt-text selection in the AIML upskilling chatbots, in Dafny

This project models the parts of the repository that decide what text reaches a
language model, and proves properties of them. It covers four pieces:

- **DocumentQASystem** (`20251215/chatbot_v1.py`):
  - a chunk store that `load_document` fills and `clear_documents` empties;
  - the lexical relevance scorer `_calculate_relevance_score`;
  - the top-k selector `find_relevant_chunks`;
  - the deterministic part of `ask_question`: its errors, the no-match answer, the confidence level, the context text and the sources.

  The store is a class whose methods change its two lists. Its invariant
  `Valid` is the store's consistency: all_chunks is the chunks of the loaded
  documents, in load order, and each document record is well formed. The
  scorer and the selector are also stated as functions (`Relevance`,
  `Ranking`), and each method is proved equal to its function.
- **ChatBot_V2** (`20251211/ChatBot_V2.py`):
  - history compaction (`should_summarize`, `summarize_history`, `generate_summary`);
  - persona and provider choice;
  - the Claude message list and the Ollama prompt;
  - the command dispatch of `main`, with its append-then-compact step.

  `MAX_HISTORY_LENGTH` and `KEEP_RECENT_MESSAGES` are the fields of `Limits`
  (20 and 5 in `SourceLimits`). The global `CURRENT_PROVIDER` is a field of
  the session.
- **The earlier chatbot** (`20251209/chatbot_v1.py`):
  - `get_persona`;
  - the message lists and the prompt text built from `(user, assistant)` pairs;
  - trimming of the local model's reply;
  - the history kept by the chat loop.
- **`get_factorial`** (`D1_Python_Basics_P1/Factorial.py`): recursion with a guard.

Modules:

- `Results`: error, result and option types.
- `Text`: ASCII `lower`, the `\w+` tokens, `split()`, substring tests, `strip`, `split(sep)[-1]`, `join`, `str(int)` and `int(str)`.
- `Relevance`: the scorer.
- `Ranking`: the stable descending sort and the slice.
- `DocumentQA`: the store.
- `Messages`: chat messages built from history pairs.
- `ChatHistory`: compaction.
- `ChatV2`, `ChatV1` and `Factorial`: the remaining pieces above.

How outside effects are handled:

- Language-model calls, the summariser, the text splitter, the document loaders and the clock are parameters.
- Files, `input()` and `print` are outside the model.

## Model

| member | source | states |
|---|---|---|
| Relevance.KeepQueryTerms | 20251215/chatbot_v1.py:211-212 | every token survives as often as it occurs exactly when it is not a stop word and is longer than two characters; nothing else survives |
| Relevance.Count | 20251215/chatbot_v1.py:219 | the Counter entry of a term is positive exactly when the term is one of the chunk's tokens |
| Relevance.CountIsMultiplicity | 20251215/chatbot_v1.py:219 | the Counter entry of a term is the number of times it occurs among the chunk's tokens |
| Relevance.PartialMatches | 20251215/chatbot_v1.py:229-231 | the number of partial matches is positive exactly when some chunk token contains the term or is contained in it |
| Relevance.RawScore | 20251215/chatbot_v1.py:222-231 | the accumulated score is never negative |
| Relevance.Normalize | 20251215/chatbot_v1.py:234-236 | the normalised score is at most 1.0, is not negative for a non-negative raw score, and below the cap equals 100 × raw / (terms × words) |
| Relevance.RelevanceScore | 20251215/chatbot_v1.py:200-236 | no query term gives 0.0; the call fails exactly when query terms survive and the chunk has no word token, and then with ZeroDivisionError; every score lies in [0, 1] |
| Relevance.TermScorePositive | 20251215/chatbot_v1.py:223-231 | one term adds a positive amount exactly when some chunk token partially matches it |
| Relevance.RawScorePositive | 20251215/chatbot_v1.py:222-231 | the raw score is positive exactly when some query term partially matches some chunk token |
| Relevance.ScorePositiveIff | 20251215/chatbot_v1.py:211-236 | a chunk scores above zero exactly when some query term and some chunk token match partially |
| Relevance.TermScoreIsExactPlusPartial | 20251215/chatbot_v1.py:225-231 | the `term in chunk_lower` guard never hides a count: each term adds 2 × its exact count plus 0.5 per partial match |
| Text.Lower | 20251215/chatbot_v1.py:200-201 | lower-casing keeps the length and leaves no upper-case ASCII letter |
| Text.Runs | 20251215/chatbot_v1.py:218 | the `\b\w+\b` matches (and `split()` fields) are non-empty runs of the character class (maximality and coverage: Text.RunsAreMaximal) |
| Text.RunsAreMaximal | 20251215/chatbot_v1.py:218 | the runs are exactly the maximal runs of the class: each sits in the text with a character outside the class (or an end of the text) on both sides, they appear left to right with gaps between them, and every character of the class falls in one |
| Text.TokenOccursIn | 20251215/chatbot_v1.py:225 | every token of a text is a substring of that text |
| Text.LastIndexOf | 20251215/chatbot_v1.py:133 | the position of the last occurrence of a character, or -1 when there is none |
| Text.JoinHoldsEachPart | 20251215/chatbot_v1.py:309 | every part of a joined string is a substring of the result |
| Text.NatToString | 20251215/chatbot_v1.py:305 | the rendering of a chunk id is a non-empty string of decimal digits without a leading zero (unless it is "0") |
| Text.StripIsInfix | 20251209/chatbot_v1.py:44 | `str.strip()` returns a slice of its input, and everything it removes before and after that slice is whitespace |
| DocumentQA.Suffix | 20251215/chatbot_v1.py:107 | the suffix is non-empty exactly when the name has a dot that is neither its first nor its last character and no later dot |
| DocumentQA.FileNameIsLastPart | 20251215/chatbot_v1.py:133 | `Path.name` is the longest suffix of the path without a '/': it holds no '/' and, when shorter than the path, a '/' precedes it |
| DocumentQA.ClassifyLoader | 20251215/chatbot_v1.py:107-116 | the lower-cased suffix selects the PDF, DOCX or text loader, each exactly for its suffix; any other suffix is a ValueError naming it |
| DocumentQA.NewDocInfo | 20251215/chatbot_v1.py:122-150 | the record is well formed: chunk ids are positions, char and word counts match each chunk's content, and total_chunks, total_chars and total_words match; the chunks are the splitter's texts, in order |
| DocumentQA.AllChunksOfAppend | 20251215/chatbot_v1.py:138-152 | loading one more document appends exactly its chunks to all_chunks |
| DocumentQA.ChunksCarryTheirPosition | 20251215/chatbot_v1.py:127-152 | every chunk of all_chunks is the chunk at its own chunk_id within a loaded document of its document_name, and its char and word counts match its content |
| DocumentQA.DocumentQASystem.ValidChunksLocated | 20251215/chatbot_v1.py:127-152 | under the store's consistency invariant, each chunk of all_chunks is the chunk at its own id in a loaded document of its name |
| DocumentQA.DocumentQASystem.constructor | 20251215/chatbot_v1.py:81-82 | a new system has no documents and no chunks |
| DocumentQA.DocumentQASystem.Create | 20251215/chatbot_v1.py:50-55 | construction fails exactly when the API key is empty; otherwise the store is empty |
| DocumentQA.DocumentQASystem.LoadDocument | 20251215/chatbot_v1.py:98-152 | a missing file is FileNotFoundError and an unknown suffix is ValueError, each changing nothing; otherwise the document is appended to documents and its chunks, in order, to all_chunks, and the store stays consistent |
| DocumentQA.DocumentQASystem.ClearDocuments | 20251215/chatbot_v1.py:390-391 | both lists become empty |
| DocumentQA.DocumentQASystem.CalculateRelevanceScore | 20251215/chatbot_v1.py:188-236 | the nested accumulation loops compute exactly RelevanceScore |
| DocumentQA.DocumentQASystem.AddPartialMatches | 20251215/chatbot_v1.py:228-231 | the inner loop adds exactly 0.5 per word that contains the term or is contained in it |
| DocumentQA.ScorePositiveErr | 20251215/chatbot_v1.py:254-261 | the scoring loop fails exactly when some chunk's score fails, with the error of the first such chunk |
| DocumentQA.ScorePositiveKept | 20251215/chatbot_v1.py:254-261 | every kept entry is a store chunk with its own score, which is positive, and every chunk scoring above zero is kept |
| DocumentQA.ScorePositiveInOrder | 20251215/chatbot_v1.py:254-261 | the kept chunks appear in store order, at strictly increasing positions |
| DocumentQA.ScoreErrorPropagates | 20251215/chatbot_v1.py:255-256 | a scorer error on a prefix of the store is the error of the whole loop |
| DocumentQA.SearchErrors | 20251215/chatbot_v1.py:250-261 | the search fails exactly for an empty store or a scorer error; an empty store is the ValueError "No documents loaded! Load documents first." |
| DocumentQA.RelevantChunksErrors | 20251215/chatbot_v1.py:250-256 | find_relevant_chunks fails exactly for an empty store, or when query terms survive and some chunk has no word token (then with ZeroDivisionError) |
| DocumentQA.SearchShape | 20251215/chatbot_v1.py:254-266 | the loop keeps one entry per store position scoring above zero, and the result has min(top_k, that number) entries for top_k ≥ 0; each is a store chunk with its own positive score; scores do not increase |
| DocumentQA.SearchLeftOutNoHigher | 20251215/chatbot_v1.py:257-266 | a kept entry left out of the result (counted as a multiset difference, so a duplicate chunk from a file loaded twice is covered) scores no higher than any entry returned |
| DocumentQA.ScorePositiveCount | 20251215/chatbot_v1.py:254-261 | the scoring loop keeps exactly as many entries as there are store positions scoring above zero |
| DocumentQA.SearchStable | 20251215/chatbot_v1.py:264-266 | among equal scores, the returned chunks are the first ones in store order |
| DocumentQA.SearchTopScore | 20251215/chatbot_v1.py:264-266 | the first returned score exceeds a threshold exactly when some chunk of the store scores above it |
| DocumentQA.DocumentQASystem.FindRelevantChunks | 20251215/chatbot_v1.py:239-266 | the loop computes exactly the specified search, and the method does not modify the store |
| DocumentQA.ContextHoldsEveryChunk | 20251215/chatbot_v1.py:302-309 | every selected chunk's tagged block, and so its content, is a substring of the context |
| DocumentQA.DocumentQASystem.BuildContext | 20251215/chatbot_v1.py:302-309 | the append loop builds the `"\n---\n"`-joined context, and it contains every selected chunk's content |
| DocumentQA.AskWithoutMatch | 20251215/chatbot_v1.py:289-297 | with nothing relevant, the answer is the fixed apology with confidence low and no sources, and does not depend on the model |
| DocumentQA.AskConfidence | 20251215/chatbot_v1.py:342-347 | confidence is high exactly when some chunk of the store scores above 0.5, otherwise medium; chunks_used is the number selected, at most top_k |
| DocumentQA.Preview | 20251215/chatbot_v1.py:356 | content of at most 200 characters is its own preview; longer content gives its first 200 characters followed by "...", 203 characters in all |
| DocumentQA.SourcesDescribeSelection | 20251215/chatbot_v1.py:350-359 | one source per selected chunk, in order, with the chunk's document name, chunk id, score and preview |
| DocumentQA.AskSources | 20251215/chatbot_v1.py:342-359 | with show_sources, an answer that used chunks lists one source per chunk used; each names a chunk of the store by document and id, with that chunk's own positive score and preview; scores do not increase |
| DocumentQA.DocumentQASystem.AskQuestion | 20251215/chatbot_v1.py:282-361 | ask_question with no documents is the ValueError; otherwise it equals the specified answer and does not modify the store |
| Ranking.InsertDescSorted | 20251215/chatbot_v1.py:264 | inserting into a non-increasing sequence keeps it non-increasing |
| Ranking.InsertDescPermutes | 20251215/chatbot_v1.py:264 | inserting adds exactly the new entry |
| Ranking.SortDescSorted | 20251215/chatbot_v1.py:264 | the sort by score with reverse=True yields non-increasing scores |
| Ranking.SortDescPermutes | 20251215/chatbot_v1.py:264 | the sort is a permutation of its input |
| Ranking.InsertDescStable | 20251215/chatbot_v1.py:264 | insertion keeps the relative order of entries of each score |
| Ranking.SortDescStable | 20251215/chatbot_v1.py:264 | the sort is stable: the entries of any one score keep their input order |
| Ranking.SliceToIsPrefix | 20251215/chatbot_v1.py:266 | `[:top_k]` is a prefix, of length top_k capped at the length for top_k ≥ 0 |
| Ranking.WithScorePrefix | 20251215/chatbot_v1.py:266 | a prefix keeps a prefix of the entries of each score |
| Ranking.SelectSplitsSort | 20251215/chatbot_v1.py:264-266 | the selection is a prefix of the sorted input, and the rest holds exactly the entries left out |
| Ranking.SelectShape | 20251215/chatbot_v1.py:264-266 | the selection has top_k entries (all when fewer) drawn from the input, in non-increasing order |
| Ranking.SelectLeftOutNoHigher | 20251215/chatbot_v1.py:264-266 | no entry left out scores higher than a returned one |
| Ranking.SelectHead | 20251215/chatbot_v1.py:264-266 | the first returned entry is from the input and scores at least as high as every input entry |
| Ranking.SelectStable | 20251215/chatbot_v1.py:264-266 | among equal scores the returned entries are the first ones of the input |
| ChatHistory.SlicesSplit | 20251211/ChatBot_V2.py:178-179 | `history[:-k]` and `history[-k:]` together are the history, for every k; the second has k entries when 0 < k ≤ length |
| ChatHistory.SummarizeHistorySpec | 20251211/ChatBot_V2.py:169-192 | at or below the limit the history is unchanged; above it the result is one "[Summary]" entry summarising exactly `history[:-k]`, followed by the last k entries verbatim, so it has k + 1 entries and is shorter |
| ChatHistory.ExchangeBound | 20251211/ChatBot_V2.py:499-512 | after a regular message the history is non-empty, within the limit and ends with the new exchange; below the limit the exchange is simply appended |
| ChatHistory.SummarizeCommandDoesNothing | 20251211/ChatBot_V2.py:470-476 | as written, /summarize with keep_recent < length ≤ max_history passes its guard and leaves the history unchanged |
| ChatHistory.SummarizeCommandTenTurns | 20251211/ChatBot_V2.py:470-476 | with the source's limits, ten turns pass the guard of /summarize and are not compacted |
| ChatHistory.SummarizeNowSpec | 20251211/ChatBot_V2.py:470-476 | the corrected /summarize compacts whenever more than keep_recent turns exist: summary entry plus the last keep_recent turns, never longer than before |
| ChatHistory.SummaryNeverFails | 20251211/ChatBot_V2.py:120-167 | generate_summary always yields text: the backend's summary or a "Summary unavailable" notice; without a key Claude is not consulted |
| ChatHistory.GenerateSummary | 20251211/ChatBot_V2.py:120-167 | the `+=` loop and the request compute exactly the specified summary |
| ChatV2.Lookup | 20251211/ChatBot_V2.py:223-225 | a key is found exactly when some entry carries it, and the value found belongs to such an entry |
| ChatV2.ChoosePersonaNumbered | 20251211/ChatBot_V2.py:213-218 | a choice that reads as an integer k from 1 to 5 picks the k-th persona |
| ChatV2.ChoosePersonaByNumber | 20251211/ChatBot_V2.py:210-218 | typing the number of any persona picks that persona |
| ChatV2.ChoosePersonaByName | 20251211/ChatBot_V2.py:210-225 | typing any persona's name, in any case and with surrounding blanks, picks that persona |
| ChatV2.StripAroundName | 20251211/ChatBot_V2.py:210 | stripping removes surrounding blanks from a name |
| ChatV2.ChoosePersonaDefault | 20251211/ChatBot_V2.py:227-229 | anything neither a number from 1 to 5 nor a persona name gets the assistant persona |
| ChatV2.SwitchProvider | 20251211/ChatBot_V2.py:337-348 | "1" selects Ollama, "2" Claude (with or without a key), anything else keeps the provider |
| ChatV2.ClaudeMessagesShape | 20251211/ChatBot_V2.py:265-270 | 2·len(history)+1 messages: entry i gives a user message at 2i and an assistant message at 2i + 1, and the prompt comes last |
| ChatV2.BuildClaudeMessages | 20251211/ChatBot_V2.py:265-270 | the append loop builds exactly the specified list |
| ChatV2.OllamaPromptFrame | 20251211/ChatBot_V2.py:233-238 | the prompt starts with the persona and a blank line, ends with the new user line and an open "AI:", and holds the history lines between |
| ChatV2.OllamaLinesHoldEachTurn | 20251211/ChatBot_V2.py:235-236 | every history turn appears in the prompt as its own "User:" and "AI:" lines |
| ChatV2.BuildOllamaPrompt | 20251211/ChatBot_V2.py:233-238 | the `+=` loop builds exactly the specified prompt |
| ChatV2.AskAi | 20251211/ChatBot_V2.py:232-326 | with Claude and no API key the reply is "Error: API key not configured"; with a key the reply is the streamed text, or "Error: " + the message when the stream fails, so Claude's exceptions become replies; with Ollama the result is exactly the Ollama request's, so ask_ai raises exactly when the provider is Ollama and its request raises |
| ChatV2.ParseCommand | 20251211/ChatBot_V2.py:434-497 | an empty stripped line is skipped; a command word in any case is that command; any other line is a chat message carrying the stripped text |
| ChatV2.ChatSession.constructor | 20251211/ChatBot_V2.py:427-428 | the session starts from the saved history, the chosen persona and Ollama |
| ChatV2.ChatSession.Step | 20251211/ChatBot_V2.py:433-512 | exit stops; /clear empties the history; /summarize compacts (corrected); /persona and /provider change only their field; print-only commands change nothing; a chat message appends and compacts, leaving at most max_history entries, unless the Ollama request raises: then main ends with that exception and the history is unchanged |
| ChatV2.ChatSession.Send | 20251211/ChatBot_V2.py:498-512 | when ask_ai answers, the new history is the appended-then-compacted one, within the limit, ending with the new exchange; when it raises, the exception is returned and the history is unchanged; persona and provider are unchanged |
| Messages.PairMessagesAt | 20251209/chatbot_v1.py:29-31 | pair i becomes a user message at 2i and an assistant message at 2i + 1 |
| ChatV1.GetPersona | 20251209/chatbot_v1.py:13-20 | "1", "2" and "3" pick the assistant, coder and writer prompts, each exactly for its option; every other option gets "You are an AI assistant." |
| ChatV1.ChatMessagesShape | 20251209/chatbot_v1.py:25-32 | a system message opens the list exactly when system_msg is non-empty; then each pair gives a user and an assistant message in order; the prompt closes it; length 2·len(history)+1, plus 1 with a system message |
| ChatV1.BuildMessages | 20251209/chatbot_v1.py:26-32 | the append loop builds exactly the specified list |
| ChatV1.HfPromptFrame | 20251209/chatbot_v1.py:111-114 | the prompt is `system_msg + "\n\n"`, then the pair lines, then `"User: prompt\nAssistant:"` |
| ChatV1.PairLinesHoldEachPair | 20251209/chatbot_v1.py:112-113 | every history pair appears in the prompt as its own two lines |
| ChatV1.BuildHfPrompt | 20251209/chatbot_v1.py:111-114 | the `+=` loop builds exactly the specified prompt |
| ChatV1.TrimReplyWithoutMarker | 20251209/chatbot_v1.py:124-127 | without "Assistant:" the output is returned unchanged |
| ChatV1.TrimReplyAfterLastMarker | 20251209/chatbot_v1.py:125-126 | with "Assistant:" the reply is the stripped text after an occurrence that no later occurrence follows |
| ChatV1.AskOllama | 20251209/chatbot_v1.py:25-44 | the subprocess is fed the message list; the reply is `Strip` of its output, so it has no blank at either end, and the call raises exactly when the subprocess does |
| ChatV1.AskClaude | 20251209/chatbot_v1.py:49-85 | without an API key the reply is "ERROR: Missing ANTHROPIC_API_KEY"; otherwise the reply is the text of the first "content" block, or "API ERROR: " + the rendered body when there is no "content"; the call raises exactly when the request raises or "content" is an empty list, the latter with IndexError |
| ChatV1.AskHuggingFace | 20251209/chatbot_v1.py:108-127 | the model is fed the prompt text; the call raises exactly when the model does; the reply is `TrimReply` of the output, which is the output unchanged when it holds no "Assistant:" |
| ChatV1.Reply | 20251209/chatbot_v1.py:161-166 | mode "2" without a key answers "ERROR: Missing ANTHROPIC_API_KEY"; the reply raises exactly when the backend of the chosen mode ("1" ollama, "2" Claude, anything else the local model) raises, or Claude's "content" is empty |
| ChatV1.ChatLoop.constructor | 20251209/chatbot_v1.py:137-149 | the loop starts with the chosen persona, the mode and an empty history |
| ChatV1.ChatLoop.Step | 20251209/chatbot_v1.py:151-169 | "exit" in any case stops and "/clear" empties the history; every other line, including "/save" and "/mode", appends exactly one (line, reply) pair, unless the backend raises: then the loop ends with that exception and the history is unchanged |
| ChatV1.HistoryAfterCount | 20251209/chatbot_v1.py:151-169 | over lines that are neither exit nor /clear, the history keeps its old entries and gains one pair per line answered, in order, each with its line as the user message; when fewer lines are answered than typed, the backend raised on the first unanswered line and the loop ended there |
| Factorial.GetFactorial | D1_Python_Basics_P1/Factorial.py:15-22 | fails exactly for negative n, with the ValueError message; otherwise the result is at least 1 |
| Factorial.FactorialIsProduct | D1_Python_Basics_P1/Factorial.py:19-22 | get_factorial(n) is the product 1 · 2 · … · n |

## Left out

- Characters beyond ASCII: `\w`, `lower()` and the whitespace of `split()`/`strip()` are modelled on ASCII only; Python's Unicode classes are not.
- Path handling: `Path(...)` normalisation (repeated or trailing separators, `.` parts) is not modelled; the file name is the text after the last '/'.
- The text splitter (`RecursiveCharacterTextSplitter`) is not part of this model. Its output is the parameter `split`, and no size or overlap property is claimed.
- The document loaders and the file-existence check are the parameters `pages` and `fileExists`.
- `load_multiple_documents`, `get_document_summary`, `print_banner`, `interactive_mode` and the demo code: presentation and I/O.
- The LangChain chain of `ask_question`, the `requests` calls, the SSE/stream parsing, the `ollama` subprocess and the HuggingFace model are function parameters.
- How these backends fail:
  - An exception that nothing catches is an error result. That covers the chain in `ask_question`, ChatBot_V2's `ask_ollama`, and every backend of `20251209/chatbot_v1.py`. The loop that called it ends, and the history is left as it was.
  - ChatBot_V2's `ask_claude` and `generate_summary` catch their exceptions. They turn them into reply text.
  - Which inputs make a backend raise is not modelled.
- ChatV1.AskClaude: the first "content" block is taken to carry a "text" field. The KeyError for a block without one is not modelled.
- `load_hf_model`'s one-time caching of the tokenizer and model in globals is inside the `generate` parameter.
- JSON persistence (`load_history`, `save_history`, saved conversations) and all `input()`/`print` menus. `/save`, `/list`, `/view`, `/stats`, `/help` and `/config` only print or write files, so they change no modelled state.
- Timestamps (`datetime.now()`) are the string parameters `loadedAt` and `now`. One `now` serves both the exchange and a summary entry made in the same step.
- Environment variables: the API key is a parameter. For DocumentQASystem it is the key after the `api_key or os.getenv(...)` fallback.
- Scores are exact reals, not binary floats.
- DocumentQA.Sources: `round(score, 3)` is not modelled; the source entries keep the unrounded score.
- The stop words are a list; the source's set is only queried for membership.
- Factorial.GetFactorial: does not model the RecursionError Python raises for large n, because integers and recursion depth are unbounded here.
- Text.ParseInt: `int()`'s underscores and non-ASCII digits are not accepted. Surrounding blanks are already stripped by the caller.
- ChatV2.ChatSession.Step: takes the command already read by ChatV2.ParseCommand, whose own contract covers how a line becomes a command.
- ChatV2.ChatSession.Step: implements the corrected /summarize (see Findings). ChatHistory.SummarizeCommandAsWritten is the command as written.
- ChatV1.AskOllama and ChatV1.AskHuggingFace: the JSON encoding of the message list and the tokenizer are inside the backend parameters.

## Findings

| source | as written | input that shows it | evidently intended | confidence | as-written member | corrected member |
|---|---|---|---|---|---|---|
| 20251211/ChatBot_V2.py:470-476 | `/summarize` checks `len(history) > KEEP_RECENT_MESSAGES`, then calls `summarize_history`, which compacts only when `len(history) > MAX_HISTORY_LENGTH` | a history of 10 turns: the guard passes (10 > 5), but the history comes back unchanged (10 ≤ 20) | the help text says "Summarize conversation now": compact whenever more than 5 turns exist | not executed | ChatHistory.SummarizeCommandDoesNothing | ChatHistory.SummarizeNowSpec |
