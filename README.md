# Mem0 open-source chat demo, modelled in Dafny

The model covers the command-line chat demo in `main_oss.ts`. It reads lines from the terminal. It recognises five commands: `quit`, `exit`, `reset`, `list` and `inspect`. Every other non-blank line becomes one conversational turn:

1. search the memory store for memories relevant to the line;
2. format the memories found into a prompt context;
3. ask the language model for an answer;
4. print the answer;
5. store the exchange back in the memory store.

The project has four modules:

- `Wrappers` (`wrappers.dfy`): `Option`. It stands for a missing value: JavaScript's `undefined` or `null`, where the code treats the two alike. Those places are a missing results list and a missing `output_text`. The fields of a memory record are the exception: a template literal renders `undefined` and `null` differently, so the record keeps the two apart.
- `JsText` (`js_text.dfy`): the JavaScript string operations the demo relies on.
  - `trim`, with the full ECMAScript white-space set.
  - `toLowerCase`, over ASCII.
  - `Array.prototype.join`.
  - `Lines`: splitting on newlines. It is used to read the rendered texts back and to state what they contain.
- `MemoryFormat` (`memory_format.dfy`): the two pure renderers, `formatMemoriesForPrompt` and `memoryOverview`.
- `Chat` (`chat.dfy`): the session.
  - The memory store and the language model are a `Backend`. This is a record of oracles. Each oracle answers a call with any function of the whole history so far, and may reject the call.
  - Everything observable the session does is appended to an event log:
    - prompts written;
    - store and model calls;
    - lines printed;
    - the input stream closed.
  - The spec function `RunFrom` describes a whole session over a script of input lines. It uses `Iteration`, which describes one pass of the loop.
  - The class `ChatSession` holds the input stream, a `closed` flag and the log. Its methods are the five wrappers and the loop itself, `RunChat`. `RunChat` is proved against `RunFrom`.
  - The lemmas establish the following about every session, whatever the services answer:
    - the stream is closed exactly once, as the last event;
    - every turn is a search, a generation, a printed answer and an `add`, in that order;
    - a wipe only ever follows the confirmation prompt;
    - failed writes change nothing.

Two details of the code shape the model:

- Commands are matched on the untrimmed, lower-cased line. A blank line is skipped only after that. No blank line is a command (`Chat.BlankLineSkipped`). A command word padded with white space is not a command: it is a conversational turn (`Chat.PaddedCommandIsTurn`).
- The code's fallback `?? "I'm sorry, I couldn't formulate a response.."` can never apply, because `trim()` always returns a string. An empty or blank answer from the model is therefore printed and stored as the empty string (`Chat.BlankAnswerPassesThrough`). The model keeps that behaviour.

## Model

| member | source | states |
|---|---|---|
| `JsText.Trim` | main_oss.ts:250 | `trim()` is the slice of the text left once the white space before and after it is dropped; it is empty exactly when the text is all white space, and otherwise starts and ends with a non-space |
| `JsText.TrimStart` | main_oss.ts:250 | the result is a suffix of the text, all of what it drops is white space, and it starts with a non-space |
| `JsText.TrimEnd` | main_oss.ts:250 | the result is a prefix of the text, all of what it drops is white space, and it ends with a non-space |
| `JsText.MatchIgnoringCase` | main_oss.ts:222-231 | comparing `toLowerCase()` with a command word holds exactly when the lengths match and each character is the word's letter in either case: no trimming |
| `JsText.BlankIsNoWord` | main_oss.ts:222-250 | a white-space-only line never matches a command word |
| `JsText.ToLower` | main_oss.ts:222-231 | ASCII `toLowerCase()` keeps the length, leaves no upper-case ASCII letter, and changes a character only by lowering an upper-case ASCII letter |
| `JsText.Join` | main_oss.ts:107-109 | joining no parts gives the empty string; otherwise the result starts with the first part |
| `JsText.JoinAppend` | main_oss.ts:107-109 | joining one more part appends exactly one separator and that part |
| `MemoryFormat.Bullet` | main_oss.ts:108 | a bullet starts with `- `; missing or empty content gives `- N/A`, and otherwise the content follows the dash unchanged |
| `MemoryFormat.Bullets` | main_oss.ts:107-108 | exactly one bullet per item, at the same index |
| `MemoryFormat.FormatMemoriesForPrompt` | main_oss.ts:100-111 | the result is the no-context sentinel exactly when the list is absent or empty; otherwise it starts with the header and a newline |
| `MemoryFormat.PromptLines` | main_oss.ts:107-110 | read back line by line, the context is the header followed by one bullet per item in input order: nothing is reordered, dropped or repeated |
| `MemoryFormat.PromptAppend` | main_oss.ts:107-110 | one more item adds exactly one bullet, at the end |
| `MemoryFormat.PromptOfOne` | main_oss.ts:107-110 | a single item gives the header, a newline and its bullet |
| `MemoryFormat.PromptOfTwo` | main_oss.ts:107-110 | two items with content give `Context from previous interactions:\n- a\n- b` |
| `MemoryFormat.Show` | main_oss.ts:194 | a template-literal hole inserts a string as it is, a missing value as `undefined` and `null` as `null` |
| `MemoryFormat.Entry` | main_oss.ts:194 | one listing entry; read back line by line it is three lines (`MemoryFormat.EntryLinesOfOne`) |
| `MemoryFormat.Entries` | main_oss.ts:193-195 | one entry per item, at the same index |
| `MemoryFormat.MemoryOverview` | main_oss.ts:188-197 | the result is the no-memories sentinel exactly when the list is absent or empty; otherwise it ends with a newline; a single item gives exactly its entry, which `MemoryFormat.OverviewAppend` extends one item at a time |
| `MemoryFormat.EntryLinesOfOne` | main_oss.ts:194 | an entry is three lines: the content, the indented timestamp, and an empty line |
| `MemoryFormat.OverviewLines` | main_oss.ts:192-196 | read back line by line, the listing is, for each item in order, its content, its timestamp line and an empty line |
| `MemoryFormat.OverviewAppend` | main_oss.ts:192-196 | one more item adds a newline and exactly one entry, at the end |
| `Chat.Found` | main_oss.ts:84-90 | a resolved search hands on its results field exactly; a failure or an absent field yields none; non-empty results come only from a resolved reply |
| `Chat.ResponseText` | main_oss.ts:131-138 | a resolved generation gives its text trimmed; a rejected one, or one with no text to trim, gives the apology; the answer is empty exactly when the text was all white space |
| `Chat.Listed` | main_oss.ts:202-208 | a failed listing gives an empty list; otherwise the results field exactly as the store returned it, absent included |
| `Chat.SearchCall` | main_oss.ts:80-83 | the search request: the user's line, the user id and a limit of 3 |
| `Chat.TurnContext` | main_oss.ts:253-258 | the prompt context of a turn: the search's results, or none on a failure, formatted for the prompt |
| `Chat.TurnAnswer` | main_oss.ts:261-263 | the answer of a turn: the model's reply to the history ending with the generation request, trimmed, or the apology |
| `Chat.GenerateCall` | main_oss.ts:123-129 | the generation request: the model, the system prompt and the context joined by a newline, then the user's text |
| `Chat.AddCall` | main_oss.ts:148-151 | the `add` request: the user's text, then the answer |
| `Chat.ListingText` | main_oss.ts:237-240 | the printed listing is the label, a blank line and a space, followed by exactly the overview |
| `Chat.TurnOf` | main_oss.ts:253-266 | the four calls of a turn; the `add` closes the turn that the search of the same line opened, and carries the printed answer |
| `Chat.TurnEvents` | main_oss.ts:253-266 | a turn searches for the line with limit 3; the generation's context is formatted from that search's reply; the printed and stored answer is the model's reply to the history ending with that generation |
| `Chat.Iteration` | main_oss.ts:220-267 | a pass reads lines from the front of the input, so what it leaves is a suffix; a pass that lets the loop go on has read at least one line |
| `Chat.RunFrom` | main_oss.ts:220-273 | the whole rest of a session, pass after pass, until the loop stops; its properties are the lemmas below and the contract of `Chat.ChatSession.RunChat` |
| `Chat.IsCommand` | main_oss.ts:222-249 | a line is a command exactly when its lower-cased form is one of `quit`, `exit`, `reset`, `list`, `inspect`; `Chat.PaddedLineIsNoCommand` and `JsText.BlankIsNoWord` characterise it |
| `Chat.StreamEnds` | main_oss.ts:268-271 | with no line left to read, the session writes the prompt and closes the stream |
| `Chat.QuitEndsSession` | main_oss.ts:222-226 | `quit` and `exit` in any case end the session with no store or model call, then close the stream |
| `Chat.ResetAsksConfirmation` | main_oss.ts:227-234 | `reset` asks for confirmation and wipes exactly once when the answer lowers to `y`, never otherwise, and goes on; with no answer to read the stream is closed |
| `Chat.ListStep` | main_oss.ts:235-241 | `list` makes one listing call and prints the label and the overview of what it returned |
| `Chat.InspectStep` | main_oss.ts:242-248 | `inspect` makes one listing call and dumps what it returned under the label |
| `Chat.BlankLineSkipped` | main_oss.ts:250 | a white-space-only line makes no call and prompts again |
| `Chat.TurnStep` | main_oss.ts:252-266 | any other line runs exactly one turn and prompts again |
| `Chat.PaddedLineIsNoCommand` | main_oss.ts:222-249 | a line holding white space at any position is no command |
| `Chat.PaddedCommandIsTurn` | main_oss.ts:222-250 | any line that trims to a command word but is not that word (white space before, after, or both) is no command and is not blank, so it is a turn |
| `Chat.SpacedCommandIsTurn` | main_oss.ts:222-250 | a word of letters with one space in front trims to the word, yet is no command and is not blank |
| `Chat.EmptySearchStillGenerates` | main_oss.ts:253-263 | a search that fails or finds nothing still leads to a generation, with the no-context sentinel as context |
| `Chat.FailedGenerationApologises` | main_oss.ts:136-138 | a failed generation prints the apology, and the apology is the answer handed to the store |
| `Chat.BlankAnswerPassesThrough` | main_oss.ts:131-133 | a blank generated text is printed and stored as the empty string; no fallback replaces it |
| `Chat.CoherentAppend` | main_oss.ts:253-266 | two coherent logs put together form a coherent log |
| `Chat.TurnIsCoherent` | main_oss.ts:253-266 | a prompt followed by the calls of one line forms one complete turn: search, generate, print, then `add` of the user's line and the printed answer, in that order; it holds no close |
| `Chat.EndingPass` | main_oss.ts:222-226 | at the end of the input, or on `quit` or `exit`, the pass stops the loop and adds exactly the prompt and the close |
| `Chat.ResetPass` | main_oss.ts:227-234 | a reset pass adds a coherent stretch, with the wipe directly after the confirmation prompt |
| `Chat.ListingPass` | main_oss.ts:235-248 | a list or inspect pass adds a coherent stretch without a close |
| `Chat.BlankPass` | main_oss.ts:250 | a blank-line pass adds only the prompt and goes on with the next line |
| `Chat.TurnPass` | main_oss.ts:252-266 | a turn pass adds a coherent stretch without a close |
| `Chat.IterationEvents` | main_oss.ts:220-267 | every pass adds a coherent stretch of events: when the loop stops, it ends with the one close; when it goes on, it holds none |
| `Chat.RunExtends` | main_oss.ts:220-273 | a session only appends to its log |
| `Chat.UnreadIsSuffix` | main_oss.ts:220-267 | lines are read in order, never skipped or read twice: what a session leaves unread is a suffix of its input |
| `Chat.ClosesOnce` | main_oss.ts:268-271 | on every way out of the loop the stream is closed exactly once, as the last event |
| `Chat.CloseAppended` | main_oss.ts:270-271 | appending a stretch that closes once to a log without a close gives a log that closes once, at its end |
| `Chat.RunIsCoherent` | main_oss.ts:253-266 | whatever the input and the services' answers, every `add` in the log closes a turn, every search opens one, and every wipe directly follows the confirmation prompt |
| `Chat.WriteOutcomesIgnored` | main_oss.ts:164-185 | the replies to `add` and `deleteAll`, failures included, never change the rest of the session |
| `Chat.ChatSession.constructor` | main_oss.ts:276 | a fresh session has the whole input to read, an open stream and an empty log |
| `Chat.ChatSession.Question` | main_oss.ts:221 | reading writes the prompt and consumes one line; at the end of the input there is no line; a closed stream reads nothing |
| `Chat.ChatSession.CloseReader` | main_oss.ts:271 | closing logs one close, and closing again does nothing |
| `Chat.ChatSession.ConsoleLog` | main_oss.ts:264 | printing logs exactly that line |
| `Chat.ChatSession.SearchMemories` | main_oss.ts:68-92 | an empty user id gives no results and makes no call; otherwise one search with limit 3, and its results or none on a failure |
| `Chat.ChatSession.GetChatbotResponse` | main_oss.ts:113-140 | one generation with the system prompt and context, then the user's text; the trimmed answer or the apology |
| `Chat.ChatSession.AddInteractionToMemory` | main_oss.ts:141-171 | one `add` of the user's text then the answer, and its failure is swallowed |
| `Chat.ChatSession.WipeMemory` | main_oss.ts:173-186 | one wipe; the result says whether the store accepted it |
| `Chat.ChatSession.ListMemory` | main_oss.ts:199-210 | one listing; the results as returned, or an empty list on a failure |
| `Chat.ChatSession.Converse` | main_oss.ts:252-266 | one turn logs the search, the generation, the printed answer and the `add`, as the turn specification says |
| `Chat.ChatSession.RunChat` | main_oss.ts:212-274 | the loop ends with the stream closed, and the log and the unread input are exactly those of the session specification |

## Left out

- `warmEmbedder` (an HTTP request to the embedding server whose only effect is a log line) is not part of this model. Nor is `timeit`: calls through it are modelled as direct calls, since its timing and number formatting use the clock and floating point.
- Client initialisation, the environment check and `process.exit` are not modelled. They are process control outside the loop.
- The start and end banners and every `console.log`/`console.error` diagnostic are not modelled. The exceptions are the printed answer and the `list` listing, which are logged as `Print` events.
- The `JSON.stringify` text of `inspect` is not modelled. The model logs a `Dump` event carrying the heading and the listed memories instead.
- The memory store and the OpenAI client are oracles. Their internals and their exact reply objects are third-party code and are not part of this model. Of each reply, the model keeps only the field the demo reads.
- `readline` and the async plumbing are modelled as consuming the next element of a script of input lines. The end of the script stands for the stream failing: `rl.question` rejects, the `catch` handler runs, then the `finally` closes the stream.
- `oss_config.ts` is a static configuration literal with no logic. It is not part of this model.
- JsText.LowerChar: `toLowerCase` is modelled over ASCII only. Every command word and the confirmation token are ASCII, so only non-ASCII characters that lower-case to ASCII letters could differ. The Kelvin sign is the one single character that does.
- Chat.Reply: a rejection is assumed to be an ordinary `Error`, whose handler completes. A rejection with `null` or `undefined` would make the handler's `error.message` throw. An error that `JSON.stringify` cannot serialise would make line 169 throw. Such a throw reaches the outer handler, which ends the session and closes the stream. The model does not capture that path.
- Chat.ChatSession.Converse: groups lines 252-266 of the loop body into one method. The loop calls it once per turn.
