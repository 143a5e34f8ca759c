# Interview practice coach: a Dafny model of its chat core

The interview practice app is a small Streamlit application. A user uploads
a CV and a job description, chooses a perspective (interviewer or candidate)
and an output format (`Text`, `JSON_A` or `JSON_B`), and then holds a
practice chat with a language model. This project models the core that
drives the chat:

- **The session state** is the chat-related part of one browser session
  (`st.session_state`). It is modelled as the class
  `ChatController.SessionState`, one `Option` field per session key, with
  `None` standing for "key not set".
- **The controller operations** are `ensure_session_state`, `reset_state`,
  `initialize_chat` and `chat_turn`. They are methods on that class. The
  prompt text and the request each call sends are given by pure functions
  (`SeedPrompt`, `SeedRequest`, `TurnPrompt`, `TurnRequest`). Lemmas prove
  what those prompts contain, where the parts sit, and how they read line
  by line.
- **The prompt builders** are the perspective text, the base user prompt
  with its ten instruction lines and labelled CV / JOB DESCRIPTION sections,
  and the two strict JSON format instructions, all in module
  `PromptsFormats`.
- **The content guard** is the prompt-injection blocklist and the
  15000-character document cap, in module `Security`. Each regular
  expression is expanded into the finite list of literal phrases it
  matches. Matching is a case-insensitive substring search.
- **The Python string operations** the code uses are in module
  `Strings`: `s[:n]` for any integer `n`, `"\n".join`, `startswith` and
  ASCII `lower`/`upper`. The module also defines substring occurrence
  (`Contains`), a suffix test (`EndsWith`) and splitting into lines
  (`Split`). The source calls none of these three; the lemmas use them to
  state what the prompts contain and how they read line by line.

The language-model call is an oracle. `_call_model` becomes
`ChatController.CallModel`, which takes the API key and a `gateway` function
from key and request to reply. An empty key raises before anything is sent.
Otherwise the request reaches the gateway unchanged. Text extraction from
the uploaded files is the function parameter `extract`. A raised exception is
the `Raised` case of `Outcome`.

The model follows the code where the code's behaviour is easy to overlook:

- `initialize_chat` commits the capped documents, the perspective, an empty
  history, the initialised flag and the locked format before it calls the
  model. A failing call therefore leaves an initialised chat with no
  messages (`SessionState.InitializeChat`).
- `chat_turn` appends the user message before the call. A failing call
  leaves that message in the history without a reply
  (`SessionState.ChatTurn`).
- `chat_turn` uses the format its caller passes, not the stored one. It
  sends the system prompt without the JSON output rule. It passes the
  temperature through unchanged, while the seed call forces 0.0 for JSON
  formats (`TurnDiffersFromSeed`). That difference holds for the request
  handed to `_call_model`. The OpenAI client itself sets the temperature to
  0.0 whenever JSON mode is on (openai_client.py:31-33), so a JSON turn is
  also sampled at 0.0 in the end.
- The three seed prompts are built differently:
  - `JSON_A` leaves the perspective out entirely (`SeedPromptJsonA`).
  - `JSON_B` puts a second `Perspective: ` label in front of a text that
    already starts with one (`SeedPromptJsonB`).
  - Only the text format goes through `build_user_prompt` (`SeedPromptTextLines`).
- Neither the seed nor the turn checks or repairs a JSON reply. The reply
  text is stored as it is.

## Model

| member | source | states |
|---|---|---|
| `Security.SearchPatterns` | security.py:21-24 | the loop over the table from a given index returns true exactly when some later pattern matches |
| `Security.PatternMatches` | security.py:9-22 | one `re.search(p, text, flags=re.IGNORECASE)` over the table `BlocklistPatterns` (security.py:9-16): some literal expansion of the pattern occurs in the lower-cased text; `PhraseShape` proves every expansion non-empty and lower case, and `ExpansionsBlocked`, `CaseVariantsBlocked` and `BlocklistMonotone` prove what it blocks |
| `Security.MatchesBlocklist` | security.py:18-24 | the empty text is never blocked; otherwise a text is blocked exactly when some pattern of the table matches it |
| `Security.PhraseShape` | security.py:9-16 | every literal expansion of every blocklist pattern is non-empty and contains no capital letter |
| `Security.PhraseBlocks` | security.py:21-23 | a text whose lower-cased form contains any expansion is blocked |
| `Security.BlocklistMonotone` | security.py:22 | a blocked text stays blocked whatever is put before or after it (the search is a substring search) |
| `Security.BlocklistIgnoresCase` | security.py:22 | two texts that agree up to ASCII case are blocked alike, and a text is blocked exactly when its lower-cased form is |
| `Security.ExpansionsBlocked` | security.py:9-16 | every expansion of every pattern is blocked in any surrounding text |
| `Security.PhraseAlone` | security.py:9-16 | every expansion is blocked on its own |
| `Security.ExfiltratPrefix` | security.py:13 | the bare prefix pattern blocks every text containing `exfiltrat`, followed by anything |
| `Security.ExfiltrationBlocked` | security.py:13 | "exfiltration" is blocked |
| `Security.IgnoreInstructionsBlocked` | security.py:10 | the optional group blocks the phrase both with and without "previous" |
| `Security.BypassBlocked` | security.py:11 | both arms of the bypass alternation are blocked |
| `Security.SendApiKeyBlocked` | security.py:14 | both arms of the API-key alternation are blocked |
| `Security.CaseVariantsBlocked` | security.py:22 | any spelling of an expansion that differs from it only in case is blocked, in any surrounding text |
| `Security.UpperCaseBlocked` | security.py:22 | the all-capitals spelling of every expansion is blocked, in any surrounding text |
| `PromptsFormats.PerspectiveText` | prompts_formats.py:13-23 | both perspective texts open with "Perspective: "; the interviewer text is returned exactly for the interviewer flag and the candidate text exactly for the other |
| `PromptsFormats.InstructionLines` | prompts_formats.py:48-62 | the instruction list has ten lines and the caller's fourth task is its fifth line |
| `PromptsFormats.InstructionLinesFree` | prompts_formats.py:48-62 | the instruction lines are all single lines exactly when the fourth task is |
| `PromptsFormats.EmbeddedDocument` | prompts_formats.py:45-46 | the embedded document is a prefix of the input (a missing one reads as empty), at most `max_chars` long for a non-negative cap, and the whole input when it fits |
| `PromptsFormats.BuildUserPrompt` | prompts_formats.py:26-72 | `build_user_prompt`: the joined instruction lines, the labelled perspective, the labelled truncated CV and JD and a final newline; `UserPromptLayout` proves where each part sits, `UserPromptLines` how it reads line by line, and `UserPromptEmbeds` that it contains the perspective text and both truncated documents |
| `PromptsFormats.UserPromptLayout` | prompts_formats.py:63-72 | the base prompt opens with the joined instruction lines, followed directly by the PERSPECTIVE header, the perspective text, the CV header, the truncated CV, the JD header, the truncated JD and a final newline, at the offsets stated |
| `PromptsFormats.UserPromptLines` | prompts_formats.py:48-64 | split on newlines, the base prompt (followed by any text) starts with exactly the ten instruction lines, with the fourth task as the fifth line |
| `PromptsFormats.UserPromptEmbeds` | prompts_formats.py:45-72 | the base prompt contains the perspective text and both truncated documents |
| `PromptsFormats.FormatJsonAKeys` | prompts_formats.py:75-79 | the JSON_A instruction names the keys cv_summary, job_summary, matches and gaps and asks for arrays of 5 items |
| `PromptsFormats.FormatJsonBKeys` | prompts_formats.py:81-85 | the JSON_B instruction asks for a `questions` array of 10 objects, each with a behavioral/technical type and a model answer |
| `PromptsFormats.FormatsExclusive` | prompts_formats.py:75-85 | no text opens with both JSON instructions |
| `ChatController.FormatInstruction` | chat_controller.py:53-59 | the JSON_A instruction is returned exactly for "JSON_A", the JSON_B instruction exactly for "JSON_B", and the plain-text instruction for every other format name |
| `ChatController.IsJsonFormat` | chat_controller.py:67 | `output_format.startswith("JSON")`, the test behind the system-prompt rule, the zero seed temperature and JSON mode (chat_controller.py:192, 247, 330); `EffectiveSystemPrompt`, `SeedRequest` and `TurnRequest` state each of them against it |
| `ChatController.FormatInstructionSingleLine` | chat_controller.py:53-59 | every format instruction is a single line |
| `ChatController.OpeningIdentifiesFormat` | chat_controller.py:53-59 | a text that opens with a format's instruction opens with the JSON_A (JSON_B) instruction exactly when the format is JSON_A (JSON_B) |
| `ChatController.EffectiveSystemPrompt` | chat_controller.py:62-76 | the result always starts with the system prompt; it is changed exactly for formats starting with "JSON", which get the output rule appended |
| `ChatController.CallModel` | chat_controller.py:109-126 | with no API key the call raises the missing-key error and nothing is sent; otherwise the request reaches the client unchanged |
| `ChatController.InitRejection` | chat_controller.py:163-175 | the checks run in source order (missing file, fewer than 20 extracted characters, blocked content), each with its message; the start is accepted exactly when both files are present, both texts are long enough and neither is blocked |
| `ChatController.PerspectiveMode` | chat_controller.py:179-181 | the stored mode is "interviewer" exactly for the interviewer flag and "candidate" otherwise |
| `ChatController.SeedPrompt` | chat_controller.py:188-236 | the first user prompt for each format: the JSON_A and JSON_B bodies (`json_a_task`, `json_b_task`) and the text-format base prompt; `SeedPromptOpening`, `SeedPromptJsonA`, `SeedPromptJsonB` and `SeedPromptTextLines` prove its opening, contents and lines |
| `ChatController.SeedStep4Free` | chat_controller.py:225-228 | the question-generation task is a single line |
| `ChatController.SeedPromptOpening` | chat_controller.py:188-236 | every seed prompt opens with its format's instruction, and so opens with a JSON instruction exactly for that JSON format |
| `ChatController.JsonSeedEmbeds` | chat_controller.py:194-222 | a JSON seed body carries both stored documents verbatim |
| `ChatController.SeedPromptJsonA` | chat_controller.py:194-206 | the JSON_A seed contains both documents and is the same whatever the perspective text |
| `ChatController.LabelTwice` | chat_controller.py:220-222 | putting a label in front of a text that already opens with it leaves the label twice in a row at the end of the prompt |
| `ChatController.JsonSeedWithPerspective` | chat_controller.py:208-222 | a JSON body followed by a labelled perspective text contains both documents, ends with the labelled perspective and contains the label twice in a row |
| `ChatController.SeedPromptJsonB` | chat_controller.py:208-222 | the JSON_B seed contains both documents, ends with the perspective text behind a "Perspective: " label, and so says "Perspective: " twice in a row |
| `ChatController.LinesAfterFormat` | chat_controller.py:312-314 | a one-line format instruction, a blank line and a base prompt followed by anything split into the format line, an empty line and then the ten instruction lines |
| `ChatController.SeedPromptTextLines` | chat_controller.py:224-236 | split on newlines, the text-format seed is the plain-text instruction, an empty line and the ten instruction lines with the question-generation task fourth |
| `ChatController.SeedRequest` | chat_controller.py:188-248 | the seed request carries the model, the effective system prompt and the seed prompt; the temperature is 0.0 for JSON formats and unchanged otherwise; every other sampling parameter is unchanged; JSON mode is on exactly for JSON formats |
| `ChatController.HistoryWindow` | chat_controller.py:296 | the history window is the last min(8, n) messages |
| `ChatController.RenderMessage` | chat_controller.py:298 | one history line, the upper-cased role, ": " and the content; `HistoryBlockLines` proves the block is these lines |
| `ChatController.RenderAll` | chat_controller.py:297-299 | one rendered line per message, in order, each `ROLE: content` |
| `ChatController.HistoryBlock` | chat_controller.py:295-299 | the newline join of the rendered window; `HistoryBlockLines` proves that for single-line messages it splits back into exactly the last min(8, n) rendered messages, oldest first |
| `ChatController.HistoryBlockLines` | chat_controller.py:295-299 | when every message is a single line, the history block splits into exactly the last min(8, n) messages, oldest first, one per line |
| `ChatController.TurnStep4Free` | chat_controller.py:304-307 | the continuation task is a single line |
| `ChatController.TurnBase` | chat_controller.py:301-310 | the base prompt of a turn: `build_user_prompt` over the stored documents, the continuation task and the stored perspective (interviewer exactly when the stored mode is "interviewer"); `TurnPromptEmbeds` and `TurnPromptLines` state what it contributes |
| `ChatController.TurnText` | chat_controller.py:312-319 | the turn f-string over its four variable parts; `TurnTextLayout`, `TurnTextOpens` and `TurnTextEmbeds` prove where each part sits and that each occurs in it |
| `ChatController.TurnTextLayout` | chat_controller.py:312-319 | a turn text is the format instruction, a blank line, the base prompt, the history header and block, the new-message header, the message and a final newline, at the offsets stated |
| `ChatController.TurnTextOpens` | chat_controller.py:312-313 | a turn text opens with its format instruction |
| `ChatController.TurnPrompt` | chat_controller.py:291-319 | the user prompt of a turn: the caller's format instruction, the base prompt, the history block and the new message; `TurnPromptLayout`, `TurnPromptOpening`, `TurnPromptEmbeds` and `TurnPromptLines` prove its layout, opening, contents and lines |
| `ChatController.TurnPromptLayout` | chat_controller.py:291-319 | the turn prompt places the stored-document base prompt, the history block of the last messages and the new message at those offsets, and ends with a newline |
| `ChatController.TurnPromptOpening` | chat_controller.py:291-313 | a turn prompt opens with the instruction of the format passed in, and so opens with a JSON instruction exactly for that JSON format |
| `ChatController.TurnTextEmbeds` | chat_controller.py:312-319 | a turn text contains its base prompt, its history block and the new message |
| `ChatController.TurnTextEmbedsBase` | chat_controller.py:301-319 | a turn text over a base prompt also contains the perspective text and the documents when they are within the cap |
| `ChatController.TurnPromptEmbeds` | chat_controller.py:291-319 | the turn prompt contains the new message, the history block, the stored perspective's text and each stored document no longer than the cap |
| `ChatController.TurnPromptLines` | chat_controller.py:301-319 | split on newlines, a turn prompt is the format line, an empty line and the ten instruction lines with the continuation task fourth |
| `ChatController.TurnRequest` | chat_controller.py:321-331 | the turn request carries the model, the system prompt and every sampling parameter exactly as given, and the turn prompt; JSON mode is on exactly for JSON formats |
| `ChatController.TurnDiffersFromSeed` | chat_controller.py:190-330 | for a JSON format the turn's system prompt differs from the seed's, both force JSON, and a non-zero temperature differs between them |
| `ChatController.SetDefault` | chat_controller.py:30-36 | `setdefault`: a present value stays and a missing one takes the default |
| `ChatController.SessionState.constructor` | chat_controller.py:28-36 | a new session holds none of the keys |
| `ChatController.SessionState.EnsureSessionState` | chat_controller.py:28-36 | each missing key takes its default, each present key keeps its value, and afterwards every key a turn reads is present |
| `ChatController.SessionState.ResetState` | chat_controller.py:39-47 | every key returns to its default (empty history and documents, candidate, not initialised, Text), whatever it held |
| `ChatController.SessionState.InitializeChat` | chat_controller.py:132-251 | a rejected start returns `(False, reason)` and changes nothing; an accepted one commits the documents capped at 15000 characters, the perspective, the flag and the format together with an empty history, then sends the seed request; a reply becomes the only message and gives `(True, None)`, a failure raises and leaves the commit with an empty history; the document cap is preserved |
| `ChatController.SessionState.StartChat` | chat_controller.py:177-251 | the accepted part of initialisation: commit first, then the call; the history is empty on failure and holds only the reply on success |
| `ChatController.SessionState.CallAndRecord` | chat_controller.py:321-333 | the reply is the model call's; a successful reply is appended to the history, a failure appends nothing; no other key changes |
| `ChatController.SessionState.SendTurn` | chat_controller.py:289-334 | the user message is appended before the call; on success the reply is appended and returned, on failure the user message stays without a reply; no other key changes |
| `ChatController.SessionState.ChatTurn` | chat_controller.py:257-334 | a blocked message raises and changes nothing; otherwise the user message is appended and the turn request built from the stored documents and perspective and the passed format is sent; on success the reply is appended and returned, on failure the user message stays; only the history ever changes |
| `Strings.PyPrefix` | prompts_formats.py:45-46 | `s[:n]` is a prefix of `s` of length min(n, len(s)) for non-negative n, and of length max(0, len(s) + n) for negative n |
| `Strings.Join` | prompts_formats.py:64 | `"\n".join(parts)` for a one-character separator (also chat_controller.py:297-299); `SplitJoin` and `SplitJoinThen` prove that the joined lines are read back exactly |
| `Strings.SplitJoin` | prompts_formats.py:64 | splitting a newline join of separator-free lines gives the lines back |
| `Strings.SplitJoinThen` | prompts_formats.py:64-65 | splitting a joined block followed by the separator and more text gives the block's lines and then the pieces of the rest |
| `Strings.AsciiLowerAppend` | security.py:22 | lower-casing distributes over concatenation |
| `Strings.AsciiLowerIdempotent` | security.py:22 | lower-casing twice is lower-casing once |
| `Strings.LowerOfUpper` | security.py:22 | upper-casing a text with no capitals and lower-casing it again gives the text back |

## Left out

- The Streamlit user interface (`app.py`, `ui_components.py`) is not part of this model. The output-format lock depends on the interface passing the stored format to `chat_turn`. `ChatTurn` takes the format as a parameter, as the source does, and does not read the stored one.
- Text extraction (`extraction.py`) is not part of this model. It is the function parameter `extract` of `InitializeChat`.
- The OpenAI client (`openai_client.py`) and its network call are an oracle: the `gateway` parameter. Whatever that client does with retries, JSON mode or errors is inside the oracle. In particular, the client replaces the temperature with 0.0 whenever JSON mode is on (openai_client.py:31-33). `TurnDiffersFromSeed` compares the requests handed to `_call_model`, before that override.
- Loading the API key (`config.py`: environment, `.env` file, Streamlit secrets) is not modelled. The key is the `apiKey` parameter.
- Sampling parameters are Python floats. They are modelled as `real`, because the code only passes them on or replaces the temperature with 0.0.
- `Security.MatchesBlocklist` folds only ASCII letters. Python's `re.IGNORECASE` also folds non-ASCII letters, for example the Kelvin sign `K` matches `k` and the long s `ſ` matches `s`, so the model blocks fewer texts than the source does on such input.
- The regular-expression engine is not modelled. Each blocklist pattern is given as the finite set of literal phrases it matches, which is exact for these six patterns.
- `ChatController.RenderMessage` applies ASCII-only `upper()` to roles. That is exact for the two roles the code stores.
- JSON replies are neither parsed nor checked, as in the source.
- `ChatController.SessionState.ChatTurn`: requires the four keys it reads to be present. The source would raise an attribute error without them, and `EnsureSessionState` establishes them.
- `ChatController.SessionState.InitializeChat` and `ChatTurn` delegate the commit, the append and the call to helper methods (`StartChat`, `SendTurn`, `CallAndRecord`). Their contracts state the same order of effects as the source.
- `build_user_prompt` is deterministic by construction, because every Dafny function is. A separate lemma would add nothing.
- A concrete mixed-case example such as "JailBreak" is covered by the general `Security.CaseVariantsBlocked` and `Security.UpperCaseBlocked` rather than by a lemma of its own.
