/** The chat controller: the per-browser-session state, the prompts sent to
    the model when a chat is seeded and on every later turn, the request
    parameters that go with them, and the two operations that drive a chat.
    The language-model call itself is an oracle: a function from an API key
    and a request to a reply, passed in by the caller. */
module ChatController {
  import opened Strings
  import opened Security
  import opened PromptsFormats

  /** One chat entry, `{"role": ..., "content": ...}`. */
  datatype Message = Message(role: string, content: string)

  const UserRole := "user"
  const AssistantRole := "assistant"

  /** An uploaded file: its name and its raw bytes. */
  datatype Upload = Upload(name: string, data: seq<bv8>)

  /** The sampling parameters of one model call. */
  datatype Sampling = Sampling(temperature: real, maxTokens: int, topP: real,
                               frequencyPenalty: real, presencePenalty: real)

  /** Everything one model call is given besides the API key. */
  datatype ModelRequest = ModelRequest(model: string, systemPrompt: string, userPrompt: string,
                                       sampling: Sampling, forceJson: bool)

  /** What the upstream client does with a request: it returns the
      assistant's text or raises an error. */
  datatype GatewayReply = Completed(text: string) | Failed(error: string)

  /** The end of a Python call: a returned value or a raised exception. */
  datatype Outcome<T> = Returned(value: T) | Raised(error: string)

  /** The `(ok, error_message)` pair returned by chat initialisation. */
  datatype InitReply = InitReply(ok: bool, error: Option<string>)

  const MissingFilesMessage := "Please upload both CV and Job Description."
  const InsufficientTextMessage :=
    "Could not extract enough text from one " + "of the files. Try a different format."
  const BlockedMessage := "Blocked content detected (potential " + "prompt-injection)."
  const MissingKeyMessage := "OPENAI_API_KEY missing. Set it in .env " + "or Streamlit secrets."

  /** A document must yield at least this many characters to start a chat. */
  const MinExtractedChars := 20

  /** The number of most recent messages quoted back on each turn. */
  const HistoryLimit := 8

  const TextInstruction := "Return normal text (not JSON)."

  /** The rule appended to the system prompt when JSON is requested. */
  const JsonOutputRule :=
    "\n\nIMPORTANT OUTPUT RULE:\n" + "If the user requested JSON, you MUST "
    + "output ONLY valid JSON.\n" + "Do not output markdown, headings, "
    + "backticks, code fences, or extra text.\n" + "If a value is unknown, use an empty "
    + "string or empty list.\n"

  /** The output formats whose names open with "JSON". */
  predicate IsJsonFormat(outputFormat: string) {
    StartsWith(outputFormat, "JSON")
  }

  /** `_format_instruction`: the JSON_A and JSON_B instructions for exactly
      those two format names, the plain-text instruction for every other. */
  function FormatInstruction(outputFormat: string): (r: string)
    ensures r == FormatJsonA <==> outputFormat == "JSON_A"
    ensures r == FormatJsonB <==> outputFormat == "JSON_B"
    ensures r == TextInstruction <==> outputFormat != "JSON_A" && outputFormat != "JSON_B"
  {
    assert FormatJsonA[39] == 'e' && FormatJsonB[39] == 'k';
    assert TextInstruction[7] == 'n' && FormatJsonA[7] == 'O' && FormatJsonB[7] == 'O';
    if outputFormat == "JSON_A" then FormatJsonA
    else if outputFormat == "JSON_B" then FormatJsonB
    else TextInstruction
  }

  lemma TextInstructionFree() ensures '\n' !in TextInstruction {}
  lemma JsonPreambleFree() ensures '\n' !in JsonPreamble && '\n' !in NoMarkdownRule {}
  lemma JsonAPiecesFree() ensures '\n' !in JsonAKeys && '\n' !in JsonAItems {}
  lemma JsonBKeysFree() ensures '\n' !in JsonBKeys {}
  lemma JsonBFieldsFree() ensures '\n' !in JsonBFields {}

  /** Every format instruction is a single line. */
  lemma FormatInstructionSingleLine(outputFormat: string)
    ensures '\n' !in FormatInstruction(outputFormat)
  {
    TextInstructionFree();
    JsonPreambleFree();
    JsonAPiecesFree();
    JsonBKeysFree();
    JsonBFieldsFree();
  }

  /** A text opening with the instruction for `outputFormat` opens with the
      JSON_A (JSON_B) instruction exactly when the format is JSON_A (JSON_B):
      the three instructions never pass for one another. */
  lemma OpeningIdentifiesFormat(s: string, outputFormat: string)
    requires StartsWith(s, FormatInstruction(outputFormat))
    ensures StartsWith(s, FormatJsonA) <==> outputFormat == "JSON_A"
    ensures StartsWith(s, FormatJsonB) <==> outputFormat == "JSON_B"
  {
    if outputFormat == "JSON_A" {
      FormatsExclusive(s);
    } else if outputFormat == "JSON_B" {
      if StartsWith(s, FormatJsonA) {
        FormatsExclusive(s);
      }
    } else {
      assert s[7] == TextInstruction[7] == 'n';
      assert FormatJsonA[7] == 'O' && FormatJsonB[7] == 'O';
    }
  }

  /** `_effective_system_prompt`: a JSON format gets the output rule appended
      to the system prompt; any other format leaves it as it is. */
  function EffectiveSystemPrompt(systemPrompt: string, outputFormat: string): (r: string)
    ensures StartsWith(r, systemPrompt)
    ensures r == systemPrompt <==> !IsJsonFormat(outputFormat)
    ensures IsJsonFormat(outputFormat) ==> r == systemPrompt + JsonOutputRule
  {
    if IsJsonFormat(outputFormat) then systemPrompt + JsonOutputRule else systemPrompt
  }

  /** `_call_model`: without an API key the call raises before anything is
      sent; with one, the request goes to the client unchanged. */
  function CallModel(apiKey: string, gateway: (string, ModelRequest) -> GatewayReply,
                     request: ModelRequest): (r: GatewayReply)
    ensures apiKey == "" ==> r == Failed(MissingKeyMessage)
    ensures apiKey != "" ==> r == gateway(apiKey, request)
  {
    if apiKey == "" then Failed(MissingKeyMessage) else gateway(apiKey, request)
  }

  /** The validation of `initialize_chat`, in source order: both files must be
      present, then both extracted texts must be long enough, then neither
      may hit the blocklist. `None` means the chat may start. */
  function InitRejection(cvFile: Option<Upload>, jdFile: Option<Upload>,
                         extract: Upload -> string): (r: Option<string>)
    ensures cvFile.None? || jdFile.None? ==> r == Some(MissingFilesMessage)
    ensures cvFile.Some? && jdFile.Some? ==>
              var cv := extract(cvFile.value);
              var jd := extract(jdFile.value);
              (|cv| < MinExtractedChars || |jd| < MinExtractedChars ==> r == Some(InsufficientTextMessage))
              && (MinExtractedChars <= |cv| && MinExtractedChars <= |jd| ==>
                    (r == Some(BlockedMessage) <==> MatchesBlocklist(cv) || MatchesBlocklist(jd)))
    ensures r.None? <==>
              cvFile.Some? && jdFile.Some?
              && MinExtractedChars <= |extract(cvFile.value)| && MinExtractedChars <= |extract(jdFile.value)|
              && !MatchesBlocklist(extract(cvFile.value)) && !MatchesBlocklist(extract(jdFile.value))
  {
    if cvFile.None? || jdFile.None? then Some(MissingFilesMessage)
    else
      var cv := extract(cvFile.value);
      var jd := extract(jdFile.value);
      if |cv| < MinExtractedChars || |jd| < MinExtractedChars then Some(InsufficientTextMessage)
      else if MatchesBlocklist(cv) || MatchesBlocklist(jd) then Some(BlockedMessage)
      else None
  }

  /** The stored perspective name: "interviewer" exactly for the interviewer
      flag, "candidate" otherwise. */
  function PerspectiveMode(isInterviewer: bool): (r: string)
    ensures r == "interviewer" <==> isInterviewer
    ensures r == "interviewer" || r == "candidate"
  {
    if isInterviewer then "interviewer" else "candidate"
  }

  const SeedStep4Head := "4) Generate 10 tailored interview "
  const SeedStep4Tail := "questions (behavioral + technical) and " + "provide answers."
  const SeedStep4 := SeedStep4Head + SeedStep4Tail

  const TurnStep4 := "4) Continue the interview practice " + "based on the new user message."

  lemma SeedStep4HeadFree() ensures '\n' !in SeedStep4Head {}
  lemma SeedStep4TailFree() ensures '\n' !in SeedStep4Tail {}

  lemma SeedStep4Free()
    ensures '\n' !in SeedStep4
  {
    SeedStep4HeadFree();
    SeedStep4TailFree();
  }

  lemma TurnStep4Free() ensures '\n' !in TurnStep4 {}

  const JsonATask :=
    "Task:\n" + "1) Summarize the CV in up to 150 words.\n" + "2) Summarize the Job Description in up "
    + "to 150 words.\n" + "3) List top 5 matches and top 5 gaps.\n" + "Do NOT add any other sections."

  const JsonBTask :=
    "Task:\n" + "Generate 10 tailored interview " + "questions (mix behavioral + technical) "
    + "based on CV and JD.\n" + "Provide model answers.\n" + "Do NOT output CV/JD summaries."

  const SeedCvHeader := "\n\n=== CV ===\n"
  const SeedJdHeader := "\n\n=== JOB DESCRIPTION ===\n"

  /** The two labelled documents as the JSON seed prompts embed them: whole,
      with no further truncation. */
  function SeedDocuments(cv: string, jd: string): string {
    SeedCvHeader + cv + SeedJdHeader + jd + "\n"
  }

  /** A JSON seed body: the format instruction, a blank line, the task list
      and the two documents. */
  function JsonSeedText(fmt: string, task: string, cv: string, jd: string): string {
    fmt + "\n\n" + task + SeedDocuments(cv, jd)
  }

  /** The first user prompt of a chat. JSON_A carries its own task list and
      the documents and no perspective; JSON_B its own task list, the
      documents and then the perspective text after a second "Perspective: "
      label; every other format the base prompt with the question-generation
      fourth task. */
  function SeedPrompt(outputFormat: string, cv: string, jd: string, perspectiveText: string): string {
    var fmt := FormatInstruction(outputFormat);
    if outputFormat == "JSON_A" then
      JsonSeedText(fmt, JsonATask, cv, jd)
    else if outputFormat == "JSON_B" then
      JsonSeedText(fmt, JsonBTask, cv, jd) + "\n\n" + PerspectiveLabel + perspectiveText
    else
      fmt + "\n\n" + BuildUserPrompt(Some(cv), Some(jd), SeedStep4, perspectiveText, MaxChars)
  }

  lemma JsonSeedOpens(fmt: string, task: string, cv: string, jd: string, tag: string, text: string)
    ensures StartsWith(JsonSeedText(fmt, task, cv, jd), fmt)
    ensures StartsWith(JsonSeedText(fmt, task, cv, jd) + "\n\n" + tag + text, fmt)
  {
    var body := JsonSeedText(fmt, task, cv, jd);
    assert body == fmt + ("\n\n" + task + SeedDocuments(cv, jd));
    assert body + "\n\n" + tag + text == fmt + ("\n\n" + task + SeedDocuments(cv, jd) + "\n\n" + tag + text);
  }

  lemma TextSeedOpens(fmt: string, base: string)
    ensures StartsWith(fmt + "\n\n" + base, fmt)
  {
    assert fmt + "\n\n" + base == fmt + ("\n\n" + base);
  }

  /** Every seed prompt opens with the instruction for its format, and so
      opens with a JSON instruction exactly for that JSON format. */
  lemma SeedPromptOpening(outputFormat: string, cv: string, jd: string, perspectiveText: string)
    ensures var r := SeedPrompt(outputFormat, cv, jd, perspectiveText);
            StartsWith(r, FormatInstruction(outputFormat))
            && (StartsWith(r, FormatJsonA) <==> outputFormat == "JSON_A")
            && (StartsWith(r, FormatJsonB) <==> outputFormat == "JSON_B")
  {
    var r := SeedPrompt(outputFormat, cv, jd, perspectiveText);
    var fmt := FormatInstruction(outputFormat);
    if outputFormat == "JSON_A" {
      JsonSeedOpens(fmt, JsonATask, cv, jd, PerspectiveLabel, perspectiveText);
    } else if outputFormat == "JSON_B" {
      JsonSeedOpens(fmt, JsonBTask, cv, jd, PerspectiveLabel, perspectiveText);
    } else {
      TextSeedOpens(fmt, BuildUserPrompt(Some(cv), Some(jd), SeedStep4, perspectiveText, MaxChars));
    }
    OpeningIdentifiesFormat(r, outputFormat);
  }

  /** A JSON seed body carries both documents verbatim. */
  lemma JsonSeedEmbeds(fmt: string, task: string, cv: string, jd: string)
    ensures Contains(JsonSeedText(fmt, task, cv, jd), cv) && Contains(JsonSeedText(fmt, task, cv, jd), jd)
  {
    var r := JsonSeedText(fmt, task, cv, jd);
    var docs := SeedDocuments(cv, jd);
    ContainsRight(fmt + "\n\n" + task, docs);
    ContainsMiddle(SeedCvHeader, cv, SeedJdHeader + jd + "\n");
    assert docs == SeedCvHeader + cv + (SeedJdHeader + jd + "\n");
    ContainsTrans(r, docs, cv);
    ContainsMiddle(SeedCvHeader + cv + SeedJdHeader, jd, "\n");
    ContainsTrans(r, docs, jd);
  }

  /** The JSON_A seed carries both documents verbatim and leaves the
      perspective out: it is the same for either perspective text. */
  lemma SeedPromptJsonA(cv: string, jd: string, p: string, q: string)
    ensures var r := SeedPrompt("JSON_A", cv, jd, p);
            Contains(r, cv) && Contains(r, jd) && r == SeedPrompt("JSON_A", cv, jd, q)
  {
    JsonSeedEmbeds(FormatJsonA, JsonATask, cv, jd);
  }

  /** A text that starts with `tag` and is put behind `tag` once more ends
      the result with the tag twice in a row. */
  lemma LabelTwice(x: string, tag: string, text: string)
    requires StartsWith(text, tag)
    ensures EndsWith(x + "\n\n" + tag + text, "\n\n" + tag + text)
    ensures Contains(x + "\n\n" + tag + text, tag + tag)
  {
    var r := x + "\n\n" + tag + text;
    var ending := "\n\n" + tag + text;
    assert r == x + ending;
    assert r[|x|..] == ending;
    var rest := text[|tag|..];
    assert text == tag + rest;
    assert ending == "\n\n" + (tag + tag) + rest;
    ContainsMiddle("\n\n", tag + tag, rest);
    ContainsSuffix(r, ending);
    ContainsTrans(r, ending, tag + tag);
  }

  /** The JSON_B seed carries both documents and ends with the perspective
      text behind a label of its own; since that text opens with the same
      label, the prompt says "Perspective: " twice in a row. */
  lemma SeedPromptJsonB(cv: string, jd: string, isInterviewer: bool)
    ensures var pt := PerspectiveText(isInterviewer);
            var r := SeedPrompt("JSON_B", cv, jd, pt);
            Contains(r, cv) && Contains(r, jd)
            && EndsWith(r, "\n\n" + PerspectiveLabel + pt)
            && Contains(r, PerspectiveLabel + PerspectiveLabel)
  {
    JsonSeedWithPerspective(FormatJsonB, JsonBTask, cv, jd, PerspectiveText(isInterviewer));
  }

  /** A JSON seed body followed by a perspective text behind its own label. */
  lemma JsonSeedWithPerspective(fmt: string, task: string, cv: string, jd: string, pt: string)
    requires StartsWith(pt, PerspectiveLabel)
    ensures var r := JsonSeedText(fmt, task, cv, jd) + "\n\n" + PerspectiveLabel + pt;
            Contains(r, cv) && Contains(r, jd)
            && EndsWith(r, "\n\n" + PerspectiveLabel + pt)
            && Contains(r, PerspectiveLabel + PerspectiveLabel)
  {
    var body := JsonSeedText(fmt, task, cv, jd);
    var r := body + "\n\n" + PerspectiveLabel + pt;
    JsonSeedEmbeds(fmt, task, cv, jd);
    ContainsLeft(body, "\n\n" + PerspectiveLabel + pt);
    assert r == body + ("\n\n" + PerspectiveLabel + pt);
    ContainsTrans(r, body, cv);
    ContainsTrans(r, body, jd);
    LabelTwice(body, PerspectiveLabel, pt);
  }

  /** A one-line format instruction, a blank line and then a base prompt
      followed by any `tail`: read line by line, the ten instruction lines
      start at the third line. */
  lemma {:induction false} LinesAfterFormat(fmt: string, cvText: Option<string>, jdText: Option<string>,
                                            step4: string, perspectiveText: string, tail: string)
    requires '\n' !in fmt && '\n' !in step4
    ensures var base := BuildUserPrompt(cvText, jdText, step4, perspectiveText, MaxChars);
            var lines := Split(fmt + "\n\n" + (base + tail), '\n');
            |lines| > 12 && lines[..2] == [fmt, ""] && lines[2..12] == InstructionLines(step4)
  {
    var base := BuildUserPrompt(cvText, jdText, step4, perspectiveText, MaxChars);
    UserPromptLines(cvText, jdText, step4, perspectiveText, MaxChars, tail);
    LinesAfterHeader(fmt, base + tail);
    LinesShiftedByTwo(fmt, "", Split(base + tail, '\n'), InstructionLines(step4));
  }

  /** Read line by line, the plain-text seed is the format line, a blank
      line and then the ten instruction lines with the question-generation
      task fourth. */
  lemma SeedPromptTextLines(outputFormat: string, cv: string, jd: string, perspectiveText: string)
    requires outputFormat != "JSON_A" && outputFormat != "JSON_B"
    ensures var lines := Split(SeedPrompt(outputFormat, cv, jd, perspectiveText), '\n');
            |lines| > 12 && lines[..2] == [TextInstruction, ""]
            && lines[2..12] == InstructionLines(SeedStep4)
  {
    var base := BuildUserPrompt(Some(cv), Some(jd), SeedStep4, perspectiveText, MaxChars);
    SeedStep4Free();
    TextInstructionFree();
    LinesAfterFormat(TextInstruction, Some(cv), Some(jd), SeedStep4, perspectiveText, "");
    assert base + "" == base;
  }

  /** The request that seeds a chat. */
  function SeedRequest(outputFormat: string, cv: string, jd: string, isInterviewer: bool,
                       model: string, systemPrompt: string, sampling: Sampling): (r: ModelRequest)
    ensures r.model == model
    ensures r.systemPrompt == EffectiveSystemPrompt(systemPrompt, outputFormat)
    ensures r.userPrompt == SeedPrompt(outputFormat, cv, jd, PerspectiveText(isInterviewer))
    ensures IsJsonFormat(outputFormat) ==> r.sampling.temperature == 0.0
    ensures !IsJsonFormat(outputFormat) ==> r.sampling.temperature == sampling.temperature
    ensures r.sampling.(temperature := sampling.temperature) == sampling
    ensures r.forceJson <==> IsJsonFormat(outputFormat)
  {
    var temperature := if IsJsonFormat(outputFormat) then 0.0 else sampling.temperature;
    ModelRequest(model, EffectiveSystemPrompt(systemPrompt, outputFormat),
                 SeedPrompt(outputFormat, cv, jd, PerspectiveText(isInterviewer)),
                 sampling.(temperature := temperature), IsJsonFormat(outputFormat))
  }

  /** `messages[-8:]`: the last `HistoryLimit` messages, or all of them when
      there are fewer. */
  function HistoryWindow(messages: seq<Message>): (r: seq<Message>)
    ensures |r| == Min(HistoryLimit, |messages|)
    ensures r == messages[|messages| - |r|..]
  {
    if |messages| <= HistoryLimit then messages else messages[|messages| - HistoryLimit..]
  }

  /** One history line, `ROLE: content`. */
  function RenderMessage(m: Message): string {
    AsciiUpper(m.role) + ": " + m.content
  }

  function RenderAll(messages: seq<Message>): (r: seq<string>)
    ensures |r| == |messages|
    ensures forall i :: 0 <= i < |messages| ==> r[i] == RenderMessage(messages[i])
  {
    if messages == [] then [] else [RenderMessage(messages[0])] + RenderAll(messages[1..])
  }

  /** The history block: the rendered window, one message per line. */
  function HistoryBlock(messages: seq<Message>): string {
    Join(RenderAll(HistoryWindow(messages)), '\n')
  }

  /** A message whose role and content are single lines. */
  predicate SingleLine(m: Message) {
    '\n' !in m.role && '\n' !in m.content
  }

  /** When every message is a single line, the history block holds exactly
      the last `HistoryLimit` messages, oldest first, one per line. */
  lemma HistoryBlockLines(messages: seq<Message>)
    requires |messages| >= 1
    requires forall i :: 0 <= i < |messages| ==> SingleLine(messages[i])
    ensures var lines := Split(HistoryBlock(messages), '\n');
            var n := Min(HistoryLimit, |messages|);
            |lines| == n
            && forall i :: 0 <= i < n ==> lines[i] == RenderMessage(messages[|messages| - n + i])
  {
    var w := HistoryWindow(messages);
    var rendered := RenderAll(w);
    forall i | 0 <= i < |rendered|
      ensures '\n' !in rendered[i]
    {
      var m := w[i];
      assert m == messages[|messages| - |w| + i];
      assert forall k :: 0 <= k < |m.role| ==> AsciiUpper(m.role)[k] != '\n';
    }
    SplitJoin(rendered, '\n');
  }

  const HistoryHeader := "\n\n=== CHAT HISTORY (most recent) ===\n"
  const NewMessageHeader := "\n\n=== NEW USER MESSAGE ===\n"

  /** The base prompt of a turn: the stored documents, the continuation task
      and the stored perspective. */
  function TurnBase(cv: string, jd: string, perspectiveMode: string): string {
    BuildUserPrompt(Some(cv), Some(jd), TurnStep4, PerspectiveText(perspectiveMode == "interviewer"), MaxChars)
  }

  /** The user prompt of a turn assembled from its four variable parts. */
  function TurnText(fmt: string, base: string, historyBlock: string, userInput: string): string {
    fmt + "\n\n" + base + HistoryHeader + historyBlock + NewMessageHeader + userInput + "\n"
  }

  /** Where the parts of a turn prompt sit: the format instruction first,
      the base prompt after a blank line, then the labelled history block,
      and at the very end the labelled new message and a newline. */
  lemma TurnTextLayout(fmt: string, base: string, historyBlock: string, userInput: string)
    ensures var r := TurnText(fmt, base, historyBlock, userInput);
            var h := |fmt| + 2 + |base|;
            var n := h + |HistoryHeader| + |historyBlock|;
            StartsWith(r, fmt)
            && OccursAt(r, base, |fmt| + 2)
            && OccursAt(r, HistoryHeader, h) && OccursAt(r, historyBlock, h + |HistoryHeader|)
            && OccursAt(r, NewMessageHeader, n) && OccursAt(r, userInput, n + |NewMessageHeader|)
            && |r| == n + |NewMessageHeader| + |userInput| + 1 && r[|r| - 1] == '\n'
  {
    var r := TurnText(fmt, base, historyBlock, userInput);
    EightParts(fmt, "\n\n", base, HistoryHeader, historyBlock, NewMessageHeader, userInput, "\n");
    assert r[|r| - 1] == r[|r| - 1..|r|][0];
  }

  /** The user prompt of a turn: the format line, the base prompt, the
      history block and the new message. `messages` already ends with the
      new user message. */
  function TurnPrompt(outputFormat: string, messages: seq<Message>, cv: string, jd: string,
                      perspectiveMode: string, userInput: string): string {
    TurnText(FormatInstruction(outputFormat), TurnBase(cv, jd, perspectiveMode),
             HistoryBlock(messages), userInput)
  }

  /** The layout of a turn prompt: its format instruction, then the base
      prompt built from the stored documents and perspective, then the
      history of the last messages, and last the new message. */
  lemma TurnPromptLayout(outputFormat: string, messages: seq<Message>, cv: string, jd: string,
                         perspectiveMode: string, userInput: string)
    ensures var r := TurnPrompt(outputFormat, messages, cv, jd, perspectiveMode, userInput);
            var fmt := FormatInstruction(outputFormat);
            var base := TurnBase(cv, jd, perspectiveMode);
            var h := |fmt| + 2 + |base|;
            var n := h + |HistoryHeader| + |HistoryBlock(messages)|;
            StartsWith(r, fmt)
            && OccursAt(r, base, |fmt| + 2)
            && OccursAt(r, HistoryHeader, h) && OccursAt(r, HistoryBlock(messages), h + |HistoryHeader|)
            && OccursAt(r, NewMessageHeader, n) && OccursAt(r, userInput, n + |NewMessageHeader|)
            && |r| == n + |NewMessageHeader| + |userInput| + 1 && r[|r| - 1] == '\n'
  {
    TurnTextLayout(FormatInstruction(outputFormat), TurnBase(cv, jd, perspectiveMode),
                   HistoryBlock(messages), userInput);
  }

  /** A turn prompt opens with the instruction of the format it is given,
      and so opens with a JSON instruction exactly for that JSON format. */
  lemma TurnPromptOpening(outputFormat: string, messages: seq<Message>, cv: string, jd: string,
                          perspectiveMode: string, userInput: string)
    ensures var r := TurnPrompt(outputFormat, messages, cv, jd, perspectiveMode, userInput);
            StartsWith(r, FormatInstruction(outputFormat))
            && (StartsWith(r, FormatJsonA) <==> outputFormat == "JSON_A")
            && (StartsWith(r, FormatJsonB) <==> outputFormat == "JSON_B")
  {
    var r := TurnPrompt(outputFormat, messages, cv, jd, perspectiveMode, userInput);
    TurnTextOpens(FormatInstruction(outputFormat), TurnBase(cv, jd, perspectiveMode),
                  HistoryBlock(messages), userInput);
    OpeningIdentifiesFormat(r, outputFormat);
  }

  /** A turn text opens with its format instruction. */
  lemma TurnTextOpens(fmt: string, base: string, historyBlock: string, userInput: string)
    ensures StartsWith(TurnText(fmt, base, historyBlock, userInput), fmt)
  {
    assert TurnText(fmt, base, historyBlock, userInput)
        == fmt + ("\n\n" + base + HistoryHeader + historyBlock + NewMessageHeader + userInput + "\n");
  }

  /** A turn text carries its base prompt, its history block and the new
      message verbatim. */
  lemma TurnTextEmbeds(fmt: string, base: string, historyBlock: string, userInput: string)
    ensures var r := TurnText(fmt, base, historyBlock, userInput);
            Contains(r, base) && Contains(r, historyBlock) && Contains(r, userInput)
  {
    var r := TurnText(fmt, base, historyBlock, userInput);
    var h := |fmt| + 2 + |base|;
    TurnTextLayout(fmt, base, historyBlock, userInput);
    ContainsAt(r, base, |fmt| + 2);
    ContainsAt(r, historyBlock, h + |HistoryHeader|);
    ContainsAt(r, userInput, h + |HistoryHeader| + |historyBlock| + |NewMessageHeader|);
  }

  /** A turn prompt carries the new message, the history block, the stored
      perspective and both stored documents when they are within the cap. */
  lemma TurnPromptEmbeds(outputFormat: string, messages: seq<Message>, cv: string, jd: string,
                         perspectiveMode: string, userInput: string)
    ensures var r := TurnPrompt(outputFormat, messages, cv, jd, perspectiveMode, userInput);
            Contains(r, userInput)
            && Contains(r, HistoryBlock(messages))
            && Contains(r, PerspectiveText(perspectiveMode == "interviewer"))
            && (|cv| <= MaxChars ==> Contains(r, cv))
            && (|jd| <= MaxChars ==> Contains(r, jd))
  {
    TurnTextEmbedsBase(FormatInstruction(outputFormat), cv, jd, TurnStep4,
                       PerspectiveText(perspectiveMode == "interviewer"), HistoryBlock(messages), userInput);
  }

  /** A turn text over a base prompt carries the base prompt's perspective
      text and documents as well as the history and the new message. */
  lemma TurnTextEmbedsBase(fmt: string, cv: string, jd: string, step4: string, pt: string,
                           historyBlock: string, userInput: string)
    ensures var r := TurnText(fmt, BuildUserPrompt(Some(cv), Some(jd), step4, pt, MaxChars), historyBlock, userInput);
            Contains(r, userInput) && Contains(r, historyBlock) && Contains(r, pt)
            && (|cv| <= MaxChars ==> Contains(r, cv))
            && (|jd| <= MaxChars ==> Contains(r, jd))
  {
    var base := BuildUserPrompt(Some(cv), Some(jd), step4, pt, MaxChars);
    var r := TurnText(fmt, base, historyBlock, userInput);
    TurnTextEmbeds(fmt, base, historyBlock, userInput);
    UserPromptEmbeds(Some(cv), Some(jd), step4, pt, MaxChars);
    ContainsTrans(r, base, pt);
    ContainsTrans(r, base, EmbeddedDocument(Some(cv), MaxChars));
    ContainsTrans(r, base, EmbeddedDocument(Some(jd), MaxChars));
  }

  /** Read line by line, a turn prompt is the format line, a blank line and
      then the ten instruction lines with the continuation task fourth. */
  lemma TurnPromptLines(outputFormat: string, messages: seq<Message>, cv: string, jd: string,
                        perspectiveMode: string, userInput: string)
    ensures var lines := Split(TurnPrompt(outputFormat, messages, cv, jd, perspectiveMode, userInput), '\n');
            |lines| > 12 && lines[..2] == [FormatInstruction(outputFormat), ""]
            && lines[2..12] == InstructionLines(TurnStep4)
  {
    var fmt := FormatInstruction(outputFormat);
    var pt := PerspectiveText(perspectiveMode == "interviewer");
    var base := TurnBase(cv, jd, perspectiveMode);
    var tail := HistoryHeader + HistoryBlock(messages) + NewMessageHeader + userInput + "\n";
    RegroupAfterTwo(fmt, "\n\n", base, HistoryHeader, HistoryBlock(messages), NewMessageHeader, userInput, "\n");
    TurnStep4Free();
    FormatInstructionSingleLine(outputFormat);
    LinesAfterFormat(fmt, Some(cv), Some(jd), TurnStep4, pt, tail);
  }

  /** The request of one turn: the system prompt and every sampling
      parameter exactly as given, JSON mode for JSON formats. */
  function TurnRequest(outputFormat: string, messages: seq<Message>, cv: string, jd: string,
                       perspectiveMode: string, userInput: string,
                       model: string, systemPrompt: string, sampling: Sampling): (r: ModelRequest)
    ensures r.model == model && r.systemPrompt == systemPrompt && r.sampling == sampling
    ensures r.userPrompt == TurnPrompt(outputFormat, messages, cv, jd, perspectiveMode, userInput)
    ensures r.forceJson <==> IsJsonFormat(outputFormat)
  {
    ModelRequest(model, systemPrompt,
                 TurnPrompt(outputFormat, messages, cv, jd, perspectiveMode, userInput),
                 sampling, IsJsonFormat(outputFormat))
  }

  /** In a JSON format a turn differs from the seed: its system prompt lacks
      the output rule, and a non-zero temperature is passed on rather than
      replaced by zero. */
  lemma TurnDiffersFromSeed(outputFormat: string, messages: seq<Message>, cv: string, jd: string,
                            isInterviewer: bool, userInput: string,
                            model: string, systemPrompt: string, sampling: Sampling)
    requires IsJsonFormat(outputFormat)
    ensures var perspectiveMode := PerspectiveMode(isInterviewer);
            var seed := SeedRequest(outputFormat, cv, jd, isInterviewer, model, systemPrompt, sampling);
            var turn := TurnRequest(outputFormat, messages, cv, jd, perspectiveMode, userInput,
                                    model, systemPrompt, sampling);
            turn.systemPrompt != seed.systemPrompt
            && turn.forceJson == seed.forceJson
            && (sampling.temperature != 0.0 ==> turn.sampling.temperature != seed.sampling.temperature)
  {
    assert |JsonOutputRule| > 0;
  }

  /** `dict.setdefault` on one key: a present value stays, a missing one
      takes the default. */
  function SetDefault<T>(current: Option<T>, default: T): (r: Option<T>)
    ensures r.Some?
    ensures current.Some? ==> r == current
    ensures current.None? ==> r == Some(default)
  {
    if current.Some? then current else Some(default)
  }

  /** The chat-related part of one browser session. Each field is one
      session key; `None` means the key has not been set. */
  class SessionState {
    var messages: Option<seq<Message>>
    var cvText: Option<string>
    var jdText: Option<string>
    var perspectiveMode: Option<string>
    var initialized: Option<bool>
    var outputFormat: Option<string>

    /** A new session holds none of the keys. */
    constructor()
      ensures messages.None? && cvText.None? && jdText.None?
      ensures perspectiveMode.None? && initialized.None? && outputFormat.None?
    {
      messages := None;
      cvText := None;
      jdText := None;
      perspectiveMode := None;
      initialized := None;
      outputFormat := None;
    }

    /** The keys a chat turn reads. */
    predicate HasTurnKeys()
      reads this
    {
      messages.Some? && cvText.Some? && jdText.Some? && perspectiveMode.Some?
    }

    /** The state of a fresh chat. */
    predicate IsDefault()
      reads this
    {
      messages == Some([]) && cvText == Some("") && jdText == Some("")
      && perspectiveMode == Some("candidate") && initialized == Some(false)
      && outputFormat == Some("Text")
    }

    /** No stored document is longer than the cap. */
    predicate DocumentsCapped()
      reads this
    {
      |OrEmpty(cvText)| <= MaxChars && |OrEmpty(jdText)| <= MaxChars
    }

    /** `ensure_session_state`: every missing key takes its default and
      every present key keeps its value. */
    method EnsureSessionState()
      modifies this
      ensures messages == SetDefault(old(messages), [])
      ensures cvText == SetDefault(old(cvText), "")
      ensures jdText == SetDefault(old(jdText), "")
      ensures perspectiveMode == SetDefault(old(perspectiveMode), "candidate")
      ensures initialized == SetDefault(old(initialized), false)
      ensures outputFormat == SetDefault(old(outputFormat), "Text")
      ensures HasTurnKeys()
    {
      messages := SetDefault(messages, []);
      cvText := SetDefault(cvText, "");
      jdText := SetDefault(jdText, "");
      perspectiveMode := SetDefault(perspectiveMode, "candidate");
      initialized := SetDefault(initialized, false);
      outputFormat := SetDefault(outputFormat, "Text");
    }

    /** `reset_state`: every key back to its default, whatever it held. */
    method ResetState()
      modifies this
      ensures IsDefault() && HasTurnKeys() && DocumentsCapped()
    {
      messages := Some([]);
      cvText := Some("");
      jdText := Some("");
      perspectiveMode := Some("candidate");
      initialized := Some(false);
      outputFormat := Some("Text");
    }

    /** The state an accepted start commits before the model is called. */
    predicate Committed(cv: string, jd: string, isInterviewer: bool, format: string)
      reads this
    {
      cvText == Some(cv) && jdText == Some(jd)
      && perspectiveMode == Some(PerspectiveMode(isInterviewer))
      && initialized == Some(true) && outputFormat == Some(format)
    }

    /** `initialize_chat`. A rejected start changes nothing and returns the
        reason. An accepted start first commits the capped documents, the
        perspective, an empty history, the initialised flag and the locked
        format, and only then calls the model: a failing call raises and
        leaves that commit in place with an empty history, a successful one
        makes the reply the only message. */
    method InitializeChat(cvFile: Option<Upload>, jdFile: Option<Upload>, extract: Upload -> string,
                          isInterviewer: bool, format: string, model: string, systemPrompt: string,
                          sampling: Sampling, apiKey: string,
                          gateway: (string, ModelRequest) -> GatewayReply)
        returns (result: Outcome<InitReply>)
      modifies this
      ensures var rejection := InitRejection(cvFile, jdFile, extract);
              rejection.Some? ==>
                result == Returned(InitReply(false, rejection))
                && messages == old(messages) && cvText == old(cvText) && jdText == old(jdText)
                && perspectiveMode == old(perspectiveMode) && initialized == old(initialized)
                && outputFormat == old(outputFormat)
      ensures InitRejection(cvFile, jdFile, extract).None? ==>
                var cv := PyPrefix(extract(cvFile.value), MaxChars);
                var jd := PyPrefix(extract(jdFile.value), MaxChars);
                var reply := CallModel(apiKey, gateway,
                                       SeedRequest(format, cv, jd, isInterviewer, model, systemPrompt, sampling));
                Committed(cv, jd, isInterviewer, format)
                && (reply.Completed? ==>
                      result == Returned(InitReply(true, None))
                      && messages == Some([Message(AssistantRole, reply.text)]))
                && (reply.Failed? ==> result == Raised(reply.error) && messages == Some([]))
      ensures old(DocumentsCapped()) ==> DocumentsCapped()
    {
      var rejection := InitRejection(cvFile, jdFile, extract);
      if rejection.Some? {
        return Returned(InitReply(false, rejection));
      }
      var cv := PyPrefix(extract(cvFile.value), MaxChars);
      var jd := PyPrefix(extract(jdFile.value), MaxChars);
      var request := SeedRequest(format, cv, jd, isInterviewer, model, systemPrompt, sampling);
      result := StartChat(cv, jd, isInterviewer, format, request, apiKey, gateway);
    }

    /** The accepted part of `initialize_chat`: commit, then send the seed
        request. */
    method StartChat(cv: string, jd: string, isInterviewer: bool, format: string,
                     request: ModelRequest, apiKey: string,
                     gateway: (string, ModelRequest) -> GatewayReply)
        returns (result: Outcome<InitReply>)
      requires |cv| <= MaxChars && |jd| <= MaxChars
      modifies this
      ensures var reply := CallModel(apiKey, gateway, request);
              Committed(cv, jd, isInterviewer, format) && DocumentsCapped()
              && (reply.Completed? ==>
                    result == Returned(InitReply(true, None))
                    && messages == Some([Message(AssistantRole, reply.text)]))
              && (reply.Failed? ==> result == Raised(reply.error) && messages == Some([]))
    {
      cvText := Some(cv);
      jdText := Some(jd);
      perspectiveMode := Some(PerspectiveMode(isInterviewer));
      messages := Some([]);
      initialized := Some(true);
      outputFormat := Some(format);
      var reply := CallAndRecord(request, apiKey, gateway);
      if reply.Failed? {
        return Raised(reply.error);
      }
      assert [] + [Message(AssistantRole, reply.text)] == [Message(AssistantRole, reply.text)];
      return Returned(InitReply(true, None));
    }

    /** The unblocked part of `chat_turn`: append the user message, then
        call the model with the turn request and record its reply. */
    method SendTurn(userInput: string, request: ModelRequest, apiKey: string,
                    gateway: (string, ModelRequest) -> GatewayReply)
        returns (result: Outcome<string>)
      requires messages.Some?
      modifies this
      ensures var history := old(messages.value) + [Message(UserRole, userInput)];
              var reply := CallModel(apiKey, gateway, request);
              (reply.Completed? ==>
                 result == Returned(reply.text)
                 && messages == Some(history + [Message(AssistantRole, reply.text)]))
              && (reply.Failed? ==> result == Raised(reply.error) && messages == Some(history))
      ensures cvText == old(cvText) && jdText == old(jdText) && perspectiveMode == old(perspectiveMode)
      ensures initialized == old(initialized) && outputFormat == old(outputFormat)
    {
      messages := Some(messages.value + [Message(UserRole, userInput)]);
      var reply := CallAndRecord(request, apiKey, gateway);
      if reply.Failed? {
        return Raised(reply.error);
      }
      return Returned(reply.text);
    }

    /** One model call followed by `messages.append` of the reply: a failing
        call raises before anything is appended. Only the history changes. */
    method CallAndRecord(request: ModelRequest, apiKey: string,
                         gateway: (string, ModelRequest) -> GatewayReply)
        returns (reply: GatewayReply)
      requires messages.Some?
      modifies this
      ensures reply == CallModel(apiKey, gateway, request)
      ensures reply.Completed? ==> messages == Some(old(messages.value) + [Message(AssistantRole, reply.text)])
      ensures reply.Failed? ==> messages == old(messages)
      ensures cvText == old(cvText) && jdText == old(jdText) && perspectiveMode == old(perspectiveMode)
      ensures initialized == old(initialized) && outputFormat == old(outputFormat)
    {
      reply := CallModel(apiKey, gateway, request);
      if reply.Completed? {
        messages := Some(messages.value + [Message(AssistantRole, reply.text)]);
      }
    }

    /** `chat_turn`. A blocked message raises and changes nothing. Otherwise
        the user message is appended before the model is called, with the
        format the caller passes; a failing call raises and leaves that user
        message in the history, a successful one appends the reply and
        returns it. Nothing but the history changes. */
    method ChatTurn(userInput: string, format: string, model: string, systemPrompt: string,
                    sampling: Sampling, apiKey: string,
                    gateway: (string, ModelRequest) -> GatewayReply)
        returns (result: Outcome<string>)
      requires HasTurnKeys()
      modifies this
      ensures cvText == old(cvText) && jdText == old(jdText) && perspectiveMode == old(perspectiveMode)
      ensures initialized == old(initialized) && outputFormat == old(outputFormat)
      ensures HasTurnKeys()
      ensures MatchesBlocklist(userInput) ==> result == Raised(BlockedMessage) && messages == old(messages)
      ensures !MatchesBlocklist(userInput) ==>
                var history := old(messages.value) + [Message(UserRole, userInput)];
                var reply := CallModel(apiKey, gateway,
                                       TurnRequest(format, history, old(cvText.value), old(jdText.value),
                                                   old(perspectiveMode.value), userInput,
                                                   model, systemPrompt, sampling));
                (reply.Completed? ==>
                   result == Returned(reply.text)
                   && messages == Some(history + [Message(AssistantRole, reply.text)]))
                && (reply.Failed? ==> result == Raised(reply.error) && messages == Some(history))
    {
      if MatchesBlocklist(userInput) {
        return Raised(BlockedMessage);
      }
      var history := messages.value + [Message(UserRole, userInput)];
      var request := TurnRequest(format, history, cvText.value, jdText.value,
                                 perspectiveMode.value, userInput, model, systemPrompt, sampling);
      result := SendTurn(userInput, request, apiKey, gateway);
    }
  }
}
