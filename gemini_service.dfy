/**
 * The pure parts of `services/geminiService.ts`: the history excerpt and the
 * per-agent persona blocks sent with a group-chat request, the request text
 * itself, the validation of the entries the model sends back, and the
 * speech-preview prompt and audio extraction.
 *
 * The Gemini SDK is outside the model. The group-chat request and the
 * speech preview each take the model as a function from the text sent to
 * its answer: the parsed JSON (or the audio response) or the value the SDK
 * or `JSON.parse` threw.
 */
module GeminiTemplate {
  /** The fixed passages of the request template. */
  datatype Passage = PromptIntro | PromptTask

  function Text(p: Passage): string
  {
    match p
    case PromptIntro => "\nYour task is to generate responses for any AI agents who would naturally speak next, based on the last message and the ongoing conversation.\nYou must follow all CORE RULES and other instructions precisely.\nYou must generate the responses yourself, perfectly emulating each agent's unique personality, emotion, and behavioral guidelines as detailed in their profiles.\n\n**AVAILABLE AGENT PROFILES:**\n"
    case PromptTask => "\n\n**YOUR TASK:**\n1.  Read the last message and the conversation history.\n2.  Review all available agent profiles and their detailed personas.\n3.  Decide which agent(s) should respond, following the \"WHO REPLIES WHEN & HOW\" rules.\n4.  For each responding agent, write their reply. The reply MUST strictly follow all of their behavioral guidelines and persona.\n5.  Return a single JSON object containing a list of these responses.\n\nThe JSON output must match the provided schema exactly. Do not add any extra text, explanations, or markdown formatting.\n"
  }
}

module GeminiService {
  import opened Wrappers
  import opened Types
  import opened Strings
  import opened Js
  import PromptService
  import opened GeminiTemplate

  // ---------------------------------------------------------------------------
  // Conversation history
  // ---------------------------------------------------------------------------

  /** How many of the most recent messages a request carries. */
  const HistoryWindow: nat := 20

  /** One history line, `name: text`. */
  function HistoryLine(m: ChatMessage): string
  {
    m.author.name + ": " + m.text
  }

  /** `history.slice(-20)`: the last twenty messages, or all of them when there are fewer. */
  function RecentHistory(history: seq<ChatMessage>): (r: seq<ChatMessage>)
    ensures |r| == if |history| < HistoryWindow then |history| else HistoryWindow
    ensures forall i :: 0 <= i < |r| ==> r[i] == history[|history| - |r| + i]
  {
    if |history| <= HistoryWindow then history else history[|history| - HistoryWindow..]
  }

  function HistoryLines(messages: seq<ChatMessage>): (r: seq<string>)
    ensures |r| == |messages|
    ensures forall i :: 0 <= i < |messages| ==> r[i] == HistoryLine(messages[i])
  {
    seq(|messages|, i requires 0 <= i < |messages| => HistoryLine(messages[i]))
  }

  /** `formatHistory(history)`: the recent messages as lines, joined by newlines. */
  function FormatHistory(history: seq<ChatMessage>): string
  {
    Join("\n", HistoryLines(RecentHistory(history)))
  }

  /** The text carries no line break, so it stays on its own history line. */
  predicate SingleLine(s: string)
  {
    '\n' !in s
  }

  /**
   * Reading the formatted history back line by line gives exactly the last
   * min(20, n) messages, in their original order, each as `name: text`,
   * provided names and texts are single lines.
   */
  lemma FormatHistoryLines(history: seq<ChatMessage>)
    requires history != []
    requires forall m :: m in history ==> SingleLine(m.author.name) && SingleLine(m.text)
    ensures var lines := Split(FormatHistory(history), '\n');
      && |lines| == (if |history| < HistoryWindow then |history| else HistoryWindow)
      && forall i :: 0 <= i < |lines| ==> lines[i] == HistoryLine(history[|history| - |lines| + i])
  {
    var recent := RecentHistory(history);
    var lines := HistoryLines(recent);
    forall i | 0 <= i < |lines| ensures '\n' !in lines[i] {
      var m := recent[i];
      assert m == history[|history| - |recent| + i];
      assert m in history;
    }
    assert "\n" == ['\n'];
    SplitJoin(lines, '\n');
  }

  /** The history text is empty exactly when the history is (each line holds at least `: `). */
  lemma FormatHistoryEmptyIff(history: seq<ChatMessage>)
    ensures FormatHistory(history) == "" <==> history == []
  {
    var lines := HistoryLines(RecentHistory(history));
    forall i | 0 <= i < |lines| ensures lines[i] != "" {
      assert |lines[i]| >= 2;
    }
    JoinEmptyIff("\n", lines);
  }

  // ---------------------------------------------------------------------------
  // Persona blocks
  // ---------------------------------------------------------------------------

  const BlockRule: string := "\n---\n"
  const PersonaLabel: string := "\nAGENT PERSONA:\n"

  function IdLine(agent: AgentProfile): string
  {
    "AGENT ID: " + agent.id
  }

  function NameLine(agent: AgentProfile): string
  {
    "\nAGENT NAME: " + agent.name
  }

  /** One agent's block: its id, its name and its persona text, between rules. */
  function PersonaBlock(agent: AgentProfile, persona: string): string
  {
    BlockRule + IdLine(agent) + NameLine(agent) + PersonaLabel + persona + BlockRule
  }

  /** Each roster agent's system prompt, built against the whole roster. */
  function Personas(agents: seq<AgentProfile>): (r: seq<string>)
    ensures |r| == |agents|
  {
    seq(|agents|, i requires 0 <= i < |agents| => PromptService.GenerateSystemPrompt(agents[i], agents))
  }

  /** One block per agent, in roster order, each with that agent's persona. */
  function PersonaBlocks(agents: seq<AgentProfile>, personas: seq<string>): (r: seq<string>)
    requires |personas| == |agents|
    ensures |r| == |agents|
  {
    seq(|agents|, i requires 0 <= i < |agents| => PersonaBlock(agents[i], personas[i]))
  }

  /** The blocks, blank-line separated. */
  function ProfilesText(agents: seq<AgentProfile>, personas: seq<string>): string
    requires |personas| == |agents|
  {
    Join("\n\n", PersonaBlocks(agents, personas))
  }

  /** The profiles part of a request. */
  function AgentProfilesText(agents: seq<AgentProfile>): string
  {
    ProfilesText(agents, Personas(agents))
  }

  /** A block holds the agent's id line, its name line and its persona. */
  lemma PersonaBlockContents(agent: AgentProfile, persona: string)
    ensures var block := PersonaBlock(agent, persona);
      && Contains(block, IdLine(agent))
      && Contains(block, NameLine(agent))
      && Contains(block, persona)
  {
    var id, name := IdLine(agent), NameLine(agent);
    ContainsSuffix(BlockRule, id);
    ContainsGrowRight(BlockRule + id, id, name);
    ContainsGrowRight(BlockRule + id + name, id, PersonaLabel);
    ContainsGrowRight(BlockRule + id + name + PersonaLabel, id, persona);
    ContainsGrowRight(BlockRule + id + name + PersonaLabel + persona, id, BlockRule);
    ContainsSuffix(BlockRule + id, name);
    ContainsGrowRight(BlockRule + id + name, name, PersonaLabel);
    ContainsGrowRight(BlockRule + id + name + PersonaLabel, name, persona);
    ContainsGrowRight(BlockRule + id + name + PersonaLabel + persona, name, BlockRule);
    ContainsSuffix(BlockRule + id + name + PersonaLabel, persona);
    ContainsGrowRight(BlockRule + id + name + PersonaLabel + persona, persona, BlockRule);
  }

  /**
   * Every roster agent has its block in the profiles text, and with it its
   * id line, its name line and its persona.
   */
  lemma ProfilesListEveryAgent(agents: seq<AgentProfile>, personas: seq<string>, k: nat)
    requires |personas| == |agents| && k < |agents|
    ensures var text := ProfilesText(agents, personas);
      && Contains(text, PersonaBlock(agents[k], personas[k]))
      && Contains(text, IdLine(agents[k]))
      && Contains(text, NameLine(agents[k]))
      && Contains(text, personas[k])
  {
    var text, block := ProfilesText(agents, personas), PersonaBlock(agents[k], personas[k]);
    JoinContainsPart("\n\n", PersonaBlocks(agents, personas), k);
    PersonaBlockContents(agents[k], personas[k]);
    ContainsTransitive(text, block, IdLine(agents[k]));
    ContainsTransitive(text, block, NameLine(agents[k]));
    ContainsTransitive(text, block, personas[k]);
  }

  // ---------------------------------------------------------------------------
  // The request
  // ---------------------------------------------------------------------------

  const HistoryHeading: string := "\n\n**RECENT CONVERSATION HISTORY:**\n"
  const LastMessageHeading: string := "\n\n**THE LAST MESSAGE:**\n"

  /** The last message, quoted: `"name" said: "text"`. */
  function LastMessageQuote(m: ChatMessage): string
  {
    "\"" + m.author.name + "\" said: \"" + m.text + "\""
  }

  /** The request text for a non-empty history. */
  function BuildPrompt(agents: seq<AgentProfile>, history: seq<ChatMessage>): string
    requires history != []
  {
    RequestText(AgentProfilesText(agents), history)
  }

  /** The request template around the rendered profiles. */
  function RequestText(profiles: string, history: seq<ChatMessage>): string
    requires history != []
  {
    Text(PromptIntro) + profiles + HistoryPart(history)
  }

  function HistoryPart(history: seq<ChatMessage>): string
    requires history != []
  {
    HistoryHeading + FormatHistory(history) + LastMessagePart(history[|history| - 1])
  }

  function LastMessagePart(last: ChatMessage): string
  {
    LastMessageHeading + LastMessageQuote(last) + Text(PromptTask)
  }

  /** The request carries the profiles it is given. */
  lemma RequestHasProfiles(profiles: string, history: seq<ChatMessage>)
    requires history != []
    ensures Contains(RequestText(profiles, history), profiles)
  {
    ContainsMiddle(Text(PromptIntro), profiles, HistoryPart(history));
  }

  /** The request carries the formatted history. */
  lemma RequestHasHistory(profiles: string, history: seq<ChatMessage>)
    requires history != []
    ensures Contains(RequestText(profiles, history), FormatHistory(history))
  {
    ContainsMiddle(HistoryHeading, FormatHistory(history), LastMessagePart(history[|history| - 1]));
    ContainsGrowLeft(Text(PromptIntro) + profiles, HistoryPart(history), FormatHistory(history));
  }

  lemma QuoteInLastMessagePart(last: ChatMessage)
    ensures Contains(LastMessagePart(last), LastMessageQuote(last))
  {
    ContainsSuffix(LastMessageHeading, LastMessageQuote(last));
    ContainsGrowRight(LastMessageHeading + LastMessageQuote(last), LastMessageQuote(last), Text(PromptTask));
  }

  /** The request quotes the last message's author name and text verbatim. */
  lemma RequestQuotesLastMessage(profiles: string, history: seq<ChatMessage>)
    requires history != []
    ensures Contains(RequestText(profiles, history), LastMessageQuote(history[|history| - 1]))
  {
    var last := history[|history| - 1];
    QuoteInLastMessagePart(last);
    ContainsGrowLeft(HistoryHeading + FormatHistory(history), LastMessagePart(last), LastMessageQuote(last));
    ContainsGrowLeft(Text(PromptIntro) + profiles, HistoryPart(history), LastMessageQuote(last));
  }

  /** The request carries the roster's profiles, the recent history and the last message's quote. */
  lemma PromptParts(agents: seq<AgentProfile>, history: seq<ChatMessage>)
    requires history != []
    ensures var prompt := BuildPrompt(agents, history);
      && Contains(prompt, AgentProfilesText(agents))
      && Contains(prompt, FormatHistory(history))
      && Contains(prompt, LastMessageQuote(history[|history| - 1]))
  {
    RequestHasProfiles(AgentProfilesText(agents), history);
    RequestHasHistory(AgentProfilesText(agents), history);
    RequestQuotesLastMessage(AgentProfilesText(agents), history);
  }

  /**
   * Every roster agent's block is in the request: its id, its name and its
   * system prompt built against the roster.
   */
  lemma PromptListsEveryAgent(agents: seq<AgentProfile>, history: seq<ChatMessage>, k: nat)
    requires history != [] && k < |agents|
    ensures var prompt, persona := BuildPrompt(agents, history), Personas(agents)[k];
      && Contains(prompt, PersonaBlock(agents[k], persona))
      && Contains(prompt, IdLine(agents[k]))
      && Contains(prompt, NameLine(agents[k]))
  {
    var prompt, profiles, personas := BuildPrompt(agents, history), AgentProfilesText(agents), Personas(agents);
    PromptParts(agents, history);
    ProfilesListEveryAgent(agents, personas, k);
    ContainsTransitive(prompt, profiles, PersonaBlock(agents[k], personas[k]));
    ContainsTransitive(prompt, profiles, IdLine(agents[k]));
    ContainsTransitive(prompt, profiles, NameLine(agents[k]));
  }

  // ---------------------------------------------------------------------------
  // Reply validation
  // ---------------------------------------------------------------------------

  /** A reply the application can use. */
  datatype AgentReply = AgentReply(agentId: string, message: string)

  /** `typeof res.agentId === 'string' && typeof res.message === 'string'`. */
  predicate IsReply(entry: Json)
  {
    && entry.JObject?
    && "agentId" in entry.fields && entry.fields["agentId"].JString?
    && "message" in entry.fields && entry.fields["message"].JString?
  }

  function AsReply(entry: Json): AgentReply
    requires IsReply(entry)
  {
    AgentReply(entry.fields["agentId"].s, entry.fields["message"].s)
  }

  /**
   * `responses.filter(res => typeof res.agentId === 'string' && typeof res.message === 'string')`.
   * Reading `agentId` of a `null` entry throws, so one `null` makes the whole
   * filter throw; any other value without two string fields is dropped.
   */
  function FilterReplies(entries: seq<Json>): (r: Result<seq<AgentReply>, JsError>)
    ensures r.Err? <==> exists i :: 0 <= i < |entries| && entries[i] == JNull
    ensures r.Err? ==> r.error == NullAgentIdAccess
    ensures r.Ok? ==> |r.value| <= |entries|
    ensures r.Ok? ==> forall x :: x in r.value <==>
      exists i :: 0 <= i < |entries| && IsReply(entries[i]) && AsReply(entries[i]) == x
  {
    if entries == [] then Ok([])
    else if entries[0] == JNull then Err(NullAgentIdAccess)
    else
      var rest := FilterReplies(entries[1..]);
      assert forall i :: 0 < i < |entries| ==> entries[i] == entries[1..][i - 1];
      match rest
      case Err(e) => Err(e)
      case Ok(replies) => Ok((if IsReply(entries[0]) then [AsReply(entries[0])] else []) + replies)
  }

  /** The filter keeps order: filtering a concatenation concatenates the filtered parts. */
  lemma {:induction false} FilterRepliesAppend(a: seq<Json>, b: seq<Json>)
    requires FilterReplies(a).Ok? && FilterReplies(b).Ok?
    ensures FilterReplies(a + b) == Ok(FilterReplies(a).value + FilterReplies(b).value)
  {
    if a == [] {
      assert a + b == b;
      assert FilterReplies(a).value == [];
      assert [] + FilterReplies(b).value == FilterReplies(b).value;
    } else {
      assert (a + b)[1..] == a[1..] + b;
      FilterRepliesAppend(a[1..], b);
      var head := if IsReply(a[0]) then [AsReply(a[0])] else [];
      assert (a + b)[0] == a[0];
      assert FilterReplies(a) == Ok(head + FilterReplies(a[1..]).value);
      var x, y := FilterReplies(a[1..]).value, FilterReplies(b).value;
      assert FilterReplies(a + b) == Ok(head + (x + y));
      assert head + (x + y) == (head + x) + y;
    }
  }

  /** When every entry is well formed, all of them are kept, in order. */
  lemma {:induction false} FilterRepliesKeepsWellFormed(entries: seq<Json>)
    requires forall i :: 0 <= i < |entries| ==> IsReply(entries[i])
    ensures FilterReplies(entries).Ok?
    ensures |FilterReplies(entries).value| == |entries|
    ensures forall i :: 0 <= i < |entries| ==> FilterReplies(entries).value[i] == AsReply(entries[i])
  {
    if entries != [] {
      FilterRepliesKeepsWellFormed(entries[1..]);
    }
  }

  /** `result && Array.isArray(result.responses)`: the parsed answer carries a `responses` array. */
  predicate HasResponsesArray(result: Json)
  {
    result.JObject? && "responses" in result.fields && result.fields["responses"].JArray?
  }

  /** What the request returns for a parsed answer: the filtered array, or `[]` without one. */
  function ReadResponses(result: Json): (r: Result<seq<AgentReply>, JsError>)
    ensures !HasResponsesArray(result) ==> r == Ok([])
    ensures HasResponsesArray(result) ==> r == FilterReplies(result.fields["responses"].items)
  {
    if HasResponsesArray(result) then FilterReplies(result.fields["responses"].items) else Ok([])
  }

  /**
   * The `try` around the request: a value the SDK or `JSON.parse` threw is
   * re-thrown unchanged, a parsed answer is validated.
   */
  function ReadAnswer(answer: Result<Json, JsError>): (r: Result<seq<AgentReply>, JsError>)
    ensures answer.Err? ==> r == Err(answer.error)
    ensures answer.Ok? ==> r == ReadResponses(answer.value)
  {
    match answer
    case Err(e) => Err(e)
    case Ok(result) => ReadResponses(result)
  }

  /** Every reply read from an answer was a well-formed entry of its `responses` array. */
  lemma RepliesComeFromAnswer(answer: Result<Json, JsError>, x: AgentReply)
    requires var r := ReadAnswer(answer); r.Ok? && x in r.value
    ensures answer.Ok? && HasResponsesArray(answer.value)
    ensures var entries := answer.value.fields["responses"].items;
      exists i :: 0 <= i < |entries| && IsReply(entries[i]) && AsReply(entries[i]) == x
  {
  }

  /**
   * `getParallelAgentResponses(agents, history)`, given `chat`, the model as
   * a function from the request text to its answer: the parsed JSON or the
   * value the SDK or `JSON.parse` threw. An empty history returns `[]`
   * without sending anything; otherwise the request built from the roster
   * and the history is sent and its answer read.
   */
  function GetParallelAgentResponses(agents: seq<AgentProfile>, history: seq<ChatMessage>,
                                     chat: string -> Result<Json, JsError>): (r: Result<seq<AgentReply>, JsError>)
    ensures history == [] ==> r == Ok([])
    ensures history != [] ==> r == ReadAnswer(chat(BuildPrompt(agents, history)))
  {
    if history == [] then Ok([]) else ReadAnswer(chat(BuildPrompt(agents, history)))
  }

  // ---------------------------------------------------------------------------
  // Speech preview
  // ---------------------------------------------------------------------------

  /** `(Speaking in a ${speakingStyle.toLowerCase()} tone): ${text}`. */
  function SpeechPrompt(text: string, style: SpeakingStyle): (r: string)
  {
    "(Speaking in a " + LowerAscii(SpeakingStyleValue(style)) + " tone): " + text
  }

  /** The speech prompt names the style in lower case and ends with the text, unchanged. */
  lemma SpeechPromptShape(text: string, style: SpeakingStyle)
    ensures var r, tone := SpeechPrompt(text, style), LowerAscii(SpeakingStyleValue(style));
      && |r| == |"(Speaking in a "| + |SpeakingStyleValue(style)| + |" tone): "| + |text|
      && r[|r| - |text|..] == text
      && StartsWith(r, "(Speaking in a " + tone)
      && forall i :: 0 <= i < |tone| ==> !('A' <= tone[i] <= 'Z')
  {
    var tone := LowerAscii(SpeakingStyleValue(style));
    StartsWithConcat("(Speaking in a " + tone, " tone): ");
    StartsWithGrow("(Speaking in a " + tone + " tone): ", "(Speaking in a " + tone, text);
  }

  /** The part of the speech response the preview reads. */
  datatype InlineData = InlineData(data: Option<string>)
  datatype Part = Part(inlineData: Option<InlineData>)
  datatype Content = Content(parts: Option<seq<Part>>)
  datatype Candidate = Candidate(content: Option<Content>)
  datatype SpeechResponse = SpeechResponse(candidates: Option<seq<Candidate>>)

  /** `response.candidates?.[0]?.content?.parts?.[0]?.inlineData?.data`. */
  function AudioData(response: SpeechResponse): Option<string>
  {
    if response.candidates.None? || |response.candidates.value| == 0 then None
    else
      var candidate := response.candidates.value[0];
      if candidate.content.None? || candidate.content.value.parts.None? then None
      else
        var parts := candidate.content.value.parts.value;
        if |parts| == 0 || parts[0].inlineData.None? then None
        else parts[0].inlineData.value.data
  }

  const NoAudioError: JsError := ErrorObject("No audio data received from API.")

  /** The audio of a speech response: its data when non-empty, otherwise an error. */
  function ExtractAudio(response: SpeechResponse): (r: Result<string, JsError>)
    ensures r.Ok? <==> Truthy(AudioData(response))
    ensures r.Ok? ==> r.value != "" && Some(r.value) == AudioData(response)
    ensures r.Err? ==> r.error == NoAudioError
  {
    if Truthy(AudioData(response)) then Ok(AudioData(response).value) else Err(NoAudioError)
  }

  /**
   * `generateSpeechPreview(text, voiceName, speakingStyle)`: the styled
   * prompt goes to the speech model with the voice; a thrown value is
   * re-thrown, an answer without audio is an error.
   */
  function GenerateSpeechPreview(text: string, voiceName: string, style: SpeakingStyle,
                                 speech: (string, string) -> Result<SpeechResponse, JsError>): (r: Result<string, JsError>)
    ensures var answer := speech(voiceName, SpeechPrompt(text, style));
      && (r.Ok? ==> answer.Ok? && r.value != "" && AudioData(answer.value) == Some(r.value))
      && (answer.Err? ==> r == Err(answer.error))
      && (answer.Ok? && !Truthy(AudioData(answer.value)) ==> r == Err(NoAudioError))
      && (answer.Ok? && Truthy(AudioData(answer.value)) ==> r == Ok(AudioData(answer.value).value))
  {
    match speech(voiceName, SpeechPrompt(text, style))
    case Err(e) => Err(e)
    case Ok(response) => ExtractAudio(response)
  }

  /** A response with no candidates, or whose first part carries an empty data string, gives no audio. */
  lemma MissingAudioIsError()
    ensures ExtractAudio(SpeechResponse(None)) == Err(NoAudioError)
    ensures var part := Part(Some(InlineData(Some(""))));
      ExtractAudio(SpeechResponse(Some([Candidate(Some(Content(Some([part]))))]))) == Err(NoAudioError)
  {
  }
}
