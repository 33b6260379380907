# AI friends: chat and voice calls, modelled in Dafny

This project models the core of a small React application. In it the user
chats in a group with several AI "friends" and can hold a live voice call
with any one of them, both through the Gemini SDK. The model covers these
parts:

- **Conversation store** (`App.tsx`, module `App`, class `ConversationStore`):
  - the roster, the message list, the user profile and the volatile flags;
  - the guarded send with its reveal loop over the model's replies, the
    error notice and the final reset;
  - the roster handlers (add, update by id, remove by id, start and end a
    call).
- **Request building and reply validation** (`services/geminiService.ts`,
  module `GeminiService`):
  - the 20-message history window and one persona block per agent;
  - the quoted last message;
  - the filter that keeps well-formed `{agentId, message}` entries;
  - the speech-preview prompt and its audio extraction.
- **Persona prompt** (`services/promptService.ts`, module `PromptService`):
  - the identity section;
  - the trait section, present only when the agent has traits;
  - the "other agents" context, with the agent itself filtered out;
  - the default speaking style.
- **Live call** (`components/CallView.tsx`, module `CallView`, class
  `CallSession`):
  - the connection state;
  - the two transcription accumulators, flushed on a completed turn with
    blank lines dropped;
  - the playback cursor and the set of playing sources;
  - interruption and cleanup.
- **Editors and views**:
  - the agent card (`components/AgentCard.tsx`, module `AgentCard`, class
    `Card`);
  - the chat input (`components/ChatInput.tsx`, class `ChatInput.Input`);
  - the message bubble (`components/MessageBubble.tsx`);
  - the profile dialog (`components/UserProfileModal.tsx`).
- **Data** (`types.ts`, `constants.ts`, modules `Types` and `Constants`):
  - the closed enumerations and records;
  - the default roster, the voice list and the emoji tables.

Helper modules:

- `Wrappers`: Option and Result.
- `Js`: a loosely typed JSON value, thrown values, truthiness and `||`.
- `Strings`: the JavaScript `trim()` whitespace set, `parseInt(_, 10)`,
  split and join, and ASCII lower-casing.
- `Sequences`: flat-map with its permutation lemma.
- `Roster`: find, filter and map by agent id.

The environment is passed in as parameters:

- **The model's answers.** The group-chat model is a function from the
  request text to its answer: the parsed JSON value, or the value the SDK
  or `JSON.parse` threw. The speech model is a function from
  (voice, prompt) to a response or a thrown value.
- **Time.** Timestamps, the clock behind new agent ids, the audio clock and
  decoded chunk durations are parameters.
- **The shuffle.** Its result is a parameter, constrained only to be a
  permutation of the replies.

Times are exact `real` numbers, not floating point.

## Model

| member | source | states |
|---|---|---|
| Strings.Trim | App.tsx:56 | `text.trim()` is empty exactly when every character is JavaScript white space; otherwise it starts and ends with a non-space character |
| Strings.TrimOfPadded | components/CallView.tsx:142 | trimming text padded with white space on both sides gives back the text |
| Strings.LowerAscii | services/geminiService.ts:232 | `toLowerCase()` on the style names: same length, no upper-case letter left, other characters unchanged |
| Strings.NatToStringValue | App.tsx:124 | the decimal rendering of a number reads back as that number |
| Strings.ParseIntOfIntToString | components/AgentCard.tsx:45 | `parseInt(String(n), 10)` is `n`, also when followed by non-digit text |
| Strings.ParseUnsigned | components/AgentCard.tsx:45 | `parseInt` of a digit run followed by a non-digit is the run's value |
| Strings.ParseSigned | components/AgentCard.tsx:45 | after a leading sign the digit run is read: a minus negates its value, a plus keeps it |
| Strings.ParseIntNoDigits | components/AgentCard.tsx:45 | text with no digit parses to NaN, which `|| 0` turns into 0 |
| Roster.IndexOfId | App.tsx:79 | `find` by id: the first position holding the id, or none exactly when no agent has it |
| Roster.FindById | App.tsx:160 | `agents.find(a => a.id === id)`: absent exactly when no agent has the id; a found agent is in the roster and has the id |
| Roster.FindByIdUnique | App.tsx:160 | with distinct ids, finding an agent's id finds that agent |
| Roster.WithoutId | App.tsx:155 | `filter(a => a.id !== id)`: keeps exactly the agents with another id; the id is gone afterwards |
| Roster.WithoutIdAppend | App.tsx:155 | the filter keeps order: it distributes over concatenation |
| Roster.WithoutAbsentId | App.tsx:155 | removing an id nobody has leaves the roster unchanged |
| Roster.WithoutIdAt | App.tsx:155 | with distinct ids, removing an agent's id drops exactly that agent and keeps the rest in order |
| Roster.WithoutIdKeepsDistinct | App.tsx:155 | removal keeps the ids distinct |
| Roster.RemovalKeepsRosterNonEmpty | components/ChatView.tsx:106 | removal from a roster of more than one agent with distinct ids leaves at least one agent |
| Roster.UpdateById | App.tsx:151 | `map(a => a.id === updated.id ? updated : a)`: same length and ids, agents with the id replaced, all others unchanged |
| Roster.UpdateByIdFound | App.tsx:151 | updating an existing agent keeps ids distinct and then finds the updated agent |
| Roster.UpdateByIdIdempotent | App.tsx:151 | applying the same update twice is the same as once |
| Constants.EmotionAvatar | constants.ts:76-94 | the emotion emoji table is total and never empty, `Neutral` included |
| Constants.ProfessionIcon | constants.ts:96-114 | the profession icon table is total and never empty, `Friend` included |
| Constants.ProfessionsComplete | constants.ts:3 | `PROFESSIONS` lists every profession, 16 of them, each once |
| Constants.EmotionsComplete | constants.ts:4 | `EMOTIONS` lists every emotion, 16 of them, each once |
| Constants.GendersComplete | constants.ts:5 | `GENDERS` lists all 3 genders, each once |
| Constants.PersonalityTraitsComplete | constants.ts:6 | `PERSONALITY_TRAITS` lists all 18 traits, each once |
| Constants.SpeakingStylesComplete | constants.ts:7 | `SPEAKING_STYLES` lists all 6 styles, each once |
| Constants.VoiceTypesComplete | types.ts:79-82 | a voice type's value is `prebuilt` or `custom`, and `prebuilt` exactly for `Prebuilt` |
| Constants.DefaultRosterIds | constants.ts:13-74 | the default roster has five agents with ids `agent-1` to `agent-5`, pairwise distinct |
| Constants.DefaultVoicesArePrebuilt | constants.ts:9-74 | every default agent's voice is one of `PREBUILT_VOICES` |
| Constants.DefaultVoiceIsPrebuilt | constants.ts:9 | the fallback voice `Zephyr` is one of `PREBUILT_VOICES` |
| PromptService.OtherAgentLines | services/promptService.ts:66 | one `- <name> the <profession>` line per other agent, in roster order |
| PromptService.OtherAgentsTextEmptyIff | services/promptService.ts:66 | the other-agents text is empty exactly when every roster agent has the agent's own id |
| PromptService.OtherAgentListed | services/promptService.ts:66 | every roster agent with another id has its line in the text |
| PromptService.TraitBullets | services/promptService.ts:72 | one bullet per trait, in list order, each with that trait's description |
| PromptService.PersonalitySection | services/promptService.ts:68-74 | the personality section is empty exactly when the agent has no traits |
| PromptService.TraitBulletListed | services/promptService.ts:68-74 | each trait's bullet appears in the section |
| PromptService.ContextLineOnlyAgentIff | services/promptService.ts:87 | the context says "You are the only agent in this conversation." exactly when no other agent remains |
| PromptService.GenerateSystemPrompt | services/promptService.ts:76-97 | the final `.trim()` removes nothing: the prompt is the assembled template itself |
| PromptService.BodyEnds | services/promptService.ts:76-97 | the template starts with `# CORE IDENTITY` and ends with a full stop, so trimming cannot change it |
| PromptService.PromptSections | services/promptService.ts:76-97 | the prompt holds the identity lines, the personality section, the context line and the guidelines |
| PromptService.PromptListsTraits | services/promptService.ts:72 | each of the agent's traits appears in the prompt as its bullet |
| PromptService.PromptListsOtherAgents | services/promptService.ts:66-87 | each other roster agent appears in the prompt |
| PromptService.PromptDefaultsStyle | services/promptService.ts:83 | a missing speaking style is rendered as `Expressive` |
| PromptService.CallPromptIsSolo | components/CallView.tsx:60 | the call's prompt, built against an empty roster, says the agent is the only one |
| GeminiService.RecentHistory | services/geminiService.ts:18 | `slice(-20)`: the last min(20, n) messages, in their original order |
| GeminiService.HistoryLines | services/geminiService.ts:18 | one `name: text` line per message, in order |
| GeminiService.FormatHistoryLines | services/geminiService.ts:16-19 | for single-line names and texts, splitting the history text at newlines gives back exactly the last min(20, n) messages as `name: text` lines |
| GeminiService.FormatHistoryEmptyIff | services/geminiService.ts:16-19 | the history text is empty exactly when the history is |
| GeminiService.Personas | services/geminiService.ts:23 | one persona per roster agent |
| GeminiService.PersonaBlocks | services/geminiService.ts:22-32 | one block per roster agent |
| GeminiService.PersonaBlockContents | services/geminiService.ts:24-31 | a block holds the agent's id line, name line and persona |
| GeminiService.ProfilesListEveryAgent | services/geminiService.ts:22-32 | every agent's block, id, name and persona appear in the joined profiles text |
| GeminiService.RequestHasProfiles | services/geminiService.ts:169-170 | the request carries the profiles text |
| GeminiService.RequestHasHistory | services/geminiService.ts:172-173 | the request carries the formatted history |
| GeminiService.QuoteInLastMessagePart | services/geminiService.ts:175-176 | the last-message part quotes the author's name and the text |
| GeminiService.RequestQuotesLastMessage | services/geminiService.ts:175-176 | the request quotes the last message's author and text verbatim |
| GeminiService.PromptParts | services/geminiService.ts:164-186 | the request carries the roster's profiles, the history and the quoted last message |
| GeminiService.PromptListsEveryAgent | services/geminiService.ts:22-32 | every roster agent's block, with its system prompt against the roster, is in the request |
| GeminiService.FilterReplies | services/geminiService.ts:219-221 | keeps exactly the entries with string `agentId` and `message`; one `null` entry throws the access error |
| GeminiService.FilterRepliesAppend | services/geminiService.ts:219-221 | the filter keeps order: it distributes over concatenation |
| GeminiService.FilterRepliesKeepsWellFormed | services/geminiService.ts:219-221 | a list of well-formed entries passes through whole, in order |
| GeminiService.ReadResponses | services/geminiService.ts:218-223 | without a `responses` array the result is `[]`; with one it is the filtered array |
| GeminiService.GetParallelAgentResponses | services/geminiService.ts:21-37 | an empty history gives `[]` without asking the model; otherwise the request text built from the roster and the history is what the model is asked, and its answer is read |
| GeminiService.ReadAnswer | services/geminiService.ts:188-227 | a thrown value is re-thrown unchanged; a parsed answer gives the replies its `responses` array validates to |
| GeminiService.RepliesComeFromAnswer | services/geminiService.ts:218-227 | every reply returned came from an answer with a `responses` array, as one of its well-formed entries |
| GeminiService.SpeechPromptShape | services/geminiService.ts:232 | the speech prompt is `(Speaking in a <style, lower case> tone): ` followed by the text unchanged |
| GeminiService.ExtractAudio | services/geminiService.ts:247-251 | audio is returned exactly when the data is present and non-empty; otherwise the "No audio data" error |
| GeminiService.GenerateSpeechPreview | services/geminiService.ts:230-256 | the styled prompt goes to the speech model with the voice; a thrown value is re-thrown, missing audio is an error, returned audio is the response's non-empty data, and non-empty data is always returned |
| GeminiService.MissingAudioIsError | services/geminiService.ts:247-250 | no candidates, or an empty data string, both give the error |
| App.UserMessage | App.tsx:58-59 | the user's message carries the author built from the profile and the text as typed |
| App.UserAuthor | App.tsx:58 | the author is `{id: 'user', name, avatarUrl}` from the profile, with no agent profile |
| App.AgentMessage | App.tsx:90-94 | an agent message carries the agent's id, name, profile snapshot and the reply text |
| App.ErrorMessage | App.tsx:108-112 | the error notice is authored by `{id: 'system', name: 'System'}` |
| App.ErrorMessageText | App.tsx:110 | the notice asks the user to check the key, then gives the error's message, or `Unknown error` for a non-`Error` value |
| App.KnownCount | App.tsx:79-81 | the number of replies whose id is on the roster is at most the number of replies |
| App.RevealedMessages | App.tsx:77-96 | the reveal appends one message per reply with a roster id; each is that agent's and carries a reply's text |
| App.RevealedCoversKnown | App.tsx:77-96 | every reply with a roster id is revealed as its agent's message |
| App.RevealedPermutation | App.tsx:75 | shuffling the replies only reorders the revealed messages |
| App.NoRepliesNoAgentMessages | App.tsx:70 | an empty reply list reveals no message |
| App.NewAgent | App.tsx:122-135 | a new agent has the given id, no traits and the voice `Zephyr`, one of the prebuilt voices |
| App.NewAgentNumbered | App.tsx:124 | the new agent is named `Agent <n+1>` for a roster of n |
| App.ConversationStore.constructor | App.tsx:12-40 | stored values when present, defaults otherwise; the welcome notice when there is no history; not thinking, chat screen, no call, no editor |
| App.ConversationStore.HandleSendMessage | App.tsx:55-117 | a blank text or a send while thinking changes nothing; otherwise the user's message is appended and the request built from the roster and that history goes to the model; the revealed replies or one error notice follow; the turn ends not thinking, with no indicator; only the messages and the thinking fields may change |
| App.ConversationStore.RunTurn | App.tsx:61-117 | once the request has returned, the history is shown, then the revealed replies or the notice; the turn ends not thinking, with no indicator |
| App.ConversationStore.ShowResult | App.tsx:67-113 | the replies in the shuffled order are appended, or exactly one error notice when the request threw |
| App.TurnFollowsAnswer | App.tsx:67-113 | a thrown answer yields exactly its notice; an answer that validates yields the replies in the shuffled order |
| App.ConversationStore.RevealReplies | App.tsx:77-104 | the loop appends exactly the revealed messages in the shuffled order and changes nothing else |
| App.ConversationStore.HandleAddAgent | App.tsx:120-138 | appends the new agent, opens it in the editor, keeps ids distinct and everything else unchanged |
| App.ConversationStore.HandleUpdateAgent | App.tsx:150-152 | the roster becomes the by-id update of the old one; ids stay distinct; nothing else changes |
| App.ConversationStore.HandleRemoveAgent | App.tsx:154-157 | the roster loses exactly the agents with the id; the editor closes; a roster of more than one stays non-empty |
| App.ConversationStore.HandleStartCall | App.tsx:159-168 | a roster agent's id opens the call screen with that agent and closes the editor; an unknown id changes nothing |
| App.ConversationStore.HandleEndCall | App.tsx:170-173 | back to the chat screen with no agent in the call |
| App.ConversationStore.HandleUpdateUserProfile | App.tsx:175-177 | the profile is replaced; nothing else changes |
| CallView.StatusText | components/CallView.tsx:246 | the status line is empty exactly when connected; otherwise it is the state followed by `...` |
| CallView.CallVoice | components/CallView.tsx:73 | the agent's voice when set and non-empty, `Zephyr` otherwise |
| CallView.CallVoicePrebuilt | components/CallView.tsx:73 | a call always uses a prebuilt voice when the agent's voice is one, unset or empty |
| CallView.SessionIsSolo | components/CallView.tsx:60 | the call's system instruction says the agent is the only one in the conversation |
| CallView.Accumulate | components/CallView.tsx:129-133 | output transcription goes to the output text, else input transcription to the input text, never both; both only grow |
| CallView.AudioOf | components/CallView.tsx:147 | no server content or model turn gives no audio; a missing parts list throws reading `0`; an empty parts list gives no audio; a first part without inline data throws reading `data`; otherwise its data; it throws exactly in those two cases |
| CallView.Spoken | components/CallView.tsx:142 | a transcript line is kept exactly when its text is not blank |
| CallView.NonBlankIsSpoken | components/CallView.tsx:138-142 | filtering leaves only non-blank lines taken from the input |
| CallView.NonBlankOfSpoken | components/CallView.tsx:138-142 | filtering a list of non-blank lines changes nothing |
| CallView.FlushTurnAppends | components/CallView.tsx:135-145 | re-filtering the whole transcript only appends the user's line, then the agent's, each when not blank |
| CallView.TurnPair | components/CallView.tsx:140-142 | the two new lines are filtered independently, in order |
| CallView.Later | components/CallView.tsx:150 | `Math.max`: at least both arguments and equal to one of them |
| CallView.QueueStarts | components/CallView.tsx:148-162 | one start time per chunk |
| CallView.QueueNoOverlap | components/CallView.tsx:150-160 | no chunk plays before it arrives or before the cursor, and none overlaps its predecessor |
| CallView.QueueGapless | components/CallView.tsx:150-160 | a chunk that arrives while the previous one plays starts exactly when that one ends |
| CallView.CallSession.constructor | components/CallView.tsx:32-49 | connecting, no transcript, empty accumulators, cursor 0, nothing playing, no stream and no frame timer |
| CallView.CallSession.StartSession | components/CallView.tsx:51-63 | a refused camera or microphone, or a failed audio context, sets the state to `Error`; a granted stream is kept |
| CallView.CallSession.OnOpen | components/CallView.tsx:80-126 | the state becomes `Connected`; the frame timer is stored when one was started |
| CallView.CallSession.OnError | components/CallView.tsx:172-175 | the state becomes `Error`; nothing else changes |
| CallView.CallSession.OnClose | components/CallView.tsx:176-178 | the state becomes `Ended`; nothing else changes |
| CallView.CallSession.TakeTranscription | components/CallView.tsx:129-145 | the fragment is accumulated; a completed turn appends the non-blank lines and clears both accumulators |
| CallView.CallSession.QueueChunk | components/CallView.tsx:148-162 | a new source starts at the later of the cursor and now; the cursor moves past it; the source joins the playing set |
| CallView.CallSession.Interrupt | components/CallView.tsx:164-170 | every playing source is stopped, the set is emptied and the cursor reset to 0 |
| CallView.CallSession.OnMessage | components/CallView.tsx:128-171 | transcription, then audio, then interruption, so a chunk in an interrupting message is stopped too; a malformed model turn throws after the transcription step; the transcript stays free of blank lines |
| CallView.CallSession.OnSourceEnded | components/CallView.tsx:157 | a finished source leaves the playing set |
| CallView.CallSession.Cleanup | components/CallView.tsx:187-204 | the frame timer is cleared and the stream stopped, and both refs become null |
| MessageBubble.ExactlyOneRole | components/MessageBubble.tsx:13-15 | every author is exactly one of user, system or agent |
| MessageBubble.AvatarUrl | components/MessageBubble.tsx:17 | the user's own avatar URL, the profile snapshot's for everyone else, none without a profile |
| MessageBubble.FallbackAvatar | components/MessageBubble.tsx:19-21 | the emotion emoji for an agent with a profile, a silhouette for the user, a gear otherwise |
| MessageBubble.RenderAvatar | components/MessageBubble.tsx:47-51 | a picture exactly when the URL is non-empty, the fallback glyph otherwise |
| MessageBubble.AlignmentOf | components/MessageBubble.tsx:29-33 | end for the user, centre for the system, start for an agent, each exactly |
| MessageBubble.Render | components/MessageBubble.tsx:35-83 | a system message is a bare line; other bubbles show the name only for non-users, put the avatar first for agents, and make a picture clickable for preview |
| MessageBubble.AvatarNeverBlank | components/MessageBubble.tsx:45-53 | a bubble never shows an empty picture or glyph |
| ChatInput.Input.constructor | components/ChatInput.tsx:11 | the box starts empty |
| ChatInput.Input.Type | components/ChatInput.tsx:26 | a keystroke sets the text to the box's value |
| ChatInput.Input.Submit | components/ChatInput.tsx:13-19 | sends the untrimmed text and clears the box exactly when the text is not blank and no turn runs (the same guard as the store's, and the button's enabled state); otherwise the text stays |
| UserProfileModal.HandleChange | components/UserProfileModal.tsx:17-19 | the named field takes the value; the others are kept |
| UserProfileModal.LoadAvatar | components/UserProfileModal.tsx:25-27 | a loaded file becomes the avatar; name and bio are kept |
| UserProfileModal.RemoveAvatar | components/UserProfileModal.tsx:32-34 | the avatar becomes `''`; name and bio are kept |
| UserProfileModal.PlaceholderAsWrittenShowsQuotes | components/UserProfileModal.tsx:66 | the placeholder as written is three characters: the silhouette between two apostrophes |
| UserProfileModal.PlaceholderMatchesChat | components/MessageBubble.tsx:21 | the corrected placeholder is the chat's silhouette glyph alone |
| UserProfileModal.Render | components/UserProfileModal.tsx:15-123 | closed renders nothing; open shows the picture or the placeholder, the avatar actions exactly for a non-empty avatar, and the three fields |
| UserProfileModal.AvatarActionsFollowEdits | components/UserProfileModal.tsx:72 | removing the avatar hides its actions; a typed or loaded avatar shows them exactly when non-empty |
| UserProfileModal.AvatarUrlFieldRoundTrip | components/UserProfileModal.tsx:96-97 | the URL field shows what was typed into it |
| AgentCard.ApplyFieldChange | components/AgentCard.tsx:44-46 | the named field takes the new value (age parsed, NaN becoming 0); every other field, id included, is kept |
| AgentCard.FieldChangeIdempotent | components/AgentCard.tsx:46 | repeating an edit changes nothing more |
| AgentCard.FieldChangesCommute | components/AgentCard.tsx:46 | edits of different fields commute |
| AgentCard.AgeRoundTrip | components/AgentCard.tsx:45 | typing a number into the age field stores that number |
| AgentCard.AgeWithoutDigitsIsZero | components/AgentCard.tsx:45 | age text without digits stores 0 |
| AgentCard.WithoutRemovesAll | components/AgentCard.tsx:55 | unchecking removes every occurrence of the trait and keeps the count of every other trait |
| AgentCard.WithoutAppend | components/AgentCard.tsx:55 | the filter keeps order: it distributes over concatenation |
| AgentCard.WithoutAbsent | components/AgentCard.tsx:55 | removing an absent trait changes nothing |
| AgentCard.ToggleShowsClick | components/AgentCard.tsx:53-55 | after the change the box is checked exactly as clicked; checking appends one trait, without preventing duplicates |
| AgentCard.CheckThenUncheck | components/AgentCard.tsx:53-55 | checking then unchecking an absent trait restores the list |
| AgentCard.CardAvatar | components/AgentCard.tsx:117-121 | the picture exactly when the avatar is non-empty, the profession icon otherwise |
| AgentCard.RenderCard | components/AgentCard.tsx:113-320 | remove button exactly when removal is allowed; voice shown or `Zephyr`; exactly one voice-type radio checked; custom section only for a custom voice; style shown or `Expressive` |
| AgentCard.OneVoiceTypeChecked | components/AgentCard.tsx:201-212 | exactly one voice-type radio is checked |
| AgentCard.ShownRemoveKeepsRoster | components/AgentCard.tsx:133 | when the remove button is shown (roster of more than one), removal leaves a non-empty roster |
| AgentCard.PreviewText | components/AgentCard.tsx:94 | the preview text starts with `Hello, my name is <name>` |
| AgentCard.Card.constructor | components/AgentCard.tsx:24-27 | the local copy is the given agent and no preview runs |
| AgentCard.Card.SyncFromStore | components/AgentCard.tsx:30-32 | a new agent from the store replaces the local copy |
| AgentCard.Card.FieldChange | components/AgentCard.tsx:44-49 | the same edited agent is stored locally and sent to the store |
| AgentCard.Card.TraitChange | components/AgentCard.tsx:51-58 | the toggled trait list is stored and sent; the box then shows what was clicked |
| AgentCard.Card.BeginPreview | components/AgentCard.tsx:83-97 | nothing happens while previewing or without a voice; otherwise the flag is set and the request uses the greeting, the voice and the style or `Expressive` |
| AgentCard.Card.FinishPreview | components/AgentCard.tsx:93-110 | the flag is always cleared; audio is played exactly when the speech request returned some |

## Left out

- The Gemini SDK calls (`generateContent`, `live.connect`), the director's system instruction prose and `JSON.parse` are not modelled. The group-chat answer is a parameter: a parsed JSON value or a thrown value. The speech model is a function parameter. The reply-count rules in the instruction are prompt text only.
- Delays (`setTimeout`) are no-ops and `Math.random` is not modelled. The random-comparator sort is any permutation of the replies, passed in as `order`; nothing is claimed about its uniformity.
- `Date.now()` and `new Date().toISOString()` are parameters. A new agent's id being unused is a precondition of `HandleAddAgent`, because the code does not ensure it.
- App.ConversationStore.HandleSendMessage: one timestamp stamps the user's message, every revealed reply and the error notice; the source takes a fresh `new Date()` for each (App.tsx:59, 93, 111).
- App.ConversationStore.HandleSendMessage: the turn runs as one atomic step. The typing indicator's intermediate values (`<name> is typing...`, then back to the group text) are not observable in the contract, only the final reset. Other events arriving during the awaits are not modelled.
- `hooks/usePersistentState.ts` (local storage and JSON) is not part of this model. The constructor receives the stored values as parameters.
- Audio and video are not modelled: `AudioContext`, the script processor, PCM conversion, `decode`/`decodeAudioData`/`encode`, frame sampling on a canvas, JPEG encoding and `FileReader`. A decoded chunk's duration and the audio clock are parameters. The microphone stream, the audio contexts, the connect promise and the frame timer are opaque ids or outcomes.
- CallView.CallSession.OnMessage: each message is processed as one atomic step. The interleaving of two messages around the `await` of audio decoding is not modelled.
- CallView.CallSession.StartSession: a rejected connect promise is not modelled; the code does not catch it.
- CallView.CallSession.Cleanup: `session.close()`, the `disconnect` calls and the closing of the audio contexts are not modelled. Only the timer and stream refs are.
- Interval ids are positive, as browsers issue them, so the `if (frameIntervalRef.current)` test is the same as a null test.
- AgentCard.Card.FinishPreview: the "Audio context not available" throw, decoding and the alert are not modelled. A failed preview plays nothing.
- `localAgent.personalityTraits || []`: the records make the trait list required, so the missing-list case cannot arise in the model.
- The API-key wiring is not modelled (`initializeAi`/`clearAiInstance`, and the module-load throw without a key); the source files disagree with each other there.
- Pure markup files are not part of this model: `ChatView`, `ChatWindow`, `AgentManagerPanel`, `AgentEditorModal`, `Header` and `ImagePreviewModal`. Their one logical fact, `canRemove = agents.length > 1`, is the `canRemove` argument of `AgentCard.RenderCard`.
- GeminiService.FilterReplies: a `null` entry in `responses` makes the whole filter throw, because reading `agentId` of `null` throws. The model follows the code here, not the description of the filter that says such entries are dropped.
- GeminiService.FormatHistoryLines: the line-by-line reading holds for names and texts without newlines; a multi-line text spans several lines of the history text.
- UserProfileModal.Render: draws the corrected placeholder glyph (see Findings), not the quoted one the source renders.
- Strings.ParseIntOfIntToString: JavaScript numbers are exact unbounded integers here. Past 2^53 the source rounds, and from 1e21 on `String(n)` has exponent form, so the round trip there is not what the browser does.
- Strings.ParseUnsigned: the digit run's value is exact; the source rounds it to the nearest double past 2^53.
- Strings.ParseSigned: the same exact reading as `ParseUnsigned`, without double rounding.
- AgentCard.AgeRoundTrip: holds for exact integers; an age past 2^53 or from 1e21 on, and the age rendered into the prompt text, would differ in the browser.
- Strings.LowerAscii: only ASCII letters are lowered. The speaking-style names are ASCII, and full Unicode case mapping is not modelled.
- The fixed prose of both prompt templates and the description tables is carried as constant text. The contracts are about where the interpolated values go, not about the wording.

## Findings

| source | as written | input that shows it | evidently intended | confidence | as-written member | corrected member |
|---|---|---|---|---|---|---|
| components/UserProfileModal.tsx:66 | the placeholder span holds `'👤'` as JSX text, so the apostrophes are rendered around the glyph | any profile whose `avatarUrl` is empty or absent | the bare silhouette glyph, the same one the chat shows for the user (components/MessageBubble.tsx:21) | not executed | UserProfileModal.PlaceholderAsWrittenShowsQuotes | UserProfileModal.PlaceholderMatchesChat |
