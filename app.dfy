/**
 * The conversation store of `App.tsx`: the roster, the message list, the user
 * profile and the volatile flags, and the handlers that change them. The
 * group-chat turn is `HandleSendMessage`; the roster handlers are the
 * `map`/`filter`/append updates of `Roster`.
 *
 * Time, randomness and the network are parameters: a send receives one
 * timestamp, the model as a function from the request text to its answer,
 * and the order the shuffle produced; adding an
 * agent receives the clock reading its id is made of.
 */
module App {
  import opened Wrappers
  import opened Types
  import opened Js
  import opened Strings
  import opened Roster
  import Constants
  import GeminiService
  import opened Sequences

  /** The two screens: the group chat and a voice call with one agent. */
  datatype View = ChatScreen | CallScreen

  /** What the thinking line shows: nothing, the whole group thinking, or one agent typing. */
  datatype Indicator = NoIndicator | GroupThinking | Typing(name: string)

  /** The `thinkingMessage` text of an indicator. */
  function IndicatorText(i: Indicator): string
  {
    match i
    case NoIndicator => ""
    case GroupThinking => "AI friends are thinking..."
    case Typing(name) => name + " is typing..."
  }

  const WelcomeText: string :=
    "Welcome to the AI Agent Ensemble! Please add your Gemini API key in the settings (top-right gear icon) to begin."

  const ErrorLead: string :=
    "An API error occurred. Please check if your API key is valid in the settings.\n\nError: "

  /** The author of system notices, `{ id: 'system', name: 'System' }`. */
  const SystemAuthor: MessageAuthor := MessageAuthor("system", "System", None, None)

  /** The user profile a first session starts with. */
  const DefaultUserProfile: UserProfile :=
    UserProfile("You", "AI enthusiast exploring conversations with AI friends.", Some(""))

  /** `!text.trim() || isThinking` fails: the text has a non-space character and no turn is running. */
  predicate Sendable(text: string, isThinking: bool)
  {
    !IsBlank(text) && !isThinking
  }

  /** The user's message. */
  function UserMessage(profile: UserProfile, text: string, now: string): (r: ChatMessage)
    ensures r.author == UserAuthor(profile) && r.text == text
  {
    ChatMessage(UserAuthor(profile), text, now)
  }

  /** `order` is what the shuffle can make of the replies a request yields: a permutation of them. */
  predicate IsShuffle(order: seq<GeminiService.AgentReply>, result: Result<seq<GeminiService.AgentReply>, JsError>)
  {
    result.Ok? ==> multiset(order) == multiset(result.value)
  }

  /**
   * What a turn appends after the user's message, given what the request
   * returned: the revealed replies in the shuffled order, or one system
   * notice when the request threw.
   */
  function TurnMessages(agents: seq<AgentProfile>, result: Result<seq<GeminiService.AgentReply>, JsError>,
                        order: seq<GeminiService.AgentReply>, now: string): seq<ChatMessage>
  {
    match result
    case Ok(_) => Revealed(agents, order, now)
    case Err(e) => [ErrorMessage(e, now)]
  }

  /**
   * A turn follows the model's answer to the request text: a thrown value
   * gives its one notice, and a parsed answer that validates gives the
   * replies in the shuffled order.
   */
  lemma TurnFollowsAnswer(agents: seq<AgentProfile>, answer: Result<Json, JsError>,
                          order: seq<GeminiService.AgentReply>, now: string)
    ensures var turn := TurnMessages(agents, GeminiService.ReadAnswer(answer), order, now);
      && (answer.Err? ==> turn == [ErrorMessage(answer.error, now)])
      && (answer.Ok? && GeminiService.ReadResponses(answer.value).Ok? ==> turn == Revealed(agents, order, now))
  {
  }

  /** `{ id: 'user', name: userProfile.name, avatarUrl: userProfile.avatarUrl }`. */
  function UserAuthor(profile: UserProfile): (r: MessageAuthor)
    ensures r.id == "user" && r.name == profile.name && r.avatarUrl == profile.avatarUrl
    ensures r.profile.None?
  {
    MessageAuthor("user", profile.name, None, profile.avatarUrl)
  }

  /** An agent's message: its id, its name, a snapshot of its profile, and the reply text. */
  function AgentMessage(agent: AgentProfile, text: string, now: string): (r: ChatMessage)
    ensures r.author.id == agent.id && r.author.name == agent.name
    ensures r.author.profile == Some(agent) && r.text == text
  {
    ChatMessage(MessageAuthor(agent.id, agent.name, Some(agent), None), text, now)
  }

  /** `error instanceof Error ? error.message : 'Unknown error'`. */
  function ErrorDetail(e: JsError): string
  {
    match e
    case ErrorObject(message) => message
    case NonErrorValue => "Unknown error"
  }

  /** The system notice a failed turn appends. */
  function ErrorMessage(e: JsError, now: string): (r: ChatMessage)
    ensures r.author == SystemAuthor
  {
    ChatMessage(SystemAuthor, ErrorLead + ErrorDetail(e), now)
  }

  /** The notice asks the user to check the key, then gives the error's message, or "Unknown error" for a non-`Error` value. */
  lemma ErrorMessageText(e: JsError, now: string)
    ensures var text := ErrorMessage(e, now).text;
      && StartsWith(text, ErrorLead)
      && text[|ErrorLead|..] == (if e.ErrorObject? then e.message else "Unknown error")
  {
    StartsWithConcat(ErrorLead, ErrorDetail(e));
  }

  /** What one reply adds: a message when its id names a roster agent, nothing otherwise. */
  function RevealOne(agents: seq<AgentProfile>, reply: GeminiService.AgentReply, now: string): seq<ChatMessage>
  {
    match FindById(agents, reply.agentId)
    case None => []
    case Some(agent) => [AgentMessage(agent, reply.message, now)]
  }

  /** `RevealOne` for a fixed roster and time. */
  function Reveal(agents: seq<AgentProfile>, now: string): GeminiService.AgentReply -> seq<ChatMessage>
  {
    reply => RevealOne(agents, reply, now)
  }

  /** The messages the reveal loop appends for the replies, in the order given. */
  function Revealed(agents: seq<AgentProfile>, replies: seq<GeminiService.AgentReply>, now: string): seq<ChatMessage>
  {
    FlatMap(Reveal(agents, now), replies)
  }

  /** The number of replies whose id names a roster agent. */
  function KnownCount(agents: seq<AgentProfile>, replies: seq<GeminiService.AgentReply>): (n: nat)
    ensures n <= |replies|
  {
    if replies == [] then 0
    else KnownCount(agents, replies[..|replies| - 1]) + (if HasId(agents, replies[|replies| - 1].agentId) then 1 else 0)
  }

  /**
   * The reveal appends one message per reply whose id is on the roster, and
   * each message is that agent's, carrying its profile and the reply text.
   */
  lemma {:induction false} RevealedMessages(agents: seq<AgentProfile>, replies: seq<GeminiService.AgentReply>, now: string)
    ensures |Revealed(agents, replies, now)| == KnownCount(agents, replies)
    ensures forall m :: m in Revealed(agents, replies, now) ==>
      && m.author.profile.Some?
      && m.author.profile.value in agents
      && m.author.id == m.author.profile.value.id
      && m.author.name == m.author.profile.value.name
      && exists x :: x in replies && x.agentId == m.author.id && x.message == m.text
  {
    if replies != [] {
      var init, last := replies[..|replies| - 1], replies[|replies| - 1];
      RevealedMessages(agents, init, now);
      assert Revealed(agents, replies, now) == Revealed(agents, init, now) + RevealOne(agents, last, now);
      forall x | x in init ensures x in replies {
        var i :| 0 <= i < |init| && init[i] == x;
        assert replies[i] == x;
      }
    }
  }

  /** Every reply whose id is on the roster is revealed, as its agent's message. */
  lemma {:induction false} RevealedCoversKnown(agents: seq<AgentProfile>, replies: seq<GeminiService.AgentReply>,
                                               now: string, k: nat)
    requires k < |replies| && HasId(agents, replies[k].agentId)
    ensures var agent := FindById(agents, replies[k].agentId).value;
      AgentMessage(agent, replies[k].message, now) in Revealed(agents, replies, now)
  {
    var init, last := replies[..|replies| - 1], replies[|replies| - 1];
    assert Revealed(agents, replies, now) == Revealed(agents, init, now) + RevealOne(agents, last, now);
    if k < |replies| - 1 {
      assert init[k] == replies[k];
      RevealedCoversKnown(agents, init, now, k);
    }
  }

  /** Reordering the replies reorders the revealed messages and nothing else. */
  lemma RevealedPermutation(agents: seq<AgentProfile>, order: seq<GeminiService.AgentReply>,
                            replies: seq<GeminiService.AgentReply>, now: string)
    requires multiset(order) == multiset(replies)
    ensures multiset(Revealed(agents, order, now)) == multiset(Revealed(agents, replies, now))
  {
    FlatMapPermutation(Reveal(agents, now), order, replies);
  }

  /** A new agent: `Agent <n+1>`, a neutral female friend of 25 with no traits and the default voice. */
  function NewAgent(id: string, rosterSize: nat): (r: AgentProfile)
    ensures r.id == id && r.personalityTraits == []
    ensures r.voiceName == Some(Constants.DefaultVoice) && r.voiceName.value in Constants.PrebuiltVoices
  {
    AgentProfile(id, "Agent " + IntToString(rosterSize + 1), Female, Emotion.Neutral, Friend, 25, [],
                 Some(""), Some(Prebuilt), Some(Constants.DefaultVoice), Some(SpeakingStyle.Expressive), Some(""))
  }

  /** The new agent's name reads back as the roster's new size. */
  lemma NewAgentNumbered(id: string, rosterSize: nat)
    ensures var name := NewAgent(id, rosterSize).name;
      StartsWith(name, "Agent ") && ParseIntOrZero(name[|"Agent "|..]) == rosterSize + 1
  {
    var name := NewAgent(id, rosterSize).name;
    StartsWithConcat("Agent ", IntToString(rosterSize + 1));
    assert name[|"Agent "|..] == IntToString(rosterSize + 1);
    ParseIntOfIntToString(rosterSize + 1, "");
    assert IntToString(rosterSize + 1) + "" == IntToString(rosterSize + 1);
  }

  /** `agent-${Date.now()}`. */
  function NewAgentId(clock: nat): string
  {
    "agent-" + NatToString(clock)
  }

  class ConversationStore {
    var agents: seq<AgentProfile>
    var messages: seq<ChatMessage>
    var userProfile: UserProfile
    var isThinking: bool
    var thinkingMessage: Indicator
    var view: View
    var agentInCall: Option<AgentProfile>
    var editingAgent: Option<AgentProfile>

    /**
     * A session: persisted values when stored, the defaults otherwise; the
     * welcome notice is posted when there is no chat history.
     */
    constructor(storedAgents: Option<seq<AgentProfile>>, storedMessages: Option<seq<ChatMessage>>,
                storedProfile: Option<UserProfile>, now: string)
      ensures agents == (if storedAgents.Some? then storedAgents.value else Constants.AgentProfiles)
      ensures userProfile == (if storedProfile.Some? then storedProfile.value else DefaultUserProfile)
      ensures var stored := if storedMessages.Some? then storedMessages.value else [];
        messages == if stored == [] then [ChatMessage(SystemAuthor, WelcomeText, now)] else stored
      ensures !isThinking && thinkingMessage == NoIndicator
      ensures view == ChatScreen && agentInCall == None && editingAgent == None
    {
      agents := if storedAgents.Some? then storedAgents.value else Constants.AgentProfiles;
      var stored := if storedMessages.Some? then storedMessages.value else [];
      messages := if stored == [] then [ChatMessage(SystemAuthor, WelcomeText, now)] else stored;
      userProfile := if storedProfile.Some? then storedProfile.value else DefaultUserProfile;
      isThinking := false;
      thinkingMessage := NoIndicator;
      view := ChatScreen;
      agentInCall := None;
      editingAgent := None;
    }

    /** The call screen is shown while the view is the call and an agent is in the call. */
    predicate ShowsCall()
      reads this
    {
      view == CallScreen && agentInCall.Some?
    }

    /**
     * `handleSendMessage(text)`. A blank text, or a send while a turn is
     * running, changes nothing. Otherwise the request built from the roster
     * and the history including the user's message goes to `chat`, and the
     * turn runs on what it returns; `order` is the order the shuffle put the
     * replies in. Only the messages and the two thinking fields change.
     */
    method HandleSendMessage(text: string, now: string, chat: string -> Result<Json, JsError>,
                             order: seq<GeminiService.AgentReply>)
      requires IsShuffle(order, GeminiService.GetParallelAgentResponses(agents, messages + [UserMessage(userProfile, text, now)], chat))
      modifies this`messages, this`isThinking, this`thinkingMessage
      ensures !Sendable(text, old(isThinking)) ==>
        messages == old(messages) && isThinking == old(isThinking) && thinkingMessage == old(thinkingMessage)
      ensures Sendable(text, old(isThinking)) ==>
        var history := old(messages) + [UserMessage(old(userProfile), text, now)];
        && messages == history + TurnMessages(old(agents), GeminiService.GetParallelAgentResponses(old(agents), history, chat), order, now)
        && !isThinking && thinkingMessage == NoIndicator
    {
      // The proof needs only the call's result, never the text of the request.
      hide GeminiService.BuildPrompt;
      if !Sendable(text, isThinking) {
        return;
      }
      var history := messages + [UserMessage(userProfile, text, now)];
      var result := GeminiService.GetParallelAgentResponses(agents, history, chat);
      RunTurn(history, result, order, now);
    }

    /**
     * The body of a send once the request has returned `result`: the history
     * with the user's message is shown, the group thinking text is set, the
     * replies are revealed in the shuffled order (or one system notice is
     * appended when the request threw), and the turn ends with `isThinking`
     * false and no thinking text.
     */
    method RunTurn(history: seq<ChatMessage>, result: Result<seq<GeminiService.AgentReply>, JsError>,
                   order: seq<GeminiService.AgentReply>, now: string)
      requires IsShuffle(order, result)
      modifies this`messages, this`isThinking, this`thinkingMessage
      ensures messages == history + TurnMessages(old(agents), result, order, now)
      ensures !isThinking && thinkingMessage == NoIndicator
    {
      messages := history;
      isThinking := true;
      thinkingMessage := GroupThinking;
      ShowResult(result, order, now);
      isThinking := false;
      thinkingMessage := NoIndicator;
    }

    /**
     * The `try` body after the request returns, and its `catch`: the replies
     * are revealed in the shuffled order, or a thrown value appends one
     * system notice.
     */
    method ShowResult(result: Result<seq<GeminiService.AgentReply>, JsError>,
                      order: seq<GeminiService.AgentReply>, now: string)
      requires IsShuffle(order, result)
      modifies this`messages, this`thinkingMessage
      ensures messages == old(messages) + TurnMessages(agents, result, order, now)
    {
      match result {
        case Err(e) =>
          messages := messages + [ErrorMessage(e, now)];
        case Ok(replies) =>
          if |replies| > 0 {
            RevealReplies(order, now);
          } else {
            NoRepliesNoAgentMessages(agents, order, replies, now);
          }
      }
    }

    /**
     * The reveal loop: for each reply in turn, a roster agent's reply shows
     * "<name> is typing..." and appends its message, then the generic
     * thinking text returns unless it was the last reply; an unknown id is
     * skipped.
     */
    method RevealReplies(order: seq<GeminiService.AgentReply>, now: string)
      modifies this`messages, this`thinkingMessage
      ensures messages == old(messages) + Revealed(agents, order, now)
    {
      var i := 0;
      var revealed := [];
      while i < |order|
        invariant 0 <= i <= |order|
        invariant revealed == Revealed(agents, order[..i], now)
        invariant messages == old(messages) + revealed
      {
        var response := order[i];
        FlatMapStep(Reveal(agents, now), order, i);
        var agent := FindById(agents, response.agentId);
        if agent.Some? {
          var message := AgentMessage(agent.value, response.message, now);
          thinkingMessage := Typing(agent.value.name);
          AppendAssoc(old(messages), revealed, [message]);
          revealed := revealed + [message];
          messages := messages + [message];
          if i < |order| - 1 {
            thinkingMessage := GroupThinking;
          }
        }
        i := i + 1;
      }
      FlatMapAll(Reveal(agents, now), order);
    }

    /** `handleAddAgent()`: appends a new agent with a fresh id and opens it in the editor. */
    method HandleAddAgent(clock: nat)
      requires !HasId(agents, NewAgentId(clock))
      modifies this
      ensures agents == old(agents) + [NewAgent(NewAgentId(clock), |old(agents)|)]
      ensures editingAgent == Some(NewAgent(NewAgentId(clock), |old(agents)|))
      ensures DistinctIds(old(agents)) ==> DistinctIds(agents)
      ensures messages == old(messages) && userProfile == old(userProfile)
      ensures isThinking == old(isThinking) && thinkingMessage == old(thinkingMessage)
      ensures view == old(view) && agentInCall == old(agentInCall)
    {
      var agent := NewAgent(NewAgentId(clock), |agents|);
      agents := agents + [agent];
      editingAgent := Some(agent);
    }

    /** `handleUpdateAgent(updated)`: every agent with the updated id is replaced. */
    method HandleUpdateAgent(updated: AgentProfile)
      modifies this
      ensures agents == UpdateById(old(agents), updated)
      ensures DistinctIds(old(agents)) ==> DistinctIds(agents)
      ensures messages == old(messages) && userProfile == old(userProfile)
      ensures isThinking == old(isThinking) && thinkingMessage == old(thinkingMessage)
      ensures view == old(view) && agentInCall == old(agentInCall) && editingAgent == old(editingAgent)
    {
      agents := UpdateById(agents, updated);
    }

    /**
     * `handleRemoveAgent(id)`: every agent with that id is dropped and the
     * editor closes. Removal is offered only while more than one agent
     * remains, so with distinct ids the roster stays non-empty.
     */
    method HandleRemoveAgent(id: string)
      modifies this
      ensures agents == WithoutId(old(agents), id)
      ensures editingAgent == None
      ensures DistinctIds(old(agents)) ==> DistinctIds(agents)
      ensures DistinctIds(old(agents)) && |old(agents)| > 1 ==> |agents| >= 1
      ensures messages == old(messages) && userProfile == old(userProfile)
      ensures isThinking == old(isThinking) && thinkingMessage == old(thinkingMessage)
      ensures view == old(view) && agentInCall == old(agentInCall)
    {
      if DistinctIds(agents) {
        WithoutIdKeepsDistinct(agents, id);
        if |agents| > 1 {
          RemovalKeepsRosterNonEmpty(agents, id);
        }
      }
      agents := WithoutId(agents, id);
      editingAgent := None;
    }

    /** `handleStartCall(id)`: a roster agent's call opens (and the editor closes); an unknown id changes nothing. */
    method HandleStartCall(id: string)
      modifies this
      ensures HasId(old(agents), id) ==>
        && agentInCall == FindById(old(agents), id) && view == CallScreen && editingAgent == None
        && ShowsCall() && agentInCall.value in agents && agentInCall.value.id == id
      ensures !HasId(old(agents), id) ==>
        view == old(view) && agentInCall == old(agentInCall) && editingAgent == old(editingAgent)
      ensures agents == old(agents) && messages == old(messages) && userProfile == old(userProfile)
      ensures isThinking == old(isThinking) && thinkingMessage == old(thinkingMessage)
    {
      var agent := FindById(agents, id);
      if agent.Some? {
        editingAgent := None;
        agentInCall := agent;
        view := CallScreen;
      }
    }

    /** `handleEndCall()`: back to the chat, with nobody in the call. */
    method HandleEndCall()
      modifies this
      ensures view == ChatScreen && agentInCall == None && !ShowsCall()
      ensures agents == old(agents) && messages == old(messages) && userProfile == old(userProfile)
      ensures isThinking == old(isThinking) && thinkingMessage == old(thinkingMessage)
      ensures editingAgent == old(editingAgent)
    {
      view := ChatScreen;
      agentInCall := None;
    }

    /** `handleUpdateUserProfile(profile)`. */
    method HandleUpdateUserProfile(profile: UserProfile)
      modifies this
      ensures userProfile == profile
      ensures agents == old(agents) && messages == old(messages)
      ensures isThinking == old(isThinking) && thinkingMessage == old(thinkingMessage)
      ensures view == old(view) && agentInCall == old(agentInCall) && editingAgent == old(editingAgent)
    {
      userProfile := profile;
    }
  }

  /** With no replies (an answer without a `responses` array, say), only the user's message is appended. */
  lemma NoRepliesNoAgentMessages(agents: seq<AgentProfile>, order: seq<GeminiService.AgentReply>,
                                  replies: seq<GeminiService.AgentReply>, now: string)
    requires multiset(order) == multiset(replies) && replies == []
    ensures Revealed(agents, order, now) == []
  {
    assert |multiset(order)| == 0;
  }
}
