/**
 * The editor card of one agent (`components/AgentCard.tsx`). Each edit
 * replaces one field of the card's local copy of the agent, and the same
 * updated agent is handed to the store. Trait checkboxes append or remove a
 * trait. A voice preview is guarded by a flag that is set while it runs and
 * always cleared when it ends.
 */
module AgentCard {
  import opened Wrappers
  import opened Types
  import opened Js
  import opened Strings
  import opened Sequences
  import opened Roster
  import Constants
  import GeminiService
  import MessageBubble

  // ---------------------------------------------------------------------------
  // Field edits
  // ---------------------------------------------------------------------------

  /** One `handleFieldChange(field, value)` call: the field and the value the control produced. */
  datatype FieldEdit =
    | SetName(name: string)
    | SetGender(gender: Gender)
    | SetEmotion(emotion: Emotion)
    | SetProfession(profession: Profession)
    | SetAge(raw: string)
    | SetTraits(traits: seq<PersonalityTrait>)
    | SetAvatarUrl(avatarUrl: string)
    | SetVoiceType(voiceType: VoiceType)
    | SetVoiceName(voiceName: string)
    | SetSpeakingStyle(style: SpeakingStyle)
    | SetCustomVoiceUrl(customVoiceUrl: string)

  /**
   * The agent after one edit: the named field takes the value (the age
   * through `parseInt(value, 10) || 0`), every other field keeps its value.
   */
  function ApplyFieldChange(agent: AgentProfile, e: FieldEdit): (r: AgentProfile)
    ensures r.id == agent.id
    ensures r.name == (if e.SetName? then e.name else agent.name)
    ensures r.gender == (if e.SetGender? then e.gender else agent.gender)
    ensures r.emotion == (if e.SetEmotion? then e.emotion else agent.emotion)
    ensures r.profession == (if e.SetProfession? then e.profession else agent.profession)
    ensures r.age == (if e.SetAge? then ParseIntOrZero(e.raw) else agent.age)
    ensures r.personalityTraits == (if e.SetTraits? then e.traits else agent.personalityTraits)
    ensures r.avatarUrl == (if e.SetAvatarUrl? then Some(e.avatarUrl) else agent.avatarUrl)
    ensures r.voiceType == (if e.SetVoiceType? then Some(e.voiceType) else agent.voiceType)
    ensures r.voiceName == (if e.SetVoiceName? then Some(e.voiceName) else agent.voiceName)
    ensures r.speakingStyle == (if e.SetSpeakingStyle? then Some(e.style) else agent.speakingStyle)
    ensures r.customVoiceUrl == (if e.SetCustomVoiceUrl? then Some(e.customVoiceUrl) else agent.customVoiceUrl)
  {
    match e
    case SetName(v) => agent.(name := v)
    case SetGender(v) => agent.(gender := v)
    case SetEmotion(v) => agent.(emotion := v)
    case SetProfession(v) => agent.(profession := v)
    case SetAge(raw) => agent.(age := ParseIntOrZero(raw))
    case SetTraits(v) => agent.(personalityTraits := v)
    case SetAvatarUrl(v) => agent.(avatarUrl := Some(v))
    case SetVoiceType(v) => agent.(voiceType := Some(v))
    case SetVoiceName(v) => agent.(voiceName := Some(v))
    case SetSpeakingStyle(v) => agent.(speakingStyle := Some(v))
    case SetCustomVoiceUrl(v) => agent.(customVoiceUrl := Some(v))
  }

  /** Which field an edit names. */
  function FieldOf(e: FieldEdit): nat
  {
    match e
    case SetName(_) => 1
    case SetGender(_) => 2
    case SetEmotion(_) => 3
    case SetProfession(_) => 4
    case SetAge(_) => 5
    case SetTraits(_) => 6
    case SetAvatarUrl(_) => 7
    case SetVoiceType(_) => 8
    case SetVoiceName(_) => 9
    case SetSpeakingStyle(_) => 10
    case SetCustomVoiceUrl(_) => 11
  }

  /** Repeating an edit changes nothing more. */
  lemma FieldChangeIdempotent(agent: AgentProfile, e: FieldEdit)
    ensures ApplyFieldChange(ApplyFieldChange(agent, e), e) == ApplyFieldChange(agent, e)
  {
  }

  /** Edits of two different fields can be made in either order. */
  lemma FieldChangesCommute(agent: AgentProfile, e1: FieldEdit, e2: FieldEdit)
    requires FieldOf(e1) != FieldOf(e2)
    ensures ApplyFieldChange(ApplyFieldChange(agent, e1), e2) == ApplyFieldChange(ApplyFieldChange(agent, e2), e1)
  {
  }

  /** The age box shows the age as a decimal number, and reading it back gives the same age. */
  lemma AgeRoundTrip(agent: AgentProfile, age: int)
    ensures ApplyFieldChange(agent, SetAge(IntToString(age))).age == age
  {
    ParseIntOfIntToString(age, []);
    assert IntToString(age) + [] == IntToString(age);
  }

  /** A value without any digit (an emptied box) sets the age to 0. */
  lemma AgeWithoutDigitsIsZero(agent: AgentProfile, raw: string)
    requires forall i :: 0 <= i < |raw| ==> !IsDigit(raw[i])
    ensures ApplyFieldChange(agent, SetAge(raw)).age == 0
  {
    ParseIntNoDigits(raw);
  }

  // ---------------------------------------------------------------------------
  // Traits
  // ---------------------------------------------------------------------------

  /** The part one trait contributes to a list with the chosen trait filtered out. */
  function KeepUnless(chosen: PersonalityTrait): PersonalityTrait -> seq<PersonalityTrait>
  {
    t => if t == chosen then [] else [t]
  }

  /** `traits.filter(t => t !== chosen)`. */
  function Without(traits: seq<PersonalityTrait>, chosen: PersonalityTrait): seq<PersonalityTrait>
  {
    FlatMap(KeepUnless(chosen), traits)
  }

  /** Unchecking removes every occurrence of the trait and keeps every other trait as often as before. */
  lemma {:induction false} WithoutRemovesAll(traits: seq<PersonalityTrait>, chosen: PersonalityTrait)
    ensures chosen !in Without(traits, chosen)
    ensures forall t :: t != chosen ==> multiset(Without(traits, chosen))[t] == multiset(traits)[t]
    decreases |traits|
  {
    if traits != [] {
      var init, last := traits[..|traits| - 1], traits[|traits| - 1];
      WithoutRemovesAll(init, chosen);
      assert traits == init + [last];
      assert Without(traits, chosen) == Without(init, chosen) + KeepUnless(chosen)(last);
    }
  }

  /** Filtering keeps the order: the filter of a concatenation is the concatenation of the filters. */
  lemma WithoutAppend(a: seq<PersonalityTrait>, b: seq<PersonalityTrait>, chosen: PersonalityTrait)
    ensures Without(a + b, chosen) == Without(a, chosen) + Without(b, chosen)
  {
    FlatMapAppend(KeepUnless(chosen), a, b);
  }

  /** Filtering out a trait the list does not hold leaves the list as it is. */
  lemma {:induction false} WithoutAbsent(traits: seq<PersonalityTrait>, chosen: PersonalityTrait)
    requires chosen !in traits
    ensures Without(traits, chosen) == traits
    decreases |traits|
  {
    if traits != [] {
      var init := traits[..|traits| - 1];
      WithoutAbsent(init, chosen);
      assert init + [traits[|traits| - 1]] == traits;
    }
  }

  /** `handleTraitChange`: checking appends the trait at the end, unchecking filters it out. */
  function ToggleTrait(traits: seq<PersonalityTrait>, chosen: PersonalityTrait, isChecked: bool): seq<PersonalityTrait>
  {
    if isChecked then traits + [chosen] else Without(traits, chosen)
  }

  /** The checkbox shows a trait as checked when the list holds it. */
  predicate TraitChecked(agent: AgentProfile, chosen: PersonalityTrait)
  {
    chosen in agent.personalityTraits
  }

  /**
   * After a toggle the box shows what was clicked; checking does not prevent
   * a duplicate (the list grows by one even if the trait is already there).
   */
  lemma ToggleShowsClick(traits: seq<PersonalityTrait>, chosen: PersonalityTrait, isChecked: bool)
    ensures (chosen in ToggleTrait(traits, chosen, isChecked)) == isChecked
    ensures isChecked ==> |ToggleTrait(traits, chosen, isChecked)| == |traits| + 1
  {
    if !isChecked {
      WithoutRemovesAll(traits, chosen);
    }
  }

  /** Checking and then unchecking a trait the agent did not have restores the list. */
  lemma CheckThenUncheck(traits: seq<PersonalityTrait>, chosen: PersonalityTrait)
    requires chosen !in traits
    ensures ToggleTrait(ToggleTrait(traits, chosen, true), chosen, false) == traits
  {
    WithoutAppend(traits, [chosen], chosen);
    FlatMapSingle(KeepUnless(chosen), chosen);
    WithoutAbsent(traits, chosen);
  }

  // ---------------------------------------------------------------------------
  // What the card shows
  // ---------------------------------------------------------------------------

  /** The card's avatar: the picture if there is a non-empty one, else the profession's icon. */
  function CardAvatar(agent: AgentProfile): (r: MessageBubble.Avatar)
    ensures r.Image? <==> Truthy(agent.avatarUrl)
    ensures r.Image? ==> Some(r.src) == agent.avatarUrl
    ensures r.Glyph? ==> r.text == Constants.ProfessionIcon(agent.profession)
  {
    if Truthy(agent.avatarUrl) then MessageBubble.Image(agent.avatarUrl.value)
    else MessageBubble.Glyph(Constants.ProfessionIcon(agent.profession))
  }

  /** The controls' state as the card draws them. */
  datatype CardView = CardView(
    avatar: MessageBubble.Avatar,
    removeButton: bool,
    avatarRemoveButton: bool,
    selectedVoice: string,
    prebuiltChecked: bool,
    customChecked: bool,
    customSection: bool,
    selectedStyle: SpeakingStyle)

  function StyleOrDefault(agent: AgentProfile): SpeakingStyle
  {
    if agent.speakingStyle.Some? then agent.speakingStyle.value else Expressive
  }

  /**
   * The remove button only when the roster allows removal; the voice
   * selector on the agent's voice or Zephyr; the "prebuilt" radio for a
   * missing voice type; the custom-audio section only for the custom type;
   * the style selector on the agent's style or Expressive.
   */
  function RenderCard(agent: AgentProfile, canRemove: bool): (r: CardView)
    ensures r.removeButton == canRemove
    ensures r.avatar == CardAvatar(agent)
    ensures r.avatarRemoveButton <==> r.avatar.Image?
    ensures r.selectedVoice == OrElse(agent.voiceName, Constants.DefaultVoice)
    ensures r.prebuiltChecked <==> agent.voiceType != Some(Custom)
    ensures r.customChecked <==> agent.voiceType == Some(Custom)
    ensures r.customSection == r.customChecked
    ensures agent.speakingStyle.Some? ==> r.selectedStyle == agent.speakingStyle.value
    ensures agent.speakingStyle.None? ==> r.selectedStyle == Expressive
  {
    var voiceType := if agent.voiceType.Some? then agent.voiceType.value else Prebuilt;
    CardView(CardAvatar(agent), canRemove, Truthy(agent.avatarUrl),
             OrElse(agent.voiceName, Constants.DefaultVoice),
             voiceType == Prebuilt, agent.voiceType == Some(Custom), agent.voiceType == Some(Custom),
             StyleOrDefault(agent))
  }

  /** Exactly one of the two voice-type radios is checked. */
  lemma OneVoiceTypeChecked(agent: AgentProfile, canRemove: bool)
    ensures RenderCard(agent, canRemove).prebuiltChecked != RenderCard(agent, canRemove).customChecked
  {
  }

  /**
   * The roster view passes `canRemove` as "more than one agent", so a remove
   * button that is shown can never empty the roster.
   */
  lemma ShownRemoveKeepsRoster(agents: seq<AgentProfile>, agent: AgentProfile, id: string)
    requires DistinctIds(agents)
    requires RenderCard(agent, |agents| > 1).removeButton
    ensures |WithoutId(agents, id)| >= 1
  {
    RemovalKeepsRosterNonEmpty(agents, id);
  }

  // ---------------------------------------------------------------------------
  // Voice preview
  // ---------------------------------------------------------------------------

  /** What a preview asks the speech model for. */
  datatype PreviewRequest = PreviewRequest(text: string, voiceName: string, style: SpeakingStyle)

  /** The sentence a preview speaks, introducing the agent by name. */
  function PreviewText(name: string): (r: string)
    ensures StartsWith(r, "Hello, my name is " + name)
  {
    "Hello, my name is " + name + ". This is a preview of my voice."
  }

  // ---------------------------------------------------------------------------
  // The card
  // ---------------------------------------------------------------------------

  class Card {
    /** The card's own copy of the agent, edited locally and pushed to the store. */
    var localAgent: AgentProfile
    var isPreviewing: bool

    constructor(agent: AgentProfile)
      ensures localAgent == agent && !isPreviewing
    {
      localAgent := agent;
      isPreviewing := false;
    }

    /** The store's agent changed: the local copy follows it. */
    method SyncFromStore(agent: AgentProfile)
      modifies this
      ensures localAgent == agent && isPreviewing == old(isPreviewing)
    {
      localAgent := agent;
    }

    /** `handleFieldChange`: the edited agent becomes the local copy and is what the store receives. */
    method FieldChange(e: FieldEdit) returns (sent: AgentProfile)
      modifies this
      ensures sent == ApplyFieldChange(old(localAgent), e)
      ensures localAgent == sent && isPreviewing == old(isPreviewing)
    {
      sent := ApplyFieldChange(localAgent, e);
      localAgent := sent;
    }

    /** `handleTraitChange`: a trait-list edit built from the current list. */
    method TraitChange(chosen: PersonalityTrait, isChecked: bool) returns (sent: AgentProfile)
      modifies this
      ensures sent == ApplyFieldChange(old(localAgent), SetTraits(ToggleTrait(old(localAgent).personalityTraits, chosen, isChecked)))
      ensures localAgent == sent && isPreviewing == old(isPreviewing)
      ensures TraitChecked(localAgent, chosen) == isChecked
    {
      ToggleShowsClick(localAgent.personalityTraits, chosen, isChecked);
      sent := FieldChange(SetTraits(ToggleTrait(localAgent.personalityTraits, chosen, isChecked)));
    }

    /**
     * `handlePreviewVoice` up to its request: nothing happens while a preview
     * runs or when the agent has no voice; otherwise the flag is set and the
     * agent's name, voice and style (Expressive when unset) are asked for.
     */
    method BeginPreview() returns (request: Option<PreviewRequest>)
      modifies this
      ensures request.None? <==> old(isPreviewing) || !Truthy(localAgent.voiceName)
      ensures request.None? ==> isPreviewing == old(isPreviewing)
      ensures request.Some? ==> isPreviewing && request.value.text == PreviewText(localAgent.name)
      ensures request.Some? ==> request.value.voiceName == localAgent.voiceName.value
      ensures request.Some? ==> request.value.style == StyleOrDefault(localAgent)
      ensures localAgent == old(localAgent)
    {
      if isPreviewing || !Truthy(localAgent.voiceName) {
        return None;
      }
      isPreviewing := true;
      request := Some(PreviewRequest(PreviewText(localAgent.name), localAgent.voiceName.value,
                                     StyleOrDefault(localAgent)));
    }

    /**
     * The rest of `handlePreviewVoice`: the speech model answers; the audio
     * is played when there is some, an alert is raised otherwise, and in
     * either case the flag is cleared.
     */
    method FinishPreview(request: PreviewRequest, speech: (string, string) -> Result<GeminiService.SpeechResponse, JsError>)
      returns (played: Option<string>)
      modifies this
      ensures !isPreviewing && localAgent == old(localAgent)
      ensures var outcome := GeminiService.GenerateSpeechPreview(request.text, request.voiceName, request.style, speech);
        played == (if outcome.Ok? then Some(outcome.value) else None)
      ensures played.Some? ==> played.value != ""
    {
      var outcome := GeminiService.GenerateSpeechPreview(request.text, request.voiceName, request.style, speech);
      played := if outcome.Ok? then Some(outcome.value) else None;
      isPreviewing := false;
    }
  }
}
