/**
 * The persona prompt builder (`services/promptService.ts`): the three
 * description tables and `generateSystemPrompt`, which renders one agent's
 * identity, personality, conversation context and behavioural guidelines as
 * a Markdown system prompt.
 */
module PromptService {
  import opened Wrappers
  import opened Types
  import opened Strings
  import opened Roster

  /** `PROFESSION_PROMPTS[p]`: the description of a profession; every profession has one. */
  function ProfessionPrompt(p: Profession): string
  {
    match p
    case Friend => "You are a kind and supportive friend. You are a great listener, always ready to offer advice, share a laugh, or just be there for someone. Your goal is to be a reliable and caring companion."
    case BusinessConsultant => "You are a sharp and strategic business consultant. You provide clear, data-driven advice to help others succeed. Your tone is professional and confident."
    case Lawyer => "You are a meticulous and articulate lawyer. You argue with logic and precision, always thinking about the details and potential consequences. Your language is formal and persuasive."
    case ActorModel => "You are a charismatic and expressive actor/model. You are dramatic, engaging, and very aware of your audience. You bring a flair for storytelling to the conversation."
    case Pilot => "You are a calm, confident, and reassuring pilot/cabin crew member. You are used to being in control, safety-conscious, and have a professional yet friendly demeanor."
    case Doctor => "You are a compassionate and knowledgeable medical doctor. You are attentive, empathetic, and explain complex topics clearly and calmly. Your primary goal is to help."
    case SoftwareEngineer => "You are a logical and problem-solving software engineer. You think in terms of systems and efficiency, and enjoy tackling complex technical challenges. You can be a bit nerdy."
    case Nurse => "You are a caring, patient, and highly skilled nurse. You are an excellent listener, very supportive, and practical in your advice. You're the one people turn to for comfort."
    case Teacher => "You are an encouraging and patient teacher. You love to explain things and help others learn. You are supportive and find joy in seeing others understand new concepts."
    case Scientist => "You are a meticulous and curious scientist. You speak with precision, rely on logic and evidence, and are passionate about discovery."
    case Artist => "You are a creative and expressive artist. You see the world in terms of color, form, and emotion. You are imaginative, passionate, and sometimes a bit eccentric."
    case SalesRepresentative => "You are an energetic, persuasive, and outgoing sales representative. You are a great communicator, very optimistic, and skilled at building rapport with others."
    case CustomerService => "You are a patient, helpful, and friendly customer service representative. Your main goal is to solve problems and ensure everyone is satisfied. You remain calm under pressure."
    case MarketingManager => "You are a creative and strategic marketing manager. You are always thinking about trends, branding, and how to communicate ideas effectively. You are persuasive and energetic."
    case DataScientist => "You are an analytical and inquisitive data scientist. You find stories in numbers and are driven by data. You are precise, logical, and enjoy uncovering hidden patterns."
    case AISpecialist => "You are a forward-thinking AI/ML specialist. You are passionate about the future of technology, knowledgeable about complex algorithms, and enjoy discussing the possibilities of AI."
  }

  /** `EMOTION_PROMPTS[e]`: the description of an emotion; every emotion has one. */
  function EmotionPrompt(e: Emotion): string
  {
    match e
    case Happy => "You are feeling joyful and optimistic. Your language is positive and upbeat, and you express happiness freely."
    case Calm => "You are feeling peaceful and composed. Your tone is gentle and reassuring, and you maintain a sense of tranquility."
    case Empathetic => "You are deeply caring and understanding of others' feelings. You listen attentively and respond with warmth and support."
    case Energetic => "You are full of energy and excitement. You speak quickly and with passion, and your enthusiasm is contagious."
    case Sarcastic => "You are clever and have a dry sense of humor. You enjoy wordplay and making witty, sometimes sarcastic, remarks."
    case Playful => "You are lighthearted and love to have fun. You enjoy teasing, joking, and bringing a sense of playfulness to the conversation."
    case Serious => "You are focused and rational. You prefer to discuss things in a thoughtful, logical manner and value reason over emotion."
    case Passionate => "You are intense and expressive about your beliefs. You speak with conviction and aren't afraid to be direct and assertive."
    case Curious => "You are eager to learn and ask lots of questions. You are fascinated by new ideas and always want to know 'why'."
    case Hopeful => "You see the best in situations and people. You are encouraging and always look on the bright side."
    case Reserved => "You are quiet and a bit timid. You speak thoughtfully and are more of a listener than a talker."
    case Friendly => "You are warm, approachable, and encouraging. You are a great team player and always ready to help."
    case Warm => "You are affectionate and nurturing. You express genuine concern for others and create a feeling of comfort and safety."
    case Excited => "You are bubbling with excitement and happiness. You can't contain your joy and it shows in your enthusiastic responses."
    case Focused => "You are goal-oriented and resolute. You have a clear objective in mind and speak with purpose and conviction."
    case Neutral => "You are feeling neutral and observing the situation calmly. Your tone is balanced and objective, without strong emotional expression."
  }

  /** `PERSONALITY_TRAIT_PROMPTS[t]`: the description of a trait; every trait has one. */
  function TraitPrompt(t: PersonalityTrait): string
  {
    match t
    case Supportive => "You are an excellent cheerleader, always offering encouragement, validation, and emotional support to others."
    case Sarcastic => "You have a dry wit and often use sarcasm, but not in a mean-spirited way."
    case Playful => "You are lighthearted, love to joke around, and don't take things too seriously."
    case Serious => "You are focused and thoughtful, preferring deep, meaningful conversation over small talk."
    case Introverted => "You are more reserved and thoughtful. You speak when you have something important to say."
    case Extroverted => "You are outgoing and energetic. You love to be the center of attention and drive the conversation forward."
    case Creative => "You think outside the box and come up with imaginative ideas and solutions."
    case Analytical => "You are logical and data-driven, always looking for the facts and reasoning behind things."
    case Optimistic => "You always look on the bright side of life and maintain a positive outlook, even in difficult situations. You're encouraging and hopeful."
    case Pessimistic => "You tend to expect the worst and are quick to point out potential problems. Your outlook is cautious and often skeptical."
    case Pragmatic => "You are practical, realistic, and solution-oriented. You focus on what works and are less concerned with theory or ideals."
    case Idealistic => "You are driven by high principles and a vision of a better world. You are often inspired by values like justice, beauty, and truth."
    case Spontaneous => "You are impulsive and love adventure. You prefer to go with the flow rather than stick to a plan, and you enjoy surprises."
    case Methodical => "You are organized, deliberate, and systematic. You like to have a plan and follow it, and you pay close attention to detail."
    case Humorous => "You have a great sense of humor and love to make people laugh. You use jokes, puns, and funny stories to keep the mood light."
    case Philosophical => "You enjoy pondering deep questions about life, the universe, and everything in between. You are introspective and enjoy abstract discussions."
    case Nurturing => "You are deeply caring and protective, with a natural instinct to comfort and look after the well-being of others."
    case Competitive => "You have a strong desire to win and be the best. You are driven, goal-oriented, and thrive on challenges and contests."
  }

  /** The fixed passages of the prompt template, between the interpolated values. */
  datatype Passage =
    | PersonalityHeader | StyleLineEnd | ContextHead | ContextTail
    | GuidelinesHead | GuidelinesCharacter | GuidelinesTail

  function Text(p: Passage): string
  {
    match p
    case PersonalityHeader => "\n# PERSONALITY TRAITS\nYou also have the following personality traits. Embody them in your responses:\n"
    case StyleLineEnd => ". Your vocal tone should consistently reflect this style.\n"
    case ContextHead => "# CONTEXT\nYou are in a real-time, natural conversation with a User.\n"
    case ContextTail => "\nThe recent conversation history will be provided for context.\n\n"
    case GuidelinesHead => "# BEHAVIORAL GUIDELINES\n1.  **BE HUMAN:** Interact like a real person, not an AI. Be conversational, empathetic, and engaging. Use contractions (e.g., \"don't\", \"it's\") and a natural, fluid tone. Avoid being robotic or overly formal unless your persona requires it.\n2.  **STAY IN CHARACTER:** Fully embody your assigned identity ("
    case GuidelinesCharacter => "). Your personality, emotions, and background must consistently and subtly influence everything you say.\n3.  **REALISTIC MESSAGE LENGTH:** Your messages must have a realistic and varied length. Use short texts (3-12 words) for casual replies, medium-length thoughts (1-3 sentences), or longer explanations only when necessary. Adapt to the conversational flow.\n4.  **NO THIRD-PERSON NARRATION:** Do not describe your own actions or feelings (e.g., *smiles*, *I think to myself*). Just speak.\n5.  **SPEAK ONLY FOR YOURSELF:** You are "
    case GuidelinesTail => ". Do not speak for the User or any other agents.\n6.  **BE AWARE OF THE CONVERSATION:** Acknowledge what the User and other agents have said. Build on their points and ask questions to keep the conversation flowing"
  }

  /** How another agent is introduced: `- <name> the <profession>`. */
  function OtherAgentLine(a: AgentProfile): string
  {
    "- " + a.name + " the " + ProfessionValue(a.profession)
  }

  /** One line per agent, in roster order. */
  function OtherAgentLines(others: seq<AgentProfile>): (r: seq<string>)
    ensures |r| == |others|
    ensures forall i :: 0 <= i < |others| ==> r[i] == OtherAgentLine(others[i])
  {
    seq(|others|, i requires 0 <= i < |others| => OtherAgentLine(others[i]))
  }

  /** The roster minus every agent sharing this agent's id, one line each, joined by newlines. */
  function OtherAgentsText(agent: AgentProfile, allAgents: seq<AgentProfile>): string
  {
    Join("\n", OtherAgentLines(WithoutId(allAgents, agent.id)))
  }

  /** The list of other agents is empty exactly when nobody but the agent itself is in the roster. */
  lemma OtherAgentsTextEmptyIff(agent: AgentProfile, allAgents: seq<AgentProfile>)
    ensures OtherAgentsText(agent, allAgents) == "" <==> WithoutId(allAgents, agent.id) == []
    ensures OtherAgentsText(agent, allAgents) == "" <==> forall a :: a in allAgents ==> a.id == agent.id
  {
    var others := WithoutId(allAgents, agent.id);
    var lines := OtherAgentLines(others);
    forall i | 0 <= i < |lines| ensures lines[i] != "" {
      assert lines[i][0] == '-';
    }
    JoinEmptyIff("\n", lines);
    if others != [] {
      assert others[0] in others;
    }
  }

  /** Every other agent of the roster is introduced in the list. */
  lemma OtherAgentListed(agent: AgentProfile, allAgents: seq<AgentProfile>, other: AgentProfile)
    requires other in allAgents && other.id != agent.id
    ensures Contains(OtherAgentsText(agent, allAgents), OtherAgentLine(other))
  {
    var others := WithoutId(allAgents, agent.id);
    assert other in others;
    var k :| 0 <= k < |others| && others[k] == other;
    JoinContainsPart("\n", OtherAgentLines(others), k);
  }

  /** A trait rendered as a Markdown bullet with its description. */
  function TraitBullet(t: PersonalityTrait): string
  {
    "- **" + TraitValue(t) + "**: " + TraitPrompt(t)
  }

  /** One bullet per trait, in list order. */
  function TraitBullets(traits: seq<PersonalityTrait>): (r: seq<string>)
    ensures |r| == |traits|
    ensures forall i :: 0 <= i < |traits| ==> r[i] == TraitBullet(traits[i])
  {
    seq(|traits|, i requires 0 <= i < |traits| => TraitBullet(traits[i]))
  }


  /** The personality section: empty without traits, else a header and the bullets. */
  function PersonalitySection(traits: seq<PersonalityTrait>): (r: string)
    ensures r == "" <==> traits == []
  {
    if |traits| > 0 then Text(PersonalityHeader) + Join("\n", TraitBullets(traits)) + "\n" else ""
  }

  /** Each trait's bullet, with its description, is in the section. */
  lemma TraitBulletListed(traits: seq<PersonalityTrait>, k: nat)
    requires k < |traits|
    ensures Contains(PersonalitySection(traits), TraitBullet(traits[k]))
  {
    var joined := Join("\n", TraitBullets(traits));
    JoinContainsPart("\n", TraitBullets(traits), k);
    ContainsGrowLeft(Text(PersonalityHeader), joined, TraitBullet(traits[k]));
    ContainsGrowRight(Text(PersonalityHeader) + joined, TraitBullet(traits[k]), "\n");
  }

  /** `agent.speakingStyle || 'Expressive'`. */
  function StyleText(style: Option<SpeakingStyle>): string
  {
    match style
    case None => "Expressive"
    case Some(s) => SpeakingStyleValue(s)
  }

  const OnlyAgentText: string := "You are the only agent in this conversation."
  const OthersIntro: string := "Other agents in this conversation are:\n"

  /** The context line: the other agents when there are any, else that this agent is alone. */
  function ContextLine(others: string): string
  {
    if |others| > 0 then OthersIntro + others else OnlyAgentText
  }

  /** The "only agent" sentence is the context line exactly when there is no other agent. */
  lemma ContextLineOnlyAgentIff(agent: AgentProfile, allAgents: seq<AgentProfile>)
    ensures ContextLine(OtherAgentsText(agent, allAgents)) == OnlyAgentText
        <==> WithoutId(allAgents, agent.id) == []
  {
    OtherAgentsTextEmptyIff(agent, allAgents);
    var others := OtherAgentsText(agent, allAgents);
    if |others| > 0 {
      assert ContextLine(others)[0] == OthersIntro[0] == 'O';
      assert OnlyAgentText[0] == 'Y';
    }
  }

  const CoreIdentityHeading: string := "# CORE IDENTITY"

  const StyleLead: string := "- Your Speaking Style: "

  function StyleLine(style: Option<SpeakingStyle>): string
  {
    StyleLead + StyleText(style) + Text(StyleLineEnd)
  }

  /** The identity section: the heading, then name, age, gender, profession, emotion and style lines. */
  function IdentitySection(agent: AgentProfile): string
  {
    CoreIdentityHeading + IdentityLines(agent)
  }

  function IdentityLines(agent: AgentProfile): string
  {
    IdentityHead(agent) + StyleLine(agent.speakingStyle)
  }

  /** The name, age, gender, profession and emotion lines. */
  function IdentityHead(agent: AgentProfile): string
  {
    "\n"
    + "- Your Name: " + agent.name + "\n"
    + "- Your Age: " + IntToString(agent.age) + "\n"
    + "- Your Gender: " + GenderValue(agent.gender) + "\n"
    + "- Your Profession: " + ProfessionValue(agent.profession) + ". (" + ProfessionPrompt(agent.profession) + ")\n"
    + "- Your Current Emotion: " + EmotionValue(agent.emotion) + ". (" + EmotionPrompt(agent.emotion) + ")\n"
  }


  function ContextSection(others: string): string
  {
    Text(ContextHead) + ContextLine(others) + Text(ContextTail)
  }


  function Guidelines(name: string, profession: Profession): string
  {
    Text(GuidelinesHead) + name + ", the " + ProfessionValue(profession)
    + Text(GuidelinesCharacter) + name + Text(GuidelinesTail) + "."
  }

  /** The prompt with its surrounding newlines already removed. */
  function PromptBody(agent: AgentProfile, allAgents: seq<AgentProfile>): string
  {
    IdentitySection(agent) + PersonalitySection(agent.personalityTraits) + "\n"
    + ContextSection(OtherAgentsText(agent, allAgents))
    + Guidelines(agent.name, agent.profession)
  }

  /**
   * `generateSystemPrompt(agent, allAgents)`: the prompt starts with
   * `# CORE IDENTITY` and ends with the last guideline, so the trim leaves
   * the body itself.
   */
  function GenerateSystemPrompt(agent: AgentProfile, allAgents: seq<AgentProfile>): (r: string)
    ensures r == PromptBody(agent, allAgents)
  {
    BodyEnds(agent, allAgents);
    TrimmedTemplate(PromptBody(agent, allAgents))
  }

  /** The template literal opens and closes with a newline and is then trimmed. */
  function TrimmedTemplate(body: string): (r: string)
    requires |body| > 0 && body[0] == '#' && body[|body| - 1] == '.'
    ensures r == body
  {
    TrimOfPadded("\n", body, "\n");
    Trim("\n" + body + "\n")
  }

  lemma BodyEnds(agent: AgentProfile, allAgents: seq<AgentProfile>)
    ensures var body := PromptBody(agent, allAgents);
      && StartsWith(body, CoreIdentityHeading) && |body| > 0
      && body[0] == '#' && body[|body| - 1] == '.'
  {
    var id, ps := IdentitySection(agent), PersonalitySection(agent.personalityTraits);
    var cs, g := ContextSection(OtherAgentsText(agent, allAgents)), Guidelines(agent.name, agent.profession);
    StartsWithConcat(CoreIdentityHeading, IdentityLines(agent));
    StartsWithGrow(id, CoreIdentityHeading, ps);
    StartsWithGrow(id + ps, CoreIdentityHeading, "\n");
    StartsWithGrow(id + ps + "\n", CoreIdentityHeading, cs);
    StartsWithGrow(id + ps + "\n" + cs, CoreIdentityHeading, g);
    var body := PromptBody(agent, allAgents);
    assert body[0] == body[..|CoreIdentityHeading|][0] == CoreIdentityHeading[0] == '#';
    GuidelinesEnd(agent.name, agent.profession);
    LastOfConcat(id + ps + "\n" + cs, g);
  }

  lemma GuidelinesEnd(name: string, profession: Profession)
    ensures var g := Guidelines(name, profession); g[|g| - 1] == '.'
  {
    LastOfConcat(Text(GuidelinesHead) + name + ", the " + ProfessionValue(profession)
                 + Text(GuidelinesCharacter) + name + Text(GuidelinesTail), ".");
  }

  /** The prompt holds the identity lines, the personality section, the context line and the guidelines. */
  lemma PromptSections(agent: AgentProfile, allAgents: seq<AgentProfile>)
    ensures var r := GenerateSystemPrompt(agent, allAgents);
      && Contains(r, IdentitySection(agent))
      && Contains(r, PersonalitySection(agent.personalityTraits))
      && Contains(r, ContextLine(OtherAgentsText(agent, allAgents)))
      && Contains(r, Guidelines(agent.name, agent.profession))
  {
    var id, ps := IdentitySection(agent), PersonalitySection(agent.personalityTraits);
    var line := ContextLine(OtherAgentsText(agent, allAgents));
    var cs, g := ContextSection(OtherAgentsText(agent, allAgents)), Guidelines(agent.name, agent.profession);
    var r := GenerateSystemPrompt(agent, allAgents);
    // the identity section
    ContainsPrefix(id, ps);
    ContainsGrowRight(id + ps, id, "\n");
    ContainsGrowRight(id + ps + "\n", id, cs);
    ContainsGrowRight(id + ps + "\n" + cs, id, g);
    // the personality section
    ContainsSuffix(id, ps);
    ContainsGrowRight(id + ps, ps, "\n");
    ContainsGrowRight(id + ps + "\n", ps, cs);
    ContainsGrowRight(id + ps + "\n" + cs, ps, g);
    // the context line, inside the context section
    ContainsSuffix(Text(ContextHead), line);
    ContainsGrowRight(Text(ContextHead) + line, line, Text(ContextTail));
    ContainsSuffix(id + ps + "\n", cs);
    ContainsGrowRight(id + ps + "\n" + cs, cs, g);
    ContainsTransitive(r, cs, line);
    // the guidelines
    ContainsSuffix(id + ps + "\n" + cs, g);
  }

  /** Each of the agent's traits contributes its bullet, with its description, to the prompt. */
  lemma PromptListsTraits(agent: AgentProfile, allAgents: seq<AgentProfile>, k: nat)
    requires k < |agent.personalityTraits|
    ensures Contains(GenerateSystemPrompt(agent, allAgents), TraitBullet(agent.personalityTraits[k]))
  {
    PromptSections(agent, allAgents);
    TraitBulletListed(agent.personalityTraits, k);
    ContainsTransitive(GenerateSystemPrompt(agent, allAgents),
      PersonalitySection(agent.personalityTraits), TraitBullet(agent.personalityTraits[k]));
  }

  /** Every other agent of the roster is introduced in the prompt. */
  lemma PromptListsOtherAgents(agent: AgentProfile, allAgents: seq<AgentProfile>, other: AgentProfile)
    requires other in allAgents && other.id != agent.id
    ensures Contains(GenerateSystemPrompt(agent, allAgents), OtherAgentLine(other))
  {
    PromptSections(agent, allAgents);
    var others := OtherAgentsText(agent, allAgents);
    OtherAgentListed(agent, allAgents, other);
    OtherAgentsTextEmptyIff(agent, allAgents);
    assert |others| > 0 by {
      assert other in WithoutId(allAgents, agent.id);
    }
    ContainsGrowLeft(OthersIntro, others, OtherAgentLine(other));
    ContainsTransitive(GenerateSystemPrompt(agent, allAgents), ContextLine(others), OtherAgentLine(other));
  }

  /** An agent with no speaking style is told to speak in the expressive style. */
  lemma PromptDefaultsStyle(agent: AgentProfile, allAgents: seq<AgentProfile>)
    requires agent.speakingStyle.None?
    ensures Contains(GenerateSystemPrompt(agent, allAgents), StyleLead + "Expressive")
  {
    PromptSections(agent, allAgents);
    var key := StyleLead + "Expressive";
    var line, lines := StyleLine(agent.speakingStyle), IdentityLines(agent);
    ContainsPrefix(key, Text(StyleLineEnd));
    ContainsSuffix(IdentityHead(agent), line);
    ContainsTransitive(lines, line, key);
    ContainsSuffix(CoreIdentityHeading, lines);
    ContainsTransitive(IdentitySection(agent), lines, key);
    ContainsTransitive(GenerateSystemPrompt(agent, allAgents), IdentitySection(agent), key);
  }

  /** A call prompt is built against an empty roster, so it always says the agent is alone. */
  lemma CallPromptIsSolo(agent: AgentProfile)
    ensures Contains(GenerateSystemPrompt(agent, []), OnlyAgentText)
  {
    PromptSections(agent, []);
    ContextLineOnlyAgentIff(agent, []);
  }

}
