/**
 * Default data and lookup tables (`constants.ts`): the lists of every value
 * of each enumeration, the prebuilt voice names, the five default agents and
 * the emotion and profession emoji tables.
 */
module Constants {
  import opened Wrappers
  import opened Types
  import opened Roster
  import Strings

  /** `Object.values(Profession)`, in declaration order. */
  const Professions: seq<Profession> := [
    Friend, BusinessConsultant, Lawyer, ActorModel, Pilot, Doctor, SoftwareEngineer, Nurse,
    Teacher, Scientist, Artist, SalesRepresentative, CustomerService, MarketingManager,
    DataScientist, AISpecialist]

  /** `Object.values(Emotion)`, in declaration order. */
  const Emotions: seq<Emotion> := [
    Happy, Emotion.Calm, Empathetic, Energetic, Emotion.Sarcastic, Emotion.Playful, Emotion.Serious,
    Passionate, Curious, Hopeful, Reserved, Friendly, Warm, Excited, Focused, Neutral]

  /** `Object.values(Gender)`, in declaration order. */
  const Genders: seq<Gender> := [Male, Female, NonBinary]

  /** `Object.values(PersonalityTrait)`, in declaration order. */
  const PersonalityTraits: seq<PersonalityTrait> := [
    Supportive, PersonalityTrait.Sarcastic, PersonalityTrait.Playful, PersonalityTrait.Serious,
    Introverted, Extroverted, Creative, Analytical, Optimistic, Pessimistic, Pragmatic, Idealistic,
    Spontaneous, Methodical, Humorous, Philosophical, Nurturing, Competitive]

  /** `Object.values(SpeakingStyle)`, in declaration order. */
  const SpeakingStyles: seq<SpeakingStyle> := [
    Expressive, SpeakingStyle.Calm, Formal, Cheerful, Whispering, SpeakingStyle.Serious]

  /** The voice names the speech API offers. */
  const PrebuiltVoices: seq<string> :=
    ["Zephyr", "Puck", "Charon", "Kore", "Fenrir", "Aries", "Orion", "Cygnus", "Lyra", "Aquila"]

  /** The voice a new agent gets and a call falls back to. */
  const DefaultVoice: string := "Zephyr"

  function DefaultAgent(id: string, first: string, name: string, profession: Profession,
                        emotion: Emotion, gender: Gender, age: int,
                        traits: seq<PersonalityTrait>, voice: string, style: SpeakingStyle): AgentProfile
  {
    AgentProfile(id, name, gender, emotion, profession, age, traits,
                 Some("https://api.dicebear.com/8.x/adventurer/svg?seed=" + first),
                 None, Some(voice), Some(style), None)
  }

  /** The roster a first session starts with. */
  const AgentProfiles: seq<AgentProfile> := [
    DefaultAgent("agent-1", "Priya", "Priya Sharma", Doctor, Empathetic, Female, 32,
                 [Nurturing, Methodical, Supportive], "Kore", SpeakingStyle.Calm),
    DefaultAgent("agent-2", "Rohan", "Rohan Verma", SoftwareEngineer, Emotion.Sarcastic, Male, 24,
                 [PersonalityTrait.Sarcastic, PersonalityTrait.Playful, Extroverted, Humorous, Pragmatic],
                 "Puck", Expressive),
    DefaultAgent("agent-3", "Anjali", "Dr. Anjali Rao", Scientist, Emotion.Serious, Female, 45,
                 [PersonalityTrait.Serious, Analytical, Pessimistic, Methodical], "Charon", Formal),
    DefaultAgent("agent-4", "Vikram", "Vikram Singh", Lawyer, Focused, Male, 60,
                 [PersonalityTrait.Serious, Introverted, Competitive, Analytical], "Fenrir",
                 SpeakingStyle.Serious),
    DefaultAgent("agent-5", "Meera", "Meera Kapoor", Artist, Happy, Female, 28,
                 [Creative, Extroverted, Spontaneous, Idealistic, Optimistic], "Zephyr", Cheerful)
  ]

  /** `EMOTION_AVATAR_MAP`: the emoji shown for an agent without an avatar image. */
  function EmotionAvatar(e: Emotion): (r: string)
    ensures |r| > 0
  {
    match e
    case Happy => "\U{1F60A}"
    case Calm => "\U{1F60C}"
    case Empathetic => "\U{1F917}"
    case Energetic => "\U{26A1}\U{FE0F}"
    case Sarcastic => "\U{1F60F}"
    case Playful => "\U{1F61C}"
    case Serious => "\U{1F9D0}"
    case Passionate => "\U{1F525}"
    case Curious => "\U{1F914}"
    case Hopeful => "\U{2728}"
    case Reserved => "\U{1F633}"
    case Friendly => "\U{1F44B}"
    case Warm => "\U{2600}\U{FE0F}"
    case Excited => "\U{1F389}"
    case Focused => "\U{1F3AF}"
    case Neutral => "\U{1F610}"
  }

  /** `PROFESSION_ICON_MAP`: the emoji shown on an agent card without an avatar image. */
  function ProfessionIcon(p: Profession): (r: string)
    ensures |r| > 0
  {
    match p
    case Friend => "\U{1F91D}"
    case BusinessConsultant => "\U{1F4BC}"
    case Lawyer => "\U{2696}\U{FE0F}"
    case ActorModel => "\U{1F3AD}"
    case Pilot => "\U{2708}\U{FE0F}"
    case Doctor => "\U{1FA7A}"
    case SoftwareEngineer => "\U{1F4BB}"
    case Nurse => "\U{1FA79}"
    case Teacher => "\U{1F9D1}\U{200D}\U{1F3EB}"
    case Scientist => "\U{1F52C}"
    case Artist => "\U{1F3A8}"
    case SalesRepresentative => "\U{1F4C8}"
    case CustomerService => "\U{1F3A7}"
    case MarketingManager => "\U{1F4CA}"
    case DataScientist => "\U{1F4BE}"
    case AISpecialist => "\U{1F916}"
  }

  /** No value is listed twice. */
  predicate NoDuplicates<T(==)>(s: seq<T>)
  {
    forall i, j :: 0 <= i < j < |s| ==> s[i] != s[j]
  }

  /** Every profession is listed, once; so there are sixteen of them, `Friend` among them. */
  lemma ProfessionsComplete(p: Profession)
    ensures p in Professions && |Professions| == 16 && NoDuplicates(Professions)
  {
    match p
    case Friend => case BusinessConsultant => case Lawyer => case ActorModel =>
    case Pilot => case Doctor => case SoftwareEngineer => case Nurse => case Teacher =>
    case Scientist => case Artist => case SalesRepresentative => case CustomerService =>
    case MarketingManager => case DataScientist => case AISpecialist =>
  }

  /** Every emotion is listed, once; so there are sixteen of them, `Neutral` among them. */
  lemma EmotionsComplete(e: Emotion)
    ensures e in Emotions && |Emotions| == 16 && NoDuplicates(Emotions)
  {
    match e
    case Happy => case Calm => case Empathetic => case Energetic => case Sarcastic =>
    case Playful => case Serious => case Passionate => case Curious => case Hopeful =>
    case Reserved => case Friendly => case Warm => case Excited => case Focused =>
    case Neutral =>
  }

  /** Every gender is listed, once; there are three. */
  lemma GendersComplete(g: Gender)
    ensures g in Genders && |Genders| == 3 && NoDuplicates(Genders)
  {
    match g
    case Male => case Female => case NonBinary =>
  }

  /** Every personality trait is listed, once; there are eighteen. */
  lemma PersonalityTraitsComplete(t: PersonalityTrait)
    ensures t in PersonalityTraits && |PersonalityTraits| == 18 && NoDuplicates(PersonalityTraits)
  {
    match t
    case Supportive => case Sarcastic => case Playful => case Serious => case Introverted =>
    case Extroverted => case Creative => case Analytical => case Optimistic =>
    case Pessimistic => case Pragmatic => case Idealistic => case Spontaneous =>
    case Methodical => case Humorous => case Philosophical => case Nurturing =>
    case Competitive =>
  }

  /** Every speaking style is listed, once; there are six. */
  lemma SpeakingStylesComplete(s: SpeakingStyle)
    ensures s in SpeakingStyles && |SpeakingStyles| == 6 && NoDuplicates(SpeakingStyles)
  {
    match s
    case Expressive => case Calm => case Formal => case Cheerful => case Whispering =>
    case Serious =>
  }

  /** A voice type is one of exactly two values. */
  lemma VoiceTypesComplete(v: VoiceType)
    ensures VoiceTypeValue(v) in ["prebuilt", "custom"]
    ensures v == Prebuilt <==> VoiceTypeValue(v) == "prebuilt"
  {
    match v
    case Prebuilt => case Custom =>
  }

  /** The default roster: five agents with the ids agent-1 to agent-5, pairwise distinct. */
  lemma DefaultRosterIds()
    ensures |AgentProfiles| == 5
    ensures forall k :: 0 <= k < 5 ==> AgentProfiles[k].id == "agent-" + [Strings.DigitChar(k + 1)]
    ensures DistinctIds(AgentProfiles)
  {
    assert forall k :: 0 <= k < 5 ==> AgentProfiles[k].id == "agent-" + [Strings.DigitChar(k + 1)] by {
      forall k | 0 <= k < 5 ensures AgentProfiles[k].id == "agent-" + [Strings.DigitChar(k + 1)] {
        assert Strings.DigitChar(k + 1) == "12345"[k];
      }
    }
  }

  /** Every default agent speaks with one of the prebuilt voices. */
  lemma DefaultVoicesArePrebuilt()
    ensures forall a :: a in AgentProfiles ==> a.voiceName.Some? && a.voiceName.value in PrebuiltVoices
  {
  }

  /** The fallback voice is one of the prebuilt voices. */
  lemma DefaultVoiceIsPrebuilt()
    ensures DefaultVoice in PrebuiltVoices
  {
  }
}
