/**
 * The application's closed enumerations and records (`types.ts`). Each
 * enumeration is a datatype; its string value, which is what the user
 * interface shows and what prompts embed, is given by a `...Value` function.
 * Optional record members (`field?: T`) are `Option<T>`.
 */
module Types {
  import opened Wrappers

  datatype Gender = Male | Female | NonBinary

  datatype Emotion =
    | Happy | Calm | Empathetic | Energetic | Sarcastic | Playful | Serious | Passionate
    | Curious | Hopeful | Reserved | Friendly | Warm | Excited | Focused | Neutral

  datatype Profession =
    | Friend | BusinessConsultant | Lawyer | ActorModel | Pilot | Doctor | SoftwareEngineer
    | Nurse | Teacher | Scientist | Artist | SalesRepresentative | CustomerService
    | MarketingManager | DataScientist | AISpecialist

  datatype PersonalityTrait =
    | Supportive | Sarcastic | Playful | Serious | Introverted | Extroverted | Creative
    | Analytical | Optimistic | Pessimistic | Pragmatic | Idealistic | Spontaneous
    | Methodical | Humorous | Philosophical | Nurturing | Competitive

  datatype SpeakingStyle = Expressive | Calm | Formal | Cheerful | Whispering | Serious

  datatype VoiceType = Prebuilt | Custom

  function GenderValue(g: Gender): string
  {
    match g
    case Male => "Male"
    case Female => "Female"
    case NonBinary => "Non-binary"
  }

  function EmotionValue(e: Emotion): string
  {
    match e
    case Happy => "Happy / Cheerful"
    case Calm => "Calm / Serene"
    case Empathetic => "Empathetic / Compassionate"
    case Energetic => "Energetic / Enthusiastic"
    case Sarcastic => "Sarcastic / Witty"
    case Playful => "Playful / Mischievous"
    case Serious => "Serious / Logical"
    case Passionate => "Passionate / Bold"
    case Curious => "Curious / Inquisitive"
    case Hopeful => "Hopeful / Optimistic"
    case Reserved => "Reserved / Shy"
    case Friendly => "Friendly / Supportive"
    case Warm => "Warm / Caring"
    case Excited => "Excited / Joyful"
    case Focused => "Focused / Determined"
    case Neutral => "Neutral"
  }

  function ProfessionValue(p: Profession): string
  {
    match p
    case Friend => "Friend"
    case BusinessConsultant => "Business Consultant"
    case Lawyer => "Lawyer"
    case ActorModel => "Actor / Model"
    case Pilot => "Commercial Pilot / Cabin Crew"
    case Doctor => "Medical Doctor"
    case SoftwareEngineer => "Software Engineer"
    case Nurse => "Nurse"
    case Teacher => "Teacher"
    case Scientist => "Scientist"
    case Artist => "Artist"
    case SalesRepresentative => "Sales Representative"
    case CustomerService => "Customer Service Representative"
    case MarketingManager => "Marketing Manager"
    case DataScientist => "Data Scientist"
    case AISpecialist => "AI/Machine Learning Specialist"
  }

  function TraitValue(t: PersonalityTrait): string
  {
    match t
    case Supportive => "Supportive"
    case Sarcastic => "Sarcastic"
    case Playful => "Playful"
    case Serious => "Serious"
    case Introverted => "Introverted"
    case Extroverted => "Extroverted"
    case Creative => "Creative"
    case Analytical => "Analytical"
    case Optimistic => "Optimistic"
    case Pessimistic => "Pessimistic"
    case Pragmatic => "Pragmatic"
    case Idealistic => "Idealistic"
    case Spontaneous => "Spontaneous"
    case Methodical => "Methodical"
    case Humorous => "Humorous"
    case Philosophical => "Philosophical"
    case Nurturing => "Nurturing"
    case Competitive => "Competitive"
  }

  function SpeakingStyleValue(s: SpeakingStyle): string
  {
    match s
    case Expressive => "Expressive"
    case Calm => "Calm"
    case Formal => "Formal"
    case Cheerful => "Cheerful"
    case Whispering => "Whispering"
    case Serious => "Serious"
  }

  function VoiceTypeValue(v: VoiceType): string
  {
    match v
    case Prebuilt => "prebuilt"
    case Custom => "custom"
  }

  /** An agent persona. Avatar and the voice settings are optional. */
  datatype AgentProfile = AgentProfile(
    id: string,
    name: string,
    gender: Gender,
    emotion: Emotion,
    profession: Profession,
    age: int,
    personalityTraits: seq<PersonalityTrait>,
    avatarUrl: Option<string>,
    voiceType: Option<VoiceType>,
    voiceName: Option<string>,
    speakingStyle: Option<SpeakingStyle>,
    customVoiceUrl: Option<string>)

  /** Who wrote a message; agent authors carry a snapshot of their profile. */
  datatype MessageAuthor = MessageAuthor(
    id: string,
    name: string,
    profile: Option<AgentProfile>,
    avatarUrl: Option<string>)

  datatype ChatMessage = ChatMessage(author: MessageAuthor, text: string, timestamp: string)

  /** The two authors a call transcript line can have, `'You' | 'Agent'`. */
  datatype TranscriptAuthor = You | Agent

  function TranscriptAuthorValue(a: TranscriptAuthor): string
  {
    match a
    case You => "You"
    case Agent => "Agent"
  }

  datatype Transcript = Transcript(author: TranscriptAuthor, text: string)

  datatype UserProfile = UserProfile(name: string, bio: string, avatarUrl: Option<string>)
}
