/** The value types of the chat hook: a user's profile, the partner summary shown
    in the header, the session's status and a message as the client lists it. */
module Domain {

  /** `'male' | 'female' | 'other'` */
  datatype Gender = Male | Female | Other

  /** `'male' | 'female' | 'everyone'` */
  datatype LookingFor = SeekMale | SeekFemale | Everyone

  /** What the profile form hands to matching. */
  datatype UserProfile = UserProfile(name: string, location: string, gender: Gender, lookingFor: LookingFor)

  /** What the client knows about its partner once connected. */
  datatype PartnerInfo = PartnerInfo(name: string, location: string, gender: Gender)

  /** The states of a chat session. */
  datatype Status = Idle | Profile | Matching | Connected | Disconnected

  /** A message in the client's local list; `isOwn` marks the ones this session sent. */
  datatype ChatMessage = ChatMessage(id: nat, content: string, isOwn: bool, timestamp: int)

  /** The string a gender is stored and compared as. */
  function GenderName(g: Gender): string {
    match g
    case Male => "male"
    case Female => "female"
    case Other => "other"
  }

  /** The string a preference is stored and compared as. */
  function LookingForName(l: LookingFor): string {
    match l
    case SeekMale => "male"
    case SeekFemale => "female"
    case Everyone => "everyone"
  }
}
