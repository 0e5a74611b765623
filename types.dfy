/** The records the portal keeps (users, chat, updates, petitions, choir
    media, trivia questions) and the small enumerations they use. Optional
    fields of the original records are `Option`s; numbers are unbounded
    integers; text is `string`. */
module Types {

  datatype Option<+T> = None | Some(value: T)

  datatype Result<+T, +E> = Ok(value: T) | Err(error: E)

  /** The four roles a member can hold. */
  datatype UserRole = Student | NonStudent | Guest | Trainer

  /** The text each role is stored as. */
  function RoleName(r: UserRole): string
  {
    match r
    case Student => "Student"
    case NonStudent => "Non-Student"
    case Guest => "Guest"
    case Trainer => "Trainer"
  }

  /** Reads a stored role name back; anything else is not a role. */
  function ParseRole(s: string): (r: Option<UserRole>)
    ensures r.Some? ==> RoleName(r.value) == s
    ensures forall role :: RoleName(role) == s ==> r == Some(role)
  {
    if s == "Student" then Some(Student)
    else if s == "Non-Student" then Some(NonStudent)
    else if s == "Guest" then Some(Guest)
    else if s == "Trainer" then Some(Trainer)
    else None
  }

  datatype User = User(
    id: string,
    username: string,
    name: string,
    email: string,
    role: UserRole,
    studentId: Option<string>,   // the admission number
    profilePic: Option<string>,
    bio: Option<string>,
    points: int,
    rank: Option<int>,
    joinedAt: string)

  datatype TriviaQuestion = TriviaQuestion(
    question: string,
    options: seq<string>,
    correctAnswer: int,
    explanation: string,
    points: Option<int>)   // absent when a generated reply lacks the field

  /** The four kinds of media an attachment or a choir item can be. */
  datatype MediaType = Image | Video | Audio | Document

  function MediaName(m: MediaType): string
  {
    match m
    case Image => "image"
    case Video => "video"
    case Audio => "audio"
    case Document => "document"
  }

  function ParseMedia(s: string): (r: Option<MediaType>)
    ensures r.Some? ==> MediaName(r.value) == s
    ensures forall m :: MediaName(m) == s ==> r == Some(m)
  {
    if s == "image" then Some(Image)
    else if s == "video" then Some(Video)
    else if s == "audio" then Some(Audio)
    else if s == "document" then Some(Document)
    else None
  }

  /** The single optional attachment of a chat message. */
  datatype Attachment = Attachment(kind: MediaType, url: string, fileName: Option<string>)

  datatype ChatMessage = ChatMessage(
    id: string,
    userId: string,
    userName: string,
    userRole: UserRole,
    userPic: Option<string>,
    content: string,
    timestamp: int,
    media: Option<Attachment>)

  datatype UpdateCategory = Event | Notice | Spiritual

  function CategoryName(c: UpdateCategory): string
  {
    match c
    case Event => "Event"
    case Notice => "Notice"
    case Spiritual => "Spiritual"
  }

  function ParseCategory(s: string): (r: Option<UpdateCategory>)
    ensures r.Some? ==> CategoryName(r.value) == s
    ensures forall c :: CategoryName(c) == s ==> r == Some(c)
  {
    if s == "Event" then Some(Event)
    else if s == "Notice" then Some(Notice)
    else if s == "Spiritual" then Some(Spiritual)
    else None
  }

  datatype UpdatePost = UpdatePost(
    id: string,
    userId: string,
    title: string,
    content: string,
    date: string,
    image: Option<string>,
    category: UpdateCategory)

  datatype PrayerPetition = PrayerPetition(
    id: string,
    userId: string,
    userName: string,
    content: string,
    timestamp: int,
    likes: int)

  datatype ChoirMaterial = ChoirMaterial(
    id: string,
    title: string,
    description: string,
    kind: MediaType,
    url: string,
    fileName: Option<string>,
    uploadedBy: string,
    uploaderName: string,
    timestamp: int)

  /** The eight screens of the portal. */
  datatype View = Home | Trivia | Chat | Profile | Updates | Petitions | FaithAI | Choir

  function ViewName(v: View): string
  {
    match v
    case Home => "Home"
    case Trivia => "Trivia"
    case Chat => "Chat"
    case Profile => "Profile"
    case Updates => "Updates"
    case Petitions => "Petitions"
    case FaithAI => "FaithAI"
    case Choir => "Choir"
  }

  datatype NotificationKind = Info | Success

  datatype Notification = Notification(id: string, message: string, kind: NotificationKind)

  // The identifier of each kind of record, as the delete operations compare it.

  function MessageId(m: ChatMessage): string { m.id }
  function PostId(p: UpdatePost): string { p.id }
  function PetitionId(p: PrayerPetition): string { p.id }
  function MaterialId(c: ChoirMaterial): string { c.id }
  function NotificationId(n: Notification): string { n.id }
}
