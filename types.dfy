/**
 * The records exchanged and stored by the chat client (types.ts):
 * a message, a chat session, the user memory record and the model enum.
 * An optional TypeScript field (`image?`, `isThinking?`) is an `Option`;
 * every other field is always present.
 */
module Types {
  import opened Wrappers

  /** The two speakers of a conversation: the string union 'user' | 'model'. */
  datatype Role = User | Model

  /** The literal that names a role in a stored message. */
  function RoleName(r: Role): (name: string)
    ensures name == "user" || name == "model"
    ensures name == "user" <==> r == User
  {
    match r
    case User => "user"
    case Model => "model"
  }

  /** Reads a stored role literal; any string other than the two literals is refused. */
  function ParseRole(s: string): (r: Option<Role>)
    ensures r.Some? <==> (s == "user" || s == "model")
    ensures r.Some? ==> RoleName(r.value) == s
  {
    if s == "user" then Some(User)
    else if s == "model" then Some(Model)
    else None
  }

  /** Naming a role and reading it back gives the same role, and distinct roles have distinct names. */
  lemma RoleNameRoundTrip(r: Role, q: Role)
    ensures ParseRole(RoleName(r)) == Some(r)
    ensures RoleName(r) == RoleName(q) ==> r == q
  {
  }

  /** One turn of a conversation. */
  datatype Message = Message(
    id: string,
    role: Role,
    text: string,
    image: Option<string>,      // base64 payload of an uploaded or generated image
    timestamp: int,
    isThinking: Option<bool>)

  /** One conversation thread; the order of `messages` is the order of the turns. */
  datatype ChatSession = ChatSession(
    id: string,
    title: string,
    messages: seq<Message>,
    createdAt: int)

  /** Durable facts about the user and the time of the last interaction. */
  datatype UserMemory = UserMemory(facts: seq<string>, lastInteraction: int)

  /** The two generative models the client knows of. */
  datatype ModelType = Text | ImageGen

  /** The model identifier each enum member stands for. */
  function ModelName(m: ModelType): (name: string)
    ensures name == "gemini-2.5-flash" || name == "gemini-2.5-flash-image"
    ensures name == "gemini-2.5-flash" <==> m == Text
  {
    match m
    case Text => "gemini-2.5-flash"
    case ImageGen => "gemini-2.5-flash-image"
  }

  /** Reads a model identifier back into the enum; only the two identifiers are members. */
  function ParseModelType(s: string): (r: Option<ModelType>)
    ensures r.Some? <==> (s == "gemini-2.5-flash" || s == "gemini-2.5-flash-image")
    ensures r.Some? ==> ModelName(r.value) == s
  {
    if s == "gemini-2.5-flash" then Some(Text)
    else if s == "gemini-2.5-flash-image" then Some(ImageGen)
    else None
  }

  /** The enum maps its two members to two different identifiers, and each identifier reads back. */
  lemma ModelNameRoundTrip(m: ModelType, n: ModelType)
    ensures ParseModelType(ModelName(m)) == Some(m)
    ensures ModelName(m) == ModelName(n) ==> m == n
  {
  }

  /** The keys a message carries in its stored object form. */
  const RequiredMessageKeys: set<string> := {"id", "role", "text", "timestamp"}
  const OptionalMessageKeys: set<string> := {"image", "isThinking"}

  /** The keys present on a message: the required ones always, each optional one exactly when it is set. */
  function MessageKeys(m: Message): (keys: set<string>)
    ensures RequiredMessageKeys <= keys <= RequiredMessageKeys + OptionalMessageKeys
    ensures "image" in keys <==> m.image.Some?
    ensures "isThinking" in keys <==> m.isThinking.Some?
  {
    RequiredMessageKeys
      + (if m.image.Some? then {"image"} else {})
      + (if m.isThinking.Some? then {"isThinking"} else {})
  }
}
