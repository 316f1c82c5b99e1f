/**
 * Request bodies and the insert schemas the handlers validate them with.
 *
 * A JSON body is a map from field names to JSON values.  The schemas
 * themselves (`insertUserSchema`, `insertConversationSchema`,
 * `insertMessageSchema` in shared/schema) are not part of this model; they
 * are represented by their structural rules only: each required field must
 * be present with the right JSON type, a message role must be "user" or
 * "ai", and fields the schema does not know are dropped.
 */
module Schema {
  import opened Wrappers
  import opened Storage

  /** A JSON value.  Arrays and objects are never valid for any schema field,
      so they are one case. */
  datatype Json = JStr(str: string) | JNum(num: int) | JBool(b: bool) | JNull | JCompound

  type Body = map<string, Json>

  /** The field as a string, if it is present and a string. */
  function StrField(body: Body, key: string): (r: Option<string>)
    ensures r.Some? <==> key in body && body[key].JStr?
    ensures r.Some? ==> body[key] == JStr(r.value)
  {
    if key in body && body[key].JStr? then Some(body[key].str) else None
  }

  /** The field as an integer, if it is present and a number. */
  function IntField(body: Body, key: string): (r: Option<int>)
    ensures r.Some? <==> key in body && body[key].JNum?
    ensures r.Some? ==> body[key] == JNum(r.value)
  {
    if key in body && body[key].JNum? then Some(body[key].num) else None
  }

  /** The wire name of a role. */
  function RoleName(role: Role): string {
    match role
    case UserRole => "user"
    case AiRole => "ai"
  }

  /** The enumerated role column: exactly "user" and "ai" are accepted. */
  function ParseRole(s: string): (r: Option<Role>)
    ensures r.Some? <==> s == "user" || s == "ai"
    ensures r.Some? ==> RoleName(r.value) == s
  {
    if s == "user" then Some(UserRole) else if s == "ai" then Some(AiRole) else None
  }

  /** Naming a role and reading it back gives the same role. */
  lemma RoleRoundTrip(role: Role)
    ensures ParseRole(RoleName(role)) == Some(role)
  {
  }

  datatype UserInput = UserInput(name: string, email: string, password: string)

  datatype ConversationInput = ConversationInput(userId: UserId, subject: string, title: string)

  datatype MessageInput = MessageInput(conversationId: ConversationId, role: Role, content: string)

  /** `insertUserSchema.parse`. */
  function ParseUser(body: Body): (r: Option<UserInput>)
    ensures r.Some? <==> StrField(body, "name").Some? && StrField(body, "email").Some? && StrField(body, "password").Some?
    ensures r.Some? ==>
      && StrField(body, "name") == Some(r.value.name)
      && StrField(body, "email") == Some(r.value.email)
      && StrField(body, "password") == Some(r.value.password)
  {
    match (StrField(body, "name"), StrField(body, "email"), StrField(body, "password"))
    case (Some(name), Some(email), Some(password)) => Some(UserInput(name, email, password))
    case _ => None
  }

  /** `insertConversationSchema.parse`. */
  function ParseConversation(body: Body): (r: Option<ConversationInput>)
    ensures r.Some? <==> IntField(body, "userId").Some? && StrField(body, "subject").Some? && StrField(body, "title").Some?
    ensures r.Some? ==>
      && IntField(body, "userId") == Some(r.value.userId)
      && StrField(body, "subject") == Some(r.value.subject)
      && StrField(body, "title") == Some(r.value.title)
  {
    match (IntField(body, "userId"), StrField(body, "subject"), StrField(body, "title"))
    case (Some(userId), Some(subject), Some(title)) => Some(ConversationInput(userId, subject, title))
    case _ => None
  }

  /** `insertMessageSchema.parse`. */
  function ParseMessage(body: Body): (r: Option<MessageInput>)
    ensures r.Some? <==>
      && IntField(body, "conversationId").Some?
      && StrField(body, "role").Some? && ParseRole(StrField(body, "role").value).Some?
      && StrField(body, "content").Some?
    ensures r.Some? ==>
      && IntField(body, "conversationId") == Some(r.value.conversationId)
      && StrField(body, "role") == Some(RoleName(r.value.role))
      && StrField(body, "content") == Some(r.value.content)
  {
    match (IntField(body, "conversationId"), StrField(body, "role"), StrField(body, "content"))
    case (Some(conversationId), Some(role), Some(content)) =>
      (match ParseRole(role)
       case Some(r) => Some(MessageInput(conversationId, r, content))
       case None => None)
    case _ => None
  }
}
