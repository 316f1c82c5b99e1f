/**
 * The HTTP handlers of server/routes.ts as pure transitions.  A handler takes
 * the request and the server state (the store and the caller's session) and
 * yields a `Reply`: the status, the JSON payload, the next state, and the log
 * of store operations it performed, in order.  The log is what lets the
 * contracts say that a handler reads or writes only after its checks pass.
 */
module Routes {
  import opened Wrappers
  import opened Storage
  import opened Schema
  import Ecma

  /** The `userId` field of the caller's express session. */
  datatype Session = Session(userId: Option<UserId>)

  datatype ServerState = ServerState(store: Store, session: Session)

  /** A user as the handlers serialise it: every column but `password`. */
  datatype PublicUser = PublicUser(id: UserId, name: string, email: string)

  datatype Payload =
    | ErrorPayload(error: string)
    | InfoPayload(info: string)
    | UserPayload(user: PublicUser)
    | ConversationPayload(conversation: Conversation)
    | ConversationListPayload(conversations: seq<Conversation>)
    | MessagePayload(message: Message)
    | MessageListPayload(messages: seq<Message>)

  /** One call into `storage`. */
  datatype Access =
    | GetUserByEmailAccess(email: string)
    | CreateUserAccess(email: string)
    | GetUserAccess(userId: UserId)
    | GetUserConversationsAccess(userId: UserId)
    | CreateConversationAccess(userId: UserId)
    | GetConversationAccess(conversationId: ConversationId)
    | GetConversationMessagesAccess(conversationId: ConversationId)
    | CreateMessageAccess(conversationId: ConversationId)

  datatype Reply = Reply(status: int, payload: Payload, state: ServerState, accesses: seq<Access>)

  /** The body of `POST /api/auth/login`, read without a schema. */
  datatype LoginRequest = LoginRequest(email: Option<string>, password: Option<string>)

  /** A state the server can be in: a valid store, and a session that names
      an existing user if it names one at all. */
  ghost predicate Consistent(st: ServerState) {
    && Valid(st.store)
    && (st.session.userId.Some? ==> st.session.userId.value in st.store.users)
  }

  lemma InitialIsConsistent()
    ensures Consistent(ServerState(Empty, Session(None)))
  {
  }

  /** JavaScript truthiness of `req.session.userId`: absent and 0 are falsy. */
  predicate SignedIn(s: Session) {
    s.userId.Some? && s.userId.value != 0
  }

  /** JavaScript truthiness of an optional string field: absent and "" are falsy. */
  predicate Present(field: Option<string>) {
    field.Some? && field.value != ""
  }

  /** The object rest `{ password, ...userWithoutPassword } = user`. */
  function Public(u: User): PublicUser {
    PublicUser(u.id, u.name, u.email)
  }

  const InvalidInput := "Invalid input"
  const InvalidCredentials := "Invalid email or password"
  const NotAuthenticated := "Not authenticated"

  /** `POST /api/auth/register`. */
  function Register(body: Body, salt: nat, st: ServerState): (r: Reply)
    ensures ParseUser(body).None? ==> r == Reply(400, ErrorPayload(InvalidInput), st, [])
    ensures Valid(st.store) && ParseUser(body).Some? && ParseUser(body).value.email in st.store.emails ==>
      && r.status == 400 && r.state == st
      && r.payload == ErrorPayload("User with this email already exists")
    ensures r.status != 201 ==> r.state == st
    ensures r.status == 201 ==>
      && ParseUser(body).Some?
      && r.state.session.userId.Some?
      && var input := ParseUser(body).value;
      && var id := r.state.session.userId.value;
      && id in r.state.store.users
      && var u := r.state.store.users[id];
      && u == User(id, input.name, input.email, u.password)
      && Verify(input.password, u.password)
      && r.state.store.users == st.store.users[id := u]
      && r.state.store.conversations == st.store.conversations && r.state.store.messages == st.store.messages
      && r.payload == UserPayload(PublicUser(id, input.name, input.email))
      && (Valid(st.store) ==> id !in st.store.users)
    ensures Consistent(st) ==>
      && Consistent(r.state)
      && (r.status == 201 <==> ParseUser(body).Some? && ParseUser(body).value.email !in st.store.emails)
  {
    match ParseUser(body)
    case None => Reply(400, ErrorPayload(InvalidInput), st, [])
    case Some(input) =>
      var lookup := [GetUserByEmailAccess(input.email)];
      if GetUserByEmail(st.store, input.email).Some? then
        Reply(400, ErrorPayload("User with this email already exists"), st, lookup)
      else
        var accesses := lookup + [CreateUserAccess(input.email)];
        match CreateUser(st.store, input.name, input.email, Hash(input.password, salt))
        case Failure(_) => Reply(500, ErrorPayload("Failed to register user"), st, accesses)
        case Success((store', u)) =>
          Reply(201, UserPayload(Public(u)), ServerState(store', Session(Some(u.id))), accesses)
  }

  /** `POST /api/auth/login`.  An unknown email and a wrong password give the
      same status and body. */
  function Login(req: LoginRequest, st: ServerState): (r: Reply)
    ensures r.status in {200, 400, 401}
    ensures r.status == 400 <==> !Present(req.email) || !Present(req.password)
    ensures r.status == 400 ==> r == Reply(400, ErrorPayload("Email and password are required"), st, [])
    ensures r.status == 401 ==>
      && r.payload == ErrorPayload(InvalidCredentials)
      && r.state == st
      && r.accesses == [GetUserByEmailAccess(req.email.value)]
    ensures r.status == 200 ==>
      && Present(req.email) && Present(req.password)
      && GetUserByEmail(st.store, req.email.value).Some?
      && var u := GetUserByEmail(st.store, req.email.value).value;
      && Verify(req.password.value, u.password)
      && r.state == ServerState(st.store, Session(Some(u.id)))
      && r.payload == UserPayload(Public(u))
    ensures Valid(st.store) && Present(req.email) && Present(req.password) ==>
      (r.status == 200 <==> exists id :: id in st.store.users
                              && st.store.users[id].email == req.email.value
                              && Verify(req.password.value, st.store.users[id].password))
    ensures Consistent(st) ==> Consistent(r.state)
  {
    if !Present(req.email) || !Present(req.password) then
      Reply(400, ErrorPayload("Email and password are required"), st, [])
    else
      var email := req.email.value;
      var accesses := [GetUserByEmailAccess(email)];
      match GetUserByEmail(st.store, email)
      case None => Reply(401, ErrorPayload(InvalidCredentials), st, accesses)
      case Some(u) =>
        if !Verify(req.password.value, u.password) then
          assert Valid(st.store) ==> forall id :: id in st.store.users && st.store.users[id].email == email ==> id == u.id;
          Reply(401, ErrorPayload(InvalidCredentials), st, accesses)
        else
          Reply(200, UserPayload(Public(u)), ServerState(st.store, Session(Some(u.id))), accesses)
  }

  /** `GET /api/auth/me`. */
  function Me(st: ServerState): (r: Reply)
    ensures r.state == st
    ensures r.status == 401 <==> !SignedIn(st.session)
    ensures r.status == 404 <==> SignedIn(st.session) && st.session.userId.value !in st.store.users
    ensures r.status == 200 <==> SignedIn(st.session) && st.session.userId.value in st.store.users
    ensures r.status == 200 ==> r.payload == UserPayload(Public(st.store.users[st.session.userId.value]))
    ensures r.status != 200 ==> r.payload.ErrorPayload?
  {
    if !SignedIn(st.session) then Reply(401, ErrorPayload(NotAuthenticated), st, [])
    else
      var id := st.session.userId.value;
      match GetUser(st.store, id)
      case None => Reply(404, ErrorPayload("User not found"), st, [GetUserAccess(id)])
      case Some(u) => Reply(200, UserPayload(Public(u)), st, [GetUserAccess(id)])
  }

  /** `POST /api/auth/logout`.  Whether `session.destroy` reports an error is
      the session store's choice, passed in. */
  function Logout(st: ServerState, destroyFailed: bool): (r: Reply)
    ensures r.status == 500 <==> destroyFailed
    ensures r.status == 200 <==> !destroyFailed
    ensures r.state.store == st.store && r.accesses == []
    ensures !destroyFailed ==> r.state.session.userId.None?
  {
    if destroyFailed then Reply(500, ErrorPayload("Failed to logout"), st, [])
    else Reply(200, InfoPayload("Logged out successfully"), ServerState(st.store, Session(None)), [])
  }

  /** `GET /api/conversations`: the caller's conversations, oldest first. */
  function ListConversations(st: ServerState): (r: Reply)
    ensures r.state == st
    ensures r.status == 401 <==> !SignedIn(st.session)
    ensures r.status == 401 ==> r.accesses == []
    ensures r.status == 200 <==> SignedIn(st.session)
    ensures r.status == 200 ==>
      var uid := st.session.userId.value;
      && r.payload.ConversationListPayload?
      && (forall i :: 0 <= i < |r.payload.conversations| ==>
            r.payload.conversations[i] in st.store.conversations.Values && r.payload.conversations[i].userId == uid)
      && (Valid(st.store) ==> forall id :: id in st.store.conversations && st.store.conversations[id].userId == uid ==>
            st.store.conversations[id] in r.payload.conversations)
      && (Valid(st.store) ==> forall i, j :: 0 <= i < j < |r.payload.conversations| ==>
            r.payload.conversations[i].id < r.payload.conversations[j].id)
  {
    if !SignedIn(st.session) then Reply(401, ErrorPayload(NotAuthenticated), st, [])
    else
      var uid := st.session.userId.value;
      Reply(200, ConversationListPayload(GetUserConversations(st.store, uid)), st, [GetUserConversationsAccess(uid)])
  }

  /** `POST /api/conversations`.  The body is spread first and the session's
      user id written over it, so the owner cannot be chosen by the client. */
  function PostConversation(body: Body, st: ServerState): (r: Reply)
    ensures r.status == 401 <==> !SignedIn(st.session)
    ensures r.status == 400 <==> SignedIn(st.session) && (StrField(body, "subject").None? || StrField(body, "title").None?)
    ensures r.status in {401, 400} ==> r.accesses == []
    ensures r.status != 201 ==> r.state == st
    ensures r.status == 201 ==>
      && r.payload.ConversationPayload?
      && var c := r.payload.conversation;
      && c.userId == st.session.userId.value
      && Some(c.subject) == StrField(body, "subject") && Some(c.title) == StrField(body, "title")
      && r.state.session == st.session
      && r.state.store.conversations == st.store.conversations[c.id := c]
      && r.state.store.messages == st.store.messages
      && r.state.store.users == st.store.users && r.state.store.emails == st.store.emails
      && (Valid(st.store) ==> c.id !in st.store.conversations)
    ensures Consistent(st) ==> Consistent(r.state) && r.status != 500
  {
    if !SignedIn(st.session) then Reply(401, ErrorPayload(NotAuthenticated), st, [])
    else
      var uid := st.session.userId.value;
      match ParseConversation(body["userId" := JNum(uid)])
      case None => Reply(400, ErrorPayload(InvalidInput), st, [])
      case Some(input) =>
        var accesses := [CreateConversationAccess(input.userId)];
        match Storage.CreateConversation(st.store, input.userId, input.subject, input.title)
        case Failure(_) => Reply(500, ErrorPayload("Failed to create conversation"), st, accesses)
        case Success((store', c)) => Reply(201, ConversationPayload(c), ServerState(store', st.session), accesses)
  }

  /** The checks both conversation-scoped routes run, in source order. */
  datatype Gate =
    | Denied(status: int, error: string, accesses: seq<Access>)
    | Granted(userId: UserId, conversationId: ConversationId, accesses: seq<Access>)

  /** Sign-in, then the path id, then existence, then ownership. */
  function Authorize(idText: string, st: ServerState): (g: Gate)
    ensures g.Denied? && g.status == 401 <==> !SignedIn(st.session)
    ensures g.Denied? && g.status == 400 <==> SignedIn(st.session) && Ecma.ParseInt(idText).None?
    ensures g.Denied? && g.status == 404 <==>
      SignedIn(st.session) && Ecma.ParseInt(idText).Some? && Ecma.ParseInt(idText).value !in st.store.conversations
    ensures g.Denied? && g.status == 403 <==>
      && SignedIn(st.session) && Ecma.ParseInt(idText).Some?
      && Ecma.ParseInt(idText).value in st.store.conversations
      && st.store.conversations[Ecma.ParseInt(idText).value].userId != st.session.userId.value
    ensures g.Denied? ==> g.status in {401, 400, 404, 403}
    ensures g.Granted? ==>
      && SignedIn(st.session) && g.userId == st.session.userId.value
      && Some(g.conversationId) == Ecma.ParseInt(idText)
      && g.conversationId in st.store.conversations
      && st.store.conversations[g.conversationId].userId == g.userId
    ensures g.accesses == [] || (Ecma.ParseInt(idText).Some? && g.accesses == [GetConversationAccess(Ecma.ParseInt(idText).value)])
    // the store is consulted only once the session and the path id pass
    ensures g.accesses == [] <==> g.Denied? && g.status in {401, 400}
  {
    if !SignedIn(st.session) then Denied(401, NotAuthenticated, [])
    else
      match Ecma.ParseInt(idText)
      case None => Denied(400, "Invalid conversation ID", [])
      case Some(cid) =>
        var accesses := [GetConversationAccess(cid)];
        match GetConversation(st.store, cid)
        case None => Denied(404, "Conversation not found", accesses)
        case Some(c) =>
          if c.userId != st.session.userId.value then Denied(403, "Access denied", accesses)
          else Granted(st.session.userId.value, cid, accesses)
  }

  /** `GET /api/conversations/:id/messages`. */
  function GetMessages(idText: string, st: ServerState): (r: Reply)
    ensures r.state == st
    ensures Authorize(idText, st).Denied? ==>
      && r.status == Authorize(idText, st).status
      && r.payload == ErrorPayload(Authorize(idText, st).error)
      && r.accesses == Authorize(idText, st).accesses
    ensures r.status == 200 <==> Authorize(idText, st).Granted?
    ensures r.status == 200 ==>
      r.payload == MessageListPayload(GetConversationMessages(st.store, Authorize(idText, st).conversationId))
    ensures (exists i :: 0 <= i < |r.accesses| && r.accesses[i].GetConversationMessagesAccess?) ==> r.status == 200
  {
    match Authorize(idText, st)
    case Denied(status, error, accesses) => Reply(status, ErrorPayload(error), st, accesses)
    case Granted(_, cid, accesses) =>
      Reply(200, MessageListPayload(GetConversationMessages(st.store, cid)), st,
            accesses + [GetConversationMessagesAccess(cid)])
  }

  /** `POST /api/conversations/:id/messages`.  Ownership is settled before
      the body is validated, and the path id is written over any
      `conversationId` in the body. */
  function PostMessage(idText: string, body: Body, st: ServerState): (r: Reply)
    ensures Authorize(idText, st).Denied? ==>
      && r.status == Authorize(idText, st).status
      && r.payload == ErrorPayload(Authorize(idText, st).error)
      && r.state == st
      && r.accesses == Authorize(idText, st).accesses
    ensures Authorize(idText, st).Granted? ==>
      var g := Authorize(idText, st);
      r == AppendMessage(g.conversationId, body, st, g.accesses)
  {
    match Authorize(idText, st)
    case Denied(status, error, accesses) => Reply(status, ErrorPayload(error), st, accesses)
    case Granted(_, cid, accesses) => AppendMessage(cid, body, st, accesses)
  }

  /** The second half of the message POST, once the caller owns conversation
      `cid`: validate the body with the path id written over it, then append. */
  function AppendMessage(cid: ConversationId, body: Body, st: ServerState, before: seq<Access>): (r: Reply)
    ensures r.status == 400 <==> StrField(body, "content").None? || StrField(body, "role").None?
                                 || ParseRole(StrField(body, "role").value).None?
    ensures r.status != 201 ==> r.state == st
    ensures r.status == 201 ==>
      && r.payload.MessagePayload?
      && var m := r.payload.message;
      && m.conversationId == cid
      && StrField(body, "role") == Some(RoleName(m.role)) && StrField(body, "content") == Some(m.content)
      && r.state.session == st.session
      && GetConversationMessages(r.state.store, cid) == GetConversationMessages(st.store, cid) + [m]
      && (forall id :: id != cid ==> GetConversationMessages(r.state.store, id) == GetConversationMessages(st.store, id))
      && r.state.store.conversations == st.store.conversations && r.state.store.users == st.store.users
    ensures r.accesses == before || r.accesses == before + [CreateMessageAccess(cid)]
    ensures r.accesses == before + [CreateMessageAccess(cid)] <==> r.status in {201, 500}
    ensures r.status == 500 <==> r.status != 400 && cid !in st.store.conversations
    ensures Consistent(st) ==> Consistent(r.state)
  {
    match ParseMessage(body["conversationId" := JNum(cid)])
    case None => Reply(400, ErrorPayload(InvalidInput), st, before)
    case Some(input) =>
      var accesses := before + [CreateMessageAccess(input.conversationId)];
      match Storage.CreateMessage(st.store, input.conversationId, input.role, input.content)
      case Failure(_) => Reply(500, ErrorPayload("Failed to create message"), st, accesses)
      case Success((store', m)) => Reply(201, MessagePayload(m), ServerState(store', st.session), accesses)
  }

  /** One request to one of the routes `registerRoutes` installs.  The salt
      bcrypt draws and whether the session store fails to destroy a session
      ride along as the outcomes of those external calls. */
  datatype Request =
    | RegisterRequest(body: Body, salt: nat)
    | LoginRequestOf(login: LoginRequest)
    | MeRequest
    | LogoutRequest(destroyFailed: bool)
    | ListConversationsRequest
    | CreateConversationRequest(body: Body)
    | GetMessagesRequest(idText: string)
    | PostMessageRequest(idText: string, body: Body)

  /** Express routing: each request goes to its handler. */
  function Handle(req: Request, st: ServerState): (r: Reply)
    ensures Consistent(st) ==> Consistent(r.state)
    ensures Consistent(st) && r.status == 500 ==> req.LogoutRequest? && req.destroyFailed
    ensures r.state.store != st.store ==> r.status == 201
  {
    match req
    case RegisterRequest(body, salt) => Register(body, salt, st)
    case LoginRequestOf(login) => Login(login, st)
    case MeRequest => Me(st)
    case LogoutRequest(failed) => Logout(st, failed)
    case ListConversationsRequest => ListConversations(st)
    case CreateConversationRequest(body) => PostConversation(body, st)
    case GetMessagesRequest(idText) => GetMessages(idText, st)
    case PostMessageRequest(idText, body) => PostMessage(idText, body, st)
  }
}
