/**
 * The client's fetch wrappers (client/src/lib/api.ts) against the server's
 * handlers.  Each wrapper builds the request the component's call stands for,
 * hands it to the route handler, and resolves to the JSON payload when the
 * status is 2xx or throws an Error with a fixed message otherwise.  The
 * session cookie is the server state's session.
 */
module Api {
  import opened Wrappers
  import Storage
  import Schema
  import Routes
  import Ecma

  /** What a wrapper resolves to (or the message it throws) and the server
      state after the request. */
  datatype Answer<T> = Answer(outcome: Result<T, string>, server: Routes.ServerState)

  /** `response.ok`. */
  predicate Ok(status: int) {
    200 <= status <= 299
  }

  /** A conversation id as a template literal renders it into the path. */
  function IdSegment(id: Storage.ConversationId): (t: string)
    ensures Ecma.ParseInt(t) == Some(id)
  {
    Ecma.ParseIntRoundTrip(id);
    Ecma.DecimalString(id)
  }

  /** The conversation `id` belongs to the signed-in user. */
  predicate Owns(server: Routes.ServerState, id: Storage.ConversationId) {
    && Routes.SignedIn(server.session)
    && id in server.store.conversations
    && server.store.conversations[id].userId == server.session.userId.value
  }

  /** `getConversations`. */
  function GetConversations(server: Routes.ServerState): (a: Answer<seq<Storage.Conversation>>)
    ensures a.server == server
    ensures a.outcome.Success? <==> Routes.SignedIn(server.session)
    ensures a.outcome.Failure? ==> a.outcome.error == "Failed to fetch conversations"
    ensures a.outcome.Success? ==>
      var list := a.outcome.value;
      && (forall i :: 0 <= i < |list| ==>
            list[i] in server.store.conversations.Values && list[i].userId == server.session.userId.value)
      && (Storage.Valid(server.store) ==>
            forall id :: id in server.store.conversations && server.store.conversations[id].userId == server.session.userId.value ==>
              server.store.conversations[id] in list)
  {
    var r := Routes.ListConversations(server);
    if Ok(r.status) && r.payload.ConversationListPayload? then Answer(Success(r.payload.conversations), r.state)
    else Answer(Failure("Failed to fetch conversations"), r.state)
  }

  /** `JSON.stringify({ subject, title })`. */
  function ConversationBody(subject: string, title: string): Schema.Body {
    map["subject" := Schema.JStr(subject), "title" := Schema.JStr(title)]
  }

  /** `createConversation(subject, title)`. */
  function CreateConversation(subject: string, title: string, server: Routes.ServerState): (a: Answer<Storage.Conversation>)
    ensures Routes.Consistent(server) ==> Routes.Consistent(a.server)
    ensures a.outcome.Failure? ==> a.server == server && a.outcome.error == "Failed to create conversation"
    ensures !Routes.SignedIn(server.session) ==> a.outcome.Failure?
    ensures Routes.Consistent(server) && Routes.SignedIn(server.session) ==> a.outcome.Success?
    ensures a.outcome.Success? ==>
      var c := a.outcome.value;
      && c.subject == subject && c.title == title
      && c.userId == server.session.userId.value
      && a.server.session == server.session
      && a.server.store.conversations == server.store.conversations[c.id := c]
      && a.server.store.messages == server.store.messages
      && (Storage.Valid(server.store) ==> c.id !in server.store.conversations)
  {
    var r := Routes.PostConversation(ConversationBody(subject, title), server);
    if Ok(r.status) && r.payload.ConversationPayload? then Answer(Success(r.payload.conversation), r.state)
    else Answer(Failure("Failed to create conversation"), server)
  }

  /** `getMessages(conversationId)`. */
  function GetMessages(id: Storage.ConversationId, server: Routes.ServerState): (a: Answer<seq<Storage.Message>>)
    ensures a.server == server
    ensures a.outcome.Success? <==> Owns(server, id)
    ensures a.outcome.Success? ==> a.outcome.value == Storage.GetConversationMessages(server.store, id)
    ensures a.outcome.Failure? ==> a.outcome.error == "Failed to fetch messages"
  {
    var r := Routes.GetMessages(IdSegment(id), server);
    if Ok(r.status) && r.payload.MessageListPayload? then Answer(Success(r.payload.messages), r.state)
    else Answer(Failure("Failed to fetch messages"), r.state)
  }

  /** `JSON.stringify({ role, content })`. */
  function MessageBody(role: Storage.Role, content: string): Schema.Body {
    map["role" := Schema.JStr(Schema.RoleName(role)), "content" := Schema.JStr(content)]
  }

  /** `saveMessage(conversationId, role, content)`: succeeds exactly on the
      caller's own conversations, and then appends exactly the message asked
      for to that conversation and to no other. */
  function SaveMessage(id: Storage.ConversationId, role: Storage.Role, content: string, server: Routes.ServerState): (a: Answer<Storage.Message>)
    ensures Routes.Consistent(server) ==> Routes.Consistent(a.server)
    ensures a.outcome.Success? <==> Owns(server, id)
    ensures a.outcome.Failure? ==> a.server == server && a.outcome.error == "Failed to save message"
    ensures a.outcome.Success? ==>
      var m := a.outcome.value;
      && m.conversationId == id && m.role == role && m.content == content
      && a.server.session == server.session
      && a.server.store.conversations == server.store.conversations
      && Storage.GetConversationMessages(a.server.store, id) == Storage.GetConversationMessages(server.store, id) + [m]
      && (forall other :: other != id ==>
            Storage.GetConversationMessages(a.server.store, other) == Storage.GetConversationMessages(server.store, other))
  {
    var r := Routes.PostMessage(IdSegment(id), MessageBody(role, content), server);
    SavePost(id, role, content, server);
    if Ok(r.status) && r.payload.MessagePayload? then Answer(Success(r.payload.message), r.state)
    else Answer(Failure("Failed to save message"), r.state)
  }

  /** The POST `saveMessage` makes succeeds exactly on the caller's own
      conversations; either way its reply is one of the two below. */
  lemma SavePost(id: Storage.ConversationId, role: Storage.Role, content: string, server: Routes.ServerState)
    ensures var r := Routes.PostMessage(IdSegment(id), MessageBody(role, content), server);
      && (Ok(r.status) && r.payload.MessagePayload? <==> Owns(server, id))
      && (!Owns(server, id) ==> r.state == server)
      && (Owns(server, id) ==>
            && var m := r.payload.message;
            && m.conversationId == id && m.role == role && m.content == content
            && r.state.session == server.session
            && r.state.store.conversations == server.store.conversations
            && Storage.GetConversationMessages(r.state.store, id) == Storage.GetConversationMessages(server.store, id) + [m]
            && (forall other :: other != id ==>
                  Storage.GetConversationMessages(r.state.store, other) == Storage.GetConversationMessages(server.store, other))
            && (Routes.Consistent(server) ==> Routes.Consistent(r.state)))
  {
    if Owns(server, id) {
      PostToOwned(id, role, content, server);
    } else {
      PostToForeign(id, role, content, server);
    }
  }

  /** The message POST `saveMessage` makes, on a conversation the caller owns. */
  lemma PostToOwned(id: Storage.ConversationId, role: Storage.Role, content: string, server: Routes.ServerState)
    requires Owns(server, id)
    ensures var r := Routes.PostMessage(IdSegment(id), MessageBody(role, content), server);
      && Ok(r.status) && r.payload.MessagePayload?
      && var m := r.payload.message;
      && m.conversationId == id && m.role == role && m.content == content
      && r.state.session == server.session
      && r.state.store.conversations == server.store.conversations
      && Storage.GetConversationMessages(r.state.store, id) == Storage.GetConversationMessages(server.store, id) + [m]
      && (forall other :: other != id ==>
            Storage.GetConversationMessages(r.state.store, other) == Storage.GetConversationMessages(server.store, other))
      && (Routes.Consistent(server) ==> Routes.Consistent(r.state))
  {
    OwnedGate(id, server);
    MessageBodyFields(role, content);
    var g := Routes.Authorize(IdSegment(id), server);
    var r := Routes.AppendMessage(id, MessageBody(role, content), server, g.accesses);
    assert r.status == 201;
    Schema.RoleRoundTrip(r.payload.message.role);
  }

  /** The same POST on any other conversation is refused and changes nothing. */
  lemma PostToForeign(id: Storage.ConversationId, role: Storage.Role, content: string, server: Routes.ServerState)
    requires !Owns(server, id)
    ensures var r := Routes.PostMessage(IdSegment(id), MessageBody(role, content), server);
      !Ok(r.status) && r.state == server
  {
    OwnedGate(id, server);
  }

  /** The gate both message routes run lets the caller through exactly on
      the conversations it owns, and then names the conversation in the path. */
  lemma OwnedGate(id: Storage.ConversationId, server: Routes.ServerState)
    ensures Routes.Authorize(IdSegment(id), server).Granted? <==> Owns(server, id)
    ensures Routes.Authorize(IdSegment(id), server).Granted? ==>
      Routes.Authorize(IdSegment(id), server).conversationId == id
  {
  }

  /** The body `saveMessage` sends passes the message schema and carries the
      role and content asked for. */
  lemma MessageBodyFields(role: Storage.Role, content: string)
    ensures Schema.StrField(MessageBody(role, content), "role") == Some(Schema.RoleName(role))
    ensures Schema.StrField(MessageBody(role, content), "content") == Some(content)
    ensures Schema.ParseRole(Schema.RoleName(role)) == Some(role)
  {
    Schema.RoleRoundTrip(role);
  }
}
