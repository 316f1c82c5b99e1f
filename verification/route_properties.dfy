/**
 * Properties of the server handlers that relate several requests, or one
 * request under every possible body.
 */
module RouteProperties {
  import opened Wrappers
  import opened Storage
  import opened Schema
  import opened Routes
  import Ecma

  /** Registering the same email twice: the second attempt is refused with
      400 and changes nothing, whatever salt bcrypt draws. */
  lemma RegisterTwiceRefused(body: Body, salt1: nat, salt2: nat, st: ServerState)
    requires Consistent(st)
    requires Register(body, salt1, st).status == 201
    ensures var st' := Register(body, salt1, st).state;
      && Register(body, salt2, st').status == 400
      && Register(body, salt2, st').state == st'
  {
    var st' := Register(body, salt1, st).state;
    var input := ParseUser(body).value;
    var id := st'.session.userId.value;
    assert st'.store.users[id].email == input.email;
    assert input.email in st'.store.emails;
  }

  /** A freshly registered user can sign in with the same email and password
      and gets back the identity registration returned. */
  lemma RegisterThenLogin(body: Body, salt: nat, st: ServerState, session: Session)
    requires Consistent(st)
    requires Register(body, salt, st).status == 201
    requires Present(StrField(body, "email")) && Present(StrField(body, "password"))
    ensures var reg := Register(body, salt, st);
      var login := Login(LoginRequest(StrField(body, "email"), StrField(body, "password")), ServerState(reg.state.store, session));
      && login.status == 200
      && login.payload == reg.payload
      && login.state.session == reg.state.session
  {
    var reg := Register(body, salt, st);
    var id := reg.state.session.userId.value;
    var email := StrField(body, "email").value;
    assert reg.state.store.users[id].email == email;
    assert GetUserByEmail(reg.state.store, email) == Some(reg.state.store.users[id]);
  }

  /** Sign-in failures do not tell an unknown email from a wrong password:
      both give the same status, the same body, and leave the state alone. */
  lemma LoginFailuresIndistinguishable(unknown: LoginRequest, wrong: LoginRequest, st: ServerState)
    requires Valid(st.store)
    requires Present(unknown.email) && Present(unknown.password)
    requires Present(wrong.email) && Present(wrong.password)
    requires forall id :: id in st.store.users ==> st.store.users[id].email != unknown.email.value
    requires exists id :: id in st.store.users && st.store.users[id].email == wrong.email.value
    requires forall id :: id in st.store.users && st.store.users[id].email == wrong.email.value ==>
      !Verify(wrong.password.value, st.store.users[id].password)
    ensures Login(unknown, st).status == Login(wrong, st).status == 401
    ensures Login(unknown, st).payload == Login(wrong, st).payload
    ensures Login(unknown, st).state == Login(wrong, st).state == st
  {
  }

  /** The caller cannot pick a conversation's owner: whatever `userId` the
      body carries, creating a conversation behaves as if it carried none. */
  lemma CreateConversationIgnoresBodyOwner(body: Body, v: Json, st: ServerState)
    ensures PostConversation(body["userId" := v], st) == PostConversation(body, st)
  {
    if SignedIn(st.session) {
      var uid := st.session.userId.value;
      assert body["userId" := v]["userId" := JNum(uid)] == body["userId" := JNum(uid)];
    }
  }

  /** Likewise a message's conversation is the one in the path, whatever
      `conversationId` the body carries. */
  lemma PostMessageIgnoresBodyConversation(idText: string, body: Body, v: Json, st: ServerState)
    ensures PostMessage(idText, body["conversationId" := v], st) == PostMessage(idText, body, st)
  {
    var g := Authorize(idText, st);
    if g.Granted? {
      var cid := g.conversationId;
      assert body["conversationId" := v]["conversationId" := JNum(cid)] == body["conversationId" := JNum(cid)];
    }
  }

  /** Ownership is checked before the body is looked at: posting to someone
      else's conversation is 403 for every body, valid or not, and nothing is
      written. */
  lemma ForeignPostForbidden(idText: string, body: Body, st: ServerState)
    requires SignedIn(st.session)
    requires Ecma.ParseInt(idText).Some?
    requires Ecma.ParseInt(idText).value in st.store.conversations
    requires st.store.conversations[Ecma.ParseInt(idText).value].userId != st.session.userId.value
    ensures PostMessage(idText, body, st).status == 403
    ensures PostMessage(idText, body, st).state == st
    ensures GetMessages(idText, st).status == 403
    ensures forall i :: 0 <= i < |PostMessage(idText, body, st).accesses| ==>
      PostMessage(idText, body, st).accesses[i].GetConversationAccess?
  {
  }

  /** Reading messages changes nothing, so repeating the read repeats the answer. */
  lemma GetMessagesIdempotent(idText: string, st: ServerState)
    ensures GetMessages(idText, GetMessages(idText, st).state) == GetMessages(idText, st)
  {
  }

  /** Whether a body would pass the message schema once the path id is
      written over it. */
  predicate ValidMessageBody(body: Body) {
    StrField(body, "content").Some? && StrField(body, "role").Some? && ParseRole(StrField(body, "role").value).Some?
  }

  /** The state after posting each body in turn to the same path. */
  function PostAll(idText: string, bodies: seq<Body>, st: ServerState): ServerState
    decreases |bodies|
  {
    if bodies == [] then st else PostAll(idText, bodies[1..], PostMessage(idText, bodies[0], st).state)
  }

  /** The replies' messages, in posting order, of the same run. */
  function Posted(idText: string, bodies: seq<Body>, st: ServerState): seq<Message>
    decreases |bodies|
  {
    if bodies == [] then []
    else
      var r := PostMessage(idText, bodies[0], st);
      (if r.payload.MessagePayload? then [r.payload.message] else []) + Posted(idText, bodies[1..], r.state)
  }

  /** The message stored for `body` in conversation `cid`. */
  predicate Carries(m: Message, body: Body, cid: ConversationId) {
    && m.conversationId == cid
    && StrField(body, "content") == Some(m.content)
    && StrField(body, "role") == Some(RoleName(m.role))
  }

  /** One valid post by the owner is created, appends exactly its message,
      and leaves the checks passing for the next post. */
  lemma PostOne(idText: string, body: Body, st: ServerState)
    requires Consistent(st)
    requires Authorize(idText, st).Granted?
    requires ValidMessageBody(body)
    ensures var r := PostMessage(idText, body, st);
      var cid := Authorize(idText, st).conversationId;
      && r.status == 201
      && Consistent(r.state)
      && Authorize(idText, r.state) == Authorize(idText, st)
      && GetConversationMessages(r.state.store, cid) == GetConversationMessages(st.store, cid) + [r.payload.message]
      && Carries(r.payload.message, body, cid)
  {
  }

  lemma {:induction false} PostAllAppends(idText: string, bodies: seq<Body>, st: ServerState)
    requires Consistent(st)
    requires Authorize(idText, st).Granted?
    requires forall i :: 0 <= i < |bodies| ==> ValidMessageBody(bodies[i])
    ensures var st' := PostAll(idText, bodies, st);
      var cid := Authorize(idText, st).conversationId;
      var added := Posted(idText, bodies, st);
      && Consistent(st')
      && st'.session == st.session && st'.store.conversations == st.store.conversations
      && |added| == |bodies|
      && GetConversationMessages(st'.store, cid) == GetConversationMessages(st.store, cid) + added
      && forall i :: 0 <= i < |bodies| ==> Carries(added[i], bodies[i], cid)
    decreases |bodies|
  {
    if bodies != [] {
      var cid := Authorize(idText, st).conversationId;
      var r := PostMessage(idText, bodies[0], st);
      PostOne(idText, bodies[0], st);
      var m := r.payload.message;
      SameGate(idText, st, r.state);
      PostAllAppends(idText, bodies[1..], r.state);
      var rest := Posted(idText, bodies[1..], r.state);
      var st2 := PostAll(idText, bodies[1..], r.state);
      assert PostAll(idText, bodies, st) == st2;
      assert Posted(idText, bodies, st) == [m] + rest;
      AppendStep(GetConversationMessages(st.store, cid), m, rest,
                 GetConversationMessages(r.state.store, cid), GetConversationMessages(st2.store, cid));
      CarriesStep(m, rest, bodies, cid);
    }
  }

  lemma AppendStep<T>(before: seq<T>, m: T, rest: seq<T>, mid: seq<T>, after: seq<T>)
    requires mid == before + [m] && after == mid + rest
    ensures after == before + ([m] + rest)
  {
  }

  /** The gate reads only the session and the conversations table. */
  lemma SameGate(idText: string, st1: ServerState, st2: ServerState)
    requires st1.session == st2.session && st1.store.conversations == st2.store.conversations
    ensures Authorize(idText, st1) == Authorize(idText, st2)
  {
  }

  lemma CarriesStep(m: Message, rest: seq<Message>, bodies: seq<Body>, cid: ConversationId)
    requires |bodies| >= 1 && |rest| == |bodies| - 1
    requires Carries(m, bodies[0], cid)
    requires forall i :: 0 <= i < |rest| ==> Carries(rest[i], bodies[1..][i], cid)
    ensures forall i :: 0 <= i < |bodies| ==> Carries(([m] + rest)[i], bodies[i], cid)
  {
    forall i | 1 <= i < |bodies|
      ensures Carries(([m] + rest)[i], bodies[i], cid)
    {
      assert ([m] + rest)[i] == rest[i - 1];
      assert bodies[i] == bodies[1..][i - 1];
    }
  }

  /** Posting N valid messages to a conversation one owns and then reading
      it back yields the earlier messages followed by exactly the N new ones,
      in posting order. */
  lemma PostAllThenGet(idText: string, bodies: seq<Body>, st: ServerState)
    requires Consistent(st)
    requires Authorize(idText, st).Granted?
    requires forall i :: 0 <= i < |bodies| ==> ValidMessageBody(bodies[i])
    ensures var cid := Authorize(idText, st).conversationId;
      var r := GetMessages(idText, PostAll(idText, bodies, st));
      var added := Posted(idText, bodies, st);
      && r.status == 200
      && r.payload == MessageListPayload(GetConversationMessages(st.store, cid) + added)
      && |added| == |bodies|
      && forall i :: 0 <= i < |bodies| ==> Carries(added[i], bodies[i], cid)
  {
    PostAllAppends(idText, bodies, st);
    SameGate(idText, st, PostAll(idText, bodies, st));
  }

  /** A conversation the server has just created reads back as an empty
      thread: the server itself never adds a greeting. */
  lemma NewConversationStartsEmpty(body: Body, st: ServerState)
    requires Consistent(st)
    requires PostConversation(body, st).status == 201
    ensures var r := PostConversation(body, st);
      var c := r.payload.conversation;
      GetMessages(Ecma.DecimalString(c.id), r.state) == Reply(200, MessageListPayload([]), r.state,
        [GetConversationAccess(c.id), GetConversationMessagesAccess(c.id)])
  {
    var r := PostConversation(body, st);
    var c := r.payload.conversation;
    Ecma.ParseIntRoundTrip(c.id);
    assert c.id !in st.store.messages;
  }
}
