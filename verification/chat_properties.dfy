/**
 * Properties of the chat page that span several handler runs, or a handler
 * run whose calls are answered by the server model through the fetch
 * wrappers.
 */
module ChatProperties {
  import opened Wrappers
  import opened Storage
  import Routes
  import Api
  import Ecma
  import opened ChatPage

  // ---------------------------------------------------------------------
  // Sends answered by the server
  // ---------------------------------------------------------------------

  /** A send whose every call succeeds: the user's message is saved, the
      provider is asked with the raw input (or, without a key, the fallback
      text stands in for its reply), the reply is saved, and both messages are
      shown in that order. */
  lemma SmoothSend(st: ChatState, o: SendOutcomes)
    requires !st.busy && CanSend(st)
    requires o.userSave.Success? && (st.apiKey == "" || o.reply.Success?) && o.aiSave.Success?
    ensures HandleSend(st, o).state
      == st.(input := "", image := None, messages := st.messages + [o.userSave.value, o.aiSave.value])
    ensures st.apiKey != "" ==>
      HandleSend(st, o).calls == [SaveMessageCall(st.current.value.id, UserRole, UserContent(st.input, st.image)),
                                  GenerateCall(st.apiKey, st.input, st.subject.name),
                                  SaveMessageCall(st.current.value.id, AiRole, o.reply.value)]
    ensures st.apiKey == "" ==>
      HandleSend(st, o).calls == [SaveMessageCall(st.current.value.id, UserRole, UserContent(st.input, st.image)),
                                  SaveMessageCall(st.current.value.id, AiRole, MissingKeyReply)]
  {
    assert HandleSend(st, o) == SendTurn(st, o);
    SmoothRespond(st, o.userSave.value, o);
  }

  /** The reply stage of a send whose calls succeed. */
  lemma SmoothRespond(st: ChatState, userMsg: Message, o: SendOutcomes)
    requires st.current.Some? && (st.apiKey == "" || o.reply.Success?) && o.aiSave.Success?
    ensures Respond(st, userMsg, o).state
      == st.(input := "", image := None, busy := false, messages := st.messages + [userMsg, o.aiSave.value])
    ensures st.apiKey != "" ==>
      Respond(st, userMsg, o).calls == [GenerateCall(st.apiKey, st.input, st.subject.name),
                                        SaveMessageCall(st.current.value.id, AiRole, o.reply.value)]
    ensures st.apiKey == "" ==>
      Respond(st, userMsg, o).calls == [SaveMessageCall(st.current.value.id, AiRole, MissingKeyReply)]
  {
  }

  /** Two saves in a row to a conversation the signed-in user owns both
      succeed and append exactly those two messages on the server. */
  lemma TwoSaves(cid: ConversationId, first: string, second: string, server: Routes.ServerState)
    requires Routes.Consistent(server) && Api.Owns(server, cid)
    ensures var u := Api.SaveMessage(cid, UserRole, first, server);
      var a := Api.SaveMessage(cid, AiRole, second, u.server);
      && u.outcome.Success? && a.outcome.Success?
      && u.outcome.value.content == first && a.outcome.value.content == second
      && GetConversationMessages(a.server.store, cid)
           == GetConversationMessages(server.store, cid) + [u.outcome.value, a.outcome.value]
      && Routes.Consistent(a.server)
  {
    var u := Api.SaveMessage(cid, UserRole, first, server);
    assert Api.Owns(u.server, cid);
  }

  /** One send whose saves go to the server and whose provider answers
      `text`: the page shows exactly the two messages the server stored, in
      the order it stored them. */
  lemma SendShowsWhatServerStored(st: ChatState, server: Routes.ServerState, text: string)
    requires !st.busy && CanSend(st) && st.apiKey != ""
    requires Routes.Consistent(server) && Api.Owns(server, st.current.value.id)
    ensures var cid := st.current.value.id;
      var u := Api.SaveMessage(cid, UserRole, UserContent(st.input, st.image), server);
      var a := Api.SaveMessage(cid, AiRole, text, u.server);
      var out := HandleSend(st, SendOutcomes(u.outcome, Success(text), a.outcome, Failure("")));
      && u.outcome.Success? && a.outcome.Success?
      && out.state.messages == st.messages + [u.outcome.value, a.outcome.value]
      && GetConversationMessages(a.server.store, cid)
           == GetConversationMessages(server.store, cid) + [u.outcome.value, a.outcome.value]
      && Routes.Consistent(a.server)
  {
    var cid := st.current.value.id;
    TwoSaves(cid, UserContent(st.input, st.image), text, server);
    var u := Api.SaveMessage(cid, UserRole, UserContent(st.input, st.image), server);
    var a := Api.SaveMessage(cid, AiRole, text, u.server);
    SmoothSend(st, SendOutcomes(u.outcome, Success(text), a.outcome, Failure("")));
  }

  /** A send to a conversation the signed-in user does not own: the user's
      message is refused, so is the error reply, and nothing is shown. */
  lemma SendToForeignConversationShowsNothing(st: ChatState, server: Routes.ServerState, o: SendOutcomes)
    requires !st.busy && CanSend(st)
    requires !Api.Owns(server, st.current.value.id)
    ensures var cid := st.current.value.id;
      var u := Api.SaveMessage(cid, UserRole, UserContent(st.input, st.image), server);
      var e := Api.SaveMessage(cid, AiRole, ErrorText(u.outcome.error), server);
      var out := HandleSend(st, o.(userSave := u.outcome, errorSave := e.outcome));
      && u.outcome.Failure? && e.outcome.Failure? && e.server == server
      && out.state.messages == st.messages
      && out.calls[1] == SaveMessageCall(cid, AiRole, ErrorPrefix + "Failed to save message")
  {
  }

  // ---------------------------------------------------------------------
  // Several sends in a row
  // ---------------------------------------------------------------------

  /** Typing each input in turn and sending it. */
  function SendAll(st: ChatState, inputs: seq<string>, outcomes: seq<SendOutcomes>): ChatState
    requires |inputs| == |outcomes|
    requires !st.busy
    decreases |inputs|
  {
    if inputs == [] then st
    else
      var next := HandleSend(st.(input := inputs[0]), outcomes[0]).state;
      SendAll(next, inputs[1..], outcomes[1..])
  }

  /** A send whose every call succeeds. */
  predicate Smooth(o: SendOutcomes) {
    o.userSave.Success? && o.reply.Success? && o.aiSave.Success?
  }

  /** The messages a run of smooth sends shows: each turn's user message
      followed by its reply. */
  function Turns(outcomes: seq<SendOutcomes>): seq<Message>
    requires forall i :: 0 <= i < |outcomes| ==> Smooth(outcomes[i])
  {
    if outcomes == [] then []
    else
      assert Smooth(outcomes[0]);
      [outcomes[0].userSave.value, outcomes[0].aiSave.value] + Turns(outcomes[1..])
  }

  /** Sending non-blank inputs one after another into the open conversation,
      every call succeeding: the thread grows by each turn's pair in order,
      the conversation stays the same and the page ends idle. */
  lemma {:induction false} SendAllAppendsTurns(st: ChatState, inputs: seq<string>, outcomes: seq<SendOutcomes>)
    requires |inputs| == |outcomes| && !st.busy && st.current.Some?
    requires forall i :: 0 <= i < |inputs| ==> !Ecma.AllWhiteSpace(inputs[i])
    requires forall i :: 0 <= i < |outcomes| ==> Smooth(outcomes[i])
    ensures var end := SendAll(st, inputs, outcomes);
      && end.messages == st.messages + Turns(outcomes)
      && end.current == st.current && end.subject == st.subject && end.conversations == st.conversations
      && !end.busy
      && (inputs != [] ==> end.input == "" && end.image.None?)
    decreases |inputs|
  {
    if inputs != [] {
      var o := outcomes[0];
      assert Smooth(o);
      var next := st.(input := "", image := None, messages := st.messages + [o.userSave.value, o.aiSave.value]);
      TypeAndSend(st, inputs[0], o);
      assert SendAll(st, inputs, outcomes) == SendAll(next, inputs[1..], outcomes[1..]);
      SendAllAppendsTurns(next, inputs[1..], outcomes[1..]);
      assert Turns(outcomes) == [o.userSave.value, o.aiSave.value] + Turns(outcomes[1..]);
      Reassociate(st.messages, [o.userSave.value, o.aiSave.value], Turns(outcomes[1..]));
    }
  }

  /** Typing a non-blank input and sending it with every call succeeding. */
  lemma TypeAndSend(st: ChatState, input: string, o: SendOutcomes)
    requires !st.busy && st.current.Some? && !Ecma.AllWhiteSpace(input) && Smooth(o)
    ensures HandleSend(st.(input := input), o).state
      == st.(input := "", image := None, messages := st.messages + [o.userSave.value, o.aiSave.value])
  {
    Ecma.TrimIsEmptyIff(input);
    SmoothSend(st.(input := input), o);
  }

  lemma Reassociate<T>(a: seq<T>, b: seq<T>, c: seq<T>)
    ensures (a + b) + c == a + (b + c)
  {
  }

  // ---------------------------------------------------------------------
  // Opening a subject against the server
  // ---------------------------------------------------------------------

  /** The answers the server gives to the calls of opening `subject`, and
      the server state afterwards.  Calls the page does not make (creating a
      conversation it found, seeding a non-empty thread) are answered but
      their effect is dropped. */
  function OpenAgainst(st: ChatState, subject: Subject, server: Routes.ServerState): (OpenOutcomes, Routes.ServerState) {
    var found := FindBySubject(st.conversations, subject.id);
    var created := Api.CreateConversation(subject.id, ChatTitle(subject), server);
    var s1 := if found.Some? then server else created.server;
    var cid := if found.Some? then found.value.id else if created.outcome.Success? then created.outcome.value.id else 0;
    var fetched := Api.GetMessages(cid, s1);
    var welcome := Api.SaveMessage(cid, AiRole, WelcomeText(st.user, subject), s1);
    var s2 := if fetched.outcome.Success? && fetched.outcome.value == [] then welcome.server else s1;
    (OpenOutcomes(created.outcome, fetched.outcome, welcome.outcome), s2)
  }

  /** The page's conversation list mirrors conversations the signed-in user
      owns on the server. */
  ghost predicate ListedFrom(st: ChatState, server: Routes.ServerState) {
    && server.session.userId.Some?
    && forall c :: c in st.conversations ==>
      && c.id in server.store.conversations
      && server.store.conversations[c.id] == c
      && c.userId == server.session.userId.value
  }

  /** Opening a subject for a signed-in user: afterwards a conversation of
      that subject is current, the thread shown is exactly the one the server
      holds for it, and it is never empty (an empty one is seeded with the
      greeting, which the server then holds too). */
  lemma OpenShowsServerThread(st: ChatState, subject: Subject, server: Routes.ServerState)
    requires Routes.Consistent(server) && Routes.SignedIn(server.session)
    requires ListedFrom(st, server)
    ensures var (o, server') := OpenAgainst(st, subject, server);
      var out := LoadOrCreateConversation(st, subject, o);
      && Routes.Consistent(server')
      && out.state.current.Some?
      && out.state.current.value.subject == subject.id
      && out.state.messages == GetConversationMessages(server'.store, out.state.current.value.id)
      && out.state.messages != []
      && ListedFrom(out.state, server')
  {
    var found := FindBySubject(st.conversations, subject.id);
    var (o, server') := OpenAgainst(st, subject, server);
    if found.Some? {
      var c := found.value;
      assert c in st.conversations;
      OpenOwned(st, c, subject, [], [], o, server, server');
    } else {
      var created := Api.CreateConversation(subject.id, ChatTitle(subject), server);
      var c := created.outcome.value;
      CreatedIsListed(st, c, server, created.server);
      OpenOwned(st.(conversations := st.conversations + [c]), c, subject,
                [CreateConversationCall(subject.id, ChatTitle(subject))], [st], o, created.server, server');
    }
  }

  /** A conversation the server just created for the signed-in user joins
      the mirrored list. */
  lemma CreatedIsListed(st: ChatState, c: Conversation, server: Routes.ServerState, server': Routes.ServerState)
    requires Routes.Consistent(server) && ListedFrom(st, server)
    requires server'.session == server.session
    requires server'.store.conversations == server.store.conversations[c.id := c]
    requires c.id !in server.store.conversations && c.userId == server.session.userId.value
    ensures ListedFrom(st.(conversations := st.conversations + [c]), server')
  {
  }

  /** The tail of opening once the conversation `c` is known and owned:
      fetch its thread from the server and seed it if empty. */
  lemma OpenOwned(base: ChatState, c: Conversation, subject: Subject, calls: seq<Call>, during: seq<ChatState>,
                  o: OpenOutcomes,
                  s1: Routes.ServerState, s2: Routes.ServerState)
    requires Routes.Consistent(s1) && Api.Owns(s1, c.id) && ListedFrom(base, s1)
    requires s1.store.conversations[c.id] == c && c.subject == subject.id
    requires o.fetched == Api.GetMessages(c.id, s1).outcome
    requires o.welcomeSave == Api.SaveMessage(c.id, AiRole, WelcomeText(base.user, subject), s1).outcome
    requires s2 == if o.fetched.value == [] then Api.SaveMessage(c.id, AiRole, WelcomeText(base.user, subject), s1).server else s1
    ensures var out := Open(base, c, subject, calls, during, o);
      && Routes.Consistent(s2)
      && out.state.current == Some(c)
      && out.state.messages == GetConversationMessages(s2.store, c.id)
      && out.state.messages != []
      && ListedFrom(out.state, s2)
  {
  }

  /** Loading the conversation list from the server gives a list the page
      can rely on: each entry is the server's own record of a conversation
      the signed-in user owns. */
  lemma LoadedListIsListed(st: ChatState, server: Routes.ServerState)
    requires Routes.Consistent(server) && Routes.SignedIn(server.session)
    ensures ListedFrom(LoadConversations(st, Api.GetConversations(server).outcome).state, server)
  {
    var list := Api.GetConversations(server).outcome.value;
    forall c | c in list
      ensures c.id in server.store.conversations && server.store.conversations[c.id] == c
    {
      var k :| k in server.store.conversations && server.store.conversations[k] == c;
      assert server.store.conversations[k].id == k;
    }
  }

  /** A new chat for a signed-in user: the server holds a fresh conversation
      of the selected subject whose only message is the new-chat greeting,
      and that is exactly what the page shows. */
  lemma NewChatShowsServerThread(st: ChatState, server: Routes.ServerState)
    requires Routes.Consistent(server) && Routes.SignedIn(server.session)
    requires ListedFrom(st, server)
    ensures var created := Api.CreateConversation(st.subject.id, ChatTitle(st.subject), server);
      && created.outcome.Success?
      && var c := created.outcome.value;
      var welcome := Api.SaveMessage(c.id, AiRole, NewChatText(st.subject), created.server);
      var out := HandleNewChat(st, NewChatOutcomes(created.outcome, welcome.outcome));
      && welcome.outcome.Success?
      && c.subject == st.subject.id
      && out.state.current == Some(c)
      && out.state.messages == [welcome.outcome.value]
      && GetConversationMessages(welcome.server.store, c.id) == [welcome.outcome.value]
      && ListedFrom(out.state, welcome.server)
      && Routes.Consistent(welcome.server)
  {
    var created := Api.CreateConversation(st.subject.id, ChatTitle(st.subject), server);
    var c := created.outcome.value;
    assert c.id !in server.store.messages;
    assert GetConversationMessages(created.server.store, c.id) == [];
    CreatedIsListed(st, c, server, created.server);
    assert Api.Owns(created.server, c.id);
  }

  // ---------------------------------------------------------------------
  // Selecting a subject
  // ---------------------------------------------------------------------

  /** Clicking the subject that is already selected, as the component runs
      it: the thread is emptied and nothing reloads it. */
  lemma ReselectEmptiesThread(st: ChatState, o: OpenOutcomes)
    ensures SelectSubjectAsWritten(st, st.subject, o) == Step(st.(messages := []), [], [])
  {
  }

  /** The same click with the thread always reloaded: for a signed-in user
      the thread shown afterwards is the server's and is never empty. */
  lemma ReselectShowsServerThread(st: ChatState, server: Routes.ServerState)
    requires st.user.Some?
    requires Routes.Consistent(server) && Routes.SignedIn(server.session)
    requires ListedFrom(st, server)
    ensures var (o, server') := OpenAgainst(HandleSubjectChange(st, st.subject), st.subject, server);
      var out := SelectSubject(st, st.subject, o);
      && out.state.messages != []
      && out.state.messages == GetConversationMessages(server'.store, out.state.current.value.id)
  {
    OpenShowsServerThread(HandleSubjectChange(st, st.subject), st.subject, server);
  }

  // ---------------------------------------------------------------------
  // First render
  // ---------------------------------------------------------------------

  /** As the component runs its first render, a user who already has a
      conversation of the first subject gets a second one: the page asks for
      a new conversation, makes it current, and lists both. */
  lemma MountAsWrittenDuplicates(user: string, convs: seq<Conversation>, o: OpenOutcomes)
    requires exists i :: 0 <= i < |convs| && convs[i].subject == Subjects[0].id
    requires o.created.Success? && o.created.value.subject == Subjects[0].id
    ensures var out := MountAsWritten(Some(user), Success(convs), o);
      && CreateConversationCall(Subjects[0].id, ChatTitle(Subjects[0])) in out.calls
      && out.state.current == Some(o.created.value)
      && exists i, j :: 0 <= i < j < |out.state.conversations|
                        && out.state.conversations[i].subject == out.state.conversations[j].subject == Subjects[0].id
  {
    var out := MountAsWritten(Some(user), Success(convs), o);
    var i :| 0 <= i < |convs| && convs[i].subject == Subjects[0].id;
    assert out.calls[1] == CreateConversationCall(Subjects[0].id, ChatTitle(Subjects[0]));
    assert out.state.conversations[i] == convs[i];
    assert out.state.conversations[|convs|] == o.created.value;
  }

  /** With the list awaited first, the first render reuses the existing
      conversation of the first subject: no conversation is created and that
      one is current. */
  lemma MountReusesExisting(user: string, convs: seq<Conversation>, o: OpenOutcomes)
    requires exists i :: 0 <= i < |convs| && convs[i].subject == Subjects[0].id
    ensures var out := Mount(Some(user), Success(convs), o);
      && (forall k :: 0 <= k < |out.calls| ==> !out.calls[k].CreateConversationCall?)
      && out.state.current == FindBySubject(convs, Subjects[0].id)
      && out.state.conversations == convs
  {
  }
}
