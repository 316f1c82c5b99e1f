/**
 * The chat page's conversation logic (client/src/pages/chat.tsx) as
 * sequenced transitions.  Each handler takes the component state and the
 * outcomes of the network and provider calls it would await, and yields the
 * next state with the calls it made, in order.  A call's outcome is
 * Success(value) or Failure(message), the message being what the thrown
 * Error carries.
 */
module ChatPage {
  import opened Wrappers
  import opened Storage
  import Ecma

  datatype Subject = Subject(id: string, name: string)

  /** The subject list, in sidebar order. */
  const Subjects: seq<Subject> := [
    Subject("bangla", "বাংলা"),
    Subject("english", "English"),
    Subject("ict", "ICT"),
    Subject("physics", "পদার্থবিজ্ঞান"),
    Subject("chemistry", "রসায়ন"),
    Subject("math", "উচ্চতর গণিত"),
    Subject("biology", "জীববিজ্ঞান")
  ]

  /** Stands for the key literal the component's state starts with; only its
      non-emptiness matters to the logic. */
  const DefaultApiKey: string := "built-in-key"

  const ImageMarker: string := " [Image Attached]"
  const MissingKeyReply: string := "দয়া করে সেটিংস থেকে আপনার Google Gemini API Key সেট করুন।"
  const ErrorPrefix: string := "দুঃখিত, কোনো সমস্যা হয়েছে। এরর: "
  const UnknownError: string := "Unknown Error"
  const GuestName: string := "বন্ধু"

  /** The component state the handlers read and write.  `user` is the
      signed-in user's name from the auth context, None when signed out. */
  datatype ChatState = ChatState(
    user: Option<string>,
    subject: Subject,
    messages: seq<Message>,
    current: Option<Conversation>,
    conversations: seq<Conversation>,
    input: string,
    image: Option<string>,
    busy: bool,
    apiKey: string)

  /** The state on first render. */
  function Initial(user: Option<string>): ChatState {
    ChatState(user, Subjects[0], [], None, [], "", None, false, DefaultApiKey)
  }

  /** A call to client/src/lib/api.ts or to the model provider. */
  datatype Call =
    | GetConversationsCall
    | CreateConversationCall(subject: string, title: string)
    | GetMessagesCall(conversationId: ConversationId)
    | SaveMessageCall(conversationId: ConversationId, role: Role, content: string)
    | GenerateCall(apiKey: string, prompt: string, subjectName: string)

  /** A handler's run: the state it leaves, the calls it made in order, and
      for each call the state the page shows while that call is awaited
      (`during[i]` belongs to `calls[i]`). */
  datatype Step = Step(state: ChatState, calls: seq<Call>, during: seq<ChatState>)

  /** JavaScript truthiness of the selected image. */
  predicate HasImage(image: Option<string>) {
    image.Some? && image.value != ""
  }

  /** `!input.trim()`. */
  predicate Blank(input: string) {
    Ecma.Trim(input) == ""
  }

  /** The guard at the top of `handleSend`. */
  predicate CanSend(st: ChatState)
    ensures CanSend(st) <==> (!Ecma.AllWhiteSpace(st.input) || HasImage(st.image)) && st.current.Some?
  {
    Ecma.TrimIsEmptyIff(st.input);
    (!Blank(st.input) || HasImage(st.image)) && st.current.Some?
  }

  /** The text persisted for the user's turn. */
  function UserContent(input: string, image: Option<string>): (c: string)
    ensures HasImage(image) ==> c == input + ImageMarker
    ensures !HasImage(image) ==> c == input
    ensures c[..|input|] == input
  {
    if HasImage(image) then input + ImageMarker else input
  }

  /** The AI reply persisted when a step of the send fails. */
  function ErrorText(message: string): (t: string)
    ensures |ErrorPrefix| < |t| && t[..|ErrorPrefix|] == ErrorPrefix
    ensures message != "" ==> t == ErrorPrefix + message
    ensures message == "" ==> t == ErrorPrefix + UnknownError
  {
    ErrorPrefix + (if message == "" then UnknownError else message)
  }

  /** `${subject.name} চ্যাট`. */
  function ChatTitle(subject: Subject): (t: string)
    ensures |subject.name| < |t| && t[..|subject.name|] == subject.name
  {
    subject.name + " চ্যাট"
  }

  /** `user?.name || "বন্ধু"`. */
  function DisplayName(user: Option<string>): (n: string)
    ensures n != ""
    ensures user.Some? && user.value != "" ==> n == user.value
    ensures user.None? || user.value == "" ==> n == GuestName
  {
    if user.Some? && user.value != "" then user.value else GuestName
  }

  /** The greeting `loadOrCreateConversation` seeds an empty conversation with. */
  function WelcomeText(user: Option<string>, subject: Subject): (t: string)
    ensures var k := |"হ্যালো "|; |t| > k + |DisplayName(user)| && t[k..k + |DisplayName(user)|] == DisplayName(user)
  {
    var t := "হ্যালো " + DisplayName(user) + "! আমি রিফু। আজকে আমরা " + subject.name + " নিয়ে কি পড়বো?";
    assert t == "হ্যালো " + (DisplayName(user) + ("! আমি রিফু। আজকে আমরা " + subject.name + " নিয়ে কি পড়বো?"));
    t
  }

  /** The greeting `handleNewChat` seeds a new conversation with. */
  function NewChatText(subject: Subject): (t: string)
    ensures var k := |"চলো "|; |t| > k + |subject.name| && t[k..k + |subject.name|] == subject.name
  {
    var t := "চলো " + subject.name + " নিয়ে আলোচনা করি। তোমার কোন টপিকটি কঠিন লাগছে?";
    assert t == "চলো " + (subject.name + " নিয়ে আলোচনা করি। তোমার কোন টপিকটি কঠিন লাগছে?");
    t
  }

  // ---------------------------------------------------------------------
  // handleSend
  // ---------------------------------------------------------------------

  /** What the calls of one send return: saving the user's message, the
      provider's reply, saving the AI reply, saving the error reply. */
  datatype SendOutcomes = SendOutcomes(
    userSave: Result<Message, string>,
    reply: Result<string, string>,
    aiSave: Result<Message, string>,
    errorSave: Result<Message, string>)

  /** The state when `handleSend` reaches its first await: input and image
      cleared, busy flag raised, nothing else touched. */
  function BeginSend(st: ChatState): (s: ChatState)
    ensures s.input == "" && s.image.None? && s.busy
    ensures s.(input := st.input, image := st.image, busy := st.busy) == st
  {
    st.(input := "", image := None, busy := true)
  }

  /** The catch and finally blocks: try to persist an error reply, show it if
      that worked, and lower the busy flag. */
  function Recover(s: ChatState, conversationId: ConversationId, calls: seq<Call>, during: seq<ChatState>,
                   error: string, errorSave: Result<Message, string>): (out: Step)
    ensures out.calls == calls + [SaveMessageCall(conversationId, AiRole, ErrorText(error))]
    // the error reply is awaited with the page as the failed step left it
    ensures out.during == during + [s]
    ensures errorSave.Success? ==> out.state.messages == s.messages + [errorSave.value]
    ensures errorSave.Failure? ==> out.state.messages == s.messages
    ensures out.state == s.(busy := false, messages := out.state.messages)
  {
    var calls' := calls + [SaveMessageCall(conversationId, AiRole, ErrorText(error))];
    match errorSave
    case Success(m) => Step(s.(messages := s.messages + [m], busy := false), calls', during + [s])
    case Failure(_) => Step(s.(busy := false), calls', during + [s])
  }

  /** The tail of a send once the user's message `userMsg` is saved and
      shown: ask the provider (or fall back without a key), save the reply,
      show it, and recover from a failure of either step. */
  function Respond(st: ChatState, userMsg: Message, o: SendOutcomes): (out: Step)
    requires st.current.Some?
    ensures var cid := st.current.value.id;
      var shown := st.messages + [userMsg];
      // only the thread changed since the input was cleared, and the flag is down
      && out.state == st.(input := "", image := None, busy := false, messages := out.state.messages)
      // the reply (or the error reply) is the last call, and at most one more message is shown
      && |out.calls| >= 1
      && out.calls[|out.calls| - 1].SaveMessageCall?
      && out.calls[|out.calls| - 1].conversationId == cid
      && out.calls[|out.calls| - 1].role == AiRole
      && |shown| <= |out.state.messages| <= |shown| + 1
      && out.state.messages[..|shown|] == shown
    // every call is awaited with the input cleared, the flag up and the user's message shown
    ensures |out.during| == |out.calls|
    ensures forall i :: 0 <= i < |out.during| ==>
      out.during[i] == st.(input := "", image := None, busy := true, messages := st.messages + [userMsg])
    // the provider sees the input without the marker, and only when there is a key
    ensures forall i :: 0 <= i < |out.calls| && out.calls[i].GenerateCall? ==>
      out.calls[i] == GenerateCall(st.apiKey, st.input, st.subject.name) && st.apiKey != ""
    ensures st.apiKey != "" ==> out.calls[0] == GenerateCall(st.apiKey, st.input, st.subject.name)
    ensures st.apiKey == "" ==> out.calls[0] == SaveMessageCall(st.current.value.id, AiRole, MissingKeyReply)
    ensures (st.apiKey == "" || o.reply.Success?) && o.aiSave.Success? ==>
      out.state.messages == st.messages + [userMsg, o.aiSave.value]
    // the provider's text is what the AI save carries
    ensures st.apiKey != "" && o.reply.Success? ==>
      |out.calls| >= 2 && out.calls[1] == SaveMessageCall(st.current.value.id, AiRole, o.reply.value)
    ensures st.apiKey != "" && o.reply.Failure? ==>
      && out.calls == [out.calls[0], SaveMessageCall(st.current.value.id, AiRole, ErrorText(o.reply.error))]
      && out.state.messages == st.messages + [userMsg] + (if o.errorSave.Success? then [o.errorSave.value] else [])
    // saving the reply failed: one error reply is attempted, shown only if it is saved
    ensures (st.apiKey == "" || o.reply.Success?) && o.aiSave.Failure? ==>
      var cid := st.current.value.id;
      var text := if st.apiKey == "" then MissingKeyReply else o.reply.value;
      var asked := if st.apiKey == "" then [] else [GenerateCall(st.apiKey, st.input, st.subject.name)];
      && out.calls == asked + [SaveMessageCall(cid, AiRole, text), SaveMessageCall(cid, AiRole, ErrorText(o.aiSave.error))]
      && out.state.messages == st.messages + [userMsg] + (if o.errorSave.Success? then [o.errorSave.value] else [])
  {
    var cid := st.current.value.id;
    var s2 := BeginSend(st).(messages := st.messages + [userMsg]);
    var reply := if st.apiKey == "" then Success(MissingKeyReply) else o.reply;
    var asked := if st.apiKey == "" then [] else [GenerateCall(st.apiKey, st.input, st.subject.name)];
    var waits := if st.apiKey == "" then [] else [s2];
    match reply
    case Failure(e) => Recover(s2, cid, asked, waits, e, o.errorSave)
    case Success(text) =>
      var calls := asked + [SaveMessageCall(cid, AiRole, text)];
      match o.aiSave
      case Failure(e) => Recover(s2, cid, calls, waits + [s2], e, o.errorSave)
      case Success(aiMsg) => Step(s2.(messages := s2.messages + [aiMsg], busy := false), calls, waits + [s2])
  }

  /** A send that passed the guard: save the user's turn, then respond. */
  function SendTurn(st: ChatState, o: SendOutcomes): (out: Step)
    requires st.current.Some?
    ensures var cid := st.current.value.id;
      // input and image cleared, busy flag down again, only the thread changed
      && out.state == st.(input := "", image := None, busy := false, messages := out.state.messages)
      // the untrimmed input is saved first, marked when an image was attached
      && |out.calls| >= 2
      && out.calls[0] == SaveMessageCall(cid, UserRole, UserContent(st.input, st.image))
      // every turn ends by saving an AI message
      && out.calls[|out.calls| - 1].SaveMessageCall?
      && out.calls[|out.calls| - 1].conversationId == cid
      && out.calls[|out.calls| - 1].role == AiRole
      // the thread only grows, by at most two messages
      && |st.messages| <= |out.state.messages| <= |st.messages| + 2
      && out.state.messages[..|st.messages|] == st.messages
    ensures forall i :: 0 <= i < |out.calls| && out.calls[i].GenerateCall? ==>
      out.calls[i] == GenerateCall(st.apiKey, st.input, st.subject.name) && st.apiKey != ""
    // from the first await on, the input and image are cleared and the flag is up;
    // the thread shows at most the user's saved message
    ensures |out.during| == |out.calls| && out.during[0] == BeginSend(st)
    ensures forall i :: 0 <= i < |out.during| ==>
      && out.during[i].busy && out.during[i].input == "" && out.during[i].image.None?
      && out.during[i] == st.(input := "", image := None, busy := true, messages := out.during[i].messages)
      && (out.during[i].messages == st.messages
          || (o.userSave.Success? && out.during[i].messages == st.messages + [o.userSave.value]))
    // the user message could not be saved: the provider is not asked, an error reply is attempted
    ensures o.userSave.Failure? ==>
      && out.calls == [out.calls[0], SaveMessageCall(st.current.value.id, AiRole, ErrorText(o.userSave.error))]
      && out.state.messages == st.messages + (if o.errorSave.Success? then [o.errorSave.value] else [])
    ensures o.userSave.Success? ==> out.calls == [out.calls[0]] + Respond(st, o.userSave.value, o).calls
    ensures o.userSave.Success? ==> out.state == Respond(st, o.userSave.value, o).state
  {
    var cid := st.current.value.id;
    var saveUser := SaveMessageCall(cid, UserRole, UserContent(st.input, st.image));
    match o.userSave
    case Failure(e) => Recover(BeginSend(st), cid, [saveUser], [BeginSend(st)], e, o.errorSave)
    case Success(userMsg) =>
      var r := Respond(st, userMsg, o);
      Step(r.state, [saveUser] + r.calls, [BeginSend(st)] + r.during)
  }

  /** `handleSend`.  The send button and the input are disabled while the busy
      flag is up, so a send starts only when it is down; in particular no
      send starts while another one awaits. */
  function HandleSend(st: ChatState, o: SendOutcomes): (out: Step)
    requires !st.busy
    ensures |out.during| == |out.calls|
    ensures forall i :: 0 <= i < |out.during| ==> out.during[i].busy
    // a blank input without an image, or no open conversation, is a no-op
    ensures out.calls == [] <==> (Ecma.AllWhiteSpace(st.input) && !HasImage(st.image)) || st.current.None?
    ensures out.calls == [] ==> out.state == st
    ensures out.calls != [] ==> CanSend(st) && out == SendTurn(st, o)
  {
    Ecma.TrimIsEmptyIff(st.input);
    if CanSend(st) then SendTurn(st, o) else Step(st, [], [])
  }

  // ---------------------------------------------------------------------
  // loadConversations, loadOrCreateConversation, handleNewChat
  // ---------------------------------------------------------------------

  /** `loadConversations`: the fetched list replaces the known one; a failed
      fetch is only logged. */
  function LoadConversations(st: ChatState, fetched: Result<seq<Conversation>, string>): (out: Step)
    ensures out.calls == [GetConversationsCall] && out.during == [st]
    ensures fetched.Success? ==> out.state == st.(conversations := fetched.value)
    ensures fetched.Failure? ==> out.state == st
  {
    match fetched
    case Success(convos) => Step(st.(conversations := convos), [GetConversationsCall], [st])
    case Failure(_) => Step(st, [GetConversationsCall], [st])
  }

  /** The position of the first conversation of the subject, or the length
      of the list when there is none. */
  function FirstOfSubject(convs: seq<Conversation>, subjectId: string): (i: nat)
    ensures i <= |convs|
    ensures i < |convs| ==> convs[i].subject == subjectId
    ensures forall j :: 0 <= j < i ==> convs[j].subject != subjectId
    decreases |convs|
  {
    if |convs| == 0 || convs[0].subject == subjectId then 0
    else 1 + FirstOfSubject(convs[1..], subjectId)
  }

  /** `conversations.find(c => c.subject === subjectId)`: the first match. */
  function FindBySubject(convs: seq<Conversation>, subjectId: string): (r: Option<Conversation>)
    ensures r.None? <==> forall i :: 0 <= i < |convs| ==> convs[i].subject != subjectId
    ensures r.Some? ==> exists i :: 0 <= i < |convs| && convs[i] == r.value
                                    && r.value.subject == subjectId
                                    && forall j :: 0 <= j < i ==> convs[j].subject != subjectId
  {
    var i := FirstOfSubject(convs, subjectId);
    if i < |convs| then Some(convs[i]) else None
  }

  /** What the calls of opening a conversation return: creating it (when
      needed), fetching its messages, saving the welcome message. */
  datatype OpenOutcomes = OpenOutcomes(
    created: Result<Conversation, string>,
    fetched: Result<seq<Message>, string>,
    welcomeSave: Result<Message, string>)

  /** The tail of `loadOrCreateConversation` once the conversation `c` is
      known: make it current, fetch its messages, seed an empty one. */
  function Open(st: ChatState, c: Conversation, subject: Subject, calls: seq<Call>, during: seq<ChatState>,
                o: OpenOutcomes): (out: Step)
    ensures out.state.current == Some(c)
    // its own calls are awaited with `c` current and the thread not yet replaced
    ensures |out.during| - |during| == |out.calls| - |calls| >= 1 && out.during[..|during|] == during
    ensures forall i :: |during| <= i < |out.during| ==> out.during[i] == st.(current := Some(c))
    ensures out.state == st.(current := Some(c), messages := out.state.messages)
    ensures |out.calls| >= |calls| + 1 && out.calls[..|calls| + 1] == calls + [GetMessagesCall(c.id)]
    ensures o.fetched.Success? && o.fetched.value != [] ==>
      out.state.messages == o.fetched.value && out.calls == calls + [GetMessagesCall(c.id)]
    ensures o.fetched.Success? && o.fetched.value == [] ==>
      && out.calls == calls + [GetMessagesCall(c.id), SaveMessageCall(c.id, AiRole, WelcomeText(st.user, subject))]
      && out.state.messages == (if o.welcomeSave.Success? then [o.welcomeSave.value] else st.messages)
    ensures o.fetched.Failure? ==> out.state.messages == st.messages && out.calls == calls + [GetMessagesCall(c.id)]
  {
    var s1 := st.(current := Some(c));
    var fetch := calls + [GetMessagesCall(c.id)];
    var waits := during + [s1];
    match o.fetched
    case Failure(_) => Step(s1, fetch, waits)
    case Success(msgs) =>
      if |msgs| == 0 then
        var seed := fetch + [SaveMessageCall(c.id, AiRole, WelcomeText(st.user, subject))];
        match o.welcomeSave
        case Failure(_) => Step(s1, seed, waits + [s1])
        case Success(w) => Step(s1.(messages := [w]), seed, waits + [s1])
      else Step(s1.(messages := msgs), fetch, waits)
  }

  /** `loadOrCreateConversation(subject)`: reuse the first known conversation
      of the subject, or create one and append it to the list. */
  function LoadOrCreateConversation(st: ChatState, subject: Subject, o: OpenOutcomes): (out: Step)
    ensures FindBySubject(st.conversations, subject.id).Some? ==>
      var c := FindBySubject(st.conversations, subject.id).value;
      && out == Open(st, c, subject, [], [], o)
      && out.state.conversations == st.conversations
      && out.calls[0] == GetMessagesCall(c.id)
    ensures FindBySubject(st.conversations, subject.id).None? ==>
      && |out.calls| >= 1
      && out.calls[0] == CreateConversationCall(subject.id, ChatTitle(subject))
      && |out.during| >= 1 && out.during[0] == st
      && (o.created.Failure? ==> out == Step(st, [out.calls[0]], [st]))
      && (o.created.Success? ==>
            && out == Open(st.(conversations := st.conversations + [o.created.value]), o.created.value, subject, [out.calls[0]], [st], o)
            && out.state.conversations == st.conversations + [o.created.value]
            && out.state.current == Some(o.created.value))
    ensures forall i :: 0 <= i < |out.calls| && out.calls[i].CreateConversationCall? ==>
      i == 0 && forall c :: c in st.conversations ==> c.subject != subject.id
    ensures |out.during| == |out.calls|
  {
    match FindBySubject(st.conversations, subject.id)
    case Some(c) => Open(st, c, subject, [], [], o)
    case None =>
      var create := [CreateConversationCall(subject.id, ChatTitle(subject))];
      match o.created
      case Failure(_) => Step(st, create, [st])
      case Success(c) => Open(st.(conversations := st.conversations + [c]), c, subject, create, [st], o)
  }

  /** What the calls of `handleNewChat` return. */
  datatype NewChatOutcomes = NewChatOutcomes(created: Result<Conversation, string>, welcomeSave: Result<Message, string>)

  /** `handleNewChat`: always creates a conversation for the selected subject
      and seeds it with its own greeting. */
  function HandleNewChat(st: ChatState, o: NewChatOutcomes): (out: Step)
    ensures |out.calls| >= 1 && out.calls[0] == CreateConversationCall(st.subject.id, ChatTitle(st.subject))
    ensures o.created.Failure? ==> out == Step(st, [out.calls[0]], [st])
    ensures o.created.Success? ==>
      var c := o.created.value;
      && out.calls == [out.calls[0], SaveMessageCall(c.id, AiRole, NewChatText(st.subject))]
      // the greeting is awaited with the new conversation listed and current, the old thread still shown
      && out.during == [st, st.(conversations := st.conversations + [c], current := Some(c))]
      && out.state == st.(conversations := st.conversations + [c], current := Some(c), messages := out.state.messages)
      && out.state.messages == (if o.welcomeSave.Success? then [o.welcomeSave.value] else st.messages)
  {
    var create := [CreateConversationCall(st.subject.id, ChatTitle(st.subject))];
    match o.created
    case Failure(_) => Step(st, create, [st])
    case Success(c) =>
      var s1 := st.(conversations := st.conversations + [c], current := Some(c));
      var seed := create + [SaveMessageCall(c.id, AiRole, NewChatText(st.subject))];
      match o.welcomeSave
      case Failure(_) => Step(s1, seed, [st, s1])
      case Success(w) => Step(s1.(messages := [w]), seed, [st, s1])
  }

  // ---------------------------------------------------------------------
  // handleSubjectChange and the effects keyed on the selected subject
  // ---------------------------------------------------------------------

  /** `handleSubjectChange`: select the subject and empty the thread. */
  function HandleSubjectChange(st: ChatState, subject: Subject): (s: ChatState)
    ensures s.subject == subject && s.messages == []
    ensures s.(subject := st.subject, messages := st.messages) == st
  {
    st.(subject := subject, messages := [])
  }

  /** A click on a subject as the component runs it: the handler, then the
      effect keyed on `[selectedSubject, user]`, which runs only when the
      selected subject actually changed and a user is signed in. */
  function SelectSubjectAsWritten(st: ChatState, subject: Subject, o: OpenOutcomes): (out: Step)
    ensures subject == st.subject ==> out == Step(HandleSubjectChange(st, subject), [], [])
    ensures subject != st.subject && st.user.Some? ==>
      out == LoadOrCreateConversation(HandleSubjectChange(st, subject), subject, o)
  {
    var s := HandleSubjectChange(st, subject);
    if subject != st.subject && st.user.Some? then LoadOrCreateConversation(s, subject, o) else Step(s, [], [])
  }

  /** A click on a subject with the thread always reloaded for a signed-in
      user, including when the subject was already selected. */
  function SelectSubject(st: ChatState, subject: Subject, o: OpenOutcomes): (out: Step)
    ensures st.user.Some? ==> out == LoadOrCreateConversation(HandleSubjectChange(st, subject), subject, o)
    ensures st.user.None? ==> out == Step(HandleSubjectChange(st, subject), [], [])
  {
    var s := HandleSubjectChange(st, subject);
    if st.user.Some? then LoadOrCreateConversation(s, subject, o) else Step(s, [], [])
  }

  /** The first render's effects as the component runs them: both start
      before either resolves, so the find-or-create effect searches the list
      captured at first render, which is still empty.  The list request was
      issued first and is taken to resolve first; a conversation the
      find-or-create step makes is appended after the fetched list, and the
      requests after its first one see that combined list. */
  function MountAsWritten(user: Option<string>, fetched: Result<seq<Conversation>, string>, o: OpenOutcomes): (out: Step)
    ensures |out.calls| >= 1 && out.calls[0] == GetConversationsCall
    ensures |out.during| == |out.calls|
    ensures user.Some? ==> |out.during| >= 2 && out.during[..2] == [Initial(user), Initial(user)]
    ensures user.Some? ==>
      && |out.calls| >= 2
      && out.calls[1] == CreateConversationCall(Subjects[0].id, ChatTitle(Subjects[0]))
      && (fetched.Success? && o.created.Success? ==>
            out.state.conversations == fetched.value + [o.created.value] && out.state.current == Some(o.created.value))
  {
    var st := Initial(user);
    var listed := LoadConversations(st, fetched);
    if user.Some? then
      var loaded := LoadOrCreateConversation(st, st.subject, o);
      var later := seq(|loaded.during|, i requires 0 <= i < |loaded.during| =>
        if i == 0 then loaded.during[i]
        else loaded.during[i].(conversations := listed.state.conversations + loaded.during[i].conversations));
      Step(loaded.state.(conversations := listed.state.conversations + loaded.state.conversations),
           listed.calls + loaded.calls, listed.during + later)
    else listed
  }

  /** The first render with the conversation list awaited before the
      find-or-create step. */
  function Mount(user: Option<string>, fetched: Result<seq<Conversation>, string>, o: OpenOutcomes): (out: Step)
    ensures |out.calls| >= 1 && out.calls[0] == GetConversationsCall
    ensures |out.during| == |out.calls| && out.during[0] == Initial(user)
    ensures user.Some? && fetched.Success? && FindBySubject(fetched.value, Subjects[0].id).Some? ==>
      forall i :: 0 <= i < |out.calls| ==> !out.calls[i].CreateConversationCall?
  {
    var listed := LoadConversations(Initial(user), fetched);
    if user.Some? then
      var loaded := LoadOrCreateConversation(listed.state, listed.state.subject, o);
      Step(loaded.state, listed.calls + loaded.calls, listed.during + loaded.during)
    else listed
  }
}
