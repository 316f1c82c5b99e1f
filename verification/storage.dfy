/**
 * The persistence layer the route handlers call through `storage`, and the
 * password hashing they call through bcrypt.  Neither implementation is part
 * of this model: the store is a record of maps with serial id counters, and
 * bcrypt is an ideal salted one-way function.
 *
 * Every operation is total.  The writes refuse what a relational store with
 * a unique email column and foreign keys would refuse (a duplicate email, a
 * dangling owner) by returning Failure, which the handlers surface as 500.
 */
module Storage {
  import opened Wrappers

  type UserId = int
  type ConversationId = int

  /** A bcrypt digest of `secret` under `salt`.  Only `Verify` looks inside. */
  datatype Digest = Digest(salt: nat, secret: string)

  /** `bcrypt.hash(password, 10)`; the salt is bcrypt's random choice. */
  function Hash(password: string, salt: nat): Digest {
    Digest(salt, password)
  }

  /** `bcrypt.compare(password, digest)`. */
  predicate Verify(password: string, d: Digest) {
    d.secret == password
  }

  /** The assumed bcrypt contract: a digest verifies exactly the password it
      was made from, whatever the salt. */
  lemma VerifyHash(p: string, q: string, salt: nat)
    ensures Verify(q, Hash(p, salt)) <==> q == p
  {
  }

  datatype Role = UserRole | AiRole

  datatype User = User(id: UserId, name: string, email: string, password: Digest)

  datatype Conversation = Conversation(id: ConversationId, userId: UserId, subject: string, title: string)

  datatype Message = Message(id: int, conversationId: ConversationId, role: Role, content: string)

  /** Users keyed by id with an email index; conversations keyed by id; each
      conversation's messages as an append-only sequence; the next serial id
      of each table. */
  datatype Store = Store(
    users: map<UserId, User>,
    emails: map<string, UserId>,
    conversations: map<ConversationId, Conversation>,
    messages: map<ConversationId, seq<Message>>,
    nextUserId: nat,
    nextConversationId: nat,
    nextMessageId: nat)

  const Empty: Store := Store(map[], map[], map[], map[], 1, 1, 1)

  /** Rows are filed under their own id, ids are serial from 1, the email
      index is exactly the users' emails, every conversation's owner exists,
      and every message sits under the conversation it names. */
  ghost predicate Valid(s: Store) {
    && s.nextUserId >= 1 && s.nextConversationId >= 1 && s.nextMessageId >= 1
    && (forall id :: id in s.users ==> s.users[id].id == id && 1 <= id < s.nextUserId)
    && (forall e :: e in s.emails ==> s.emails[e] in s.users && s.users[s.emails[e]].email == e)
    && (forall id :: id in s.users ==> s.users[id].email in s.emails && s.emails[s.users[id].email] == id)
    && (forall id :: id in s.conversations ==>
          && s.conversations[id].id == id
          && 1 <= id < s.nextConversationId
          && s.conversations[id].userId in s.users)
    && (forall id :: id in s.messages ==> id in s.conversations)
    && (forall id, i :: id in s.messages && 0 <= i < |s.messages[id]| ==>
          && s.messages[id][i].conversationId == id
          && 1 <= s.messages[id][i].id < s.nextMessageId)
  }

  lemma EmptyIsValid()
    ensures Valid(Empty)
  {
  }

  /** `getUserByEmail`. */
  function GetUserByEmail(s: Store, email: string): (r: Option<User>)
    ensures Valid(s) ==> (r.Some? <==> exists id :: id in s.users && s.users[id].email == email)
    ensures Valid(s) && r.Some? ==> r.value.email == email && r.value.id in s.users && s.users[r.value.id] == r.value
  {
    if email in s.emails && s.emails[email] in s.users then
      var id := s.emails[email];
      assert Valid(s) ==> s.users[id].email == email && s.users[id].id == id;
      Some(s.users[id])
    else
      assert Valid(s) ==> forall id :: id in s.users ==> s.users[id].email != email;
      None
  }

  /** `getUser`. */
  function GetUser(s: Store, id: UserId): (r: Option<User>)
    ensures r.Some? <==> id in s.users
    ensures r.Some? ==> r.value == s.users[id]
  {
    if id in s.users then Some(s.users[id]) else None
  }

  /** `createUser`: inserts a user under the next serial id.  An email that
      is already present is refused. */
  function CreateUser(s: Store, name: string, email: string, password: Digest): (r: Result<(Store, User), string>)
    ensures r.Failure? <==> email in s.emails
    ensures r.Success? ==>
      var (s', u) := r.value;
      && u == User(s.nextUserId, name, email, password)
      && s'.users == s.users[u.id := u]
      && s'.emails == s.emails[email := u.id]
      && s'.conversations == s.conversations && s'.messages == s.messages
      && s'.nextConversationId == s.nextConversationId && s'.nextMessageId == s.nextMessageId
    ensures Valid(s) && r.Success? ==> r.value.1.id !in s.users && Valid(r.value.0)
  {
    if email in s.emails then Failure("duplicate email")
    else
      var u := User(s.nextUserId, name, email, password);
      var s' := s.(users := s.users[u.id := u], emails := s.emails[email := u.id], nextUserId := s.nextUserId + 1);
      Success((s', u))
  }

  /** `getConversation`. */
  function GetConversation(s: Store, id: ConversationId): (r: Option<Conversation>)
    ensures r.Some? <==> id in s.conversations
    ensures r.Some? ==> r.value == s.conversations[id]
    ensures Valid(s) && r.Some? ==> r.value.id == id
  {
    if id in s.conversations then Some(s.conversations[id]) else None
  }

  /** `createConversation`: inserts under the next serial id.  An owner that
      does not exist is refused. */
  function CreateConversation(s: Store, userId: UserId, subject: string, title: string): (r: Result<(Store, Conversation), string>)
    ensures r.Failure? <==> userId !in s.users
    ensures r.Success? ==>
      var (s', c) := r.value;
      && c == Conversation(s.nextConversationId, userId, subject, title)
      && s'.conversations == s.conversations[c.id := c]
      && s'.users == s.users && s'.emails == s.emails && s'.messages == s.messages
      && s'.nextConversationId > c.id
    ensures Valid(s) && r.Success? ==> r.value.1.id !in s.conversations && Valid(r.value.0)
  {
    if userId !in s.users then Failure("unknown user")
    else
      var c := Conversation(s.nextConversationId, userId, subject, title);
      Success((s.(conversations := s.conversations[c.id := c], nextConversationId := s.nextConversationId + 1), c))
  }

  /** The conversations owned by `userId` with ids in [k, nextConversationId),
      in ascending id order. */
  function OwnedFrom(s: Store, userId: UserId, k: nat): (r: seq<Conversation>)
    requires k >= 1
    ensures forall i :: 0 <= i < |r| ==> r[i] in s.conversations.Values && r[i].userId == userId
    ensures Valid(s) ==> forall i :: 0 <= i < |r| ==> k <= r[i].id && r[i].id in s.conversations && s.conversations[r[i].id] == r[i]
    ensures Valid(s) ==> forall i, j :: 0 <= i < j < |r| ==> r[i].id < r[j].id
    ensures Valid(s) ==> forall id :: id in s.conversations && k <= id && s.conversations[id].userId == userId ==>
      s.conversations[id] in r
    decreases s.nextConversationId - k
  {
    if k >= s.nextConversationId then []
    else
      var rest := OwnedFrom(s, userId, k + 1);
      if k in s.conversations && s.conversations[k].userId == userId then [s.conversations[k]] + rest
      else rest
  }

  /** `getUserConversations`: exactly the user's conversations, oldest first. */
  function GetUserConversations(s: Store, userId: UserId): (r: seq<Conversation>)
    ensures forall i :: 0 <= i < |r| ==> r[i] in s.conversations.Values && r[i].userId == userId
    ensures Valid(s) ==> forall id :: id in s.conversations && s.conversations[id].userId == userId ==>
      s.conversations[id] in r
    ensures Valid(s) ==> forall i, j :: 0 <= i < j < |r| ==> r[i].id < r[j].id
  {
    OwnedFrom(s, userId, 1)
  }

  /** `createMessage`: appends to the conversation's sequence under the next
      serial id.  A conversation that does not exist is refused. */
  function CreateMessage(s: Store, conversationId: ConversationId, role: Role, content: string): (r: Result<(Store, Message), string>)
    ensures r.Failure? <==> conversationId !in s.conversations
    ensures r.Success? ==>
      var (s', m) := r.value;
      && m == Message(s.nextMessageId, conversationId, role, content)
      && GetConversationMessages(s', conversationId) == GetConversationMessages(s, conversationId) + [m]
      && (forall id :: id != conversationId ==> GetConversationMessages(s', id) == GetConversationMessages(s, id))
      && s'.users == s.users && s'.emails == s.emails && s'.conversations == s.conversations
    ensures Valid(s) && r.Success? ==> Valid(r.value.0)
  {
    if conversationId !in s.conversations then Failure("unknown conversation")
    else
      var m := Message(s.nextMessageId, conversationId, role, content);
      var s' := s.(messages := s.messages[conversationId := GetConversationMessages(s, conversationId) + [m]],
                   nextMessageId := s.nextMessageId + 1);
      Success((s', m))
  }

  /** `getConversationMessages`: the conversation's messages in creation order. */
  function GetConversationMessages(s: Store, conversationId: ConversationId): (r: seq<Message>)
    ensures Valid(s) ==> forall i :: 0 <= i < |r| ==> r[i].conversationId == conversationId
    ensures Valid(s) && conversationId !in s.conversations ==> r == []
  {
    if conversationId in s.messages then s.messages[conversationId] else []
  }
}
