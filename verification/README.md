# Rifu chat tutor: server routes and chat page, modelled in Dafny

Rifu is a subject tutor for Bangladeshi students. A signed-in student picks a
subject (বাংলা, English, ICT, physics, chemistry, higher maths, biology) and
chats in that subject's conversations; "New chat" starts another one. Each question is saved, answered by a
hosted language model, and the answer is saved too.

This project models two halves of that core and the fetch wrappers between
them.

**The Express routes** (`server/routes.ts`):
- register, login, `me` and logout;
- listing and creating conversations;
- reading and posting a conversation's messages.

Each route is a pure transition: from a request and a server state (an abstract
store plus the session) to a `Reply`. A reply holds a status, a JSON payload,
the next state, and the log of store calls made.

**The chat page** (`client/src/pages/chat.tsx`):
- sending a message;
- loading the conversation list;
- finding or creating the subject's conversation;
- starting a new chat;
- changing subject;
- what the page's first render runs.

Each handler is a pure transition from the component state and the outcomes of
the calls it awaits to the next state and the calls it made, in order.

**The fetch wrappers** (`client/src/lib/api.ts`) connect the two halves. The
lemmas in `ChatProperties` answer the page's calls with the route model. So
"the page shows what the server stored" is a statement about both sides.

The server never seeds a thread. A new conversation reads back empty (`RouteProperties.NewConversationStartsEmpty`), and the page posts the greeting itself (`ChatPage.Open`, `ChatProperties.OpenShowsServerThread`).

Modules, in dependency order:

| module | file | what it holds |
|---|---|---|
| `Wrappers` | `wrappers.dfy` | `Option`, `Result` |
| `Ecma` | `ecma.dfy` | the parts of ECMA-262 the code relies on: `parseInt` (section 19.2.5), `String.prototype.trim` (section 22.1.3.32) and its white-space set (sections 12.2 and 12.3), the decimal rendering of an integer |
| `Storage` | `storage.dfy` | the store behind `storage.*`, with serial ids and its validity invariant; bcrypt as an ideal salted digest |
| `Schema` | `schema.dfy` | JSON bodies and the structural rules of the three insert schemas |
| `Routes` | `routes.dfy` | the route handlers, the shared ownership gate, request dispatch |
| `RouteProperties` | `route_properties.dfy` | properties relating several requests |
| `Api` | `api.dfy` | `getConversations`, `createConversation`, `getMessages`, `saveMessage` against the route model |
| `ChatPage` | `chat.dfy` | the chat page's state and handlers |
| `ChatProperties` | `chat_properties.dfy` | properties of handler runs, alone and answered by the server |

## Model

| member | source | states |
|---|---|---|
| `Ecma.TrimStart` | client/src/pages/chat.tsx:120 | The result is a suffix of the input. Everything dropped is white space. The result does not start with white space. |
| `Ecma.TrimEnd` | client/src/pages/chat.tsx:120 | The mirror image: a prefix is kept, a white-space suffix is dropped, and the result does not end in white space. |
| `Ecma.Trim` | client/src/pages/chat.tsx:120 | What `trim` keeps neither starts nor ends with white space and is never longer than the input. |
| `Ecma.TrimIsSlice` | client/src/pages/chat.tsx:120 | What `trim` keeps is one contiguous slice of the input, with only white space before and after it. |
| `Ecma.TrimIsEmptyIff` | client/src/pages/chat.tsx:120 | `input.trim()` is empty exactly when every character of the input is white space. This is the send guard's notion of a blank input, in both directions. |
| `Ecma.DigitValue` | server/routes.ts:164 | A character is a decimal digit exactly when its digit value is below 10. Every value is at most 36. |
| `Ecma.DigitPrefixLength` | server/routes.ts:164 | The prefix length is exactly where the longest run of radix digits ends: every character before it is a digit, and the one at it (if any) is not. |
| `Ecma.NatDigits` | client/src/lib/api.ts:23 | A rendered natural number is a non-empty string of decimal digits. It has no leading zero unless it is "0". |
| `Ecma.NatDigitsValue` | client/src/lib/api.ts:23 | Reading the digits of `n` back in base 10 gives `n`. |
| `Ecma.DigitPrefixOfDigits` | server/routes.ts:164 | `parseInt` stops reading exactly where the digits end, whatever follows them. |
| `Ecma.ParseInt` | server/routes.ts:164 | An empty or all-white-space segment is NaN. A negative result comes only from a segment whose first non-white-space character is '-'. |
| `Ecma.ParseIntSkipsLeadingWhiteSpace` | server/routes.ts:164 | Leading white space never changes what `parseInt` returns. |
| `Ecma.ParseIntDecimalString` | server/routes.ts:164 | Take the decimal rendering of any integer and follow it with text that cannot extend the number. `parseInt` of that yields the integer. The side condition keeps "0x…", which `parseInt` reads as hexadecimal. |
| `Ecma.ParseIntRoundTrip` | server/routes.ts:193 | `parseInt` inverts the rendering of an integer. So an id the client writes into the path is the id the route reads. |
| `Ecma.ParseIntWithoutDigits` | server/routes.ts:165 | A path segment without a single decimal digit parses to NaN. This is the route's 400 "Invalid conversation ID" case. |
| `Storage.VerifyHash` | server/routes.ts:66-69 | A digest made by the register route verifies exactly the password it was made from, whatever the salt. |
| `Storage.EmptyIsValid` | server/routes.ts:3 | The empty store, taken as the state of the imported `storage` when the server starts, satisfies the store invariant. |
| `Storage.GetUserByEmail` | server/routes.ts:60 | On a valid store, a user is found exactly when some user has that email, and the one found is that stored user. |
| `Storage.GetUser` | server/routes.ts:91 | A user is found exactly when one is stored under that id, and it is that stored user. |
| `Storage.CreateUser` | server/routes.ts:29-32 | An email already present is refused. Otherwise the user is added under a fresh id and indexed by email. Conversations and messages are untouched, and the store invariant is kept. |
| `Storage.GetConversation` | server/routes.ts:170 | A conversation is found exactly when one is stored under that id, and it carries that id. |
| `Storage.CreateConversation` | server/routes.ts:146 | A dangling owner is refused. Otherwise the conversation is added under a fresh id, nothing else changes, and the invariant is kept. |
| `Storage.OwnedFrom` | server/routes.ts:126 | The list holds exactly the stored conversations the user owns, each once, in ascending id order. |
| `Storage.GetUserConversations` | server/routes.ts:126 | Every conversation listed is a stored one the user owns. On a valid store every such conversation is listed, in ascending id order. |
| `Storage.CreateMessage` | server/routes.ts:212 | A missing conversation is refused. Otherwise exactly the new message is appended to that conversation's thread, every other thread is unchanged, and the invariant is kept. |
| `Storage.GetConversationMessages` | server/routes.ts:178 | On a valid store every message returned belongs to the conversation asked for, and an unknown conversation has no messages. |
| `Schema.StrField` | server/routes.ts:17 | A field is read as a string exactly when it is present and a JSON string. |
| `Schema.IntField` | server/routes.ts:141-144 | A field is read as a number exactly when it is present and a JSON number. |
| `Schema.ParseRole` | server/routes.ts:207-210 | Exactly "user" and "ai" are roles, and naming the parsed role gives back the text. |
| `Schema.RoleRoundTrip` | server/routes.ts:207-210 | Reading back a role's wire name gives the same role. |
| `Schema.ParseUser` | server/routes.ts:17 | A body is accepted exactly when name, email and password are all strings. The parsed fields are those strings. |
| `Schema.ParseConversation` | server/routes.ts:141-144 | A body is accepted exactly when `userId` is a number and subject and title are strings. The parsed fields are those values. |
| `Schema.ParseMessage` | server/routes.ts:207-210 | A body is accepted exactly when `conversationId` is a number, the role is "user" or "ai", and the content is a string. The parsed fields are those values. |
| `Routes.InitialIsConsistent` | server/routes.ts:3 | The empty store (the assumed starting state of the imported `storage`) with no session is a consistent server state. |
| `Routes.Register` | server/routes.ts:15-48 | An invalid body gives 400 "Invalid input". A taken email gives 400 and changes nothing. Only a 201 changes state. On 201 the new user has the body's name and email, a digest that verifies the body's password, and a fresh id; the session names it; conversations and messages are untouched; the reply leaves out the password. 201 happens exactly for a valid body with a fresh email. Consistency is kept. |
| `Routes.Login` | server/routes.ts:51-82 | The status is always 200, 400 or 401. 400 is returned exactly when a field is missing. A 401 is the same reply for an unknown email and for a wrong password, and it changes nothing. On a valid store, 200 happens exactly when some user with that email has a digest that verifies the password. Then the session names that user and the reply is that user without the password. |
| `Routes.Me` | server/routes.ts:85-104 | 401 exactly without a session, 404 exactly when the session's user is gone, otherwise 200 with the stored user minus the password. The state never changes. |
| `Routes.Logout` | server/routes.ts:107-115 | 500 exactly when the session store fails to destroy the session, 200 otherwise; on 200 the session no longer names a user. The store is never touched and no store call is made. |
| `Routes.ListConversations` | server/routes.ts:120-132 | 401 exactly without a session. Otherwise 200 with exactly the signed-in user's conversations, in id order. The state never changes. |
| `Routes.PostConversation` | server/routes.ts:135-155 | 401 exactly without a session, and 400 exactly when subject or title is missing. On 201 the owner is the session user, never the body's, and the new conversation is stored under a fresh id. Nothing else changes, and from a consistent state there is no 500. |
| `Routes.Authorize` | server/routes.ts:160-176 | The shared gate, in source order. 401 exactly without a session. 400 exactly when the path is not a number. 404 exactly when no such conversation exists. 403 exactly when someone else owns it. Otherwise access is granted to the owner for the parsed id. The only store read is a lookup of the parsed id, and it is made exactly when the session and the path id have passed, so a 401 or a 400 never reaches the store. |
| `Routes.GetMessages` | server/routes.ts:158-184 | A denied gate's status and error are returned as they are. 200 happens exactly when the gate grants, with that conversation's messages in creation order. The messages are read only on 200, and the state never changes. |
| `Routes.PostMessage` | server/routes.ts:187-205 | A denied gate's reply is returned, and nothing is written whatever the body. A granted request goes on to the append step. |
| `Routes.AppendMessage` | server/routes.ts:207-221 | 400 exactly when the content or a valid role is missing. On 201 the message sits in the path's conversation with the body's role and content, appended after the existing ones, and every other thread is untouched. A write is attempted only after validation succeeds. Consistency is kept. |
| `Routes.Handle` | server/routes.ts:8-224 | Every route keeps the server consistent. From a consistent state the only 500 is a failed session destroy. Only a 201 ever changes the store. |
| `RouteProperties.RegisterTwiceRefused` | server/routes.ts:19-23 | After a successful registration, registering the same body again is refused with 400 and changes nothing, whatever salt is drawn. |
| `RouteProperties.RegisterThenLogin` | server/routes.ts:15-82 | A user who just registered can sign in with the same email and password. Sign-in returns the identity registration returned and sets the same session. |
| `RouteProperties.LoginFailuresIndistinguishable` | server/routes.ts:59-69 | An unknown email and a wrong password get the same status, the same body and the same (unchanged) state. |
| `RouteProperties.CreateConversationIgnoresBodyOwner` | server/routes.ts:141-144 | Whatever `userId` a body carries, creating a conversation behaves as if the body carried none. |
| `RouteProperties.PostMessageIgnoresBodyConversation` | server/routes.ts:207-210 | Whatever `conversationId` a body carries, the message goes to the conversation in the path. |
| `RouteProperties.ForeignPostForbidden` | server/routes.ts:198-205 | Posting to another user's conversation gives 403 for every body, valid or not. Nothing is written and only the ownership lookup is made. Reading it is 403 too. |
| `RouteProperties.GetMessagesIdempotent` | server/routes.ts:158-184 | Reading a thread twice gives the same answer twice. |
| `RouteProperties.PostOne` | server/routes.ts:187-221 | One valid post by the owner succeeds and appends exactly its message. It leaves the gate open for the next post. |
| `RouteProperties.PostAllAppends` | server/routes.ts:187-221 | Posting N valid bodies in turn to one's own conversation: the thread becomes the old thread followed by N messages, one per body, in posting order. Each message carries its body's role and content. Consistency, the session and the conversations are kept. |
| `RouteProperties.SameGate` | server/routes.ts:160-176 | The gate depends only on the session and the conversations table, so writing messages never changes its verdict. |
| `RouteProperties.PostAllThenGet` | server/routes.ts:158-221 | Posting N valid messages and then reading the thread returns 200 with the earlier messages followed by exactly the N new ones, in order. |
| `RouteProperties.NewConversationStartsEmpty` | server/routes.ts:135-184 | A just-created conversation reads back as 200 with an empty thread: the server never adds a greeting itself. |
| `Api.IdSegment` | client/src/lib/api.ts:23 | The id the client writes into the path parses back to the same id on the server. |
| `Api.GetConversations` | client/src/lib/api.ts:3-9 | Resolves exactly for a signed-in caller, to the caller's stored conversations, all of them. Otherwise it throws "Failed to fetch conversations". The server never changes. |
| `Api.CreateConversation` | client/src/lib/api.ts:11-20 | Resolves for a signed-in caller against a consistent server, to a fresh conversation with the subject and title sent, owned by the caller. No message is added. A failure changes nothing. |
| `Api.GetMessages` | client/src/lib/api.ts:22-28 | Resolves exactly on the caller's own conversations, to the stored thread. Otherwise it throws "Failed to fetch messages". The server never changes. |
| `Api.SaveMessage` | client/src/lib/api.ts:30-39 | Resolves exactly on the caller's own conversations, to a message with the role and content sent. The server's thread becomes the old one plus that message, and no other thread changes. Otherwise it throws "Failed to save message" and changes nothing. |
| `Api.PostToOwned` | client/src/lib/api.ts:30-39 | The POST `saveMessage` makes to one's own conversation gets a 2xx reply carrying the message asked for, appended to that conversation. |
| `Api.PostToForeign` | client/src/lib/api.ts:30-39 | The same POST to any other conversation gets a non-2xx reply and changes nothing. |
| `Api.SavePost` | client/src/lib/api.ts:30-39 | The POST `saveMessage` makes gets a 2xx reply carrying a message exactly when the caller owns the conversation. Then exactly that message is appended to that thread alone. Otherwise the server is unchanged. |
| `Api.OwnedGate` | server/routes.ts:189-205 | The server's gate admits the client's request exactly when the caller owns the conversation it names. |
| `Api.MessageBodyFields` | client/src/lib/api.ts:35 | The body `saveMessage` sends passes the message schema with the role and content given. |
| `ChatPage.UserContent` | client/src/pages/chat.tsx:130-131 | The saved user text is the untrimmed input. " [Image Attached]" is appended exactly when an image is attached. |
| `ChatPage.CanSend` | client/src/pages/chat.tsx:120 | A send goes ahead exactly when a conversation is open and either the input has a character that is not white space or an image is attached. |
| `ChatPage.ErrorText` | client/src/pages/chat.tsx:149 | The error reply always starts with the apology prefix. It ends with the error's message, or "Unknown Error" when the message is empty. |
| `ChatPage.ChatTitle` | client/src/pages/chat.tsx:74 | A conversation's title begins with its subject's name. |
| `ChatPage.DisplayName` | client/src/pages/chat.tsx:86 | The name the greeting uses is never empty: the user's name when it is non-empty, the guest name "বন্ধু" otherwise. |
| `ChatPage.WelcomeText` | client/src/pages/chat.tsx:82-88 | The greeting seeded into an empty conversation addresses the user by that display name, right after its opening word. |
| `ChatPage.NewChatText` | client/src/pages/chat.tsx:181 | The greeting seeded into a new chat names the subject, right after its opening word. |
| `ChatPage.BeginSend` | client/src/pages/chat.tsx:122-126 | Before the first await: the input and image are cleared, the busy flag is raised, and nothing else changes. `SendTurn` states that this is the state its first call is awaited in. |
| `ChatPage.Recover` | client/src/pages/chat.tsx:147-161 | After any failed step, exactly one error reply is saved. It is shown only if that save succeeded. The busy flag always comes down. |
| `ChatPage.Respond` | client/src/pages/chat.tsx:136-146 | With a key, the provider is asked with the raw input (no image marker) and the subject's name, and its text is what the AI save carries. Without a key, the fallback text stands in for the reply and the provider is never asked. The last call always saves an AI message, and at most one more message is shown. If the provider fails, or the save of its reply fails, exactly one error reply built from that error is saved next, and it is shown only if that save succeeds. Every call is awaited with the input cleared, the busy flag up and the user's message shown. |
| `ChatPage.SendTurn` | client/src/pages/chat.tsx:128-161 | The user's text is saved first. The turn always ends by saving an AI message. The thread only grows, by at most two, keeping what was shown. Input and image end cleared and the page ends idle. If the user's message cannot be saved, the provider is not asked and only an error reply is attempted. The first call is awaited in the state `BeginSend` gives. Every call is awaited with the input and image cleared and the busy flag up; meanwhile the thread shows at most the user's saved message. |
| `ChatPage.HandleSend` | client/src/pages/chat.tsx:119-162 | A send is a no-op (no call, no change) exactly when the input is all white space and no image is attached, or when no conversation is open. Otherwise it runs a send turn. The busy flag is up while any of its calls is awaited, so no second send can start then. |
| `ChatPage.LoadConversations` | client/src/pages/chat.tsx:60-67 | A fetched list replaces the page's list. A failed fetch leaves the page unchanged. The request is awaited from the state the page was in. |
| `ChatPage.FirstOfSubject` | client/src/pages/chat.tsx:71 | The position returned is the first conversation of the subject, or the list's length when there is none. |
| `ChatPage.FindBySubject` | client/src/pages/chat.tsx:71 | Nothing is found exactly when no conversation has the subject. Otherwise the one found is the earliest with that subject. |
| `ChatPage.Open` | client/src/pages/chat.tsx:78-91 | The conversation becomes current and its thread is fetched. A non-empty thread is shown as fetched. An empty one is seeded with the personal greeting. A failed fetch shows nothing new. Its calls are awaited with the conversation already current and the old thread still shown. |
| `ChatPage.LoadOrCreateConversation` | client/src/pages/chat.tsx:69-95 | An existing conversation of the subject is reused without creating one. Only when none is listed is one created, titled "‹subject› চ্যাট" and appended to the list. The new one is then opened the same way: made current, fetched, and seeded when empty. A failed creation changes nothing. |
| `ChatPage.HandleNewChat` | client/src/pages/chat.tsx:172-187 | Always creates a conversation for the selected subject. On success it is appended, made current and seeded with the new-chat greeting. A failed creation changes nothing. The greeting is awaited with the new conversation already listed and current. |
| `ChatPage.HandleSubjectChange` | client/src/pages/chat.tsx:164-170 | Selects the subject and empties the thread. Nothing else changes. |
| `ChatPage.SelectSubjectAsWritten` | client/src/pages/chat.tsx:97-101 | Clicking the selected subject runs no effect and only empties the thread. A different subject, with a user signed in, is found or created. |
| `ChatPage.SelectSubject` | client/src/pages/chat.tsx:97-101 | A click by a signed-in user always finds or creates the subject's conversation, including when the subject was already selected. |
| `ChatPage.MountAsWritten` | client/src/pages/chat.tsx:47-101 | On first render with a user, the page asks to create a conversation of the first subject whatever the server already holds. The new one becomes current and is listed after the fetched ones. Both first requests go out from the initial state. |
| `ChatPage.Mount` | client/src/pages/chat.tsx:47-101 | With the list awaited first, no conversation is created when the server already has one of the first subject. |
| `ChatProperties.SmoothSend` | client/src/pages/chat.tsx:119-162 | A send whose calls all succeed makes exactly this sequence of calls: save the user's text, ask the provider (only with a key), save the reply (the fallback text without a key). It shows exactly those two messages after the old thread. |
| `ChatProperties.SmoothRespond` | client/src/pages/chat.tsx:136-146 | The reply stage of such a send makes exactly one or two calls. It shows the reply after the user's message. |
| `ChatProperties.TwoSaves` | client/src/lib/api.ts:30-39 | Two saves in a row to one's own conversation both succeed. The server's thread grows by exactly those two messages, in order. |
| `ChatProperties.SendShowsWhatServerStored` | client/src/pages/chat.tsx:133-146 | A send answered by the server shows exactly the two messages the server appended, in the order it stored them. |
| `ChatProperties.SendToForeignConversationShowsNothing` | client/src/pages/chat.tsx:147-158 | A send to a conversation the user does not own has both saves refused. The thread is unchanged, and the attempted error reply reads "… Failed to save message". |
| `ChatProperties.SendAllAppendsTurns` | client/src/pages/chat.tsx:119-162 | Sending non-blank inputs one after another, every call succeeding: the thread grows by each turn's user message and reply, in order. The page ends idle in the same conversation. |
| `ChatProperties.TypeAndSend` | client/src/pages/chat.tsx:119-162 | Typing a non-blank input and sending it with every call succeeding shows that turn's two messages. |
| `ChatProperties.OpenShowsServerThread` | client/src/pages/chat.tsx:69-95 | Opening a subject against the server leaves a conversation of that subject current. The thread shown is exactly the server's thread for it and is never empty. The list still mirrors the server. |
| `ChatProperties.CreatedIsListed` | client/src/pages/chat.tsx:74-75 | A conversation the server just created joins the page's list, and the list still mirrors the server. |
| `ChatProperties.OpenOwned` | client/src/pages/chat.tsx:78-91 | For an owned conversation, the fetch and the optional greeting leave the page showing exactly the server's non-empty thread. |
| `ChatProperties.LoadedListIsListed` | client/src/pages/chat.tsx:60-67 | A list loaded from the server holds only the server's own records of the user's conversations. |
| `ChatProperties.NewChatShowsServerThread` | client/src/pages/chat.tsx:172-187 | A new chat leaves the server holding a fresh conversation of the subject whose only message is the new-chat greeting. That single message is what the page shows. |
| `ChatProperties.ReselectEmptiesThread` | client/src/pages/chat.tsx:164-170 | Clicking the already-selected subject as the component runs it empties the thread and makes no call to reload it. |
| `ChatProperties.ReselectShowsServerThread` | client/src/pages/chat.tsx:97-101 | With the reload always run, the same click leaves the server's non-empty thread on screen. |
| `ChatProperties.MountAsWrittenDuplicates` | client/src/pages/chat.tsx:69-101 | A user who already has a conversation of the first subject gets a second one on page load. The new one is current, and both are listed. |
| `ChatProperties.MountReusesExisting` | client/src/pages/chat.tsx:47-101 | With the list awaited first, the existing conversation is current, no conversation is created, and the list is the server's. |

## Left out

- Network, database and provider failures are outcomes passed in as `Result`s. Which failures happen, and when, is not modelled.
- The 500 replies the routes give when `storage` or bcrypt throws are not modelled. The store operations are total. They refuse only what a relational store with a unique email column and foreign keys would refuse, and the handlers turn those refusals into 500s. From a consistent state those refusals are proved unreachable.
- `server/storage` and `shared/schema` are not part of this model:
  - the store is a record of maps with serial ids from 1;
  - the imported `storage` (routes.ts:3) is assumed to start empty;
  - `getUserConversations` is assumed to return a user's conversations in ascending id order. That order decides which conversation `conversations.find` reuses (chat.tsx:71);
  - the insert schemas are represented by their structural rules (required string or number fields; a role of "user" or "ai"; unknown fields dropped).
- Zod's `details` array in 400 replies is omitted.
- `Routes.Login`: the email and password fields are modelled as strings or absent. A non-string JSON value there, which the route would hand on to `getUserByEmail` and bcrypt, is outside the model.
- `Ecma.ParseIntDecimalString`: only integers are rendered. Ids are serial integers, so the double rounding `parseInt` applies above 2^53 is not modelled, and -0 is folded into 0.
- Strings are sequences of Unicode scalar values, not UTF-16 code units.
- bcrypt's 72-byte truncation and its cost factor are not modelled. The salt is a parameter.
- The session store's `destroy` callback error is a parameter of `Routes.Logout`.
- Concurrency between handlers is not modelled. Each handler runs to completion on the state it started from, and `Step.during` records the state the page shows while each of its calls is awaited. Every such state of a send has the busy flag up (`HandleSend`), and `HandleSend` requires the flag down, because the input and the send button are disabled while the page is busy (chat.tsx:456 and :466). So a second send cannot start while one is in flight. The camera button and the other handlers are not disabled, and their interleavings with an awaiting handler are not modelled.
- `ChatPage.MountAsWritten` fixes one interleaving of the first render's two effects: the list request resolves first.
- `generateAIResponse` (`client/src/lib/gemini.ts`) is an outcome. It takes three parameters, so the image the page passes as a fourth argument (chat.tsx:142) never reaches it, and `GenerateCall` records three fields.
- The page's initial API key is a literal in the source. The model uses a placeholder non-empty constant, `DefaultApiKey`: only whether a key is present affects the logic. Saving a key from the settings dialog (`handleSaveApiKey`) is not modelled.
- The presentation and its handlers are not modelled:
  - sidebars and their window-width checks;
  - scrolling and markdown rendering;
  - the settings dialog;
  - reading an image file (`handleImageSelect`), which only sets `image`.
- `client/src/lib/auth.tsx`, `client/src/pages/login.tsx`, `client/src/App.tsx` and `script/debug.js` are not part of this model. The signed-in user's name is a field of the page state.

## Findings

| source | as written | input that shows it | evidently intended | confidence | as-written member | corrected member |
|---|---|---|---|---|---|---|
| client/src/pages/chat.tsx:164-170 | `handleSubjectChange` empties the thread. Reloading relies on the effect keyed on `[selectedSubject, user]`, and that effect does not run when the clicked subject is already selected. | A signed-in user with a thread on screen clicks the subject that is already selected. | The subject's thread is shown again. | high; not executed | `ChatProperties.ReselectEmptiesThread` | `ChatProperties.ReselectShowsServerThread` |
| client/src/pages/chat.tsx:69-101 | On first render, `loadOrCreateConversation` searches the `conversations` captured by that render. That list is still empty, because `loadConversations` has not resolved. | A signed-in user who already has a বাংলা conversation opens the chat page. | The existing conversation of the first subject is reused. | high; not executed | `ChatProperties.MountAsWrittenDuplicates` | `ChatProperties.MountReusesExisting` |
