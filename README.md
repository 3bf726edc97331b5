# LINE client session model

A Dafny model of the client-side state of a LINE messenger session as kept by
`LineClient` in `line/line.py`. It covers:

- the revision cursor `_rev`;
- the conversation store, a map from conversation id to that conversation's
  message buffer, with index 0 the most recent message;
- the contact directory, a map from member id (`mid`) to contact;
- the transport headers that login installs.

The Thrift remote calls are parameters. Each one stands for what the server
returns to that call:

- `fetchOperations(rev, count)` is a function `(int, int) -> FetchResult`;
- `getRecentMessages(group, count)` is a `History`, `(Mid, int) -> seq<Message>`;
- `sendMessage(seq, msg)` is a function `(int, OutgoingMessage) -> Message`;
- the login result, `getLastOpRevision`, `getAllContactIds`, `getContacts` and
  `getProfile` are plain values or functions.

The model is sequential. Locks are dropped.

Files, one module each:

- `wrappers.dfy`: Result and Outcome. A failure stands for a raised exception.
- `line_types.dfy`: messages, contacts, operations, fetch and login results, events, errors.
- `conversation_store.dfy`: `last_messages`, `_add_to_conversation`,
  `update_conversation` and `conversation`, as functions on the store.
- `sync.dfy`: `long_poll` as functions on the cursor and the store. It also
  holds the lemmas about a processed batch.
- `directory.dfy`: the rebuild done by `update_contacts`, plus `mid_to_contact`
  and `find_contact`.
- `session.dfy`: the application id, the transport headers, and how `_login`
  classifies a login result.
- `messages.dfy`: `image_preview`, `sender` and `recipient`.
- `client.dfy`: class `LineClient` with the fields above. Its methods update
  the fields in place, and each is proved against the functions of the other modules.

Three details of the conversation store:

- `_add_to_conversation` seeds an unseen conversation with
  `getRecentMessages(group, 20)` (line/line.py:397), not with
  `DEFAULT_INITIAL_HISTORY`.
- It does not prepend the triggering message to that new conversation. The
  message is still returned, and `long_poll` still emits its event.
  See `ConversationStore.Added` and `Sync.UnseenConversation`.
- The default depth of 15 (`DEFAULT_INITIAL_HISTORY`) applies only to `update_conversation`.

## Model

| member | source | states |
|---|---|---|
| `ConversationStore.LastMessages` | line/line.py:97-108 | the result is a prefix of the buffer; it is the whole buffer when n <= 0, and otherwise it has length min(n, buffer length) |
| `ConversationStore.Added` | line/line.py:383-402 | on an existing conversation, the message is at index 0 and the old messages follow in their order; an unseen conversation is created holding exactly the 20-message fetch, without the message; the key set grows by exactly that id; every other conversation is unchanged |
| `ConversationStore.Replaced` | line/line.py:361-381 | get-or-create: the key set grows by exactly that id; the buffer becomes the fetch of depth initialHistory when that depth is > 0, and empty otherwise; every other conversation is unchanged |
| `ConversationStore.Lookup` | line/line.py:352-359 | succeeds exactly when the id (or the contact's mid) is registered, and returns that id; otherwise fails with NotFound and creates nothing |
| `ConversationStore.ReplaceThenSnapshot` | line/line.py:373-379 | replacing the history with a fetch of depth k > 0, then taking k messages, gives back the fetched messages in order, provided the server returned at most k |
| `ConversationStore.AddedIsMostRecent` | line/line.py:399-400 | a message added to an existing conversation is what a snapshot of depth 1 returns |
| `Sync.Poll` | line/line.py:230-273 | EOF and session codes other than 8 yield no events and change nothing; code 8, and only code 8, fails with LoggedInElsewhere and changes nothing; for a fetched batch the cursor is the maximum of its old value and every revision, the events are exactly `MessageEvents` of the operations, the key set grows by exactly `Touched`, every conversation outside `Touched` keeps its buffer, and every existing conversation gains the batch's messages keyed to it, latest first, in front of its old buffer. It is stated over `Sync.ProcessAll`, the fold of `Sync.Step` (one branch of the operation dispatch per kind) over the batch |
| `Sync.RevisionIsMax` | line/line.py:241-273 | after a batch, the cursor is the maximum of its initial value and every operation's revision, whatever order the revisions arrive in |
| `Sync.RevisionMonotone` | line/line.py:273 | the cursor after a longer prefix of the batch is never below the cursor after a shorter one; it is updated per operation |
| `Sync.EventsInOrder` | line/line.py:250-261 | the events are one `(EVENT_NEW_MESSAGE, conversation, message)` per SEND_MESSAGE or RECEIVE_MESSAGE operation, in operation order; the conversation is `to` for a sent message and `frm` for a received one |
| `Sync.OnlyTouchedChange` | line/line.py:250-261 | the batch's key set is the old key set plus the conversations that message operations name; every conversation no message operation names keeps its buffer |
| `Sync.ExistingConversation` | line/line.py:250-261 | a conversation present before the batch afterwards holds every message the batch keys to it (`to` of a sent, `frm` of a received one), latest first, followed by its old buffer |
| `Sync.UnseenConversation` | line/line.py:389-400 | for a batch pre + [op] + post in which op is the first message operation keyed to an unseen conversation g, g ends up holding the later messages keyed to it, latest first, followed by the 20-message fetch; the message of op is not prepended, so it is in the buffer only if the fetch returns it |
| `Sync.IgnoredOpsOnlyAdvance` | line/line.py:246-273 | a batch of only END_OF_OPERATION, RECEIVE_MESSAGE_RECEIPT and unknown operations yields no event and leaves the store unchanged, however often such operations repeat |
| `Sync.OutOfOrderRevisions` | line/line.py:241-273 | for revisions 5, 3 and 7 in that order and a starting cursor of at most 7, the cursor ends at 7, and the events come in operation order rather than sorted by revision |
| `Directory.ContactMap` | line/line.py:328-329 | every contact is filed under its own mid |
| `Directory.ContactMapKeys` | line/line.py:328-329 | the keys of the rebuilt map are exactly the fetched contacts' mids |
| `Directory.ContactMapLastWins` | line/line.py:328-329 | a contact that no later contact shares a mid with is the entry for that mid |
| `Directory.Rebuilt` | line/line.py:325-336 | the keys are exactly the fetched mids plus the profile's mid; the profile wins on a collision; every other mid keeps its last fetched contact; the map is well keyed |
| `Directory.Lookup` | line/line.py:349-350 | succeeds exactly when the mid is present, returning the directory's entry for it; otherwise fails with NotFound; in a well-keyed directory the contact found has that mid |
| `Directory.Lower` | line/line.py:322-323 | lower-casing keeps the length and maps each character by itself |
| `Directory.IsSubstringIff` | line/line.py:322-323 | the scan behind Python's `in` succeeds exactly when the query occurs at some position of the text |
| `Directory.Find` | line/line.py:321-323 | exactly the directory's contacts whose lowered display name contains the lowered query |
| `Directory.FindIgnoresQueryCase` | line/line.py:321-323 | searching for a query and for its lower-cased form gives the same contacts |
| `Session.LoginOutcome` | line/line.py:310-314 | only result type 1 succeeds; type 3 fails with PinRequired; any other type fails with LoginFailed carrying that type |
| `Messages.ImagePreview` | line/line.py:61-67 | succeeds exactly on an image message, returning its preview bytes; otherwise fails with NotAnImage |
| `Messages.Sender` | line/line.py:45-47 | succeeds exactly when `frm` is in the directory, returning the directory's entry for `frm`; fails with NotFound when the directory lacks it |
| `Messages.Recipient` | line/line.py:49-51 | succeeds exactly when `to` is in the directory, returning the directory's entry for `to`; fails with NotFound when the directory lacks it |
| `Client.LineClient.constructor` | line/line.py:186-191 | both transports carry the application id and the placeholder access token "x"; the conversation store is empty; the cursor, the directory and the profile are placeholders (0, empty, a blank contact) that `Open` overwrites, since the source sets them only at line/line.py:196-199 |
| `Client.LineClient.Open` | line/line.py:193-199 | a rejected login yields its error and no client; otherwise the token is on both transports, the cursor is the server's last revision, and the store is empty. `getProfile` is called twice, once by `update_contacts` (line/line.py:334) and once by the constructor (line/line.py:199): the directory is `Directory.Rebuilt` of the fetched contacts and the first profile, the profile field is the second, and, given the two share a mid, the client is connected exactly when they agree |
| `Client.LineClient.Myself` | line/line.py:338-343 | succeeds exactly when the profile's mid is in the directory, returning that entry; otherwise fails with NotFound of that mid; in a well-keyed directory the entry found has the profile's mid; once connected, the result is the profile itself |
| `Client.LineClient.Login` | line/line.py:310-319 | the result is `Session.LoginOutcome`; only on success are both transports' headers set to the application id and the auth token; on failure they are unchanged |
| `Client.LineClient.UpdateContacts` | line/line.py:325-336 | the directory becomes `Directory.Rebuilt` of `getContacts(getAllContactIds)` and the profile; the user's own entry is the profile; every other method keeps that invariant |
| `Client.LineClient.UpdateConversation` | line/line.py:361-381 | the store becomes `Replaced` of the old store; the depth defaults to 15 |
| `Client.LineClient.AddToConversation` | line/line.py:383-402 | the store becomes `Added` of the old store; returns the conversation id and the message |
| `Client.LineClient.SendMessage` | line/line.py:404-407 | the message the server returns for `(seq, msg)` is added to the conversation by the same path, with seq defaulting to 0 |
| `Client.LineClient.SendText` | line/line.py:119-125 | the text, addressed to the conversation itself, is sent with seq 0, and the server's message is added to that conversation |
| `Client.LineClient.LongPoll` | line/line.py:212-273 | fetches with the current cursor and batch size 50; the new cursor, the new store and the result equal `Sync.Poll` of the old state and that fetch; the loop keeps the state equal to `Sync.ProcessAll` of the operations applied so far |

## Left out

- Thrift and HTTP transport construction (`_getclient`) is left out. Only the headers it installs are modelled.
- Locks and the commented-out background thread are left out. The model is sequential.
- `long_poll` is a generator. The model consumes the whole batch at once. A
  consumer that stops early leaves the cursor behind the last yielded message
  operation, and the model does not capture that.
- Remote-call failures other than those of `fetchOperations` are left out,
  because every other remote call is taken to succeed. This includes the
  `TalkException` translation in the constructor (line/line.py:200-204).
  `fetchOperations` exceptions other than `EOFError` and `TalkException` would
  propagate unhandled; they are not modelled either.
- `LineConversation` objects are modelled by their conversation id. The store
  holds each buffer directly. Object identity and aliasing of conversation
  handles are not modelled: one instance per id holds because the store is a map.
- `find_contact` returns a list in dictionary iteration order. `Directory.Find` returns the set of matching contacts.
- `Directory.Lower`: lower-cases ASCII letters only, not the full Unicode case mapping of Python's `str.lower`.
- The numeric Thrift operation codes are not modelled. They live in the
  generated `linethrift` module, which is not part of this model. Operation
  kinds are a datatype, and every kind the client does not handle is `Unhandled`.
- `send_time` (`datetime.fromtimestamp`) is left out. It involves float
  division and local time; `createdTime` is kept as an opaque integer.
- `mark_read` and `fetch_picture` are left out. They are stubs with no behaviour.
- `LineContact.send_message` passes the message where a group is expected
  (line/line.py:153). That path is not modelled.
- The `contacts` property is left out. It is a plain read of the directory's values.
- Logging, `__str__`/`__repr__`, setup.py and line/__init__.py are left out.
