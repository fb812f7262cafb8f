# Chat session model

A Dafny model of the session logic of a WebSocket group-chat server: the `ChatUser` class
that stands for one client connection. A session is bound to one room when it is created,
has a display name that is null until the client sends a join request, and interprets the
client's requests:

- `join` sets the name, adds the session to its room and broadcasts the note
  `<name> joined "<room>".`;
- `chat` broadcasts the text, verbatim, under the current name (null before a join);
- `get-joke` sends this client alone a chat line from `Server` holding the joke provider's
  joke, or `Error: couldn't get a joke!` when the provider failed;
- `get-members` sends this client alone a chat line from `Server` holding
  `In this room: ` followed by the members' names in the room's order, joined by `, `;
- any other type raises the error `bad message: <type>` and changes nothing.

When the connection closes, the session leaves its room and broadcasts
`<name> left "<room>".`, also when it never joined (the name is then rendered `null`).
Sending to the client is best effort: a failure of the transport is discarded.

Layout:

- `wrappers.dfy` (`Wrappers`): `Option` (a value that may be null) and `Outcome` (a call that
  completes or throws).
- `text.dfy` (`Text`): the text a session produces. JavaScript renders null as `null` in a
  template literal (`Show`) and as the empty string in `Array.prototype.join` (`Entry`); both
  renderings are modelled. `Join` is `Array.prototype.join`, and `Split` cuts at `, ` so that
  the member list can be read back.
- `protocol.dfy` (`Protocol`): the parsed inbound request `Msg`, the outbound `Event`
  (`Note` or `ChatEv`, whose sender may be null) and `Classify`, the chain of comparisons on
  the request's `type`.
- `chat.dfy` (`Chat`): the classes `Room`, `Connection` (the client's send function) and
  `ChatUser`, and three client methods (`LobbyScenario`, `MembersScenario`,
  `StrangerScenario`) that check a short session against the contracts.

`Room.js` is not part of this model. `Room` gives the session only what it uses: a `name`, a
duplicate-free `members` sequence in the room's iteration order, and `Join`, `Leave` and
`Broadcast`, where a broadcast is recorded as one more entry of the room's `log`, the event
together with the members it is addressed to, instead of being fanned out to the members'
connections. The three contracts of `Room` are ASSUMPTIONS, chosen to match a JavaScript
`Set` of members: `Join` of a session adds it once, at the end of the iteration order (a
second join changes nothing), `Leave` of a session that is not a member changes nothing, and
`Broadcast` is addressed to the members present when it is called. Under that last
assumption, because a join is made before its note is broadcast, the joiner hears its own
note; because a leave is made before its note is broadcast, the leaver does not.

The model follows the code, which lets a session chat, ask for a joke or for the members
before it has joined (its name is then null), lets a second join replace the name, and
announces a leave under the name `null` for a session that never joined.

## Model

| member | source | states |
|---|---|---|
| `Chat.ChatUser.constructor` | ChatUser.js:12-15 | The session is bound to the given room, its name is null, and neither the room (no join, no broadcast) nor the connection (no send) changes. |
| `Chat.ChatUser.Send` | ChatUser.js:35-41 | The event reaches the client when the transport can deliver it; a failed delivery raises nothing and changes no state. |
| `Chat.Connection.Deliver` | ChatUser.js:37 | The transport's send function: delivers and completes when the client is reachable, throws otherwise. |
| `Chat.ChatUser.HandleJoin` | ChatUser.js:45-51 | The name becomes `n`, the session is a member of its room, and exactly one note `<n> joined "<room>".` is broadcast, addressed to the membership after the join (the joiner included); the session invariant (a member has a name) is kept. |
| `Chat.ChatUser.HandleChat` | ChatUser.js:56-62 | Exactly one chat event with the current name (possibly null) and the text verbatim is broadcast to the current members; name and membership are unchanged. |
| `Chat.ChatUser.HandleJoke` | ChatUser.js:66-75 | This client alone gets one chat line from `Server` with the joke, or the fixed fallback text when the provider failed; the room is untouched. |
| `Text.JokeText` | ChatUser.js:22-31 | The joke text is the provider's joke when it answered; it is the fallback text exactly when the provider failed or its joke is that very text. |
| `Chat.ChatUser.HandleMemberRequest` | ChatUser.js:79-89 | This client alone gets one chat line from `Server` with `In this room: ` and the members' names in room order; the room is untouched. |
| `Chat.NamesOf` | ChatUser.js:80-81 | The names of the members, one per member, in the members' order. |
| `Text.Entries` | ChatUser.js:80-82 | Each member's name as the member list shows it, in order; a null name shows as empty. |
| `Text.JoinSnoc` | ChatUser.js:82 | `Join` agrees with the left-to-right definition of `Array.prototype.join`: one more element adds the separator and the element. |
| `Text.SplitJoin` | ChatUser.js:82 | Cutting a `, `-joined list of comma-free names at `, ` gives the names back. |
| `Text.MembersText` | ChatUser.js:80-87 | The reply to a member request starts with `In this room: `, and for an empty room it is exactly that. |
| `Text.MembersTextLists` | ChatUser.js:80-87 | For a non-empty room whose names hold no comma, the text after `In this room: ` cuts back at `, ` into exactly the members' names, in order. |
| `Text.Join` | ChatUser.js:82 | `Array.prototype.join`: an empty list joins to the empty string, and no element is longer than the result. |
| `Text.JoinEnds` | ChatUser.js:82 | A joined non-empty list begins with its first element and finishes with its last. |
| `Text.Show` | ChatUser.js:50 | A template literal renders a name as itself and null as `null`, so the text is `null` exactly when the name is null or literally "null". |
| `Text.Entry` | ChatUser.js:82 | `Array.prototype.join` renders a name as itself and null as the empty string, so the entry is empty exactly when the name is null or empty. |
| `Text.JoinNote` | ChatUser.js:50 | The join note begins with the rendered name and finishes with ` joined "<room>".`, and holds nothing else. |
| `Text.LeaveNote` | ChatUser.js:116 | The leave note begins with the rendered name and finishes with ` left "<room>".`, and holds nothing else. |
| `Protocol.BadMessage` | ChatUser.js:107 | The error for an unknown type begins with `bad message: ` and finishes with that type, and holds nothing else. |
| `Text.TwoMembersText` | ChatUser.js:80-87 | The reply for the members "alice" then "bob" is `In this room: alice, bob`. |
| `Protocol.Classify` | ChatUser.js:103-107 | The request recognised from a `type` carries that type; it is of unknown type exactly when the type is none of `join`, `chat`, `get-joke`, `get-members`; a join takes `name`, a chat takes `text`. |
| `Protocol.ClassifyTag` | ChatUser.js:103-107 | Recognising a request's own type and fields gives the request back. |
| `Chat.ChatUser.HandleMessage` | ChatUser.js:100-107 | For a request as parsing produces it (`Other` only for a type none of the four), each known type has exactly its handler's effect (a join note is addressed to the membership after the join); an unknown type fails with `bad message: <type>` and leaves session, room and connection unchanged. |
| `Chat.ChatUser.HandleClose` | ChatUser.js:112-117 | The session is no longer a member, every other member stays in its order (see `Chat.RemovedKeepsOrder`), and exactly one note `<name> left "<room>".` is broadcast, addressed to the membership after the leave (the leaver excluded), with the name rendered `null` if it never joined. |
| `Text.NoteNamesSubject` | ChatUser.js:50 | A join note and a leave note each end with their fixed suffix and name exactly the rendered name before it. |
| `Text.NullSubjectNote` | ChatUser.js:116 | A leave note of a session that never joined reads `null left "<room>".` |
| `Text.LobbyNotes` | ChatUser.js:45-51 | The join and leave notes of "bob" in "lobby" are `bob joined "lobby".` and `bob left "lobby".` |
| `Chat.Room.Join` | ChatUser.js:47 | Assumed: the session is added once, after the existing members; the log is unchanged. |
| `Chat.Room.Leave` | ChatUser.js:113 | Assumed: the session is removed and every other member stays; an absent session changes nothing. |
| `Chat.Room.Broadcast` | ChatUser.js:48-51 | Assumed: the event is recorded once at the end of the log, addressed to the current members; the members are unchanged. |
| `Chat.Added` | ChatUser.js:47 | After a join the session is a member, every earlier member keeps its place, nothing else is added, and no member appears twice. |
| `Chat.Removed` | ChatUser.js:113 | After a leave the session is not a member, every other member stays, nothing is added, no member appears twice, and an absent session changes nothing. |
| `Chat.RemovedConcat` | ChatUser.js:113 | A leave filters each part of the membership separately, so the members that stay keep their relative order. |
| `Chat.RemovedKeepsOrder` | ChatUser.js:113 | In a duplicate-free membership a leave takes out exactly the leaver's place: the members before and after it stay, in order. |
| `Chat.RemovedAdded` | ChatUser.js:113 | A leave right after the join of a newcomer restores the membership the newcomer found. |

## Left out

- `Room.get` and the room registry: `Room.js` is not part of this model. The constructor takes
  the room object that the registry returned for the room name.
- The fan-out of a broadcast to the members' send functions, and the serialisation of
  events to JSON text: a broadcast is a `log` entry naming its event and its addressees, and
  a direct send delivers an `Event`; whether each addressee's transport can deliver is not
  modelled.
- `JSON.parse` of the inbound frame: requests arrive as `Msg` values. A frame that does not
  parse, a missing `type`, `name` or `text` field, and non-string field values are not
  modelled.
- The HTTP request to the joke service: its outcome is the parameter `joke` of `HandleJoke`
  and `HandleMessage`. `None` stands for a request that threw (a network error, a status
  outside 2xx, or an answer whose body parses to null), which is when the fallback text is sent.
- A successful answer whose body has no string `joke` field is not modelled: the source then
  sends a chat line whose `text` is that field's value (null or a non-string), or has no `text`
  at all when the field is missing; an `Option<string>` outcome can express neither.
- Chat.ChatUser.HandleJoke: the handler is asynchronous and not awaited by the dispatcher; the
  model runs it to completion inside the dispatch, so interleavings with other requests are
  not modelled.
- Scheduling, concurrency between sessions and locking: the model is one sequential session.
- Whether the transport can deliver to a client is the parameter `reachable`.
- Logging with `console.log` in the constructor.
