/** One chat session (a ChatUser) and the part of its room that the session relies on. */
module Chat {
  import opened Wrappers
  import opened Text
  import opened Protocol

  /** No element occurs twice. */
  predicate NoDup<T(==)>(s: seq<T>)
  {
    forall i, j :: 0 <= i < j < |s| ==> s[i] != s[j]
  }

  /** Membership after `u` joins: set semantics, a newcomer is placed last in iteration order. */
  function Added<T(==)>(ms: seq<T>, u: T): (r: seq<T>)
    ensures u in r && forall i :: 0 <= i < |ms| ==> ms[i] in r
    ensures forall i :: 0 <= i < |r| ==> r[i] in ms || r[i] == u
    ensures NoDup(ms) ==> NoDup(r)
    ensures |ms| <= |r| && r[..|ms|] == ms
  {
    if u in ms then ms else ms + [u]
  }

  /** Membership after `u` leaves: every other member stays, in its order. */
  function Removed<T(==)>(ms: seq<T>, u: T): (r: seq<T>)
    ensures u !in r && forall i :: 0 <= i < |ms| && ms[i] != u ==> ms[i] in r
    ensures forall i :: 0 <= i < |r| ==> r[i] in ms && r[i] != u
    ensures u !in ms ==> r == ms
    ensures NoDup(ms) ==> NoDup(r)
    ensures NoDup(ms) && u in ms ==> |r| == |ms| - 1
  {
    if |ms| == 0 then []
    else if ms[0] == u then Removed(ms[1..], u)
    else [ms[0]] + Removed(ms[1..], u)
  }

  /** A leave filters each part of the membership separately: the members that stay keep
      their order. */
  lemma {:induction false} RemovedConcat<T>(a: seq<T>, b: seq<T>, u: T)
    ensures Removed(a + b, u) == Removed(a, u) + Removed(b, u)
  {
    if |a| == 0 {
      assert a + b == b;
    } else {
      assert (a + b)[0] == a[0] && (a + b)[1..] == a[1..] + b;
      RemovedConcat(a[1..], b, u);
    }
  }

  /** A leave takes out exactly the leaver's place: the members before it and after it stay,
      in their order. */
  lemma RemovedKeepsOrder<T>(ms: seq<T>, u: T, k: nat)
    requires NoDup(ms) && k < |ms| && ms[k] == u
    ensures Removed(ms, u) == ms[..k] + ms[k + 1..]
  {
    var before, after := ms[..k], ms[k + 1..];
    assert u !in before by {
      forall i | 0 <= i < |before| ensures before[i] != u { assert before[i] == ms[i]; }
    }
    assert u !in after by {
      forall i | 0 <= i < |after| ensures after[i] != u { assert after[i] == ms[k + 1 + i]; }
    }
    assert ms == before + ([u] + after);
    RemovedConcat(before, [u] + after, u);
    RemovedConcat([u], after, u);
  }

  /** A leave right after the join of a newcomer restores the membership it found. */
  lemma {:induction false} RemovedAdded<T>(ms: seq<T>, u: T)
    requires u !in ms
    ensures Removed(Added(ms, u), u) == ms
  {
    if |ms| > 0 {
      assert (ms + [u])[0] == ms[0] && (ms + [u])[1..] == ms[1..] + [u];
      RemovedAdded(ms[1..], u);
      assert [ms[0]] + ms[1..] == ms;
    } else {
      assert Added(ms, u) == [u];
    }
  }

  /** One broadcast: the event and the members it was addressed to, in the room's order. */
  datatype Announcement = Announcement(event: Event, audience: seq<ChatUser>)

  /** A chat room, as far as a session uses it. Its registry and its fan-out of a broadcast
      to the members' connections are not part of this model: a broadcast is recorded in `log`
      together with the members it reaches. */
  class Room {
    const name: string
    var members: seq<ChatUser>
    var log: seq<Announcement>

    /** A session is a member at most once. */
    ghost predicate Valid()
      reads this
    {
      NoDup(members)
    }

    constructor(name: string)
      ensures this.name == name && members == [] && log == [] && Valid()
    {
      this.name := name;
      members := [];
      log := [];
    }

    /** Assumed contract: adds `u` once, at the end of the iteration order. */
    method Join(u: ChatUser)
      requires Valid()
      modifies this
      ensures Valid()
      ensures members == Added(old(members), u) && log == old(log)
    {
      members := Added(members, u);
    }

    /** Assumed contract: removes `u`; for an absent `u` nothing changes. */
    method Leave(u: ChatUser)
      requires Valid()
      modifies this
      ensures Valid()
      ensures members == Removed(old(members), u) && log == old(log)
    {
      members := Removed(members, u);
    }

    /** Assumed contract: sends `e` to the members present at the call; recorded as one more
        entry of `log`. */
    method Broadcast(e: Event)
      modifies this
      ensures members == old(members) && log == old(log) + [Announcement(e, members)]
    {
      log := log + [Announcement(e, members)];
    }
  }

  /** The transport's send function for one client; `received` is what this session sent
      directly to its client (broadcasts of the room are recorded in the room's `log`). */
  class Connection {
    var received: seq<Event>

    constructor()
      ensures received == []
    {
      received := [];
    }

    /** Delivers `e` when the client is reachable, and throws otherwise. */
    method Deliver(e: Event, reachable: bool) returns (r: Outcome<()>)
      modifies this
      ensures r.Pass? <==> reachable
      ensures received == if reachable then old(received) + [e] else old(received)
    {
      if reachable {
        received := received + [e];
        r := Pass;
      } else {
        r := Fail(());
      }
    }
  }

  /** The display names of a sequence of sessions, in the same order (`m => m.name`). */
  function NamesOf(ms: seq<ChatUser>): (names: seq<Option<string>>)
    reads ms
    ensures |names| == |ms|
    ensures forall i :: 0 <= i < |ms| ==> names[i] == ms[i].name
  {
    if |ms| == 0 then [] else [ms[0].name] + NamesOf(ms[1..])
  }

  /** One connection from a client to the server, bound to one room. */
  class ChatUser {
    /** The `_send` capability of the connection. */
    const conn: Connection
    const room: Room
    /** Display name: null until a join request sets it. */
    var name: Option<string>

    /** The room's membership is duplicate-free, and a member has a name. */
    ghost predicate Valid()
      reads this, room
    {
      room.Valid() && (this in room.members ==> name.Some?)
    }

    /** Binds the session to `room` (the room the registry returns for the room name) without
        joining it, announcing anything or sending anything. */
    constructor(conn: Connection, room: Room)
      requires room.Valid()
      ensures this.conn == conn && this.room == room && name == None
      ensures unchanged(room, conn)
      ensures Valid() && this !in room.members
    {
      this.conn := conn;
      this.room := room;
      name := None;
    }

    /** Best-effort send to this client: a failure of the transport is discarded here, and
        this session's own state never changes. */
    method Send(e: Event, reachable: bool)
      modifies conn
      ensures conn.received == if reachable then old(conn.received) + [e] else old(conn.received)
    {
      var _ := conn.Deliver(e, reachable);
    }

    /** Takes the name, becomes a member, then announces the join to the room. */
    method HandleJoin(n: string)
      requires Valid()
      modifies this, room
      ensures Valid()
      ensures name == Some(n)
      ensures room.members == Added(old(room.members), this) && this in room.members
      ensures room.log == old(room.log)
                + [Announcement(Note(JoinNote(Some(n), room.name)), Added(old(room.members), this))]
    {
      name := Some(n);
      room.Join(this);
      room.Broadcast(Note(JoinNote(name, room.name)));
    }

    /** Broadcasts the text, verbatim, under the current name (null before a join). */
    method HandleChat(text: string)
      requires Valid()
      modifies room
      ensures Valid()
      ensures room.members == old(room.members)
      ensures room.log == old(room.log) + [Announcement(ChatEv(name, text), room.members)]
    {
      room.Broadcast(ChatEv(name, text));
    }

    /** Sends this client alone the provider's joke, or the fallback text when the provider
        failed (`joke == None`). */
    method HandleJoke(joke: Option<string>, reachable: bool)
      modifies conn
      ensures conn.received == old(conn.received)
                + (if reachable then [ChatEv(Some(Server), JokeText(joke))] else [])
    {
      Send(ChatEv(Some(Server), JokeText(joke)), reachable);
    }

    /** Sends this client alone the list of the room's members, in the room's order. */
    method HandleMemberRequest(reachable: bool)
      modifies conn
      ensures conn.received == old(conn.received)
                + (if reachable then [ChatEv(Some(Server), MembersText(NamesOf(room.members)))] else [])
    {
      var memberList := MembersText(NamesOf(room.members));
      Send(ChatEv(Some(Server), memberList), reachable);
    }

    /** Dispatches a request on its type; a request of unknown type is refused with an error
        and has no effect. `joke` is the provider's answer and `reachable` whether this client
        can be sent to, both used only by the requests that need them. */
    method HandleMessage(msg: Msg, joke: Option<string>, reachable: bool) returns (r: Outcome<string>)
      requires Valid() && WellFormed(msg)
      modifies this, room, conn
      ensures Valid()
      ensures r.Fail? <==> msg.Other?
      ensures msg.Other? ==> r.error == BadMessage(msg.kind) && unchanged(this, room, conn)
      ensures msg.Join? ==>
                && name == Some(msg.name)
                && room.members == Added(old(room.members), this)
                && room.log == old(room.log)
                     + [Announcement(Note(JoinNote(Some(msg.name), room.name)), Added(old(room.members), this))]
                && unchanged(conn)
      ensures msg.Chat? ==>
                && room.members == old(room.members)
                && room.log == old(room.log) + [Announcement(ChatEv(name, msg.text), room.members)]
                && unchanged(this, conn)
      ensures msg.GetJoke? ==>
                && conn.received == old(conn.received)
                     + (if reachable then [ChatEv(Some(Server), JokeText(joke))] else [])
                && unchanged(this, room)
      ensures msg.GetMembers? ==>
                && conn.received == old(conn.received)
                     + (if reachable then [ChatEv(Some(Server), MembersText(NamesOf(room.members)))] else [])
                && unchanged(this, room)
    {
      match msg
      case Join(n) =>
        HandleJoin(n);
        r := Pass;
      case Chat(text) =>
        HandleChat(text);
        r := Pass;
      case GetJoke =>
        HandleJoke(joke, reachable);
        r := Pass;
      case GetMembers =>
        HandleMemberRequest(reachable);
        r := Pass;
      case Other(kind) =>
        r := Fail(BadMessage(kind));
    }

    /** Leaves the room, then announces the departure under the current name, which is
        rendered as "null" when the client never joined. */
    method HandleClose()
      requires Valid()
      modifies room
      ensures Valid() && this !in room.members
      ensures room.members == Removed(old(room.members), this)
      ensures room.log == old(room.log)
                + [Announcement(Note(LeaveNote(name, room.name)), Removed(old(room.members), this))]
    {
      room.Leave(this);
      room.Broadcast(Note(LeaveNote(name, room.name)));
    }
  }

  /** Two clients join one room, one chats and the other leaves: what the room is told. */
  method LobbyScenario()
  {
    var lobby := new Room("lobby");
    var toAlice := new Connection();
    var toBob := new Connection();
    var alice := new ChatUser(toAlice, lobby);
    var bob := new ChatUser(toBob, lobby);

    alice.HandleJoin("alice");
    bob.HandleJoin("bob");
    assert lobby.members == [alice, bob];
    alice.HandleChat("hi");
    bob.HandleClose();
    RemovedKeepsOrder([alice, bob], bob, 1);
    assert lobby.members == [alice];
    assert lobby.log == [
      Announcement(Note(JoinNote(Some("alice"), "lobby")), [alice]),
      Announcement(Note(JoinNote(Some("bob"), "lobby")), [alice, bob]),
      Announcement(ChatEv(Some("alice"), "hi"), [alice, bob]),
      Announcement(Note(LeaveNote(Some("bob"), "lobby")), [alice])
    ];
  }

  /** Two clients join one room and one asks for the members: only that one is answered. */
  method MembersScenario()
  {
    var lobby := new Room("lobby");
    var toAlice := new Connection();
    var toBob := new Connection();
    var alice := new ChatUser(toAlice, lobby);
    var bob := new ChatUser(toBob, lobby);

    alice.HandleJoin("alice");
    bob.HandleJoin("bob");
    assert lobby.members == [alice, bob];
    assert NamesOf(lobby.members) == [Some("alice"), Some("bob")];
    bob.HandleMemberRequest(true);
    assert toAlice.received == [];
    assert toBob.received == [ChatEv(Some(Server), MembersText([Some("alice"), Some("bob")]))];
    assert toBob.received == [ChatEv(Some(Server), "In this room: alice, bob")] by {
      TwoMembersText();
    }
  }

  /** A client that never joins: a request of unknown type, a chat without a name, a close. */
  method StrangerScenario()
  {
    var lobby := new Room("lobby");
    var conn := new Connection();
    var stranger := new ChatUser(conn, lobby);

    var r := stranger.HandleMessage(Other("dance"), None, true);
    assert r == Fail(BadMessage("dance")) && lobby.log == [] && stranger.name == None;
    r := stranger.HandleMessage(Chat("hi"), None, true);
    assert r == Pass && lobby.log == [Announcement(ChatEv(None, "hi"), [])];
    stranger.HandleClose();
    assert lobby.log == [Announcement(ChatEv(None, "hi"), []), Announcement(Note(LeaveNote(None, "lobby")), [])];
  }
}
