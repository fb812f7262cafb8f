/** Messages exchanged with a client: the parsed inbound request and the outbound events. */
module Protocol {
  import opened Wrappers
  import opened Text

  /** An inbound request, as the JSON object a client sends, after parsing. `Other` carries
      the `type` of a request that is none of the four known ones. */
  datatype Msg =
    | Join(name: string)
    | Chat(text: string)
    | GetJoke
    | GetMembers
    | Other(kind: string)

  /** An outbound event: a `note` announcement or a `chat` line, whose sender may be null. */
  datatype Event =
    | Note(text: string)
    | ChatEv(name: Option<string>, text: string)

  /** The four request types a session understands. */
  const KnownTypes: set<string> := {"join", "chat", "get-joke", "get-members"}

  /** The `type` tag a request carries on the wire. */
  function Tag(m: Msg): (kind: string)
  {
    match m
    case Join(_) => "join"
    case Chat(_) => "chat"
    case GetJoke => "get-joke"
    case GetMembers => "get-members"
    case Other(k) => k
  }

  /** A request as parsing can produce it: `Other` only for a type none of the four. */
  predicate WellFormed(m: Msg)
  {
    m.Other? ==> m.kind !in KnownTypes
  }

  /** The chain of comparisons on `msg.type`, reading `msg.name` for a join and `msg.text`
      for a chat. */
  function Classify(kind: string, name: string, text: string): (m: Msg)
    ensures Tag(m) == kind && WellFormed(m)
    ensures m.Other? <==> kind !in KnownTypes
    ensures m.Join? ==> m.name == name
    ensures m.Chat? ==> m.text == text
  {
    if kind == "join" then Join(name)
    else if kind == "chat" then Chat(text)
    else if kind == "get-joke" then GetJoke
    else if kind == "get-members" then GetMembers
    else Other(kind)
  }

  /** Classifying a request's own tag and fields gives the request back. */
  lemma ClassifyTag(m: Msg, name: string, text: string)
    requires WellFormed(m)
    requires m.Join? ==> name == m.name
    requires m.Chat? ==> text == m.text
    ensures Classify(Tag(m), name, text) == m
  {
  }

  /** Leading words of the error raised for a request of unknown type. */
  const BadMessagePrefix: string := "bad message: "

  /** The message of the error raised for a request of unknown type: it names that type. */
  function BadMessage(kind: string): (message: string)
    ensures |message| == |BadMessagePrefix| + |kind|
    ensures StartsWith(message, BadMessagePrefix) && EndsWith(message, kind)
  {
    BadMessagePrefix + kind
  }
}
