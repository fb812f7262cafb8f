/** The text a chat session produces: join and leave notes, the member list, the joke text. */
module Text {
  import opened Wrappers

  /** Sender name of every message the server sends on its own behalf. */
  const Server: string := "Server"

  /** Text sent in place of a joke when the joke provider fails. */
  const JokeFallback: string := "Error: couldn't get a joke!"

  /** Leading words of the reply to a member request. */
  const MembersPrefix: string := "In this room: "

  /** Separator placed between the names in the member list. */
  const Separator: string := ", "

  /** `s` begins with `p`. */
  predicate StartsWith(s: string, p: string)
  {
    |p| <= |s| && s[..|p|] == p
  }

  /** `s` finishes with `p`. */
  predicate EndsWith(s: string, p: string)
  {
    |p| <= |s| && s[|s| - |p|..] == p
  }

  /** How a template literal renders a name that may be null: null becomes "null". */
  function Show(name: Option<string>): (s: string)
    ensures name.Some? ==> s == name.value
    ensures s == "null" <==> name.None? || name.value == "null"
  {
    match name
    case Some(n) => n
    case None => "null"
  }

  /** How Array.prototype.join renders an element that may be null: null becomes "". */
  function Entry(name: Option<string>): (s: string)
    ensures name.Some? ==> s == name.value
    ensures s == "" <==> name.None? || name.value == ""
  {
    match name
    case Some(n) => n
    case None => ""
  }

  /** The part of a join note that follows the name. */
  function JoinedSuffix(room: string): (suffix: string)
  {
    " joined \"" + room + "\"."
  }

  /** The part of a leave note that follows the name. */
  function LeftSuffix(room: string): (suffix: string)
  {
    " left \"" + room + "\"."
  }

  /** Announcement broadcast when a user joins: `<name> joined "<room>".` */
  function JoinNote(name: Option<string>, room: string): (note: string)
    ensures |note| == |Show(name)| + |JoinedSuffix(room)|
    ensures StartsWith(note, Show(name)) && EndsWith(note, JoinedSuffix(room))
  {
    Show(name) + JoinedSuffix(room)
  }

  /** Announcement broadcast when a connection closes: `<name> left "<room>".` */
  function LeaveNote(name: Option<string>, room: string): (note: string)
    ensures |note| == |Show(name)| + |LeftSuffix(room)|
    ensures StartsWith(note, Show(name)) && EndsWith(note, LeftSuffix(room))
  {
    Show(name) + LeftSuffix(room)
  }

  /** Reads back the subject of a note: what precedes `suffix`, if the note ends with it. */
  function NoteSubject(note: string, suffix: string): (subject: Option<string>)
    ensures subject.Some? <==> |suffix| <= |note| && note[|note| - |suffix|..] == suffix
    ensures subject.Some? ==> subject.value + suffix == note
  {
    if |suffix| <= |note| && note[|note| - |suffix|..] == suffix then
      var k := |note| - |suffix|;
      assert note[..k] + note[k..] == note;
      Some(note[..k])
    else
      None
  }

  /** A join or leave note names exactly the rendered name of its subject. */
  lemma NoteNamesSubject(name: Option<string>, room: string)
    ensures NoteSubject(JoinNote(name, room), JoinedSuffix(room)) == Some(Show(name))
    ensures NoteSubject(LeaveNote(name, room), LeftSuffix(room)) == Some(Show(name))
  {
  }

  /** A note with a null subject: the leave note of a user who never joined. */
  lemma NullSubjectNote(room: string)
    ensures LeaveNote(None, room) == "null left \"" + room + "\"."
    ensures JoinNote(None, room) == "null joined \"" + room + "\"."
  {
  }

  /** The notes of a user "bob" joining and leaving the room "lobby". */
  lemma LobbyNotes()
    ensures JoinNote(Some("bob"), "lobby") == "bob joined \"lobby\"."
    ensures LeaveNote(Some("bob"), "lobby") == "bob left \"lobby\"."
  {
  }

  /** Array.prototype.join over already-rendered elements. */
  function Join(xs: seq<string>, sep: string): (s: string)
    ensures |xs| == 0 ==> s == ""
    ensures forall i :: 0 <= i < |xs| ==> |xs[i]| <= |s|
  {
    if |xs| == 0 then ""
    else if |xs| == 1 then xs[0]
    else xs[0] + sep + Join(xs[1..], sep)
  }

  /** Join agrees with the left-to-right loop of Array.prototype.join:
      appending one element appends the separator and that element. */
  lemma {:induction false} JoinSnoc(xs: seq<string>, x: string, sep: string)
    ensures Join(xs + [x], sep) == if xs == [] then x else Join(xs, sep) + sep + x
  {
    if |xs| == 0 {
      assert xs + [x] == [x];
    } else if |xs| == 1 {
      assert (xs + [x])[1..] == [x];
    } else {
      assert (xs + [x])[1..] == xs[1..] + [x];
      JoinSnoc(xs[1..], x, sep);
    }
  }

  /** A joined list begins with its first element and finishes with its last. */
  lemma {:induction false} JoinEnds(xs: seq<string>, sep: string)
    requires |xs| >= 1
    ensures StartsWith(Join(xs, sep), xs[0]) && EndsWith(Join(xs, sep), xs[|xs| - 1])
  {
    if |xs| > 1 {
      JoinEnds(xs[1..], sep);
      var rest := Join(xs[1..], sep);
      assert Join(xs, sep) == xs[0] + (sep + rest);
      assert xs[1..][|xs[1..]| - 1] == xs[|xs| - 1];
    }
  }

  /** Cuts a string at every occurrence of the separator ", ". */
  function Split(s: string): (parts: seq<string>)
    ensures |parts| >= 1
    decreases |s|
  {
    if |s| == 0 then [""]
    else if |s| >= 2 && s[..2] == Separator then [""] + Split(s[2..])
    else
      var rest := Split(s[1..]);
      [[s[0]] + rest[0]] + rest[1..]
  }

  /** A string without a comma is not cut. */
  lemma {:induction false} SplitNoComma(x: string)
    requires ',' !in x
    ensures Split(x) == [x]
    decreases |x|
  {
    if |x| > 0 {
      assert x[0] != ',';
      assert ',' !in x[1..] by {
        forall i | 0 <= i < |x[1..]| ensures x[1..][i] != ',' { assert x[1..][i] == x[i + 1]; }
      }
      SplitNoComma(x[1..]);
      assert [x[0]] + x[1..] == x;
    }
  }

  /** A comma-free prefix is glued onto the first part of what follows. */
  lemma {:induction false} SplitPrefix(x: string, t: string)
    requires ',' !in x
    ensures Split(x + t) == [x + Split(t)[0]] + Split(t)[1..]
    decreases |x|
  {
    if |x| == 0 {
      assert x + t == t && x + Split(t)[0] == Split(t)[0];
      assert [Split(t)[0]] + Split(t)[1..] == Split(t);
    } else {
      var s := x + t;
      assert s[0] == x[0] && x[0] != ',';
      assert s[1..] == x[1..] + t;
      assert ',' !in x[1..] by {
        forall i | 0 <= i < |x[1..]| ensures x[1..][i] != ',' { assert x[1..][i] == x[i + 1]; }
      }
      SplitPrefix(x[1..], t);
      assert [x[0]] + (x[1..] + Split(t)[0]) == x + Split(t)[0];
    }
  }

  /** A leading separator starts a new, empty part. */
  lemma SplitSeparator(t: string)
    ensures Split(Separator + t) == [""] + Split(t)
  {
  }

  /** Split inverts Join with ", " on a non-empty list of comma-free names. */
  lemma {:induction false} SplitJoin(xs: seq<string>)
    requires |xs| >= 1
    requires forall i :: 0 <= i < |xs| ==> ',' !in xs[i]
    ensures Split(Join(xs, Separator)) == xs
  {
    if |xs| == 1 {
      SplitNoComma(xs[0]);
    } else {
      var rest := Join(xs[1..], Separator);
      assert ',' !in xs[0];
      assert Join(xs, Separator) == xs[0] + (Separator + rest);
      SplitJoin(xs[1..]);
      calc {
        Split(Join(xs, Separator));
        Split(xs[0] + (Separator + rest));
        { SplitPrefix(xs[0], Separator + rest); }
        [xs[0] + Split(Separator + rest)[0]] + Split(Separator + rest)[1..];
        { SplitSeparator(rest); }
        [xs[0] + ""] + Split(rest);
        { assert xs[0] + "" == xs[0]; }
        [xs[0]] + xs[1..];
        xs;
      }
    }
  }

  /** How Array.prototype.join renders each element: null becomes the empty string. */
  function Entries(names: seq<Option<string>>): (es: seq<string>)
    ensures |es| == |names|
    ensures forall i :: 0 <= i < |names| ==> es[i] == Entry(names[i])
  {
    if |names| == 0 then [] else [Entry(names[0])] + Entries(names[1..])
  }

  /** Reply to a member request: the prefix, then the names joined by ", ". */
  function MembersText(names: seq<Option<string>>): (text: string)
    ensures StartsWith(text, MembersPrefix)
    ensures |names| == 0 ==> text == MembersPrefix
  {
    MembersPrefix + Join(Entries(names), Separator)
  }

  /** The member list names exactly the members, in order: an empty room yields the bare prefix,
      and otherwise cutting the text after the prefix at ", " gives back each member's name
      (provided no name contains a comma). */
  lemma MembersTextLists(names: seq<Option<string>>)
    requires |names| >= 1
    requires forall i :: 0 <= i < |names| ==> ',' !in Entry(names[i])
    ensures Split(MembersText(names)[|MembersPrefix|..]) == Entries(names)
  {
    assert MembersText(names)[|MembersPrefix|..] == Join(Entries(names), Separator);
    SplitJoin(Entries(names));
  }

  /** The member list of a room holding "alice" and then "bob". */
  lemma TwoMembersText()
    ensures MembersText([Some("alice"), Some("bob")]) == "In this room: alice, bob"
  {
  }

  /** The text of a joke reply: the provider's joke, or the fixed fallback when it failed. */
  function JokeText(outcome: Option<string>): (text: string)
    ensures outcome.Some? ==> text == outcome.value
    ensures text == JokeFallback <==> outcome.None? || outcome.value == JokeFallback
  {
    match outcome
    case Some(joke) => joke
    case None => JokeFallback
  }
}
