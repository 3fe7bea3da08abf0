/**
 One open conversation, seen twice: the live list, changed as each decrypted payload
 arrives (apps/desktop/src/features/chat/useChat.ts, lines 57-126), and the list
 rebuilt from the vault's message and event tables
 (apps/desktop/src/infrastructure/vault.ts, lines 276-311 and 360-423).
 */
module History {
  import opened Prelude
  import opened QueryAnswers

  type Id = string

  datatype Kind =
    | Edit(body: string)
    | Delete
    | Reaction(emoji: string)
    | Other  // an event type neither side knows

  /** A decrypted payload: a text or reply, or an event about an earlier message. */
  datatype Incoming =
    | Text(id: Id, sender: string, body: string, sentAt: int, parent: Option<Id>)
    | Event(id: Id, target: Id, kind: Kind, storedAt: int)

  datatype MessageRow = MessageRow(id: Id, sender: string, content: string, timestamp: int, parent: Option<Id>)

  datatype EventRow = EventRow(id: Id, target: Id, kind: Kind, timestamp: int)

  datatype Shown = Shown(
    id: Id, sender: string, text: string, timestamp: int, parent: Option<Id>,
    reactions: seq<string>, isEdited: bool, isDeleted: bool)

  datatype Chat = Chat(messages: seq<MessageRow>, events: seq<EventRow>, live: seq<Shown>)

  function MessageTime(m: MessageRow): int {
    m.timestamp
  }

  function EventTime(e: EventRow): int {
    e.timestamp
  }

  function ShownTime(m: Shown): int {
    m.timestamp
  }

  const DELETED_TEXT := "This message was deleted"

  function Plain(m: MessageRow): Shown {
    Shown(m.id, m.sender, m.content, m.timestamp, m.parent, [], false, false)
  }

  function Apply(m: Shown, kind: Kind): Shown {
    match kind
    case Edit(body) => m.(text := body, isEdited := true)
    case Delete => m.(text := DELETED_TEXT, isDeleted := true)
    case Reaction(emoji) => m.(reactions := m.reactions + [emoji])
    case Other => m
  }

  function ApplyAll(m: Shown, kinds: seq<Kind>): Shown {
    if kinds == [] then m else Apply(ApplyAll(m, kinds[..|kinds| - 1]), kinds[|kinds| - 1])
  }

  // ── Arrival ─────────────────────────────────────────────────────────────────

  /** `saveMessage`: insert, or on a known id take the new content. */
  function SaveMessage(rows: seq<MessageRow>, m: MessageRow): seq<MessageRow> {
    if exists i :: 0 <= i < |rows| && rows[i].id == m.id
    then seq(|rows|, i requires 0 <= i < |rows| =>
           if rows[i].id == m.id then rows[i].(content := m.content) else rows[i])
    else rows + [m]
  }

  /** `saveMessageEvent` throws on a known event id. */
  predicate KnownEvent(events: seq<EventRow>, id: Id) {
    exists i :: 0 <= i < |events| && events[i].id == id
  }

  function ApplyTo(live: seq<Shown>, target: Id, kind: Kind): (r: seq<Shown>)
    ensures |r| == |live|
  {
    if live == [] then []
    else
      var last := |live| - 1;
      ApplyTo(live[..last], target, kind)
      + [if live[last].id == target then Apply(live[last], kind) else live[last]]
  }

  function Receive(c: Chat, p: Incoming): Chat {
    match p
    case Text(id, sender, body, sentAt, parent) =>
      var m := MessageRow(id, sender, body, sentAt, parent);
      c.(messages := SaveMessage(c.messages, m), live := c.live + [Plain(m)])
    case Event(id, target, kind, storedAt) =>
      if KnownEvent(c.events, id) then c
      else c.(events := c.events + [EventRow(id, target, kind, storedAt)], live := ApplyTo(c.live, target, kind))
  }

  function ReceiveAll(log: seq<Incoming>): Chat {
    if log == [] then Chat([], [], []) else Receive(ReceiveAll(log[..|log| - 1]), log[|log| - 1])
  }

  // ── Rebuilding ──────────────────────────────────────────────────────────────

  /** The kinds of the events about one message, in query order. */
  function KindsFor(events: seq<EventRow>, id: Id): seq<Kind> {
    if events == [] then []
    else
      var last := |events| - 1;
      KindsFor(events[..last], id) + (if events[last].target == id then [events[last].kind] else [])
  }

  function Rebuilt(m: MessageRow, events: seq<EventRow>): Shown {
    ApplyAll(Plain(m), KindsFor(events, m.id))
  }

  /** `getMessages` with the answers of its two queries. */
  function Reload(base: seq<MessageRow>, events: seq<EventRow>): seq<Shown> {
    Map(base, (m: MessageRow) => Rebuilt(m, events))
  }

  /** What `getMessages` may return: for every answer either query may give. */
  ghost predicate MayShow(c: Chat, shown: seq<Shown>) {
    exists base, events ::
      && Answer(c.messages, base, MessageTime)
      && Answer(Joined(c.events, c.messages), events, EventTime)
      && shown == Reload(base, events)
  }

  /** Events that belong to no stored message drop out of the query's join. */
  function Joined(events: seq<EventRow>, messages: seq<MessageRow>): seq<EventRow> {
    Only(events, OfStored(messages))
  }

  function OfStored(messages: seq<MessageRow>): EventRow -> bool {
    (e: EventRow) => exists i :: 0 <= i < |messages| && messages[i].id == e.target
  }

  /** The open chat's state and tables, changed in place as in the two source files. */
  class OpenChat {
    var messages: seq<MessageRow>
    var events: seq<EventRow>
    var live: seq<Shown>

    function State(): Chat
      reads this
    {
      Chat(messages, events, live)
    }

    /** `saves` is whether the vault accepts the write. */
    method HandleIncoming(p: Incoming, saves: bool)
      modifies this
      ensures State() == if saves then Receive(old(State()), p) else old(State())
    {
      if !saves {
        return;
      }
      match p
      case Text(id, sender, body, sentAt, parent) =>
        var row := MessageRow(id, sender, body, sentAt, parent);
        messages := SaveMessage(messages, row);
        live := live + [Plain(row)];
      case Event(id, target, kind, storedAt) =>
        if KnownEvent(events, id) {
          return;
        }
        events := events + [EventRow(id, target, kind, storedAt)];
        var mapped := [];
        for i := 0 to |live|
          invariant mapped == ApplyTo(live[..i], target, kind)
          invariant messages == old(messages) && live == old(live)
          invariant events == old(events) + [EventRow(id, target, kind, storedAt)]
        {
          assert live[..i + 1][..i] == live[..i];
          mapped := mapped + [if live[i].id == target then Apply(live[i], kind) else live[i]];
        }
        assert live[..|live|] == live;
        live := mapped;
    }

    /** The inner loop: one message with its events applied in query order. */
    static method Resolve(row: MessageRow, events: seq<EventRow>) returns (m: Shown)
      ensures m == Rebuilt(row, events)
    {
      m := Plain(row);
      for j := 0 to |events|
        invariant m == Rebuilt(row, events[..j])
      {
        assert events[..j + 1][..j] == events[..j];
        if events[j].target == row.id {
          ApplyAllSnoc(Plain(row), KindsFor(events[..j], row.id), events[j].kind);
          m := Apply(m, events[j].kind);
        } else {
          assert KindsFor(events[..j + 1], row.id) == KindsFor(events[..j], row.id);
        }
      }
      assert events[..|events|] == events;
    }

    /** `base` and `joined` are the answers of the two queries. */
    method Load(base: seq<MessageRow>, joined: seq<EventRow>) returns (shown: seq<Shown>)
      requires Answer(messages, base, MessageTime)
      requires Answer(Joined(events, messages), joined, EventTime)
      ensures shown == Reload(base, joined) && MayShow(State(), shown)
    {
      shown := [];
      for i := 0 to |base|
        invariant |shown| == i && forall k :: 0 <= k < i ==> shown[k] == Rebuilt(base[k], joined)
      {
        var m := Resolve(base[i], joined);
        shown := shown + [m];
      }
      assert shown == Reload(base, joined);
    }
  }

  lemma ApplyAllSnoc(m: Shown, kinds: seq<Kind>, kind: Kind)
    ensures ApplyAll(m, kinds + [kind]) == Apply(ApplyAll(m, kinds), kind)
  {
    assert (kinds + [kind])[..|kinds|] == kinds;
  }
}
