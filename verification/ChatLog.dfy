/**
 A conversation as the log of its arrivals, those whose save the vault accepted: what
 the two tables hold, and what the live list shows.
 */
module ChatLog {
  import opened History

  // ── What a log says, without tables or lists ────────────────────────────────

  /** No two texts have one id, and no two events. */
  ghost predicate DistinctIds(log: seq<Incoming>) {
    forall i, j :: 0 <= i < j < |log| && log[i].Text? == log[j].Text? ==> log[i].id != log[j].id
  }

  ghost predicate HasText(log: seq<Incoming>, id: Id) {
    exists i :: 0 <= i < |log| && log[i].Text? && log[i].id == id
  }

  function Init(log: seq<Incoming>): seq<Incoming>
    requires log != []
  {
    log[..|log| - 1]
  }

  function Last(log: seq<Incoming>): Incoming
    requires log != []
  {
    log[|log| - 1]
  }

  function TextsOf(log: seq<Incoming>): seq<MessageRow> {
    if log == [] then []
    else
      var p := Last(log);
      TextsOf(Init(log)) + if p.Text? then [MessageRow(p.id, p.sender, p.body, p.sentAt, p.parent)] else []
  }

  function EventsOf(log: seq<Incoming>): seq<EventRow> {
    if log == [] then []
    else
      var p := Last(log);
      EventsOf(Init(log)) + if p.Event? then [EventRow(p.id, p.target, p.kind, p.storedAt)] else []
  }

  /** Events about a message that arrived after it, and those that arrived before. */
  ghost function Late(log: seq<Incoming>, id: Id): seq<Kind> {
    if log == [] then []
    else
      var p := Last(log);
      Late(Init(log), id) + if p.Event? && p.target == id && HasText(Init(log), id) then [p.kind] else []
  }

  ghost function Early(log: seq<Incoming>, id: Id): seq<Kind> {
    if log == [] then []
    else
      var p := Last(log);
      Early(Init(log), id) + if p.Event? && p.target == id && !HasText(Init(log), id) then [p.kind] else []
  }

  ghost predicate Masked(early: seq<Kind>, late: seq<Kind>) {
    && (forall i :: 0 <= i < |early| ==> !early[i].Reaction?)
    && (HasEdit(early) ==> HasEdit(late))
    && (HasDelete(early) ==> HasDelete(late))
  }

  predicate HasEdit(kinds: seq<Kind>) {
    exists i :: 0 <= i < |kinds| && kinds[i].Edit?
  }

  predicate HasDelete(kinds: seq<Kind>) {
    exists i :: 0 <= i < |kinds| && kinds[i].Delete?
  }

  // ── The tables hold the log ─────────────────────────────────────────────────

  ghost predicate HasEvent(log: seq<Incoming>, id: Id) {
    exists i :: 0 <= i < |log| && log[i].Event? && log[i].id == id
  }

  lemma HasSnoc(log: seq<Incoming>, id: Id)
    requires log != []
    ensures HasText(log, id) <==> HasText(Init(log), id) || (Last(log).Text? && Last(log).id == id)
    ensures HasEvent(log, id) <==> HasEvent(Init(log), id) || (Last(log).Event? && Last(log).id == id)
  {
    var init := Init(log);
    assert forall i :: 0 <= i < |init| ==> init[i] == log[i];
    assert log[|init|] == Last(log);
  }

  lemma {:induction false} TextFromLog(log: seq<Incoming>, i: nat)
    requires i < |TextsOf(log)|
    ensures HasText(log, TextsOf(log)[i].id)
  {
    HasSnoc(log, TextsOf(log)[i].id);
    if i < |TextsOf(Init(log))| {
      TextFromLog(Init(log), i);
    }
  }

  lemma {:induction false} EventFromLog(log: seq<Incoming>, i: nat)
    requires i < |EventsOf(log)|
    ensures HasEvent(log, EventsOf(log)[i].id)
  {
    HasSnoc(log, EventsOf(log)[i].id);
    if i < |EventsOf(Init(log))| {
      EventFromLog(Init(log), i);
    }
  }

  /** A new id is not in its table. */
  lemma NewIdInNoTable(log: seq<Incoming>)
    requires log != [] && DistinctIds(log)
    ensures Last(log).Text? ==> forall i :: 0 <= i < |TextsOf(Init(log))| ==> TextsOf(Init(log))[i].id != Last(log).id
    ensures Last(log).Event? ==> !KnownEvent(EventsOf(Init(log)), Last(log).id)
  {
    var init, id := Init(log), Last(log).id;
    assert forall i :: 0 <= i < |init| ==> init[i] == log[i];
    if Last(log).Text? {
      forall i | 0 <= i < |TextsOf(init)|
        ensures TextsOf(init)[i].id != id
      {
        TextFromLog(init, i);
      }
    } else {
      forall i | 0 <= i < |EventsOf(init)|
        ensures EventsOf(init)[i].id != id
      {
        EventFromLog(init, i);
      }
    }
  }

  lemma {:induction false} TablesHoldLog(log: seq<Incoming>)
    requires DistinctIds(log)
    ensures ReceiveAll(log).messages == TextsOf(log) && ReceiveAll(log).events == EventsOf(log)
  {
    if log != [] {
      assert forall i :: 0 <= i < |Init(log)| ==> Init(log)[i] == log[i];
      TablesHoldLog(Init(log));
      NewIdInNoTable(log);
    }
  }

  // ── The live list is the late events applied ────────────────────────────────

  ghost function LiveView(log: seq<Incoming>, m: MessageRow): Shown {
    ApplyAll(Plain(m), Late(log, m.id))
  }

  ghost predicate LiveIs(log: seq<Incoming>) {
    var live := ReceiveAll(log).live;
    && |live| == |TextsOf(log)|
    && forall i :: 0 <= i < |live| ==> live[i] == LiveView(log, TextsOf(log)[i])
  }

  lemma {:induction false} NoLateWithoutText(log: seq<Incoming>, id: Id)
    requires !HasText(log, id)
    ensures Late(log, id) == []
  {
    if log != [] {
      HasSnoc(log, id);
      NoLateWithoutText(Init(log), id);
    }
  }

  lemma {:induction false} KeepsIdentity(m: Shown, kinds: seq<Kind>)
    ensures ApplyAll(m, kinds).id == m.id && ApplyAll(m, kinds).timestamp == m.timestamp
    ensures ApplyAll(m, kinds).sender == m.sender && ApplyAll(m, kinds).parent == m.parent
  {
    if kinds != [] {
      KeepsIdentity(m, kinds[..|kinds| - 1]);
    }
  }

  lemma {:induction false} ApplyToAt(live: seq<Shown>, target: Id, kind: Kind, i: nat)
    requires i < |live|
    ensures ApplyTo(live, target, kind)[i] == if live[i].id == target then Apply(live[i], kind) else live[i]
  {
    if i < |live| - 1 {
      ApplyToAt(live[..|live| - 1], target, kind, i);
    }
  }

  lemma {:induction false} LiveIsLate(log: seq<Incoming>)
    requires DistinctIds(log)
    ensures LiveIs(log)
  {
    if log != [] {
      assert forall i :: 0 <= i < |Init(log)| ==> Init(log)[i] == log[i];
      LiveIsLate(Init(log));
      TablesHoldLog(Init(log));
      NewIdInNoTable(log);
      forall i | 0 <= i < |TextsOf(log)|
        ensures |ReceiveAll(log).live| == |TextsOf(log)|
        ensures ReceiveAll(log).live[i] == LiveView(log, TextsOf(log)[i])
      {
        if Last(log).Text? {
          LiveText(log, i);
        } else {
          LiveEvent(log, i);
        }
      }
    }
  }

  lemma LateSnoc(log: seq<Incoming>, id: Id)
    requires log != [] && (Last(log).Event? && Last(log).target == id ==> HasText(Init(log), id))
    ensures Late(log, id)
         == if Last(log).Event? && Last(log).target == id
            then Late(Init(log), id) + [Last(log).kind] else Late(Init(log), id)
  {
  }

  lemma LiveText(log: seq<Incoming>, i: nat)
    requires log != [] && DistinctIds(log) && LiveIs(Init(log)) && Last(log).Text? && i < |TextsOf(log)|
    ensures |ReceiveAll(log).live| == |TextsOf(log)|
    ensures ReceiveAll(log).live[i] == LiveView(log, TextsOf(log)[i])
  {
    var init, m := Init(log), TextsOf(log)[i];
    var before := ReceiveAll(init).live;
    LateSnoc(log, m.id);
    assert ReceiveAll(log).live == before + [Plain(TextsOf(log)[|TextsOf(init)|])];
    if i < |before| {
      assert before[i] == LiveView(init, TextsOf(init)[i]);
    } else {
      FirstMention(log);
      NoLateWithoutText(init, m.id);
    }
  }

  lemma FirstMention(log: seq<Incoming>)
    requires log != [] && DistinctIds(log) && Last(log).Text?
    ensures !HasText(Init(log), Last(log).id)
  {
    assert forall j :: 0 <= j < |Init(log)| ==> Init(log)[j] == log[j];
  }

  lemma LiveEvent(log: seq<Incoming>, i: nat)
    requires log != [] && LiveIs(Init(log)) && Last(log).Event? && i < |TextsOf(log)|
    requires ReceiveAll(Init(log)).events == EventsOf(Init(log))
    requires !KnownEvent(EventsOf(Init(log)), Last(log).id)
    ensures |ReceiveAll(log).live| == |TextsOf(log)|
    ensures ReceiveAll(log).live[i] == LiveView(log, TextsOf(log)[i])
  {
    var init, p := Init(log), Last(log);
    var before := ReceiveAll(init).live;
    assert TextsOf(log) == TextsOf(init);
    assert ReceiveAll(log).live == ApplyTo(before, p.target, p.kind);
    var m := TextsOf(init)[i];
    TextFromLog(init, i);
    LateSnoc(log, m.id);
    assert before[i] == LiveView(init, m);
    KeepsIdentity(Plain(m), Late(init, m.id));
    ApplyToAt(before, p.target, p.kind, i);
    ApplyAllSnoc(Plain(m), Late(init, m.id), p.kind);
  }

  /** A shown message is the text it stands for, whatever events were applied to it. */
  ghost predicate Shows(shown: Shown, m: MessageRow) {
    shown.id == m.id && shown.sender == m.sender && shown.timestamp == m.timestamp && shown.parent == m.parent
  }

  /** Every text that arrived is on screen once, in its place and with its own sender, time
      and parent; its wording, reactions and marks are those of the events after it. */
  lemma LiveRows(log: seq<Incoming>, i: nat)
    requires DistinctIds(log) && i < |TextsOf(log)|
    ensures |ReceiveAll(log).live| == |TextsOf(log)|
    ensures var shown, m := ReceiveAll(log).live[i], TextsOf(log)[i];
            && Shows(shown, m)
            && shown.text == FinalText(m.content, Late(log, m.id)) && shown.reactions == Reactions(Late(log, m.id))
            && (shown.isEdited <==> HasEdit(Late(log, m.id))) && (shown.isDeleted <==> HasDelete(Late(log, m.id)))
  {
    var m := TextsOf(log)[i];
    LiveIsLate(log);
    assert ReceiveAll(log).live[i] == LiveView(log, m);
    ApplyAllIs(Plain(m), Late(log, m.id));
    assert [] + Reactions(Late(log, m.id)) == Reactions(Late(log, m.id));
  }

  // ── The rebuilt list is the early and the late events applied ───────────────

  lemma {:induction false} KindsAreEarlyThenLate(log: seq<Incoming>, id: Id)
    ensures KindsFor(EventsOf(log), id) == Early(log, id) + Late(log, id)
  {
    if log != [] {
      var p, early, late := Last(log), Early(Init(log), id), Late(Init(log), id);
      KindsAreEarlyThenLate(Init(log), id);
      if !(p.Event? && p.target == id) {
        OthersLeaveKinds(log, id);
      } else if HasText(Init(log), id) {
        AddsLate(log, id);
        assert early + late + [p.kind] == early + (late + [p.kind]);
      } else {
        AddsEarly(log, id);
        assert early + [] + [p.kind] == early + [p.kind] + [];
      }
    }
  }

  lemma AddsKind(log: seq<Incoming>, id: Id)
    requires log != [] && Last(log).Event? && Last(log).target == id
    ensures KindsFor(EventsOf(log), id) == KindsFor(EventsOf(Init(log)), id) + [Last(log).kind]
  {
    var p := Last(log);
    KindsSnoc(EventsOf(Init(log)), EventRow(p.id, p.target, p.kind, p.storedAt), id);
  }

  lemma AddsLate(log: seq<Incoming>, id: Id)
    requires log != [] && Last(log).Event? && Last(log).target == id && HasText(Init(log), id)
    ensures KindsFor(EventsOf(log), id) == KindsFor(EventsOf(Init(log)), id) + [Last(log).kind]
    ensures Early(log, id) == Early(Init(log), id) && Late(log, id) == Late(Init(log), id) + [Last(log).kind]
  {
    AddsKind(log, id);
  }

  lemma AddsEarly(log: seq<Incoming>, id: Id)
    requires log != [] && Last(log).Event? && Last(log).target == id && !HasText(Init(log), id)
    ensures KindsFor(EventsOf(log), id) == KindsFor(EventsOf(Init(log)), id) + [Last(log).kind]
    ensures Early(log, id) == Early(Init(log), id) + [Last(log).kind]
    ensures Late(log, id) == [] && Late(Init(log), id) == []
  {
    AddsKind(log, id);
    NoLateWithoutText(Init(log), id);
  }

  lemma OthersLeaveKinds(log: seq<Incoming>, id: Id)
    requires log != [] && !(Last(log).Event? && Last(log).target == id)
    ensures KindsFor(EventsOf(log), id) == KindsFor(EventsOf(Init(log)), id)
    ensures Early(log, id) == Early(Init(log), id) && Late(log, id) == Late(Init(log), id)
  {
    var init, p := Init(log), Last(log);
    if p.Event? {
      KindsSnoc(EventsOf(init), EventRow(p.id, p.target, p.kind, p.storedAt), id);
    } else {
      assert EventsOf(log) == EventsOf(init);
    }
  }

  lemma KindsSnoc(events: seq<EventRow>, e: EventRow, id: Id)
    ensures KindsFor(events + [e], id) == if e.target == id then KindsFor(events, id) + [e.kind] else KindsFor(events, id)
  {
    assert (events + [e])[..|events|] == events;
  }

  /** The join loses no event of a stored message. */
  lemma {:induction false} JoinedKinds(events: seq<EventRow>, messages: seq<MessageRow>, k: nat)
    requires k < |messages|
    ensures KindsFor(Joined(events, messages), messages[k].id) == KindsFor(events, messages[k].id)
  {
    if events != [] {
      var init, e := events[..|events| - 1], events[|events| - 1];
      JoinedKinds(init, messages, k);
      KindsSnoc(Joined(init, messages), e, messages[k].id);
      assert Joined(init, messages) + [] == Joined(init, messages);
    }
  }

  // ── When the two agree on a message ─────────────────────────────────────────

  function Reactions(kinds: seq<Kind>): seq<string> {
    if kinds == [] then []
    else
      var last := |kinds| - 1;
      Reactions(kinds[..last]) + if kinds[last].Reaction? then [kinds[last].emoji] else []
  }

  function FinalText(text: string, kinds: seq<Kind>): string {
    if kinds == [] then text
    else
      var last := |kinds| - 1;
      match kinds[last]
      case Edit(body) => body
      case Delete => DELETED_TEXT
      case _ => FinalText(text, kinds[..last])
  }

  lemma {:induction false} ApplyAllIs(m: Shown, kinds: seq<Kind>)
    ensures ApplyAll(m, kinds)
         == m.(text := FinalText(m.text, kinds), reactions := m.reactions + Reactions(kinds),
               isEdited := m.isEdited || HasEdit(kinds), isDeleted := m.isDeleted || HasDelete(kinds))
  {
    if kinds == [] {
      assert m.reactions + [] == m.reactions;
    } else {
      var init, kind := kinds[..|kinds| - 1], kinds[|kinds| - 1];
      assert kinds == init + [kind];
      ApplyAllIs(m, init);
      FlagsSnoc(init, kind);
      assert m.reactions + Reactions(kinds)
          == m.reactions + Reactions(init) + if kind.Reaction? then [kind.emoji] else [];
    }
  }

  lemma FlagsSnoc(kinds: seq<Kind>, kind: Kind)
    ensures HasEdit(kinds + [kind]) <==> HasEdit(kinds) || kind.Edit?
    ensures HasDelete(kinds + [kind]) <==> HasDelete(kinds) || kind.Delete?
  {
    var more := kinds + [kind];
    assert more[|kinds|] == kind;
    assert forall i :: 0 <= i < |kinds| ==> more[i] == kinds[i];
  }

  lemma {:induction false} JoinKinds(text: string, early: seq<Kind>, late: seq<Kind>)
    ensures Reactions(early + late) == Reactions(early) + Reactions(late)
    ensures FinalText(text, early + late) == FinalText(FinalText(text, early), late)
    ensures HasEdit(early + late) <==> HasEdit(early) || HasEdit(late)
    ensures HasDelete(early + late) <==> HasDelete(early) || HasDelete(late)
  {
    if late == [] {
      assert early + late == early;
    } else {
      var init, kind := late[..|late| - 1], late[|late| - 1];
      assert late == init + [kind];
      assert (early + late)[..|early + late| - 1] == early + init;
      assert early + late == early + init + [kind];
      JoinKinds(text, early, init);
      FlagsSnoc(init, kind);
      FlagsSnoc(early + init, kind);
    }
  }

  /** The text is settled by the last edit or deletion, or untouched without one. */
  lemma {:induction false} FinalTextSettled(text: string, text': string, kinds: seq<Kind>)
    ensures HasEdit(kinds) || HasDelete(kinds) ==> FinalText(text, kinds) == FinalText(text', kinds)
    ensures !HasEdit(kinds) && !HasDelete(kinds) ==> FinalText(text, kinds) == text
  {
    if kinds != [] {
      var init, kind := kinds[..|kinds| - 1], kinds[|kinds| - 1];
      assert kinds == init + [kind];
      FlagsSnoc(init, kind);
      FinalTextSettled(text, text', init);
    }
  }

  lemma {:induction false} NoReactions(kinds: seq<Kind>)
    ensures Reactions(kinds) == [] <==> forall i :: 0 <= i < |kinds| ==> !kinds[i].Reaction?
  {
    if kinds != [] {
      var init := kinds[..|kinds| - 1];
      assert kinds == init + [kinds[|kinds| - 1]];
      NoReactions(init);
      assert forall i :: 0 <= i < |init| ==> init[i] == kinds[i];
    }
  }

  /** Early events leave no trace exactly when they are masked. */
  lemma MaskedExactly(m: MessageRow, early: seq<Kind>, late: seq<Kind>)
    ensures ApplyAll(Plain(m), early + late) == ApplyAll(Plain(m), late) <==> Masked(early, late)
  {
    ApplyAllIs(Plain(m), early + late);
    ApplyAllIs(Plain(m), late);
    JoinKinds(m.content, early, late);
    NoReactions(early);
    FinalTextSettled(m.content, FinalText(m.content, early), late);
    FinalTextSettled(m.content, m.content, early);
    FinalTextSettled(FinalText(m.content, early), m.content, late);
    assert |Reactions(early) + Reactions(late)| == |Reactions(late)| <==> Reactions(early) == [];
  }
}
