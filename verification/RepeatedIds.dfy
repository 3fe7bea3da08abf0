/**
 A conversation in which ids may repeat: what the tables and the screen hold after any
 log of arrivals, and when its reloads still show the screen.
 */
module RepeatedIds {
  import opened ChatLog
  import opened History
  import opened QueryAnswers
  import opened ReplayEqualsLive

  // ── The event table ─────────────────────────────────────────────────────────

  /** The log without the events whose id an earlier event had. */
  ghost function Kept(log: seq<Incoming>): seq<Incoming> {
    if log == [] then []
    else Kept(Init(log)) + if Last(log).Event? && HasEvent(Init(log), Last(log).id) then [] else [Last(log)]
  }

  lemma ReceiveLast(log: seq<Incoming>, p: Incoming)
    ensures ReceiveAll(log + [p]) == Receive(ReceiveAll(log), p)
    ensures TextsOf(log + [p]) == TextsOf(log) + if p.Text? then [RowOf(p)] else []
  {
    Arrives(log, p, "");
    assert (log + [p])[..|log|] == log;
  }

  lemma KnownSnoc(events: seq<EventRow>, e: EventRow, id: Id)
    ensures KnownEvent(events + [e], id) <==> KnownEvent(events, id) || e.id == id
  {
    assert (events + [e])[|events|] == e;
    assert forall i :: 0 <= i < |events| ==> (events + [e])[i] == events[i];
  }

  /** The event table knows the ids of the events that arrived. */
  lemma {:induction false} KnownExactly(log: seq<Incoming>, id: Id)
    ensures KnownEvent(ReceiveAll(log).events, id) <==> HasEvent(log, id)
  {
    if log != [] {
      var p, before := Last(log), ReceiveAll(Init(log));
      KnownExactly(Init(log), id);
      HasSnoc(log, id);
      if p.Event? && !KnownEvent(before.events, p.id) {
        KnownSnoc(before.events, StoredRow(p), id);
      }
    }
  }

  /** An event that repeats an id changes neither the tables nor the screen, so the chat is
      that of the log without them. */
  lemma {:induction false} RepeatedEventsDropOut(log: seq<Incoming>)
    ensures ReceiveAll(Kept(log)) == ReceiveAll(log)
    ensures TextsOf(Kept(log)) == TextsOf(log)
  {
    if log != [] {
      var init, p := Init(log), Last(log);
      RepeatedEventsDropOut(init);
      KnownExactly(init, p.id);
      if p.Event? && HasEvent(init, p.id) {
        assert Kept(log) == Kept(init);
        assert TextsOf(log) == TextsOf(init);
      } else {
        assert Kept(log) == Kept(init) + [p];
        ReceiveLast(Kept(init), p);
      }
    }
  }

  lemma {:induction false} KeptEvents(log: seq<Incoming>, id: Id)
    ensures HasEvent(Kept(log), id) <==> HasEvent(log, id)
  {
    if log != [] {
      var init, p := Init(log), Last(log);
      KeptEvents(init, id);
      HasSnoc(log, id);
      if !(p.Event? && HasEvent(init, p.id)) {
        assert Kept(log) == Kept(init) + [p];
        assert Init(Kept(log)) == Kept(init) && Last(Kept(log)) == p;
        HasSnoc(Kept(log), id);
      } else {
        assert Kept(log) == Kept(init);
      }
    }
  }

  ghost predicate TextsDiffer(log: seq<Incoming>) {
    forall i, j :: 0 <= i < j < |TextsOf(log)| ==> TextsOf(log)[i].id != TextsOf(log)[j].id
  }

  lemma NewText(log: seq<Incoming>)
    requires log != [] && TextsDiffer(log)
    ensures TextsDiffer(Init(log))
    ensures Last(log).Text? ==>
              forall k :: 0 <= k < |TextsOf(Init(log))| ==> TextsOf(Init(log))[k].id != Last(log).id
  {
    var before, after := TextsOf(Init(log)), TextsOf(log);
    assert forall i :: 0 <= i < |before| ==> before[i] == after[i];
    if Last(log).Text? {
      assert after[|before|].id == Last(log).id;
    }
  }

  lemma DistinctSnoc(log: seq<Incoming>, p: Incoming)
    requires DistinctIds(log)
    requires forall i :: 0 <= i < |log| && log[i].Text? == p.Text? ==> log[i].id != p.id
    ensures DistinctIds(log + [p])
  {
  }

  /** Without repeated texts, nothing repeats in the log that is kept. */
  lemma {:induction false} KeptDistinct(log: seq<Incoming>)
    requires TextsDiffer(log)
    ensures DistinctIds(Kept(log))
  {
    if log != [] {
      var init, p := Init(log), Last(log);
      NewText(log);
      KeptDistinct(init);
      if p.Event? && HasEvent(init, p.id) {
        assert Kept(log) == Kept(init);
      } else {
        forall i | 0 <= i < |Kept(init)| && Kept(init)[i].Text? == p.Text?
          ensures Kept(init)[i].id != p.id
        {
          NotYet(init, p, i);
        }
        DistinctSnoc(Kept(init), p);
      }
    }
  }

  lemma NotYet(init: seq<Incoming>, p: Incoming, i: nat)
    requires i < |Kept(init)| && Kept(init)[i].Text? == p.Text?
    requires p.Event? ==> !HasEvent(init, p.id)
    requires p.Text? ==> forall k :: 0 <= k < |TextsOf(init)| ==> TextsOf(init)[k].id != p.id
    ensures Kept(init)[i].id != p.id
  {
    if p.Event? {
      KeptEvents(init, p.id);
    } else {
      RepeatedEventsDropOut(init);
      TextInLog(Kept(init), i);
    }
  }

  lemma {:induction false} TextInLog(log: seq<Incoming>, i: nat)
    requires i < |log| && log[i].Text?
    ensures exists k :: 0 <= k < |TextsOf(log)| && TextsOf(log)[k].id == log[i].id
  {
    if i == |log| - 1 {
      assert TextsOf(log)[|TextsOf(log)| - 1].id == log[i].id;
    } else {
      TextInLog(Init(log), i);
      var k :| 0 <= k < |TextsOf(Init(log))| && TextsOf(Init(log))[k].id == log[i].id;
      assert TextsOf(log)[k].id == log[i].id;
    }
  }

  // ── The message table ───────────────────────────────────────────────────────

  ghost predicate HasRow(rows: seq<MessageRow>, id: Id) {
    exists i :: 0 <= i < |rows| && rows[i].id == id
  }

  /** The first text of every id, in order of arrival. */
  ghost function Firsts(rows: seq<MessageRow>): seq<MessageRow> {
    if rows == [] then []
    else
      var init, m := rows[..|rows| - 1], rows[|rows| - 1];
      Firsts(init) + if HasRow(init, m.id) then [] else [m]
  }

  /** The body of the last text with that id, if there is one. */
  function LastBody(rows: seq<MessageRow>, id: Id, body: string): string {
    if rows == [] then body
    else if rows[|rows| - 1].id == id then rows[|rows| - 1].content
    else LastBody(rows[..|rows| - 1], id, body)
  }

  ghost function Saved(rows: seq<MessageRow>): seq<MessageRow> {
    Map(Firsts(rows), (m: MessageRow) => m.(content := LastBody(rows, m.id, m.content)))
  }

  lemma HasRowSnoc(rows: seq<MessageRow>, m: MessageRow, id: Id)
    ensures HasRow(rows + [m], id) <==> HasRow(rows, id) || m.id == id
  {
    assert (rows + [m])[|rows|] == m;
    assert forall i :: 0 <= i < |rows| ==> (rows + [m])[i] == rows[i];
  }

  lemma {:induction false} FirstsHave(rows: seq<MessageRow>, id: Id)
    ensures HasRow(Firsts(rows), id) <==> HasRow(rows, id)
  {
    if rows != [] {
      var init, m := rows[..|rows| - 1], rows[|rows| - 1];
      assert rows == init + [m];
      FirstsHave(init, id);
      HasRowSnoc(init, m, id);
      HasRowSnoc(Firsts(init), m, id);
      assert Firsts(init) + [] == Firsts(init);
    }
  }

  lemma SavedHas(rows: seq<MessageRow>, id: Id)
    ensures HasRow(Saved(rows), id) <==> HasRow(rows, id)
  {
    FirstsHave(rows, id);
    assert forall i :: 0 <= i < |Saved(rows)| ==> Saved(rows)[i].id == Firsts(rows)[i].id;
  }

  lemma OneMoreText(rows: seq<MessageRow>, m: MessageRow, id: Id, body: string)
    ensures Firsts(rows + [m]) == Firsts(rows) + if HasRow(rows, m.id) then [] else [m]
    ensures LastBody(rows + [m], id, body) == if m.id == id then m.content else LastBody(rows, id, body)
  {
    assert (rows + [m])[..|rows|] == rows;
  }

  /** The upsert on a known id takes the new body and nothing else. */
  lemma SaveAgain(rows: seq<MessageRow>, m: MessageRow)
    requires HasRow(rows, m.id)
    ensures SaveMessage(Saved(rows), m) == Saved(rows + [m])
  {
    SavedHas(rows, m.id);
    OneMoreText(rows, m, m.id, m.content);
    assert Firsts(rows + [m]) == Firsts(rows);
    forall i | 0 <= i < |Firsts(rows)|
      ensures SaveMessage(Saved(rows), m)[i] == Saved(rows + [m])[i]
    {
      OneMoreText(rows, m, Firsts(rows)[i].id, Firsts(rows)[i].content);
    }
  }

  lemma SaveFirst(rows: seq<MessageRow>, m: MessageRow)
    requires !HasRow(rows, m.id)
    ensures SaveMessage(Saved(rows), m) == Saved(rows + [m])
  {
    SavedHas(rows, m.id);
    FirstsHave(rows, m.id);
    OneMoreText(rows, m, m.id, m.content);
    assert SaveMessage(Saved(rows), m) == Saved(rows) + [m];
    forall i | 0 <= i < |Firsts(rows)|
      ensures Saved(rows)[i] == Saved(rows + [m])[i]
    {
      OneMoreText(rows, m, Firsts(rows)[i].id, Firsts(rows)[i].content);
    }
    assert Saved(rows + [m])[|Firsts(rows)|] == m;
  }

  /** After any log the message table has one row for each text id, in order of first
      arrival: the sender, time and parent of its first text, the body of its last. */
  lemma {:induction false} TableKeepsFirsts(log: seq<Incoming>)
    ensures ReceiveAll(log).messages == Saved(TextsOf(log))
  {
    if log != [] {
      TableKeepsFirsts(Init(log));
      if Last(log).Text? {
        var rows, m := TextsOf(Init(log)), RowOf(Last(log));
        if HasRow(rows, m.id) { SaveAgain(rows, m); } else { SaveFirst(rows, m); }
      } else {
        assert TextsOf(log) == TextsOf(Init(log));
      }
    }
  }

  // ── The screen ──────────────────────────────────────────────────────────────

  lemma EventsKeepIdentity(live: seq<Shown>, rows: seq<MessageRow>, target: Id, kind: Kind)
    requires |live| == |rows| && forall i :: 0 <= i < |rows| ==> Shows(live[i], rows[i])
    ensures forall i :: 0 <= i < |rows| ==> Shows(ApplyTo(live, target, kind)[i], rows[i])
  {
    forall i | 0 <= i < |rows|
      ensures Shows(ApplyTo(live, target, kind)[i], rows[i])
    {
      ApplyToAt(live, target, kind, i);
    }
  }

  /** On screen every text has its own row, a repeated one too. */
  lemma {:induction false} LiveShowsTexts(log: seq<Incoming>)
    ensures |ReceiveAll(log).live| == |TextsOf(log)|
    ensures forall i :: 0 <= i < |TextsOf(log)| ==> Shows(ReceiveAll(log).live[i], TextsOf(log)[i])
  {
    if log != [] {
      var init, p := Init(log), Last(log);
      var before := ReceiveAll(init);
      LiveShowsTexts(init);
      if p.Event? && !KnownEvent(before.events, p.id) {
        EventsKeepIdentity(before.live, TextsOf(init), p.target, p.kind);
      }
    }
  }

  // ── Reloads after any log ───────────────────────────────────────────────────

  lemma {:induction false} FewerRows(rows: seq<MessageRow>)
    ensures |Firsts(rows)| <= |rows|
    ensures |Firsts(rows)| == |rows|
       <==> forall i, j :: 0 <= i < j < |rows| ==> rows[i].id != rows[j].id
  {
    if rows != [] {
      var init, m := rows[..|rows| - 1], rows[|rows| - 1];
      FewerRows(init);
      assert forall i :: 0 <= i < |init| ==> init[i] == rows[i];
    }
  }

  /** A reload of any log has as many rows as the table, and there is one. */
  lemma AnyReload(log: seq<Incoming>) returns (shown: seq<Shown>)
    ensures MayShow(ReceiveAll(log), shown) && |shown| == |ReceiveAll(log).messages|
  {
    var c := ReceiveAll(log);
    var base, events := OrderBy(c.messages, MessageTime), OrderBy(Joined(c.events, c.messages), EventTime);
    OrderByAnswers(c.messages, MessageTime);
    OrderByAnswers(Joined(c.events, c.messages), EventTime);
    assert |multiset(base)| == |base| && |multiset(c.messages)| == |c.messages|;
    shown := Reload(base, events);
  }

  /** If a text repeated an id, the reloads are shorter than the screen. */
  lemma RepeatedTextDiffers(log: seq<Incoming>, list: seq<Shown>)
    requires !TextsDiffer(log) && |list| == |ReceiveAll(log).live|
    ensures !ReloadsShow(log, list)
  {
    LiveShowsTexts(log);
    TableKeepsFirsts(log);
    FewerRows(TextsOf(log));
    var shown := AnyReload(log);
  }

  lemma OrderedLength(log: seq<Incoming>)
    ensures |OrderBy(ReceiveAll(log).live, ShownTime)| == |ReceiveAll(log).live|
  {
    var live := ReceiveAll(log).live;
    OrderByAnswers(live, ShownTime);
    assert |multiset(live)| == |live| && |multiset(OrderBy(live, ShownTime))| == |OrderBy(live, ShownTime)|;
  }

  /** What the theorems for distinct ids need of the log that is kept. */
  lemma KeptIsOrdinary(log: seq<Incoming>)
    requires TextsDiffer(log)
    ensures DistinctIds(Kept(log)) && TextsOf(Kept(log)) == TextsOf(log)
    ensures ReceiveAll(Kept(log)) == ReceiveAll(log) && EventsOf(Kept(log)) == ReceiveAll(log).events
  {
    RepeatedEventsDropOut(log);
    KeptDistinct(log);
    TablesHoldLog(Kept(log));
  }

  /**
   After any log, reloading always shows exactly the list on screen when and only when no
   text repeated an id, texts arrived in the order of distinct times, and every message is
   settled by the events that are not repeated.
   */
  lemma ReplayOfAnyLog(log: seq<Incoming>)
    requires SortedBy(ReceiveAll(log).events, EventTime)
    ensures ReloadsShow(log, ReceiveAll(log).live)
       <==> TextsDiffer(log) && Strictly(TextsOf(log), MessageTime) && AllSettled(Kept(log))
  {
    if TextsDiffer(log) {
      KeptIsOrdinary(log);
      ReplayEqualsLive.ReplayEqualsLive(Kept(log));
    } else {
      RepeatedTextDiffers(log, ReceiveAll(log).live);
    }
  }

  /** The same of that list in time order, for texts that arrived in any order. */
  lemma AnyLogInTimeOrder(log: seq<Incoming>)
    requires SortedBy(ReceiveAll(log).events, EventTime)
    ensures ReloadsShow(log, OrderBy(ReceiveAll(log).live, ShownTime))
       <==> TextsDiffer(log) && TimesDiffer(TextsOf(log), MessageTime) && AllSettled(Kept(log))
  {
    if TextsDiffer(log) {
      KeptIsOrdinary(log);
      ReplayAgreesExactly(Kept(log));
    } else {
      OrderedLength(log);
      RepeatedTextDiffers(log, OrderBy(ReceiveAll(log).live, ShownTime));
    }
  }
}
