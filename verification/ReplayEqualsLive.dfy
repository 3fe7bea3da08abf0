/**
 Reloading a conversation against what was on screen. `getMessages` may return any list
 that some answers of its queries give; all of them are the live list exactly when no
 early event, one that arrived before the message it is about, leaves a mark that later
 events of that message do not cover, and rows stored at one time agree.
 */
module ReplayEqualsLive {
  import opened ChatLog
  import opened History
  import opened QueryAnswers

  // ── The condition ───────────────────────────────────────────────────────────

  /** The vault's clock does not run back between two stored events. */
  ghost predicate EventsInOrder(log: seq<Incoming>) {
    SortedBy(EventsOf(log), EventTime)
  }

  function ReactionTo(id: Id): EventRow -> bool {
    (e: EventRow) => e.target == id && e.kind.Reaction?
  }

  function EditOf(id: Id): EventRow -> bool {
    (e: EventRow) => e.target == id && e.kind.Edit?
  }

  function DeletionOf(id: Id): EventRow -> bool {
    (e: EventRow) => e.target == id && e.kind.Delete?
  }

  /** Edits and deletions write a message's text. */
  function WriteTo(id: Id): EventRow -> bool {
    (e: EventRow) => e.target == id && (e.kind.Edit? || e.kind.Delete?)
  }

  function Emoji(e: EventRow): string {
    if e.kind.Reaction? then e.kind.emoji else ""
  }

  function Written(e: EventRow): string {
    if e.kind.Edit? then e.kind.body else DELETED_TEXT
  }

  /** The writes stored at the time of the last one all write its text. */
  ghost predicate LastTieAgrees(writes: seq<EventRow>) {
    forall i :: 0 <= i < |writes| && EventTime(writes[i]) == EventTime(writes[|writes| - 1]) ==>
      Written(writes[i]) == Written(writes[|writes| - 1])
  }

  /** Reactions of one time carry one emoji, and the last writes one text. */
  ghost predicate TiesHarmless(events: seq<EventRow>, id: Id) {
    && TiesAgree(Only(events, ReactionTo(id)), EventTime, Emoji)
    && LastTieAgrees(Only(events, WriteTo(id)))
  }

  ghost predicate Settled(log: seq<Incoming>, id: Id) {
    Masked(Early(log, id), Late(log, id)) && TiesHarmless(EventsOf(log), id)
  }

  ghost predicate AllSettled(log: seq<Incoming>) {
    forall m :: m in TextsOf(log) ==> Settled(log, m.id)
  }

  // ── One message, rebuilt from its rows ──────────────────────────────────────

  lemma ReactionsSnoc(kinds: seq<Kind>, kind: Kind)
    ensures Reactions(kinds + [kind]) == Reactions(kinds) + if kind.Reaction? then [kind.emoji] else []
  {
    assert (kinds + [kind])[..|kinds|] == kinds;
  }

  lemma {:induction false} ReactionsOf(rows: seq<EventRow>, id: Id)
    ensures Reactions(KindsFor(rows, id)) == Map(Only(rows, ReactionTo(id)), Emoji)
  {
    if rows != [] {
      var init, e := rows[..|rows| - 1], rows[|rows| - 1];
      ReactionsOf(init, id);
      ReactionsSnoc(KindsFor(init, id), e.kind);
      MapSnoc(Only(init, ReactionTo(id)), e, Emoji);
      assert KindsFor(init, id) + [] == KindsFor(init, id);
      assert Only(init, ReactionTo(id)) + [] == Only(init, ReactionTo(id));
    }
  }

  function TextAfter(text: string, writes: seq<EventRow>): string {
    if writes == [] then text else Written(writes[|writes| - 1])
  }

  lemma TextSnoc(text: string, kinds: seq<Kind>, kind: Kind)
    ensures FinalText(text, kinds + [kind])
         == if kind.Edit? then kind.body else if kind.Delete? then DELETED_TEXT else FinalText(text, kinds)
  {
    assert (kinds + [kind])[..|kinds|] == kinds;
  }

  lemma {:induction false} TextOf(text: string, rows: seq<EventRow>, id: Id)
    ensures FinalText(text, KindsFor(rows, id)) == TextAfter(text, Only(rows, WriteTo(id)))
  {
    if rows != [] {
      var init, e := rows[..|rows| - 1], rows[|rows| - 1];
      TextOf(text, init, id);
      TextSnoc(text, KindsFor(init, id), e.kind);
      assert KindsFor(init, id) + [] == KindsFor(init, id);
      assert Only(init, WriteTo(id)) + [] == Only(init, WriteTo(id));
    }
  }

  lemma {:induction false} FlagsOf(rows: seq<EventRow>, id: Id)
    ensures HasEdit(KindsFor(rows, id)) <==> Only(rows, EditOf(id)) != []
    ensures HasDelete(KindsFor(rows, id)) <==> Only(rows, DeletionOf(id)) != []
  {
    if rows != [] {
      var init, e := rows[..|rows| - 1], rows[|rows| - 1];
      FlagsOf(init, id);
      FlagsSnoc(KindsFor(init, id), e.kind);
      assert KindsFor(init, id) + [] == KindsFor(init, id);
    }
  }

  lemma RebuiltIs(m: MessageRow, rows: seq<EventRow>)
    ensures Rebuilt(m, rows)
         == Plain(m).(text := TextAfter(m.content, Only(rows, WriteTo(m.id))),
                      reactions := Map(Only(rows, ReactionTo(m.id)), Emoji),
                      isEdited := Only(rows, EditOf(m.id)) != [],
                      isDeleted := Only(rows, DeletionOf(m.id)) != [])
  {
    ApplyAllIs(Plain(m), KindsFor(rows, m.id));
    ReactionsOf(rows, m.id);
    TextOf(m.content, rows, m.id);
    FlagsOf(rows, m.id);
    assert [] + Reactions(KindsFor(rows, m.id)) == Reactions(KindsFor(rows, m.id));
  }

  lemma SameEmptiness<T>(a: seq<T>, b: seq<T>)
    requires multiset(a) == multiset(b)
    ensures a == [] <==> b == []
  {
    assert |multiset(a)| == |a| && |multiset(b)| == |b|;
  }

  lemma TextAgrees(text: string, writes: seq<EventRow>, answer: seq<EventRow>)
    requires SortedBy(writes, EventTime) && Answer(writes, answer, EventTime) && LastTieAgrees(writes)
    ensures TextAfter(text, answer) == TextAfter(text, writes)
  {
    SameEmptiness(writes, answer);
    if writes != [] {
      SameTimes(writes, answer, EventTime);
      var i := AnswerAt(writes, answer, EventTime, |answer| - 1);
    }
  }

  /** With harmless ties every answer rebuilds the same message. */
  lemma AnswersAgree(m: MessageRow, rows: seq<EventRow>, answer: seq<EventRow>)
    requires SortedBy(rows, EventTime) && Answer(rows, answer, EventTime) && TiesHarmless(rows, m.id)
    ensures Rebuilt(m, answer) == Rebuilt(m, rows)
  {
    RebuiltIs(m, rows);
    RebuiltIs(m, answer);
    OnlyAnswers(rows, answer, EventTime, ReactionTo(m.id));
    OnlySorted(rows, ReactionTo(m.id), EventTime);
    AgreedInOrder(Only(rows, ReactionTo(m.id)), Only(answer, ReactionTo(m.id)), EventTime, Emoji);
    OnlyAnswers(rows, answer, EventTime, WriteTo(m.id));
    OnlySorted(rows, WriteTo(m.id), EventTime);
    TextAgrees(m.content, Only(rows, WriteTo(m.id)), Only(answer, WriteTo(m.id)));
    OnlyAnswers(rows, answer, EventTime, EditOf(m.id));
    SameEmptiness(Only(rows, EditOf(m.id)), Only(answer, EditOf(m.id)));
    OnlyAnswers(rows, answer, EventTime, DeletionOf(m.id));
    SameEmptiness(Only(rows, DeletionOf(m.id)), Only(answer, DeletionOf(m.id)));
  }

  lemma ReactionTieShows(m: MessageRow, rows: seq<EventRow>, i: nat, j: nat) returns (answer: seq<EventRow>)
    requires SortedBy(rows, EventTime) && i < j < |Only(rows, ReactionTo(m.id))|
    requires var reactions := Only(rows, ReactionTo(m.id));
             EventTime(reactions[i]) == EventTime(reactions[j]) && Emoji(reactions[i]) != Emoji(reactions[j])
    ensures Answer(rows, answer, EventTime) && Rebuilt(m, answer) != Rebuilt(m, rows)
  {
    var reactions := Only(rows, ReactionTo(m.id));
    answer := SwapPart(rows, ReactionTo(m.id), EventTime, i, j);
    RebuiltIs(m, rows);
    RebuiltIs(m, answer);
    assert Map(Only(answer, ReactionTo(m.id)), Emoji)[i] == Emoji(reactions[j]);
    assert Map(reactions, Emoji)[i] == Emoji(reactions[i]);
  }

  lemma WriteTieShows(m: MessageRow, rows: seq<EventRow>, i: nat) returns (answer: seq<EventRow>)
    requires SortedBy(rows, EventTime) && i < |Only(rows, WriteTo(m.id))| - 1
    requires var writes := Only(rows, WriteTo(m.id));
             && EventTime(writes[i]) == EventTime(writes[|writes| - 1])
             && Written(writes[i]) != Written(writes[|writes| - 1])
    ensures Answer(rows, answer, EventTime) && Rebuilt(m, answer) != Rebuilt(m, rows)
  {
    var writes := Only(rows, WriteTo(m.id));
    answer := SwapPart(rows, WriteTo(m.id), EventTime, i, |writes| - 1);
    RebuiltIs(m, rows);
    RebuiltIs(m, answer);
    assert TextAfter(m.content, Only(answer, WriteTo(m.id))) == Written(writes[i]);
  }

  lemma SomeWriteTie(writes: seq<EventRow>) returns (i: nat)
    requires !LastTieAgrees(writes)
    ensures i < |writes| - 1 && EventTime(writes[i]) == EventTime(writes[|writes| - 1])
    ensures Written(writes[i]) != Written(writes[|writes| - 1])
  {
    i :| 0 <= i < |writes| && EventTime(writes[i]) == EventTime(writes[|writes| - 1])
      && Written(writes[i]) != Written(writes[|writes| - 1]);
    assert i != |writes| - 1;
  }

  lemma SomeReactionTie(reactions: seq<EventRow>) returns (i: nat, j: nat)
    requires !TiesAgree(reactions, EventTime, Emoji)
    ensures i < j < |reactions| && EventTime(reactions[i]) == EventTime(reactions[j])
    ensures Emoji(reactions[i]) != Emoji(reactions[j])
  {
    i, j :| 0 <= i < j < |reactions| && EventTime(reactions[i]) == EventTime(reactions[j])
         && Emoji(reactions[i]) != Emoji(reactions[j]);
  }

  /** With any other tie some answer rebuilds another message. */
  lemma TieShows(m: MessageRow, rows: seq<EventRow>) returns (answer: seq<EventRow>)
    requires SortedBy(rows, EventTime) && !TiesHarmless(rows, m.id)
    ensures Answer(rows, answer, EventTime) && Rebuilt(m, answer) != Rebuilt(m, rows)
  {
    if !TiesAgree(Only(rows, ReactionTo(m.id)), EventTime, Emoji) {
      var i, j := SomeReactionTie(Only(rows, ReactionTo(m.id)));
      answer := ReactionTieShows(m, rows, i, j);
    } else {
      var i := SomeWriteTie(Only(rows, WriteTo(m.id)));
      answer := WriteTieShows(m, rows, i);
    }
  }

  // ── The rows of a log ───────────────────────────────────────────────────────

  /** The rows the second query answers with. */
  function JoinedOf(log: seq<Incoming>): seq<EventRow> {
    Joined(EventsOf(log), TextsOf(log))
  }

  lemma JoinedPart(log: seq<Incoming>, m: MessageRow, p: EventRow -> bool)
    requires m in TextsOf(log) && forall e :: p(e) ==> e.target == m.id
    ensures Only(JoinedOf(log), p) == Only(EventsOf(log), p)
  {
    var k :| 0 <= k < |TextsOf(log)| && TextsOf(log)[k] == m;
    OnlyTwice(EventsOf(log), p, OfStored(TextsOf(log)));
  }

  lemma TiesOfLog(log: seq<Incoming>, m: MessageRow)
    requires m in TextsOf(log)
    ensures TiesHarmless(JoinedOf(log), m.id) <==> TiesHarmless(EventsOf(log), m.id)
  {
    JoinedPart(log, m, ReactionTo(m.id));
    JoinedPart(log, m, WriteTo(m.id));
  }

  /** From the table's own order a message is rebuilt from all its events, early ones first. */
  lemma RebuiltIsAll(log: seq<Incoming>, m: MessageRow)
    requires m in TextsOf(log)
    ensures Rebuilt(m, JoinedOf(log)) == ApplyAll(Plain(m), Early(log, m.id) + Late(log, m.id))
  {
    var k :| 0 <= k < |TextsOf(log)| && TextsOf(log)[k] == m;
    JoinedKinds(EventsOf(log), TextsOf(log), k);
    KindsAreEarlyThenLate(log, m.id);
  }

  ghost predicate RowAgrees(log: seq<Incoming>, m: MessageRow) {
    forall events :: Answer(JoinedOf(log), events, EventTime) ==> Rebuilt(m, events) == LiveView(log, m)
  }

  /** One message looks the same live and after every reload exactly when it is settled. */
  lemma RowAgreesExactly(log: seq<Incoming>, m: MessageRow)
    requires EventsInOrder(log) && m in TextsOf(log)
    ensures RowAgrees(log, m) <==> Settled(log, m.id)
  {
    var rows := JoinedOf(log);
    OnlySorted(EventsOf(log), OfStored(TextsOf(log)), EventTime);
    TiesOfLog(log, m);
    RebuiltIsAll(log, m);
    MaskedExactly(m, Early(log, m.id), Late(log, m.id));
    assert Answer(rows, rows, EventTime);
    if Settled(log, m.id) {
      forall events | Answer(rows, events, EventTime)
        ensures Rebuilt(m, events) == LiveView(log, m)
      {
        AnswersAgree(m, rows, events);
      }
    } else if !TiesHarmless(rows, m.id) {
      var other := TieShows(m, rows);
      assert Rebuilt(m, other) != Rebuilt(m, rows);
    }
  }

  // ── Whole lists ─────────────────────────────────────────────────────────────

  lemma {:induction false} TextIdsDiffer(log: seq<Incoming>, i: nat, j: nat)
    requires DistinctIds(log) && i < j < |TextsOf(log)|
    ensures TextsOf(log)[i].id != TextsOf(log)[j].id
  {
    assert forall k :: 0 <= k < |Init(log)| ==> Init(log)[k] == log[k];
    NewIdInNoTable(log);
    if j < |TextsOf(Init(log))| {
      TextIdsDiffer(Init(log), i, j);
    }
  }

  lemma LiveInTimeOrder(log: seq<Incoming>)
    requires DistinctIds(log)
    ensures OrderBy(ReceiveAll(log).live, ShownTime)
         == Map(OrderBy(TextsOf(log), MessageTime), m => LiveView(log, m))
  {
    LiveIsLate(log);
    assert ReceiveAll(log).live == Map(TextsOf(log), m => LiveView(log, m));
    forall m: MessageRow
      ensures ShownTime(LiveView(log, m)) == MessageTime(m)
    {
      KeepsIdentity(Plain(m), Late(log, m.id));
    }
    OrderMaps(TextsOf(log), MessageTime, m => LiveView(log, m), ShownTime);
  }

  lemma MayShowAnswers(log: seq<Incoming>, base: seq<MessageRow>, events: seq<EventRow>)
    requires DistinctIds(log)
    requires Answer(TextsOf(log), base, MessageTime) && Answer(JoinedOf(log), events, EventTime)
    ensures MayShow(ReceiveAll(log), Reload(base, events))
  {
    TablesHoldLog(log);
  }

  /** Every reload shows `list`. */
  ghost predicate ReloadsShow(log: seq<Incoming>, list: seq<Shown>) {
    forall shown :: MayShow(ReceiveAll(log), shown) ==> shown == list
  }

  /** Texts of one time may change places. */
  lemma TiedTextsShow(log: seq<Incoming>, list: seq<Shown>, i: nat, j: nat)
    requires DistinctIds(log) && EventsInOrder(log) && i < j < |TextsOf(log)|
    requires MessageTime(TextsOf(log)[i]) == MessageTime(TextsOf(log)[j])
    ensures !ReloadsShow(log, list)
  {
    var base, rows := OrderBy(TextsOf(log), MessageTime), JoinedOf(log);
    OnlySorted(EventsOf(log), OfStored(TextsOf(log)), EventTime);
    OrderByAnswers(TextsOf(log), MessageTime);
    var other, k := OtherOrder(log, i, j);
    MayShowAnswers(log, base, rows);
    MayShowAnswers(log, other, rows);
    RebuiltIs(other[k], rows);
    RebuiltIs(base[k], rows);
    assert Reload(other, rows)[k].id != Reload(base, rows)[k].id;
  }

  lemma OtherOrder(log: seq<Incoming>, i: nat, j: nat) returns (other: seq<MessageRow>, k: nat)
    requires DistinctIds(log) && i < j < |TextsOf(log)|
    requires MessageTime(TextsOf(log)[i]) == MessageTime(TextsOf(log)[j])
    ensures Answer(TextsOf(log), other, MessageTime)
    ensures var base := OrderBy(TextsOf(log), MessageTime);
            k < |other| == |base| && other[k].id != base[k].id
  {
    var texts, base := TextsOf(log), OrderBy(TextsOf(log), MessageTime);
    OrderByAnswers(texts, MessageTime);
    TextIdsDiffer(log, i, j);
    SameRows(texts, base, texts[i]);
    SameRows(texts, base, texts[j]);
    var a :| 0 <= a < |base| && base[a] == texts[i];
    var b :| 0 <= b < |base| && base[b] == texts[j];
    if a < b {
      other, k := Swapped(base, a, b), a;
      SwapAnswers(base, MessageTime, a, b);
    } else {
      other, k := Swapped(base, b, a), b;
      SwapAnswers(base, MessageTime, b, a);
    }
  }

  lemma OneBase(log: seq<Incoming>, base: seq<MessageRow>)
    requires TimesDiffer(TextsOf(log), MessageTime) && Answer(TextsOf(log), base, MessageTime)
    ensures base == OrderBy(TextsOf(log), MessageTime)
  {
    var texts := TextsOf(log);
    OrderByAnswers(texts, MessageTime);
    TimesStayApart(texts, OrderBy(texts, MessageTime), MessageTime);
    OnlyAnswer(OrderBy(texts, MessageTime), base, MessageTime);
  }

  lemma SettledRows(log: seq<Incoming>, base: seq<MessageRow>, events: seq<EventRow>)
    requires EventsInOrder(log) && AllSettled(log)
    requires Answer(TextsOf(log), base, MessageTime) && Answer(JoinedOf(log), events, EventTime)
    ensures Reload(base, events) == Map(base, m => LiveView(log, m))
  {
    forall k | 0 <= k < |base|
      ensures Rebuilt(base[k], events) == LiveView(log, base[k])
    {
      SameRows(TextsOf(log), base, base[k]);
      RowAgreesExactly(log, base[k]);
    }
  }

  lemma SettledReload(log: seq<Incoming>, shown: seq<Shown>)
    requires DistinctIds(log) && EventsInOrder(log) && MayShow(ReceiveAll(log), shown)
    requires TimesDiffer(TextsOf(log), MessageTime) && AllSettled(log)
    ensures shown == OrderBy(ReceiveAll(log).live, ShownTime)
  {
    TablesHoldLog(log);
    var base, events :| Answer(TextsOf(log), base, MessageTime) && Answer(JoinedOf(log), events, EventTime)
                     && shown == Reload(base, events);
    SettledRows(log, base, events);
    OneBase(log, base);
    LiveInTimeOrder(log);
  }

  /** A rebuilt message: its text's sender, time and parent, with the wording, reactions and
      marks of the given events about it. */
  ghost predicate ShowsWith(shown: Shown, m: MessageRow, events: seq<EventRow>) {
    && Shows(shown, m)
    && shown.text == TextAfter(m.content, Only(events, WriteTo(m.id)))
    && shown.reactions == Map(Only(events, ReactionTo(m.id)), Emoji)
    && (shown.isEdited <==> Only(events, EditOf(m.id)) != [])
    && (shown.isDeleted <==> Only(events, DeletionOf(m.id)) != [])
  }

  lemma RebuiltShows(m: MessageRow, events: seq<EventRow>)
    ensures ShowsWith(Rebuilt(m, events), m, events)
  {
    RebuiltIs(m, events);
  }

  lemma ReloadShows(base: seq<MessageRow>, events: seq<EventRow>)
    ensures |Reload(base, events)| == |base|
    ensures forall k :: 0 <= k < |base| ==> ShowsWith(Reload(base, events)[k], base[k], events)
  {
    forall k | 0 <= k < |base|
      ensures ShowsWith(Reload(base, events)[k], base[k], events)
    {
      RebuiltShows(base[k], events);
    }
  }

  /** Every stored text is in every reload, once, as its query's events leave it. */
  lemma ReloadedRows(log: seq<Incoming>, shown: seq<Shown>)
      returns (base: seq<MessageRow>, events: seq<EventRow>)
    requires DistinctIds(log) && MayShow(ReceiveAll(log), shown)
    ensures Answer(TextsOf(log), base, MessageTime) && Answer(JoinedOf(log), events, EventTime)
    ensures |shown| == |base| == |TextsOf(log)|
    ensures forall k :: 0 <= k < |base| ==> ShowsWith(shown[k], base[k], events)
  {
    TablesHoldLog(log);
    base, events :| Answer(TextsOf(log), base, MessageTime) && Answer(JoinedOf(log), events, EventTime)
                    && shown == Reload(base, events);
    assert |multiset(base)| == |base| && |multiset(TextsOf(log))| == |TextsOf(log)|;
    ReloadShows(base, events);
  }

  lemma ReloadRow(log: seq<Incoming>, events: seq<EventRow>, k: nat)
    requires DistinctIds(log) && Answer(JoinedOf(log), events, EventTime) && k < |OrderBy(TextsOf(log), MessageTime)|
    requires ReloadsShow(log, OrderBy(ReceiveAll(log).live, ShownTime))
    ensures var m := OrderBy(TextsOf(log), MessageTime)[k]; Rebuilt(m, events) == LiveView(log, m)
  {
    var base := OrderBy(TextsOf(log), MessageTime);
    OrderByAnswers(TextsOf(log), MessageTime);
    LiveInTimeOrder(log);
    MayShowAnswers(log, base, events);
    assert Reload(base, events)[k] == Rebuilt(base[k], events);
  }

  lemma ReloadSettled(log: seq<Incoming>, m: MessageRow)
    requires DistinctIds(log) && EventsInOrder(log) && m in TextsOf(log)
    requires ReloadsShow(log, OrderBy(ReceiveAll(log).live, ShownTime))
    ensures Settled(log, m.id)
  {
    var base := OrderBy(TextsOf(log), MessageTime);
    OrderByAnswers(TextsOf(log), MessageTime);
    SameRows(TextsOf(log), base, m);
    var k :| 0 <= k < |base| && base[k] == m;
    forall events | Answer(JoinedOf(log), events, EventTime)
      ensures Rebuilt(m, events) == LiveView(log, m)
    {
      ReloadRow(log, events, k);
    }
    RowAgreesExactly(log, m);
  }

  /**
   Whatever the queries answer, reloading shows the live list in time order, exactly
   when no two texts have one time and every message is settled.
   */
  lemma ReplayAgreesExactly(log: seq<Incoming>)
    requires DistinctIds(log) && EventsInOrder(log)
    ensures ReloadsShow(log, OrderBy(ReceiveAll(log).live, ShownTime))
       <==> TimesDiffer(TextsOf(log), MessageTime) && AllSettled(log)
  {
    var list := OrderBy(ReceiveAll(log).live, ShownTime);
    if ReloadsShow(log, list) {
      forall i, j | 0 <= i < j < |TextsOf(log)|
        ensures MessageTime(TextsOf(log)[i]) != MessageTime(TextsOf(log)[j])
      {
        if MessageTime(TextsOf(log)[i]) == MessageTime(TextsOf(log)[j]) {
          TiedTextsShow(log, list, i, j);
        }
      }
      forall m | m in TextsOf(log)
        ensures Settled(log, m.id)
      {
        ReloadSettled(log, m);
      }
    } else {
      var shown :| MayShow(ReceiveAll(log), shown) && shown != list;
      if TimesDiffer(TextsOf(log), MessageTime) && AllSettled(log) {
        SettledReload(log, shown);
      }
    }
  }

  /** Some reload exists, and it is in time order. */
  lemma SomeReload(log: seq<Incoming>) returns (shown: seq<Shown>)
    requires DistinctIds(log) && EventsInOrder(log)
    ensures MayShow(ReceiveAll(log), shown) && SortedBy(shown, ShownTime)
  {
    var base := OrderBy(TextsOf(log), MessageTime);
    OnlySorted(EventsOf(log), OfStored(TextsOf(log)), EventTime);
    OrderByAnswers(TextsOf(log), MessageTime);
    MayShowAnswers(log, base, JoinedOf(log));
    shown := Reload(base, JoinedOf(log));
    forall k | 0 <= k < |base|
      ensures ShownTime(shown[k]) == MessageTime(base[k])
    {
      RebuiltIs(base[k], JoinedOf(log));
    }
  }

  /** The live list's times are its texts', in order of arrival. */
  lemma LiveTimes(log: seq<Incoming>)
    requires DistinctIds(log)
    ensures SortedBy(ReceiveAll(log).live, ShownTime) <==> SortedBy(TextsOf(log), MessageTime)
  {
    LiveIsLate(log);
    forall i | 0 <= i < |TextsOf(log)|
      ensures ShownTime(ReceiveAll(log).live[i]) == MessageTime(TextsOf(log)[i])
    {
      KeepsIdentity(Plain(TextsOf(log)[i]), Late(log, TextsOf(log)[i].id));
    }
  }

  /**
   Reloading always shows exactly the list on screen, as it stands, when and only when
   the texts arrived in the order of distinct times and every message is settled.
   */
  lemma ReplayEqualsLive(log: seq<Incoming>)
    requires DistinctIds(log) && EventsInOrder(log)
    ensures ReloadsShow(log, ReceiveAll(log).live) <==> Strictly(TextsOf(log), MessageTime) && AllSettled(log)
  {
    var live := ReceiveAll(log).live;
    LiveTimes(log);
    ReplayAgreesExactly(log);
    if ReloadsShow(log, live) {
      var shown := SomeReload(log);
      assert SortedBy(live, ShownTime);
      OrderKeepsSorted(live, ShownTime);
    }
    if Strictly(TextsOf(log), MessageTime) {
      OrderKeepsSorted(live, ShownTime);
    }
  }

  // ── The ordinary case ───────────────────────────────────────────────────────

  /** Every event arrived after the message it is about. */
  ghost predicate TargetsFirst(log: seq<Incoming>) {
    forall i :: 0 <= i < |log| && log[i].Event? ==> HasText(log[..i], log[i].target)
  }

  lemma {:induction false} NothingEarly(log: seq<Incoming>, id: Id)
    requires TargetsFirst(log)
    ensures Early(log, id) == []
  {
    if log != [] {
      var init := Init(log);
      assert log[..|log| - 1] == init;
      forall i | 0 <= i < |init| && init[i].Event?
        ensures HasText(init[..i], init[i].target)
      {
        assert init[..i] == log[..i] && init[i] == log[i];
      }
      NothingEarly(init, id);
    }
  }

  /** With events after their messages, only ties can tell a reload from the screen. */
  lemma OnlyTiesTell(log: seq<Incoming>)
    requires DistinctIds(log) && EventsInOrder(log) && TargetsFirst(log)
    ensures ReloadsShow(log, ReceiveAll(log).live)
       <==> Strictly(TextsOf(log), MessageTime) && forall m :: m in TextsOf(log) ==> TiesHarmless(EventsOf(log), m.id)
  {
    forall m | m in TextsOf(log)
      ensures Settled(log, m.id) <==> TiesHarmless(EventsOf(log), m.id)
    {
      NothingEarly(log, m.id);
    }
    ReplayEqualsLive(log);
  }

  /** The clock moved between any two stored events. */
  ghost predicate EventsApart(log: seq<Incoming>) {
    Strictly(EventsOf(log), EventTime)
  }

  lemma NoTies(events: seq<EventRow>, id: Id)
    requires Strictly(events, EventTime)
    ensures TiesHarmless(events, id)
  {
    OnlyStrictly(events, ReactionTo(id), EventTime);
    OnlyStrictly(events, WriteTo(id), EventTime);
  }

  /** Distinct increasing times, events after their messages: every reload is the screen. */
  lemma ReplayInOrder(log: seq<Incoming>)
    requires DistinctIds(log) && EventsApart(log) && TargetsFirst(log) && Strictly(TextsOf(log), MessageTime)
    ensures ReloadsShow(log, ReceiveAll(log).live)
  {
    forall m | m in TextsOf(log)
      ensures TiesHarmless(EventsOf(log), m.id)
    {
      NoTies(EventsOf(log), m.id);
    }
    OnlyTiesTell(log);
  }

  // ── Logs whose reload differs ───────────────────────────────────────────────

  function RowOf(text: Incoming): MessageRow
    requires text.Text?
  {
    MessageRow(text.id, text.sender, text.body, text.sentAt, text.parent)
  }

  function StoredRow(e: Incoming): EventRow
    requires e.Event?
  {
    EventRow(e.id, e.target, e.kind, e.storedAt)
  }

  /** One more arrival. */
  lemma Arrives(log: seq<Incoming>, p: Incoming, id: Id)
    ensures TextsOf(log + [p]) == TextsOf(log) + if p.Text? then [RowOf(p)] else []
    ensures EventsOf(log + [p]) == EventsOf(log) + if p.Event? then [StoredRow(p)] else []
    ensures HasText(log + [p], id) <==> HasText(log, id) || (p.Text? && p.id == id)
    ensures Late(log + [p], id)
         == Late(log, id) + if p.Event? && p.target == id && HasText(log, id) then [p.kind] else []
    ensures Early(log + [p], id)
         == Early(log, id) + if p.Event? && p.target == id && !HasText(log, id) then [p.kind] else []
  {
    assert Init(log + [p]) == log;
    HasSnoc(log + [p], id);
  }

  /** A reaction that overtakes its message is lost on screen and back after every reload. */
  lemma OvertakingReactionDiffers(like: Incoming, text: Incoming)
    requires like.Event? && like.kind.Reaction? && text.Text? && like.target == text.id
    ensures forall shown :: MayShow(ReceiveAll([like, text]), shown) ==>
              shown != OrderBy(ReceiveAll([like, text]).live, ShownTime)
  {
    var log, row := [like, text], RowOf(text);
    Arrives([], like, text.id);
    Arrives([like], text, text.id);
    assert [] + [like] == [like] && [like] + [text] == log;
    assert TextsOf(log)[0] == row;
    assert Early(log, text.id)[0].Reaction?;
    RebuiltIsAll(log, row);
    MaskedExactly(row, Early(log, text.id), Late(log, text.id));
    OneRowEach(log, row);
  }

  lemma OneRowEach(log: seq<Incoming>, row: MessageRow)
    requires DistinctIds(log) && TextsOf(log) == [row] && |EventsOf(log)| <= 1
    requires Rebuilt(row, JoinedOf(log)) != LiveView(log, row)
    ensures forall shown :: MayShow(ReceiveAll(log), shown) ==> shown != OrderBy(ReceiveAll(log).live, ShownTime)
  {
    TablesHoldLog(log);
    LiveInTimeOrder(log);
    assert OrderBy([row], MessageTime) == [row];
    OnlyStrictly(EventsOf(log), OfStored(TextsOf(log)), EventTime);
    forall shown | MayShow(ReceiveAll(log), shown)
      ensures shown != OrderBy(ReceiveAll(log).live, ShownTime)
    {
      var base, events :| Answer([row], base, MessageTime) && Answer(JoinedOf(log), events, EventTime)
                       && shown == Reload(base, events);
      OnlyAnswer([row], base, MessageTime);
      OnlyAnswer(JoinedOf(log), events, EventTime);
      assert shown[0] == Rebuilt(row, JoinedOf(log));
    }
  }

  lemma TiedEditsAreOpen(log: seq<Incoming>, text: Incoming, a: EventRow, b: EventRow)
    requires DistinctIds(log) && EventsInOrder(log) && text.Text? && RowOf(text) in TextsOf(log)
    requires EventsOf(log) == [a, b] && a.kind.Edit? && b.kind.Edit? && a.kind != b.kind
    requires a.target == text.id == b.target && a.timestamp == b.timestamp
    ensures !ReloadsShow(log, ReceiveAll(log).live)
  {
    var p := WriteTo(text.id);
    OnlyConcat([a], [b], p);
    assert [a] + [b] == [a, b] && Only([a], p) == [a] && Only([b], p) == [b];
    assert !LastTieAgrees([a, b]) by {
      assert EventTime([a, b][0]) == EventTime([a, b][1]) && Written([a, b][0]) != Written([a, b][1]);
    }
    assert !Settled(log, RowOf(text).id);
    ReplayEqualsLive(log);
  }

  /** What a log of three arrivals holds, for the text among them. */
  lemma ThreeArrivals(p: Incoming, q: Incoming, r: Incoming, id: Id)
    ensures TextsOf([p, q, r]) == TextsOf([p, q]) + if r.Text? then [RowOf(r)] else []
    ensures EventsOf([p, q, r]) == EventsOf([p, q]) + if r.Event? then [StoredRow(r)] else []
    ensures TextsOf([p, q]) == (if p.Text? then [RowOf(p)] else []) + if q.Text? then [RowOf(q)] else []
    ensures EventsOf([p, q]) == (if p.Event? then [StoredRow(p)] else []) + if q.Event? then [StoredRow(q)] else []
  {
    Arrives([], p, id);
    Arrives([p], q, id);
    Arrives([p, q], r, id);
    assert [] + [p] == [p] && [p] + [q] == [p, q] && [p, q] + [r] == [p, q, r];
  }

  /** Two edits stored within one tick: some reload does not show what the screen did. */
  lemma TiedEditsDiffer(text: Incoming, a: Incoming, b: Incoming)
    requires text.Text? && a.Event? && b.Event? && DistinctIds([text, a, b])
    requires a.kind.Edit? && b.kind.Edit? && a.kind != b.kind
    requires a.target == text.id == b.target && a.storedAt == b.storedAt
    ensures !ReloadsShow([text, a, b], ReceiveAll([text, a, b]).live)
  {
    ThreeArrivals(text, a, b, text.id);
    assert TextsOf([text, a, b])[0] == RowOf(text);
    TiedEditsAreOpen([text, a, b], text, StoredRow(a), StoredRow(b));
  }

  lemma EditsAround(text: Incoming, a: Incoming, b: Incoming)
    requires text.Text? && a.Event? && b.Event? && a.target == text.id == b.target
    ensures Early([a, text, b], text.id) == [a.kind] && Late([a, text, b], text.id) == [b.kind]
  {
    Arrives([], a, text.id);
    Arrives([a], text, text.id);
    Arrives([a, text], b, text.id);
    assert [] + [a] == [a] && [a] + [text] == [a, text] && [a, text] + [b] == [a, text, b];
  }

  /** Masking is not enough at a tie: an early edit stored in the tick of the late one
      that covers it may come back. */
  lemma MaskedEditReturns(text: Incoming, a: Incoming, b: Incoming)
    requires text.Text? && a.Event? && b.Event? && DistinctIds([a, text, b])
    requires a.kind.Edit? && b.kind.Edit? && a.kind != b.kind
    requires a.target == text.id == b.target && a.storedAt == b.storedAt
    ensures Masked(Early([a, text, b], text.id), Late([a, text, b], text.id))
    ensures !ReloadsShow([a, text, b], ReceiveAll([a, text, b]).live)
  {
    EditsAround(text, a, b);
    assert [b.kind][0].Edit?;
    ThreeArrivals(a, text, b, text.id);
    assert TextsOf([a, text, b])[0] == RowOf(text);
    TiedEditsAreOpen([a, text, b], text, StoredRow(a), StoredRow(b));
  }
}
