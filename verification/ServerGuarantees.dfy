/**
 What the backend's handlers guarantee over whole runs: tenancy, receipts, revocation,
 and the ledger of one-time keys.
 */
module ServerGuarantees {
  import opened Prelude
  import opened Server
  import opened ServerInvariant

  lemma {:induction false} RunInv(rs: seq<Backend>, steps: seq<Step>, i: nat)
    requires IsRun(rs, steps) && i < |rs|
    ensures Inv(rs[i])
  {
    if i > 0 {
      RunInv(rs, steps, i - 1);
      StepInv(rs[i - 1], steps[i - 1]);
    }
  }

  /** What the arguments about one step of a run need of it. */
  lemma RunStep(rs: seq<Backend>, steps: seq<Step>, i: nat)
    requires IsRun(rs, steps) && i < |steps|
    ensures Inv(rs[i]) && Enabled(rs[i], steps[i]) && rs[i + 1] == Next(rs[i], steps[i])
  {
    RunInv(rs, steps, i);
  }

  /** Every stored message and every routed event links two devices of one organisation. */
  lemma OneOrganisation(rs: seq<Backend>, steps: seq<Step>, i: nat)
    requires IsRun(rs, steps) && i < |rs|
    ensures forall id :: id in rs[i].messages ==>
              && SameOrg(rs[i], rs[i].messages[id].from, rs[i].messages[id].to)
              && rs[i].devices[rs[i].messages[id].to].org == rs[i].messages[id].org
    ensures forall k :: 0 <= k < |rs[i].routed| ==> SameOrg(rs[i], rs[i].routed[k].from, rs[i].routed[k].to)
  {
    RunInv(rs, steps, i);
    forall id | id in rs[i].messages
      ensures SameOrg(rs[i], rs[i].messages[id].from, rs[i].messages[id].to)
      ensures rs[i].devices[rs[i].messages[id].to].org == rs[i].messages[id].org
    {
      assert MessageOk(rs[i], rs[i].messages[id]);
    }
  }

  // ── Receipts ────────────────────────────────────────────────────────────────

  /** The receipt for `id` that this step makes: only its connected recipient can. */
  function Receipt(s: Backend, step: Step, id: MsgId, readOnly: bool): Option<int> {
    if !step.Sends? || step.from !in s.registry || id !in s.messages || s.messages[id].to != step.from then None
    else
      match step.envelope
      case MessageRead(readId, now) => if readId == id then Some(now) else None
      case MessageAck(ackId, now) => if ackId == id && !readOnly then Some(now) else None
      case _ => None
  }

  /** The time of the first receipt in the first `n` steps. */
  function FirstReceipt(rs: seq<Backend>, steps: seq<Step>, id: MsgId, readOnly: bool, n: nat): Option<int>
    requires n <= |steps| <= |rs|
  {
    if n == 0 then None
    else
      var first := FirstReceipt(rs, steps, id, readOnly, n - 1);
      if first.Some? then first else Receipt(rs[n - 1], steps[n - 1], id, readOnly)
  }

  lemma {:induction false} AddKeysKeepsTables(s: Backend, d: DeviceId, entries: seq<Entry>, now: int)
    requires AllDecode(entries)
    ensures SameTables(s, AddKeys(s, d, entries, now))
    ensures AddKeys(s, d, entries, now).handed == s.handed && AddKeys(s, d, entries, now).purged == s.purged
    ensures AddKeys(s, d, entries, now).bundled == s.bundled
  {
    if entries != [] {
      AddKeysKeepsTables(s, d, entries[..|entries| - 1], now);
    }
  }

  lemma UploadsKeepTables(s: Backend, step: Step)
    requires step.UploadsOtpks? || step.UploadsKeys?
    ensures Next(s, step).messages == s.messages && Next(s, step).routed == s.routed
    ensures Next(s, step).handed == s.handed && Next(s, step).purged == s.purged
    ensures Next(s, step).bundled == s.bundled
  {
    match step
    case UploadsOtpks(jti, entries, chosen, now) =>
      if UploadOtpks(s, jti, entries, chosen, now).1.Uploaded? {
        AddKeysKeepsTables(s, chosen.value, entries, now);
      }
    case UploadsKeys(jti, user, org, d, entries, now) =>
      if jti in s.sessions && AllDecode(entries) {
        AddKeysKeepsTables(AddSession(AddDevice(s, user, org, d, now), jti, s.sessions[jti].(device := Some(d))),
                           d, entries, now);
      }
  }

  lemma OnlyEnvelopesSend(s: Backend, step: Step)
    requires !step.Sends?
    ensures Next(s, step).messages == s.messages && Next(s, step).routed == s.routed
    ensures !step.FetchesKeys? ==> Next(s, step).handed == s.handed && Next(s, step).bundled == s.bundled
  {
    if step.UploadsOtpks? || step.UploadsKeys? {
      UploadsKeepTables(s, step);
    }
  }

  /** A step changes a message by the receipt it makes, if it makes one. */
  ghost predicate TakesReceipt(s: Backend, step: Step, id: MsgId, m: Message, m': Message) {
    var ack, read := Receipt(s, step, id, false), Receipt(s, step, id, true);
    m' == m.(deliveredAt := if m.deliveredAt.Some? then m.deliveredAt else ack,
             readAt := if m.readAt.Some? then m.readAt else read)
  }

  lemma SendsKeepMessages(s: Backend, from: DeviceId, e: Envelope, id: MsgId)
    requires Enabled(s, Sends(from, e)) && id in s.messages && !e.MessageAck? && !e.MessageRead?
    ensures id in HandleEnvelope(s, from, e).messages
    ensures HandleEnvelope(s, from, e).messages[id] == s.messages[id]
  {
  }

  lemma EnvelopeMessage(s: Backend, from: DeviceId, e: Envelope, id: MsgId)
    requires Enabled(s, Sends(from, e)) && id in s.messages
    ensures id in HandleEnvelope(s, from, e).messages
    ensures TakesReceipt(s, Sends(from, e), id, s.messages[id], HandleEnvelope(s, from, e).messages[id])
  {
    if from in s.registry {
      match e
      case MessageAck(ackId, now) => assert HandleEnvelope(s, from, e) == HandleReceipt(s, from, ackId, now, false);
      case MessageRead(readId, now) => assert HandleEnvelope(s, from, e) == HandleReceipt(s, from, readId, now, true);
      case _ => SendsKeepMessages(s, from, e, id);
    }
  }

  lemma EnvelopeNewMessage(s: Backend, from: DeviceId, e: Envelope, id: MsgId)
    requires Enabled(s, Sends(from, e)) && id !in s.messages && id in HandleEnvelope(s, from, e).messages
    ensures var m := HandleEnvelope(s, from, e).messages[id];
            && m.from == from && from in s.registry && DeviceInOrg(s, m.to, s.registry[from].org)
            && m.deliveredAt == None && m.readAt == None
  {
  }

  lemma MessageStep(s: Backend, step: Step, id: MsgId)
    requires Enabled(s, step)
    ensures id in s.messages ==>
              && id in Next(s, step).messages
              && TakesReceipt(s, step, id, s.messages[id], Next(s, step).messages[id])
    ensures id in Next(s, step).messages && id !in s.messages ==>
              Next(s, step).messages[id].deliveredAt == None && Next(s, step).messages[id].readAt == None
  {
    if !step.Sends? {
      OnlyEnvelopesSend(s, step);
    } else if id in s.messages {
      EnvelopeMessage(s, step.from, step.envelope, id);
    } else if id in Next(s, step).messages {
      EnvelopeNewMessage(s, step.from, step.envelope, id);
    }
  }

  /**
   A message's receipt times are those of the first MESSAGE_ACK or MESSAGE_READ, and of
   the first MESSAGE_READ, that its own recipient sent while connected; nobody and
   nothing else sets or changes them.
   */
  lemma {:induction false} ReceiptsAreFirst(rs: seq<Backend>, steps: seq<Step>, i: nat, id: MsgId)
    requires IsRun(rs, steps) && i < |rs|
    ensures id in rs[i].messages ==>
              && rs[i].messages[id].deliveredAt == FirstReceipt(rs, steps, id, false, i)
              && rs[i].messages[id].readAt == FirstReceipt(rs, steps, id, true, i)
    ensures id !in rs[i].messages ==>
              FirstReceipt(rs, steps, id, false, i) == None && FirstReceipt(rs, steps, id, true, i) == None
  {
    if i > 0 {
      ReceiptsAreFirst(rs, steps, i - 1, id);
      RunInv(rs, steps, i - 1);
      MessageStep(rs[i - 1], steps[i - 1], id);
    }
  }

  lemma {:induction false} MessagesStay(rs: seq<Backend>, steps: seq<Step>, i: nat, j: nat, id: MsgId)
    requires IsRun(rs, steps) && i <= j < |rs| && id in rs[i].messages
    ensures id in rs[j].messages
    ensures var m, m' := rs[i].messages[id], rs[j].messages[id];
            && m'.from == m.from && m'.to == m.to && m'.org == m.org
            && (m.deliveredAt.Some? ==> m'.deliveredAt == m.deliveredAt)
            && (m.readAt.Some? ==> m'.readAt == m.readAt)
            && (m'.readAt.Some? ==> m'.deliveredAt.Some?)
    decreases j - i
  {
    RunInv(rs, steps, i);
    if i == j {
      assert MessageOk(rs[i], rs[i].messages[id]);
    } else {
      MessageStep(rs[i], steps[i], id);
      MessagesStay(rs, steps, i + 1, j, id);
    }
  }

  // ── Revocation ──────────────────────────────────────────────────────────────

  ghost predicate Inactive(s: Backend, d: DeviceId) {
    d in s.devices && !s.devices[d].active
  }

  lemma UploadsKeepDevices(s: Backend, step: Step)
    requires Enabled(s, step) && (step.UploadsOtpks? || step.UploadsKeys?)
    ensures forall d :: d in s.devices ==> d in Next(s, step).devices && Next(s, step).devices[d] == s.devices[d]
  {
    match step
    case UploadsOtpks(jti, entries, chosen, now) =>
      if UploadOtpks(s, jti, entries, chosen, now).1.Uploaded? {
        AddKeysKeepsTables(s, chosen.value, entries, now);
      }
    case UploadsKeys(jti, user, org, e, entries, now) =>
      if jti in s.sessions && AllDecode(entries) {
        AddKeysKeepsTables(AddSession(AddDevice(s, user, org, e, now), jti, s.sessions[jti].(device := Some(e))),
                           e, entries, now);
      }
  }

  lemma EnvelopeKeepsDevices(s: Backend, from: DeviceId, e: Envelope)
    ensures HandleEnvelope(s, from, e).devices == s.devices
  {
  }

  lemma StaysInactive(s: Backend, step: Step, d: DeviceId)
    requires Inactive(s, d) && Enabled(s, step)
    ensures Inactive(Next(s, step), d)
  {
    if step.UploadsOtpks? || step.UploadsKeys? {
      UploadsKeepDevices(s, step);
    } else if step.Sends? {
      EnvelopeKeepsDevices(s, step.from, step.envelope);
    }
  }

  /** A revocation that finds its device, by a caller who may: an administrator over the
      organisation, a user over his own devices. */
  predicate Revoking(s: Backend, step: Step) {
    && (step.Revokes? || step.Nukes? || step.RevokesOwn?)
    && step.device in s.devices && step.jti in s.sessions
    && s.sessions[step.jti].org == s.devices[step.device].org
    && (if step.RevokesOwn? then s.sessions[step.jti].user == s.devices[step.device].user
        else s.sessions[step.jti].admin)
  }

  predicate MayRevoke(s: Backend, step: Step, d: DeviceId) {
    Revoking(s, step) && step.device == d
  }

  /** An active device is deactivated exactly by a revocation whose caller may revoke it. */
  lemma DeactivatedExactly(s: Backend, step: Step, d: DeviceId)
    requires Enabled(s, step) && d in s.devices && s.devices[d].active
    ensures Inactive(Next(s, step), d) <==> MayRevoke(s, step, d)
  {
    if step.UploadsOtpks? || step.UploadsKeys? {
      UploadsKeepDevices(s, step);
    } else if step.Sends? {
      EnvelopeKeepsDevices(s, step.from, step.envelope);
    }
  }

  /** Nothing of the device is left in the tables. */
  ghost predicate Gone(s: Backend, d: DeviceId) {
    && KeysOf(s, d) == {}
    && (forall j :: j in s.sessions ==> s.sessions[j].device != Some(d))
    && d !in s.registry
  }

  lemma InactiveIsGone(s: Backend, d: DeviceId)
    requires Inv(s) && Inactive(s, d)
    ensures Gone(s, d)
    ensures forall jti :: Connect(s, jti, d) == s
    ensures forall user, jti :: LoginVerify(s, user, d, jti) == s
    ensures forall e: Envelope :: HandleEnvelope(s, d, e) == s
  {
  }

  /** No message that `s'` adds is to or from `d`. */
  ghost predicate NoNewMessage(s: Backend, s': Backend, d: DeviceId) {
    && (forall id :: id in s.messages ==>
          id in s'.messages && s'.messages[id].to == s.messages[id].to && s'.messages[id].from == s.messages[id].from)
    && forall id :: id in s'.messages && id !in s.messages ==> s'.messages[id].to != d && s'.messages[id].from != d
  }

  /** No event that `s'` adds is from `d`, and none but receipts of its old messages is to it. */
  ghost predicate NoNewEvent(s: Backend, s': Backend, d: DeviceId) {
    && s.routed <= s'.routed
    && forall i :: |s.routed| <= i < |s'.routed| ==>
         s'.routed[i].from != d && (s'.routed[i].to == d ==> s'.routed[i].kind == Status)
  }

  /** No bundle that `s'` adds is of `d`, and no key it adds to those handed out went into one. */
  ghost predicate NoNewHandout(s: Backend, s': Backend, d: DeviceId) {
    && s.bundled <= s'.bundled && s.handed <= s'.handed
    && (forall i :: |s.bundled| <= i < |s'.bundled| ==> s'.bundled[i].device != d)
    && forall i :: |s.handed| <= i < |s'.handed| ==> s'.handed[i].bundle != d
  }

  ghost predicate NothingNewFor(s: Backend, s': Backend, d: DeviceId) {
    NoNewMessage(s, s', d) && NoNewEvent(s, s', d) && NoNewHandout(s, s', d)
  }

  lemma NothingNewTwice(a: Backend, b: Backend, c: Backend, d: DeviceId)
    requires NothingNewFor(a, b, d) && NothingNewFor(b, c, d)
    ensures NothingNewFor(a, c, d)
  {
    forall id | id in c.messages && id !in a.messages
      ensures c.messages[id].to != d && c.messages[id].from != d
    {
      if id in b.messages {
        assert b.messages[id].to != d;
      }
    }
    forall i | |a.routed| <= i < |c.routed|
      ensures c.routed[i].from != d && (c.routed[i].to == d ==> c.routed[i].kind == Status)
    {
      if i < |b.routed| {
        assert c.routed[i] == b.routed[i];
      }
    }
    forall i | |a.handed| <= i < |c.handed|
      ensures c.handed[i].bundle != d
    {
      if i < |b.handed| {
        assert c.handed[i] == b.handed[i];
      }
    }
    forall i | |a.bundled| <= i < |c.bundled|
      ensures c.bundled[i].device != d
    {
      if i < |b.bundled| {
        assert c.bundled[i] == b.bundled[i];
      }
    }
  }

  lemma {:induction false} KeysInBundles(s: Backend, bs: seq<Bundle>, i: nat)
    requires i < |KeysIn(s, bs)|
    ensures exists j :: 0 <= j < |bs| && KeysIn(s, bs)[i].bundle == bs[j].device
  {
    var last := |bs| - 1;
    if i < |KeysIn(s, bs[..last])| {
      KeysInBundles(s, bs[..last], i);
      var j :| 0 <= j < last && KeysIn(s, bs[..last])[i].bundle == bs[..last][j].device;
      assert KeysIn(s, bs)[i].bundle == bs[j].device;
    } else {
      assert KeysIn(s, bs)[i].bundle == bs[last].device;
    }
  }

  lemma HandOutSkips(s: Backend, target: User, org: Org, listed: seq<DeviceId>, picks: map<DeviceId, KeyRow>, d: DeviceId)
    requires Inactive(s, d) && Listed(s, target, org, listed)
    ensures NoNewHandout(s, HandOut(s, listed, picks), d)
  {
    var bs := Bundles(listed, picks);
    forall i | 0 <= i < |bs|
      ensures bs[i].device != d
    {
      assert listed[i] in listed;
    }
    forall i | 0 <= i < |KeysIn(s, bs)|
      ensures KeysIn(s, bs)[i].bundle != d
    {
      KeysInBundles(s, bs, i);
      var j :| 0 <= j < |bs| && KeysIn(s, bs)[i].bundle == bs[j].device;
      assert listed[j] in listed;
    }
  }

  lemma EnvelopeSkipsMessages(s: Backend, from: DeviceId, e: Envelope, d: DeviceId)
    requires Inv(s) && Inactive(s, d) && Enabled(s, Sends(from, e))
    ensures NoNewMessage(s, HandleEnvelope(s, from, e), d)
  {
    forall id | id in s.messages
      ensures id in HandleEnvelope(s, from, e).messages
      ensures HandleEnvelope(s, from, e).messages[id].to == s.messages[id].to
      ensures HandleEnvelope(s, from, e).messages[id].from == s.messages[id].from
    {
      EnvelopeMessage(s, from, e, id);
    }
    forall id | id in HandleEnvelope(s, from, e).messages && id !in s.messages
      ensures HandleEnvelope(s, from, e).messages[id].to != d
      ensures HandleEnvelope(s, from, e).messages[id].from != d
    {
      EnvelopeNewMessage(s, from, e, id);
    }
  }

  /** An envelope adds at most one event, to an active device or about a receipt. */
  ghost predicate AddsOneEvent(s: Backend, s': Backend, from: DeviceId) {
    || s'.routed == s.routed
    || exists r: Routed :: s'.routed == s.routed + [r] && r.from == from && (r.kind == Status || !Inactive(s, r.to))
  }

  lemma EnvelopeEvent(s: Backend, from: DeviceId, e: Envelope)
    requires from in s.registry
    ensures AddsOneEvent(s, HandleEnvelope(s, from, e), from)
  {
    match e
    case MessageAck(id, now) =>
      if id in s.messages {
        assert AddsOneEvent(s, Route(s, Status, from, s.messages[id].from), from);
      }
    case MessageRead(id, now) =>
      if id in s.messages {
        assert AddsOneEvent(s, Route(s, Status, from, s.messages[id].from), from);
      }
    case MessageSend(to, id, decodes, persisted) =>
      if DeviceInOrg(s, to, s.registry[from].org) {
        assert AddsOneEvent(s, Route(s, NewMessage, from, to), from);
      }
    case _ =>
  }

  lemma EnvelopeSkipsEvents(s: Backend, from: DeviceId, e: Envelope, d: DeviceId)
    requires Inv(s) && Inactive(s, d)
    ensures NoNewEvent(s, HandleEnvelope(s, from, e), d)
  {
    if from in s.registry {
      EnvelopeEvent(s, from, e);
    }
  }

  lemma EnvelopeSkips(s: Backend, from: DeviceId, e: Envelope, d: DeviceId)
    requires Inv(s) && Inactive(s, d) && Enabled(s, Sends(from, e))
    ensures NothingNewFor(s, HandleEnvelope(s, from, e), d)
  {
    EnvelopeSkipsMessages(s, from, e, d);
    EnvelopeSkipsEvents(s, from, e, d);
    if from in s.registry && e.KeysRequest? {
      HandOutSkips(s, e.target, s.registry[from].org, e.listed, e.picks, d);
    }
  }

  lemma StepSkips(s: Backend, step: Step, d: DeviceId)
    requires Inv(s) && Inactive(s, d) && Enabled(s, step)
    ensures NothingNewFor(s, Next(s, step), d)
  {
    if step.Sends? {
      EnvelopeSkips(s, step.from, step.envelope, d);
    } else {
      OnlyEnvelopesSend(s, step);
      if step.FetchesKeys? && step.jti in s.sessions {
        HandOutSkips(s, step.target, s.sessions[step.jti].org, step.listed, step.picks, d);
      }
    }
  }

  /**
   Once a device is inactive it is so for the rest of the run, owns no one-time key,
   session or connection, and nothing new is stored for it, sent by it, or handed out
   with its bundle.
   */
  lemma {:induction false} RevokedForever(rs: seq<Backend>, steps: seq<Step>, i: nat, j: nat, d: DeviceId)
    requires IsRun(rs, steps) && i <= j < |rs| && Inactive(rs[i], d)
    ensures Inactive(rs[j], d) && Gone(rs[j], d) && NothingNewFor(rs[i], rs[j], d)
    decreases j
  {
    if i < j {
      RevokedForever(rs, steps, i, j - 1, d);
      RunInv(rs, steps, j - 1);
      StaysInactive(rs[j - 1], steps[j - 1], d);
      StepSkips(rs[j - 1], steps[j - 1], d);
      NothingNewTwice(rs[i], rs[j - 1], rs[j], d);
    }
    RunInv(rs, steps, j);
    InactiveIsGone(rs[j], d);
  }

  lemma NukedIsInactive(rs: seq<Backend>, steps: seq<Step>, i: nat, d: DeviceId)
    requires IsRun(rs, steps) && i < |rs| && d in rs[i].devices && rs[i].devices[d].nuked
    ensures Inactive(rs[i], d)
  {
    RunInv(rs, steps, i);
  }
}
