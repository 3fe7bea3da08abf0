/**
 What the backend stored, passed on and gave away at a point of a run, read off the
 steps before it: the message rows, the events and key bundles in their order, and
 where every one-time key went.
 */
module MessageHistory {
  import opened Prelude
  import opened Server
  import opened ServerInvariant
  import opened ServerGuarantees
  import opened ServerHistory
  import opened KeyLedger
  import opened Traces

  // ── Messages ────────────────────────────────────────────────────────────────

  /** A connected sender's MESSAGE_SEND to an active device of his organisation, whether
      or not that device is connected, whose body decodes and whose INSERT succeeds. */
  function Stores(id: MsgId, from: DeviceId, to: DeviceId, org: Org): (Backend, Step) -> bool {
    (s: Backend, step: Step) =>
      && step == Sends(from, MessageSend(to, id, true, true))
      && from in s.registry && s.registry[from].org == org && DeviceInOrg(s, to, org)
  }

  ghost predicate HasMessage(s: Backend, id: MsgId, from: DeviceId, to: DeviceId, org: Org) {
    id in s.messages && s.messages[id].from == from && s.messages[id].to == to && s.messages[id].org == org
  }

  lemma StepKnownMessage(s: Backend, step: Step, id: MsgId)
    requires Enabled(s, step) && id in s.messages
    ensures id in Next(s, step).messages
    ensures var m, m' := s.messages[id], Next(s, step).messages[id];
            m'.from == m.from && m'.to == m.to && m'.org == m.org
  {
    MessageStep(s, step, id);
  }

  lemma StepNewMessage(s: Backend, step: Step, id: MsgId, from: DeviceId, to: DeviceId, org: Org)
    requires RegistryOk(s) && Enabled(s, step) && id !in s.messages
    ensures HasMessage(Next(s, step), id, from, to, org) <==> Stores(id, from, to, org)(s, step)
  {
    if !step.Sends? {
      OnlyEnvelopesSend(s, step);
    } else if step.envelope.MessageSend? && step.from in s.registry {
      assert Next(s, step)
          == HandleSend(s, step.from, step.envelope.to, step.envelope.id, step.envelope.decodes, step.envelope.persisted);
    }
  }

  lemma StepMessage(s: Backend, step: Step, id: MsgId, from: DeviceId, to: DeviceId, org: Org)
    requires RegistryOk(s) && Enabled(s, step)
    ensures HasMessage(Next(s, step), id, from, to, org)
       <==> HasMessage(s, id, from, to, org) || Stores(id, from, to, org)(s, step)
  {
    if id in s.messages {
      StepKnownMessage(s, step, id);
    } else {
      StepNewMessage(s, step, id, from, to, org);
    }
  }

  /** A message is stored, from one device to another of an organisation, exactly when the
      one sent it so; whether the other is connected makes no difference. */
  lemma MessagesExactly(rs: seq<Backend>, steps: seq<Step>, i: nat,
                        id: MsgId, from: DeviceId, to: DeviceId, org: Org)
    requires IsRun(rs, steps) && i < |rs|
    ensures HasMessage(rs[i], id, from, to, org) <==> Ever(rs, steps, i, Stores(id, from, to, org))
  {
    forall j | 0 <= j < i
      ensures HasMessage(rs[j + 1], id, from, to, org)
         <==> HasMessage(rs[j], id, from, to, org) || Stores(id, from, to, org)(rs[j], steps[j])
    {
      RunStep(rs, steps, j);
      StepMessage(rs[j], steps[j], id, from, to, org);
    }
    EverBuilds(rs, steps, i, (s: Backend) => HasMessage(s, id, from, to, org), Stores(id, from, to, org));
  }

  // ── Events ──────────────────────────────────────────────────────────────────

  /** The device the sender addresses himself, and the kind of event it gets. */
  function Addressed(e: Envelope): Option<(EventKind, DeviceId)> {
    match e
    case MessageSend(to, _, decodes, _) => if decodes then Some((NewMessage, to)) else None
    case TypingEvent(to) => Some((Typing, to))
    case StoryKeyShare(to) => Some((StoryKey, to))
    case _ => None
  }

  function Receipted(e: Envelope): Option<MsgId> {
    match e
    case MessageAck(id, _) => Some(id)
    case MessageRead(id, _) => Some(id)
    case _ => None
  }

  /** The event a step passes on: to an active device of the sender's organisation, or a
      recipient's receipt to the device that sent its message. */
  function PassesOn(): (Backend, Step) -> seq<Routed> {
    (s: Backend, step: Step) =>
      if !step.Sends? || step.from !in s.registry then []
      else
        var to, id := Addressed(step.envelope), Receipted(step.envelope);
        if to.Some? && DeviceInOrg(s, to.value.1, s.registry[step.from].org)
        then [Routed(to.value.0, step.from, to.value.1)]
        else if id.Some? && id.value in s.messages && s.messages[id.value].to == step.from
        then [Routed(Status, step.from, s.messages[id.value].from)]
        else []
  }

  lemma StepEvents(s: Backend, step: Step)
    ensures Next(s, step).routed == s.routed + PassesOn()(s, step)
  {
    if !step.Sends? {
      OnlyEnvelopesSend(s, step);
      assert s.routed + [] == s.routed;
    } else {
      EnvelopeEvents(s, step.from, step.envelope);
    }
  }

  lemma EnvelopeEvents(s: Backend, from: DeviceId, e: Envelope)
    ensures HandleEnvelope(s, from, e).routed == s.routed + PassesOn()(s, Sends(from, e))
  {
    assert s.routed + [] == s.routed;
  }

  /** The events given to delivery are those of the steps, in their order. */
  lemma EventsExactly(rs: seq<Backend>, steps: seq<Step>, i: nat)
    requires IsRun(rs, steps) && i < |rs|
    ensures rs[i].routed == Gather(rs, steps, i, PassesOn())
  {
    forall j | 0 <= j < i
      ensures rs[j + 1].routed == rs[j].routed + PassesOn()(rs[j], steps[j])
    {
      StepEvents(rs[j], steps[j]);
    }
    GatherBuilds(rs, steps, i, (s: Backend) => s.routed, PassesOn());
  }

  /** A connected device's receipt for a message stored for it reaches the device that sent
      the message, and a receipt for any other message goes nowhere. */
  lemma ReceiptGoesBack(rs: seq<Backend>, steps: seq<Step>, i: nat, id: MsgId, from: DeviceId)
    requires IsRun(rs, steps) && i < |steps| && steps[i].Sends? && steps[i].from in rs[i].registry
    requires Receipted(steps[i].envelope) == Some(id)
    ensures (exists org :: Ever(rs, steps, i, Stores(id, from, steps[i].from, org)))
       <==> rs[i + 1].routed == rs[i].routed + [Routed(Status, steps[i].from, from)]
  {
    var to := steps[i].from;
    StepEvents(rs[i], steps[i]);
    if exists org :: Ever(rs, steps, i, Stores(id, from, to, org)) {
      var org :| Ever(rs, steps, i, Stores(id, from, to, org));
      MessagesExactly(rs, steps, i, id, from, to, org);
    }
    if rs[i + 1].routed == rs[i].routed + [Routed(Status, to, from)] {
      assert PassesOn()(rs[i], steps[i]) == rs[i + 1].routed[|rs[i].routed|..] == [Routed(Status, to, from)];
      MessagesExactly(rs, steps, i, id, from, to, rs[i].messages[id].org);
    }
  }

  // ── Bundles ─────────────────────────────────────────────────────────────────

  /** The devices and keys of a request for the keys of a user of the caller's organisation. */
  function Asked(s: Backend, step: Step): (seq<DeviceId>, map<DeviceId, KeyRow>) {
    match step
    case FetchesKeys(jti, target, listed, picks) =>
      if jti in s.sessions && UserInOrg(s, target, s.sessions[jti].org) then (listed, picks) else ([], map[])
    case Sends(from, KeysRequest(target, listed, picks)) =>
      if from in s.registry && UserInOrg(s, target, s.registry[from].org) then (listed, picks) else ([], map[])
    case _ => ([], map[])
  }

  function BundlesOf(): (Backend, Step) -> seq<Bundle> {
    (s: Backend, step: Step) => Bundles(Asked(s, step).0, Asked(s, step).1)
  }

  function KeysOut(): (Backend, Step) -> seq<Handout> {
    (s: Backend, step: Step) => KeysIn(s, Bundles(Asked(s, step).0, Asked(s, step).1))
  }

  lemma StepBundles(s: Backend, step: Step)
    ensures Next(s, step).bundled == s.bundled + BundlesOf()(s, step)
    ensures Next(s, step).handed == s.handed + KeysOut()(s, step)
  {
    assert s.bundled + [] == s.bundled && s.handed + [] == s.handed;
    if !step.Sends? && !step.FetchesKeys? {
      OnlyEnvelopesSend(s, step);
    } else if step.Sends? && !step.envelope.KeysRequest? {
      OtherEnvelopeBundles(s, step.from, step.envelope);
    }
  }

  lemma OtherEnvelopeBundles(s: Backend, from: DeviceId, e: Envelope)
    requires !e.KeysRequest?
    ensures HandleEnvelope(s, from, e).bundled == s.bundled && HandleEnvelope(s, from, e).handed == s.handed
  {
  }

  /** The bundles sent, and the keys that went with them, are those of the requests, in
      their order. */
  lemma BundlesExactly(rs: seq<Backend>, steps: seq<Step>, i: nat)
    requires IsRun(rs, steps) && i < |rs|
    ensures rs[i].bundled == Gather(rs, steps, i, BundlesOf())
    ensures rs[i].handed == Gather(rs, steps, i, KeysOut())
  {
    forall j | 0 <= j < i
      ensures rs[j + 1].bundled == rs[j].bundled + BundlesOf()(rs[j], steps[j])
      ensures rs[j + 1].handed == rs[j].handed + KeysOut()(rs[j], steps[j])
    {
      StepBundles(rs[j], steps[j]);
    }
    GatherBuilds(rs, steps, i, (s: Backend) => s.bundled, BundlesOf());
    GatherBuilds(rs, steps, i, (s: Backend) => s.handed, KeysOut());
  }

  // ── One-time keys ───────────────────────────────────────────────────────────

  function Rows(d: DeviceId, entries: seq<Entry>, now: int): seq<Otpk>
    requires AllDecode(entries)
  {
    seq(|entries|, i requires 0 <= i < |entries| => Otpk(d, entries[i].keyId, entries[i].bytes.value, now))
  }

  /** The rows of the two uploads, where they go through. */
  function Inserts(): (Backend, Step) -> seq<Otpk> {
    (s: Backend, step: Step) =>
      if AddsBatch(s, step) then Rows(step.chosen.value, step.entries, step.now)
      else if AddsDeviceWithKeys(s, step) then Rows(step.device, step.entries, step.now)
      else []
  }

  lemma {:induction false} AddKeysInserts(s: Backend, d: DeviceId, entries: seq<Entry>, now: int)
    requires AllDecode(entries)
    ensures AddKeys(s, d, entries, now).inserted == s.inserted + Rows(d, entries, now)
  {
    if entries != [] {
      var last := |entries| - 1;
      AddKeysInserts(s, d, entries[..last], now);
      assert Rows(d, entries, now)
          == Rows(d, entries[..last], now) + [Otpk(d, entries[last].keyId, entries[last].bytes.value, now)];
    }
  }

  lemma StepInserts(s: Backend, step: Step)
    ensures Next(s, step).inserted == s.inserted + Inserts()(s, step)
  {
    assert s.inserted + [] == s.inserted;
    match step
    case UploadsOtpks(_, entries, chosen, now) =>
      if AddsBatch(s, step) { AddKeysInserts(s, chosen.value, entries, now); }
    case UploadsKeys(jti, user, org, d, entries, now) =>
      if AddsDeviceWithKeys(s, step) {
        AddKeysInserts(AddSession(AddDevice(s, user, org, d, now), jti, s.sessions[jti].(device := Some(d))),
                       d, entries, now);
      }
    case Revokes(_, _) => RevocationTakes(s, step);
    case Nukes(_, _) => RevocationTakes(s, step);
    case RevokesOwn(_, _) => RevocationTakes(s, step);
    case Sends(from, e) => EnvelopeTables(s, from, e);
    case _ =>
  }

  /** Every accepted upload's keys have their rows, in order, and there are no others. */
  lemma InsertsExactly(rs: seq<Backend>, steps: seq<Step>, i: nat)
    requires IsRun(rs, steps) && i < |rs|
    ensures rs[i].inserted == Gather(rs, steps, i, Inserts())
  {
    forall j | 0 <= j < i
      ensures rs[j + 1].inserted == rs[j].inserted + Inserts()(rs[j], steps[j])
    {
      StepInserts(rs[j], steps[j]);
    }
    GatherBuilds(rs, steps, i, (s: Backend) => s.inserted, Inserts());
  }

  /** The key was in the pool for the device that the step revokes. */
  function Purges(k: KeyRow): (Backend, Step) -> bool {
    (s: Backend, step: Step) => Revoking(s, step) && k in s.pool && s.pool[k].device == step.device
  }

  lemma StepPurge(s: Backend, step: Step, k: KeyRow)
    ensures k in Next(s, step).purged <==> k in s.purged || Purges(k)(s, step)
  {
    if step.Revokes? || step.Nukes? || step.RevokesOwn? {
      if Revoking(s, step) {
        RevocationTakesKeys(s, step, k);
      } else {
        RevocationTakes(s, step);
      }
    } else if step.UploadsOtpks? || step.UploadsKeys? {
      UploadsKeepTables(s, step);
    } else if step.Sends? {
      EnvelopeTables(s, step.from, step.envelope);
    }
  }

  /** A key was purged exactly when its own device was revoked while it was in the pool. */
  lemma PurgedExactly(rs: seq<Backend>, steps: seq<Step>, i: nat, k: KeyRow)
    requires IsRun(rs, steps) && i < |rs|
    ensures k in rs[i].purged <==> Ever(rs, steps, i, Purges(k))
  {
    forall j | 0 <= j < i
      ensures k in rs[j + 1].purged <==> k in rs[j].purged || Purges(k)(rs[j], steps[j])
    {
      StepPurge(rs[j], steps[j], k);
    }
    EverBuilds(rs, steps, i, (s: Backend) => k in s.purged, Purges(k));
  }

  function Gives(k: KeyRow): (Backend, Step) -> bool {
    (s: Backend, step: Step) => k in Asked(s, step).1.Values
  }

  lemma AskedOwnKeys(s: Backend, step: Step)
    requires Enabled(s, step)
    ensures var (listed, picks) := Asked(s, step);
            OwnKeys(s, listed, picks) && forall d :: d in picks ==> d in listed
  {
  }

  lemma StepGives(s: Backend, step: Step, k: KeyRow)
    requires Enabled(s, step)
    ensures k in RowsHanded(Next(s, step).handed) <==> k in RowsHanded(s.handed) || Gives(k)(s, step)
  {
    var (listed, picks) := Asked(s, step);
    AskedOwnKeys(s, step);
    StepBundles(s, step);
    LeavingRows(s, listed, picks);
    HandedJoin(s.handed, KeysOut()(s, step));
  }

  lemma HandedJoin(a: seq<Handout>, b: seq<Handout>)
    ensures RowsHanded(a + b) == RowsHanded(a) + RowsHanded(b)
  {
  }

  lemma GivenExactly(rs: seq<Backend>, steps: seq<Step>, i: nat, k: KeyRow)
    requires IsRun(rs, steps) && i < |rs|
    ensures k in RowsHanded(rs[i].handed) <==> Ever(rs, steps, i, Gives(k))
  {
    forall j | 0 <= j < i
      ensures k in RowsHanded(rs[j + 1].handed) <==> k in RowsHanded(rs[j].handed) || Gives(k)(rs[j], steps[j])
    {
      StepGives(rs[j], steps[j], k);
    }
    EverBuilds(rs, steps, i, (s: Backend) => k in RowsHanded(s.handed), Gives(k));
  }

  /** The pool holds exactly the keys uploaded so far, as they were uploaded, that no
      request was given and no revocation of their device purged. */
  lemma PoolExactly(rs: seq<Backend>, steps: seq<Step>, i: nat, k: KeyRow)
    requires IsRun(rs, steps) && i < |rs|
    ensures var uploaded := Gather(rs, steps, i, Inserts());
            && (k in rs[i].pool
                <==> k < |uploaded| && !Ever(rs, steps, i, Gives(k)) && !Ever(rs, steps, i, Purges(k)))
            && (k in rs[i].pool ==> rs[i].pool[k] == uploaded[k])
  {
    RunLedger(rs, steps, i);
    InsertsExactly(rs, steps, i);
    GivenExactly(rs, steps, i, k);
    PurgedExactly(rs, steps, i, k);
  }
}
