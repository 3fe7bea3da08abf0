/**
 What every handler keeps, whatever order the handlers come in: devices, sessions,
 connections, messages and events never cross organisations, and a deactivated device
 holds nothing.
 */
module ServerInvariant {
  import opened Prelude
  import opened Server

  ghost predicate AccountsOk(s: Backend) {
    && (forall d :: d in s.devices ==> UserInOrg(s, s.devices[d].user, s.devices[d].org))
    && forall j :: j in s.sessions ==> UserInOrg(s, s.sessions[j].user, s.sessions[j].org)
  }

  /** A session tied to a device is its user's, and the device is active. */
  ghost predicate SessionsOk(s: Backend) {
    forall j :: j in s.sessions && s.sessions[j].device.Some? ==>
      ActiveOf(s, s.sessions[j].user, s.sessions[j].device.value)
  }

  ghost predicate RegistryOk(s: Backend) {
    forall d :: d in s.registry ==>
      ActiveOf(s, s.registry[d].user, d) && s.devices[d].org == s.registry[d].org
  }

  ghost predicate PoolOk(s: Backend) {
    forall k :: k in s.pool ==> s.pool[k].device in s.devices && s.devices[s.pool[k].device].active
  }

  ghost predicate SameOrg(s: Backend, d: DeviceId, e: DeviceId) {
    d in s.devices && e in s.devices && s.devices[d].org == s.devices[e].org
  }

  ghost predicate MessageOk(s: Backend, m: Message) {
    && SameOrg(s, m.from, m.to) && s.devices[m.to].org == m.org
    && (m.readAt.Some? ==> m.deliveredAt.Some?)
  }

  ghost predicate MessagesOk(s: Backend) {
    forall id :: id in s.messages ==> MessageOk(s, s.messages[id])
  }

  ghost predicate RoutedOk(s: Backend) {
    forall i :: 0 <= i < |s.routed| ==> SameOrg(s, s.routed[i].from, s.routed[i].to)
  }

  ghost predicate NukedOk(s: Backend) {
    forall d :: d in s.devices && s.devices[d].nuked ==> !s.devices[d].active
  }

  ghost predicate Inv(s: Backend) {
    AccountsOk(s) && SessionsOk(s) && RegistryOk(s) && PoolOk(s) && MessagesOk(s) && RoutedOk(s) && NukedOk(s)
  }

  // ── Steps that leave the devices alone ──────────────────────────────────────

  ghost predicate SameTables(s: Backend, s': Backend) {
    && s'.accounts == s.accounts && s'.devices == s.devices && s'.sessions == s.sessions
    && s'.registry == s.registry && s'.messages == s.messages && s'.routed == s.routed
  }

  lemma {:induction false} AddKeysOk(s: Backend, d: DeviceId, entries: seq<Entry>, now: int)
    requires Inv(s) && d in s.devices && s.devices[d].active && AllDecode(entries)
    ensures Inv(AddKeys(s, d, entries, now)) && SameTables(s, AddKeys(s, d, entries, now))
  {
    if entries != [] {
      AddKeysOk(s, d, entries[..|entries| - 1], now);
    }
  }

  lemma UploadOtpksOk(s: Backend, jti: Jti, entries: seq<Entry>, chosen: Option<DeviceId>, now: int)
    requires Inv(s) && Enabled(s, UploadsOtpks(jti, entries, chosen, now))
    ensures Inv(UploadOtpks(s, jti, entries, chosen, now).0)
  {
    if UploadOtpks(s, jti, entries, chosen, now).1.Uploaded? {
      AddKeysOk(s, chosen.value, entries, now);
    }
  }

  lemma AddDeviceOk(s: Backend, user: User, org: Org, d: DeviceId, now: int)
    requires Inv(s) && d !in s.devices && UserInOrg(s, user, org)
    ensures Inv(AddDevice(s, user, org, d, now))
  {
    var s' := AddDevice(s, user, org, d, now);
    assert MessagesOk(s') by {
      forall id | id in s.messages
        ensures MessageOk(s', s'.messages[id])
      {
        assert MessageOk(s, s.messages[id]);
      }
    }
    assert RoutedOk(s');
  }

  lemma AddSessionOk(s: Backend, jti: Jti, session: Session)
    requires Inv(s) && UserInOrg(s, session.user, session.org)
    requires session.device.Some? ==> ActiveOf(s, session.user, session.device.value)
    ensures Inv(AddSession(s, jti, session))
  {
    var s' := AddSession(s, jti, session);
    assert MessagesOk(s') by {
      forall id | id in s.messages
        ensures MessageOk(s', s'.messages[id])
      {
        assert MessageOk(s, s.messages[id]);
      }
    }
  }

  lemma RegisterOk(s: Backend, user: User, d: DeviceId, jti: Jti, now: int)
    requires Inv(s) && d !in s.devices
    ensures Inv(RegisterDevice(s, user, d, jti, now))
  {
    if user in s.accounts && s.accounts[user].active {
      var org := s.accounts[user].org;
      AddDeviceOk(s, user, org, d, now);
      AddSessionOk(AddDevice(s, user, org, d, now), jti, Session(user, org, false, Some(d)));
    }
  }

  lemma UploadKeysOk(s: Backend, jti: Jti, user: User, org: Org, d: DeviceId, entries: seq<Entry>, now: int)
    requires Inv(s) && d !in s.devices
    ensures Inv(UploadKeys(s, jti, user, org, d, entries, now))
  {
    if jti in s.sessions && s.sessions[jti].user == user && s.sessions[jti].org == org && AllDecode(entries) {
      AddDeviceOk(s, user, org, d, now);
      var added := AddDevice(s, user, org, d, now);
      AddSessionOk(added, jti, s.sessions[jti].(device := Some(d)));
      AddKeysOk(AddSession(added, jti, s.sessions[jti].(device := Some(d))), d, entries, now);
    }
  }

  // ── Revocation ──────────────────────────────────────────────────────────────

  ghost predicate OrgsOk(s: Backend) {
    AccountsOk(s) && MessagesOk(s) && RoutedOk(s)
  }

  ghost predicate HoldersOk(s: Backend) {
    SessionsOk(s) && RegistryOk(s) && PoolOk(s)
  }

  lemma DevicesKeepOrgs(s: Backend, s': Backend)
    requires OrgsOk(s) && s'.accounts == s.accounts && s'.messages == s.messages && s'.routed == s.routed
    requires forall j :: j in s'.sessions ==> j in s.sessions && s'.sessions[j] == s.sessions[j]
    requires s'.devices.Keys == s.devices.Keys
    requires forall d :: d in s.devices ==> s'.devices[d].user == s.devices[d].user && s'.devices[d].org == s.devices[d].org
    ensures OrgsOk(s')
  {
    forall id | id in s'.messages
      ensures MessageOk(s', s'.messages[id])
    {
      assert MessageOk(s, s.messages[id]);
    }
    forall i | 0 <= i < |s'.routed|
      ensures SameOrg(s', s'.routed[i].from, s'.routed[i].to)
    {
      assert SameOrg(s, s.routed[i].from, s.routed[i].to);
    }
  }

  lemma RevokeKeepsHolders(s: Backend, d: DeviceId)
    requires HoldersOk(s) && d in s.devices
    ensures HoldersOk(Revoke(s, d))
  {
  }

  lemma RevokeOk(s: Backend, d: DeviceId)
    requires OrgsOk(s) && HoldersOk(s) && d in s.devices
    requires forall e :: e in s.devices && e != d && s.devices[e].nuked ==> !s.devices[e].active
    ensures Inv(Revoke(s, d))
  {
    DevicesKeepOrgs(s, Revoke(s, d));
    RevokeKeepsHolders(s, d);
  }

  function Mark(s: Backend, d: DeviceId): Backend
    requires d in s.devices
  {
    s.(devices := s.devices[d := s.devices[d].(nuked := true)])
  }

  lemma MarkOk(s: Backend, d: DeviceId)
    requires Inv(s) && d in s.devices
    ensures OrgsOk(Mark(s, d)) && HoldersOk(Mark(s, d))
  {
    DevicesKeepOrgs(s, Mark(s, d));
  }

  lemma NukeOk(s: Backend, jti: Jti, d: DeviceId)
    requires Inv(s)
    ensures Inv(NukeDevice(s, jti, d))
  {
    if jti in s.sessions && s.sessions[jti].admin && d in s.devices && s.devices[d].org == s.sessions[jti].org {
      MarkOk(s, d);
      RevokeOk(Mark(s, d), d);
    }
  }

  // ── Envelopes ───────────────────────────────────────────────────────────────

  lemma SendOk(s: Backend, from: DeviceId, to: DeviceId, id: MsgId, decodes: bool, persisted: bool)
    requires Inv(s) && from in s.registry
    ensures Inv(HandleSend(s, from, to, id, decodes, persisted))
  {
  }

  lemma ReceiptOk(s: Backend, from: DeviceId, id: MsgId, now: int, read: bool)
    requires Inv(s)
    ensures Inv(HandleReceipt(s, from, id, now, read))
  {
    if id in s.messages {
      assert MessageOk(s, s.messages[id]);
    }
  }

  lemma NoticeOk(s: Backend, kind: EventKind, from: DeviceId, to: DeviceId)
    requires Inv(s) && from in s.registry
    ensures Inv(HandleNotice(s, kind, from, to))
  {
  }

  lemma EnvelopeOk(s: Backend, from: DeviceId, e: Envelope)
    requires Inv(s)
    ensures Inv(HandleEnvelope(s, from, e))
  {
    if from in s.registry {
      match e
      case KeysRequest(_, listed, picks) => HandOutOk(s, listed, picks);
      case MessageSend(to, id, decodes, persisted) => SendOk(s, from, to, id, decodes, persisted);
      case MessageAck(id, now) => ReceiptOk(s, from, id, now, false);
      case MessageRead(id, now) => ReceiptOk(s, from, id, now, true);
      case TypingEvent(to) => NoticeOk(s, Typing, from, to);
      case StoryKeyShare(to) => NoticeOk(s, StoryKey, from, to);
      case _ =>
    }
  }

  // ── Every step ──────────────────────────────────────────────────────────────

  lemma SetAccountOk(s: Backend, user: User, a: Account)
    requires Inv(s) && (user in s.accounts ==> a.org == s.accounts[user].org)
    ensures Inv(s.(accounts := s.accounts[user := a]))
  {
    var s' := s.(accounts := s.accounts[user := a]);
    assert AccountsOk(s');
    forall id | id in s'.messages
      ensures MessageOk(s', s'.messages[id])
    {
      assert MessageOk(s, s.messages[id]);
    }
  }

  lemma HandOutOk(s: Backend, listed: seq<DeviceId>, picks: map<DeviceId, KeyRow>)
    requires Inv(s)
    ensures Inv(HandOut(s, listed, picks))
  {
    var s' := HandOut(s, listed, picks);
    assert SameTables(s, s');
    assert MessagesOk(s') by {
      forall id | id in s'.messages
        ensures MessageOk(s', s'.messages[id])
      {
        assert MessageOk(s, s.messages[id]);
      }
    }
  }

  lemma DropsOk(s: Backend, s': Backend)
    requires Inv(s) && s' == s.(sessions := s'.sessions, registry := s'.registry)
    requires forall j :: j in s'.sessions ==> j in s.sessions && s'.sessions[j] == s.sessions[j]
    requires RegistryOk(s')
    ensures Inv(s')
  {
    forall id | id in s'.messages
      ensures MessageOk(s', s'.messages[id])
    {
      assert MessageOk(s, s.messages[id]);
    }
    assert RoutedOk(s');
  }

  lemma LoginStepInv(s: Backend, step: Step)
    requires Inv(s) && Enabled(s, step)
    requires step.SetsAccount? || step.Registers? || step.LogsIn? || step.Bootstraps?
    ensures Inv(Next(s, step))
  {
    match step
    case SetsAccount(user, a) => SetAccountOk(s, user, a);
    case Registers(user, d, jti, now) => RegisterOk(s, user, d, jti, now);
    case LogsIn(user, d, jti) =>
      if ActiveOf(s, user, d) && user in s.accounts {
        AddSessionOk(s, jti, Session(user, s.accounts[user].org, s.accounts[user].admin, Some(d)));
      }
    case Bootstraps(user, jti) =>
      if user in s.accounts {
        AddSessionOk(s, jti, Session(user, s.accounts[user].org, true, None));
      }
  }

  lemma RevokeStepInv(s: Backend, step: Step)
    requires Inv(s) && (step.Revokes? || step.Nukes? || step.RevokesOwn?)
    ensures Inv(Next(s, step))
  {
    if step.Nukes? {
      NukeOk(s, step.jti, step.device);
    } else if step.device in s.devices {
      RevokeOk(s, step.device);
    }
  }

  lemma StepInv(s: Backend, step: Step)
    requires Inv(s) && Enabled(s, step)
    ensures Inv(Next(s, step))
  {
    if step.SetsAccount? || step.Registers? || step.LogsIn? || step.Bootstraps? {
      LoginStepInv(s, step);
    } else if step.Revokes? || step.Nukes? || step.RevokesOwn? {
      RevokeStepInv(s, step);
    } else {
      match step
      case UploadsKeys(jti, user, org, d, entries, now) => UploadKeysOk(s, jti, user, org, d, entries, now);
      case UploadsOtpks(jti, entries, chosen, now) => UploadOtpksOk(s, jti, entries, chosen, now);
      case FetchesKeys(_, _, listed, picks) => HandOutOk(s, listed, picks);
      case Sends(from, e) => EnvelopeOk(s, from, e);
      case _ => DropsOk(s, Next(s, step));
    }
  }

  ghost predicate IsRun(rs: seq<Backend>, steps: seq<Step>) {
    && |rs| == |steps| + 1
    && rs[0] == START
    && forall i :: 0 <= i < |steps| ==> Enabled(rs[i], steps[i]) && rs[i + 1] == Next(rs[i], steps[i])
  }
}
