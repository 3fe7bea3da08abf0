/**
 The backend's shared state and the handlers that change it: accounts, devices, login
 sessions, the one-time-key pool, the live-connection registry and the stored messages
 (crates/backend/src: auth.rs, keys.rs, ws.rs, admin.rs, users.rs). Each handler is one
 step, its queries succeed, and generated ids are new. A key's row id is its place in
 `inserted`; `inserted`, `handed`, `purged`, `bundled` and `routed` record every key that
 entered or left the pool, every bundle sent, and every event given to
 `deliver_event_to_device`.
 */
module Server {
  import opened Prelude

  type Org = nat

  type User = nat

  type DeviceId = nat

  type Jti = nat

  type MsgId = nat

  type KeyRow = nat

  datatype Account = Account(org: Org, admin: bool, active: bool)

  datatype Device = Device(user: User, org: Org, lastSeen: int, active: bool, nuked: bool)

  /** A sessions row with the claims of the token issued for it. */
  datatype Session = Session(user: User, org: Org, admin: bool, device: Option<DeviceId>)

  datatype Otpk = Otpk(device: DeviceId, keyId: int, publicKey: seq<Byte>, createdAt: int)

  /** The registry entry of a connected device. */
  datatype Conn = Conn(user: User, org: Org)

  datatype Message = Message(from: DeviceId, to: DeviceId, org: Org, deliveredAt: Option<int>, readAt: Option<int>)

  datatype EventKind = NewMessage | Status | Typing | StoryKey

  datatype Routed = Routed(kind: EventKind, from: DeviceId, to: DeviceId)

  /** One key given away: its row, and the device whose bundle it went into. */
  datatype Handout = Handout(row: KeyRow, key: Otpk, bundle: DeviceId)

  datatype Backend = Backend(
    accounts: map<User, Account>,
    devices: map<DeviceId, Device>,
    sessions: map<Jti, Session>,
    pool: map<KeyRow, Otpk>,
    inserted: seq<Otpk>,
    registry: map<DeviceId, Conn>,
    messages: map<MsgId, Message>,
    routed: seq<Routed>,
    bundled: seq<Bundle>,
    handed: seq<Handout>,
    purged: set<KeyRow>)

  const START := Backend(map[], map[], map[], map[], [], map[], map[], [], [], [], {})

  // ── One-time keys ───────────────────────────────────────────────────────────

  /** An uploaded key; `bytes` is what its base64 text decodes to, if it does. */
  datatype Entry = Entry(keyId: int, bytes: Option<seq<Byte>>)

  const OTPK_ABSOLUTE_MAX := 200
  const BATCH_MAX := 50
  const KEY_LENGTH := 32

  function KeysOf(s: Backend, d: DeviceId): set<KeyRow> {
    set k | k in s.pool && s.pool[k].device == d
  }

  function AddKey(s: Backend, d: DeviceId, keyId: int, bytes: seq<Byte>, now: int): Backend {
    var key := Otpk(d, keyId, bytes, now);
    s.(pool := s.pool[|s.inserted| := key], inserted := s.inserted + [key])
  }

  predicate AllDecode(entries: seq<Entry>) {
    forall i :: 0 <= i < |entries| ==> entries[i].bytes.Some?
  }

  function AddKeys(s: Backend, d: DeviceId, entries: seq<Entry>, now: int): Backend
    requires AllDecode(entries)
  {
    if entries == [] then s
    else
      var last := entries[|entries| - 1];
      AddKey(AddKeys(s, d, entries[..|entries| - 1], now), d, last.keyId, last.bytes.value, now)
  }

  predicate ActiveOf(s: Backend, user: User, d: DeviceId) {
    d in s.devices && s.devices[d].user == user && s.devices[d].active
  }

  /** The query ORDER BY last_seen DESC LIMIT 1 over the user's active devices. */
  ghost predicate Newest(s: Backend, user: User, chosen: Option<DeviceId>) {
    match chosen
    case None => forall d :: d in s.devices ==> !ActiveOf(s, user, d)
    case Some(c) =>
      && ActiveOf(s, user, c)
      && forall d :: d in s.devices && ActiveOf(s, user, d) ==> s.devices[d].lastSeen <= s.devices[c].lastSeen
  }

  datatype UploadReply = Unauthorized | BadBatch | NoDevice | Failed | Uploaded(count: nat)

  predicate GoodEntry(e: Entry) {
    e.bytes.Some? && |e.bytes.value| == KEY_LENGTH
  }

  /** `upload_otpks`; `chosen` is the device query's answer. */
  function UploadOtpks(s: Backend, jti: Jti, entries: seq<Entry>, chosen: Option<DeviceId>, now: int)
    : (Backend, UploadReply)
  {
    if jti !in s.sessions then (s, Unauthorized)
    else if entries == [] || |entries| > BATCH_MAX then (s, BadBatch)
    else if chosen.None? then (s, NoDevice)
    else if |KeysOf(s, chosen.value)| + |entries| > OTPK_ABSOLUTE_MAX then (s, Failed)
    else if forall i :: 0 <= i < |entries| ==> GoodEntry(entries[i]) then
      (AddKeys(s, chosen.value, entries, now), Uploaded(|entries|))
    else (s, Failed)
  }

  /** The device query of `get_user_keys_internal`, in any order. */
  ghost predicate Listed(s: Backend, target: User, org: Org, listed: seq<DeviceId>) {
    && (forall i, j :: 0 <= i < j < |listed| ==> listed[i] != listed[j])
    && forall d :: d in listed <==> d in s.devices && ActiveOf(s, target, d) && s.devices[d].org == org
  }

  /** The rows with rn = 1: one oldest key of every listed device that has keys. */
  ghost predicate Picked(s: Backend, listed: seq<DeviceId>, picks: map<DeviceId, KeyRow>) {
    && (forall d :: d in picks ==>
          && d in listed && picks[d] in KeysOf(s, d)
          && forall k :: k in KeysOf(s, d) ==> s.pool[picks[d]].createdAt <= s.pool[k].createdAt)
    && forall d :: d in listed && d !in picks ==> KeysOf(s, d) == {}
  }

  datatype Bundle = Bundle(device: DeviceId, key: Option<KeyRow>)

  function Bundles(listed: seq<DeviceId>, picks: map<DeviceId, KeyRow>): (bs: seq<Bundle>)
    ensures |bs| == |listed|
    ensures forall i :: 0 <= i < |bs| ==>
              bs[i] == Bundle(listed[i], if listed[i] in picks then Some(picks[listed[i]]) else None)
  {
    if listed == [] then []
    else
      var d := listed[|listed| - 1];
      Bundles(listed[..|listed| - 1], picks) + [Bundle(d, if d in picks then Some(picks[d]) else None)]
  }

  /** The keys that leave with the bundles. */
  function KeysIn(s: Backend, bs: seq<Bundle>): seq<Handout> {
    if bs == [] then []
    else
      var b := bs[|bs| - 1];
      KeysIn(s, bs[..|bs| - 1])
      + if b.key.Some? && b.key.value in s.pool
        then [Handout(b.key.value, s.pool[b.key.value], b.device)] else []
  }

  /** `get_user_keys_internal` */
  function HandOut(s: Backend, listed: seq<DeviceId>, picks: map<DeviceId, KeyRow>): Backend {
    var bundles := Bundles(listed, picks);
    s.(pool := s.pool - picks.Values, bundled := s.bundled + bundles, handed := s.handed + KeysIn(s, bundles))
  }

  predicate UserInOrg(s: Backend, user: User, org: Org) {
    user in s.accounts && s.accounts[user].org == org
  }

  // ── Accounts, devices, sessions ─────────────────────────────────────────────

  function AddDevice(s: Backend, user: User, org: Org, d: DeviceId, now: int): Backend {
    s.(devices := s.devices[d := Device(user, org, now, true, false)])
  }

  function AddSession(s: Backend, jti: Jti, session: Session): Backend {
    s.(sessions := s.sessions[jti := session])
  }

  /** `register_device`, after its access code and keys have been accepted. */
  function RegisterDevice(s: Backend, user: User, d: DeviceId, jti: Jti, now: int): Backend {
    if user !in s.accounts || !s.accounts[user].active then s
    else
      var org := s.accounts[user].org;
      AddSession(AddDevice(s, user, org, d, now), jti, Session(user, org, false, Some(d)))
  }

  /** `upload_keys`: a new device linked to the caller's session, with all its keys or not at all. */
  function UploadKeys(s: Backend, jti: Jti, user: User, org: Org, d: DeviceId, entries: seq<Entry>, now: int): Backend {
    if jti !in s.sessions || s.sessions[jti].user != user || s.sessions[jti].org != org then s
    else if !AllDecode(entries) then s
    else
      var linked := AddSession(AddDevice(s, user, org, d, now), jti, s.sessions[jti].(device := Some(d)));
      AddKeys(linked, d, entries, now)
  }

  /** `login_verify`, after the challenge and the signature have been accepted. */
  function LoginVerify(s: Backend, user: User, d: DeviceId, jti: Jti): Backend {
    if !ActiveOf(s, user, d) || user !in s.accounts then s
    else
      var a := s.accounts[user];
      AddSession(s, jti, Session(user, a.org, a.admin, Some(d)))
  }

  function AdminBootstrap(s: Backend, user: User, jti: Jti): Backend {
    if user !in s.accounts || !s.accounts[user].active || !s.accounts[user].admin then s
    else AddSession(s, jti, Session(user, s.accounts[user].org, true, None))
  }

  /** The checks before the upgrade, or of the AUTH envelope, and then the registration. */
  function Connect(s: Backend, jti: Jti, d: DeviceId): Backend {
    if jti !in s.sessions then s
    else
      var c := s.sessions[jti];
      if ActiveOf(s, c.user, d) && s.devices[d].org == c.org
      then s.(registry := s.registry[d := Conn(c.user, c.org)])
      else s
  }

  // ── Revocation ──────────────────────────────────────────────────────────────

  function WithoutDevice(sessions: map<Jti, Session>, d: DeviceId): map<Jti, Session> {
    map j | j in sessions && sessions[j].device != Some(d) :: sessions[j]
  }

  /** What both revocation handlers do once their UPDATE has matched a row. */
  function Revoke(s: Backend, d: DeviceId): Backend
    requires d in s.devices
  {
    s.(devices := s.devices[d := s.devices[d].(active := false)],
       pool := s.pool - KeysOf(s, d),
       purged := s.purged + KeysOf(s, d),
       sessions := WithoutDevice(s.sessions, d),
       registry := s.registry - {d})
  }

  /** `revoke_device_internal` */
  function RevokeDevice(s: Backend, jti: Jti, d: DeviceId): Backend {
    if jti !in s.sessions || !s.sessions[jti].admin then s
    else if d !in s.devices || s.devices[d].org != s.sessions[jti].org then s
    else Revoke(s, d)
  }

  function NukeDevice(s: Backend, jti: Jti, d: DeviceId): Backend {
    if jti !in s.sessions || !s.sessions[jti].admin then s
    else if d !in s.devices || s.devices[d].org != s.sessions[jti].org then RevokeDevice(s, jti, d)
    else RevokeDevice(s.(devices := s.devices[d := s.devices[d].(nuked := true)]), jti, d)
  }

  /** `revoke_own_device` */
  function RevokeOwn(s: Backend, jti: Jti, d: DeviceId): Backend {
    if jti !in s.sessions then s
    else if d !in s.devices || s.devices[d].user != s.sessions[jti].user || s.devices[d].org != s.sessions[jti].org then s
    else Revoke(s, d)
  }

  // ── Envelopes ───────────────────────────────────────────────────────────────

  datatype Envelope =
    | Auth
    | KeysRequest(target: User, listed: seq<DeviceId>, picks: map<DeviceId, KeyRow>)
    | MessageSend(to: DeviceId, id: MsgId, decodes: bool, persisted: bool)
    | MessageAck(ackId: MsgId, ackNow: int)
    | MessageRead(readId: MsgId, readNow: int)
    | TypingEvent(typingTo: DeviceId)
    | StoryKeyShare(shareTo: DeviceId)

  /** `verify_device_in_org` */
  predicate DeviceInOrg(s: Backend, d: DeviceId, org: Org) {
    d in s.devices && s.devices[d].org == org && s.devices[d].active
  }

  function Route(s: Backend, kind: EventKind, from: DeviceId, to: DeviceId): Backend {
    s.(routed := s.routed + [Routed(kind, from, to)])
  }

  function Coalesce(t: Option<int>, now: int): Option<int> {
    if t.Some? then t else Some(now)
  }

  function Delivered(m: Message, now: int): Message {
    m.(deliveredAt := Coalesce(m.deliveredAt, now))
  }

  function Read(m: Message, now: int): Message {
    m.(deliveredAt := Coalesce(m.deliveredAt, now), readAt := Coalesce(m.readAt, now))
  }

  function HandleSend(s: Backend, from: DeviceId, to: DeviceId, id: MsgId, decodes: bool, persisted: bool): Backend
    requires from in s.registry
  {
    if !DeviceInOrg(s, to, s.registry[from].org) || !decodes then s
    else if persisted && from in s.devices then
      var m := Message(from, to, s.devices[from].org, None, None);
      Route(s.(messages := s.messages[id := m]), NewMessage, from, to)
    else Route(s, NewMessage, from, to)
  }

  function HandleReceipt(s: Backend, from: DeviceId, id: MsgId, now: int, read: bool): Backend {
    if id !in s.messages || s.messages[id].to != from then s
    else
      var m := s.messages[id];
      Route(s.(messages := s.messages[id := if read then Read(m, now) else Delivered(m, now)]), Status, from, m.from)
  }

  function HandleNotice(s: Backend, kind: EventKind, from: DeviceId, to: DeviceId): Backend
    requires from in s.registry
  {
    if DeviceInOrg(s, to, s.registry[from].org) then Route(s, kind, from, to) else s
  }

  /** `handle_envelope`: nothing happens for a device that `sender_context` does not find. */
  function HandleEnvelope(s: Backend, from: DeviceId, e: Envelope): Backend {
    if from !in s.registry then s
    else
      match e
      case Auth => s
      case KeysRequest(target, listed, picks) =>
        if UserInOrg(s, target, s.registry[from].org) then HandOut(s, listed, picks) else s
      case MessageSend(to, id, decodes, persisted) => HandleSend(s, from, to, id, decodes, persisted)
      case MessageAck(id, now) => HandleReceipt(s, from, id, now, false)
      case MessageRead(id, now) => HandleReceipt(s, from, id, now, true)
      case TypingEvent(to) => HandleNotice(s, Typing, from, to)
      case StoryKeyShare(to) => HandleNotice(s, StoryKey, from, to)
  }

  // ── Steps ───────────────────────────────────────────────────────────────────

  datatype Step =
    | SetsAccount(user: User, account: Account)  // request_access, approvals, role changes
    | Registers(user: User, device: DeviceId, jti: Jti, now: int)
    | UploadsKeys(jti: Jti, user: User, org: Org, device: DeviceId, entries: seq<Entry>, now: int)
    | LogsIn(user: User, device: DeviceId, jti: Jti)
    | Bootstraps(user: User, jti: Jti)
    | LogsOut(jti: Jti)
    | Connects(jti: Jti, device: DeviceId)
    | Disconnects(device: DeviceId)
    | UploadsOtpks(jti: Jti, entries: seq<Entry>, chosen: Option<DeviceId>, now: int)
    | FetchesKeys(jti: Jti, target: User, listed: seq<DeviceId>, picks: map<DeviceId, KeyRow>)
    | Revokes(jti: Jti, device: DeviceId)
    | Nukes(jti: Jti, device: DeviceId)
    | RevokesOwn(jti: Jti, device: DeviceId)
    | Sends(from: DeviceId, envelope: Envelope)

  /** Generated ids are new, query answers are right, and an account keeps its organisation. */
  ghost predicate Enabled(s: Backend, step: Step) {
    match step
    case SetsAccount(user, a) => user in s.accounts ==> a.org == s.accounts[user].org
    case Registers(_, d, jti, _) => d !in s.devices && jti !in s.sessions
    case UploadsKeys(_, _, _, d, _, _) => d !in s.devices
    case LogsIn(_, _, jti) => jti !in s.sessions
    case Bootstraps(_, jti) => jti !in s.sessions
    case UploadsOtpks(jti, _, chosen, _) => jti in s.sessions ==> Newest(s, s.sessions[jti].user, chosen)
    case FetchesKeys(jti, target, listed, picks) =>
      jti in s.sessions ==> Listed(s, target, s.sessions[jti].org, listed) && Picked(s, listed, picks)
    case Sends(from, e) =>
      && (e.MessageSend? ==> e.id !in s.messages)
      && (e.KeysRequest? && from in s.registry ==>
            Listed(s, e.target, s.registry[from].org, e.listed) && Picked(s, e.listed, e.picks))
    case _ => true
  }

  function Next(s: Backend, step: Step): Backend {
    match step
    case SetsAccount(user, a) => s.(accounts := s.accounts[user := a])
    case Registers(user, d, jti, now) => RegisterDevice(s, user, d, jti, now)
    case UploadsKeys(jti, user, org, d, entries, now) => UploadKeys(s, jti, user, org, d, entries, now)
    case LogsIn(user, d, jti) => LoginVerify(s, user, d, jti)
    case Bootstraps(user, jti) => AdminBootstrap(s, user, jti)
    case LogsOut(jti) => s.(sessions := s.sessions - {jti})
    case Connects(jti, d) => Connect(s, jti, d)
    case Disconnects(d) => s.(registry := s.registry - {d})
    case UploadsOtpks(jti, entries, chosen, now) => UploadOtpks(s, jti, entries, chosen, now).0
    case FetchesKeys(jti, target, listed, picks) =>
      if jti in s.sessions && UserInOrg(s, target, s.sessions[jti].org) then HandOut(s, listed, picks) else s
    case Revokes(jti, d) => RevokeDevice(s, jti, d)
    case Nukes(jti, d) => NukeDevice(s, jti, d)
    case RevokesOwn(jti, d) => RevokeOwn(s, jti, d)
    case Sends(from, e) => HandleEnvelope(s, from, e)
  }
}
