/**
 The handlers as they run, row by row, on tables and a registry changed in place
 (crates/backend/src: keys.rs, admin.rs, users.rs, auth.rs, ws.rs). Each method is
 proved to take exactly the step its specification in `Server` describes.
 */
module ServerObject {
  import opened Prelude
  import opened Server

  class Instance {
    var accounts: map<User, Account>
    var devices: map<DeviceId, Device>
    var sessions: map<Jti, Session>
    var pool: map<KeyRow, Otpk>
    var inserted: seq<Otpk>
    var registry: map<DeviceId, Conn>
    var messages: map<MsgId, Message>
    var routed: seq<Routed>
    var bundled: seq<Bundle>
    var handed: seq<Handout>
    var purged: set<KeyRow>

    function State(): Backend
      reads this
    {
      Backend(accounts, devices, sessions, pool, inserted, registry, messages, routed, bundled, handed,
              purged)
    }

    constructor ()
      ensures State() == START
    {
      accounts, devices, sessions, pool, inserted := map[], map[], map[], map[], [];
      registry, messages, routed, bundled, handed, purged := map[], map[], [], [], [], {};
    }

    // ── keys.rs ───────────────────────────────────────────────────────────────

    /** INSERT INTO one_time_pre_keys */
    method InsertKey(d: DeviceId, keyId: int, bytes: seq<Byte>, now: int)
      modifies this`pool, this`inserted
      ensures State() == AddKey(old(State()), d, keyId, bytes, now)
    {
      var key := Otpk(d, keyId, bytes, now);
      pool, inserted := pool[|inserted| := key], inserted + [key];
    }

    /** The insert loop of a transaction: stops at the first entry that `accepts` refuses,
        and then the rollback takes back what it had inserted. */
    method InsertBatch(d: DeviceId, entries: seq<Entry>, length: Option<nat>, now: int) returns (ok: bool)
      modifies this`pool, this`inserted
      ensures ok <==> forall i :: 0 <= i < |entries| ==> Fits(entries[i], length)
      ensures ok ==> AllDecode(entries) && State() == AddKeys(old(State()), d, entries, now)
      ensures !ok ==> State() == old(State())
    {
      var savedPool, savedInserted := pool, inserted;
      for i := 0 to |entries|
        invariant forall k :: 0 <= k < i ==> Fits(entries[k], length)
        invariant AllDecode(entries[..i]) && State() == AddKeys(old(State()), d, entries[..i], now)
      {
        if !Fits(entries[i], length) {
          AddedKeysOnly(old(State()), d, entries[..i], now);
          pool, inserted := savedPool, savedInserted;
          return false;
        }
        assert entries[..i + 1][..i] == entries[..i];
        InsertKey(d, entries[i].keyId, entries[i].bytes.value, now);
      }
      assert entries[..|entries|] == entries;
      return true;
    }

    method UploadOtpkBatch(jti: Jti, entries: seq<Entry>, chosen: Option<DeviceId>, now: int) returns (reply: UploadReply)
      modifies this
      ensures State() == Next(old(State()), UploadsOtpks(jti, entries, chosen, now))
      ensures reply == UploadOtpks(old(State()), jti, entries, chosen, now).1
    {
      if jti !in sessions {
        return Unauthorized;
      }
      if entries == [] || |entries| > BATCH_MAX {
        return BadBatch;
      }
      if chosen.None? {
        return NoDevice;
      }
      var existing := |KeysOf(State(), chosen.value)|;
      if existing + |entries| > OTPK_ABSOLUTE_MAX {
        return Failed;
      }
      var ok := InsertBatch(chosen.value, entries, Some(KEY_LENGTH), now);
      assert ok <==> forall i :: 0 <= i < |entries| ==> GoodEntry(entries[i]);
      return if ok then Uploaded(|entries|) else Failed;
    }

    /** `get_user_keys_internal`: one DELETE .. RETURNING, then a bundle per device. */
    method GetUserKeys(listed: seq<DeviceId>, picks: map<DeviceId, KeyRow>) returns (bundles: seq<Bundle>)
      modifies this`pool, this`bundled, this`handed
      ensures State() == HandOut(old(State()), listed, picks) && bundles == Bundles(listed, picks)
    {
      var given;
      bundles, given := BuildBundles(listed, picks);
      pool := pool - picks.Values;
      bundled := bundled + bundles;
      handed := handed + given;
    }

    /** `get_user_keys_handler`: only for a user of the caller's organisation. */
    method FetchKeys(jti: Jti, target: User, listed: seq<DeviceId>, picks: map<DeviceId, KeyRow>)
      returns (bundles: Option<seq<Bundle>>)
      modifies this
      ensures State() == Next(old(State()), FetchesKeys(jti, target, listed, picks))
      ensures bundles.Some? <==> jti in old(sessions) && UserInOrg(old(State()), target, old(sessions)[jti].org)
      ensures bundles.Some? ==> bundles.value == Bundles(listed, picks)
    {
      if jti !in sessions || target !in accounts || accounts[target].org != sessions[jti].org {
        return None;
      }
      var built := GetUserKeys(listed, picks);
      return Some(built);
    }

    method BuildBundles(listed: seq<DeviceId>, picks: map<DeviceId, KeyRow>)
      returns (bundles: seq<Bundle>, given: seq<Handout>)
      ensures bundles == Bundles(listed, picks) && given == KeysIn(State(), bundles)
    {
      bundles, given := [], [];
      for i := 0 to |listed|
        invariant bundles == Bundles(listed[..i], picks) && given == KeysIn(State(), bundles)
      {
        var d := listed[i];
        var bundle := Bundle(d, if d in picks then Some(picks[d]) else None);
        assert listed[..i + 1][..i] == listed[..i];
        assert (bundles + [bundle])[..|bundles|] == bundles;
        bundles := bundles + [bundle];
        if bundle.key.Some? && bundle.key.value in pool {
          given := given + [Handout(bundle.key.value, pool[bundle.key.value], d)];
        }
      }
      assert listed[..|listed|] == listed;
    }

    /** `upload_keys`: device, session link and keys in one transaction. */
    method UploadNewDevice(jti: Jti, user: User, org: Org, d: DeviceId, entries: seq<Entry>, now: int)
      modifies this
      ensures State() == Next(old(State()), UploadsKeys(jti, user, org, d, entries, now))
    {
      if jti !in sessions || sessions[jti].user != user || sessions[jti].org != org {
        return;
      }
      var savedDevices, savedSessions := devices, sessions;
      devices := devices[d := Device(user, org, now, true, false)];
      sessions := sessions[jti := sessions[jti].(device := Some(d))];
      var ok := InsertBatch(d, entries, None, now);
      assert ok <==> AllDecode(entries);
      if !ok {
        devices, sessions := savedDevices, savedSessions;
      }
    }

    // ── admin.rs and users.rs ─────────────────────────────────────────────────

    /** What both handlers do for the row their UPDATE returned. */
    method RevokeRow(d: DeviceId)
      requires d in devices
      modifies this
      ensures State() == Revoke(old(State()), d)
    {
      devices := devices[d := devices[d].(active := false)];
      purged := purged + KeysOf(State(), d);
      pool := pool - KeysOf(State(), d);
      sessions := WithoutDevice(sessions, d);
      registry := registry - {d};
    }

    method RevokeByAdmin(jti: Jti, d: DeviceId) returns (found: bool)
      modifies this
      ensures State() == Next(old(State()), Revokes(jti, d))
      ensures found <==>
                && jti in old(sessions) && old(sessions)[jti].admin
                && d in old(devices) && old(devices)[d].org == old(sessions)[jti].org
    {
      if jti !in sessions || !sessions[jti].admin {
        return false;
      }
      if d !in devices || devices[d].org != sessions[jti].org {
        return false;
      }
      RevokeRow(d);
      return true;
    }

    method Nuke(jti: Jti, d: DeviceId) returns (found: bool)
      modifies this
      ensures State() == Next(old(State()), Nukes(jti, d))
      ensures found ==> d in devices && !devices[d].active
    {
      if jti !in sessions || !sessions[jti].admin {
        return false;
      }
      if d in devices && devices[d].org == sessions[jti].org {
        devices := devices[d := devices[d].(nuked := true)];
      }
      found := RevokeByAdmin(jti, d);
    }

    method RevokeOwnDevice(jti: Jti, d: DeviceId) returns (found: bool)
      modifies this
      ensures State() == Next(old(State()), RevokesOwn(jti, d))
      ensures found ==> d in devices && !devices[d].active
    {
      if jti !in sessions {
        return false;
      }
      if d !in devices || devices[d].user != sessions[jti].user || devices[d].org != sessions[jti].org {
        return false;
      }
      RevokeRow(d);
      return true;
    }

    // ── auth.rs ───────────────────────────────────────────────────────────────

    method Register(user: User, d: DeviceId, jti: Jti, now: int)
      modifies this`devices, this`sessions
      ensures State() == Next(old(State()), Registers(user, d, jti, now))
    {
      if user in accounts && accounts[user].active {
        var org := accounts[user].org;
        devices := devices[d := Device(user, org, now, true, false)];
        sessions := sessions[jti := Session(user, org, false, Some(d))];
      }
    }

    method Login(user: User, d: DeviceId, jti: Jti)
      modifies this`sessions
      ensures State() == Next(old(State()), LogsIn(user, d, jti))
    {
      if d in devices && devices[d].user == user && devices[d].active && user in accounts {
        sessions := sessions[jti := Session(user, accounts[user].org, accounts[user].admin, Some(d))];
      }
    }

    method Bootstrap(user: User, jti: Jti)
      modifies this`sessions
      ensures State() == Next(old(State()), Bootstraps(user, jti))
    {
      if user in accounts && accounts[user].active && accounts[user].admin {
        sessions := sessions[jti := Session(user, accounts[user].org, true, None)];
      }
    }

    method Logout(jti: Jti)
      modifies this`sessions
      ensures State() == Next(old(State()), LogsOut(jti))
    {
      sessions := sessions - {jti};
    }

    method SetAccount(user: User, account: Account)
      modifies this`accounts
      ensures State() == Next(old(State()), SetsAccount(user, account))
    {
      accounts := accounts[user := account];
    }

    // ── ws.rs ─────────────────────────────────────────────────────────────────

    method Open(jti: Jti, d: DeviceId)
      modifies this`registry
      ensures State() == Next(old(State()), Connects(jti, d))
    {
      if jti !in sessions {
        return;
      }
      var claims := sessions[jti];
      if d in devices && devices[d].user == claims.user && devices[d].active && devices[d].org == claims.org {
        registry := registry[d := Conn(claims.user, claims.org)];
      }
    }

    method Close(d: DeviceId)
      modifies this`registry
      ensures State() == Next(old(State()), Disconnects(d))
    {
      registry := registry - {d};
    }

    method DeliverEvent(kind: EventKind, from: DeviceId, to: DeviceId)
      modifies this`routed
      ensures State() == Route(old(State()), kind, from, to)
    {
      routed := routed + [Routed(kind, from, to)];
    }

    method Send(from: DeviceId, to: DeviceId, id: MsgId, decodes: bool, persisted: bool)
      requires from in registry
      modifies this
      ensures State() == HandleSend(old(State()), from, to, id, decodes, persisted)
    {
      if to !in devices || devices[to].org != registry[from].org || !devices[to].active || !decodes {
        return;
      }
      if persisted && from in devices {
        messages := messages[id := Message(from, to, devices[from].org, None, None)];
      }
      DeliverEvent(NewMessage, from, to);
    }

    method TakeReceipt(from: DeviceId, id: MsgId, now: int, read: bool)
      modifies this
      ensures State() == HandleReceipt(old(State()), from, id, now, read)
    {
      if id !in messages || messages[id].to != from {
        return;
      }
      var m := messages[id];
      if m.deliveredAt.None? {
        m := m.(deliveredAt := Some(now));
      }
      if read && m.readAt.None? {
        m := m.(readAt := Some(now));
      }
      messages := messages[id := m];
      DeliverEvent(Status, from, m.from);
    }

    method Notify(kind: EventKind, from: DeviceId, to: DeviceId)
      requires from in registry
      modifies this`routed
      ensures State() == HandleNotice(old(State()), kind, from, to)
    {
      if to in devices && devices[to].org == registry[from].org && devices[to].active {
        DeliverEvent(kind, from, to);
      }
    }

    method OnEnvelope(from: DeviceId, e: Envelope)
      modifies this
      ensures State() == Next(old(State()), Sends(from, e))
    {
      if from !in registry {
        return;
      }
      match e
      case Auth =>
      case KeysRequest(target, listed, picks) =>
        if target in accounts && accounts[target].org == registry[from].org {
          var _ := GetUserKeys(listed, picks);
        }
      case MessageSend(to, id, decodes, persisted) => Send(from, to, id, decodes, persisted);
      case MessageAck(id, now) => TakeReceipt(from, id, now, false);
      case MessageRead(id, now) => TakeReceipt(from, id, now, true);
      case TypingEvent(to) => Notify(Typing, from, to);
      case StoryKeyShare(to) => Notify(StoryKey, from, to);
    }

    // ── Every handler ─────────────────────────────────────────────────────────

    /** A step of the theorems is a call of the handler it names. */
    method Perform(step: Step)
      modifies this
      ensures State() == Next(old(State()), step)
    {
      match step
      case SetsAccount(user, a) => SetAccount(user, a);
      case Registers(user, d, jti, now) => Register(user, d, jti, now);
      case UploadsKeys(jti, user, org, d, entries, now) => UploadNewDevice(jti, user, org, d, entries, now);
      case LogsIn(user, d, jti) => Login(user, d, jti);
      case Bootstraps(user, jti) => Bootstrap(user, jti);
      case LogsOut(jti) => Logout(jti);
      case Connects(jti, d) => Open(jti, d);
      case Disconnects(d) => Close(d);
      case UploadsOtpks(jti, entries, chosen, now) => var _ := UploadOtpkBatch(jti, entries, chosen, now);
      case FetchesKeys(jti, target, listed, picks) => var _ := FetchKeys(jti, target, listed, picks);
      case Revokes(jti, d) => var _ := RevokeByAdmin(jti, d);
      case Nukes(jti, d) => var _ := Nuke(jti, d);
      case RevokesOwn(jti, d) => var _ := RevokeOwnDevice(jti, d);
      case Sends(from, e) => OnEnvelope(from, e);
    }
  }

  predicate Fits(e: Entry, length: Option<nat>) {
    e.bytes.Some? && (length.Some? ==> |e.bytes.value| == length.value)
  }

  lemma {:induction false} AddedKeysOnly(s: Backend, d: DeviceId, entries: seq<Entry>, now: int)
    requires AllDecode(entries)
    ensures AddKeys(s, d, entries, now)
         == s.(pool := AddKeys(s, d, entries, now).pool, inserted := AddKeys(s, d, entries, now).inserted)
  {
    if entries != [] {
      AddedKeysOnly(s, d, entries[..|entries| - 1], now);
    }
  }
}
