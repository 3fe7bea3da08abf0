/**
 The backend's tables at a point of a run, read off the steps before it: every account,
 device, session, connection, message, event, bundle and key is there exactly because of
 the steps that put it there and in spite of no step that took it away.
 */
module ServerHistory {
  import opened Prelude
  import opened Server
  import opened ServerInvariant
  import opened ServerGuarantees
  import opened Traces

  // ── Uploads ─────────────────────────────────────────────────────────────────

  /** `upload_keys` goes through: the caller's own user, and every key decodes. */
  predicate AddsDeviceWithKeys(s: Backend, step: Step) {
    && step.UploadsKeys? && step.jti in s.sessions
    && s.sessions[step.jti].user == step.user && s.sessions[step.jti].org == step.org
    && AllDecode(step.entries)
  }

  /** `upload_otpks` goes through: 1 to 50 keys of 32 bytes that fit below the cap. */
  predicate AddsBatch(s: Backend, step: Step) {
    && step.UploadsOtpks? && step.jti in s.sessions && 1 <= |step.entries| <= BATCH_MAX && step.chosen.Some?
    && |KeysOf(s, step.chosen.value)| + |step.entries| <= OTPK_ABSOLUTE_MAX
    && forall i :: 0 <= i < |step.entries| ==> GoodEntry(step.entries[i])
  }

  lemma BatchTables(s: Backend, step: Step)
    requires step.UploadsOtpks?
    ensures SameTables(s, Next(s, step))
    ensures !AddsBatch(s, step) ==> Next(s, step) == s
  {
    if AddsBatch(s, step) {
      AddKeysKeepsTables(s, step.chosen.value, step.entries, step.now);
    }
  }

  /** The tables after `upload_keys`: a new device, the caller's session tied to it. */
  lemma DeviceTables(s: Backend, step: Step)
    requires AddsDeviceWithKeys(s, step)
    ensures var s' := Next(s, step);
            && s'.devices == s.devices[step.device := Device(step.user, step.org, step.now, true, false)]
            && s'.sessions == s.sessions[step.jti := s.sessions[step.jti].(device := Some(step.device))]
            && s'.accounts == s.accounts && s'.registry == s.registry
            && s'.messages == s.messages && s'.routed == s.routed
  {
    var session := s.sessions[step.jti].(device := Some(step.device));
    AddKeysKeepsTables(AddSession(AddDevice(s, step.user, step.org, step.device, step.now), step.jti, session),
                       step.device, step.entries, step.now);
  }

  // ── Revocations ─────────────────────────────────────────────────────────────

  /** A revocation takes from every table what is the device's, and nothing else. */
  lemma RevocationTakes(s: Backend, step: Step)
    requires step.Revokes? || step.Nukes? || step.RevokesOwn?
    ensures !Revoking(s, step) ==> Next(s, step) == s
    ensures Revoking(s, step) ==>
              var s', d := Next(s, step), step.device;
              && s'.devices == s.devices[d := s.devices[d].(active := false, nuked := s.devices[d].nuked || step.Nukes?)]
              && s'.registry == s.registry - {d}
              && s'.messages == s.messages && s'.accounts == s.accounts && s'.routed == s.routed
              && s'.inserted == s.inserted && s'.handed == s.handed && s'.bundled == s.bundled
  {
  }

  lemma RevocationTakesKeys(s: Backend, step: Step, k: KeyRow)
    requires Revoking(s, step)
    ensures var s' := Next(s, step);
            && (k in s'.pool <==> k in s.pool && s.pool[k].device != step.device)
            && (k in s'.pool ==> s'.pool[k] == s.pool[k])
            && (k in s'.purged <==> k in s.purged || (k in s.pool && s.pool[k].device == step.device))
  {
  }

  lemma RevocationTakesSessions(s: Backend, step: Step, j: Jti)
    requires Revoking(s, step)
    ensures var s' := Next(s, step);
            && (j in s'.sessions <==> j in s.sessions && s.sessions[j].device != Some(step.device))
            && (j in s'.sessions ==> s'.sessions[j] == s.sessions[j])
  {
  }

  /** What a revocation leaves to every other device. */
  lemma OthersAreSpared(s: Backend, step: Step, d: DeviceId, e: DeviceId)
    requires MayRevoke(s, step, d) && e != d
    ensures var s' := Next(s, step);
            && KeysOf(s', e) == KeysOf(s, e) && (forall k :: k in KeysOf(s, e) ==> s'.pool[k] == s.pool[k])
            && (e in s'.devices <==> e in s.devices) && (e in s.devices ==> s'.devices[e] == s.devices[e])
            && (e in s'.registry <==> e in s.registry) && (e in s.registry ==> s'.registry[e] == s.registry[e])
            && (forall j :: j in s.sessions && s.sessions[j].device != Some(d) ==>
                  j in s'.sessions && s'.sessions[j] == s.sessions[j])
            && s'.messages == s.messages && s'.accounts == s.accounts
  {
    RevocationTakes(s, step);
    forall k
      ensures k in KeysOf(Next(s, step), e) <==> k in KeysOf(s, e)
      ensures k in KeysOf(s, e) ==> Next(s, step).pool[k] == s.pool[k]
    {
      RevocationTakesKeys(s, step, k);
    }
    forall j | j in s.sessions && s.sessions[j].device != Some(d)
      ensures j in Next(s, step).sessions && Next(s, step).sessions[j] == s.sessions[j]
    {
      RevocationTakesSessions(s, step, j);
    }
  }

  // ── Accounts ────────────────────────────────────────────────────────────────

  function Sets(user: User, a: Account): (Backend, Step) -> bool {
    (s: Backend, step: Step) => step == SetsAccount(user, a)
  }

  function SetsAny(user: User): (Backend, Step) -> bool {
    (s: Backend, step: Step) => step.SetsAccount? && step.user == user
  }

  lemma StepAccount(s: Backend, step: Step, user: User, a: Account)
    ensures user in Next(s, step).accounts && Next(s, step).accounts[user] == a
       <==> Sets(user, a)(s, step) || (user in s.accounts && s.accounts[user] == a && !SetsAny(user)(s, step))
  {
    match step
    case UploadsOtpks(_, _, _, _) => BatchTables(s, step);
    case UploadsKeys(_, _, _, _, _, _) => if AddsDeviceWithKeys(s, step) { DeviceTables(s, step); }
    case Revokes(_, _) => RevocationTakes(s, step);
    case Nukes(_, _) => RevocationTakes(s, step);
    case RevokesOwn(_, _) => RevocationTakes(s, step);
    case Sends(from, e) => EnvelopeTables(s, from, e);
    case _ =>
  }

  lemma AccountsExactly(rs: seq<Backend>, steps: seq<Step>, i: nat, user: User, a: Account)
    requires IsRun(rs, steps) && i < |rs|
    ensures user in rs[i].accounts && rs[i].accounts[user] == a
       <==> Since(rs, steps, i, Sets(user, a), SetsAny(user))
  {
    forall j | 0 <= j < i
      ensures user in rs[j + 1].accounts && rs[j + 1].accounts[user] == a
         <==> (Sets(user, a)(rs[j], steps[j])
               || (user in rs[j].accounts && rs[j].accounts[user] == a && !SetsAny(user)(rs[j], steps[j])))
    {
      StepAccount(rs[j], steps[j], user, a);
    }
    SinceBuilds(rs, steps, i, (s: Backend) => user in s.accounts && s.accounts[user] == a,
                Sets(user, a), SetsAny(user));
  }

  /** Envelopes leave accounts, devices, sessions, connections, purges and inserts alone. */
  lemma EnvelopeTables(s: Backend, from: DeviceId, e: Envelope)
    ensures var s' := HandleEnvelope(s, from, e);
            && s'.accounts == s.accounts && s'.devices == s.devices && s'.sessions == s.sessions
            && s'.registry == s.registry && s'.purged == s.purged && s'.inserted == s.inserted
  {
  }

  // ── Devices ─────────────────────────────────────────────────────────────────

  /** The device a step adds. */
  function Added(s: Backend, step: Step): Option<(DeviceId, Device)> {
    match step
    case Registers(user, d, _, now) =>
      if user in s.accounts && s.accounts[user].active
      then Some((d, Device(user, s.accounts[user].org, now, true, false))) else None
    case UploadsKeys(_, user, org, d, _, now) =>
      if AddsDeviceWithKeys(s, step) then Some((d, Device(user, org, now, true, false))) else None
    case _ => None
  }

  function Adds(d: DeviceId, user: User, org: Org): (Backend, Step) -> bool {
    (s: Backend, step: Step) =>
      Added(s, step).Some? && Added(s, step).value.0 == d
      && Added(s, step).value.1.user == user && Added(s, step).value.1.org == org
  }

  function Deactivates(d: DeviceId): (Backend, Step) -> bool {
    (s: Backend, step: Step) => MayRevoke(s, step, d)
  }

  function NukesIt(d: DeviceId): (Backend, Step) -> bool {
    (s: Backend, step: Step) => MayRevoke(s, step, d) && step.Nukes?
  }

  /** A device row after a step. */
  function RowAfter(s: Backend, step: Step, d: DeviceId): Option<Device> {
    if Added(s, step).Some? && Added(s, step).value.0 == d then Some(Added(s, step).value.1)
    else if d !in s.devices then None
    else if Deactivates(d)(s, step)
    then Some(s.devices[d].(active := false, nuked := s.devices[d].nuked || step.Nukes?))
    else Some(s.devices[d])
  }

  lemma StepDevice(s: Backend, step: Step, d: DeviceId)
    requires Enabled(s, step)
    ensures RowAfter(s, step, d) == if d in Next(s, step).devices then Some(Next(s, step).devices[d]) else None
  {
    if step.UploadsOtpks? {
      BatchTables(s, step);
    } else if step.UploadsKeys? {
      if AddsDeviceWithKeys(s, step) {
        DeviceTables(s, step);
      }
    } else if step.Revokes? || step.Nukes? || step.RevokesOwn? {
      RevokedRow(s, step, d);
    } else if step.Sends? {
      EnvelopeTables(s, step.from, step.envelope);
    } else {
      OtherRow(s, step, d);
    }
  }

  lemma RevokedRow(s: Backend, step: Step, d: DeviceId)
    requires step.Revokes? || step.Nukes? || step.RevokesOwn?
    ensures RowAfter(s, step, d) == if d in Next(s, step).devices then Some(Next(s, step).devices[d]) else None
  {
    RevocationTakes(s, step);
  }

  lemma OtherRow(s: Backend, step: Step, d: DeviceId)
    requires step.SetsAccount? || step.Registers? || step.LogsIn? || step.Bootstraps? || step.LogsOut?
          || step.Connects? || step.Disconnects? || step.FetchesKeys?
    ensures RowAfter(s, step, d) == if d in Next(s, step).devices then Some(Next(s, step).devices[d]) else None
  {
  }

  lemma AddedIsNew(s: Backend, step: Step)
    requires Enabled(s, step) && Added(s, step).Some?
    ensures Added(s, step).value.0 !in s.devices && !Revoking(s, step)
    ensures Added(s, step).value.1.active && !Added(s, step).value.1.nuked
  {
  }

  /** A device exists for a user and organisation exactly when it was added for them; it
      is active exactly as long as no caller who may has revoked it. */
  lemma {:induction false} DevicesExactly(rs: seq<Backend>, steps: seq<Step>, i: nat, d: DeviceId, user: User, org: Org)
    requires IsRun(rs, steps) && i < |rs|
    ensures d in rs[i].devices && rs[i].devices[d].user == user && rs[i].devices[d].org == org
       <==> Ever(rs, steps, i, Adds(d, user, org))
    ensures d in rs[i].devices ==>
              && (rs[i].devices[d].active <==> !Ever(rs, steps, i, Deactivates(d)))
              && (rs[i].devices[d].nuked <==> Ever(rs, steps, i, NukesIt(d)))
    ensures Ever(rs, steps, i, Deactivates(d)) || Ever(rs, steps, i, NukesIt(d)) ==> d in rs[i].devices
  {
    if i > 0 {
      var s, step := rs[i - 1], steps[i - 1];
      DevicesExactly(rs, steps, i - 1, d, user, org);
      StepDevice(s, step, d);
      EverNext(rs, steps, i - 1, Adds(d, user, org));
      EverNext(rs, steps, i - 1, Deactivates(d));
      EverNext(rs, steps, i - 1, NukesIt(d));
      if Added(s, step).Some? {
        AddedIsNew(s, step);
      }
    }
  }
}
