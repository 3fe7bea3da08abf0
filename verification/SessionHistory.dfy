/**
 Login sessions and live connections, read off the steps: which step created a session,
 for whom and with which rights, and which connected a device.
 */
module SessionHistory {
  import opened Prelude
  import opened Server
  import opened ServerInvariant
  import opened ServerGuarantees
  import opened ServerHistory
  import opened Traces

  // ── Sessions ────────────────────────────────────────────────────────────────

  /** The session a step creates: a registration never with administrator rights, a login
      with the account's own, a bootstrap for an active administrator only. */
  function Created(s: Backend, step: Step): Option<(Jti, Session)> {
    match step
    case Registers(user, d, jti, _) =>
      if user in s.accounts && s.accounts[user].active
      then Some((jti, Session(user, s.accounts[user].org, false, Some(d)))) else None
    case LogsIn(user, d, jti) =>
      if ActiveOf(s, user, d) && user in s.accounts
      then Some((jti, Session(user, s.accounts[user].org, s.accounts[user].admin, Some(d)))) else None
    case Bootstraps(user, jti) =>
      if user in s.accounts && s.accounts[user].active && s.accounts[user].admin
      then Some((jti, Session(user, s.accounts[user].org, true, None))) else None
    case _ => None
  }

  function Creates(j: Jti, user: User, org: Org, admin: bool): (Backend, Step) -> bool {
    (s: Backend, step: Step) =>
      Created(s, step).Some? && Created(s, step).value.0 == j
      && Created(s, step).value.1.user == user && Created(s, step).value.1.org == org
      && Created(s, step).value.1.admin == admin
  }

  /** A logout, or the revocation of the session's device. */
  function Ends(j: Jti): (Backend, Step) -> bool {
    (s: Backend, step: Step) =>
      || step == LogsOut(j)
      || (Revoking(s, step) && j in s.sessions && s.sessions[j].device == Some(step.device))
  }

  /** A session after a step. */
  function SessionAfter(s: Backend, step: Step, j: Jti): Option<Session> {
    if Created(s, step).Some? && Created(s, step).value.0 == j then Some(Created(s, step).value.1)
    else if j !in s.sessions || Ends(j)(s, step) then None
    else if AddsDeviceWithKeys(s, step) && step.jti == j then Some(s.sessions[j].(device := Some(step.device)))
    else Some(s.sessions[j])
  }

  function SessionAt(s: Backend, j: Jti): Option<Session> {
    if j in s.sessions then Some(s.sessions[j]) else None
  }

  lemma StepSession(s: Backend, step: Step, j: Jti)
    ensures SessionAt(Next(s, step), j) == SessionAfter(s, step, j)
  {
    if step.UploadsOtpks? {
      BatchTables(s, step);
    } else if step.UploadsKeys? {
      if AddsDeviceWithKeys(s, step) {
        DeviceTables(s, step);
      }
    } else if step.Revokes? || step.Nukes? || step.RevokesOwn? {
      RevokedSession(s, step, j);
    } else if step.Sends? {
      EnvelopeTables(s, step.from, step.envelope);
    } else {
      OtherSession(s, step, j);
    }
  }

  lemma RevokedSession(s: Backend, step: Step, j: Jti)
    requires step.Revokes? || step.Nukes? || step.RevokesOwn?
    ensures SessionAt(Next(s, step), j) == SessionAfter(s, step, j)
  {
    RevocationTakes(s, step);
    if Revoking(s, step) {
      RevocationTakesSessions(s, step, j);
    }
  }

  lemma OtherSession(s: Backend, step: Step, j: Jti)
    requires step.SetsAccount? || step.Registers? || step.LogsIn? || step.Bootstraps? || step.LogsOut?
          || step.Connects? || step.Disconnects? || step.FetchesKeys?
    ensures SessionAt(Next(s, step), j) == SessionAfter(s, step, j)
  {
  }

  lemma CreatedIsNew(s: Backend, step: Step)
    requires Enabled(s, step) && Created(s, step).Some?
    ensures Created(s, step).value.0 !in s.sessions
  {
  }

  ghost predicate HasSession(s: Backend, j: Jti, user: User, org: Org, admin: bool) {
    j in s.sessions && s.sessions[j].user == user && s.sessions[j].org == org && s.sessions[j].admin == admin
  }

  lemma StepHasSession(s: Backend, step: Step, j: Jti, user: User, org: Org, admin: bool)
    requires Enabled(s, step)
    ensures HasSession(Next(s, step), j, user, org, admin)
       <==> Creates(j, user, org, admin)(s, step) || (HasSession(s, j, user, org, admin) && !Ends(j)(s, step))
  {
    StepSession(s, step, j);
    if Created(s, step).Some? {
      CreatedIsNew(s, step);
    }
  }

  /** A session exists, for a user and organisation and with or without administrator
      rights, exactly when a step created it so and none has ended it since. */
  lemma SessionsExactly(rs: seq<Backend>, steps: seq<Step>, i: nat,
                        j: Jti, user: User, org: Org, admin: bool)
    requires IsRun(rs, steps) && i < |rs|
    ensures HasSession(rs[i], j, user, org, admin)
       <==> Since(rs, steps, i, Creates(j, user, org, admin), Ends(j))
  {
    forall n | 0 <= n < i
      ensures HasSession(rs[n + 1], j, user, org, admin)
         <==> (Creates(j, user, org, admin)(rs[n], steps[n])
               || (HasSession(rs[n], j, user, org, admin) && !Ends(j)(rs[n], steps[n])))
    {
      StepHasSession(rs[n], steps[n], j, user, org, admin);
    }
    SinceBuilds(rs, steps, i, (s: Backend) => HasSession(s, j, user, org, admin), Creates(j, user, org, admin), Ends(j));
  }

  /** An administrator's session was created by a login or bootstrap that found its user's
      account with administrator rights. */
  lemma AdministratorsLoggedIn(rs: seq<Backend>, steps: seq<Step>, i: nat, j: Jti) returns (a: nat)
    requires IsRun(rs, steps) && i < |rs| && j in rs[i].sessions && rs[i].sessions[j].admin
    ensures a < i && (steps[a].LogsIn? || steps[a].Bootstraps?) && steps[a].jti == j
    ensures steps[a].user == rs[i].sessions[j].user
    ensures steps[a].user in rs[a].accounts && rs[a].accounts[steps[a].user].admin
    ensures rs[a].accounts[steps[a].user].org == rs[i].sessions[j].org
  {
    var c := rs[i].sessions[j];
    SessionsExactly(rs, steps, i, j, c.user, c.org, true);
    a :| LastAt(rs, steps, i, Creates(j, c.user, c.org, true), Ends(j), a);
  }

  /** The device a step ties a session to: that of the login, or one it uploads. */
  function Ties(j: Jti, d: DeviceId): (Backend, Step) -> bool {
    (s: Backend, step: Step) =>
      || (Created(s, step).Some? && Created(s, step).value.0 == j && Created(s, step).value.1.device == Some(d))
      || (AddsDeviceWithKeys(s, step) && step.jti == j && step.device == d)
  }

  function Unties(j: Jti): (Backend, Step) -> bool {
    (s: Backend, step: Step) => Ends(j)(s, step) || (AddsDeviceWithKeys(s, step) && step.jti == j)
  }

  lemma StepTie(s: Backend, step: Step, j: Jti, d: DeviceId)
    requires Enabled(s, step)
    ensures j in Next(s, step).sessions && Next(s, step).sessions[j].device == Some(d)
       <==> Ties(j, d)(s, step) || (j in s.sessions && s.sessions[j].device == Some(d) && !Unties(j)(s, step))
  {
    StepSession(s, step, j);
    if Created(s, step).Some? {
      CreatedIsNew(s, step);
    }
  }

  /** A session is tied to the device of its login or of its last key upload. */
  lemma TiesExactly(rs: seq<Backend>, steps: seq<Step>, i: nat, j: Jti, d: DeviceId)
    requires IsRun(rs, steps) && i < |rs|
    ensures j in rs[i].sessions && rs[i].sessions[j].device == Some(d)
       <==> Since(rs, steps, i, Ties(j, d), Unties(j))
  {
    forall n | 0 <= n < i
      ensures j in rs[n + 1].sessions && rs[n + 1].sessions[j].device == Some(d)
         <==> (Ties(j, d)(rs[n], steps[n])
               || (j in rs[n].sessions && rs[n].sessions[j].device == Some(d) && !Unties(j)(rs[n], steps[n])))
    {
      StepTie(rs[n], steps[n], j, d);
    }
    SinceBuilds(rs, steps, i, (s: Backend) => j in s.sessions && s.sessions[j].device == Some(d), Ties(j, d), Unties(j));
  }

  // ── Connections ─────────────────────────────────────────────────────────────

  /** A connection is accepted for a live session of the device's user and organisation. */
  function Accepts(d: DeviceId, c: Conn): (Backend, Step) -> bool {
    (s: Backend, step: Step) =>
      && step.Connects? && step.device == d && step.jti in s.sessions
      && c == Conn(s.sessions[step.jti].user, s.sessions[step.jti].org)
      && d in s.devices && s.devices[d].active && s.devices[d].user == c.user && s.devices[d].org == c.org
  }

  function Drops(d: DeviceId): (Backend, Step) -> bool {
    (s: Backend, step: Step) => step == Disconnects(d) || MayRevoke(s, step, d)
  }

  /** In a sound state a device's entry does not depend on which session connected it. */
  lemma StepConnection(s: Backend, step: Step, d: DeviceId, c: Conn)
    requires Inv(s) && Enabled(s, step)
    ensures d in Next(s, step).registry && Next(s, step).registry[d] == c
       <==> Accepts(d, c)(s, step) || (d in s.registry && s.registry[d] == c && !Drops(d)(s, step))
  {
    if step.UploadsOtpks? {
      BatchTables(s, step);
    } else if step.UploadsKeys? {
      if AddsDeviceWithKeys(s, step) {
        DeviceTables(s, step);
      }
    } else if step.Revokes? || step.Nukes? || step.RevokesOwn? {
      RevocationTakes(s, step);
    } else if step.Sends? {
      EnvelopeTables(s, step.from, step.envelope);
    } else {
      OtherConnection(s, step, d, c);
    }
  }

  lemma OtherConnection(s: Backend, step: Step, d: DeviceId, c: Conn)
    requires RegistryOk(s)
    requires step.SetsAccount? || step.Registers? || step.LogsIn? || step.Bootstraps? || step.LogsOut?
          || step.Connects? || step.Disconnects? || step.FetchesKeys?
    ensures d in Next(s, step).registry && Next(s, step).registry[d] == c
       <==> Accepts(d, c)(s, step) || (d in s.registry && s.registry[d] == c && !Drops(d)(s, step))
  {
  }

  /** A device is connected exactly when a connection of it was accepted and it has not
      been disconnected or revoked since. */
  lemma ConnectionsExactly(rs: seq<Backend>, steps: seq<Step>, i: nat, d: DeviceId, c: Conn)
    requires IsRun(rs, steps) && i < |rs|
    ensures d in rs[i].registry && rs[i].registry[d] == c <==> Since(rs, steps, i, Accepts(d, c), Drops(d))
  {
    forall j | 0 <= j < i
      ensures d in rs[j + 1].registry && rs[j + 1].registry[d] == c
         <==> (Accepts(d, c)(rs[j], steps[j])
               || (d in rs[j].registry && rs[j].registry[d] == c && !Drops(d)(rs[j], steps[j])))
    {
      RunStep(rs, steps, j);
      StepConnection(rs[j], steps[j], d, c);
    }
    SinceBuilds(rs, steps, i, (s: Backend) => d in s.registry && s.registry[d] == c, Accepts(d, c), Drops(d));
  }
}
