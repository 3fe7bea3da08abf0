/**
 The one-time keys' ledger: every key ever inserted is in the pool, was handed out
 once, or was purged by a revocation, and is never in two of these places.
 */
module KeyLedger {
  import opened Prelude
  import opened Server
  import opened ServerInvariant

  function RowsHanded(hs: seq<Handout>): set<KeyRow> {
    set h | h in hs :: h.row
  }

  ghost predicate Distinct(hs: seq<Handout>) {
    forall i, j :: 0 <= i < j < |hs| ==> hs[i].row != hs[j].row
  }

  ghost predicate PoolHolds(s: Backend) {
    forall k :: k in s.pool ==> k < |s.inserted| && s.pool[k] == s.inserted[k]
  }

  /** Unchanged, and in the bundle of its own device. */
  ghost predicate HandedRight(s: Backend) {
    forall h :: h in s.handed ==>
      h.row < |s.inserted| && h.key == s.inserted[h.row] && h.bundle == h.key.device
  }

  ghost predicate OnePlaceEach(s: Backend) {
    && Distinct(s.handed)
    && s.pool.Keys !! RowsHanded(s.handed) && s.pool.Keys !! s.purged && RowsHanded(s.handed) !! s.purged
    && (forall k :: k in s.purged ==> k < |s.inserted|)
    && forall k: KeyRow :: k < |s.inserted| ==> k in s.pool || k in RowsHanded(s.handed) || k in s.purged
  }

  ghost predicate Ledger(s: Backend) {
    PoolHolds(s) && HandedRight(s) && OnePlaceEach(s)
  }

  // ── Steps ───────────────────────────────────────────────────────────────────

  lemma AddKeyLedger(s: Backend, d: DeviceId, keyId: int, bytes: seq<Byte>, now: int)
    requires Ledger(s)
    ensures Ledger(AddKey(s, d, keyId, bytes, now))
  {
    forall h | h in s.handed
      ensures h.row != |s.inserted|
    {
    }
  }

  lemma {:induction false} AddKeysLedger(s: Backend, d: DeviceId, entries: seq<Entry>, now: int)
    requires Ledger(s) && AllDecode(entries)
    ensures Ledger(AddKeys(s, d, entries, now))
  {
    if entries != [] {
      var last := entries[|entries| - 1];
      AddKeysLedger(s, d, entries[..|entries| - 1], now);
      AddKeyLedger(AddKeys(s, d, entries[..|entries| - 1], now), d, last.keyId, last.bytes.value, now);
    }
  }

  ghost predicate OwnKeys(s: Backend, listed: seq<DeviceId>, picks: map<DeviceId, KeyRow>) {
    && (forall i, j :: 0 <= i < j < |listed| ==> listed[i] != listed[j])
    && forall d :: d in picks ==> picks[d] in KeysOf(s, d)
  }

  /** The keys that leave are the picked ones, each once, with its own device's bundle. */
  lemma {:induction false} LeavingKeys(s: Backend, listed: seq<DeviceId>, picks: map<DeviceId, KeyRow>)
    requires OwnKeys(s, listed, picks)
    ensures forall h :: h in KeysIn(s, Bundles(listed, picks)) ==>
              h.bundle in listed && h.bundle in picks && h == Handout(picks[h.bundle], s.pool[picks[h.bundle]], h.bundle)
    ensures forall d :: d in listed && d in picks ==>
              Handout(picks[d], s.pool[picks[d]], d) in KeysIn(s, Bundles(listed, picks))
  {
    if listed != [] {
      var init, d := listed[..|listed| - 1], listed[|listed| - 1];
      LeavingKeys(s, init, picks);
      assert listed == init + [d];
      assert Bundles(listed, picks)[..|init|] == Bundles(init, picks);
      assert KeysIn(s, Bundles(listed, picks))
          == KeysIn(s, Bundles(init, picks)) + if d in picks then [Handout(picks[d], s.pool[picks[d]], d)] else [];
    }
  }

  lemma DistinctJoin(a: seq<Handout>, b: seq<Handout>)
    requires Distinct(a) && Distinct(b) && RowsHanded(a) !! RowsHanded(b)
    ensures Distinct(a + b) && RowsHanded(a + b) == RowsHanded(a) + RowsHanded(b)
  {
    var c := a + b;
    forall i, j | 0 <= i < j < |c|
      ensures c[i].row != c[j].row
    {
      if i < |a| <= j {
        assert c[i] in a && c[j] in b;
        assert c[i].row in RowsHanded(a) && c[j].row in RowsHanded(b);
      }
    }
  }

  lemma {:induction false} LeavingOnce(s: Backend, listed: seq<DeviceId>, picks: map<DeviceId, KeyRow>)
    requires OwnKeys(s, listed, picks)
    ensures Distinct(KeysIn(s, Bundles(listed, picks)))
  {
    if listed != [] {
      var init, d := listed[..|listed| - 1], listed[|listed| - 1];
      LeavingOnce(s, init, picks);
      LeavingKeys(s, init, picks);
      assert Bundles(listed, picks)[..|init|] == Bundles(init, picks);
      var before := KeysIn(s, Bundles(init, picks));
      if d in picks {
        assert d !in init;
        forall h | h in before
          ensures h.row != picks[d]
        {
        }
        DistinctJoin(before, [Handout(picks[d], s.pool[picks[d]], d)]);
      }
    }
  }

  lemma LeavingRows(s: Backend, listed: seq<DeviceId>, picks: map<DeviceId, KeyRow>)
    requires OwnKeys(s, listed, picks) && forall d :: d in picks ==> d in listed
    ensures RowsHanded(KeysIn(s, Bundles(listed, picks))) == picks.Values
  {
    LeavingKeys(s, listed, picks);
    var hs := KeysIn(s, Bundles(listed, picks));
    forall k | k in picks.Values
      ensures k in RowsHanded(hs)
    {
      var d :| d in picks && picks[d] == k;
      assert Handout(picks[d], s.pool[picks[d]], d) in hs;
    }
  }

  lemma HandOutLedger(s: Backend, listed: seq<DeviceId>, picks: map<DeviceId, KeyRow>)
    requires Ledger(s) && OwnKeys(s, listed, picks) && forall d :: d in picks ==> d in listed
    ensures Ledger(HandOut(s, listed, picks))
  {
    var s', hs := HandOut(s, listed, picks), KeysIn(s, Bundles(listed, picks));
    LeavingKeys(s, listed, picks);
    LeavingOnce(s, listed, picks);
    LeavingRows(s, listed, picks);
    assert picks.Values <= s.pool.Keys;
    DistinctJoin(s.handed, hs);
    assert HandedRight(s');
  }

  lemma RevokeLedger(s: Backend, d: DeviceId)
    requires Ledger(s) && d in s.devices
    ensures Ledger(Revoke(s, d))
  {
  }

  ghost predicate SameKeys(s: Backend, s': Backend) {
    s'.pool == s.pool && s'.inserted == s.inserted && s'.handed == s.handed && s'.purged == s.purged
  }

  lemma SameKeysLedger(s: Backend, s': Backend)
    requires Ledger(s) && SameKeys(s, s')
    ensures Ledger(s')
  {
  }

  lemma EnvelopeSameKeys(s: Backend, from: DeviceId, e: Envelope)
    requires !e.KeysRequest?
    ensures SameKeys(s, HandleEnvelope(s, from, e))
  {
  }

  lemma UploadsLedger(s: Backend, step: Step)
    requires Ledger(s) && (step.UploadsOtpks? || step.UploadsKeys?)
    ensures Ledger(Next(s, step))
  {
    match step
    case UploadsOtpks(jti, entries, chosen, now) =>
      if UploadOtpks(s, jti, entries, chosen, now).1.Uploaded? {
        AddKeysLedger(s, chosen.value, entries, now);
      }
    case UploadsKeys(jti, user, org, d, entries, now) =>
      if jti in s.sessions && AllDecode(entries) {
        var linked := AddSession(AddDevice(s, user, org, d, now), jti, s.sessions[jti].(device := Some(d)));
        SameKeysLedger(s, linked);
        AddKeysLedger(linked, d, entries, now);
      }
  }

  lemma RevokesLedger(s: Backend, step: Step)
    requires Ledger(s) && (step.Revokes? || step.RevokesOwn?)
    ensures Ledger(Next(s, step))
  {
    if step.device in s.devices {
      RevokeLedger(s, step.device);
    }
  }

  lemma NukesLedger(s: Backend, jti: Jti, d: DeviceId)
    requires Ledger(s)
    ensures Ledger(NukeDevice(s, jti, d))
  {
    if d in s.devices {
      SameKeysLedger(s, Mark(s, d));
      RevokeLedger(Mark(s, d), d);
    }
  }

  lemma OthersSameKeys(s: Backend, step: Step)
    requires !step.UploadsOtpks? && !step.UploadsKeys? && !step.Revokes? && !step.Nukes? && !step.RevokesOwn?
    requires !step.Sends? && !step.FetchesKeys?
    ensures SameKeys(s, Next(s, step))
  {
  }

  lemma StepLedger(s: Backend, step: Step)
    requires Ledger(s) && Enabled(s, step)
    ensures Ledger(Next(s, step))
  {
    match step
    case UploadsOtpks(_, _, _, _) => UploadsLedger(s, step);
    case UploadsKeys(_, _, _, _, _, _) => UploadsLedger(s, step);
    case FetchesKeys(jti, _, listed, picks) => if jti in s.sessions { HandOutLedger(s, listed, picks); }
    case Sends(from, e) =>
      if e.KeysRequest? {
        if from in s.registry { HandOutLedger(s, e.listed, e.picks); }
      } else {
        EnvelopeSameKeys(s, from, e);
        SameKeysLedger(s, Next(s, step));
      }
    case Revokes(_, _) => RevokesLedger(s, step);
    case Nukes(jti, d) => NukesLedger(s, jti, d);
    case RevokesOwn(_, _) => RevokesLedger(s, step);
    case _ =>
      OthersSameKeys(s, step);
      SameKeysLedger(s, Next(s, step));
  }

  lemma {:induction false} RunLedger(rs: seq<Backend>, steps: seq<Step>, i: nat)
    requires IsRun(rs, steps) && i < |rs|
    ensures Ledger(rs[i])
  {
    if i > 0 {
      RunLedger(rs, steps, i - 1);
      StepLedger(rs[i - 1], steps[i - 1]);
    }
  }

  // ── Conservation ────────────────────────────────────────────────────────────

  lemma {:induction false} CountHanded(hs: seq<Handout>)
    requires Distinct(hs)
    ensures |RowsHanded(hs)| == |hs|
  {
    if hs != [] {
      var init, h := hs[..|hs| - 1], hs[|hs| - 1];
      CountHanded(init);
      assert hs == init + [h];
      assert RowsHanded(hs) == RowsHanded(init) + {h.row};
    }
  }

  function Below(n: nat): set<KeyRow> {
    if n == 0 then {} else Below(n - 1) + {n - 1}
  }

  lemma {:induction false} CountBelow(n: nat)
    ensures |Below(n)| == n && forall k: KeyRow :: k in Below(n) <==> k < n
  {
    if n > 0 {
      CountBelow(n - 1);
    }
  }

  lemma CountApart(a: set<KeyRow>, b: set<KeyRow>, c: set<KeyRow>)
    requires a !! b && a !! c && b !! c
    ensures |a + b + c| == |a| + |b| + |c|
  {
  }

  lemma HandedBelow(s: Backend)
    requires HandedRight(s)
    ensures forall k :: k in RowsHanded(s.handed) ==> k < |s.inserted|
  {
  }

  lemma CountPlaces(s: Backend)
    requires Ledger(s)
    ensures |s.inserted| == |s.pool.Keys| + |RowsHanded(s.handed)| + |s.purged|
  {
    var pool, handed, purged := s.pool.Keys, RowsHanded(s.handed), s.purged;
    HandedBelow(s);
    assert forall k :: k in pool ==> k < |s.inserted|;
    CountExactly(|s.inserted|, pool, handed, purged);
  }

  lemma CountExactly(n: nat, a: set<KeyRow>, b: set<KeyRow>, c: set<KeyRow>)
    requires a !! b && a !! c && b !! c
    requires forall k: KeyRow :: k < n <==> k in a || k in b || k in c
    ensures n == |a| + |b| + |c|
  {
    CountBelow(n);
    assert Below(n) == a + b + c;
    CountApart(a, b, c);
  }

  /** Inserted = remaining + handed out + purged. */
  lemma Conservation(rs: seq<Backend>, steps: seq<Step>, i: nat)
    requires IsRun(rs, steps) && i < |rs|
    ensures |rs[i].inserted| == |rs[i].pool| + |rs[i].handed| + |rs[i].purged|
  {
    RunLedger(rs, steps, i);
    CountHanded(rs[i].handed);
    CountPlaces(rs[i]);
  }

  // ── One key per bundle, and the batch upload ────────────────────────────────

  /** Every listed device gives one of its oldest keys, if it has any, and no other key. */
  lemma OneKeyEach(s: Backend, target: User, org: Org, listed: seq<DeviceId>, picks: map<DeviceId, KeyRow>, i: nat)
    requires Listed(s, target, org, listed) && Picked(s, listed, picks) && i < |listed|
    ensures var d, b := listed[i], Bundles(listed, picks)[i];
            && b.device == d
            && (b.key.None? <==> KeysOf(s, d) == {})
            && (b.key.Some? ==>
                  && b.key.value in KeysOf(s, d)
                  && KeysOf(HandOut(s, listed, picks), d) == KeysOf(s, d) - {b.key.value})
  {
    var d, s' := listed[i], HandOut(s, listed, picks);
    forall k | k in KeysOf(s, d) && k in picks.Values
      ensures k == picks[d]
    {
      var e :| e in picks && picks[e] == k;
      assert k in KeysOf(s, e);
    }
  }

  lemma OthersKeepKeys(s: Backend, listed: seq<DeviceId>, picks: map<DeviceId, KeyRow>, d: DeviceId)
    requires Picked(s, listed, picks) && d !in listed
    ensures KeysOf(HandOut(s, listed, picks), d) == KeysOf(s, d)
  {
    forall e | e in picks
      ensures picks[e] !in KeysOf(s, d)
    {
      assert picks[e] in KeysOf(s, e);
    }
  }

  /** The rows a batch adds: its entries in order, all for one device. */
  lemma {:induction false} AddedRows(s: Backend, d: DeviceId, entries: seq<Entry>, now: int, i: nat)
    requires AllDecode(entries) && i < |entries| && PoolHolds(s)
    ensures var s' := AddKeys(s, d, entries, now);
            && |s'.inserted| == |s.inserted| + |entries| && |s.inserted| + i in s'.pool
            && s'.pool[|s.inserted| + i] == Otpk(d, entries[i].keyId, entries[i].bytes.value, now)
  {
    var init := entries[..|entries| - 1];
    AddedCount(s, d, init, now);
    if i < |init| {
      AddedRows(s, d, init, now, i);
    }
  }

  lemma OneMoreKey(s: Backend, d: DeviceId, keyId: int, bytes: seq<Byte>, now: int)
    requires PoolHolds(s)
    ensures var s' := AddKey(s, d, keyId, bytes, now);
            |s'.inserted| == |s.inserted| + 1 && PoolHolds(s') && |KeysOf(s', d)| == |KeysOf(s, d)| + 1
  {
    assert KeysOf(AddKey(s, d, keyId, bytes, now), d) == KeysOf(s, d) + {|s.inserted|};
  }

  lemma {:induction false} AddedCount(s: Backend, d: DeviceId, entries: seq<Entry>, now: int)
    requires AllDecode(entries) && PoolHolds(s)
    ensures var s' := AddKeys(s, d, entries, now);
            && |s'.inserted| == |s.inserted| + |entries| && PoolHolds(s')
            && |KeysOf(s', d)| == |KeysOf(s, d)| + |entries|
  {
    if entries != [] {
      var init, last := entries[..|entries| - 1], entries[|entries| - 1];
      AddedCount(s, d, init, now);
      OneMoreKey(AddKeys(s, d, init, now), d, last.keyId, last.bytes.value, now);
    }
  }

  /**
   A batch of one-time keys is stored whole, leaving its device at most 200, exactly when
   it has 1 to 50 well-formed keys and fits; otherwise nothing changes.
   */
  lemma UploadAllOrNothing(s: Backend, jti: Jti, entries: seq<Entry>, chosen: Option<DeviceId>, now: int)
    requires Ledger(s)
    ensures var (s', reply) := UploadOtpks(s, jti, entries, chosen, now);
            && (reply.Uploaded? <==>
                  && jti in s.sessions && 1 <= |entries| <= BATCH_MAX && chosen.Some?
                  && |KeysOf(s, chosen.value)| + |entries| <= OTPK_ABSOLUTE_MAX
                  && forall i :: 0 <= i < |entries| ==> GoodEntry(entries[i]))
            && (!reply.Uploaded? ==> s' == s)
            && (reply.Uploaded? ==>
                  |KeysOf(s', chosen.value)| == |KeysOf(s, chosen.value)| + |entries| <= OTPK_ABSOLUTE_MAX)
  {
    if UploadOtpks(s, jti, entries, chosen, now).1.Uploaded? {
      AddedCount(s, chosen.value, entries, now);
    }
  }

  /** Each key of an accepted batch is in the pool, in the order given. */
  lemma UploadStoresEach(s: Backend, jti: Jti, entries: seq<Entry>, chosen: Option<DeviceId>, now: int, i: nat)
    requires Ledger(s) && UploadOtpks(s, jti, entries, chosen, now).1.Uploaded? && i < |entries|
    ensures var s' := UploadOtpks(s, jti, entries, chosen, now).0;
            && |s.inserted| + i in s'.pool
            && s'.pool[|s.inserted| + i] == Otpk(chosen.value, entries[i].keyId, entries[i].bytes.value, now)
  {
    AddedRows(s, chosen.value, entries, now, i);
  }
}
