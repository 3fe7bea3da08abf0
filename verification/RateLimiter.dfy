/**
 The sliding-window rate limiter (crates/backend/src/auth.rs, lines 20-48), against
 the limiter that never forgets: the complete history of accepted calls per key.
 */
module RateLimiter {
  import opened Prelude

  const MAX_REQUESTS := 5

  /** Sixty seconds in nanoseconds, the resolution of `Instant`. */
  const WINDOW := 60 * 1_000_000_000

  type Key = string

  datatype Call = Call(key: Key, now: int)

  /** `retain(|t| *t > cutoff)`. */
  function After(ts: seq<int>, cutoff: int): seq<int> {
    if ts == [] then []
    else
      var last := |ts| - 1;
      After(ts[..last], cutoff) + (if ts[last] > cutoff then [ts[last]] else [])
  }

  /** What one call does to the attempts table, and its answer. */
  function Check(attempts: map<Key, seq<int>>, c: Call): (map<Key, seq<int>>, bool) {
    var kept := After(if c.key in attempts then attempts[c.key] else [], c.now - WINDOW);
    if |kept| >= MAX_REQUESTS then (attempts[c.key := kept], false)
    else (attempts[c.key := kept + [c.now]], true)
  }

  class Limiter {
    var attempts: map<Key, seq<int>>

    constructor ()
      ensures attempts == map[]
    {
      attempts := map[];
    }

    method CheckCall(key: Key, now: int) returns (ok: bool)
      modifies this
      ensures (attempts, ok) == Check(old(attempts), Call(key, now))
    {
      var cutoff := now - WINDOW;
      var entry := if key in attempts then attempts[key] else [];
      var kept := [];
      var i := 0;
      while i < |entry|
        invariant 0 <= i <= |entry|
        invariant kept == After(entry[..i], cutoff)
      {
        assert entry[..i + 1][..i] == entry[..i];
        if entry[i] > cutoff {
          kept := kept + [entry[i]];
        }
        i := i + 1;
      }
      assert entry[..i] == entry;
      if |kept| >= MAX_REQUESTS {
        attempts := attempts[key := kept];
        return false;
      }
      attempts := attempts[key := kept + [now]];
      ok := true;
    }
  }

  // ── Histories ───────────────────────────────────────────────────────────────

  /** The table after a sequence of calls. */
  function Table(calls: seq<Call>): map<Key, seq<int>> {
    if calls == [] then map[] else Check(Table(calls[..|calls| - 1]), calls[|calls| - 1]).0
  }

  /** The answer to a call made after a sequence of calls. */
  function Answer(calls: seq<Call>, c: Call): bool {
    Check(Table(calls), c).1
  }

  /** When calls for a key were let through, none forgotten. */
  function Accepted(calls: seq<Call>, key: Key): seq<int> {
    if calls == [] then []
    else
      var last := |calls| - 1;
      Accepted(calls[..last], key)
      + (if calls[last].key == key && Answer(calls[..last], calls[last]) then [calls[last].now] else [])
  }

  /** How many readings lie in the window `(from, to]`. */
  function CountIn(ts: seq<int>, from: int, to: int): nat {
    if ts == [] then 0
    else
      var last := |ts| - 1;
      CountIn(ts[..last], from, to) + (if from < ts[last] <= to then 1 else 0)
  }

  /** The calls on one key are applied in the order of their clock readings. */
  ghost predicate Monotone(calls: seq<Call>, key: Key) {
    forall i, j :: 0 <= i <= j < |calls| && calls[i].key == key && calls[j].key == key ==>
      calls[i].now <= calls[j].now
  }

  /** The reading of the last call for a key, if there was one. */
  function LastCall(calls: seq<Call>, key: Key): Option<int> {
    if calls == [] then None
    else if calls[|calls| - 1].key == key then Some(calls[|calls| - 1].now)
    else LastCall(calls[..|calls| - 1], key)
  }

  lemma AfterSnoc(ts: seq<int>, t: int, c: int)
    ensures After(ts + [t], c) == if t > c then After(ts, c) + [t] else After(ts, c)
  {
    assert (ts + [t])[..|ts|] == ts;
  }

  lemma CountSnoc(ts: seq<int>, t: int, from: int, to: int)
    ensures CountIn(ts + [t], from, to) == CountIn(ts, from, to) + (if from < t <= to then 1 else 0)
  {
    assert (ts + [t])[..|ts|] == ts;
  }

  lemma {:induction false} AfterAfter(ts: seq<int>, c: int, d: int)
    requires c <= d
    ensures After(After(ts, c), d) == After(ts, d)
  {
    if ts != [] {
      var init, t := ts[..|ts| - 1], ts[|ts| - 1];
      assert ts == init + [t];
      AfterAfter(init, c, d);
      AfterSnoc(init, t, c);
      AfterSnoc(init, t, d);
      AfterSnoc(After(init, c), t, d);
    }
  }

  lemma {:induction false} AfterCounts(ts: seq<int>, c: int, to: int)
    requires forall i :: 0 <= i < |ts| ==> ts[i] <= to
    ensures |After(ts, c)| == CountIn(ts, c, to)
  {
    if ts != [] {
      AfterCounts(ts[..|ts| - 1], c, to);
    }
  }

  lemma {:induction false} CountWider(ts: seq<int>, from: int, to: int, from': int, to': int)
    requires from' <= from && forall i :: 0 <= i < |ts| ==> ts[i] <= to'
    ensures CountIn(ts, from, to) <= CountIn(ts, from', to')
  {
    if ts != [] {
      CountWider(ts[..|ts| - 1], from, to, from', to');
    }
  }

  /** The accepted history and the table after one more call. */
  lemma RunSnoc(calls: seq<Call>, c: Call, key: Key)
    ensures Table(calls + [c]) == Check(Table(calls), c).0
    ensures LastCall(calls + [c], key) == if c.key == key then Some(c.now) else LastCall(calls, key)
    ensures Accepted(calls + [c], key)
         == if c.key == key && Answer(calls, c) then Accepted(calls, key) + [c.now] else Accepted(calls, key)
  {
    assert (calls + [c])[..|calls|] == calls;
  }

  ghost predicate AllBy(calls: seq<Call>, key: Key, now: int) {
    forall i :: 0 <= i < |calls| && calls[i].key == key ==> calls[i].now <= now
  }

  lemma MonotoneSnoc(calls: seq<Call>, c: Call, key: Key)
    ensures Monotone(calls + [c], key) <==> Monotone(calls, key) && (c.key == key ==> AllBy(calls, key, c.now))
  {
    var more := calls + [c];
    assert forall i :: 0 <= i < |calls| ==> more[i] == calls[i];
    assert more[|calls|] == c;
  }

  lemma {:induction false} AcceptedBy(calls: seq<Call>, key: Key, now: int)
    requires AllBy(calls, key, now)
    ensures forall i :: 0 <= i < |Accepted(calls, key)| ==> Accepted(calls, key)[i] <= now
    ensures LastCall(calls, key).Some? ==> LastCall(calls, key).value <= now
  {
    if calls != [] {
      AcceptedBy(calls[..|calls| - 1], key, now);
    }
  }

  /** A key's entry, when there is one, is its history cut at its last call. */
  ghost predicate EntryIs(table: map<Key, seq<int>>, history: seq<int>, last: Option<int>, key: Key) {
    match last
    case None => key !in table && history == []
    case Some(t) => key in table && table[key] == After(history, t - WINDOW)
  }

  ghost predicate EntryOk(calls: seq<Call>, key: Key) {
    EntryIs(Table(calls), Accepted(calls, key), LastCall(calls, key), key)
  }

  /** What `retain` leaves at a call is the accepted history inside its window. */
  lemma KeptIsHistory(table: map<Key, seq<int>>, history: seq<int>, last: Option<int>, c: Call)
    requires EntryIs(table, history, last, c.key) && (last.Some? ==> last.value <= c.now)
    ensures After(if c.key in table then table[c.key] else [], c.now - WINDOW) == After(history, c.now - WINDOW)
  {
    if last.Some? {
      AfterAfter(history, last.value - WINDOW, c.now - WINDOW);
    }
  }

  /**
   Refinement. The pruned list kept for a key is its whole accepted history cut at
   the last pruning; keys without an entry were never called.
   */
  lemma {:induction false} TableIsHistory(calls: seq<Call>, key: Key)
    requires Monotone(calls, key)
    ensures EntryOk(calls, key)
  {
    if calls != [] {
      var before, c := calls[..|calls| - 1], calls[|calls| - 1];
      assert calls == before + [c];
      MonotoneSnoc(before, c, key);
      TableIsHistory(before, key);
      EntryKept(before, c, key);
    }
  }

  lemma EntryKept(calls: seq<Call>, c: Call, key: Key)
    requires (c.key == key ==> AllBy(calls, key, c.now)) && EntryOk(calls, key)
    ensures EntryOk(calls + [c], key)
  {
    RunSnoc(calls, c, key);
    if c.key == key {
      AcceptedBy(calls, key, c.now);
      EntryWritten(Table(calls), Accepted(calls, key), LastCall(calls, key), c);
    }
  }

  /** A call leaves its key's entry cut at itself, with the call in it if let through. */
  lemma EntryWritten(table: map<Key, seq<int>>, history: seq<int>, last: Option<int>, c: Call)
    requires EntryIs(table, history, last, c.key) && (last.Some? ==> last.value <= c.now)
    ensures var (table', ok) := Check(table, c);
            EntryIs(table', if ok then history + [c.now] else history, Some(c.now), c.key)
  {
    KeptIsHistory(table, history, last, c);
    AfterSnoc(history, c.now, c.now - WINDOW);
  }

  /**
   A call is let through exactly when fewer than five calls for its key were let
   through in the sixty seconds that end with it.
   */
  lemma LetThroughExactly(calls: seq<Call>, c: Call)
    requires Monotone(calls + [c], c.key)
    ensures Answer(calls, c) <==> CountIn(Accepted(calls, c.key), c.now - WINDOW, c.now) < MAX_REQUESTS
  {
    MonotoneSnoc(calls, c, c.key);
    TableIsHistory(calls, c.key);
    AcceptedBy(calls, c.key, c.now);
    KeptIsHistory(Table(calls), Accepted(calls, c.key), LastCall(calls, c.key), c);
    AfterCounts(Accepted(calls, c.key), c.now - WINDOW, c.now);
  }

  /** In every run, whatever the window, at most five calls of a key were let through
      in it. */
  lemma {:induction false} AtMostFive(calls: seq<Call>, key: Key, t: int)
    requires Monotone(calls, key)
    ensures CountIn(Accepted(calls, key), t - WINDOW, t) <= MAX_REQUESTS
  {
    if calls != [] {
      var before, c := calls[..|calls| - 1], calls[|calls| - 1];
      assert calls == before + [c];
      MonotoneSnoc(before, c, key);
      AtMostFive(before, key, t);
      RunSnoc(before, c, key);
      if c.key == key && Answer(before, c) {
        OneMoreFits(before, c, t);
      }
    }
  }

  lemma OneMoreFits(calls: seq<Call>, c: Call, t: int)
    requires Monotone(calls + [c], c.key) && Answer(calls, c)
    requires CountIn(Accepted(calls, c.key), t - WINDOW, t) <= MAX_REQUESTS
    ensures CountIn(Accepted(calls, c.key) + [c.now], t - WINDOW, t) <= MAX_REQUESTS
  {
    var h := Accepted(calls, c.key);
    MonotoneSnoc(calls, c, c.key);
    LetThroughExactly(calls, c);
    AcceptedBy(calls, c.key, c.now);
    CountSnoc(h, c.now, t - WINDOW, t);
    if c.now <= t {
      CountWider(h, t - WINDOW, t, c.now - WINDOW, c.now);
    }
  }

  /** A refusal means exactly five calls of the key were let through in its window. */
  lemma RefusedAtFive(calls: seq<Call>, c: Call)
    requires Monotone(calls + [c], c.key)
    ensures !Answer(calls, c) <==> CountIn(Accepted(calls, c.key), c.now - WINDOW, c.now) == MAX_REQUESTS
  {
    LetThroughExactly(calls, c);
    AtMostFiveBefore(calls, c);
  }

  lemma AtMostFiveBefore(calls: seq<Call>, c: Call)
    requires Monotone(calls + [c], c.key)
    ensures CountIn(Accepted(calls, c.key), c.now - WINDOW, c.now) <= MAX_REQUESTS
  {
    MonotoneSnoc(calls, c, c.key);
    AtMostFive(calls, c.key, c.now);
  }
}
