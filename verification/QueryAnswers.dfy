/**
 What a query with an ORDER BY may answer: the rows sorted by time, rows of one time in
 any order.
 */
module QueryAnswers {

  function Map<T, U>(rows: seq<T>, f: T -> U): (r: seq<U>)
    ensures |r| == |rows|
    ensures forall i :: 0 <= i < |rows| ==> r[i] == f(rows[i])
  {
    if rows == [] then [] else Map(rows[..|rows| - 1], f) + [f(rows[|rows| - 1])]
  }

  /** The rows that satisfy `p`, in their order. */
  function Only<T>(rows: seq<T>, p: T -> bool): seq<T> {
    if rows == [] then []
    else Only(rows[..|rows| - 1], p) + if p(rows[|rows| - 1]) then [rows[|rows| - 1]] else []
  }

  ghost predicate SortedBy<T>(rows: seq<T>, time: T -> int) {
    forall i, j :: 0 <= i < j < |rows| ==> time(rows[i]) <= time(rows[j])
  }

  ghost predicate Strictly<T>(rows: seq<T>, time: T -> int) {
    forall i, j :: 0 <= i < j < |rows| ==> time(rows[i]) < time(rows[j])
  }

  ghost predicate TimesDiffer<T>(rows: seq<T>, time: T -> int) {
    forall i, j :: 0 <= i < j < |rows| ==> time(rows[i]) != time(rows[j])
  }

  ghost predicate Answer<T>(rows: seq<T>, answer: seq<T>, time: T -> int) {
    multiset(answer) == multiset(rows) && SortedBy(answer, time)
  }

  // ── What every answer has in common ─────────────────────────────────────────

  lemma SameRows<T>(a: seq<T>, b: seq<T>, x: T)
    requires multiset(a) == multiset(b)
    ensures x in a <==> x in b
    ensures |a| == |b|
  {
    assert x in a <==> x in multiset(a);
    assert |multiset(a)| == |a| && |multiset(b)| == |b|;
  }

  /** Rows earlier than the `k`-th of sorted rows are among the first `k`. */
  lemma EarlierFirst<T>(rows: seq<T>, answer: seq<T>, time: T -> int, k: nat, n: nat)
    requires SortedBy(rows, time) && multiset(answer) == multiset(rows) && k < |rows| && n <= |answer|
    requires forall i :: 0 <= i < n ==> time(answer[i]) < time(rows[k])
    ensures multiset(answer[..n]) <= multiset(rows[..k])
  {
    var first, below := multiset(answer[..n]), multiset(rows[..k]);
    assert answer == answer[..n] + answer[n..] && rows == rows[..k] + rows[k..];
    forall x | x in first
      ensures first[x] <= below[x]
    {
      assert x in answer[..n];
      var i :| 0 <= i < n && answer[i] == x;
      assert x !in rows[k..];
      assert multiset(rows)[x] == below[x] + multiset(rows[k..])[x];
      assert multiset(rows[k..])[x] == 0;
    }
  }

  /** No answer has an earlier row in a place than sorted rows have. */
  lemma TimeNotBelow<T>(rows: seq<T>, answer: seq<T>, time: T -> int, k: nat)
    requires SortedBy(rows, time) && Answer(rows, answer, time) && k < |rows| == |answer|
    ensures time(rows[k]) <= time(answer[k])
  {
    if time(answer[k]) < time(rows[k]) {
      EarlierFirst(rows, answer, time, k, k + 1);
      Smaller(multiset(answer[..k + 1]), multiset(rows[..k]));
    }
  }

  lemma Smaller<T>(a: multiset<T>, b: multiset<T>)
    requires a <= b
    ensures |a| <= |b|
  {
    assert b == a + (b - a);
  }

  /** Place by place, every answer has the times of the sorted rows. */
  lemma SameTimes<T>(rows: seq<T>, answer: seq<T>, time: T -> int)
    requires SortedBy(rows, time) && Answer(rows, answer, time)
    ensures |answer| == |rows|
    ensures forall k :: 0 <= k < |rows| ==> time(answer[k]) == time(rows[k])
  {
    assert |multiset(rows)| == |rows| && |multiset(answer)| == |answer|;
    forall k | 0 <= k < |rows|
      ensures time(answer[k]) == time(rows[k])
    {
      TimeNotBelow(rows, answer, time, k);
      TimeNotBelow(answer, rows, time, k);
    }
  }

  /** The row an answer puts in a place is one of the sorted rows of that place's time. */
  lemma AnswerAt<T>(rows: seq<T>, answer: seq<T>, time: T -> int, k: nat) returns (i: nat)
    requires SortedBy(rows, time) && Answer(rows, answer, time) && k < |answer|
    ensures |answer| == |rows| && i < |rows| && answer[k] == rows[i] && time(rows[i]) == time(rows[k])
  {
    SameTimes(rows, answer, time);
    SameRows(rows, answer, answer[k]);
    i :| 0 <= i < |rows| && rows[i] == answer[k];
  }

  /** With distinct increasing times there is only one answer, the table's own order. */
  lemma OnlyAnswer<T>(rows: seq<T>, answer: seq<T>, time: T -> int)
    requires Strictly(rows, time) && Answer(rows, answer, time)
    ensures answer == rows
  {
    SameTimes(rows, answer, time);
    forall k | 0 <= k < |rows|
      ensures answer[k] == rows[k]
    {
      var i := AnswerAt(rows, answer, time, k);
    }
  }

  ghost predicate TiesAgree<T, U>(rows: seq<T>, time: T -> int, f: T -> U) {
    forall i, j :: 0 <= i < j < |rows| && time(rows[i]) == time(rows[j]) ==> f(rows[i]) == f(rows[j])
  }

  /** What tied rows agree on, all answers agree on. */
  lemma AgreedInOrder<T, U>(rows: seq<T>, answer: seq<T>, time: T -> int, f: T -> U)
    requires SortedBy(rows, time) && Answer(rows, answer, time) && TiesAgree(rows, time, f)
    ensures Map(answer, f) == Map(rows, f)
  {
    SameTimes(rows, answer, time);
    forall k | 0 <= k < |rows|
      ensures f(answer[k]) == f(rows[k])
    {
      var i := AnswerAt(rows, answer, time, k);
    }
  }

  // ── Part of an answer ───────────────────────────────────────────────────────

  lemma {:induction false} OnlyCount<T>(rows: seq<T>, p: T -> bool, x: T)
    ensures multiset(Only(rows, p))[x] == if p(x) then multiset(rows)[x] else 0
  {
    if rows != [] {
      var init, last := rows[..|rows| - 1], rows[|rows| - 1];
      assert rows == init + [last];
      OnlyCount(init, p, x);
    }
  }

  lemma {:induction false} OnlyFrom<T>(rows: seq<T>, p: T -> bool, i: nat)
    requires i < |Only(rows, p)|
    ensures Only(rows, p)[i] in rows && p(Only(rows, p)[i])
  {
    if i < |Only(rows[..|rows| - 1], p)| {
      OnlyFrom(rows[..|rows| - 1], p, i);
    }
  }

  lemma {:induction false} OnlySorted<T>(rows: seq<T>, p: T -> bool, time: T -> int)
    requires SortedBy(rows, time)
    ensures SortedBy(Only(rows, p), time)
  {
    if rows != [] {
      var init := rows[..|rows| - 1];
      OnlySorted(init, p, time);
      forall i | 0 <= i < |Only(init, p)|
        ensures time(Only(init, p)[i]) <= time(rows[|rows| - 1])
      {
        OnlyFrom(init, p, i);
      }
    }
  }

  lemma {:induction false} OnlyStrictly<T>(rows: seq<T>, p: T -> bool, time: T -> int)
    requires Strictly(rows, time)
    ensures Strictly(Only(rows, p), time)
  {
    if rows != [] {
      var init := rows[..|rows| - 1];
      OnlyStrictly(init, p, time);
      forall i | 0 <= i < |Only(init, p)|
        ensures time(Only(init, p)[i]) < time(rows[|rows| - 1])
      {
        OnlyFrom(init, p, i);
      }
    }
  }

  lemma OnlySame<T>(rows: seq<T>, answer: seq<T>, p: T -> bool)
    requires multiset(answer) == multiset(rows)
    ensures multiset(Only(answer, p)) == multiset(Only(rows, p))
  {
    var a, b := multiset(Only(answer, p)), multiset(Only(rows, p));
    forall x | x in a
      ensures a[x] <= b[x]
    {
      OnlyCount(rows, p, x);
      OnlyCount(answer, p, x);
    }
    forall x | x in b
      ensures b[x] <= a[x]
    {
      OnlyCount(rows, p, x);
      OnlyCount(answer, p, x);
    }
    assert a <= b <= a;
  }

  lemma OnlyAnswers<T>(rows: seq<T>, answer: seq<T>, time: T -> int, p: T -> bool)
    requires Answer(rows, answer, time)
    ensures Answer(Only(rows, p), Only(answer, p), time)
  {
    OnlySame(rows, answer, p);
    OnlySorted(answer, p, time);
  }

  /** A part of a part. */
  lemma {:induction false} OnlyTwice<T>(rows: seq<T>, p: T -> bool, q: T -> bool)
    requires forall x :: p(x) ==> q(x)
    ensures Only(Only(rows, q), p) == Only(rows, p)
  {
    if rows != [] {
      var init, last := rows[..|rows| - 1], rows[|rows| - 1];
      OnlyTwice(init, p, q);
      OnlyConcat(Only(init, q), [last], p);
      assert Only([last], p) == if p(last) then [last] else [];
      assert Only(rows, q) == if q(last) then Only(init, q) + [last] else Only(init, q);
    }
  }

  lemma {:induction false} OnlyConcat<T>(a: seq<T>, b: seq<T>, p: T -> bool)
    ensures Only(a + b, p) == Only(a, p) + Only(b, p)
  {
    if b == [] {
      assert a + b == a;
    } else {
      var init, last := b[..|b| - 1], b[|b| - 1];
      assert (a + b)[..|a + b| - 1] == a + init;
      OnlyConcat(a, init, p);
    }
  }

  // ── Tied rows may be exchanged ──────────────────────────────────────────────

  function Swapped<T>(rows: seq<T>, i: nat, j: nat): seq<T>
    requires i < j < |rows|
  {
    rows[i := rows[j]][j := rows[i]]
  }

  lemma SwapAnswers<T>(rows: seq<T>, time: T -> int, i: nat, j: nat)
    requires SortedBy(rows, time) && i < j < |rows| && time(rows[i]) == time(rows[j])
    ensures Answer(rows, Swapped(rows, i, j), time)
  {
    var swapped := Swapped(rows, i, j);
    assert forall k :: 0 <= k < |rows| ==> time(swapped[k]) == time(rows[k]);
    assert multiset(rows[i := rows[j]]) == multiset(rows) - multiset{rows[i]} + multiset{rows[j]};
  }

  lemma {:induction false} OnlyIndex<T>(rows: seq<T>, p: T -> bool, i: nat) returns (k: nat)
    requires i < |Only(rows, p)|
    ensures k < |rows| && rows[k] == Only(rows, p)[i] && Only(rows[..k], p) == Only(rows, p)[..i]
  {
    var init := rows[..|rows| - 1];
    if i < |Only(init, p)| {
      k := OnlyIndex(init, p, i);
      assert init[..k] == rows[..k];
    } else {
      k := |rows| - 1;
    }
  }

  /** Replacing a row replaces it in the part. */
  lemma {:induction false} OnlyUpdate<T>(rows: seq<T>, p: T -> bool, k: nat, x: T)
    requires k < |rows| && p(rows[k]) && p(x)
    ensures |Only(rows[..k], p)| < |Only(rows, p)|
    ensures Only(rows[k := x], p) == Only(rows, p)[|Only(rows[..k], p)| := x]
  {
    var init := rows[..|rows| - 1];
    if k < |init| {
      OnlyUpdate(init, p, k, x);
      assert init[..k] == rows[..k] && rows[k := x][..|init|] == init[k := x];
    } else {
      assert rows[k := x][..|init|] == init;
    }
  }

  lemma OnlyGrows<T>(rows: seq<T>, p: T -> bool, k: nat, l: nat)
    requires k <= l <= |rows|
    ensures |Only(rows[..k], p)| <= |Only(rows[..l], p)|
  {
    assert rows[..l] == rows[..k] + rows[k..l];
    OnlyConcat(rows[..k], rows[k..l], p);
  }

  lemma OnlySwapped<T>(rows: seq<T>, p: T -> bool, k: nat, l: nat, i: nat, j: nat)
    requires k < l < |rows| && p(rows[k]) && p(rows[l]) && i < j < |Only(rows, p)|
    requires |Only(rows[..k], p)| == i && |Only(rows[..l], p)| == j
    requires Only(rows, p)[i] == rows[k] && Only(rows, p)[j] == rows[l]
    ensures Only(Swapped(rows, k, l), p) == Swapped(Only(rows, p), i, j)
  {
    var once := rows[k := rows[l]];
    OnlyUpdate(rows, p, k, rows[l]);
    assert once[..l] == rows[..l][k := rows[l]] && rows[..l][..k] == rows[..k];
    OnlyUpdate(rows[..l], p, k, rows[l]);
    OnlyUpdate(once, p, l, rows[k]);
  }

  /** Two tied rows of a part can be exchanged by an answer to the whole. */
  lemma SwapPart<T>(rows: seq<T>, p: T -> bool, time: T -> int, i: nat, j: nat) returns (answer: seq<T>)
    requires SortedBy(rows, time) && i < j < |Only(rows, p)|
    requires time(Only(rows, p)[i]) == time(Only(rows, p)[j])
    ensures Answer(rows, answer, time) && Only(answer, p) == Swapped(Only(rows, p), i, j)
  {
    var k := OnlyIndex(rows, p, i);
    var l := OnlyIndex(rows, p, j);
    if l <= k {
      OnlyGrows(rows, p, l, k);
      assert false;
    }
    OnlyFrom(rows, p, i);
    OnlyFrom(rows, p, j);
    answer := Swapped(rows, k, l);
    SwapAnswers(rows, time, k, l);
    OnlySwapped(rows, p, k, l, i, j);
  }

  // ── A reference answer ──────────────────────────────────────────────────────

  function OrderBy<T>(rows: seq<T>, time: T -> int): (r: seq<T>) {
    if rows == [] then [] else Place(OrderBy(rows[..|rows| - 1], time), rows[|rows| - 1], time)
  }

  function Place<T>(rows: seq<T>, x: T, time: T -> int): seq<T> {
    if rows == [] || time(rows[|rows| - 1]) <= time(x) then rows + [x]
    else Place(rows[..|rows| - 1], x, time) + [rows[|rows| - 1]]
  }

  lemma {:induction false} PlaceMembers<T>(rows: seq<T>, x: T, time: T -> int)
    ensures multiset(Place(rows, x, time)) == multiset(rows + [x])
  {
    if rows != [] && time(rows[|rows| - 1]) > time(x) {
      var init, last := rows[..|rows| - 1], rows[|rows| - 1];
      PlaceMembers(init, x, time);
      assert rows == init + [last];
    }
  }

  lemma {:induction false} PlaceSorted<T>(rows: seq<T>, x: T, time: T -> int)
    requires SortedBy(rows, time)
    ensures SortedBy(Place(rows, x, time), time)
  {
    if rows != [] && time(rows[|rows| - 1]) > time(x) {
      var init, last := rows[..|rows| - 1], rows[|rows| - 1];
      PlaceSorted(init, x, time);
      PlaceMembers(init, x, time);
      forall i | 0 <= i < |Place(init, x, time)|
        ensures time(Place(init, x, time)[i]) <= time(last)
      {
        SameRows(Place(init, x, time), init + [x], Place(init, x, time)[i]);
      }
    }
  }

  lemma {:induction false} OrderByAnswers<T>(rows: seq<T>, time: T -> int)
    ensures Answer(rows, OrderBy(rows, time), time)
  {
    if rows != [] {
      var init, last := rows[..|rows| - 1], rows[|rows| - 1];
      OrderByAnswers(init, time);
      PlaceSorted(OrderBy(init, time), last, time);
      PlaceMembers(OrderBy(init, time), last, time);
      assert rows == init + [last];
    }
  }

  /** Rows already in order stay as they are. */
  lemma {:induction false} OrderKeepsSorted<T>(rows: seq<T>, time: T -> int)
    requires SortedBy(rows, time)
    ensures OrderBy(rows, time) == rows
  {
    if rows != [] {
      var init, last := rows[..|rows| - 1], rows[|rows| - 1];
      OrderKeepsSorted(init, time);
      assert rows == init + [last];
    }
  }

  lemma MapSnoc<T, U>(rows: seq<T>, x: T, f: T -> U)
    ensures Map(rows + [x], f) == Map(rows, f) + [f(x)]
  {
    assert (rows + [x])[..|rows|] == rows;
  }

  lemma {:induction false} PlaceMaps<T, U>(rows: seq<T>, x: T, time: T -> int, f: T -> U, time': U -> int)
    requires forall y :: time'(f(y)) == time(y)
    ensures Place(Map(rows, f), f(x), time') == Map(Place(rows, x, time), f)
  {
    var init := if rows == [] then [] else rows[..|rows| - 1];
    MapSnoc(rows, x, f);
    if rows != [] && time(rows[|rows| - 1]) > time(x) {
      PlaceMaps(init, x, time, f, time');
      MapSnoc(Place(init, x, time), rows[|rows| - 1], f);
      assert Map(rows, f)[..|rows| - 1] == Map(init, f);
    }
  }

  /** Sorting does not care whether the rows are mapped before or after. */
  lemma {:induction false} OrderMaps<T, U>(rows: seq<T>, time: T -> int, f: T -> U, time': U -> int)
    requires forall y :: time'(f(y)) == time(y)
    ensures OrderBy(Map(rows, f), time') == Map(OrderBy(rows, time), f)
  {
    if rows != [] {
      var init, last := rows[..|rows| - 1], rows[|rows| - 1];
      OrderMaps(init, time, f, time');
      PlaceMaps(OrderBy(init, time), last, time, f, time');
      assert Map(rows, f)[..|rows| - 1] == Map(init, f);
    }
  }

  // ── When there is only one answer ───────────────────────────────────────────

  lemma TimesStayApart<T>(rows: seq<T>, answer: seq<T>, time: T -> int)
    requires TimesDiffer(rows, time) && Answer(rows, answer, time)
    ensures Strictly(answer, time)
  {
    forall i, j | 0 <= i < j < |answer|
      ensures time(answer[i]) < time(answer[j])
    {
      SameRows(rows, answer, answer[i]);
      SameRows(rows, answer, answer[j]);
      if time(answer[i]) == time(answer[j]) {
        var a :| 0 <= a < |rows| && rows[a] == answer[i];
        var b :| 0 <= b < |rows| && rows[b] == answer[j];
        assert a == b;
        Twice(answer, i, j);
        OnceApart(rows, time, a);
      }
    }
  }

  lemma Twice<T>(rows: seq<T>, i: nat, j: nat)
    requires i < j < |rows| && rows[i] == rows[j]
    ensures multiset(rows)[rows[i]] >= 2
  {
    assert rows == rows[..j] + [rows[j]] + rows[j + 1..];
    assert rows[i] in rows[..j];
  }

  lemma OnceApart<T>(rows: seq<T>, time: T -> int, a: nat)
    requires TimesDiffer(rows, time) && a < |rows|
    ensures multiset(rows)[rows[a]] == 1
  {
    assert rows == rows[..a] + [rows[a]] + rows[a + 1..];
    assert rows[a] !in rows[..a] && rows[a] !in rows[a + 1..];
  }
}
