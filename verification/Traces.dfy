/**
 What happened in the first `i` steps of a run: `rs` are its states and `steps` the
 steps between them.
 */
module Traces {

  ghost predicate IsTrace<S, T>(rs: seq<S>, steps: seq<T>, i: nat) {
    i <= |steps| && |rs| == |steps| + 1
  }

  /** Some step was one of `p`. */
  ghost predicate Ever<S, T>(rs: seq<S>, steps: seq<T>, i: nat, p: (S, T) -> bool)
    requires IsTrace(rs, steps, i)
  {
    exists j :: 0 <= j < i && p(rs[j], steps[j])
  }

  /** Step `j` was one of `p`, and none after it was one of `q`. */
  ghost predicate LastAt<S, T>(rs: seq<S>, steps: seq<T>, i: nat, p: (S, T) -> bool, q: (S, T) -> bool, j: nat)
    requires IsTrace(rs, steps, i)
  {
    j < i && p(rs[j], steps[j]) && forall l :: j < l < i ==> !q(rs[l], steps[l])
  }

  ghost predicate Since<S, T>(rs: seq<S>, steps: seq<T>, i: nat, p: (S, T) -> bool, q: (S, T) -> bool)
    requires IsTrace(rs, steps, i)
  {
    exists j :: LastAt(rs, steps, i, p, q, j)
  }

  /** What the steps gave, in their order. */
  ghost function Gather<S, T, U>(rs: seq<S>, steps: seq<T>, i: nat, f: (S, T) -> seq<U>): seq<U>
    requires IsTrace(rs, steps, i)
  {
    if i == 0 then [] else Gather(rs, steps, i - 1, f) + f(rs[i - 1], steps[i - 1])
  }

  lemma EverNext<S, T>(rs: seq<S>, steps: seq<T>, i: nat, p: (S, T) -> bool)
    requires IsTrace(rs, steps, i + 1)
    ensures Ever(rs, steps, i + 1, p) <==> Ever(rs, steps, i, p) || p(rs[i], steps[i])
  {
    if Ever(rs, steps, i, p) {
      var j :| 0 <= j < i && p(rs[j], steps[j]);
      assert 0 <= j < i + 1;
    }
  }

  lemma SinceNext<S, T>(rs: seq<S>, steps: seq<T>, i: nat, p: (S, T) -> bool, q: (S, T) -> bool)
    requires IsTrace(rs, steps, i + 1)
    ensures Since(rs, steps, i + 1, p, q)
       <==> p(rs[i], steps[i]) || (Since(rs, steps, i, p, q) && !q(rs[i], steps[i]))
  {
    if p(rs[i], steps[i]) {
      assert LastAt(rs, steps, i + 1, p, q, i);
    }
    if Since(rs, steps, i, p, q) && !q(rs[i], steps[i]) {
      var j :| LastAt(rs, steps, i, p, q, j);
      assert LastAt(rs, steps, i + 1, p, q, j);
    }
    if Since(rs, steps, i + 1, p, q) && !p(rs[i], steps[i]) {
      var j :| LastAt(rs, steps, i + 1, p, q, j);
      assert LastAt(rs, steps, i, p, q, j);
    }
  }

  /** What starts false, and what every step sets when it is one of `p` and keeps
      otherwise, holds exactly when some step was one of `p`. */
  lemma {:induction false} EverBuilds<S, T>(rs: seq<S>, steps: seq<T>, i: nat, holds: S -> bool, p: (S, T) -> bool)
    requires IsTrace(rs, steps, i) && !holds(rs[0])
    requires forall j :: 0 <= j < i ==> (holds(rs[j + 1]) <==> holds(rs[j]) || p(rs[j], steps[j]))
    ensures holds(rs[i]) <==> Ever(rs, steps, i, p)
  {
    if i > 0 {
      EverBuilds(rs, steps, i - 1, holds, p);
      EverNext(rs, steps, i - 1, p);
    }
  }

  lemma {:induction false} SinceBuilds<S, T>(rs: seq<S>, steps: seq<T>, i: nat, holds: S -> bool,
                                             p: (S, T) -> bool, q: (S, T) -> bool)
    requires IsTrace(rs, steps, i) && !holds(rs[0])
    requires forall j :: 0 <= j < i ==>
               (holds(rs[j + 1]) <==> p(rs[j], steps[j]) || (holds(rs[j]) && !q(rs[j], steps[j])))
    ensures holds(rs[i]) <==> Since(rs, steps, i, p, q)
  {
    if i > 0 {
      SinceBuilds(rs, steps, i - 1, holds, p, q);
      SinceNext(rs, steps, i - 1, p, q);
    }
  }

  lemma {:induction false} GatherBuilds<S, T, U>(rs: seq<S>, steps: seq<T>, i: nat, value: S -> seq<U>,
                                                 f: (S, T) -> seq<U>)
    requires IsTrace(rs, steps, i) && value(rs[0]) == []
    requires forall j :: 0 <= j < i ==> value(rs[j + 1]) == value(rs[j]) + f(rs[j], steps[j])
    ensures value(rs[i]) == Gather(rs, steps, i, f)
  {
    if i > 0 {
      GatherBuilds(rs, steps, i - 1, value, f);
    }
  }
}
