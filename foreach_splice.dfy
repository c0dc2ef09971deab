/**
 * The removal idiom the games share: `arr.forEach((x, i) => { ...; if (dead) arr.splice(i, 1); })`.
 * `forEach` fixes its bound at the length the array had when it started, visits the indices in
 * increasing order and passes over an index that no longer exists. After `splice(i, 1)` the element
 * behind the removed one moves into slot i, which has already been visited, so it is passed over
 * for the rest of the pass.
 */
module ForEachSplice {

  /** The state of one pass: the array as it now is, the updated values of the visited elements
      in visiting order, and how many of them were removed. */
  datatype Pass<T> = Pass(live: seq<T>, visited: seq<T>, removed: nat)

  /** `s.splice(i, 1)`: removes slot i when it exists and leaves the array alone otherwise. */
  function Splice<T>(s: seq<T>, i: nat): (r: seq<T>)
    ensures i < |s| ==> |r| == |s| - 1
    ensures i < |s| ==> forall k :: 0 <= k < i ==> r[k] == s[k]
    ensures i < |s| ==> forall k :: i <= k < |r| ==> r[k] == s[k + 1]
    ensures i >= |s| ==> r == s
  {
    if i < |s| then s[..i] + s[i + 1..] else s
  }

  /** Number of elements of s that `dead` holds of. */
  function CountDead<T>(s: seq<T>, dead: T -> bool): (c: nat)
    ensures c <= |s|
  {
    if s == [] then 0 else (if dead(s[0]) then 1 else 0) + CountDead(s[1..], dead)
  }

  /** One call of the callback on index i: update the element in place, splice it out when dead. */
  function VisitAt<T>(p: Pass<T>, i: nat, step: T -> T, dead: T -> bool): Pass<T>
  {
    if i < |p.live| then
      var x := step(p.live[i]);
      if dead(x) then Pass(Splice(p.live, i), p.visited + [x], p.removed + 1)
      else Pass(p.live[i := x], p.visited + [x], p.removed)
    else p
  }

  /** Indices i, i+1, ..., n-1 of the pass, in order. */
  function LoopFrom<T>(p: Pass<T>, i: nat, n: nat, step: T -> T, dead: T -> bool): Pass<T>
    decreases n - i
  {
    if i < n then LoopFrom(VisitAt(p, i, step, dead), i + 1, n, step, dead) else p
  }

  /** The whole pass as the script runs it: bound fixed at |s|. */
  function ForEach<T>(s: seq<T>, step: T -> T, dead: T -> bool): Pass<T>
  {
    LoopFrom(Pass(s, [], 0), 0, |s|, step, dead)
  }

  /** The array alone, as the loop in the script sees it: one callback on index i. */
  function Visit<T>(live: seq<T>, i: nat, step: T -> T, dead: T -> bool): seq<T>
  {
    if i < |live| then
      var x := step(live[i]);
      if dead(x) then Splice(live, i) else live[i := x]
    else live
  }

  /** The array alone after indices i, ..., n-1. */
  function SweepFrom<T>(live: seq<T>, i: nat, n: nat, step: T -> T, dead: T -> bool): seq<T>
    decreases n - i
  {
    if i < n then SweepFrom(Visit(live, i, step, dead), i + 1, n, step, dead) else live
  }

  /** The array a pass leaves behind does not depend on the bookkeeping of visits. */
  lemma {:induction false} SweepIsLive<T>(p: Pass<T>, i: nat, n: nat, step: T -> T, dead: T -> bool)
    ensures LoopFrom(p, i, n, step, dead).live == SweepFrom(p.live, i, n, step, dead)
    decreases n - i
  {
    if i < n {
      assert VisitAt(p, i, step, dead).live == Visit(p.live, i, step, dead);
      SweepIsLive(VisitAt(p, i, step, dead), i + 1, n, step, dead);
    }
  }

  /** Independent reading of the same pass: the head is updated; if it dies, the element behind it
      is kept untouched and unvisited, and the pass goes on after it. */
  function SkipSweep<T>(s: seq<T>, step: T -> T, dead: T -> bool): Pass<T>
    decreases |s|
  {
    if s == [] then Pass([], [], 0)
    else
      var x := step(s[0]);
      if dead(x) then
        if |s| == 1 then Pass([], [x], 1)
        else
          var r := SkipSweep(s[2..], step, dead);
          Pass([s[1]] + r.live, [x] + r.visited, r.removed + 1)
      else
        var r := SkipSweep(s[1..], step, dead);
        Pass([x] + r.live, [x] + r.visited, r.removed)
  }

  /** Visiting indices past the end of the array changes nothing. */
  lemma {:induction false} LoopPastEnd<T>(p: Pass<T>, i: nat, n: nat, step: T -> T, dead: T -> bool)
    requires i >= |p.live|
    ensures LoopFrom(p, i, n, step, dead) == p
    decreases n - i
  {
    if i < n {
      LoopPastEnd(p, i + 1, n, step, dead);
    }
  }

  /** Visiting the first unprocessed slot behind a processed prefix. */
  lemma VisitHead<T>(pre: seq<T>, s: seq<T>, vis: seq<T>, rem: nat, step: T -> T, dead: T -> bool)
    requires s != []
    ensures var x := step(s[0]);
      VisitAt(Pass(pre + s, vis, rem), |pre|, step, dead)
        == if dead(x) then Pass(pre + s[1..], vis + [x], rem + 1)
           else Pass((pre + [x]) + s[1..], vis + [x], rem)
  {
    var x := step(s[0]);
    assert (pre + s)[|pre|] == s[0];
    if dead(x) {
      assert Splice(pre + s, |pre|) == pre + s[1..];
    } else {
      assert (pre + s)[|pre| := x] == (pre + [x]) + s[1..];
    }
  }

  /** The index loop, started at the first not-yet-visited element `s` behind an already processed
      prefix, does what the skip reading says to `s`. */
  lemma {:induction false} LoopIsSweep<T>(pre: seq<T>, s: seq<T>, vis: seq<T>, rem: nat, n: nat,
                                         step: T -> T, dead: T -> bool)
    requires n >= |pre| + |s|
    ensures var r := SkipSweep(s, step, dead);
      LoopFrom(Pass(pre + s, vis, rem), |pre|, n, step, dead) == Pass(pre + r.live, vis + r.visited, rem + r.removed)
    decreases |s|
  {
    if s == [] {
      assert pre + s == pre;
      LoopPastEnd(Pass(pre + s, vis, rem), |pre|, n, step, dead);
    } else {
      var x := step(s[0]);
      VisitHead(pre, s, vis, rem, step, dead);
      if dead(x) {
        if |s| == 1 {
          assert pre + s[1..] == pre;
          LoopPastEnd(Pass(pre, vis + [x], rem + 1), |pre| + 1, n, step, dead);
        } else {
          DeadHead(pre, s, vis, rem, n, step, dead);
        }
      } else {
        LiveHead(pre, s, vis, rem, n, step, dead);
      }
    }
  }

  /** The case of LoopIsSweep where the head survives. */
  lemma {:induction false} LiveHead<T>(pre: seq<T>, s: seq<T>, vis: seq<T>, rem: nat, n: nat,
                                      step: T -> T, dead: T -> bool)
    requires n >= |pre| + |s| && |s| >= 1 && !dead(step(s[0]))
    requires VisitAt(Pass(pre + s, vis, rem), |pre|, step, dead)
             == Pass((pre + [step(s[0])]) + s[1..], vis + [step(s[0])], rem)
    ensures var r := SkipSweep(s, step, dead);
      LoopFrom(Pass(pre + s, vis, rem), |pre|, n, step, dead) == Pass(pre + r.live, vis + r.visited, rem + r.removed)
    decreases |s|, 0
  {
    var x := step(s[0]);
    LoopIsSweep(pre + [x], s[1..], vis + [x], rem, n, step, dead);
    var r := SkipSweep(s[1..], step, dead);
    assert (pre + [x]) + r.live == pre + ([x] + r.live);
    assert vis + [x] + r.visited == vis + ([x] + r.visited);
  }

  /** The case of LoopIsSweep where the head dies and has a successor. */
  lemma {:induction false} DeadHead<T>(pre: seq<T>, s: seq<T>, vis: seq<T>, rem: nat, n: nat,
                                      step: T -> T, dead: T -> bool)
    requires n >= |pre| + |s| && |s| >= 2 && dead(step(s[0]))
    requires VisitAt(Pass(pre + s, vis, rem), |pre|, step, dead) == Pass(pre + s[1..], vis + [step(s[0])], rem + 1)
    ensures var r := SkipSweep(s, step, dead);
      LoopFrom(Pass(pre + s, vis, rem), |pre|, n, step, dead) == Pass(pre + r.live, vis + r.visited, rem + r.removed)
    decreases |s|, 0
  {
    var x := step(s[0]);
    var pre' := pre + [s[1]];
    assert pre + s[1..] == pre' + s[2..];
    LoopIsSweep(pre', s[2..], vis + [x], rem + 1, n, step, dead);
    var r := SkipSweep(s[2..], step, dead);
    assert pre' + r.live == pre + ([s[1]] + r.live);
    assert vis + [x] + r.visited == vis + ([x] + r.visited);
  }

  /** The forEach pass is the skip reading. */
  lemma ForEachIsSkipSweep<T>(s: seq<T>, step: T -> T, dead: T -> bool)
    ensures ForEach(s, step, dead) == SkipSweep(s, step, dead)
  {
    LoopIsSweep([], s, [], 0, |s|, step, dead);
    var r := SkipSweep(s, step, dead);
    assert [] + s == s && [] + r.live == r.live && [] + r.visited == r.visited;
  }

  /** Bookkeeping of a pass: every element is kept or removed, every removed element was visited
      and found dead, and no more elements are visited than there were. */
  lemma {:induction false} SweepCounts<T>(s: seq<T>, step: T -> T, dead: T -> bool)
    ensures var r := SkipSweep(s, step, dead);
      |r.live| + r.removed == |s| && r.removed == CountDead(r.visited, dead) && |r.visited| <= |s|
    decreases |s|
  {
    if s != [] {
      var x := step(s[0]);
      if dead(x) {
        if |s| > 1 {
          SweepCounts(s[2..], step, dead);
          var r := SkipSweep(s[2..], step, dead);
          assert ([x] + r.visited)[1..] == r.visited;
        }
      } else {
        SweepCounts(s[1..], step, dead);
        var r := SkipSweep(s[1..], step, dead);
        assert ([x] + r.visited)[1..] == r.visited;
      }
    }
  }

  /** Kept elements are either updated survivors or original elements that were passed over. */
  lemma {:induction false} SweepKeeps<T>(s: seq<T>, step: T -> T, dead: T -> bool)
    ensures var r := SkipSweep(s, step, dead);
      forall y :: y in r.live ==> (y in r.visited && !dead(y)) || y in s
    decreases |s|
  {
    if s != [] {
      var x := step(s[0]);
      if dead(x) {
        if |s| > 1 {
          SweepKeeps(s[2..], step, dead);
          var r := SkipSweep(s[2..], step, dead);
          forall y | y in [s[1]] + r.live
            ensures (y in [x] + r.visited && !dead(y)) || y in s
          {
            if y != s[1] {
              assert y in r.live;
              if y in s[2..] {
                assert y in s;
              }
            }
          }
        }
      } else {
        SweepKeeps(s[1..], step, dead);
        var r := SkipSweep(s[1..], step, dead);
        forall y | y in [x] + r.live
          ensures (y in [x] + r.visited && !dead(y)) || y in s
        {
          if y != x {
            assert y in r.live;
            if y in s[1..] {
              assert y in s;
            }
          }
        }
      }
    }
  }

  /** The skip the script performs: when the first element dies, the one behind it takes
      its slot without being updated this pass. */
  lemma SpliceSkipsSuccessor<T>(s: seq<T>, step: T -> T, dead: T -> bool)
    requires |s| >= 2 && dead(step(s[0]))
    ensures var r := ForEach(s, step, dead); |r.live| >= 1 && r.live[0] == s[1] && r.removed >= 1
  {
    ForEachIsSkipSweep(s, step, dead);
  }

  /** When nothing dies, the pass is a plain map over the array. */
  lemma {:induction false} NoDeathIsMap<T>(s: seq<T>, step: T -> T, dead: T -> bool)
    requires forall k :: 0 <= k < |s| ==> !dead(step(s[k]))
    ensures var r := SkipSweep(s, step, dead);
      r.removed == 0 && |r.live| == |s| && forall k :: 0 <= k < |s| ==> r.live[k] == step(s[k])
    decreases |s|
  {
    if s != [] {
      assert !dead(step(s[0]));
      NoDeathIsMap(s[1..], step, dead);
    }
  }
}
