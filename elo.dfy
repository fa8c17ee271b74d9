/** The Elo-style rating arithmetic of the vote handler
    (app/api/match/vote/route.ts, lines 33-44 and 122-127).

    The handler computes `round(K * (1 - E))` with `E` the floating-point
    expected score of the winner. Everything after that rounding is integer
    arithmetic, so the model takes the rounded value as the output of a
    *delta curve*: any function from (winner score, loser score) to
    `[0, K]`, which is the range `round(K * (1 - E))` has for
    `0 <= E <= 1`. `TableDelta` is one such curve, an exact step-function
    reading of the formula for integer scores. */
module Elo {

  /** The sensitivity constant `K`. */
  const K: int := 32

  /** Score a photo or a per-tag stat starts from. */
  const DefaultScore: int := 1000

  /** What the handler requires of the rounded expected-score term. */
  ghost predicate IsDeltaCurve(curve: (int, int) -> int) {
    forall w, l :: 0 <= curve(w, l) <= K
  }

  /** `Math.max(delta, 1)`: the applied delta is never below one point. */
  function Clamp(raw: int): (d: int)
    ensures d >= 1 && d >= raw
    ensures d == raw || d == 1
    ensures raw <= K ==> d <= K
  {
    if raw < 1 then 1 else raw
  }

  /** The applied delta of a match between scores `w` (winner) and `l` (loser). */
  function AppliedDelta(curve: (int, int) -> int, w: int, l: int): (d: int)
    requires IsDeltaCurve(curve)
    ensures 1 <= d <= K
    ensures curve(w, l) >= 1 ==> d == curve(w, l)
    ensures curve(w, l) == 0 ==> d == 1
  {
    Clamp(curve(w, l))
  }

  /** New scores after the winner beats the loser: zero-sum, the winner gains. */
  function NewScores(curve: (int, int) -> int, w: int, l: int): (p: (int, int))
    requires IsDeltaCurve(curve)
    ensures p.0 - w == l - p.1 == AppliedDelta(curve, w, l)
    ensures w < p.0 <= w + K && l - K <= p.1 < l
  {
    var d := AppliedDelta(curve, w, l);
    (w + d, l - d)
  }

  /** The sum of the two scores is unchanged by a vote. */
  lemma ZeroSum(curve: (int, int) -> int, w: int, l: int)
    requires IsDeltaCurve(curve)
    ensures NewScores(curve, w, l).0 + NewScores(curve, w, l).1 == w + l
  {
    var p := NewScores(curve, w, l);
    assert p.0 - w == l - p.1;
  }

  // ---------------------------------------------------------------------
  // An integer reading of round(32 * (1 - 1 / (1 + 10^((l - w) / 400)))).

  /** For a gap `g = l - w`, the rounded term is the number of thresholds
      `t` with `t <= g`: entry `k` is the least integer gap at which
      `32 / (1 + 10^(-g / 400))` reaches `k + 1/2`. These are the entries
      below zero; as the two players' expected scores add up to one, the
      entries above zero mirror them. */
  const LowerThresholds: seq<int> := [
    -719, -523, -428, -364, -314, -273, -237, -205, -176, -149, -124,
    -100, -77, -54, -32, -10]

  const Thresholds: seq<int> := LowerThresholds + Mirror(LowerThresholds)

  /** How many entries of `ts` are at most `g`. */
  function CountAtMost(g: int, ts: seq<int>): (n: nat)
    ensures n <= |ts|
  {
    if ts == [] then 0 else (if ts[0] <= g then 1 else 0) + CountAtMost(g, ts[1..])
  }

  /** The rounded term for an integer winner score `w` and loser score `l`. */
  function TableDelta(w: int, l: int): (r: int)
    ensures 0 <= r <= K
  {
    CountAtMost(l - w, Thresholds)
  }

  ghost predicate Increasing(ts: seq<int>) {
    forall i :: 0 <= i < |ts| - 1 ==> ts[i] < ts[i + 1]
  }

  /** In an increasing list the count is the position of the first entry above `g`. */
  lemma {:induction false} CountSorted(g: int, ts: seq<int>, k: nat)
    requires Increasing(ts) && k <= |ts|
    requires k > 0 ==> ts[k - 1] <= g
    requires k < |ts| ==> g < ts[k]
    ensures CountAtMost(g, ts) == k
  {
    if ts != [] {
      if k == 0 {
        assert forall i :: 0 <= i < |ts| ==> g < ts[i] by {
          forall i | 0 <= i < |ts| ensures g < ts[i] { IncreasingFrom(ts, 0, i); }
        }
        CountSorted(g, ts[1..], 0);
      } else {
        IncreasingFrom(ts, 0, k - 1);
        CountSorted(g, ts[1..], k - 1);
      }
    }
  }

  lemma {:induction false} IncreasingFrom(ts: seq<int>, i: nat, j: nat)
    requires Increasing(ts) && i <= j < |ts|
    ensures ts[i] <= ts[j]
    decreases j - i
  {
    if i < j { IncreasingFrom(ts, i + 1, j); }
  }

  lemma IncreasingMirror(ts: seq<int>)
    requires Increasing(ts)
    ensures Increasing(Mirror(ts))
  {
    var m := Mirror(ts);
    forall i | 0 <= i < |m| - 1 ensures m[i] < m[i + 1] {
      assert ts[|ts| - 2 - i] < ts[|ts| - 1 - i];
    }
  }

  lemma IncreasingAppend(a: seq<int>, b: seq<int>)
    requires Increasing(a) && Increasing(b)
    requires a != [] && b != [] ==> a[|a| - 1] < b[0]
    ensures Increasing(a + b)
  {
    var s := a + b;
    forall i | 0 <= i < |s| - 1 ensures s[i] < s[i + 1] {
      if i + 1 < |a| {
        assert s[i] == a[i] && s[i + 1] == a[i + 1];
      } else if i + 1 == |a| {
        assert s[i] == a[|a| - 1] && s[i + 1] == b[0];
      } else {
        assert s[i] == b[i - |a|] && s[i + 1] == b[i + 1 - |a|];
      }
    }
  }

  lemma ThresholdsIncreasing()
    ensures Increasing(Thresholds)
  {
    assert Increasing(LowerThresholds);
    IncreasingMirror(LowerThresholds);
    assert Mirror(LowerThresholds)[0] == 11;
    IncreasingAppend(LowerThresholds, Mirror(LowerThresholds));
  }

  lemma MirrorAppend(a: seq<int>, b: seq<int>)
    ensures Mirror(a + b) == Mirror(b) + Mirror(a)
  {
    var l, r := Mirror(a + b), Mirror(b) + Mirror(a);
    forall i | 0 <= i < |l| ensures l[i] == r[i] {
      if i < |b| {
        assert (a + b)[|a + b| - 1 - i] == b[|b| - 1 - i];
      } else {
        assert (a + b)[|a + b| - 1 - i] == a[|a| - 1 - (i - |b|)];
      }
    }
  }

  lemma MirrorMirror(a: seq<int>)
    ensures Mirror(Mirror(a)) == a
  {
  }

  lemma ThresholdsMirrored()
    ensures Mirror(Thresholds) == Thresholds
  {
    MirrorAppend(LowerThresholds, Mirror(LowerThresholds));
    MirrorMirror(LowerThresholds);
  }

  lemma TableDeltaIsCurve()
    ensures IsDeltaCurve(TableDelta)
  {
  }

  lemma {:induction false} CountMonotone(g1: int, g2: int, ts: seq<int>)
    requires g1 <= g2
    ensures CountAtMost(g1, ts) <= CountAtMost(g2, ts)
  {
    if ts != [] { CountMonotone(g1, g2, ts[1..]); }
  }

  /** A larger gap in the loser's favour (an upset) earns the winner more. */
  lemma TableDeltaMonotone(w1: int, l1: int, w2: int, l2: int)
    requires l1 - w1 <= l2 - w2
    ensures TableDelta(w1, l1) <= TableDelta(w2, l2)
  {
    CountMonotone(l1 - w1, l2 - w2, Thresholds);
  }

  /** Entries of `ts` mirrored around one half: `t` becomes `1 - t`. */
  function Mirror(ts: seq<int>): (r: seq<int>)
    ensures |r| == |ts|
  {
    seq(|ts|, i requires 0 <= i < |ts| => 1 - ts[|ts| - 1 - i])
  }

  lemma {:induction false} CountAppend(g: int, a: seq<int>, b: seq<int>)
    ensures CountAtMost(g, a + b) == CountAtMost(g, a) + CountAtMost(g, b)
  {
    if a == [] {
      assert a + b == b;
    } else {
      assert (a + b)[0] == a[0];
      assert (a + b)[1..] == a[1..] + b;
      CountAppend(g, a[1..], b);
    }
  }

  /** Each entry of `ts` is either at most `g` or, mirrored, at most `-g`. */
  lemma {:induction false} CountMirror(g: int, ts: seq<int>)
    ensures CountAtMost(g, ts) + CountAtMost(-g, Mirror(ts)) == |ts|
  {
    if ts != [] {
      CountMirror(g, ts[1..]);
      assert Mirror(ts) == Mirror(ts[1..]) + [1 - ts[0]];
      CountAppend(-g, Mirror(ts[1..]), [1 - ts[0]]);
    }
  }

  /** The two players' terms always add up to `K`, as `E(w, l) + E(l, w) == 1`. */
  lemma TableDeltaSymmetric(w: int, l: int)
    ensures TableDelta(w, l) + TableDelta(l, w) == K
  {
    ThresholdsMirrored();
    CountMirror(l - w, Thresholds);
  }

  /** Equal scores give `K / 2`. */
  lemma TableDeltaEqualScores(s: int)
    ensures TableDelta(s, s) == K / 2
  {
    ThresholdsIncreasing();
    CountSorted(0, Thresholds, 16);
  }

  /** The closer the two scores, the closer the term is to `K / 2`. */
  lemma TableDeltaCloserToHalf(w1: int, l1: int, w2: int, l2: int)
    requires -(l2 - w2) <= l1 - w1 <= l2 - w2 || l2 - w2 <= l1 - w1 <= -(l2 - w2)
    ensures var d1, d2 := TableDelta(w1, l1) - K / 2, TableDelta(w2, l2) - K / 2;
            (if d1 < 0 then -d1 else d1) <= (if d2 < 0 then -d2 else d2)
  {
    TableDeltaSymmetric(w2, l2);
    if -(l2 - w2) <= l1 - w1 <= l2 - w2 {
      TableDeltaMonotone(w1, l1, w2, l2);
      TableDeltaMonotone(l2, w2, w1, l1);
    } else {
      TableDeltaMonotone(w2, l2, w1, l1);
      TableDeltaMonotone(w1, l1, l2, w2);
    }
  }

  /** What reaches the scores after the clamp: the closer the two scores,
      the closer the applied delta is to `K / 2`, give or take the one point
      the clamp adds to a raw 0. */
  lemma AppliedDeltaCloserToHalf(w1: int, l1: int, w2: int, l2: int)
    requires -(l2 - w2) <= l1 - w1 <= l2 - w2 || l2 - w2 <= l1 - w1 <= -(l2 - w2)
    ensures var d1, d2 := AppliedDelta(TableDelta, w1, l1) - K / 2, AppliedDelta(TableDelta, w2, l2) - K / 2;
            (if d1 < 0 then -d1 else d1) <= (if d2 < 0 then -d2 else d2) + 1
  {
    TableDeltaIsCurve();
    TableDeltaCloserToHalf(w1, l1, w2, l2);
  }

  /** The one point is needed: with a 1000-point gap an underdog winner
      takes the full 32 points, 16 away from `K / 2`, while a favourite
      winner's raw 0 is clamped to 1, only 15 away. */
  lemma ClampBreaksMirror()
    ensures AppliedDelta(TableDelta, 0, 1000) == 32
    ensures AppliedDelta(TableDelta, 1000, 0) == 1
  {
    TableDeltaIsCurve();
    ThresholdsIncreasing();
    CountSorted(1000, Thresholds, 32);
    CountSorted(-1000, Thresholds, 0);
  }

  /** The worked examples: 1000 vs 1000 moves 16 points each way,
      a 1200 winner over an 800 loser moves 3 points. */
  lemma TableDeltaExamples()
    ensures NewScores(TableDelta, 1000, 1000) == (1016, 984)
    ensures AppliedDelta(TableDelta, 1200, 800) == 3
  {
    TableDeltaIsCurve();
    ThresholdsIncreasing();
    CountSorted(0, Thresholds, 16);
    CountSorted(-400, Thresholds, 3);
  }
}
