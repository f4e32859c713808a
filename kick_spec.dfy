/**
 * The kick of the transverse damper as a function of the particle
 * coordinates: a mean over the active particles (state > 0), followed by
 * the same shift of every active particle's momentum. Lost particles take no
 * part in either step.
 */
module KickSpec {
  import opened Wrappers
  import opened DamperParameters

  /**
   * The number of active particles, counted as a real (the divisor of the
   * mean; numpy divides by the count converted to floating point).
   */
  function ActiveCount(st: seq<int>): real
  {
    if st == [] then 0.0
    else ActiveCount(st[..|st| - 1]) + (if st[|st| - 1] > 0 then 1.0 else 0.0)
  }

  /** The sum of `v` over the active particles. */
  function ActiveSum(v: seq<real>, st: seq<int>): real
    requires |v| == |st|
  {
    if v == [] then 0.0
    else ActiveSum(v[..|v| - 1], st[..|st| - 1]) + (if st[|st| - 1] > 0 then v[|v| - 1] else 0.0)
  }

  /** The mean of `v` over the active particles, as numpy computes it on the hidden view. */
  function ActiveMean(v: seq<real>, st: seq<int>): real
    requires |v| == |st| && ActiveCount(st) > 0.0
  {
    ActiveSum(v, st) / ActiveCount(st)
  }

  /** `v` with `d` subtracted from every active entry (an in-place `-=` on the view). */
  function Shift(v: seq<real>, st: seq<int>, d: real): seq<real>
    requires |v| == |st|
  {
    seq(|v|, i requires 0 <= i < |v| => if st[i] > 0 then v[i] - d else v[i])
  }

  /** The resistive part of the kick: gain * sin(phase) * mean momentum. */
  function ResistiveKick(a: AxisParams, meanMomentum: real): real
  {
    a.gain * a.phi.sin * meanMomentum
  }

  /** The reactive part of the kick: gain * cos(phase) * mean position / beta, or 0 when beta is 0. */
  function ReactiveKick(a: AxisParams, meanPosition: real): real
  {
    if a.beta == 0.0 then 0.0 else a.gain * a.phi.cos * meanPosition / a.beta
  }

  /**
   * The momenta `p` of one axis after the kick, given the positions `q` of
   * that axis: nothing happens on a disabled axis; otherwise the resistive
   * shift, then, when beta is non-zero, the reactive shift.
   */
  function KickAxis(a: AxisParams, p: seq<real>, q: seq<real>, st: seq<int>): (r: seq<real>)
    requires |p| == |q| == |st|
    requires a.gain != 0.0 ==> ActiveCount(st) > 0.0
    ensures |r| == |p|
    ensures forall i :: 0 <= i < |p| && st[i] <= 0 ==> r[i] == p[i]
  {
    if a.gain == 0.0 then p
    else
      var resisted := Shift(p, st, ResistiveKick(a, ActiveMean(p, st)));
      if a.beta != 0.0 then Shift(resisted, st, ReactiveKick(a, ActiveMean(q, st))) else resisted
  }

  /**
   * Each particle's momentum after the kick: a lost particle keeps its value,
   * a disabled axis keeps every value, and on an enabled axis every active
   * particle loses the same amount, the resistive plus the reactive term.
   */
  lemma KickAxisPointwise(a: AxisParams, p: seq<real>, q: seq<real>, st: seq<int>, i: int)
    requires |p| == |q| == |st|
    requires a.gain != 0.0 ==> ActiveCount(st) > 0.0
    requires 0 <= i < |p|
    ensures st[i] <= 0 || a.gain == 0.0 ==> KickAxis(a, p, q, st)[i] == p[i]
    ensures st[i] > 0 && a.gain != 0.0 ==>
            KickAxis(a, p, q, st)[i] == p[i] - ResistiveKick(a, ActiveMean(p, st)) - ReactiveKick(a, ActiveMean(q, st))
  {
  }

  // ---------------------------------------------------------------------------
  // The kick moves the centroid of the active particles

  lemma {:induction false} ShiftSum(v: seq<real>, st: seq<int>, d: real)
    requires |v| == |st|
    ensures ActiveSum(Shift(v, st, d), st) == ActiveSum(v, st) - d * ActiveCount(st)
  {
    if v != [] {
      var n := |v| - 1;
      assert Shift(v, st, d)[..n] == Shift(v[..n], st[..n], d);
      ShiftSum(v[..n], st[..n], d);
    }
  }

  /** Subtracting `d` from every active entry lowers their mean by exactly `d`. */
  lemma ShiftMean(v: seq<real>, st: seq<int>, d: real)
    requires |v| == |st| && ActiveCount(st) > 0.0
    ensures ActiveMean(Shift(v, st, d), st) == ActiveMean(v, st) - d
  {
    ShiftSum(v, st, d);
    MeanOfShiftedSum(ActiveSum(v, st), ActiveSum(Shift(v, st, d), st), d, ActiveCount(st));
  }

  /** The arithmetic step of `ShiftMean`, kept apart from the recursive definitions. */
  lemma MeanOfShiftedSum(s: real, shifted: real, d: real, c: real)
    requires c != 0.0 && shifted == s - d * c
    ensures shifted / c == s / c - d
  {
  }

  /**
   * The mean momentum of the active particles after the kick is the mean
   * before it minus the kick; for a resistive damper (sin = 1, beta = 0) the
   * mean is scaled by 1 - gain.
   */
  lemma CentroidAfterKick(a: AxisParams, p: seq<real>, q: seq<real>, st: seq<int>)
    requires |p| == |q| == |st| && ActiveCount(st) > 0.0
    ensures ActiveMean(KickAxis(a, p, q, st), st)
            == (if a.gain == 0.0 then ActiveMean(p, st)
                else ActiveMean(p, st) - ResistiveKick(a, ActiveMean(p, st)) - ReactiveKick(a, ActiveMean(q, st)))
    ensures a.phi.sin == 1.0 && a.beta == 0.0 ==>
            ActiveMean(KickAxis(a, p, q, st), st) == (1.0 - a.gain) * ActiveMean(p, st)
  {
    if a.gain != 0.0 {
      var resisted := Shift(p, st, ResistiveKick(a, ActiveMean(p, st)));
      ShiftMean(p, st, ResistiveKick(a, ActiveMean(p, st)));
      if a.beta != 0.0 {
        ShiftMean(resisted, st, ReactiveKick(a, ActiveMean(q, st)));
      }
    }
  }

  /** At a phase of 90 or 270 degrees (cos = 0) the reactive term vanishes whatever beta is. */
  lemma QuarterPhaseIgnoresBeta(a: AxisParams, p: seq<real>, q: seq<real>, st: seq<int>)
    requires |p| == |q| == |st|
    requires a.gain != 0.0 ==> ActiveCount(st) > 0.0
    requires a.phi.cos == 0.0
    ensures KickAxis(a, p, q, st) == KickAxis(a.(beta := 0.0), p, q, st)
  {
    if a.gain != 0.0 && a.beta != 0.0 {
      var resisted := Shift(p, st, ResistiveKick(a, ActiveMean(p, st)));
      var reactive := ReactiveKick(a, ActiveMean(q, st));
      var b := a.(beta := 0.0);
      calc {
        KickAxis(a, p, q, st);
        Shift(resisted, st, reactive);
        { assert reactive == 0.0;
          ShiftByZero(resisted, st); }
        resisted;
        { assert ResistiveKick(b, ActiveMean(p, st)) == ResistiveKick(a, ActiveMean(p, st)); }
        KickAxis(b, p, q, st);
      }
    }
  }

  lemma ShiftByZero(v: seq<real>, st: seq<int>)
    requires |v| == |st|
    ensures Shift(v, st, 0.0) == v
  {
  }

  // ---------------------------------------------------------------------------
  // Lost particles are invisible to the kick

  lemma {:induction false} AppendLostSum(p: seq<real>, st: seq<int>, lp: seq<real>, ls: seq<int>)
    requires |p| == |st| && |lp| == |ls|
    requires forall i :: 0 <= i < |ls| ==> ls[i] <= 0
    ensures ActiveSum(p + lp, st + ls) == ActiveSum(p, st)
    ensures ActiveCount(st + ls) == ActiveCount(st)
  {
    if lp != [] {
      var n := |lp| - 1;
      assert (p + lp)[..|p| + n] == p + lp[..n];
      assert (st + ls)[..|st| + n] == st + ls[..n];
      AppendLostSum(p, st, lp[..n], ls[..n]);
    } else {
      assert p + lp == p && st + ls == st;
    }
  }

  /**
   * Appending lost particles to an ensemble leaves the kick on the original
   * particles as it was, and the appended momenta untouched.
   */
  lemma KickAxisAppendLost(a: AxisParams, p: seq<real>, q: seq<real>, st: seq<int>,
                           lp: seq<real>, lq: seq<real>, ls: seq<int>)
    requires |p| == |q| == |st| && |lp| == |lq| == |ls|
    requires forall i :: 0 <= i < |ls| ==> ls[i] <= 0
    requires a.gain != 0.0 ==> ActiveCount(st) > 0.0
    ensures ActiveCount(st + ls) == ActiveCount(st)
    ensures KickAxis(a, p + lp, q + lq, st + ls) == KickAxis(a, p, q, st) + lp
  {
    AppendLostSum(p, st, lp, ls);
    AppendLostSum(q, st, lq, ls);
    if a.gain != 0.0 {
      var dp := ResistiveKick(a, ActiveMean(p, st));
      assert ActiveMean(p + lp, st + ls) == ActiveMean(p, st);
      ShiftAppendLost(p, st, lp, ls, dp);
      var resisted := Shift(p, st, dp);
      assert Shift(p + lp, st + ls, dp) == resisted + lp;
      if a.beta != 0.0 {
        var dq := ReactiveKick(a, ActiveMean(q, st));
        assert ActiveMean(q + lq, st + ls) == ActiveMean(q, st);
        ShiftAppendLost(resisted, st, lp, ls, dq);
        assert KickAxis(a, p + lp, q + lq, st + ls) == Shift(resisted + lp, st + ls, dq);
      }
    }
  }

  lemma ShiftAppendLost(v: seq<real>, st: seq<int>, lp: seq<real>, ls: seq<int>, d: real)
    requires |v| == |st| && |lp| == |ls|
    requires forall i :: 0 <= i < |ls| ==> ls[i] <= 0
    ensures Shift(v + lp, st + ls, d) == Shift(v, st, d) + lp
  {
  }

  /** The entries of `v` that belong to active particles, in order. */
  function Compact<T>(v: seq<T>, st: seq<int>): seq<T>
    requires |v| == |st|
  {
    if v == [] then []
    else Compact(v[..|v| - 1], st[..|st| - 1]) + (if st[|st| - 1] > 0 then [v[|v| - 1]] else [])
  }

  lemma {:induction false} CompactCounts(v: seq<real>, st: seq<int>)
    requires |v| == |st|
    ensures |Compact(v, st)| == |Compact(st, st)|
    ensures ActiveCount(Compact(st, st)) == ActiveCount(st)
    ensures ActiveSum(Compact(v, st), Compact(st, st)) == ActiveSum(v, st)
  {
    if v != [] {
      var n := |v| - 1;
      CompactCounts(v[..n], st[..n]);
      var cv, cs := Compact(v[..n], st[..n]), Compact(st[..n], st[..n]);
      if st[n] > 0 {
        assert (cv + [v[n]])[..|cv|] == cv;
        assert (cs + [st[n]])[..|cs|] == cs;
      } else {
        assert cv + [] == cv && cs + [] == cs;
      }
    }
  }

  lemma {:induction false} CompactShift(v: seq<real>, st: seq<int>, d: real)
    requires |v| == |st|
    ensures |Compact(v, st)| == |Compact(st, st)|
    ensures Compact(Shift(v, st, d), st) == Shift(Compact(v, st), Compact(st, st), d)
  {
    CompactCounts(v, st);
    if v != [] {
      var n := |v| - 1;
      assert Shift(v, st, d)[..n] == Shift(v[..n], st[..n], d);
      CompactShift(v[..n], st[..n], d);
      var cv, cs := Compact(v[..n], st[..n]), Compact(st[..n], st[..n]);
      if st[n] > 0 {
        assert Shift(cv + [v[n]], cs + [st[n]], d) == Shift(cv, cs, d) + [v[n] - d];
      }
    }
  }

  /**
   * The active particles end up exactly as they would if the lost particles
   * were not in the ensemble at all.
   */
  lemma KickAxisIgnoresLost(a: AxisParams, p: seq<real>, q: seq<real>, st: seq<int>)
    requires |p| == |q| == |st|
    requires a.gain != 0.0 ==> ActiveCount(st) > 0.0
    ensures |Compact(p, st)| == |Compact(q, st)| == |Compact(st, st)|
    ensures ActiveCount(Compact(st, st)) == ActiveCount(st)
    ensures Compact(KickAxis(a, p, q, st), st)
            == KickAxis(a, Compact(p, st), Compact(q, st), Compact(st, st))
  {
    CompactCounts(p, st);
    CompactCounts(q, st);
    if a.gain != 0.0 {
      var resisted := Shift(p, st, ResistiveKick(a, ActiveMean(p, st)));
      CompactShift(p, st, ResistiveKick(a, ActiveMean(p, st)));
      if a.beta != 0.0 {
        CompactShift(resisted, st, ReactiveKick(a, ActiveMean(q, st)));
      }
    }
  }

  // ---------------------------------------------------------------------------
  // The resistive scenario of the damper's tests, worked exactly

  /**
   * Three active particles with px = [1, 2, 3] and a resistive damper of
   * damping time 10 (gain 0.2): the mean 2 is damped by 0.4 on each; three
   * lost particles appended with px = 1000 keep that value.
   */
  lemma ResistiveScenario()
    ensures GainOfDampingTime(X, Some(10.0)) == Ok(0.2)
    ensures ActiveCount([1, 1, 1]) == 3.0
    ensures ActiveCount([1, 1, 1, 0, 0, 0]) == 3.0
    ensures KickAxis(AxisParams(0.2, Resistive, 0.0), [1.0, 2.0, 3.0], [10.0, 10.0, 10.0], [1, 1, 1])
            == [0.6, 1.6, 2.6]
    ensures KickAxis(AxisParams(0.2, Resistive, 0.0),
                     [1.0, 2.0, 3.0, 1000.0, 1000.0, 1000.0],
                     [10.0, 10.0, 10.0, 10.0, 10.0, 10.0],
                     [1, 1, 1, 0, 0, 0])
            == [0.6, 1.6, 2.6, 1000.0, 1000.0, 1000.0]
  {
    var a := AxisParams(0.2, Resistive, 0.0);
    var p, q, st := [1.0, 2.0, 3.0], [10.0, 10.0, 10.0], [1, 1, 1];
    assert p[..2] == [1.0, 2.0] && p[..2][..1] == [1.0] && p[..2][..1][..0] == [];
    assert st[..2] == [1, 1] && st[..2][..1] == [1] && st[..2][..1][..0] == [];
    assert ActiveCount([1]) == 1.0;
    assert ActiveCount([1, 1]) == 2.0;
    assert ActiveCount(st) == 3.0;
    assert ActiveSum([1.0], [1]) == 1.0;
    assert ActiveSum([1.0, 2.0], [1, 1]) == 3.0;
    assert ActiveSum(p, st) == 6.0;
    assert ActiveMean(p, st) == 2.0;
    assert KickAxis(a, p, q, st) == Shift(p, st, 0.4);
    assert KickAxis(a, p, q, st) == [0.6, 1.6, 2.6];
    var lost, far, gone := [1000.0, 1000.0, 1000.0], [10.0, 10.0, 10.0], [0, 0, 0];
    assert [1.0, 2.0, 3.0, 1000.0, 1000.0, 1000.0] == p + lost;
    assert [10.0, 10.0, 10.0, 10.0, 10.0, 10.0] == q + far;
    assert [1, 1, 1, 0, 0, 0] == st + gone;
    KickAxisAppendLost(a, p, q, st, lost, far, gone);
  }
}
