/**
 * The part of the host particle container that the damper uses: per-particle
 * coordinate arrays, the integer `state` (active when positive), and the
 * ensemble-owned flag saying whether lost particles are currently hidden.
 * Hiding restricts every array operation to the active particles; the two
 * array kernels below are those operations as the damper performs them.
 */
module ParticleEnsemble {
  import opened KickSpec

  /** A change of the ensemble's visibility state, recorded in order. */
  datatype VisibilityChange = Hide | Unhide

  class Particles {
    var x: array<real>
    var y: array<real>
    var px: array<real>
    var py: array<real>
    var state: array<int>
    var lostParticlesAreHidden: bool
    /** Every hide and unhide performed on this ensemble, oldest first. */
    ghost var visibilityLog: seq<VisibilityChange>

    /** One record per particle; the two momentum arrays are distinct from each other and from the positions. */
    ghost predicate Valid()
      reads this`x, this`y, this`px, this`py, this`state
    {
      x.Length == y.Length == px.Length == py.Length == state.Length &&
      px != py && px != x && px != y && py != x && py != y
    }

    /** A fresh ensemble holding the given coordinates, with nothing hidden. */
    constructor (x0: seq<real>, y0: seq<real>, px0: seq<real>, py0: seq<real>, state0: seq<int>)
      requires |x0| == |y0| == |px0| == |py0| == |state0|
      ensures Valid() && fresh(x) && fresh(y) && fresh(px) && fresh(py) && fresh(state)
      ensures x[..] == x0 && y[..] == y0 && px[..] == px0 && py[..] == py0 && state[..] == state0
      ensures !lostParticlesAreHidden && visibilityLog == []
    {
      x := new real[|x0|](i requires 0 <= i < |x0| => x0[i]);
      y := new real[|y0|](i requires 0 <= i < |y0| => y0[i]);
      px := new real[|px0|](i requires 0 <= i < |px0| => px0[i]);
      py := new real[|py0|](i requires 0 <= i < |py0| => py0[i]);
      state := new int[|state0|](i requires 0 <= i < |state0| => state0[i]);
      lostParticlesAreHidden := false;
      visibilityLog := [];
    }

    /** Restricts the ensemble's view to the active particles. */
    method HideLostParticles()
      modifies this`lostParticlesAreHidden, this`visibilityLog
      ensures lostParticlesAreHidden
      ensures visibilityLog == old(visibilityLog) + [Hide]
    {
      lostParticlesAreHidden := true;
      visibilityLog := visibilityLog + [Hide];
    }

    /** Makes the lost particles visible again. */
    method UnhideLostParticles()
      modifies this`lostParticlesAreHidden, this`visibilityLog
      ensures !lostParticlesAreHidden
      ensures visibilityLog == old(visibilityLog) + [Unhide]
    {
      lostParticlesAreHidden := false;
      visibilityLog := visibilityLog + [Unhide];
    }
  }

  /**
   * The mean of `v` over the active particles, computed in one pass that
   * accumulates their sum and their count.
   */
  method MaskedMean(v: array<real>, state: array<int>) returns (m: real)
    requires v.Length == state.Length && ActiveCount(state[..]) > 0.0
    ensures m == ActiveMean(v[..], state[..])
  {
    var sum, count := 0.0, 0.0;
    for i := 0 to v.Length
      invariant sum == ActiveSum(v[..i], state[..i])
      invariant count == ActiveCount(state[..i])
    {
      assert v[..i + 1][..i] == v[..i];
      assert state[..i + 1][..i] == state[..i];
      if state[i] > 0 {
        sum, count := sum + v[i], count + 1.0;
      }
    }
    assert v[..v.Length] == v[..] && state[..state.Length] == state[..];
    m := sum / count;
  }

  /** Subtracts `d` from every active entry of `v` in place; lost entries keep their value. */
  method SubtractFromActive(v: array<real>, state: array<int>, d: real)
    requires v.Length == state.Length
    modifies v
    ensures v[..] == Shift(old(v[..]), state[..], d)
  {
    for i := 0 to v.Length
      invariant forall k :: 0 <= k < i ==> v[k] == (if state[k] > 0 then old(v[k]) - d else old(v[k]))
      invariant forall k :: i <= k < v.Length ==> v[k] == old(v[k])
    {
      if state[i] > 0 {
        v[i] := v[i] - d;
      }
    }
  }
}
