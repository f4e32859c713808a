/**
 * The transverse feedback damper: a beam element holding a gain, a phase
 * (as its sine and cosine) and a beta value per transverse plane, which
 * kicks the momenta of the active particles by a fraction of their mean.
 */
module Damper {
  import opened Wrappers
  import opened DamperParameters
  import opened KickSpec
  import opened ParticleEnsemble

  class TransverseDamper {
    var gainX: real
    var gainY: real
    var sinPhiX: real
    var sinPhiY: real
    var cosPhiX: real
    var cosPhiY: real
    var betaX: real
    var betaY: real

    /** The parameters the kick uses on one plane. */
    function Params(axis: Axis): AxisParams
      reads this
    {
      match axis
      case X => AxisParams(gainX, Phase(sinPhiX, cosPhiX), betaX)
      case Y => AxisParams(gainY, Phase(sinPhiY, cosPhiY), betaY)
    }

    /**
     * Each stored phase pair is the sine and cosine of one angle. This records
     * the invariant that the phase setter keeps; the kick itself does not
     * depend on it, so `Track` does not require it.
     */
    ghost predicate Valid()
      reads this
    {
      Params(X).phi.IsUnit() && Params(Y).phi.IsUnit()
    }

    constructor Init(x: AxisParams, y: AxisParams)
      requires x.phi.IsUnit() && y.phi.IsUnit()
      ensures Valid() && Params(X) == x && Params(Y) == y
    {
      gainX, sinPhiX, cosPhiX, betaX := x.gain, x.phi.sin, x.phi.cos, x.beta;
      gainY, sinPhiY, cosPhiY, betaY := y.gain, y.phi.sin, y.phi.cos, y.beta;
    }

    /**
     * Construction: resolves each plane's gain from the damping-time and
     * gain arguments (the horizontal plane first), then stores the phases and
     * betas. Fails when a plane is given both a non-zero damping time and a gain.
     */
    static method Create(dampingTimeX: Option<real>, dampingTimeY: Option<real>,
                         gainArgX: Option<real>, gainArgY: Option<real>,
                         phiX: Phase, phiY: Phase, betaX: real, betaY: real)
      returns (r: Result<TransverseDamper, DamperError>)
      requires phiX.IsUnit() && phiY.IsUnit()
      ensures r.Err? <==> InitialGain(X, dampingTimeX, gainArgX).Err? || InitialGain(Y, dampingTimeY, gainArgY).Err?
      ensures r.Err? ==> r.error == (if InitialGain(X, dampingTimeX, gainArgX).Err?
                                     then GainAndDampingTime(X) else GainAndDampingTime(Y))
      ensures r.Ok? ==> fresh(r.value) && r.value.Valid()
      ensures r.Ok? ==> r.value.Params(X) == AxisParams(InitialGain(X, dampingTimeX, gainArgX).value, phiX, betaX)
      ensures r.Ok? ==> r.value.Params(Y) == AxisParams(InitialGain(Y, dampingTimeY, gainArgY).value, phiY, betaY)
    {
      var gx := InitialGain(X, dampingTimeX, gainArgX);
      if gx.Err? {
        return Err(gx.error);
      }
      var gy := InitialGain(Y, dampingTimeY, gainArgY);
      if gy.Err? {
        return Err(gy.error);
      }
      var d := new TransverseDamper.Init(AxisParams(gx.value, phiX, betaX), AxisParams(gy.value, phiY, betaY));
      return Ok(d);
    }

    /** The damping time of a plane: `None` when the plane is disabled, else `2 / gain`. */
    function DampingTime(axis: Axis): (r: Option<real>)
      reads this
      ensures r.None? <==> Params(axis).gain == 0.0
      ensures r.Some? ==> r.value * Params(axis).gain == 2.0
    {
      DampingTimeOfGain(Params(axis).gain)
    }

    /**
     * Sets a plane's gain through its damping time. A zero damping time is
     * refused and changes nothing; otherwise reading the damping time back
     * gives the value set, and nothing but that plane's gain changes.
     */
    method SetDampingTime(axis: Axis, t: Option<real>) returns (r: Outcome<DamperError>)
      requires Valid()
      modifies this
      ensures Valid()
      ensures r.Fail? <==> t == Some(0.0)
      ensures r.Fail? ==> r.error == ZeroDampingTime(axis) && Params(axis) == old(Params(axis))
      ensures r.Pass? ==> Params(axis) == old(Params(axis)).(gain := GainOfDampingTime(axis, t).value)
      ensures r.Pass? ==> DampingTime(axis) == t
      ensures Params(Other(axis)) == old(Params(Other(axis)))
    {
      var g := GainOfDampingTime(axis, t);
      if g.Err? {
        return Fail(g.error);
      }
      DampingTimeRoundTrip(axis, t);
      if axis == X {
        gainX := g.value;
      } else {
        gainY := g.value;
      }
      r := Pass;
    }

    /**
     * Sets a plane's phase, given as its sine and cosine: both are stored
     * together and nothing else changes.
     */
    method SetPhase(axis: Axis, phi: Phase)
      requires Valid() && phi.IsUnit()
      modifies this
      ensures Valid()
      ensures Params(axis) == old(Params(axis)).(phi := phi)
      ensures Params(Other(axis)) == old(Params(Other(axis)))
    {
      match axis
      case X => sinPhiX, cosPhiX := phi.sin, phi.cos;
      case Y => sinPhiY, cosPhiY := phi.sin, phi.cos;
    }

    /** Reading the deprecated damping rate of a plane always fails. */
    function DampingRate(axis: Axis): (r: Result<real, DamperError>)
      ensures r.Err? && r.error == DeprecatedDampingRate(axis)
    {
      Err(DeprecatedDampingRate(axis))
    }

    /** Writing the deprecated damping rate of a plane always fails and changes nothing. */
    method SetDampingRate(axis: Axis, value: real) returns (r: Outcome<DamperError>)
      ensures r.Fail? && r.error == DeprecatedDampingRate(axis)
    {
      r := Fail(DeprecatedDampingRate(axis));
    }

    /**
     * The kick on a visible (lost-hidden) ensemble: each enabled plane moves
     * its momenta by the resistive and, with a non-zero beta, the reactive
     * term; positions and states are read only.
     */
    method TrackVisible(p: Particles)
      requires p.Valid() && p.lostParticlesAreHidden
      requires gainX != 0.0 || gainY != 0.0 ==> ActiveCount(p.state[..]) > 0.0
      modifies p.px, p.py
      ensures p.px[..] == KickAxis(Params(X), old(p.px[..]), p.x[..], p.state[..])
      ensures p.py[..] == KickAxis(Params(Y), old(p.py[..]), p.y[..], p.state[..])
    {
      KickPlane(Params(X), p.px, p.x, p.state);
      KickPlane(Params(Y), p.py, p.y, p.state);
    }

    /**
     * The damper's entry point: hides the lost particles unless they are
     * already hidden, kicks, and unhides only what it hid, so the ensemble's
     * visibility flag ends as it was found.
     */
    method Track(p: Particles)
      requires p.Valid()
      requires gainX != 0.0 || gainY != 0.0 ==> ActiveCount(p.state[..]) > 0.0
      modifies p`lostParticlesAreHidden, p`visibilityLog, p.px, p.py
      ensures p.Valid()
      ensures p.px[..] == KickAxis(Params(X), old(p.px[..]), p.x[..], p.state[..])
      ensures p.py[..] == KickAxis(Params(Y), old(p.py[..]), p.y[..], p.state[..])
      ensures unchanged(p.x, p.y, p.state)
      ensures p.lostParticlesAreHidden == old(p.lostParticlesAreHidden)
      ensures p.visibilityLog == old(p.visibilityLog) + (if old(p.lostParticlesAreHidden) then [] else [Hide, Unhide])
    {
      if p.lostParticlesAreHidden {
        TrackVisible(p);
      } else {
        p.HideLostParticles();
        TrackVisible(p);
        p.UnhideLostParticles();
      }
    }
  }

  /**
   * The kick of one plane, in place on its momenta `p`, reading its positions
   * `q`: a disabled plane is skipped; otherwise the mean momentum is reduced
   * and subtracted, then, with a non-zero beta, the mean position term.
   */
  method KickPlane(a: AxisParams, p: array<real>, q: array<real>, state: array<int>)
    requires p != q && p.Length == q.Length == state.Length
    requires a.gain != 0.0 ==> ActiveCount(state[..]) > 0.0
    modifies p
    ensures p[..] == KickAxis(a, old(p[..]), q[..], state[..])
  {
    if a.gain != 0.0 {
      var meanMomentum := MaskedMean(p, state);
      SubtractFromActive(p, state, ResistiveKick(a, meanMomentum));
      if a.beta != 0.0 {
        var meanPosition := MaskedMean(q, state);
        SubtractFromActive(p, state, ReactiveKick(a, meanPosition));
      }
    }
  }

  /**
   * The resistive scenario of the damper's tests, through the damper's own
   * interface: a damper of damping time 10 on x has gain 0.2, kicks three
   * active particles by 0.2 times their mean momentum and leaves the y
   * momenta alone.
   */
  method ResistiveTestScenario() returns (gain: real, px: seq<real>, py: seq<real>)
    ensures gain == 0.2
    ensures px == [0.6, 1.6, 2.6]
    ensures py == [3.0, 4.0, 5.0]
  {
    var xs, ys, states := [10.0, 10.0, 10.0], [20.0, 20.0, 20.0], [1, 1, 1];
    var pxs, pys := [1.0, 2.0, 3.0], [3.0, 4.0, 5.0];
    ResistiveScenario();

    var rx := TransverseDamper.Create(Some(10.0), None, None, None, Resistive, Resistive, 0.0, 0.0);
    var dx := rx.value;
    assert dx.Params(X) == AxisParams(0.2, Resistive, 0.0) && dx.Params(Y).gain == 0.0;
    var p := new Particles(xs, ys, pxs, pys, states);
    dx.Track(p);
    gain, px, py := dx.gainX, p.px[..], p.py[..];
  }

  /**
   * Axis independence as the damper's tests check it: on two copies of one
   * ensemble, a damper on both planes gives the `px` of a damper with the
   * same x parameters and a disabled y plane, which leaves `py` as it was.
   */
  method AxisIndependenceScenario(dx: TransverseDamper, dxy: TransverseDamper,
                                  xs: seq<real>, ys: seq<real>, pxs: seq<real>, pys: seq<real>, states: seq<int>)
    returns (px1: seq<real>, py1: seq<real>, px3: seq<real>)
    requires dxy.Params(X) == dx.Params(X) && dx.Params(Y).gain == 0.0
    requires |xs| == |ys| == |pxs| == |pys| == |states| && ActiveCount(states) > 0.0
    ensures py1 == pys
    ensures px3 == px1
  {
    var p1 := new Particles(xs, ys, pxs, pys, states);
    var p3 := new Particles(xs, ys, pxs, pys, states);
    dx.Track(p1);
    dxy.Track(p3);
    px1, py1, px3 := p1.px[..], p1.py[..], p3.px[..];
  }

  /**
   * The same x damper on the three particles with three lost ones appended:
   * the active particles are kicked as before and the lost ones keep their
   * momenta.
   */
  method LostParticlesTestScenario() returns (px: seq<real>, py: seq<real>)
    ensures px == [0.6, 1.6, 2.6, 1000.0, 1000.0, 1000.0]
    ensures py == [3.0, 4.0, 5.0, 2000.0, 2000.0, 2000.0]
  {
    var xs, ys := [10.0, 10.0, 10.0, 10.0, 10.0, 10.0], [20.0, 20.0, 20.0, 20.0, 20.0, 20.0];
    var pxs := [1.0, 2.0, 3.0, 1000.0, 1000.0, 1000.0];
    var pys := [3.0, 4.0, 5.0, 2000.0, 2000.0, 2000.0];
    var states := [1, 1, 1, 0, 0, 0];
    ResistiveScenario();

    var rx := TransverseDamper.Create(Some(10.0), None, None, None, Resistive, Resistive, 0.0, 0.0);
    var dx := rx.value;
    assert dx.Params(X) == AxisParams(0.2, Resistive, 0.0) && dx.Params(Y).gain == 0.0;
    var p := new Particles(xs, ys, pxs, pys, states);
    dx.Track(p);
    px, py := p.px[..], p.py[..];
  }
}
