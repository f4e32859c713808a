/**
 * The parameter model of the transverse damper: the damping time as an alias
 * for `2 / gain`, the per-axis gain resolved at construction, the phase held as
 * a (sine, cosine) pair, and the errors the parameter accessors raise.
 */
module DamperParameters {
  import opened Wrappers

  /** The two transverse planes: horizontal (`x`, `px`) and vertical (`y`, `py`). */
  datatype Axis = X | Y

  function Other(axis: Axis): Axis
  {
    match axis
    case X => Y
    case Y => X
  }

  /** The errors the damper raises, each naming the axis it concerns. */
  datatype DamperError =
    | ZeroDampingTime(axis: Axis)         // ValueError from the damping-time setter
    | GainAndDampingTime(axis: Axis)      // AssertionError from the constructor
    | DeprecatedDampingRate(axis: Axis)   // NameError from the `dampingrate_*` properties

  /**
   * A phase angle stored the way the damper stores it: as its sine and
   * cosine, assigned together. The default phase of 90 degrees (a purely
   * resistive damper) is `Resistive`.
   */
  datatype Phase = Phase(sin: real, cos: real)
  {
    /** sin^2 + cos^2 == 1, which every pair computed from an angle satisfies. */
    predicate IsUnit()
    {
      sin * sin + cos * cos == 1.0
    }
  }

  const Resistive: Phase := Phase(1.0, 0.0)

  /** Everything the kick applies on one axis: gain, phase and beta. */
  datatype AxisParams = AxisParams(gain: real, phi: Phase, beta: real)

  /**
   * The damping-time setter: `None` disables the axis (gain 0), a zero
   * damping time is refused, and any other value `t` sets the gain to `2 / t`.
   */
  function GainOfDampingTime(axis: Axis, t: Option<real>): (r: Result<real, DamperError>)
    ensures r.Err? <==> t == Some(0.0)
    ensures r.Err? ==> r.error == ZeroDampingTime(axis)
    ensures t.None? ==> r == Ok(0.0)
    ensures t.Some? && r.Ok? ==> r.value != 0.0 && r.value * t.value == 2.0
  {
    match t
    case None => Ok(0.0)
    case Some(v) => if v == 0.0 then Err(ZeroDampingTime(axis)) else Ok(2.0 / v)
  }

  /**
   * The damping-time getter: `None` exactly when the axis is disabled (gain 0),
   * otherwise `2 / gain`.
   */
  function DampingTimeOfGain(gain: real): (r: Option<real>)
    ensures r.None? <==> gain == 0.0
    ensures r.Some? ==> r.value != 0.0 && r.value * gain == 2.0
  {
    if gain == 0.0 then None else Some(2.0 / gain)
  }

  /** Setting a damping time and reading it back yields the value set. */
  lemma DampingTimeRoundTrip(axis: Axis, t: Option<real>)
    requires t != Some(0.0)
    ensures GainOfDampingTime(axis, t).Ok?
    ensures DampingTimeOfGain(GainOfDampingTime(axis, t).value) == t
  {
    if t.Some? {
      var g := GainOfDampingTime(axis, t).value;
      var back := DampingTimeOfGain(g);
      assert back.Some? && back.value * g == 2.0 && t.value * g == 2.0;
      assert back.value == t.value by {
        calc {
          back.value;
          back.value * (g * t.value) / 2.0;
          (back.value * g) * t.value / 2.0;
          t.value;
        }
      }
    }
  }

  /** Every gain, including the disabling gain 0, is reached through its damping time. */
  lemma GainRoundTrip(axis: Axis, gain: real)
    ensures GainOfDampingTime(axis, DampingTimeOfGain(gain)) == Ok(gain)
  {
    if gain != 0.0 {
      var t := DampingTimeOfGain(gain).value;
      var back := GainOfDampingTime(axis, Some(t)).value;
      assert back * t == 2.0 && gain * t == 2.0;
      assert back == gain by {
        calc {
          back;
          back * (t * gain) / 2.0;
          (back * t) * gain / 2.0;
          gain;
        }
      }
    }
  }

  /** Python truthiness of an optional damping time: neither `None` nor zero. */
  predicate Truthy(t: Option<real>)
  {
    t.Some? && t.value != 0.0
  }

  /**
   * The gain of one axis after construction, as the constructor is written:
   * a truthy damping time together with a gain argument is refused, a truthy
   * damping time goes through the setter, and otherwise the gain stays at its
   * zero default. The gain argument itself is never stored.
   */
  function InitialGainAsWritten(axis: Axis, t: Option<real>, gain: Option<real>): (r: Result<real, DamperError>)
    ensures r.Err? <==> Truthy(t) && gain.Some?
    ensures r.Err? ==> r.error == GainAndDampingTime(axis)
    ensures r.Ok? && !Truthy(t) ==> r.value == 0.0
    ensures r.Ok? && Truthy(t) ==> DampingTimeOfGain(r.value) == t
  {
    if Truthy(t) then
      if gain.Some? then
        Err(GainAndDampingTime(axis))
      else
        DampingTimeRoundTrip(axis, t);
        GainOfDampingTime(axis, t)
    else
      Ok(0.0)
  }

  /** A gain passed on its own to the constructor is lost: the axis stays disabled. */
  lemma GainArgumentIgnored()
    ensures InitialGainAsWritten(X, None, Some(0.2)) == Ok(0.0)
    ensures DampingTimeOfGain(InitialGainAsWritten(X, None, Some(0.2)).value) == None
  {
  }

  /**
   * The gain of one axis after construction, as intended: exactly one of the
   * two representations configures the axis, and the one given is the one
   * stored. A zero damping time is falsy and is ignored, as in the source.
   */
  function InitialGain(axis: Axis, t: Option<real>, gain: Option<real>): (r: Result<real, DamperError>)
    ensures r.Err? <==> Truthy(t) && gain.Some?
    ensures r.Err? ==> r.error == GainAndDampingTime(axis)
    ensures r.Ok? && gain.Some? ==> r.value == gain.value
    ensures r.Ok? && Truthy(t) ==> DampingTimeOfGain(r.value) == t
    ensures !Truthy(t) && gain.None? ==> r == Ok(0.0)
  {
    if Truthy(t) then
      if gain.Some? then
        Err(GainAndDampingTime(axis))
      else
        DampingTimeRoundTrip(axis, t);
        GainOfDampingTime(axis, t)
    else
      Ok(if gain.Some? then gain.value else 0.0)
  }

  /**
   * The constructor as written and as intended agree on every input except
   * one: a non-zero gain passed without a truthy damping time.
   */
  lemma InitialGainVersionsAgree(axis: Axis, t: Option<real>, gain: Option<real>)
    ensures InitialGain(axis, t, gain) == InitialGainAsWritten(axis, t, gain)
            <==> !(!Truthy(t) && gain.Some? && gain.value != 0.0)
  {
  }
}
