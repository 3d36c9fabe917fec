/**
 The state of the gas simulation and the operations the slider callbacks, the
 reset button and the animation timer perform on it. The state is an immutable
 record; each operation returns the updated record.
 */
module GasSimulation {
  import opened GasLaw
  import opened Clip

  /** Number of particles drawn and animated. */
  const NumParticles: nat := 100

  /** Lower-left corner of the square container, on both axes. */
  const Origin: real := 0.5

  /** Values set when the simulation is constructed and restored by reset. */
  const DefaultTemperature: real := 300.0
  const DefaultVolume: real := 1.0
  const DefaultMoles: real := 1.0

  /** Pressure written by the constructor: a literal, not computed from the law. */
  const InitialPressure: real := 1.0

  /** Slider bounds: the values a slider callback can deliver. */
  const MinTemperature: real := 100.0
  const MaxTemperature: real := 500.0
  const MinVolume: real := 0.1
  const MaxVolume: real := 2.0
  const MinMoles: real := 0.1
  const MaxMoles: real := 2.0

  /** The drawn container rectangle; its corner stays at (Origin, Origin). */
  datatype Container = Container(width: real, height: real)

  /** Gas parameters, the container and the particle coordinates. */
  datatype Simulation = Simulation(
    temperature: real,
    volume: real,
    moles: real,
    pressure: real,
    container: Container,
    x: seq<real>,
    y: seq<real>)
  {
    /** PV = nRT holds for the stored fields. */
    predicate GasLawHolds() {
      IdealGas(pressure, moles, temperature, volume)
    }

    /** Temperature, volume and moles lie within their slider bounds. */
    predicate ParametersInRange() {
      && MinTemperature <= temperature <= MaxTemperature
      && MinVolume <= volume <= MaxVolume
      && MinMoles <= moles <= MaxMoles
    }

    /** The container is a square whose side equals the volume. */
    predicate ContainerMatchesVolume() {
      container.width == volume && container.height == volume
    }

    /** Every particle lies in the square of the given side at the origin. */
    predicate ParticlesWithin(side: real) {
      AllWithin(x, Origin, Origin + side) && AllWithin(y, Origin, Origin + side)
    }

    /** Every particle lies in the current container. */
    predicate ParticlesInside() {
      ParticlesWithin(volume)
    }
  }

  /** The state right after construction. The two coordinate sequences are the
      uniform draws over the initial container, supplied by the caller. */
  function New(drawX: seq<real>, drawY: seq<real>): (s: Simulation)
    requires |drawX| == NumParticles && |drawY| == NumParticles
    requires AllWithin(drawX, Origin, Origin + DefaultVolume)
    requires AllWithin(drawY, Origin, Origin + DefaultVolume)
    ensures s.pressure == InitialPressure && !s.GasLawHolds()
    ensures s.ParametersInRange() && s.ContainerMatchesVolume() && s.ParticlesInside()
    ensures |s.x| == NumParticles && |s.y| == NumParticles
    ensures s.temperature == DefaultTemperature && s.volume == DefaultVolume && s.moles == DefaultMoles
    ensures s.container == Container(DefaultVolume, DefaultVolume)
    ensures s.x == drawX && s.y == drawY
  {
    Simulation(DefaultTemperature, DefaultVolume, DefaultMoles, InitialPressure,
               Container(DefaultVolume, DefaultVolume), drawX, drawY)
  }

  /** Recomputes the pressure from the other three parameters; nothing else
      changes. */
  function UpdatePressure(s: Simulation): (r: Simulation)
    requires s.volume != 0.0
    ensures r.GasLawHolds()
    ensures r == s.(pressure := r.pressure)
  {
    s.(pressure := Pressure(s.moles, s.temperature, s.volume))
  }

  /** Temperature slider callback: writes the temperature, then the pressure. */
  function UpdateTemperature(s: Simulation, val: real): (r: Simulation)
    requires MinTemperature <= val <= MaxTemperature
    requires s.volume != 0.0
    ensures r.temperature == val && r.GasLawHolds()
    ensures r == s.(temperature := val, pressure := r.pressure)
    ensures s.ParametersInRange() ==> r.ParametersInRange()
  {
    UpdatePressure(s.(temperature := val))
  }

  /** Volume slider callback: writes the volume, then the pressure, then resizes
      the container to a square of side val. The particles are not moved. */
  function UpdateVolume(s: Simulation, val: real): (r: Simulation)
    requires MinVolume <= val <= MaxVolume
    ensures r.volume == val && r.GasLawHolds()
    ensures r.container == Container(val, val) && r.ContainerMatchesVolume()
    ensures r == s.(volume := val, pressure := r.pressure, container := r.container)
    ensures s.ParametersInRange() ==> r.ParametersInRange()
  {
    var t := UpdatePressure(s.(volume := val));
    t.(container := Container(val, val))
  }

  /** Moles slider callback: writes the moles, then the pressure. */
  function UpdateMoles(s: Simulation, val: real): (r: Simulation)
    requires MinMoles <= val <= MaxMoles
    requires s.volume != 0.0
    ensures r.moles == val && r.GasLawHolds()
    ensures r == s.(moles := val, pressure := r.pressure)
    ensures s.ParametersInRange() ==> r.ParametersInRange()
  {
    UpdatePressure(s.(moles := val))
  }

  /** Reset button callback: restores the default parameters, recomputes the
      pressure and resizes the container. The particles are not moved. */
  function Reset(s: Simulation): (r: Simulation)
    ensures r.temperature == DefaultTemperature && r.volume == DefaultVolume && r.moles == DefaultMoles
    ensures r.pressure == 24.63 && r.GasLawHolds()
    ensures r.container == Container(DefaultVolume, DefaultVolume)
    ensures r.ParametersInRange() && r.ContainerMatchesVolume()
    ensures r.x == s.x && r.y == s.y
  {
    var t := UpdatePressure(s.(temperature := DefaultTemperature, volume := DefaultVolume,
                               moles := DefaultMoles));
    t.(container := Container(t.volume, t.volume))
  }

  /** One animation frame: every coordinate is moved by the caller-supplied
      random displacement and then clipped into the container of the volume
      current at the time of the call. */
  function Animate(s: Simulation, dx: seq<real>, dy: seq<real>): (r: Simulation)
    requires |dx| == |s.x| && |dy| == |s.y|
    ensures |r.x| == |s.x| && |r.y| == |s.y|
    ensures r == s.(x := r.x, y := r.y)
    ensures 0.0 <= s.volume ==> r.ParticlesInside()
    ensures forall i :: 0 <= i < |s.x| && Origin <= s.x[i] + dx[i] <= Origin + s.volume ==> r.x[i] == s.x[i] + dx[i]
    ensures forall i :: 0 <= i < |s.y| && Origin <= s.y[i] + dy[i] <= Origin + s.volume ==> r.y[i] == s.y[i] + dy[i]
  {
    var hi := Origin + s.volume;
    var jitteredX := seq(|s.x|, i requires 0 <= i < |s.x| => s.x[i] + dx[i]);
    var jitteredY := seq(|s.y|, i requires 0 <= i < |s.y| => s.y[i] + dy[i]);
    s.(x := ClipAll(jitteredX, Origin, hi), y := ClipAll(jitteredY, Origin, hi))
  }

  /** A particle pushed past the container wall ends, on each axis, at the point
      of the container's range nearest to where the jitter sent it: never farther
      from that position than any point inside. */
  lemma AnimateMovesToNearestInside(s: Simulation, dx: seq<real>, dy: seq<real>, i: int, w: real)
    requires |dx| == |s.x| && |dy| == |s.y|
    requires Origin <= w <= Origin + s.volume
    ensures 0 <= i < |s.x| ==> Dist(Animate(s, dx, dy).x[i], s.x[i] + dx[i]) <= Dist(w, s.x[i] + dx[i])
    ensures 0 <= i < |s.y| ==> Dist(Animate(s, dx, dy).y[i], s.y[i] + dy[i]) <= Dist(w, s.y[i] + dy[i])
  {
    if 0 <= i < |s.x| {
      ClipIsNearest(s.x[i] + dx[i], Origin, Origin + s.volume, w);
    }
    if 0 <= i < |s.y| {
      ClipIsNearest(s.y[i] + dy[i], Origin, Origin + s.volume, w);
    }
  }

  /** A frame with no displacement leaves particles that are already inside the
      container exactly where they are. */
  lemma AnimateWithoutJitterIsIdentity(s: Simulation, zx: seq<real>, zy: seq<real>)
    requires |zx| == |s.x| && |zy| == |s.y|
    requires forall i :: 0 <= i < |zx| ==> zx[i] == 0.0
    requires forall i :: 0 <= i < |zy| ==> zy[i] == 0.0
    requires s.ParticlesInside()
    ensures Animate(s, zx, zy) == s
  {
    assert seq(|s.x|, i requires 0 <= i < |s.x| => s.x[i] + zx[i]) == s.x;
    assert seq(|s.y|, i requires 0 <= i < |s.y| => s.y[i] + zy[i]) == s.y;
    ClipAllKeepsInside(s.x, Origin, Origin + s.volume);
    ClipAllKeepsInside(s.y, Origin, Origin + s.volume);
  }

  /** A later temperature overrides an earlier one: only the last value of a
      drag matters. */
  lemma LastTemperatureWins(s: Simulation, a: real, b: real)
    requires s.volume != 0.0
    requires MinTemperature <= a <= MaxTemperature && MinTemperature <= b <= MaxTemperature
    ensures UpdateTemperature(UpdateTemperature(s, a), b) == UpdateTemperature(s, b)
  {
  }

  /** A later volume overrides an earlier one, container included. */
  lemma LastVolumeWins(s: Simulation, a: real, b: real)
    requires MinVolume <= a <= MaxVolume && MinVolume <= b <= MaxVolume
    ensures UpdateVolume(UpdateVolume(s, a), b) == UpdateVolume(s, b)
  {
  }

  /** A later amount of gas overrides an earlier one. */
  lemma LastMolesWins(s: Simulation, a: real, b: real)
    requires s.volume != 0.0
    requires MinMoles <= a <= MaxMoles && MinMoles <= b <= MaxMoles
    ensures UpdateMoles(UpdateMoles(s, a), b) == UpdateMoles(s, b)
  {
  }

  /** Moving two different sliders gives the same state in either order. */
  lemma SlidersCommute(s: Simulation, t: real, v: real, n: real)
    requires MinTemperature <= t <= MaxTemperature
    requires MinVolume <= v <= MaxVolume
    requires MinMoles <= n <= MaxMoles
    requires s.volume != 0.0
    ensures UpdateTemperature(UpdateVolume(s, v), t) == UpdateVolume(UpdateTemperature(s, t), v)
    ensures UpdateMoles(UpdateVolume(s, v), n) == UpdateVolume(UpdateMoles(s, n), v)
    ensures UpdateMoles(UpdateTemperature(s, t), n) == UpdateTemperature(UpdateMoles(s, n), t)
  {
  }

  /** Reset forgets everything but the particle positions: two states with the
      same particles reset to the same state. */
  lemma ResetForgetsParameters(s1: Simulation, s2: Simulation)
    requires s1.x == s2.x && s1.y == s2.y
    ensures Reset(s1) == Reset(s2)
  {
  }

  /** Resetting twice is the same as resetting once. */
  lemma ResetIdempotent(s: Simulation)
    ensures Reset(Reset(s)) == Reset(s)
  {
    ResetForgetsParameters(Reset(s), s);
  }

  /** Moving a slider and then pressing reset is the same as pressing reset. */
  lemma ResetAbsorbsSliders(s: Simulation, val: real)
    requires s.volume != 0.0
    requires MinTemperature <= val <= MaxTemperature
    ensures Reset(UpdateTemperature(s, val)) == Reset(s)
  {
    ResetForgetsParameters(UpdateTemperature(s, val), s);
  }

  /** Within the slider bounds, the recomputed pressure rises strictly with
      temperature and moles and falls strictly with volume; for equal values it
      is the same. */
  lemma SlidersMovePressure(s: Simulation, a: real, b: real)
    requires s.ParametersInRange() && a <= b
    ensures MinTemperature <= a && b <= MaxTemperature ==>
      UpdateTemperature(s, a).pressure <= UpdateTemperature(s, b).pressure
    ensures MinTemperature <= a < b <= MaxTemperature ==>
      UpdateTemperature(s, a).pressure < UpdateTemperature(s, b).pressure
    ensures MinMoles <= a && b <= MaxMoles ==>
      UpdateMoles(s, a).pressure <= UpdateMoles(s, b).pressure
    ensures MinMoles <= a < b <= MaxMoles ==>
      UpdateMoles(s, a).pressure < UpdateMoles(s, b).pressure
    ensures MinVolume <= a && b <= MaxVolume ==>
      UpdateVolume(s, b).pressure <= UpdateVolume(s, a).pressure
    ensures MinVolume <= a < b <= MaxVolume ==>
      UpdateVolume(s, b).pressure < UpdateVolume(s, a).pressure
  {
    if MinTemperature <= a && b <= MaxTemperature {
      PressureRisesWithTemperature(s.moles, a, b, s.volume);
    }
    if MinMoles <= a && b <= MaxMoles {
      PressureRisesWithMoles(a, b, s.temperature, s.volume);
    }
    if MinVolume <= a && b <= MaxVolume {
      PressureFallsWithVolume(s.moles, s.temperature, a, b);
    }
  }

  /** Every in-range state shows a pressure between 0.4105 and 821 atm once the
      gas law holds. */
  lemma DisplayedPressureBounded(s: Simulation)
    requires s.ParametersInRange() && s.GasLawHolds()
    ensures 0.4105 <= s.pressure <= 821.0
  {
    PressureIsUnique(s.pressure, s.moles, s.temperature, s.volume);
    PressureBounds(s.moles, s.temperature, s.volume);
  }
}
