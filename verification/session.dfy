/**
 A run of the simulation as the sequence of events the GUI delivers to it: slider
 changes, reset clicks and animation frames. The properties here hold for every
 such sequence, whatever order the user and the timer interleave them in.
 */
module Session {
  import opened Clip
  import opened GasSimulation

  /** One callback invocation. A frame carries the random displacements drawn
      for it, one per particle and axis. */
  datatype Event =
    | TemperatureChanged(val: real)
    | VolumeChanged(val: real)
    | MolesChanged(val: real)
    | ResetClicked
    | Frame(dx: seq<real>, dy: seq<real>)

  /** The values the sliders and the timer can deliver. */
  predicate Deliverable(e: Event) {
    match e
    case TemperatureChanged(v) => MinTemperature <= v <= MaxTemperature
    case VolumeChanged(v) => MinVolume <= v <= MaxVolume
    case MolesChanged(v) => MinMoles <= v <= MaxMoles
    case ResetClicked => true
    case Frame(dx, dy) => |dx| == NumParticles && |dy| == NumParticles
  }

  predicate AllDeliverable(events: seq<Event>) {
    forall i :: 0 <= i < |events| ==> Deliverable(events[i])
  }

  /** What holds of the state between any two events. Particles are only known
      to lie in the largest container: a volume decrease leaves them where they
      were until the next frame. */
  predicate Invariant(s: Simulation) {
    && s.ParametersInRange()
    && s.ContainerMatchesVolume()
    && |s.x| == NumParticles && |s.y| == NumParticles
    && s.ParticlesWithin(MaxVolume)
  }

  /** A state whose particles lie in a square lie in every larger one. */
  lemma WithinLarger(s: Simulation, small: real, large: real)
    requires s.ParticlesWithin(small) && small <= large
    ensures s.ParticlesWithin(large)
  {
  }

  /** Dispatches one event to its callback. */
  function Step(s: Simulation, e: Event): (r: Simulation)
    requires Invariant(s) && Deliverable(e)
    ensures Invariant(r)
    ensures e.Frame? ==> r.ParticlesInside()
    ensures e.Frame? ==> r.GasLawHolds() == s.GasLawHolds()
    ensures !e.Frame? ==> r.GasLawHolds()
  {
    match e
    case TemperatureChanged(v) => UpdateTemperature(s, v)
    case VolumeChanged(v) => UpdateVolume(s, v)
    case MolesChanged(v) => UpdateMoles(s, v)
    case ResetClicked => Reset(s)
    case Frame(dx, dy) =>
      var r := Animate(s, dx, dy);
      WithinLarger(r, r.volume, MaxVolume);
      r
  }

  /** Dispatches the events in order. */
  function Run(s: Simulation, events: seq<Event>): (r: Simulation)
    requires Invariant(s) && AllDeliverable(events)
    ensures Invariant(r)
    decreases |events|
  {
    if events == [] then s else Run(Step(s, events[0]), events[1..])
  }

  /** Running a sequence with one more event at the end is one more step. */
  lemma {:induction false} RunSnoc(s: Simulation, events: seq<Event>, e: Event)
    requires Invariant(s) && AllDeliverable(events) && Deliverable(e)
    ensures AllDeliverable(events + [e])
    ensures Run(s, events + [e]) == Step(Run(s, events), e)
    decreases |events|
  {
    if events == [] {
      assert events + [e] == [e];
      assert [e][1..] == [];
    } else {
      assert (events + [e])[1..] == events[1..] + [e];
      RunSnoc(Step(s, events[0]), events[1..], e);
    }
  }

  /** After a frame, and until the next volume change, every particle lies in
      the current container, however the volume moved before the frame. */
  lemma RunEndingInFrameIsInside(s: Simulation, events: seq<Event>)
    requires Invariant(s) && AllDeliverable(events)
    requires |events| > 0 && events[|events| - 1].Frame?
    ensures Run(s, events).ParticlesInside()
  {
    var n := |events| - 1;
    assert events == events[..n] + [events[n]];
    RunSnoc(s, events[..n], events[n]);
  }

  /** True iff some event of the sequence is a slider change or a reset. */
  predicate SomeParameterEvent(events: seq<Event>) {
    exists i :: 0 <= i < |events| && !events[i].Frame?
  }

  /** PV = nRT holds after a run exactly when it held before or some slider
      change or reset happened during it: frames neither establish nor break it. */
  lemma {:induction false} RunGasLaw(s: Simulation, events: seq<Event>)
    requires Invariant(s) && AllDeliverable(events)
    ensures Run(s, events).GasLawHolds() <==> s.GasLawHolds() || SomeParameterEvent(events)
    decreases |events|
  {
    if events != [] {
      var t := Step(s, events[0]);
      RunGasLaw(t, events[1..]);
      if SomeParameterEvent(events[1..]) {
        var i :| 0 <= i < |events[1..]| && !events[1..][i].Frame?;
        assert !events[i + 1].Frame?;
      }
      if SomeParameterEvent(events) && !events[0].Frame? {
      } else if SomeParameterEvent(events) {
        var i :| 0 <= i < |events| && !events[i].Frame?;
        assert i != 0;
        assert !events[1..][i - 1].Frame?;
      }
    }
  }

  /** Right after construction the gas law does not hold; it holds after a run
      from there exactly when that run contains a slider change or a reset. */
  lemma GasLawOnlyAfterParameterEvent(drawX: seq<real>, drawY: seq<real>, events: seq<Event>)
    requires |drawX| == NumParticles && |drawY| == NumParticles
    requires AllWithin(drawX, Origin, Origin + DefaultVolume)
    requires AllWithin(drawY, Origin, Origin + DefaultVolume)
    requires AllDeliverable(events)
    ensures Invariant(New(drawX, drawY))
    ensures Run(New(drawX, drawY), events).GasLawHolds() <==> SomeParameterEvent(events)
  {
    var s := New(drawX, drawY);
    WithinLarger(s, DefaultVolume, MaxVolume);
    RunGasLaw(s, events);
  }

  /** Frames never change the gas parameters or the container. */
  lemma {:induction false} FramesKeepParameters(s: Simulation, events: seq<Event>)
    requires Invariant(s) && AllDeliverable(events) && !SomeParameterEvent(events)
    ensures var r := Run(s, events);
      r.temperature == s.temperature && r.volume == s.volume && r.moles == s.moles
      && r.pressure == s.pressure && r.container == s.container
    decreases |events|
  {
    if events != [] {
      assert events[0].Frame?;
      forall i | 0 <= i < |events[1..]|
        ensures events[1..][i].Frame?
      {
        assert events[1..][i] == events[i + 1];
      }
      FramesKeepParameters(Step(s, events[0]), events[1..]);
    }
  }

  /** A sample session: from the defaults, temperature 500 K gives 41.05 atm,
      then volume 0.5 L gives 82.1 atm, and reset returns to 24.63 atm at 1.0 L. */
  lemma SampleSession(drawX: seq<real>, drawY: seq<real>)
    requires |drawX| == NumParticles && |drawY| == NumParticles
    requires AllWithin(drawX, Origin, Origin + DefaultVolume)
    requires AllWithin(drawY, Origin, Origin + DefaultVolume)
    ensures var s0 := New(drawX, drawY);
      var s1 := UpdateTemperature(s0, 500.0);
      var s2 := UpdateVolume(s1, 0.5);
      var s3 := Reset(s2);
      s1.pressure == 41.05 && s2.pressure == 82.1 && s3.pressure == 24.63 && s3.volume == 1.0
  {
  }

  /** A volume decrease can leave particles outside the new container until
      the next frame: the particles are not clipped by the volume slider. */
  lemma ShrinkLeavesParticleOutside()
    ensures var s := New(seq(NumParticles, i => 1.5), seq(NumParticles, i => 1.5));
      var r := UpdateVolume(s, 0.5);
      Invariant(r) && !r.ParticlesInside()
  {
    var s := New(seq(NumParticles, i => 1.5), seq(NumParticles, i => 1.5));
    var r := UpdateVolume(s, 0.5);
    assert r.x[0] == 1.5 > Origin + r.volume;
  }
}
