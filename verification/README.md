# Ideal gas simulation: state model

This project models the state logic of `GasSimulation`, an educational ideal-gas
visualiser, with the plotting and widget toolkit removed. The model has two parts.

- **Parameter state.** The state holds temperature (K), volume (L), moles (mol) and
  pressure (atm), plus the drawn container rectangle. Three slider callbacks each write
  one parameter and recompute the pressure as P = nRT/V with R = 0.0821. The reset
  button restores T = 300, V = 1.0, n = 1.0. Changing the volume also resizes the
  container to a square of side V.
- **Particle step.** 100 particles start at uniform draws inside the initial container.
  Each animation frame adds a random displacement to every coordinate. It then clips x
  and y into [0.5, 0.5 + volume], using the volume current at that frame.

Python floats are modelled as exact `real`s. The random draws become caller-supplied
sequences. The state is an immutable record, and each callback is a pure function that
returns the next record.

Modules:

- `GasLaw` (gas_law.dfy): the constant R, `Pressure`, the law PV = nRT, and monotonicity and range facts about it.
- `Clip` (clip.dfy): element-wise clipping, as numpy's `clip` does it.
- `GasSimulation` (gas_simulation.dfy): the record, the constructor, the callbacks and the animation frame.
- `Session` (session.dfy): a run as a sequence of callback events, and the properties that hold for every sequence.

Two facts of the program are captured rather than assumed away:

- **Construction breaks the gas law.** The constructor writes pressure 1.0 instead of
  nRT/V = 24.63. PV = nRT holds after a run exactly when it held at the start or the run
  contains a slider change or a reset. Animation frames neither establish it nor break it.
- **A volume decrease does not move particles.** Until the next frame, particles can lie
  outside the shrunken container. Between events, particles are therefore only known to
  lie in the largest container, [0.5, 2.5]. Right after a frame, they lie inside the
  current container.

## Model

| member | source | states |
|---|---|---|
| GasLaw.Pressure | main.py:87-89 | the recomputed pressure satisfies PV = nRT with R = 0.0821; volume must be non-zero (Python raises on division by zero) |
| GasLaw.PressureIsUnique | main.py:87-89 | for non-zero volume, a pressure satisfies PV = nRT if and only if it is the computed one |
| GasLaw.PressureRisesWithTemperature | main.py:89 | at fixed n >= 0 and V > 0, a higher temperature never gives a lower pressure, and a strictly higher one when n > 0 |
| GasLaw.PressureRisesWithMoles | main.py:89 | at fixed T >= 0 and V > 0, more moles never give a lower pressure, and a strictly higher one when T > 0 |
| GasLaw.PressureFallsWithVolume | main.py:89 | at fixed n, T >= 0, a larger volume never gives a higher pressure, and a strictly lower one when n, T > 0; P·V is the same for both volumes |
| GasLaw.PressureBounds | main.py:87-90 | with T in [100,500], V in [0.1,2.0], n in [0.1,2.0], the pressure lies in [0.4105, 821] |
| Clip.Clip | main.py:112-113 | the clipped value lies in [lo, hi], equals the input when the input is already there, and is hi when the interval is empty |
| Clip.ClipIsNearest | main.py:112-113 | the clipped value is the point of [lo, hi] nearest the input |
| Clip.ClipIdempotent | main.py:112-113 | clipping twice equals clipping once |
| Clip.ClipAll | main.py:112-113 | the length is kept; every element lies in [lo, hi]; elements already inside are kept; elements below are raised to lo and elements above are cut to hi |
| Clip.ClipAllKeepsInside | main.py:112-113 | a sequence already inside [lo, hi] is unchanged by clipping |
| Clip.ClipAllIdempotent | main.py:112-113 | clipping a sequence twice equals clipping it once |
| GasSimulation.New | main.py:7-47 | construction gives T = 300, V = 1.0, n = 1.0 and a 1 by 1 container, with pressure 1.0, which violates PV = nRT; the particles are exactly the 100 draws per axis, all inside [0.5, 1.5] |
| GasSimulation.UpdatePressure | main.py:87-89 | afterwards PV = nRT holds, and no field other than pressure changes |
| GasSimulation.UpdateTemperature | main.py:73-75 | temperature becomes val and PV = nRT holds; volume, moles, container and particles are unchanged; slider range is preserved |
| GasSimulation.UpdateVolume | main.py:77-81 | volume becomes val, PV = nRT holds, and the container becomes a val by val square; temperature, moles and particles are unchanged |
| GasSimulation.UpdateMoles | main.py:83-85 | moles become val and PV = nRT holds; temperature, volume, container and particles are unchanged |
| GasSimulation.Reset | main.py:92-102 | from any state: T = 300, V = 1.0, n = 1.0, pressure 24.63, PV = nRT, container 1 by 1; particles are unchanged |
| GasSimulation.Animate | main.py:104-116 | for any displacements, every particle ends inside [0.5, 0.5 + V] for the V current at the call; counts are kept; gas parameters and container are unchanged; a particle whose jittered position is inside keeps that position |
| GasSimulation.AnimateMovesToNearestInside | main.py:108-113 | on each axis (x and y), a particle pushed out of the container ends at the point of the container range nearest to where the jitter sent it |
| GasSimulation.AnimateWithoutJitterIsIdentity | main.py:108-113 | with zero displacement, a state whose particles are inside is left unchanged |
| GasSimulation.LastTemperatureWins | main.py:73-75 | two temperature changes in a row equal the last one alone |
| GasSimulation.LastVolumeWins | main.py:77-81 | two volume changes in a row equal the last one alone, container included |
| GasSimulation.LastMolesWins | main.py:83-85 | two moles changes in a row equal the last one alone |
| GasSimulation.SlidersCommute | main.py:73-89 | changing two different sliders gives the same state in either order |
| GasSimulation.ResetForgetsParameters | main.py:92-102 | two states with the same particles reset to the same state, whatever their parameters |
| GasSimulation.ResetIdempotent | main.py:92-102 | resetting twice equals resetting once |
| GasSimulation.ResetAbsorbsSliders | main.py:92-102 | a temperature change followed by reset equals reset alone |
| GasSimulation.SlidersMovePressure | main.py:73-89 | within slider range, a higher temperature or more moles gives a strictly higher pressure, and a larger volume a strictly lower one; equal values give equal pressure |
| GasSimulation.DisplayedPressureBounded | main.py:52-65 | within slider range, and once PV = nRT holds, the pressure lies in [0.4105, 821] |
| Session.Step | main.py:49-71 | every deliverable callback keeps the between-event invariant: parameters in range, container square of side V, 100 particles inside [0.5, 2.5]. After a frame, particles are inside the current container and the gas law is as before. After any other event, the gas law holds |
| Session.Run | main.py:118-127 | any sequence of deliverable events keeps the between-event invariant |
| Session.RunSnoc | main.py:118-122 | running one more event at the end is one more step |
| Session.RunEndingInFrameIsInside | main.py:104-113 | after a run ending in a frame, every particle lies in the current container, however the volume changed before |
| Session.RunGasLaw | main.py:73-102 | PV = nRT holds after a run if and only if it held before or the run contains a slider change or reset |
| Session.GasLawOnlyAfterParameterEvent | main.py:7-16 | from construction, PV = nRT holds after a run if and only if the run contains a slider change or reset |
| Session.FramesKeepParameters | main.py:104-116 | a run made only of frames leaves temperature, volume, moles, pressure and container unchanged |
| Session.SampleSession | main.py:73-102 | from the defaults: T = 500 gives 41.05 atm; then V = 0.5 gives 82.1 atm; then reset gives 24.63 atm at V = 1.0 |
| Session.ShrinkLeavesParticleOutside | main.py:77-81 | a volume decrease can leave a particle outside the new container (particles at 1.5, volume 0.5) while the invariant still holds |

## Left out

- Figure, axes, labels, grid, particle markers and `set_data` (main.py:19-37, main.py:115): rendering only.
- Slider and button construction and callback registration (main.py:49-71): widgets. The model takes callbacks as `Session.Event` values.
- `Slider.reset()` in reset (main.py:97-99): whether it re-fires the slider callbacks is toolkit behaviour. Re-firing would write the same defaults again, so the resulting state is the same.
- The title text `Pressure = … atm` (main.py:90): presentation only.
- `FuncAnimation`, its 50 ms interval and 200 frames, and `plt.show` (main.py:118-122): event-loop plumbing. `Session.Run` accepts any interleaving of events.
- The random distributions and the speed factor `sqrt(T/300)` (main.py:46-47, main.py:106-109). Initial positions are arbitrary reals in the initial container. Per-frame displacements are arbitrary reals. So the model does not link temperature to jitter size.
- IEEE float rounding: all arithmetic is exact `real`. The pressure values 24.63, 41.05 and 82.1 are exact here.
- GasSimulation.UpdateTemperature: requires the new value in the slider range [100, 500], although the Python method accepts any number. The same holds for `UpdateVolume` ([0.1, 2.0]) and `UpdateMoles` ([0.1, 2.0]). Only the sliders call these methods.
- The container side equals the volume itself, so 2 L is drawn as a 2 by 2 square. The model keeps this as written.
