/**
 The ideal gas law P = nRT/V as the simulation evaluates it, over exact reals.
 */
module GasLaw {

  /** Gas constant in L·atm/(mol·K). */
  const R: real := 0.0821

  /** True iff pressure, moles, temperature and volume satisfy PV = nRT. */
  predicate IdealGas(pressure: real, moles: real, temperature: real, volume: real) {
    pressure * volume == moles * R * temperature
  }

  /** The pressure the simulation derives from the other three quantities.
      Dividing by a zero volume is an error in the program, so the caller must
      rule it out. */
  function Pressure(moles: real, temperature: real, volume: real): (p: real)
    requires volume != 0.0
    ensures IdealGas(p, moles, temperature, volume)
  {
    moles * R * temperature / volume
  }

  /** For a non-zero volume the law determines the pressure: a pressure satisfies
      PV = nRT exactly when it is the computed one. */
  lemma PressureIsUnique(p: real, moles: real, temperature: real, volume: real)
    requires volume != 0.0
    ensures IdealGas(p, moles, temperature, volume) <==> p == Pressure(moles, temperature, volume)
  {
    var q := Pressure(moles, temperature, volume);
    if IdealGas(p, moles, temperature, volume) {
      assert p * volume == q * volume;
      assert (p - q) * volume == 0.0;
    }
  }

  /** Raising the temperature at fixed moles and volume never lowers the pressure,
      and strictly raises it when there is gas (Gay-Lussac's law). */
  lemma PressureRisesWithTemperature(moles: real, t1: real, t2: real, volume: real)
    requires 0.0 <= moles && 0.0 < volume && t1 <= t2
    ensures Pressure(moles, t1, volume) <= Pressure(moles, t2, volume)
    ensures 0.0 < moles && t1 < t2 ==> Pressure(moles, t1, volume) < Pressure(moles, t2, volume)
  {
    assert moles * R * t1 <= moles * R * t2 by {
      ProductNonNegative(moles * R, t2 - t1);
    }
    DivideMonotone(moles * R * t1, moles * R * t2, volume);
    if 0.0 < moles && t1 < t2 {
      ProductPositive(moles * R, t2 - t1);
      DivideStrictlyMonotone(moles * R * t1, moles * R * t2, volume);
    }
  }

  /** Adding gas at fixed temperature and volume never lowers the pressure, and
      strictly raises it at a positive temperature (Avogadro's law). */
  lemma PressureRisesWithMoles(n1: real, n2: real, temperature: real, volume: real)
    requires n1 <= n2 && 0.0 <= temperature && 0.0 < volume
    ensures Pressure(n1, temperature, volume) <= Pressure(n2, temperature, volume)
    ensures 0.0 < temperature && n1 < n2 ==> Pressure(n1, temperature, volume) < Pressure(n2, temperature, volume)
  {
    assert n1 * R * temperature <= n2 * R * temperature by {
      ProductNonNegative(n2 - n1, R * temperature);
    }
    DivideMonotone(n1 * R * temperature, n2 * R * temperature, volume);
    if 0.0 < temperature && n1 < n2 {
      ProductPositive(n2 - n1, R * temperature);
      DivideStrictlyMonotone(n1 * R * temperature, n2 * R * temperature, volume);
    }
  }

  /** Enlarging the container at fixed moles and temperature never raises the
      pressure, and strictly lowers it when there is warm gas (Boyle's law); the
      product PV stays the same. */
  lemma PressureFallsWithVolume(moles: real, temperature: real, v1: real, v2: real)
    requires 0.0 <= moles && 0.0 <= temperature && 0.0 < v1 <= v2
    ensures Pressure(moles, temperature, v2) <= Pressure(moles, temperature, v1)
    ensures 0.0 < moles && 0.0 < temperature && v1 < v2 ==>
      Pressure(moles, temperature, v2) < Pressure(moles, temperature, v1)
    ensures Pressure(moles, temperature, v1) * v1 == Pressure(moles, temperature, v2) * v2
  {
    var a := moles * R * temperature;
    assert 0.0 <= a by {
      ProductNonNegative(moles * R, temperature);
    }
    var p1 := Pressure(moles, temperature, v1);
    var p2 := Pressure(moles, temperature, v2);
    assert p1 * v1 == a && p2 * v2 == a;
    assert 0.0 <= p2 by {
      DivideMonotone(0.0, a, v2);
    }
    assert p2 * v1 <= p2 * v2 by {
      ProductNonNegative(p2, v2 - v1);
    }
    assert (p1 - p2) * v1 >= 0.0;
    FactorNonNegative(p1 - p2, v1);
    if 0.0 < moles && 0.0 < temperature && v1 < v2 {
      ProductPositive(moles * R, temperature);
      DivideStrictlyMonotone(0.0, a, v2);
      ProductPositive(p2, v2 - v1);
      assert (p1 - p2) * v1 > 0.0;
      FactorPositive(p1 - p2, v1);
    }
  }

  lemma ProductPositive(a: real, b: real)
    requires 0.0 < a && 0.0 < b
    ensures 0.0 < a * b
  {
  }

  /** A product with a positive factor is positive only if the other factor is. */
  lemma FactorPositive(a: real, b: real)
    requires 0.0 < b && 0.0 < a * b
    ensures 0.0 < a
  {
    assert a == (a * b) / b;
  }

  /** Dividing by a positive number keeps the strict order. */
  lemma DivideStrictlyMonotone(a: real, b: real, d: real)
    requires a < b && 0.0 < d
    ensures a / d < b / d
  {
    assert (b - a) / d > 0.0;
    assert b / d - a / d == (b - a) / d;
  }

  lemma ProductNonNegative(a: real, b: real)
    requires 0.0 <= a && 0.0 <= b
    ensures 0.0 <= a * b
  {
  }

  /** A product with a positive factor is non-negative only if the other factor is. */
  lemma FactorNonNegative(a: real, b: real)
    requires 0.0 < b && 0.0 <= a * b
    ensures 0.0 <= a
  {
    assert a == (a * b) / b;
  }

  /** Dividing by a positive number keeps the order. */
  lemma DivideMonotone(a: real, b: real, d: real)
    requires a <= b && 0.0 < d
    ensures a / d <= b / d
  {
    assert (b - a) / d >= 0.0;
    assert b / d - a / d == (b - a) / d;
  }

  /** Within the slider ranges (100 to 500 K, 0.1 to 2.0 L, 0.1 to 2.0 mol) the
      displayed pressure lies between 0.4105 and 821 atm. */
  lemma PressureBounds(moles: real, temperature: real, volume: real)
    requires 0.1 <= moles <= 2.0 && 100.0 <= temperature <= 500.0 && 0.1 <= volume <= 2.0
    ensures 0.4105 <= Pressure(moles, temperature, volume) <= 821.0
  {
    var a := moles * R * temperature;
    assert 0.821 <= a <= 82.1 by {
      assert 10.0 <= moles * temperature <= 1000.0 by {
        ProductNonNegative(moles - 0.1, temperature);
        ProductNonNegative(2.0 - moles, temperature);
        ProductNonNegative(moles, temperature - 100.0);
        ProductNonNegative(moles, 500.0 - temperature);
      }
      assert a == R * (moles * temperature);
    }
    var p := Pressure(moles, temperature, volume);
    assert p * volume == a;
    // p * volume == a, so p = a / volume is squeezed between 0.821 / 2.0 and 82.1 / 0.1.
    assert 0.0 <= p by {
      DivideMonotone(0.0, a, volume);
    }
    assert (p - 0.4105) * volume >= 0.0 by {
      ProductNonNegative(p, 2.0 - volume);
    }
    FactorNonNegative(p - 0.4105, volume);
    assert (821.0 - p) * volume >= 0.0 by {
      ProductNonNegative(821.0, volume - 0.1);
    }
    FactorNonNegative(821.0 - p, volume);
  }
}
