/** Energy and power units of src/sensors/units.rs and the scale conversion
    between them. Rust's `f64` is modelled by `real`. */
module Units {
  import opened Wrappers

  datatype EnergyUnit = Joule | MilliJoule | MicroJoule

  datatype PowerUnit = MegaWatt | KiloWatt | Watt | MilliWatt | MicroWatt

  /** `format!("{:?}", u)` for the derived `Debug` impl: the variant name. */
  function EnergyDebugName(u: EnergyUnit): string {
    match u
    case Joule => "Joule"
    case MilliJoule => "MilliJoule"
    case MicroJoule => "MicroJoule"
  }

  function PowerDebugName(u: PowerUnit): string {
    match u
    case MegaWatt => "MegaWatt"
    case KiloWatt => "KiloWatt"
    case Watt => "Watt"
    case MilliWatt => "MilliWatt"
    case MicroWatt => "MicroWatt"
  }

  /** `PartialEq for EnergyUnit`: equal Debug names. */
  predicate EnergyEq(a: EnergyUnit, b: EnergyUnit) {
    EnergyDebugName(a) == EnergyDebugName(b)
  }

  /** `PartialEq for PowerUnit`: equal Debug names. */
  predicate PowerEq(a: PowerUnit, b: PowerUnit) {
    PowerDebugName(a) == PowerDebugName(b)
  }

  /** Comparing Debug names is exactly variant identity. */
  lemma EnergyEqIsIdentity(a: EnergyUnit, b: EnergyUnit)
    ensures EnergyEq(a, b) <==> a == b
  {
    if a != b {
      assert EnergyDebugName(a)[2] != EnergyDebugName(b)[2] || |EnergyDebugName(a)| != |EnergyDebugName(b)|;
    }
  }

  lemma PowerEqIsIdentity(a: PowerUnit, b: PowerUnit)
    ensures PowerEq(a, b) <==> a == b
  {
    if a != b {
      assert PowerDebugName(a)[0] != PowerDebugName(b)[0] || PowerDebugName(a)[2] != PowerDebugName(b)[2]
        || |PowerDebugName(a)| != |PowerDebugName(b)|;
    }
  }

  /** The unit orders of `to`, coarsest first. */
  const ENERGY_ORDER: seq<EnergyUnit> := [Joule, MilliJoule, MicroJoule]
  const POWER_ORDER: seq<PowerUnit> := [MegaWatt, KiloWatt, Watt, MilliWatt, MicroWatt]

  /** `Iterator::position`: the first index whose element satisfies `p`. */
  method Position<T>(order: seq<T>, p: T -> bool) returns (r: Option<nat>)
    ensures r.Some? ==> r.value < |order| && p(order[r.value])
    ensures r.Some? ==> forall i :: 0 <= i < r.value ==> !p(order[i])
    ensures r.None? ==> forall i :: 0 <= i < |order| ==> !p(order[i])
  {
    var i := 0;
    while i < |order|
      invariant 0 <= i <= |order|
      invariant forall j :: 0 <= j < i ==> !p(order[j])
    {
      if p(order[i]) {
        return Some(i);
      }
      i := i + 1;
    }
    return None;
  }

  /** Index of `u` in ENERGY_ORDER. */
  function EnergyIndex(u: EnergyUnit): (i: nat)
    ensures i < |ENERGY_ORDER| && ENERGY_ORDER[i] == u
  {
    match u
    case Joule => 0
    case MilliJoule => 1
    case MicroJoule => 2
  }

  /** Index of `u` in POWER_ORDER. */
  function PowerIndex(u: PowerUnit): (i: nat)
    ensures i < |POWER_ORDER| && POWER_ORDER[i] == u
  {
    match u
    case MegaWatt => 0
    case KiloWatt => 1
    case Watt => 2
    case MilliWatt => 3
    case MicroWatt => 4
  }

  /** `order.iter().position(|x| x == unit).unwrap()` for energy units: the
      search by Debug-name equality finds the unit's own index, so the
      `unwrap` never panics. */
  method EnergyPosition(u: EnergyUnit) returns (pos: nat)
    ensures pos == EnergyIndex(u)
  {
    var r := Position(ENERGY_ORDER, x => EnergyEq(x, u));
    EnergyEqIsIdentity(ENERGY_ORDER[EnergyIndex(u)], u);
    assert r.Some?;
    EnergyEqIsIdentity(ENERGY_ORDER[r.value], u);
    pos := r.value;
  }

  /** The same search for power units. */
  method PowerPosition(u: PowerUnit) returns (pos: nat)
    ensures pos == PowerIndex(u)
  {
    var r := Position(POWER_ORDER, x => PowerEq(x, u));
    PowerEqIsIdentity(POWER_ORDER[PowerIndex(u)], u);
    assert r.Some?;
    PowerEqIsIdentity(POWER_ORDER[r.value], u);
    pos := r.value;
  }

  function Pow1000(k: nat): (p: real)
    ensures p >= 1.0
  {
    if k == 0 then 1.0 else 1000.0 * Pow1000(k - 1)
  }

  /** The factor `to` applies when going from position `ps` to position `pd`:
      ×1000 per step towards finer units, ÷1000 per step towards coarser ones. */
  function Scale(ps: nat, pd: nat): real {
    if pd >= ps then Pow1000(pd - ps) else 1.0 / Pow1000(ps - pd)
  }

  /** Converting there and back multiplies by one. */
  lemma ScaleInverse(ps: nat, pd: nat)
    ensures Scale(ps, pd) * Scale(pd, ps) == 1.0
  {
    if ps < pd {
      assert Scale(ps, pd) * (1.0 / Pow1000(pd - ps)) == 1.0;
    } else if pd < ps {
      assert (1.0 / Pow1000(ps - pd)) * Scale(pd, ps) == 1.0;
    }
  }

  /** Converting a measure one way and back returns it unchanged. */
  lemma ScaleRoundTrip(measure: real, ps: nat, pd: nat)
    ensures (measure * Scale(ps, pd)) * Scale(pd, ps) == measure
  {
    ScaleInverse(ps, pd);
    assert (measure * Scale(ps, pd)) * Scale(pd, ps) == measure * (Scale(ps, pd) * Scale(pd, ps));
  }

  /** The two `for` loops of `to` that build `mult`. */
  method Multiplier(posSource: nat, posDest: nat) returns (mult: real)
    ensures posDest >= posSource ==> mult == Pow1000(posDest - posSource)
    ensures posDest < posSource ==> mult * Pow1000(posSource - posDest) == 1.0
    ensures mult == Scale(posSource, posDest)
  {
    mult := 1.0;
    if posDest > posSource {
      var i := 0;
      while i < posDest - posSource
        invariant 0 <= i <= posDest - posSource
        invariant mult == Pow1000(i)
      {
        mult := mult * 1000.0;
        i := i + 1;
      }
    } else if posDest < posSource {
      var i := 0;
      while i < posSource - posDest
        invariant 0 <= i <= posSource - posDest
        invariant mult * Pow1000(i) == 1.0
      {
        mult := mult / 1000.0;
        i := i + 1;
      }
      assert mult == 1.0 / Pow1000(posSource - posDest);
    }
  }

  /** The arithmetic shared by both `to` functions: `measure * mult` undoes a
      division by 1000^(ps - pd). */
  lemma ScaledMeasure(measure: real, mult: real, ps: nat, pd: nat)
    requires pd < ps ==> mult * Pow1000(ps - pd) == 1.0
    ensures pd < ps ==> (measure * mult) * Pow1000(ps - pd) == measure
  {
    if pd < ps {
      var k := Pow1000(ps - pd);
      calc {
        (measure * mult) * k;
        measure * (mult * k);
        { assert mult * k == 1.0; }
        measure * 1.0;
        measure;
      }
    }
  }

  /** `EnergyUnit::to`: always `Ok`, scaled by a power of 1000. */
  method EnergyTo(measure: real, source: EnergyUnit, dest: EnergyUnit) returns (r: Result<real, string>)
    ensures r.Ok?
    ensures EnergyIndex(dest) > EnergyIndex(source) ==>
      r.value == measure * Pow1000(EnergyIndex(dest) - EnergyIndex(source))
    ensures EnergyIndex(dest) < EnergyIndex(source) ==>
      r.value * Pow1000(EnergyIndex(source) - EnergyIndex(dest)) == measure
    ensures source == dest ==> r.value == measure
    ensures r.value == measure * Scale(EnergyIndex(source), EnergyIndex(dest))
  {
    var ps := EnergyPosition(source);
    var pd := EnergyPosition(dest);
    var mult := Multiplier(ps, pd);
    r := Ok(measure * mult);
    ScaledMeasure(measure, mult, ps, pd);
  }


  /** `PowerUnit::to`: always `Ok`, scaled by a power of 1000. */
  method PowerTo(measure: real, source: PowerUnit, dest: PowerUnit) returns (r: Result<real, string>)
    ensures r.Ok?
    ensures PowerIndex(dest) > PowerIndex(source) ==>
      r.value == measure * Pow1000(PowerIndex(dest) - PowerIndex(source))
    ensures PowerIndex(dest) < PowerIndex(source) ==>
      r.value * Pow1000(PowerIndex(source) - PowerIndex(dest)) == measure
    ensures source == dest ==> r.value == measure
    ensures r.value == measure * Scale(PowerIndex(source), PowerIndex(dest))
  {
    var ps := PowerPosition(source);
    var pd := PowerPosition(dest);
    var mult := Multiplier(ps, pd);
    r := Ok(measure * mult);
    ScaledMeasure(measure, mult, ps, pd);
  }


  /** Unit test `kw_equals_1000w`. */
  method KilowattIsThousandWatts() returns (w: real)
    ensures w == 1000.0
  {
    var r := PowerTo(1.0, KiloWatt, Watt);
    w := r.value;
  }

  /** Unit test `kw_equals_0001megawatt`. */
  method KilowattIsThousandthMegawatt() returns (mw: real)
    ensures mw == 0.001
  {
    var r := PowerTo(1.0, KiloWatt, MegaWatt);
    mw := r.value;
  }

  /** Unit test `joule_equals_1000000microjoules`. */
  method JouleIsMillionMicrojoules() returns (uj: real)
    ensures uj == 1000000.0
  {
    var r := EnergyTo(1.0, Joule, MicroJoule);
    assert Pow1000(2) == 1000.0 * Pow1000(1);
    uj := r.value;
  }
}
