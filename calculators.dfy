/** Calculators over the lookup interface: the thermal stress figure of merit, the thermal
    mismatch stress of two bonded layers under a heat flux, and the units consistency check.

    The calculators read a material through `get_value`. They take the material's dictionary
    (for the membership checks) and its `get_value` as a function, so what is proved here holds
    for any lookup; the `Material` class passes its own (and builds its on-demand figure of
    merit on them).
 */
module Calculators {
  import opened PyValues

  /** `material.get_value(propertyname, p2val, parameter2, parameter1, tolerance=..., method=...)`. */
  type Lookup = (string, Option<real>, string, string, real, string) -> Result<Val>

  // ---------------------------------------------------------------------------------------
  // Thermal stress figure of merit

  /** The (property, parameter) pairs the figure of merit needs, in the order it reads them:
      strength, conductivity, expansion, Poisson's ratio, Young's modulus. */
  function FomInputs(): seq<(string, string)> {
    [("Ultimate Tensile Strength", "Ultimate Tensile Strength"),
     ("Thermal Conductivity", "Thermal Conductivity"),
     ("Coefficient of Thermal Expansion", "Coefficient of Thermal Expansion"),
     ("Elasticity", "Poisson's Ratio"),
     ("Elasticity", "Young's Modulus")]
  }

  /** A pair is present: the property is in the material and `parameter in property` holds. */
  predicate Present(md: ODict<string, Val>, pair: (string, string)) {
    HasKey(md, pair.0) && Contains(Get(md, pair.0), pair.1) == Ok(true)
  }

  /** The assertion loop: every pair must be present; the first absent one fails. */
  function Presence(md: ODict<string, Val>, pairs: seq<(string, string)>): (r: Result<()>)
    ensures r.Ok? <==> forall i :: 0 <= i < |pairs| ==> Present(md, pairs[i])
    ensures r.Err? ==> r.error == AssertionError || r.error == TypeError
    decreases |pairs|
  {
    if |pairs| == 0 then Ok(())
    else if !HasKey(md, pairs[0].0) then Err(AssertionError)
    else
      match Contains(Get(md, pairs[0].0), pairs[0].1)
      case Err(e) => Err(e)
      case Ok(found) =>
        if !found then Err(AssertionError)
        else
          var rest := Presence(md, pairs[1..]);
          assert forall i :: 1 <= i < |pairs| ==> pairs[i] == pairs[1..][i - 1];
          rest
  }

  /** One input: `get_value(property, temperature, 'Temperature', parameter)` with the default
      tolerance (100) and method (linear). */
  function FomLookup(get: Lookup, t: Option<real>, pair: (string, string)): Result<Val> {
    get(pair.0, t, "Temperature", pair.1, 100.0, "linear")
  }

  /** The lookup loop: all inputs in order, or the first failure. */
  function Lookups(get: Lookup, t: Option<real>, pairs: seq<(string, string)>): (r: Result<seq<Val>>)
    ensures r.Ok? <==> forall i :: 0 <= i < |pairs| ==> FomLookup(get, t, pairs[i]).Ok?
    ensures r.Ok? ==> |r.value| == |pairs| && forall i :: 0 <= i < |pairs| ==> Ok(r.value[i]) == FomLookup(get, t, pairs[i])
    ensures forall i :: (0 <= i < |pairs| && FomLookup(get, t, pairs[i]).Err? &&
      (forall j :: 0 <= j < i ==> FomLookup(get, t, pairs[j]).Ok?)) ==> r == Err(FomLookup(get, t, pairs[i]).error)
    decreases |pairs|
  {
    if |pairs| == 0 then Ok([])
    else
      match FomLookup(get, t, pairs[0])
      case Err(e) => Err(e)
      case Ok(v) =>
        var rest := Lookups(get, t, pairs[1..]);
        assert forall i :: 1 <= i < |pairs| ==> pairs[i] == pairs[1..][i - 1];
        match rest
        case Err(e) => Err(e)
        case Ok(vs) => Ok([v] + vs)
  }

  /** `M = uts * k * (1 - nu) / (alpha * E)` on the looked-up values: any operand that is not a
      number makes Python raise `TypeError`, a zero denominator `ZeroDivisionError`. */
  function Figure(uts: Val, k: Val, alpha: Val, nu: Val, e: Val): (r: Result<real>)
    ensures r.Ok? <==> uts.Num? && k.Num? && alpha.Num? && nu.Num? && e.Num? && alpha.r * e.r != 0.0
    ensures !(uts.Num? && k.Num? && alpha.Num? && nu.Num? && e.Num?) ==> r == Err(TypeError)
    ensures r.Ok? ==> r.value * (alpha.r * e.r) == uts.r * k.r * (1.0 - nu.r)
  {
    if !(uts.Num? && k.Num? && alpha.Num? && nu.Num? && e.Num?) then Err(TypeError)
    else Merit(uts.r, k.r, alpha.r, nu.r, e.r)
  }

  /** The formula on numbers. */
  function Merit(uts: real, k: real, alpha: real, nu: real, e: real): (r: Result<real>)
    ensures r.Ok? <==> alpha * e != 0.0
    ensures r.Ok? ==> r.value * (alpha * e) == uts * k * (1.0 - nu)
  {
    if alpha * e == 0.0 then Err(ZeroDivisionError) else Ok(uts * k * (1.0 - nu) / (alpha * e))
  }

  /** `thermal_stress_fom(material, temperature)`. */
  function Fom(md: ODict<string, Val>, get: Lookup, t: Option<real>): (r: Result<real>)
    // every pair is checked before any lookup is made
    ensures Presence(md, FomInputs()).Err? ==> r == Err(Presence(md, FomInputs()).error)
    ensures r.Ok? ==> forall i :: 0 <= i < 5 ==> Present(md, FomInputs()[i]) && FomLookup(get, t, FomInputs()[i]).Ok?
    ensures Presence(md, FomInputs()).Ok? && Lookups(get, t, FomInputs()).Err? ==> r == Err(Lookups(get, t, FomInputs()).error)
    ensures r.Ok? ==> var vs := Lookups(get, t, FomInputs()).value;
      r == Figure(vs[0], vs[1], vs[2], vs[3], vs[4])
  {
    var _ :- Presence(md, FomInputs());
    var vs :- Lookups(get, t, FomInputs());
    Figure(vs[0], vs[1], vs[2], vs[3], vs[4])
  }

  /** `thermal_stress_fom` as written: the assertion loop over the pairs, the loop appending
      each looked-up value, then the formula. */
  method ThermalStressFom(md: ODict<string, Val>, get: Lookup, t: Option<real>) returns (r: Result<real>)
    ensures r == Fom(md, get, t)
  {
    var checked := CheckInputs(md, FomInputs());
    if checked.Err? {
      return Err(checked.error);
    }
    var variables := ReadInputs(get, t, FomInputs());
    if variables.Err? {
      return Err(variables.error);
    }
    var vs := variables.value;
    r := Figure(vs[0], vs[1], vs[2], vs[3], vs[4]);
  }

  /** The assertion loop: for each pair, `assert p[0] in material` then
      `assert p[1] in material[p[0]]`. */
  method CheckInputs(md: ODict<string, Val>, pairs: seq<(string, string)>) returns (r: Result<()>)
    ensures r == Presence(md, pairs)
  {
    var i := 0;
    while i < |pairs|
      invariant 0 <= i <= |pairs|
      invariant Presence(md, pairs) == Presence(md, pairs[i..])
    {
      assert pairs[i..][0] == pairs[i] && pairs[i..][1..] == pairs[i + 1..];
      if !HasKey(md, pairs[i].0) {
        return Err(AssertionError);
      }
      var found := Contains(Get(md, pairs[i].0), pairs[i].1);
      if found.Err? {
        return Err(found.error);
      }
      if !found.value {
        return Err(AssertionError);
      }
      i := i + 1;
    }
    return Ok(());
  }

  /** The lookup loop: `variables.append(material.get_value(...))` for each pair; a failing
      lookup is re-raised. */
  method ReadInputs(get: Lookup, t: Option<real>, pairs: seq<(string, string)>) returns (r: Result<seq<Val>>)
    ensures r == Lookups(get, t, pairs)
  {
    var variables: seq<Val> := [];
    var i := 0;
    while i < |pairs|
      invariant 0 <= i <= |pairs| && |variables| == i
      invariant forall j :: 0 <= j < i ==> FomLookup(get, t, pairs[j]) == Ok(variables[j])
    {
      var v := FomLookup(get, t, pairs[i]);
      if v.Err? {
        return Err(v.error);
      }
      variables := variables + [v.value];
      i := i + 1;
    }
    var all := Lookups(get, t, pairs);
    assert all.Ok? && |all.value| == |variables|;
    assert forall j :: 0 <= j < |pairs| ==> all.value[j] == variables[j];
    assert all.value == variables;
    return Ok(variables);
  }

  /** When all five inputs are numbers and the denominator is not zero, the figure of merit is
      the documented formula; a zero expansion or modulus is a `ZeroDivisionError`. */
  lemma FomFormula(md: ODict<string, Val>, get: Lookup, t: Option<real>, uts: real, k: real, alpha: real, nu: real, e: real)
    requires forall i :: 0 <= i < 5 ==> Present(md, FomInputs()[i])
    requires FomLookup(get, t, FomInputs()[0]) == Ok(Num(uts)) && FomLookup(get, t, FomInputs()[1]) == Ok(Num(k))
    requires FomLookup(get, t, FomInputs()[2]) == Ok(Num(alpha)) && FomLookup(get, t, FomInputs()[3]) == Ok(Num(nu))
    requires FomLookup(get, t, FomInputs()[4]) == Ok(Num(e))
    ensures alpha * e != 0.0 ==> Fom(md, get, t) == Ok(uts * k * (1.0 - nu) / (alpha * e))
    ensures alpha * e == 0.0 ==> Fom(md, get, t) == Err(ZeroDivisionError)
  {
    var vs := Lookups(get, t, FomInputs());
    var expected := [Num(uts), Num(k), Num(alpha), Num(nu), Num(e)];
    assert forall i :: 0 <= i < 5 ==> FomLookup(get, t, FomInputs()[i]) == Ok(expected[i]);
    assert vs.Ok? && |vs.value| == 5;
    assert forall i :: 0 <= i < 5 ==> vs.value[i] == expected[i];
    assert vs.value == expected;
    assert Presence(md, FomInputs()).Ok?;
    assert Fom(md, get, t) == Figure(Num(uts), Num(k), Num(alpha), Num(nu), Num(e));
    FigureOfNumbers(uts, k, alpha, nu, e);
  }

  lemma FigureOfNumbers(uts: real, k: real, alpha: real, nu: real, e: real)
    ensures alpha * e != 0.0 ==> Figure(Num(uts), Num(k), Num(alpha), Num(nu), Num(e)) == Ok(uts * k * (1.0 - nu) / (alpha * e))
    ensures alpha * e == 0.0 ==> Figure(Num(uts), Num(k), Num(alpha), Num(nu), Num(e)) == Err(ZeroDivisionError)
  {
  }

  // ---------------------------------------------------------------------------------------
  // Thermal mismatch stress

  /** The fixed inputs of `thermal_missmatch_stress`: layer thicknesses, incident heat flux,
      heat transfer coefficient, coolant and reference temperatures. */
  datatype Load = Load(t1: real, t2: real, q: real, h: real, coolant: real, reference: real)

  /** What one pass reads and computes: expansion coefficients, Poisson's ratios, moduli and
      conductivities of the two layers, and the layers' mean temperatures. */
  datatype Pass = Pass(a1: Val, a2: Val, nu1: Val, nu2: Val, e1: Val, e2: Val, k1: Val, k2: Val,
                       t1mean: real, t2mean: real)

  /** `material.get_value(property, T, 'Temperature', parameter, method='linear',
      tolerance=200)`. */
  function Look(get: Lookup, propertyname: string, temperature: real, parameter1: string): Result<Val> {
    get(propertyname, Some(temperature), "Temperature", parameter1, 200.0, "linear")
  }

  /** `x / y` on reals. */
  function Div(x: real, y: real): (r: Result<real>)
    ensures y == 0.0 <==> r == Err(ZeroDivisionError)
    ensures r.Ok? ==> r.value * y == x
  {
    if y == 0.0 then Err(ZeroDivisionError) else Ok(x / y)
  }

  /** The mean temperatures of the two layers, evaluated term by term as Python does:
      `q/h` first, then the half-layer drop in layer 1, then the drops for layer 2. */
  function MeanTemperatures(load: Load, k1: Val, k2: Val): (r: Result<(real, real)>)
    ensures r.Ok? <==> load.h != 0.0 && k1.Num? && k1.r != 0.0 && k2.Num? && k2.r != 0.0
    ensures load.h == 0.0 ==> r == Err(ZeroDivisionError)
    ensures load.h != 0.0 && !k1.Num? ==> r == Err(TypeError)
  {
    if load.h == 0.0 then Err(ZeroDivisionError)
    else if !k1.Num? then Err(TypeError)
    else if k1.r == 0.0 then Err(ZeroDivisionError)
    else if !k2.Num? then Err(TypeError)
    else if k2.r == 0.0 then Err(ZeroDivisionError)
    else Ok(Means(load, k1.r, k2.r))
  }

  /** `T1mean = Tc + q/h + q*t1/(2*k1)` and `T2mean = Tc + q/h + q*t1/k1 + q*t2/(2*k2)`. */
  function Means(load: Load, k1: real, k2: real): (real, real)
    requires load.h != 0.0 && k1 != 0.0 && k2 != 0.0
  {
    var film := load.q / load.h;
    (load.coolant + film + load.q * load.t1 / (2.0 * k1),
     load.coolant + film + load.q * load.t1 / k1 + load.q * load.t2 / (2.0 * k2))
  }

  /** Under a positive heat flux through positive thicknesses, coefficient and conductivities,
      both layers are hotter than the coolant and the far layer is hotter than the near one:
      the difference is the drop across the second half of layer 1 and the first half of
      layer 2. */
  lemma MeansOrdered(load: Load, k1: real, k2: real)
    requires load.q > 0.0 && load.h > 0.0 && load.t1 > 0.0 && load.t2 > 0.0 && k1 > 0.0 && k2 > 0.0
    ensures MeanTemperatures(load, Num(k1), Num(k2)).Ok?
    ensures var m := MeanTemperatures(load, Num(k1), Num(k2)).value;
      load.coolant < m.0 < m.1 &&
      m.1 - m.0 == load.q * load.t1 / (2.0 * k1) + load.q * load.t2 / (2.0 * k2)
  {
    var q, t1, t2 := load.q, load.t1, load.t2;
    assert MeanTemperatures(load, Num(k1), Num(k2)) == Ok(Means(load, k1, k2));
    Halves(q * t1, k1);
    PositiveQuotient(q, load.h);
    PositiveQuotient(q * t1, 2.0 * k1);
    PositiveQuotient(q * t2, 2.0 * k2);
  }

  lemma Halves(x: real, k: real)
    requires k > 0.0
    ensures x / k == x / (2.0 * k) + x / (2.0 * k)
  {
  }

  lemma PositiveQuotient(x: real, y: real)
    requires y > 0.0
    ensures x > 0.0 ==> x / y > 0.0
  {
  }

  /** The eight reads of one pass at temperatures `T1`, `T2`, in the order the loop body makes
      them: expansion (dependent name `'auto'`), Poisson's ratio, Young's modulus and
      conductivity, each for layer 1 then layer 2. */
  function PassReads(get1: Lookup, get2: Lookup, temps: (real, real)): (looks: seq<Result<Val>>)
    ensures |looks| == 8
  {
    [Look(get1, "Coefficient of Thermal Expansion", temps.0, "auto"),
     Look(get2, "Coefficient of Thermal Expansion", temps.1, "auto"),
     Look(get1, "Elasticity", temps.0, "Poisson's Ratio"),
     Look(get2, "Elasticity", temps.1, "Poisson's Ratio"),
     Look(get1, "Elasticity", temps.0, "Young's Modulus"),
     Look(get2, "Elasticity", temps.1, "Young's Modulus"),
     Look(get1, "Thermal Conductivity", temps.0, "auto"),
     Look(get2, "Thermal Conductivity", temps.1, "auto")]
  }

  /** One pass of the loop: the eight reads, then the mean temperatures from the two
      conductivities. The first read that fails is the pass's error; a pass that succeeds holds
      the values read, in the fields of the same names. */
  function OnePass(get1: Lookup, get2: Lookup, load: Load, temps: (real, real)): (r: Result<Pass>)
    ensures var looks := PassReads(get1, get2, temps);
      forall i :: 0 <= i < 8 && looks[i].Err? && (forall j :: 0 <= j < i ==> looks[j].Ok?) ==>
        r == Err(looks[i].error)
    ensures var looks := PassReads(get1, get2, temps);
      (forall i :: 0 <= i < 8 ==> looks[i].Ok?) ==>
        var means := MeanTemperatures(load, looks[6].value, looks[7].value);
        (means.Err? ==> r == Err(means.error)) &&
        (means.Ok? ==> r == Ok(Pass(looks[0].value, looks[1].value, looks[2].value, looks[3].value,
                                    looks[4].value, looks[5].value, looks[6].value, looks[7].value,
                                    means.value.0, means.value.1)))
    ensures r.Ok? ==> forall i :: 0 <= i < 8 ==> PassReads(get1, get2, temps)[i].Ok?
    ensures r.Ok? ==> MeanTemperatures(load, r.value.k1, r.value.k2) == Ok((r.value.t1mean, r.value.t2mean))
  {
    var looks := PassReads(get1, get2, temps);
    var a1 :- looks[0];
    var a2 :- looks[1];
    var nu1 :- looks[2];
    var nu2 :- looks[3];
    var e1 :- looks[4];
    var e2 :- looks[5];
    var k1 :- looks[6];
    var k2 :- looks[7];
    var means :- MeanTemperatures(load, k1, k2);
    Ok(Pass(a1, a2, nu1, nu2, e1, e2, k1, k2, means.0, means.1))
  }

  /** The temperatures after `n` passes, starting from the coolant temperature for both
      layers; each pass reads the properties at the previous pass's mean temperatures. */
  function Temperatures(get1: Lookup, get2: Lookup, load: Load, n: nat): (r: Result<(real, real)>)
    ensures n == 0 ==> r == Ok((load.coolant, load.coolant))
    ensures n > 0 && Temperatures(get1, get2, load, n - 1).Err? ==> r == Temperatures(get1, get2, load, n - 1)
    ensures n > 0 && r.Ok? ==>
      Temperatures(get1, get2, load, n - 1).Ok? &&
      OnePass(get1, get2, load, Temperatures(get1, get2, load, n - 1).value).Ok? &&
      r.value == (OnePass(get1, get2, load, Temperatures(get1, get2, load, n - 1).value).value.t1mean,
                  OnePass(get1, get2, load, Temperatures(get1, get2, load, n - 1).value).value.t2mean)
  {
    if n == 0 then Ok((load.coolant, load.coolant)) else Advance(get1, get2, load, Temperatures(get1, get2, load, n - 1))
  }

  /** One turn of the loop: a pass at the current temperatures gives the next ones. */
  function Advance(get1: Lookup, get2: Lookup, load: Load, temps: Result<(real, real)>): (r: Result<(real, real)>)
    ensures temps.Err? ==> r == temps
    ensures temps.Ok? ==> var pass := OnePass(get1, get2, load, temps.value);
      (pass.Err? ==> r == Err(pass.error)) &&
      (pass.Ok? ==> r == Ok((pass.value.t1mean, pass.value.t2mean)) &&
                    MeanTemperatures(load, pass.value.k1, pass.value.k2) == r)
  {
    match temps
    case Err(e) => Err(e)
    case Ok(current) =>
      match OnePass(get1, get2, load, current)
      case Err(e) => Err(e)
      case Ok(p) => Ok((p.t1mean, p.t2mean))
  }

  /** The stress from the last pass:
      `(a2*(T2mean - Tref) - a1*(T1mean - Tref)) / ((1 - nu2)*t1/(t2*E2) + (1 - nu1)/E1)`,
      in Python's order of evaluation. */
  function Stress(p: Pass, load: Load): (r: Result<real>)
    ensures r.Ok? ==> p.a1.Num? && p.a2.Num? && p.nu1.Num? && p.nu2.Num? && p.e1.Num? && p.e2.Num?
    ensures !(p.a2.Num? && p.a1.Num? && p.nu2.Num? && p.e2.Num?) ==> r == Err(TypeError)
    ensures r.Ok? ==> load.t2 * p.e2.r != 0.0 && p.e1.r != 0.0
    ensures r.Ok? ==>
      var numerator := p.a2.r * (p.t2mean - load.reference) - p.a1.r * (p.t1mean - load.reference);
      var compliance := (1.0 - p.nu2.r) * load.t1 / (load.t2 * p.e2.r) + (1.0 - p.nu1.r) / p.e1.r;
      compliance != 0.0 && r.value * compliance == numerator
    ensures (p.a1.Num? && p.a2.Num? && p.nu1.Num? && p.nu2.Num? && p.e1.Num? && p.e2.Num? &&
             (load.t2 * p.e2.r == 0.0 || p.e1.r == 0.0)) ==> r == Err(ZeroDivisionError)
    ensures (p.a1.Num? && p.a2.Num? && p.nu1.Num? && p.nu2.Num? && p.e1.Num? && p.e2.Num? &&
             load.t2 * p.e2.r != 0.0 && p.e1.r != 0.0) ==>
      var numerator := p.a2.r * (p.t2mean - load.reference) - p.a1.r * (p.t1mean - load.reference);
      var compliance := (1.0 - p.nu2.r) * load.t1 / (load.t2 * p.e2.r) + (1.0 - p.nu1.r) / p.e1.r;
      (compliance == 0.0 ==> r == Err(ZeroDivisionError)) &&
      (compliance != 0.0 ==> r == Ok(numerator / compliance))
  {
    if !(p.a2.Num? && p.a1.Num? && p.nu2.Num? && p.e2.Num?) then Err(TypeError)
    else
      var numerator := p.a2.r * (p.t2mean - load.reference) - p.a1.r * (p.t1mean - load.reference);
      var d2 :- Div((1.0 - p.nu2.r) * load.t1, load.t2 * p.e2.r);
      if !(p.nu1.Num? && p.e1.Num?) then Err(TypeError)
      else
        var d1 :- Div(1.0 - p.nu1.r, p.e1.r);
        Div(numerator, d2 + d1)
  }

  /** Layers that expand alike and sit at the same mean temperature carry no mismatch stress. */
  lemma NoMismatchNoStress(p: Pass, load: Load)
    requires p.a1 == p.a2 && p.t1mean == p.t2mean && Stress(p, load).Ok?
    ensures Stress(p, load) == Ok(0.0)
  {
    var numerator := p.a2.r * (p.t2mean - load.reference) - p.a1.r * (p.t1mean - load.reference);
    assert numerator == 0.0;
    var compliance := (1.0 - p.nu2.r) * load.t1 / (load.t2 * p.e2.r) + (1.0 - p.nu1.r) / p.e1.r;
    ZeroFactor(Stress(p, load).value, compliance);
  }

  lemma ZeroFactor(x: real, c: real)
    requires c != 0.0 && x * c == 0.0
    ensures x == 0.0
  {
  }

  /** `thermal_missmatch_stress`: three passes, then the stress from the third pass's values. */
  function Mismatch(get1: Lookup, get2: Lookup, load: Load): (r: Result<real>)
    ensures Temperatures(get1, get2, load, 2).Err? ==> r == Err(Temperatures(get1, get2, load, 2).error)
    ensures r.Ok? ==> exists p :: OnePass(get1, get2, load, Temperatures(get1, get2, load, 2).value) == Ok(p) && Stress(p, load) == r
    ensures Temperatures(get1, get2, load, 2).Ok? ==>
      var third := OnePass(get1, get2, load, Temperatures(get1, get2, load, 2).value);
      (third.Err? ==> r == Err(third.error)) && (third.Ok? ==> r == Stress(third.value, load))
  {
    var temps :- Temperatures(get1, get2, load, 2);
    var p :- OnePass(get1, get2, load, temps);
    Stress(p, load)
  }

  /** When the third pass reads numbers and no divisor vanishes, the mismatch stress is the
      documented `(a2*(T2mean - Tref) - a1*(T1mean - Tref)) / ((1 - nu2)*t1/(t2*E2) + (1 - nu1)/E1)`,
      with the third pass's mean temperatures. */
  lemma MismatchFormula(get1: Lookup, get2: Lookup, load: Load, p: Pass)
    requires Temperatures(get1, get2, load, 2).Ok?
    requires OnePass(get1, get2, load, Temperatures(get1, get2, load, 2).value) == Ok(p)
    requires p.a1.Num? && p.a2.Num? && p.nu1.Num? && p.nu2.Num? && p.e1.Num? && p.e2.Num?
    requires load.t2 * p.e2.r != 0.0 && p.e1.r != 0.0
    requires (1.0 - p.nu2.r) * load.t1 / (load.t2 * p.e2.r) + (1.0 - p.nu1.r) / p.e1.r != 0.0
    ensures Mismatch(get1, get2, load) ==
      Ok((p.a2.r * (p.t2mean - load.reference) - p.a1.r * (p.t1mean - load.reference)) /
         ((1.0 - p.nu2.r) * load.t1 / (load.t2 * p.e2.r) + (1.0 - p.nu1.r) / p.e1.r))
  {
    assert Mismatch(get1, get2, load) == Stress(p, load);
  }

  /** `thermal_missmatch_stress` as written: a loop of three passes updating `T1`, `T2`, then
      the stress from the last pass's values. */
  method MismatchStress(get1: Lookup, get2: Lookup, thickness1: real, thickness2: real,
                        heatFlux: real, htc: real, coolant: real, reference: real) returns (r: Result<real>)
    ensures r == Mismatch(get1, get2, Load(thickness1, thickness2, heatFlux, htc, coolant, reference))
  {
    var load := Load(thickness1, thickness2, heatFlux, htc, coolant, reference);
    var t1, t2 := coolant, coolant;
    var last := Pass(PyNone, PyNone, PyNone, PyNone, PyNone, PyNone, PyNone, PyNone, coolant, coolant);
    var iteration := 0;
    while iteration < 3
      invariant 0 <= iteration <= 3
      invariant Temperatures(get1, get2, load, iteration) == Ok((t1, t2))
      invariant iteration > 0 ==> (Temperatures(get1, get2, load, iteration - 1).Ok? &&
        OnePass(get1, get2, load, Temperatures(get1, get2, load, iteration - 1).value) == Ok(last))
    {
      var p := PassAt(get1, get2, load, t1, t2);
      if p.Err? {
        if iteration < 2 {
          assert Temperatures(get1, get2, load, iteration + 1) == Err(p.error);
          assert Temperatures(get1, get2, load, 2) == Advance(get1, get2, load, Temperatures(get1, get2, load, 1));
        }
        return Err(p.error);
      }
      last := p.value;
      t1, t2 := last.t1mean, last.t2mean;
      iteration := iteration + 1;
    }
    r := Stress(last, load);
  }

  /** The body of one pass: the eight lookups in the order the generators run them, then the
      mean temperatures. */
  method PassAt(get1: Lookup, get2: Lookup, load: Load, t1: real, t2: real) returns (r: Result<Pass>)
    ensures r == OnePass(get1, get2, load, (t1, t2))
  {
    var a1 := Look(get1, "Coefficient of Thermal Expansion", t1, "auto");
    if a1.Err? { return Err(a1.error); }
    var a2 := Look(get2, "Coefficient of Thermal Expansion", t2, "auto");
    if a2.Err? { return Err(a2.error); }
    var nu1 := Look(get1, "Elasticity", t1, "Poisson's Ratio");
    if nu1.Err? { return Err(nu1.error); }
    var nu2 := Look(get2, "Elasticity", t2, "Poisson's Ratio");
    if nu2.Err? { return Err(nu2.error); }
    var e1 := Look(get1, "Elasticity", t1, "Young's Modulus");
    if e1.Err? { return Err(e1.error); }
    var e2 := Look(get2, "Elasticity", t2, "Young's Modulus");
    if e2.Err? { return Err(e2.error); }
    var k1 := Look(get1, "Thermal Conductivity", t1, "auto");
    if k1.Err? { return Err(k1.error); }
    var k2 := Look(get2, "Thermal Conductivity", t2, "auto");
    if k2.Err? { return Err(k2.error); }
    var means := MeanTemperatures(load, k1.value, k2.value);
    if means.Err? { return Err(means.error); }
    r := Ok(Pass(a1.value, a2.value, nu1.value, nu2.value, e1.value, e2.value, k1.value, k2.value,
                 means.value.0, means.value.1));
  }

  // ---------------------------------------------------------------------------------------
  // Units consistency

  /** The flattened units of the parameters: `p["Units"]` iterated, parameter by parameter. */
  function AllUnits(parameters: seq<Val>): (r: Result<seq<Val>>)
    ensures r.Ok? <==> forall i :: 0 <= i < |parameters| ==>
      Index(parameters[i], "Units").Ok? && Iter(Index(parameters[i], "Units").value).Ok?
    decreases |parameters|
  {
    if |parameters| == 0 then Ok([])
    else
      var units :- Index(parameters[0], "Units");
      var first :- Iter(units);
      var rest :- AllUnits(parameters[1..]);
      assert forall i :: 1 <= i < |parameters| ==> parameters[i] == parameters[1..][i - 1];
      Ok(first + rest)
  }

  /** The comprehension appends each parameter's units after those of the parameters before
      it; the first parameter whose `Units` is missing or not iterable gives the error. */
  lemma {:induction false} AllUnitsSnoc(parameters: seq<Val>, p: Val)
    ensures AllUnits(parameters + [p]) ==
      match AllUnits(parameters)
      case Err(e) => Err(e)
      case Ok(before) =>
        match Index(p, "Units")
        case Err(e) => Err(e)
        case Ok(units) =>
          match Iter(units)
          case Err(e) => Err(e)
          case Ok(items) => Ok(before + items)
    decreases |parameters|
  {
    if |parameters| > 0 {
      assert (parameters + [p])[0] == parameters[0];
      assert (parameters + [p])[1..] == parameters[1..] + [p];
      AllUnitsSnoc(parameters[1..], p);
      match Index(parameters[0], "Units")
      case Err(_) =>
      case Ok(units0) =>
        match Iter(units0)
        case Err(_) =>
        case Ok(first) =>
          match AllUnits(parameters[1..])
          case Err(_) =>
          case Ok(middle) =>
            assert AllUnits(parameters) == Ok(first + middle);
            match Index(p, "Units")
            case Err(_) =>
            case Ok(units) =>
              match Iter(units)
              case Err(_) =>
              case Ok(items) =>
                assert AllUnits(parameters[1..] + [p]) == Ok(middle + items);
                assert first + (middle + items) == (first + middle) + items;
    } else {
      assert parameters + [p] == [p] && [p][1..] == [];
      match Index(p, "Units")
      case Err(_) =>
      case Ok(units) =>
        match Iter(units)
        case Err(_) =>
        case Ok(items) =>
          assert AllUnits([p][1..]) == Ok([]);
          assert AllUnits([p]) == Ok(items + []);
          assert items + [] == items && [] + items == items;
    }
  }

  /** `check_units(parameters)`: every element must be a `MaterialParameter`, and the result
      compares the flattened units with themselves shifted by one. */
  function CheckUnits(parameters: seq<Val>): (r: Result<bool>)
    ensures (exists i :: 0 <= i < |parameters| && !parameters[i].Param?) ==> r == Err(AssertionError)
    ensures (forall i :: 0 <= i < |parameters| ==> parameters[i].Param?) ==>
      (AllUnits(parameters).Ok? ==> r.Ok?) && (AllUnits(parameters).Err? ==> r == Err(AllUnits(parameters).error))
    ensures r.Ok? ==> (AllUnits(parameters).Ok? &&
      (r.value <==> forall i, j :: 0 <= i < j < |AllUnits(parameters).value| ==>
         AllUnits(parameters).value[i] == AllUnits(parameters).value[j]))
  {
    if exists i :: 0 <= i < |parameters| && !parameters[i].Param? then Err(AssertionError)
    else
      var units :- AllUnits(parameters);
      if |units| == 0 then Ok(true)
      else
        ShiftedEqual(units);
        Ok(units[1..] == units[..|units| - 1])
  }

  /** A sequence equals itself shifted by one exactly when all its elements are equal
      (vacuously so for zero or one element). */
  lemma {:induction false} ShiftedEqual<T>(s: seq<T>)
    requires |s| > 0
    ensures s[1..] == s[..|s| - 1] <==> forall i, j :: 0 <= i < j < |s| ==> s[i] == s[j]
  {
    if s[1..] == s[..|s| - 1] {
      forall j | 0 <= j < |s| ensures s[j] == s[0] {
        ChainToFirst(s, j);
      }
    }
    if forall i, j :: 0 <= i < j < |s| ==> s[i] == s[j] {
      assert |s[1..]| == |s[..|s| - 1]|;
      forall k | 0 <= k < |s| - 1 ensures s[1..][k] == s[..|s| - 1][k] {
        assert s[k] == s[k + 1];
      }
    }
  }

  lemma {:induction false} ChainToFirst<T>(s: seq<T>, j: nat)
    requires 0 < |s| && j < |s| && s[1..] == s[..|s| - 1]
    ensures s[j] == s[0]
  {
    if j > 0 {
      ChainToFirst(s, j - 1);
      assert s[1..][j - 1] == s[..|s| - 1][j - 1];
    }
  }
}
