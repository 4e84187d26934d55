/** Material properties, material parameters and calculated (polynomial) properties.

    A `MaterialProperty` and a `MaterialParameter` are dictionaries with a `.name` attribute;
    they live inside a material's dictionary as values (`Prop` and `Param`). `Calculated` is a
    plain object holding polynomial coefficients.
 */
module Entities {
  import opened PyValues

  /** `MaterialProperty(name, units, values, source, comments)`: the five entries are set one by
      one on an empty dictionary, so they appear in this order. */
  function NewProperty(name: Val, units: Val, values: Val, source: Val, comments: Val): (p: Val)
    ensures p.Prop? && p.name == name && UniqueKeys(p.entries)
    ensures Keys(p.entries) == ["PropertyName", "DataSource", "Units", "Values", "Comments"]
    ensures Index(p, "PropertyName") == Ok(name) && Index(p, "DataSource") == Ok(source)
    ensures Index(p, "Units") == Ok(units) && Index(p, "Values") == Ok(values)
    ensures Index(p, "Comments") == Ok(comments)
    ensures Index(p, "Name") == Err(KeyError)
  {
    var e := [("PropertyName", name), ("DataSource", source), ("Units", units), ("Values", values), ("Comments", comments)];
    assert e[0].0 == "PropertyName" && e[1].0 == "DataSource" && e[2].0 == "Units";
    assert e[3].0 == "Values" && e[4].0 == "Comments";
    Prop(name, e)
  }

  /** `MaterialProperty()` with every argument left at its default. */
  function DefaultProperty(name: Val): Val {
    NewProperty(name, List([]), List([]), PyNone, PyNone)
  }

  /** `MaterialParameter(name, units, values)`. */
  function NewParameter(name: Val, units: Val, values: Val): (p: Val)
    ensures p.Param? && p.name == name && UniqueKeys(p.entries)
    ensures Keys(p.entries) == ["ParameterName", "Units", "Values"]
    ensures Index(p, "ParameterName") == Ok(name) && Index(p, "Units") == Ok(units)
    ensures Index(p, "Values") == Ok(values)
    ensures Index(p, "Name") == Err(KeyError)
  {
    var e := [("ParameterName", name), ("Units", units), ("Values", values)];
    assert e[0].0 == "ParameterName" && e[1].0 == "Units" && e[2].0 == "Values";
    Param(name, e)
  }

  /** `T ** i` for a natural exponent (`0 ** 0 == 1`, as in Python). */
  function Pow(t: real, i: nat): real {
    if i == 0 then 1.0 else t * Pow(t, i - 1)
  }

  /** The term the loop of `Calculated.value` leaves behind: `value =+ c*T**i` assigns
      `+(c*T**i)` on every pass, so only the last coefficient's term survives. */
  function LastTerm(cs: seq<real>, t: real): (r: real)
    ensures |cs| == 0 ==> r == 0.0
    ensures |cs| > 0 ==> r == Polynomial(cs, t) - PolynomialUpTo(cs, t, |cs| - 1)
  {
    if |cs| == 0 then 0.0 else cs[|cs| - 1] * Pow(t, |cs| - 1)
  }

  /** The polynomial the class documents: `a + b*T + c*T**2 + ...` for `[a, b, c, ...]`. */
  function Polynomial(cs: seq<real>, t: real): (p: real)
    ensures |cs| == 0 ==> p == 0.0
    ensures |cs| == 1 ==> p == cs[0]
  {
    assert |cs| == 1 ==> PolynomialUpTo(cs, t, 1) == PolynomialUpTo(cs, t, 0) + cs[0] * Pow(t, 0);
    PolynomialUpTo(cs, t, |cs|)
  }

  /** The sum of the first `k` terms. */
  function PolynomialUpTo(cs: seq<real>, t: real, k: nat): real
    requires k <= |cs|
  {
    if k == 0 then 0.0 else PolynomialUpTo(cs, t, k - 1) + cs[k - 1] * Pow(t, k - 1)
  }

  /** The same polynomial in Horner form, an independent reference definition. */
  function Horner(cs: seq<real>, t: real): real {
    if |cs| == 0 then 0.0 else cs[0] + t * Horner(cs[1..], t)
  }

  /** Horner's rule computes the documented polynomial. */
  lemma {:induction false} PolynomialIsHorner(cs: seq<real>, t: real)
    ensures Polynomial(cs, t) == Horner(cs, t)
    decreases |cs|
  {
    if |cs| > 0 {
      PolynomialShift(cs, t);
      PolynomialIsHorner(cs[1..], t);
    }
  }

  /** Splitting off the constant term: `P(cs) == cs[0] + T * P(cs[1..])`. */
  lemma PolynomialShift(cs: seq<real>, t: real)
    requires |cs| > 0
    ensures Polynomial(cs, t) == cs[0] + t * Polynomial(cs[1..], t)
  {
    ShiftUpTo(cs, t, |cs|);
  }

  /** The same split for the first `k` terms. */
  lemma {:induction false} ShiftUpTo(cs: seq<real>, t: real, k: nat)
    requires 0 < k <= |cs|
    ensures PolynomialUpTo(cs, t, k) == cs[0] + t * PolynomialUpTo(cs[1..], t, k - 1)
  {
    if k == 1 {
      ShiftOne(cs, t);
    } else {
      ShiftUpTo(cs, t, k - 1);
      ShiftNext(cs, t, k);
    }
  }

  lemma ShiftOne(cs: seq<real>, t: real)
    requires 0 < |cs|
    ensures PolynomialUpTo(cs, t, 1) == cs[0] + t * PolynomialUpTo(cs[1..], t, 0)
  {
    assert PolynomialUpTo(cs, t, 1) == 0.0 + cs[0] * Pow(t, 0);
  }

  lemma ShiftNext(cs: seq<real>, t: real, k: nat)
    requires 1 < k <= |cs|
    requires PolynomialUpTo(cs, t, k - 1) == cs[0] + t * PolynomialUpTo(cs[1..], t, k - 2)
    ensures PolynomialUpTo(cs, t, k) == cs[0] + t * PolynomialUpTo(cs[1..], t, k - 1)
  {
    var rest := cs[1..];
    assert rest[k - 2] == cs[k - 1];
    Regroup(cs[0], t, PolynomialUpTo(rest, t, k - 2), Pow(t, k - 2), cs[k - 1],
            PolynomialUpTo(cs, t, k), PolynomialUpTo(cs, t, k - 1), PolynomialUpTo(rest, t, k - 1), Pow(t, k - 1));
  }

  /** The arithmetic of one shift step, over the values the polynomials unfold to. */
  lemma Regroup(x: real, t: real, a: real, b: real, c: real, whole: real, front: real, rest: real, top: real)
    requires whole == front + c * top && top == t * b
    requires front == x + t * a && rest == a + c * b
    ensures whole == x + t * rest
  {
  }

  /** The `=+` typo is invisible for a constant (one coefficient) and shows for `[1, 1]` at
      `T = 1`: the documented value is 2 and the computed one is 1. */
  lemma LastTermDiffers()
    ensures LastTerm([5.0], 3.0) == Polynomial([5.0], 3.0)
    ensures LastTerm([1.0, 1.0], 1.0) == 1.0 && Polynomial([1.0, 1.0], 1.0) == 2.0
  {
    assert PolynomialUpTo([5.0], 3.0, 1) == 0.0 + 5.0 * Pow(3.0, 0);
    assert PolynomialUpTo([1.0, 1.0], 1.0, 1) == 0.0 + 1.0 * Pow(1.0, 0);
    assert PolynomialUpTo([1.0, 1.0], 1.0, 2) == PolynomialUpTo([1.0, 1.0], 1.0, 1) + 1.0 * Pow(1.0, 1);
  }

  /** `MaterialProperty.Calculated`: a property given by polynomial coefficients. */
  class Calculated {
    var name: Val
    var units: Val
    var coefficients: seq<real>
    var temperaturerange: seq<real>
    var comments: Val

    /** Every argument becomes an attribute of the same name. */
    constructor (name: Val, units: Val, coefficients: seq<real>, temperaturerange: seq<real>, comments: Val)
      ensures this.name == name && this.units == units && this.coefficients == coefficients
      ensures this.temperaturerange == temperaturerange && this.comments == comments
    {
      this.name := name;
      this.units := units;
      this.coefficients := coefficients;
      this.temperaturerange := temperaturerange;
      this.comments := comments;
    }

    /** `Calculated.value(T)` as written: each pass overwrites the running value. */
    method Value(t: real) returns (v: real)
      ensures v == LastTerm(coefficients, t)
    {
      v := 0.0;
      var i := 0;
      while i < |coefficients|
        invariant 0 <= i <= |coefficients|
        invariant v == LastTerm(coefficients[..i], t)
      {
        v := coefficients[i] * Pow(t, i);
        i := i + 1;
        assert coefficients[..i][i - 1] == coefficients[i - 1];
      }
      assert coefficients[..i] == coefficients;
    }

    /** `Calculated.value(T)` as documented: the running value accumulates every term. */
    method PolynomialValue(t: real) returns (v: real)
      ensures v == Polynomial(coefficients, t)
    {
      v := 0.0;
      var i := 0;
      while i < |coefficients|
        invariant 0 <= i <= |coefficients|
        invariant v == PolynomialUpTo(coefficients, t, i)
      {
        v := v + coefficients[i] * Pow(t, i);
        i := i + 1;
      }
    }
  }
}
