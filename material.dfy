/** A material: a dictionary of properties with a `name` and a `source` attribute.

    Reading (`get_value`, `get_points`, `get_units`) leaves the material unchanged; `set_value`
    and `populate_thermal_stress_fom` insert a property into it.
 */
module Materials {
  import opened PyValues
  import opened Entities
  import opened MaterialLookup
  import opened Calculators

  /** The name under which `get_value` computes the figure of merit on demand. */
  const OnDemandFom := "Thermal Stress FOM"

  /** The key under which `populate_thermal_stress_fom` stores the figure of merit. */
  const StoredFom := "Thermal Stress Figure of Merit"

  /** A material's `get_value` for its stored properties, as the calculators call it. */
  function StoredLookup(md: ODict<string, Val>): Lookup {
    (propertyname, p2val, parameter2, parameter1, tolerance, how) =>
      StoredValue(md, propertyname, p2val, parameter2, parameter1, tolerance, how)
  }

  /** The figure of merit of a material's dictionary at temperature `t`. */
  function FomAt(md: ODict<string, Val>, t: Option<real>): Result<real> {
    Fom(md, StoredLookup(md), t)
  }

  /** The figure of merit as a function of the temperature. */
  type Curve = real -> Result<real>

  function FomCurve(md: ODict<string, Val>): Curve {
    t => FomAt(md, Some(t))
  }

  /** The dictionary `set_value` builds for one property: the independent values under
      `parameter1name`, the dependent ones under `parameter2name`, then `values` and `format`.
      It is a literal, so a repeated key keeps its first position and its last value. */
  function SetEntry(parameter1values: Val, parameter2values: Val, parameter1name: string, parameter2name: string): Val {
    Dict(FromPairs([(parameter1name, Dict([("Values", parameter1values)])),
                    (parameter2name, Dict([("Values", parameter2values)])),
                    ("values", List([Str("-")])),
                    ("format", Str("string"))]))
  }

  /** The dictionary after `set_value`: `self.update({propertyname: entry})`, with a
      dependent name of `'auto'` standing for the property's own name. */
  function WithValue(md: ODict<string, Val>, propertyname: string, parameter1values: Val, parameter2values: Val,
                     parameter1name: string, parameter2name: string): (r: ODict<string, Val>)
    ensures HasKey(r, propertyname)
    ensures forall k :: k != propertyname ==> (HasKey(r, k) <==> HasKey(md, k))
    ensures forall k :: k != propertyname && HasKey(md, k) ==> Get(r, k) == Get(md, k)
  {
    var dependent := if parameter2name == "auto" then propertyname else parameter2name;
    Set(md, propertyname, SetEntry(parameter1values, parameter2values, parameter1name, dependent))
  }

  /** A literal with distinct keys is its list of pairs. */
  lemma {:induction false} FromDistinctPairs<K(!new), V>(pairs: seq<(K, V)>)
    requires UniqueKeys(pairs)
    ensures FromPairs(pairs) == pairs
    decreases |pairs|
  {
    if |pairs| > 0 {
      var n := |pairs|;
      var init := pairs[..n - 1];
      assert UniqueKeys(init) by {
        forall i, j | 0 <= i < j < |init| ensures init[i].0 != init[j].0 {
          assert init[i] == pairs[i] && init[j] == pairs[j];
        }
      }
      FromDistinctPairs(init);
      assert !HasKey(init, pairs[n - 1].0) by {
        forall i | 0 <= i < |init| ensures init[i].0 != pairs[n - 1].0 {
          assert init[i] == pairs[i];
        }
      }
      assert init + [pairs[n - 1]] == pairs;
    }
  }

  /** What `get_value` finds after `set_value(propertyname, xs, ys)` with the default names
      (`'Temperature'` and `'auto'`): the first dependent value without a query, and on an
      exact match the dependent value co-indexed with the first occurrence of the query. */
  lemma SetThenGet(md: ODict<string, Val>, propertyname: string, xs: seq<Val>, ys: seq<Val>, x: real,
                   tolerance: real, how: string)
    requires propertyname != "Temperature" && propertyname != "values" && propertyname != "format"
    requires Num(x) in xs && FirstIndex(xs, Num(x)) < |ys|
    ensures var after := WithValue(md, propertyname, List(xs), List(ys), "Temperature", "auto");
      StoredValue(after, propertyname, None, "Temperature", "auto", tolerance, how) == At(List(ys), 0) &&
      StoredValue(after, propertyname, Some(x), "Temperature", "auto", tolerance, how) == Ok(ys[FirstIndex(xs, Num(x))])
  {
    var after := WithValue(md, propertyname, List(xs), List(ys), "Temperature", "auto");
    var entry := SetEntry(List(xs), List(ys), "Temperature", propertyname);
    EntryStored(md, propertyname, xs, ys);
    EntryRead(propertyname, xs, ys, x);
    assert Dependent(propertyname, "auto") == propertyname;
    assert Checked(after, propertyname, "Temperature", "auto") == Ok(entry) && Get(after, propertyname) == entry;
    assert DependentValues(entry, propertyname) == Ok(List(ys));
    assert ExactIndex(entry, "Temperature", x) == Some(FirstIndex(xs, Num(x)));
  }

  /** The entry `set_value` stores passes the checks of `get_value`. */
  lemma EntryStored(md: ODict<string, Val>, propertyname: string, xs: seq<Val>, ys: seq<Val>)
    requires propertyname != "Temperature" && propertyname != "values" && propertyname != "format"
    ensures var after := WithValue(md, propertyname, List(xs), List(ys), "Temperature", "auto");
      HasKey(after, propertyname) && Get(after, propertyname) == SetEntry(List(xs), List(ys), "Temperature", propertyname) &&
      Checked(after, propertyname, "Temperature", "auto") == Ok(SetEntry(List(xs), List(ys), "Temperature", propertyname))
  {
    var after := WithValue(md, propertyname, List(xs), List(ys), "Temperature", "auto");
    EntryPairsDistinct(xs, ys, propertyname);
    var pairs := EntryPairs(xs, ys, propertyname);
    var entry := Dict(pairs);
    assert Get(after, propertyname) == entry;
    assert pairs[0].0 == "Temperature" && pairs[1].0 == propertyname;
    assert Get(pairs, "Temperature") == Dict([("Values", List(xs))]);
    assert Get(pairs, propertyname) == Dict([("Values", List(ys))]);
  }

  /** The stored entry's pairs, in their order. */
  lemma EntryPairsDistinct(xs: seq<Val>, ys: seq<Val>, propertyname: string)
    requires propertyname != "Temperature" && propertyname != "values" && propertyname != "format"
    ensures SetEntry(List(xs), List(ys), "Temperature", propertyname) == Dict(EntryPairs(xs, ys, propertyname))
  {
    var pairs := EntryPairs(xs, ys, propertyname);
    assert UniqueKeys(pairs);
    FromDistinctPairs(pairs);
  }

  function EntryPairs(xs: seq<Val>, ys: seq<Val>, propertyname: string): ODict<string, Val> {
    [("Temperature", Dict([("Values", List(xs))])),
     (propertyname, Dict([("Values", List(ys))])),
     ("values", List([Str("-")])),
     ("format", Str("string"))]
  }

  /** Reading the stored entry back: the dependent values, and the exact position of a
      stored temperature. */
  lemma EntryRead(propertyname: string, xs: seq<Val>, ys: seq<Val>, x: real)
    requires propertyname != "Temperature" && propertyname != "values" && propertyname != "format"
    ensures var entry := SetEntry(List(xs), List(ys), "Temperature", propertyname);
      DependentValues(entry, propertyname) == Ok(List(ys)) &&
      (Num(x) in xs ==> ExactIndex(entry, "Temperature", x) == Some(FirstIndex(xs, Num(x))))
  {
    EntryPairsDistinct(xs, ys, propertyname);
    var pairs := EntryPairs(xs, ys, propertyname);
    assert pairs[0].0 == "Temperature" && pairs[1].0 == propertyname;
    var dependent := Dict([("Values", List(ys))]);
    assert dependent.entries[0].0 == "Values";
    assert Index(dependent, "Values") == Ok(List(ys));
    var independent := Dict([("Values", List(xs))]);
    assert independent.entries[0].0 == "Values";
    assert Index(independent, "Values") == Ok(List(xs));
  }

  /** `set_value` then `get_points`: each parameter gives back the values written under its
      name (when both names coincide the literal keeps the dependent values); `set_value`
      stores no `Units`, so `get_units` on either raises `KeyError`. */
  lemma SetThenPoints(md: ODict<string, Val>, propertyname: string, parameter1values: Val, parameter2values: Val,
                      parameter1name: string, parameter2name: string)
    requires parameter1name != "values" && parameter1name != "format"
    requires Dependent(propertyname, parameter2name) != "values" && Dependent(propertyname, parameter2name) != "format"
    ensures var after := WithValue(md, propertyname, parameter1values, parameter2values, parameter1name, parameter2name);
      var dependent := Dependent(propertyname, parameter2name);
      Points(after, propertyname, dependent) == Ok(parameter2values) &&
      Points(after, propertyname, parameter1name) ==
        Ok(if parameter1name == dependent then parameter2values else parameter1values) &&
      Units(after, propertyname, dependent) == Err(KeyError) &&
      Units(after, propertyname, parameter1name) == Err(KeyError)
  {
    var dependent := Dependent(propertyname, parameter2name);
    var after := WithValue(md, propertyname, parameter1values, parameter2values, parameter1name, parameter2name);
    var entry := SetEntry(parameter1values, parameter2values, parameter1name, dependent);
    assert HasKey(after, propertyname) && Get(after, propertyname) == entry;
    var first := Dict([("Values", parameter1values)]);
    var second := Dict([("Values", parameter2values)]);
    SetEntryReads(parameter1values, parameter2values, parameter1name, dependent);
    assert first.entries[0].0 == "Values" && second.entries[0].0 == "Values";
    assert Index(first, "Values") == Ok(parameter1values) && Index(second, "Values") == Ok(parameter2values);
    assert !HasKey(first.entries, "Units") && !HasKey(second.entries, "Units");
  }

  /** The two parameters of the entry `set_value` builds, read back by name. */
  lemma SetEntryReads(parameter1values: Val, parameter2values: Val, parameter1name: string, dependent: string)
    requires parameter1name != "values" && parameter1name != "format"
    requires dependent != "values" && dependent != "format"
    ensures var entry := SetEntry(parameter1values, parameter2values, parameter1name, dependent);
      var first := Dict([("Values", parameter1values)]);
      var second := Dict([("Values", parameter2values)]);
      Index(entry, dependent) == Ok(second) &&
      Index(entry, parameter1name) == Ok(if parameter1name == dependent then second else first)
  {
    var first := Dict([("Values", parameter1values)]);
    var second := Dict([("Values", parameter2values)]);
    var pairs := [(parameter1name, first), (dependent, second), ("values", List([Str("-")])), ("format", Str("string"))];
    var d1 := Set([], parameter1name, first);
    var d2 := Set(d1, dependent, second);
    var d3 := Set(d2, "values", List([Str("-")]));
    var d4 := Set(d3, "format", Str("string"));
    assert pairs[..1] == [pairs[0]] && pairs[..2][..1] == pairs[..1] && pairs[..3][..2] == pairs[..2] && pairs[..4] == pairs;
    assert FromPairs(pairs[..1]) == d1;
    assert FromPairs(pairs[..2]) == d2;
    assert FromPairs(pairs[..3]) == d3;
    assert FromPairs(pairs) == d4;
    assert HasKey(d4, dependent) && Get(d4, dependent) == second;
    assert HasKey(d4, parameter1name) && Get(d4, parameter1name) == (if parameter1name == dependent then second else first);
  }

  /** The entries a new `Material` starts with: its name, then empty `Condition`,
      `DataSource` and `Description`. */
  function Fields(materialname: Val): (d: ODict<string, Val>)
    ensures UniqueKeys(d) && Keys(d) == ["MaterialName", "Condition", "DataSource", "Description"]
    ensures Index(Dict(d), "MaterialName") == Ok(materialname) && Index(Dict(d), "Name") == Err(KeyError)
  {
    var d := [("MaterialName", materialname), ("Condition", PyNone), ("DataSource", PyNone), ("Description", PyNone)];
    assert d[0].0 == "MaterialName" && d[1].0 == "Condition" && d[2].0 == "DataSource" && d[3].0 == "Description";
    d
  }

  /** The temperatures, in their given order, at which the figure of merit can be computed. */
  function Kept(fom: Curve, temperatures: seq<real>): (k: seq<real>)
    ensures |k| <= |temperatures|
    ensures forall t :: t in k <==> t in temperatures && fom(t).Ok?
    ensures forall i :: 0 <= i < |k| ==> fom(k[i]).Ok?
    ensures |temperatures| == 1 ==> k == (if fom(temperatures[0]).Ok? then temperatures else [])
    decreases |temperatures|
  {
    if |temperatures| == 0 then []
    else
      var n := |temperatures|;
      var last := temperatures[n - 1];
      var init := Kept(fom, temperatures[..n - 1]);
      assert temperatures == temperatures[..n - 1] + [last];
      if fom(last).Ok? then init + [last] else init
  }

  /** The figures of merit at the kept temperatures. */
  function FomsAt(fom: Curve, kept: seq<real>): (foms: seq<Val>)
    requires forall i :: 0 <= i < |kept| ==> fom(kept[i]).Ok?
    ensures |foms| == |kept|
    ensures forall i :: 0 <= i < |kept| ==> foms[i] == Num(fom(kept[i]).value)
  {
    seq(|kept|, i requires 0 <= i < |kept| => Num(fom(kept[i]).value))
  }

  function Nums(xs: seq<real>): (vs: seq<Val>)
    ensures |vs| == |xs| && forall i :: 0 <= i < |xs| ==> vs[i] == Num(xs[i])
  {
    seq(|xs|, i requires 0 <= i < |xs| => Num(xs[i]))
  }

  /** The property `populate_thermal_stress_fom` stores: a calculated, unitless property
      holding a `Temperature` parameter (in C) and a figure of merit parameter. */
  function FomProperty(temps: seq<Val>, foms: seq<Val>): Val {
    Prop(Str(StoredFom), FomBase() + [("Temperature", TempsParameter(temps)), (StoredFom, FomParameter(foms))])
  }

  /** The five entries of the new `MaterialProperty` the stored property starts from. */
  function FomBase(): ODict<string, Val> {
    [("PropertyName", Str(StoredFom)), ("DataSource", Str("calculated")), ("Units", List([Str("-")])),
     ("Values", List([])), ("Comments", PyNone)]
  }

  function TempsParameter(temps: seq<Val>): Val {
    NewParameter(Str("Temperature"), List([Str("C")]), List(temps))
  }

  function FomParameter(foms: seq<Val>): Val {
    NewParameter(Str(StoredFom), List([Str("-")]), List(foms))
  }

  /** The stored property is the new `MaterialProperty` with the two parameters then set on
      it: neither key is one of its own, so both are appended. */
  lemma FomPropertyBuilt(temps: seq<Val>, foms: seq<Val>)
    ensures var base := NewProperty(Str(StoredFom), List([Str("-")]), List([]), Str("calculated"), PyNone);
      FomProperty(temps, foms) ==
        Prop(base.name, Set(Set(base.entries, "Temperature", TempsParameter(temps)), StoredFom, FomParameter(foms)))
  {
    BaseIsNew();
    TemperatureAppended(TempsParameter(temps));
    FomAppended(TempsParameter(temps), FomParameter(foms));
  }

  lemma BaseIsNew()
    ensures NewProperty(Str(StoredFom), List([Str("-")]), List([]), Str("calculated"), PyNone) == Prop(Str(StoredFom), FomBase())
  {
  }

  lemma TemperatureAppended(temps: Val)
    ensures Set(FomBase(), "Temperature", temps) == FomBase() + [("Temperature", temps)]
  {
  }

  lemma FomAppended(temps: Val, foms: Val)
    ensures Set(FomBase() + [("Temperature", temps)], StoredFom, foms) == FomBase() + [("Temperature", temps), (StoredFom, foms)]
  {
    assert FomBase() + [("Temperature", temps)] + [(StoredFom, foms)] == FomBase() + [("Temperature", temps), (StoredFom, foms)];
  }

  /** The two parameters of the stored property and the values they hold. */
  lemma FomPropertyValues(temps: seq<Val>, foms: seq<Val>)
    ensures var p := FomProperty(temps, foms);
      Index(p, "Temperature") == Ok(TempsParameter(temps)) && Index(TempsParameter(temps), "Values") == Ok(List(temps)) &&
      Index(p, StoredFom) == Ok(FomParameter(foms)) && Index(FomParameter(foms), "Values") == Ok(List(foms))
  {
    TemperatureAt(FomProperty(temps, foms).entries, TempsParameter(temps));
    FomAt6(FomProperty(temps, foms).entries, FomParameter(foms));
  }

  lemma TemperatureAt(e: ODict<string, Val>, v: Val)
    requires |e| == 7 && e[..5] == FomBase() && e[5] == ("Temperature", v)
    ensures HasKey(e, "Temperature") && Get(e, "Temperature") == v
  {
    assert forall j :: 0 <= j < 5 ==> e[j] == FomBase()[j];
    GetAt(e, 5, "Temperature");
  }

  lemma FomAt6(e: ODict<string, Val>, v: Val)
    requires |e| == 7 && e[..5] == FomBase() && e[5].0 == "Temperature" && e[6] == (StoredFom, v)
    ensures HasKey(e, StoredFom) && Get(e, StoredFom) == v
  {
    assert forall j :: 0 <= j < 5 ==> e[j] == FomBase()[j];
    GetAt(e, 6, StoredFom);
  }

  /** The stored series: temperatures and figures of merit of the same length, each figure
      of merit computed at the temperature with the same index. */
  lemma FomSeries(fom: Curve, temperatures: seq<real>)
    ensures var kept := Kept(fom, temperatures);
      var p := FomProperty(Nums(kept), FomsAt(fom, kept));
      Index(p, "Temperature").Ok? && Index(Index(p, "Temperature").value, "Values") == Ok(List(Nums(kept))) &&
      Index(p, StoredFom).Ok? && Index(Index(p, StoredFom).value, "Values") == Ok(List(FomsAt(fom, kept))) &&
      |Nums(kept)| == |FomsAt(fom, kept)| &&
      forall i :: 0 <= i < |kept| ==>
        Nums(kept)[i] == Num(kept[i]) && FomsAt(fom, kept)[i] == Num(fom(kept[i]).value)
  {
    var kept := Kept(fom, temperatures);
    FomPropertyValues(Nums(kept), FomsAt(fom, kept));
  }

  /** `Material`: a dictionary of properties with `name` and `source` attributes. */
  class Material {
    var dict: ODict<string, Val>
    var name: Val
    var source: Val

    /** `Material(materialname)`: the name, then empty `Condition`, `DataSource` and
        `Description` entries, in that order. */
    constructor (materialname: Val)
      ensures name == materialname && source == PyNone
      ensures dict == Fields(materialname)
    {
      name := materialname;
      dict := [("MaterialName", materialname), ("Condition", PyNone)];
      source := PyNone;
      dict := dict + [("DataSource", PyNone), ("Description", PyNone)];
    }

    /** `get_value`: the on-demand figure of merit (whose index must be a temperature), or
        a stored property's value. */
    function GetValue(propertyname: string, p2val: Option<real>, parameter2: string, parameter1: string,
                      tolerance: real, how: string): (r: Result<Val>)
      reads this
      ensures propertyname == OnDemandFom && parameter2 != "Temperature" ==> r == Err(AssertionError)
      ensures propertyname == OnDemandFom && parameter2 == "Temperature" ==>
        (FomAt(dict, p2val).Ok? ==> r == Ok(Num(FomAt(dict, p2val).value))) &&
        (FomAt(dict, p2val).Err? ==> r == Err(FomAt(dict, p2val).error))
      ensures propertyname != OnDemandFom ==> r == StoredLookup(dict)(propertyname, p2val, parameter2, parameter1, tolerance, how)
    {
      if propertyname == OnDemandFom then
        if parameter2 != "Temperature" then Err(AssertionError)
        else
          match FomAt(dict, p2val)
          case Ok(m) => Ok(Num(m))
          case Err(e) => Err(e)
      else StoredValue(dict, propertyname, p2val, parameter2, parameter1, tolerance, how)
    }

    /** `get_points`. */
    function GetPoints(propertyname: string, parametername: string): (r: Result<Val>)
      reads this
      ensures r == Points(dict, propertyname, parametername)
    {
      Points(dict, propertyname, parametername)
    }

    /** `get_units`. */
    function GetUnits(propertyname: string, parametername: string): (r: Result<Val>)
      reads this
      ensures r == Units(dict, propertyname, parametername)
    {
      Units(dict, propertyname, parametername)
    }

    /** `set_value`: inserts or replaces one property; nothing else changes. */
    method SetValue(propertyname: string, parameter1values: Val, parameter2values: Val,
                    parameter1name: string, parameter2name: string)
      modifies this
      ensures dict == WithValue(old(dict), propertyname, parameter1values, parameter2values, parameter1name, parameter2name)
      ensures name == old(name) && source == old(source)
    {
      var dependent := parameter2name;
      if dependent == "auto" {
        dependent := propertyname;
      }
      var entry := SetEntry(parameter1values, parameter2values, parameter1name, dependent);
      dict := Set(dict, propertyname, entry);
    }

    /** `populate_thermal_stress_fom`: computes the figure of merit at each temperature,
        keeping the temperatures where it succeeds, and stores the series under
        "Thermal Stress Figure of Merit"; fails the assertion if none succeeds. */
    method PopulateThermalStressFom(temperatures: seq<real>) returns (r: Result<Val>)
      modifies this
      ensures name == old(name) && source == old(source)
      ensures var fom := FomCurve(old(dict));
        |Kept(fom, temperatures)| == 0 ==> r == Err(AssertionError) && dict == old(dict)
      ensures var fom := FomCurve(old(dict));
        |Kept(fom, temperatures)| > 0 ==>
          r == Ok(FomProperty(Nums(Kept(fom, temperatures)), FomsAt(fom, Kept(fom, temperatures)))) &&
          dict == Set(old(dict), StoredFom, r.value)
    {
      var temps, foms := Series(FomCurve(dict), temperatures);
      if |temps| == 0 {
        return Err(AssertionError);
      }
      var fomparameter := FomProperty(Nums(temps), foms);
      dict := Set(dict, StoredFom, fomparameter);
      r := Ok(fomparameter);
    }
  }

  /** The loop of `populate_thermal_stress_fom`: at each temperature, append the figure of
      merit and then the temperature, skipping a temperature where the calculation raises. */
  method Series(fom: Curve, temperatures: seq<real>) returns (temps: seq<real>, foms: seq<Val>)
    ensures temps == Kept(fom, temperatures)
    ensures foms == FomsAt(fom, temps)
  {
    temps, foms := [], [];
    var i := 0;
    while i < |temperatures|
      invariant 0 <= i <= |temperatures|
      invariant temps == Kept(fom, temperatures[..i])
      invariant foms == FomsAt(fom, temps)
    {
      var t := temperatures[i];
      var m := fom(t);
      if m.Ok? {
        assert temps + [t] == Kept(fom, temperatures[..i + 1]) by { KeptStep(fom, temperatures, i); }
        assert foms + [Num(m.value)] == FomsAt(fom, temps + [t]) by { FomsAtStep(fom, temps, t); }
        foms := foms + [Num(m.value)];
        temps := temps + [t];
      } else {
        assert temps == Kept(fom, temperatures[..i + 1]) by { KeptStep(fom, temperatures, i); }
      }
      i := i + 1;
    }
    assert temperatures[..i] == temperatures;
  }

  /** One more temperature: kept at the end when the calculation succeeds there. */
  lemma KeptStep(fom: Curve, temperatures: seq<real>, i: nat)
    requires i < |temperatures|
    ensures Kept(fom, temperatures[..i + 1]) ==
      if fom(temperatures[i]).Ok? then Kept(fom, temperatures[..i]) + [temperatures[i]]
      else Kept(fom, temperatures[..i])
  {
    assert temperatures[..i + 1][..i] == temperatures[..i];
  }

  /** The temperatures are kept in their given order: those kept from two runs of
      temperatures are the first run's, then the second's. */
  lemma {:induction false} KeptConcat(fom: Curve, a: seq<real>, b: seq<real>)
    ensures Kept(fom, a + b) == Kept(fom, a) + Kept(fom, b)
    decreases |b|
  {
    if |b| == 0 {
      assert a + b == a;
    } else {
      var n := |b|;
      var init, x := b[..n - 1], b[n - 1];
      KeptConcat(fom, a, init);
      SplitLast(a, b);
      KeptLast(fom, b, init, x);
      KeptLast(fom, a + b, a + init, x);
    }
  }

  /** Unfolds `Kept` once: `d` is `init` and one more temperature `x`. */
  lemma KeptLast(fom: Curve, d: seq<real>, init: seq<real>, x: real)
    requires d == init + [x]
    ensures Kept(fom, d) == Kept(fom, init) + (if fom(x).Ok? then [x] else [])
  {
    assert d[..|d| - 1] == init;
  }

  /** The figures of merit of one more kept temperature. */
  lemma FomsAtStep(fom: Curve, kept: seq<real>, t: real)
    requires forall i :: 0 <= i < |kept| ==> fom(kept[i]).Ok?
    requires fom(t).Ok?
    ensures FomsAt(fom, kept + [t]) == FomsAt(fom, kept) + [Num(fom(t).value)]
  {
    assert forall i :: 0 <= i < |kept| ==> (kept + [t])[i] == kept[i];
  }

  /** The default temperatures, `range(0, 2000, 50)`. */
  function DefaultTemperatures(): (ts: seq<real>)
    ensures |ts| == 40 && forall i :: 0 <= i < 40 ==> ts[i] == 50.0 * i as real
  {
    seq(40, i requires 0 <= i < 40 => 50.0 * i as real)
  }
}
