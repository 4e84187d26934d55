/** `MatMLData`: materials read from a MatML document.

    The document arrives as the tree `xmltodict` makes of it: dictionaries for elements,
    strings for text, lists for repeated elements, and `@`-prefixed keys for attributes. The
    walker reads the unit strings and the id-to-name map from the metadata, then builds one
    `Material` per material element with its properties and their parameters.
 */
module MatML {
  import opened PyValues
  import opened Entities
  import opened Collection

  // ---------------------------------------------------------------------------------------
  // Small Python operations on trees

  /** `if type(x) is not list: x = [x]`. */
  function AsList(v: Val): (items: seq<Val>)
    ensures v.List? ==> items == v.items
    ensures !v.List? ==> items == [v]
  {
    if v.List? then v.items else [v]
  }

  /** `d[k] = v` on a dictionary keyed by tree values: the key must be hashable. */
  function Insert<V>(d: ODict<Val, V>, k: Val, v: V): (r: Result<ODict<Val, V>>)
    ensures Hashable(k) ==> r == Ok(Set(d, k, v))
    ensures !Hashable(k) ==> r == Err(TypeError)
  {
    if Hashable(k) then Ok(Set(d, k, v)) else Err(TypeError)
  }

  /** `d[k]` on a dictionary keyed by tree values. */
  function Lookup<V>(d: ODict<Val, V>, k: Val): (r: Result<V>)
    ensures Hashable(k) && HasKey(d, k) ==> r == Ok(Get(d, k))
    ensures Hashable(k) && !HasKey(d, k) ==> r == Err(KeyError)
    ensures !Hashable(k) ==> r == Err(TypeError)
  {
    if !Hashable(k) then Err(TypeError) else if HasKey(d, k) then Ok(Get(d, k)) else Err(KeyError)
  }

  /** `a + s` with a string `s`: only a string can be extended by one. */
  function Concat(a: Val, s: string): (r: Result<string>)
    ensures a.Str? ==> r == Ok(a.s + s)
    ensures !a.Str? ==> r == Err(TypeError)
  {
    if a.Str? then Ok(a.s + s) else Err(TypeError)
  }

  /** `sep.join(u)`: every item must be a string. */
  function JoinStrings(sep: string, u: seq<Val>): (r: Result<string>)
    ensures r.Ok? <==> forall i :: 0 <= i < |u| ==> u[i].Str?
    ensures r.Ok? ==> r.value == Join(sep, Texts(u))
    decreases |u|
  {
    if |u| == 0 then Ok("")
    else if !u[0].Str? then Err(TypeError)
    else if |u| == 1 then Ok(u[0].s)
    else
      match JoinStrings(sep, u[1..])
      case Ok(rest) =>
        assert Texts(u)[1..] == Texts(u[1..]);
        Ok(u[0].s + sep + rest)
      case Err(e) => Err(e)
  }

  /** The texts of a list of strings. */
  function Texts(u: seq<Val>): (ts: seq<string>)
    requires forall i :: 0 <= i < |u| ==> u[i].Str?
    ensures |ts| == |u| && forall i :: 0 <= i < |u| ==> ts[i] == u[i].s
  {
    seq(|u|, i requires 0 <= i < |u| => u[i].s)
  }

  /** The pieces of `s.split(sep)`, as strings. */
  function Pieces(s: string, sep: char): (vs: seq<Val>)
    ensures |vs| == |Split(s, sep)| && forall i :: 0 <= i < |vs| ==> vs[i] == Str(Split(s, sep)[i])
  {
    var parts := Split(s, sep);
    seq(|parts|, i requires 0 <= i < |parts| => Str(parts[i]))
  }

  // ---------------------------------------------------------------------------------------
  // getunits

  /** `term['Name'] + '^' + term['@power']`. */
  function Powered(term: Val): Result<string> {
    var name :- Index(term, "Name");
    var base :- Concat(name, "^");
    var power :- Index(term, "@power");
    if power.Str? then Ok(base + power.s) else Err(TypeError)
  }

  /** One unit term: `Name^power`, or `Name` alone when the first form raises. */
  function UnitTerm(term: Val): (r: Result<Val>)
    ensures (Index(term, "Name").Ok? && Index(term, "Name").value.Str? &&
             Index(term, "@power").Ok? && Index(term, "@power").value.Str?) ==>
      r == Ok(Str(Index(term, "Name").value.s + "^" + Index(term, "@power").value.s))
    ensures Index(term, "@power").Err? ==> r == Index(term, "Name")
  {
    match Powered(term)
    case Ok(s) => Ok(Str(s))
    case Err(_) => Index(term, "Name")
  }

  /** The unit terms of a detail entry, in order. */
  function Terms(terms: seq<Val>): (r: Result<seq<Val>>)
    ensures r.Ok? ==> |r.value| == |terms| && forall i :: 0 <= i < |terms| ==> UnitTerm(terms[i]) == Ok(r.value[i])
    ensures (forall i :: 0 <= i < |terms| ==> UnitTerm(terms[i]).Ok?) ==> r.Ok?
    decreases |terms|
  {
    if |terms| == 0 then Ok([])
    else
      var n := |terms|;
      match Terms(terms[..n - 1])
      case Err(e) => Err(e)
      case Ok(init) =>
        match UnitTerm(terms[n - 1])
        case Err(e) => Err(e)
        case Ok(t) => Ok(init + [t])
  }

  /** The unit string of a detail entry that has `Units`: its terms joined with `'.'`; a
      single `Unit` is a list of one term. */
  function UnitString(p: Val): Result<string> {
    var units :- Index(p, "Units");
    var unit :- Index(units, "Unit");
    var u :- Terms(AsList(unit));
    JoinStrings(".", u)
  }

  /** The entry `getunits` records for one detail entry of the list named `ps`. */
  function DetailUnits(units: ODict<Val, string>, ps: string, p: Val): (r: Result<ODict<Val, string>>)
    ensures Contains(p, "Units").Err? ==> r == Err(TypeError)
    ensures r.Ok? <==>
      Contains(p, "Units").Ok? && Index(p, "@id").Ok? && Hashable(Index(p, "@id").value) &&
      (Contains(p, "Units").value ==> UnitString(p).Ok?) &&
      (!Contains(p, "Units").value ==> Contains(p, "Unitless").Ok?)
  {
    var hasUnits :- Contains(p, "Units");
    if hasUnits then
      var text :- UnitString(p);
      var id :- Index(p, "@id");
      Insert(units, id, text)
    else
      var unitless :- Contains(p, "Unitless");
      var id :- Index(p, "@id");
      Insert(units, id, if unitless && IsSubstring("ParameterDetails", ps) then "Unitless" else "-")
  }

  function UnitsStep(ps: string): (ODict<Val, string>, Val) -> Result<ODict<Val, string>> {
    (units: ODict<Val, string>, p: Val) => DetailUnits(units, ps, p)
  }

  /** The document has metadata holding both a property and a parameter detail list. */
  predicate DetailsPresent(matml: Val) {
    Index(matml, "Metadata").Ok? &&
    Index(Index(matml, "Metadata").value, "PropertyDetails").Ok? &&
    Index(Index(matml, "Metadata").value, "ParameterDetails").Ok?
  }

  /** `getunits`: the property details, then the parameter details. */
  function UnitsOf(matml: Val): (r: Result<ODict<Val, string>>)
    ensures Index(matml, "Metadata").Err? ==> r == Err(Index(matml, "Metadata").error)
    ensures r.Ok? ==> DetailsPresent(matml)
  {
    var metadata :- Index(matml, "Metadata");
    var properties :- Index(metadata, "PropertyDetails");
    var pitems :- Iter(properties);
    var units :- Fold([], pitems, UnitsStep("PropertyDetails"));
    var parameters :- Index(metadata, "ParameterDetails");
    var qitems :- Iter(parameters);
    Fold(units, qitems, UnitsStep("ParameterDetails"))
  }

  // ---------------------------------------------------------------------------------------
  // getids

  /** `ids.update({item['@id']: item['Name']})`. */
  function IdStep(ids: ODict<Val, Val>, item: Val): Result<ODict<Val, Val>> {
    var id :- Index(item, "@id");
    var name :- Index(item, "Name");
    Insert(ids, id, name)
  }

  /** `getids`: every id of both detail lists mapped to its name. */
  function IdsOf(matml: Val): (r: Result<ODict<Val, Val>>)
    ensures Index(matml, "Metadata").Err? ==> r == Err(Index(matml, "Metadata").error)
    ensures r.Ok? ==> DetailsPresent(matml)
  {
    var metadata :- Index(matml, "Metadata");
    var properties :- Index(metadata, "PropertyDetails");
    var pitems :- Iter(properties);
    var ids :- Fold([], pitems, IdStep);
    var parameters :- Index(metadata, "ParameterDetails");
    var qitems :- Iter(parameters);
    Fold(ids, qitems, IdStep)
  }

  // ---------------------------------------------------------------------------------------
  // Values and qualifiers

  /** The entries of `text.split(',')` other than `'-'`. */
  function Filled(pieces: seq<string>): (kept: seq<string>)
    ensures forall x :: x in kept <==> x in pieces && x != "-"
    ensures |pieces| == 1 ==> kept == (if pieces[0] == "-" then [] else pieces)
    decreases |pieces|
  {
    if |pieces| == 0 then []
    else
      var n := |pieces|;
      assert pieces == pieces[..n - 1] + [pieces[n - 1]];
      Filled(pieces[..n - 1]) + (if pieces[n - 1] == "-" then [] else [pieces[n - 1]])
  }

  /** Pieces that are all `'-'` leave nothing. */
  lemma {:induction false} FilledAllDashes(pieces: seq<string>)
    requires forall i :: 0 <= i < |pieces| ==> pieces[i] == "-"
    ensures Filled(pieces) == []
    decreases |pieces|
  {
    if |pieces| > 0 {
      var n := |pieces|;
      FilledAllDashes(pieces[..n - 1]);
    }
  }

  /** The filter keeps the order and the multiplicity of the pieces: filtering two runs of
      pieces gives the filtered runs one after the other. */
  lemma {:induction false} FilledConcat(a: seq<string>, b: seq<string>)
    ensures Filled(a + b) == Filled(a) + Filled(b)
    decreases |b|
  {
    if |b| == 0 {
      assert a + b == a;
    } else {
      var n := |b|;
      FilledConcat(a, b[..n - 1]);
      assert (a + b)[..|a + b| - 1] == a + b[..n - 1];
      assert (a + b)[|a + b| - 1] == b[n - 1];
    }
  }

  /** `float(x)` for each text; the first that fails raises `ValueError`. */
  function ParseAll(texts: seq<string>, parse: NumParser): (r: Result<seq<Val>>)
    ensures r.Ok? <==> forall i :: 0 <= i < |texts| ==> parse(texts[i]).Some?
    ensures r.Ok? ==> |r.value| == |texts| && forall i :: 0 <= i < |texts| ==> r.value[i] == Num(parse(texts[i]).value)
    ensures r.Err? ==> r.error == ValueError
    decreases |texts|
  {
    if |texts| == 0 then Ok([])
    else
      var n := |texts|;
      var init := ParseAll(texts[..n - 1], parse);
      assert forall i :: 0 <= i < n - 1 ==> texts[..n - 1][i] == texts[i];
      if init.Err? then init
      else match parse(texts[n - 1])
        case None => Err(ValueError)
        case Some(x) => Ok(init.value + [Num(x)])
  }

  /** `[float(x) for x in text.split(',') if x is not '-']`: a text that is not a string has
      no `split`. */
  function ParsedValues(text: Val, parse: NumParser): (r: Result<seq<Val>>)
    ensures !text.Str? ==> r == Err(AttributeError)
    ensures text.Str? ==> r == ParseAll(Filled(Split(text.s, ',')), parse)
  {
    if !text.Str? then Err(AttributeError) else ParseAll(Filled(Split(text.s, ',')), parse)
  }

  /** `qdict[q['@name']] = q['#text'].split(',')` for one qualifier. */
  function QualifierStep(qdict: ODict<string, Val>, q: Val): (r: Result<ODict<string, Val>>)
    ensures Index(q, "#text").Err? ==> r == Err(Index(q, "#text").error)
    ensures Index(q, "#text").Ok? && !Index(q, "#text").value.Str? ==> r == Err(AttributeError)
    ensures Index(q, "#text").Ok? && Index(q, "#text").value.Str? ==>
      (Index(q, "@name").Err? ==> r == Err(Index(q, "@name").error)) &&
      (Index(q, "@name").Ok? && !Index(q, "@name").value.Str? ==> r == Err(TypeError))
    ensures r.Ok? ==>
      Index(q, "#text").Ok? && Index(q, "#text").value.Str? && Index(q, "@name").Ok? && Index(q, "@name").value.Str? &&
      var name := Index(q, "@name").value.s;
      HasKey(r.value, name) && Get(r.value, name) == List(Pieces(Index(q, "#text").value.s, ',')) &&
      forall k :: k != name ==> SameAt(qdict, r.value, k)
  {
    var text :- Index(q, "#text");
    if !text.Str? then Err(AttributeError)
    else
      var name :- Index(q, "@name");
      if !name.Str? then Err(TypeError)
      else
        SetSameAt(qdict, name.s, List(Pieces(text.s, ',')));
        Ok(Set(qdict, name.s, List(Pieces(text.s, ','))))
  }

  /** The qualifiers of a property or parameter element, each as its comma-split text. */
  function Qualifiers(x: Val): Result<ODict<string, Val>> {
    var qualifiers :- Index(x, "Qualifier");
    Fold([], AsList(qualifiers), QualifierStep)
  }

  /** `entity.update(qualifiers)` when collecting them succeeded; any exception is ignored. */
  function WithQualifiers(entries: ODict<string, Val>, x: Val): ODict<string, Val> {
    match Qualifiers(x)
    case Ok(q) => Update(entries, q)
    case Err(_) => entries
  }

  // ---------------------------------------------------------------------------------------
  // Attributes of the MatMLData object

  /** `self.attr` for an attribute that is set only once its method has run. */
  function Attr<T>(o: Option<T>): (r: Result<T>)
    ensures o.Some? ==> r == Ok(o.value)
    ensures o.None? ==> r == Err(AttributeError)
  {
    if o.Some? then Ok(o.value) else Err(AttributeError)
  }

  // ---------------------------------------------------------------------------------------
  // getparameters

  /** The units of an id: `[units[id]]`, or `['-']` when it has none. */
  function UnitsFor(units: ODict<Val, string>, id: Val): (r: Val)
    ensures Hashable(id) && HasKey(units, id) ==> r == List([Str(Get(units, id))])
    ensures !(Hashable(id) && HasKey(units, id)) ==> r == List([Str("-")])
  {
    match Lookup(units, id)
    case Ok(u) => List([Str(u)])
    case Err(_) => List([Str("-")])
  }

  /** The values of a parameter element: the parsed data, or `['-']` when reading or parsing
      it raises; data made only of `'-'` gives no values. */
  function ParameterValues(xmlparameter: Val, parse: NumParser): seq<Val> {
    var values := match Index(xmlparameter, "Data") case Ok(data) => ParsedValues(data, parse) case Err(e) => Err(e);
    match values
    case Ok(vs) => vs
    case Err(_) => [Str("-")]
  }

  /** One parameter element: its name (from the id map) and the `MaterialParameter` built
      from it: an empty parameter given `Name`, `Units`, `Values` and the qualifiers. */
  function ParameterOf(ids: Option<ODict<Val, Val>>, units: Option<ODict<Val, string>>, xmlparameter: Val,
                       parse: NumParser): (r: Result<(string, Val)>)
    ensures r.Ok? ==> (ids.Some? && Index(xmlparameter, "@parameter").Ok? &&
      Lookup(ids.value, Index(xmlparameter, "@parameter").value) == Ok(Str(r.value.0)) &&
      r.value.1 == BuiltParameter(units, Index(xmlparameter, "@parameter").value, Str(r.value.0), xmlparameter, parse))
  {
    var id :- Index(xmlparameter, "@parameter");
    var idmap :- Attr(ids);
    var name :- Lookup(idmap, id);
    if !name.Str? then Err(TypeError) else Ok((name.s, BuiltParameter(units, id, name, xmlparameter, parse)))
  }

  /** The units of a parameter: `[self.units[id]]`, or `['-']` when that raises. */
  function ParameterUnits(units: Option<ODict<Val, string>>, id: Val): (r: Val)
    ensures r.List? && |r.items| == 1 && r.items[0].Str?
  {
    match units case Some(u) => UnitsFor(u, id) case None => List([Str("-")])
  }

  /** The parameter built for a parameter element whose id and name are known. */
  function BuiltParameter(units: Option<ODict<Val, string>>, id: Val, name: Val, xmlparameter: Val, parse: NumParser): Val {
    Param(PyNone, WithQualifiers(ParameterFields(name, ParameterUnits(units, id), List(ParameterValues(xmlparameter, parse))), xmlparameter))
  }

  /** `MaterialParameter()` given `Name`, `Units` and `Values`. */
  function ParameterFields(name: Val, unitlist: Val, values: Val): (e: ODict<string, Val>)
    ensures HasKey(e, "Name") && Get(e, "Name") == name
    ensures HasKey(e, "ParameterName") && Get(e, "ParameterName") == PyNone
    ensures HasKey(e, "Units") && Get(e, "Units") == unitlist
    ensures HasKey(e, "Values") && Get(e, "Values") == values
  {
    var empty := NewParameter(PyNone, List([]), List([]));
    assert HasKey(empty.entries, "ParameterName") && Get(empty.entries, "ParameterName") == PyNone;
    var named := Set(empty.entries, "Name", name);
    SetKeeps(empty.entries, "Name", name, "ParameterName");
    var withUnits := Set(named, "Units", unitlist);
    SetKeeps(named, "Units", unitlist, "Name");
    SetKeeps(named, "Units", unitlist, "ParameterName");
    var e := Set(withUnits, "Values", values);
    SetKeeps(withUnits, "Values", values, "Name");
    SetKeeps(withUnits, "Values", values, "ParameterName");
    SetKeeps(withUnits, "Values", values, "Units");
    e
  }

  function ParameterStep(ids: Option<ODict<Val, Val>>, units: Option<ODict<Val, string>>, parse: NumParser):
    (ODict<string, Val>, Val) -> Result<ODict<string, Val>>
  {
    (parameters: ODict<string, Val>, xmlparameter: Val) =>
      match ParameterOf(ids, units, xmlparameter, parse)
      case Ok(p) => Ok(Set(parameters, p.0, p.1))
      case Err(e) => Err(e)
  }

  /** The pairs of a property whose values are lists. */
  function ListEntries(entries: ODict<string, Val>): (r: ODict<string, Val>)
    ensures forall i :: 0 <= i < |r| ==> r[i].1.List?
    ensures forall k :: HasKey(entries, k) && Get(entries, k).List? ==> HasKey(r, k)
    decreases |entries|
  {
    if |entries| == 0 then []
    else
      var n := |entries|;
      var init := entries[..n - 1];
      var r := ListEntries(init) + (if entries[n - 1].1.List? then [entries[n - 1]] else []);
      assert entries == init + [entries[n - 1]];
      assert forall k :: HasKey(entries, k) ==> HasKey(init, k) || entries[n - 1].0 == k by {
        forall k | HasKey(entries, k) && entries[n - 1].0 != k ensures HasKey(init, k) {
          var i := IndexOf(entries, k);
          assert init[i].0 == k;
        }
      }
      assert forall k :: HasKey(entries, k) && HasKey(init, k) ==> Get(entries, k) == Get(init, k) by {
        forall k | HasKey(entries, k) && HasKey(init, k) ensures Get(entries, k) == Get(init, k) {
          GetAt(entries, IndexOf(init, k), k);
        }
      }
      assert forall k :: HasKey(ListEntries(init), k) ==> HasKey(r, k) by {
        forall k | HasKey(ListEntries(init), k) ensures HasKey(r, k) {
          assert r[IndexOf(ListEntries(init), k)].0 == k;
        }
      }
      if entries[n - 1].1.List? then
        assert r[|r| - 1].0 == entries[n - 1].0;
        r
      else
        assert forall k :: HasKey(entries, k) && entries[n - 1].0 == k && !HasKey(init, k) ==> !Get(entries, k).List? by {
          forall k | HasKey(entries, k) && entries[n - 1].0 == k && !HasKey(init, k) ensures !Get(entries, k).List? {
            GetAt(entries, n - 1, k);
          }
        }
        r
  }

  /** The property's own entry, added when no parameter carries its name: a plain dictionary
      holding the property's list-valued fields, then its `PropertyName`. */
  function SelfEntry(property: Val, parameters: ODict<string, Val>): (r: Result<ODict<string, Val>>)
    requires property.Prop?
    ensures !Hashable(property.name) ==> r == Err(TypeError)
    ensures Hashable(property.name) && property.name.Str? && HasKey(parameters, property.name.s) ==>
      r == Ok(parameters)
    ensures Hashable(property.name) && !(property.name.Str? && HasKey(parameters, property.name.s)) ==>
      (Index(property, "PropertyName").Err? ==> r == Err(Index(property, "PropertyName").error)) &&
      (Index(property, "PropertyName").Ok? && !Index(property, "PropertyName").value.Str? ==> r == Err(TypeError))
    ensures r.Ok? && !(property.name.Str? && HasKey(parameters, property.name.s)) ==>
      Index(property, "PropertyName").Ok? && Index(property, "PropertyName").value.Str? &&
      var key := Index(property, "PropertyName").value;
      HasKey(r.value, key.s) &&
      Get(r.value, key.s) == Dict(FromPairs(ListEntries(property.entries) + [("PropertyName", key)])) &&
      forall k :: k != key.s ==> SameAt(parameters, r.value, k)
  {
    if !Hashable(property.name) then Err(TypeError)
    else if property.name.Str? && HasKey(parameters, property.name.s) then Ok(parameters)
    else
      var key :- Index(property, "PropertyName");
      if !key.Str? then Err(TypeError)
      else
        var own := Dict(FromPairs(ListEntries(property.entries) + [("PropertyName", key)]));
        SetSameAt(parameters, key.s, own);
        Ok(Set(parameters, key.s, own))
  }

  /** `getparameters`: nothing when the element has no `ParameterValue`; otherwise one
      parameter per element and the property's own entry. */
  function ParametersOf(ids: Option<ODict<Val, Val>>, units: Option<ODict<Val, string>>, property: Val,
                        xmlproperty: Val, parse: NumParser): (r: Result<ODict<string, Val>>)
    requires property.Prop?
    ensures Index(xmlproperty, "ParameterValue").Err? ==> r == Ok([])
    ensures Index(xmlproperty, "ParameterValue").Ok? ==>
      var folded := Fold([], AsList(Index(xmlproperty, "ParameterValue").value), ParameterStep(ids, units, parse));
      (folded.Err? ==> r == Err(folded.error)) &&
      (folded.Ok? ==> r == SelfEntry(property, folded.value) &&
                      (r.Ok? ==> forall k :: HasKey(folded.value, k) ==> HasKey(r.value, k)))
  {
    match Index(xmlproperty, "ParameterValue")
    case Err(_) => Ok([])
    case Ok(values) =>
      var parameters :- Fold([], AsList(values), ParameterStep(ids, units, parse));
      SelfEntry(property, parameters)
  }

  // ---------------------------------------------------------------------------------------
  // getproperties

  /** `self.ids[xmlproperty['@property']]`. */
  function PropertyName(ids: Option<ODict<Val, Val>>, xmlproperty: Val): Result<Val> {
    var id :- Index(xmlproperty, "@property");
    var idmap :- Attr(ids);
    Lookup(idmap, id)
  }

  /** A property's values: the parsed data, or `['-']` when there is none. */
  function PropertyValues(values: seq<Val>): Val {
    if values == [] then List([Str("-")]) else List(values)
  }

  /** The property built from one `PropertyData` element, before its parameters: a new
      `MaterialProperty` given `Values`, `Units` and the qualifiers. */
  function BareProperty(ids: Option<ODict<Val, Val>>, units: Option<ODict<Val, string>>, xmlproperty: Val,
                        parse: NumParser): (r: Result<Val>)
    ensures r.Ok? ==> (PropertyName(ids, xmlproperty).Ok? && units.Some? && Index(xmlproperty, "@property").Ok? &&
      DataValues(xmlproperty, parse).Ok? &&
      r.value == BuiltProperty(PropertyName(ids, xmlproperty).value, DataValues(xmlproperty, parse).value,
                               UnitsFor(units.value, Index(xmlproperty, "@property").value), xmlproperty))
  {
    var id :- Index(xmlproperty, "@property");
    var name :- PropertyName(ids, xmlproperty);
    var values :- DataValues(xmlproperty, parse);
    var unitmap :- Attr(units);
    Ok(BuiltProperty(name, values, UnitsFor(unitmap, id), xmlproperty))
  }

  /** The numbers of `xmlproperty['Data']['#text']`. */
  function DataValues(xmlproperty: Val, parse: NumParser): (r: Result<seq<Val>>)
    ensures r.Ok? ==> forall i :: 0 <= i < |r.value| ==> r.value[i].Num?
  {
    var data :- Index(xmlproperty, "Data");
    var text :- Index(data, "#text");
    ParsedValues(text, parse)
  }

  /** The property built for an element whose name, values and units are known. */
  function BuiltProperty(name: Val, values: seq<Val>, unitlist: Val, xmlproperty: Val): Val {
    Prop(name, WithQualifiers(PropertyFields(name, PropertyValues(values), unitlist), xmlproperty))
  }

  /** `MaterialProperty(name)` given `Values` and `Units`. */
  function PropertyFields(name: Val, values: Val, unitlist: Val): (e: ODict<string, Val>)
    ensures HasKey(e, "PropertyName") && Get(e, "PropertyName") == name
    ensures HasKey(e, "Values") && Get(e, "Values") == values
    ensures HasKey(e, "Units") && Get(e, "Units") == unitlist
  {
    var created := DefaultProperty(name);
    assert HasKey(created.entries, "PropertyName") && Get(created.entries, "PropertyName") == name;
    var withValues := Set(created.entries, "Values", values);
    SetKeeps(created.entries, "Values", values, "PropertyName");
    var e := Set(withValues, "Units", unitlist);
    SetKeeps(withValues, "Units", unitlist, "PropertyName");
    SetKeeps(withValues, "Units", unitlist, "Values");
    e
  }

  /** The property built from one `PropertyData` element, with its parameters, and its name. */
  function PropertyOf(ids: Option<ODict<Val, Val>>, units: Option<ODict<Val, string>>, xmlproperty: Val,
                      parse: NumParser): (r: Result<(string, Val)>)
    ensures r.Ok? ==> PropertyName(ids, xmlproperty) == Ok(Str(r.value.0))
    ensures r.Ok? ==> r.value.1.Prop? && r.value.1.name == Str(r.value.0)
  {
    var name :- PropertyName(ids, xmlproperty);
    var bare :- BareProperty(ids, units, xmlproperty, parse);
    var parameters :- ParametersOf(ids, units, bare, xmlproperty, parse);
    if !name.Str? then Err(TypeError) else Ok((name.s, Prop(name, Update(bare.entries, parameters))))
  }

  /** One pass of `getproperties`: a property name seen before is skipped. */
  function PropertyStep(ids: Option<ODict<Val, Val>>, units: Option<ODict<Val, string>>, parse: NumParser):
    (step: (ODict<string, Val>, Val) -> Result<ODict<string, Val>>)
    ensures forall properties, xmlproperty :: PropertyName(ids, xmlproperty).Err? ==>
      step(properties, xmlproperty) == Err(PropertyName(ids, xmlproperty).error)
    ensures forall properties, xmlproperty ::
      PropertyName(ids, xmlproperty).Ok? && PropertyName(ids, xmlproperty).value.Str? &&
      HasKey(properties, PropertyName(ids, xmlproperty).value.s) ==>
        step(properties, xmlproperty) == Ok(properties)
  {
    (properties: ODict<string, Val>, xmlproperty: Val) =>
      match PropertyName(ids, xmlproperty)
      case Err(e) => Err(e)
      case Ok(name) =>
        if !Hashable(name) then Err(TypeError)
        else if name.Str? && HasKey(properties, name.s) then Ok(properties)
        else
          match PropertyOf(ids, units, xmlproperty, parse)
          case Ok(p) => Ok(Set(properties, p.0, p.1))
          case Err(e) => Err(e)
  }

  /** `getproperties` for a material element (the material's `MaterialName`, which the loop
      reads, is always there in a new `Material`). */
  function PropertiesOf(ids: Option<ODict<Val, Val>>, units: Option<ODict<Val, string>>, xmlmaterial: Val,
                        parse: NumParser): (r: Result<ODict<string, Val>>)
    ensures Index(xmlmaterial, "BulkDetails").Err? ==> r == Err(Index(xmlmaterial, "BulkDetails").error)
    ensures r.Ok? ==> UniqueKeys(r.value)
  {
    var bulk :- Index(xmlmaterial, "BulkDetails");
    var data :- Index(bulk, "PropertyData");
    var items :- Iter(data);
    var r := Fold([], items, PropertyStep(ids, units, parse));
    if r.Ok? then PropertiesUnique(ids, units, parse, [], items); r else r
  }

  // ---------------------------------------------------------------------------------------
  // getmaterials

  /** The state of the `getmaterials` loop: the materials built so far, and the variable
      `material` (unbound before the first material is built). */
  datatype Built = Built(materials: ODict<string, Entry>, material: Option<Entry>)

  /** `xmlmaterial['BulkDetails']['Name']`. */
  function MaterialName(xmlmaterial: Val): Result<Val> {
    var bulk :- Index(xmlmaterial, "BulkDetails");
    Index(bulk, "Name")
  }

  /** The description of a material element, or `'-'` when reading it raises. */
  function Description(xmlmaterial: Val): Val {
    var bulk := Index(xmlmaterial, "BulkDetails");
    if bulk.Err? then Str("-")
    else match Index(bulk.value, "Description") case Ok(d) => d case Err(_) => Str("-")
  }

  /** A new material for one material element: its name, its description, and its
      properties. */
  function MaterialOf(ids: Option<ODict<Val, Val>>, units: Option<ODict<Val, string>>, name: Val, xmlmaterial: Val,
                      parse: NumParser): (r: Result<Entry>)
    ensures PropertiesOf(ids, units, xmlmaterial, parse).Err? ==> r == Err(PropertiesOf(ids, units, xmlmaterial, parse).error)
    ensures r.Ok? ==> r.value.Mat? && r.value.name == name
  {
    var created := NewMaterial(name);
    var described := Set(created.dict, "Description", Description(xmlmaterial));
    var properties :- PropertiesOf(ids, units, xmlmaterial, parse);
    Ok(Mat(name, Update(described, properties)))
  }

  /** One pass of `getmaterials`. A name the collection itself already holds is not rebuilt:
      the value of `material` from the previous pass is stored under it again. */
  function MaterialStep(ids: Option<ODict<Val, Val>>, units: Option<ODict<Val, string>>,
                        existing: ODict<string, Entry>, parse: NumParser): (step: (Built, Val) -> Result<Built>)
    ensures forall built, xmlmaterial :: MaterialName(xmlmaterial).Err? ==>
      step(built, xmlmaterial) == Err(MaterialName(xmlmaterial).error)
    ensures forall built, xmlmaterial :: MaterialName(xmlmaterial).Ok? && !Hashable(MaterialName(xmlmaterial).value) ==>
      step(built, xmlmaterial) == Err(TypeError)
    ensures forall built, xmlmaterial :: step(built, xmlmaterial).Ok? ==>
      MaterialName(xmlmaterial).Ok? && MaterialName(xmlmaterial).value.Str? &&
      step(built, xmlmaterial).value.material.Some? &&
      step(built, xmlmaterial).value.materials ==
        Set(built.materials, MaterialName(xmlmaterial).value.s, step(built, xmlmaterial).value.material.value)
  {
    (built: Built, xmlmaterial: Val) =>
      match MaterialName(xmlmaterial)
      case Err(e) => Err(e)
      case Ok(name) =>
        if !Hashable(name) then Err(TypeError)
        else
          var material :=
            if !(name.Str? && HasKey(existing, name.s)) then MaterialOf(ids, units, name, xmlmaterial, parse)
            else if built.material.None? then Err(UnboundLocalError)
            else Ok(built.material.value);
          if material.Err? then Err(material.error)
          else if !name.Str? then Err(TypeError)
          else Ok(Built(Set(built.materials, name.s, material.value), Some(material.value)))
  }

  /** `getmaterials` given the material elements. */
  function MaterialsOf(ids: Option<ODict<Val, Val>>, units: Option<ODict<Val, string>>, existing: ODict<string, Entry>,
                       xmlmaterials: seq<Val>, parse: NumParser): (r: Result<Built>)
    ensures |xmlmaterials| == 0 ==> r == Ok(Built([], None))
    ensures r.Ok? && |xmlmaterials| > 0 ==>
      var last := xmlmaterials[|xmlmaterials| - 1];
      MaterialName(last).Ok? && MaterialName(last).value.Str? && r.value.material.Some? &&
      HasKey(r.value.materials, MaterialName(last).value.s) &&
      Get(r.value.materials, MaterialName(last).value.s) == r.value.material.value
  {
    Fold(Built([], None), xmlmaterials, MaterialStep(ids, units, existing, parse))
  }

  /** `getmaterials` on a document: the material elements, then the materials built from them. */
  function MaterialsIn(matml: Val, ids: Option<ODict<Val, Val>>, units: Option<ODict<Val, string>>,
                       existing: ODict<string, Entry>, parse: NumParser): (r: Result<ODict<string, Entry>>)
    ensures Index(matml, "Material").Err? ==> r == Err(Index(matml, "Material").error)
    ensures Index(matml, "Material").Ok? ==>
      var built := MaterialsOf(ids, units, existing, AsList(Index(matml, "Material").value), parse);
      (built.Err? ==> r == Err(built.error)) && (built.Ok? ==> r == Ok(built.value.materials))
  {
    var xml :- Index(matml, "Material");
    var built :- MaterialsOf(ids, units, existing, AsList(xml), parse);
    Ok(built.materials)
  }

  /** The materials `getdata` adds to a collection holding `existing`. */
  function DataOf(matml: Option<Val>, existing: ODict<string, Entry>, parse: NumParser): (r: Result<ODict<string, Entry>>)
    ensures matml.None? ==> r == Err(AttributeError)
    ensures matml.Some? && UnitsOf(matml.value).Err? ==> r == Err(UnitsOf(matml.value).error)
    ensures matml.Some? && UnitsOf(matml.value).Ok? && IdsOf(matml.value).Err? ==> r == Err(IdsOf(matml.value).error)
    ensures matml.Some? && UnitsOf(matml.value).Ok? && IdsOf(matml.value).Ok? ==>
      r == MaterialsIn(matml.value, Some(IdsOf(matml.value).value), Some(UnitsOf(matml.value).value), existing, parse)
  {
    var doc :- Attr(matml);
    var units :- UnitsOf(doc);
    var ids :- IdsOf(doc);
    MaterialsIn(doc, Some(ids), Some(units), existing, parse)
  }

  /** `data['EngineeringData']['Materials']['MatML_Doc']`: where an ANSYS Engineering Data
      file keeps its MatML document. */
  function MatmlDoc(data: Val): (r: Result<Val>)
    ensures !IsMapping(data) ==> r == Err(TypeError)
    ensures IsMapping(data) && !HasKey(data.entries, "EngineeringData") ==> r == Err(KeyError)
    ensures r.Ok? ==>
      (IsMapping(data) && HasKey(data.entries, "EngineeringData") &&
       Index(Get(data.entries, "EngineeringData"), "Materials").Ok? &&
       Index(Index(Get(data.entries, "EngineeringData"), "Materials").value, "MatML_Doc") == r)
  {
    var engineering :- Index(data, "EngineeringData");
    var materials :- Index(engineering, "Materials");
    Index(materials, "MatML_Doc")
  }

  /** The materials `read.matml` produces from a parsed file (or from the failure to read it). */
  function ReadEntries(xml: Result<Val>, parse: NumParser): (r: Result<ODict<string, Entry>>)
    ensures xml.Err? ==> r == Err(xml.error)
    ensures xml.Ok? && MatmlDoc(xml.value).Err? ==> r == Err(MatmlDoc(xml.value).error)
    ensures xml.Ok? && MatmlDoc(xml.value).Ok? ==> r == DataOf(Some(MatmlDoc(xml.value).value), [], parse)
  {
    var data :- xml;
    var doc :- MatmlDoc(data);
    DataOf(Some(doc), [], parse)
  }

  // ---------------------------------------------------------------------------------------
  // Properties of getunits

  lemma {:induction false} LongerNotSubstring(sub: string, s: string)
    requires |sub| > |s|
    ensures !IsSubstring(sub, s)
    decreases |s|
  {
    if |s| > 0 {
      LongerNotSubstring(sub, s[1..]);
    }
  }

  /** What `getunits` does to the ids for one detail entry: it records the entry's `@id`, which
      must be hashable, and no other id changes. */
  lemma DetailUnitsRecords(units: ODict<Val, string>, ps: string, p: Val, r: ODict<Val, string>)
    requires DetailUnits(units, ps, p) == Ok(r)
    ensures Index(p, "@id").Ok? && Hashable(Index(p, "@id").value) && HasKey(r, Index(p, "@id").value)
    ensures forall k :: k != Index(p, "@id").value ==>
      (HasKey(r, k) <==> HasKey(units, k)) && (HasKey(units, k) ==> Get(r, k) == Get(units, k))
  {
    DetailUnitsIs(units, ps, p, r);
  }

  /** What `getunits` records for a detail entry with `Units`: its unit string. */
  lemma DetailUnitsText(units: ODict<Val, string>, ps: string, p: Val, r: ODict<Val, string>)
    requires DetailUnits(units, ps, p) == Ok(r) && Contains(p, "Units") == Ok(true)
    ensures Index(p, "@id").Ok? && HasKey(r, Index(p, "@id").value)
    ensures UnitString(p) == Ok(Get(r, Index(p, "@id").value))
  {
    DetailUnitsIs(units, ps, p, r);
  }

  /** What `getunits` records for a detail entry without `Units`: `'Unitless'` exactly for a
      `Unitless` entry of a list whose name contains `ParameterDetails`, and `'-'` else. */
  lemma DetailUnitsMarker(units: ODict<Val, string>, ps: string, p: Val, r: ODict<Val, string>)
    requires DetailUnits(units, ps, p) == Ok(r) && Contains(p, "Units") == Ok(false)
    ensures Index(p, "@id").Ok? && HasKey(r, Index(p, "@id").value)
    ensures Get(r, Index(p, "@id").value) == "Unitless" <==>
      IsSubstring("ParameterDetails", ps) && Contains(p, "Unitless") == Ok(true)
    ensures Get(r, Index(p, "@id").value) != "Unitless" ==> Get(r, Index(p, "@id").value) == "-"
  {
    assert "Unitless" != "-" by {
      assert |"Unitless"| == 8;
    }
    DetailUnitsIs(units, ps, p, r);
  }

  /** Of the two detail lists, only `ParameterDetails` passes the `'ParameterDetails' in ps`
      test. */
  lemma ParameterListNamed(ps: string)
    requires ps == "PropertyDetails" || ps == "ParameterDetails"
    ensures IsSubstring("ParameterDetails", ps) <==> ps == "ParameterDetails"
  {
    if ps == "PropertyDetails" {
      LongerNotSubstring("ParameterDetails", ps);
    } else {
      assert ps[..|"ParameterDetails"|] == "ParameterDetails";
    }
  }

  /** A detail entry `getunits` accepts has `Units` decided and a hashable `@id`, and sets
      that id to the unit string or to the `'Unitless'`/`'-'` marker. */
  lemma DetailUnitsIs(units: ODict<Val, string>, ps: string, p: Val, r: ODict<Val, string>)
    requires DetailUnits(units, ps, p) == Ok(r)
    ensures Contains(p, "Units").Ok? && Index(p, "@id").Ok? && Hashable(Index(p, "@id").value)
    ensures Contains(p, "Units").value ==>
      UnitString(p).Ok? && r == Set(units, Index(p, "@id").value, UnitString(p).value)
    ensures !Contains(p, "Units").value ==> Contains(p, "Unitless").Ok?
    ensures !Contains(p, "Units").value ==>
      r == Set(units, Index(p, "@id").value,
               if Contains(p, "Unitless").value && IsSubstring("ParameterDetails", ps) then "Unitless" else "-")
  {
  }

  lemma PiecesTexts(s: string, sep: char)
    ensures forall i :: 0 <= i < |Pieces(s, sep)| ==> Pieces(s, sep)[i].Str?
    ensures Texts(Pieces(s, sep)) == Split(s, sep)
  {
  }

  /** Strings joined with a separator none of them contains split back into the same
      strings. */
  lemma JoinStringsSplit(u: seq<Val>, sep: char, s: string)
    requires |u| > 0 && JoinStrings([sep], u) == Ok(s)
    requires forall i :: 0 <= i < |u| ==> u[i].Str? && sep !in u[i].s
    ensures Pieces(s, sep) == u
  {
    SplitJoin(Texts(u), sep);
    assert Split(s, sep) == Texts(u);
  }

  /** The unit string of a detail entry holds one term per `Unit` element, in document order,
      each `Name^power` or `Name`; when no term contains `'.'`, splitting the string on `'.'`
      gives the terms back. */
  lemma UnitStringTerms(p: Val, s: string)
    requires UnitString(p) == Ok(s)
    ensures Index(p, "Units").Ok? && Index(Index(p, "Units").value, "Unit").Ok?
    ensures var terms := AsList(Index(Index(p, "Units").value, "Unit").value);
      Terms(terms).Ok? && |Terms(terms).value| == |terms| &&
      (forall i :: 0 <= i < |terms| ==> UnitTerm(terms[i]) == Ok(Terms(terms).value[i]) && Terms(terms).value[i].Str?) &&
      ((forall i :: 0 <= i < |terms| ==> '.' !in Terms(terms).value[i].s) && |terms| > 0 ==> Pieces(s, '.') == Terms(terms).value)
  {
    var terms := AsList(Index(Index(p, "Units").value, "Unit").value);
    var u := Terms(terms).value;
    if (forall i :: 0 <= i < |terms| ==> '.' !in u[i].s) && |terms| > 0 {
      JoinStringsSplit(u, '.', s);
    }
  }

  // ---------------------------------------------------------------------------------------
  // Properties of getids

  /** The id of a detail entry, once read successfully. */
  function IdKey(item: Val): Val {
    match Index(item, "@id") case Ok(id) => id case Err(_) => PyNone
  }

  /** The name of a detail entry, once read successfully. */
  function IdName(item: Val): Val {
    match Index(item, "Name") case Ok(name) => name case Err(_) => PyNone
  }

  /** An id of the detail lists maps to the name of the last entry carrying it. */
  lemma IdsLastWins(ids0: ODict<Val, Val>, items: seq<Val>, r: ODict<Val, Val>, i: nat)
    requires Fold(ids0, items, IdStep) == Ok(r) && i < |items|
    requires forall j :: i < j < |items| ==> Index(items[j], "@id") != Index(items[i], "@id")
    ensures Index(items[i], "@id").Ok? && Index(items[i], "Name").Ok?
    ensures HasKey(r, Index(items[i], "@id").value)
    ensures Get(r, Index(items[i], "@id").value) == Index(items[i], "Name").value
  {
    forall a, x, b | IdStep(a, x) == Ok(b)
      ensures Stores(a, b, IdKey(x), true, IdName(x))
    {
      IdStepSets(a, x, b);
    }
    forall j | i <= j < |items|
      ensures Index(items[j], "@id").Ok? && Index(items[j], "Name").Ok?
    {
      var t, u := FoldPass(ids0, items, IdStep, r, j);
      IdStepSets(t, items[j], u);
    }
    FoldLastWins(ids0, items, IdStep, (d: ODict<Val, Val>) => d, IdKey, (x: Val) => true, IdName, r, i);
  }

  lemma IdStepSets(ids: ODict<Val, Val>, item: Val, r: ODict<Val, Val>)
    requires IdStep(ids, item) == Ok(r)
    ensures Index(item, "@id").Ok? && Index(item, "Name").Ok?
    ensures r == Set(ids, Index(item, "@id").value, Index(item, "Name").value)
  {
  }

  // ---------------------------------------------------------------------------------------
  // Properties of values and qualifiers

  /** A qualifier is stored under its name as the pieces of its text, which join back into
      the text. */
  lemma QualifierRoundTrip(qdict: ODict<string, Val>, q: Val, r: ODict<string, Val>)
    requires QualifierStep(qdict, q) == Ok(r)
    ensures Index(q, "#text").Ok? && Index(q, "#text").value.Str?
    ensures Index(q, "@name").Ok? && Index(q, "@name").value.Str?
    ensures var name := Index(q, "@name").value.s;
      HasKey(r, name) && Get(r, name).List? &&
      (forall i :: 0 <= i < |Get(r, name).items| ==> Get(r, name).items[i].Str?) &&
      Join([','], Texts(Get(r, name).items)) == Index(q, "#text").value.s
  {
    var text := Index(q, "#text").value.s;
    PiecesTexts(text, ',');
    JoinSplit(text, ',');
  }

  /** The values of a parameter are the numbers parsed from its data (none when the data is
      only `'-'`), or `['-']` when it has no data or the data does not parse. */
  lemma ParameterValuesShape(xmlparameter: Val, parse: NumParser)
    ensures var vs := ParameterValues(xmlparameter, parse);
      vs == [Str("-")] || forall i :: 0 <= i < |vs| ==> vs[i].Num?
    ensures Index(xmlparameter, "Data").Err? ==> ParameterValues(xmlparameter, parse) == [Str("-")]
    ensures (Index(xmlparameter, "Data").Ok? && Index(xmlparameter, "Data").value.Str? &&
             forall x :: x in Split(Index(xmlparameter, "Data").value.s, ',') ==> x == "-") ==>
      ParameterValues(xmlparameter, parse) == []
  {
    if Index(xmlparameter, "Data").Ok? && Index(xmlparameter, "Data").value.Str? {
      var pieces := Split(Index(xmlparameter, "Data").value.s, ',');
      if forall x :: x in pieces ==> x == "-" {
        forall i | 0 <= i < |pieces| ensures pieces[i] == "-" {
          assert pieces[i] in pieces;
        }
        FilledAllDashes(pieces);
      }
    }
  }

  // ---------------------------------------------------------------------------------------
  // Properties of getparameters

  /** A parameter carries its name from the id map under `Name`, no `ParameterName` value,
      one unit (its units or `'-'`), and its values, unless a qualifier overrides those keys. */
  lemma ParameterOfFields(ids: Option<ODict<Val, Val>>, units: Option<ODict<Val, string>>, xmlparameter: Val,
                          parse: NumParser, name: string, p: Val)
    requires ParameterOf(ids, units, xmlparameter, parse) == Ok((name, p))
    requires Qualifiers(xmlparameter).Ok? ==>
      forall k :: k in ["Name", "ParameterName", "Units", "Values"] ==> !HasKey(Qualifiers(xmlparameter).value, k)
    ensures ids.Some? && Index(xmlparameter, "@parameter").Ok?
    ensures Lookup(ids.value, Index(xmlparameter, "@parameter").value) == Ok(Str(name))
    ensures p.Param? && p.name == PyNone
    ensures Index(p, "Name") == Ok(Str(name)) && Index(p, "ParameterName") == Ok(PyNone)
    ensures Index(p, "Units").Ok? && Index(p, "Units").value.List? && |Index(p, "Units").value.items| == 1
    ensures Index(p, "Values") == Ok(List(ParameterValues(xmlparameter, parse)))
  {
    var id := Index(xmlparameter, "@parameter").value;
    BuiltParameterFields(units, id, Str(name), xmlparameter, parse);
  }

  lemma BuiltParameterFields(units: Option<ODict<Val, string>>, id: Val, name: Val, xmlparameter: Val, parse: NumParser)
    requires Qualifiers(xmlparameter).Ok? ==>
      forall k :: k in ["Name", "ParameterName", "Units", "Values"] ==> !HasKey(Qualifiers(xmlparameter).value, k)
    ensures var p := BuiltParameter(units, id, name, xmlparameter, parse);
      p.Param? && p.name == PyNone &&
      Index(p, "Name") == Ok(name) && Index(p, "ParameterName") == Ok(PyNone) &&
      Index(p, "Units").Ok? && Index(p, "Units").value.List? && |Index(p, "Units").value.items| == 1 &&
      Index(p, "Values") == Ok(List(ParameterValues(xmlparameter, parse)))
  {
    var e := ParameterFields(name, ParameterUnits(units, id), List(ParameterValues(xmlparameter, parse)));
    if Qualifiers(xmlparameter).Ok? {
      var q := Qualifiers(xmlparameter).value;
      assert !HasKey(q, "Name") && !HasKey(q, "ParameterName") && !HasKey(q, "Units") && !HasKey(q, "Values");
      UpdateGet(e, q, "Name");
      UpdateGet(e, q, "ParameterName");
      UpdateGet(e, q, "Units");
      UpdateGet(e, q, "Values");
    }
  }

  /** With a `ParameterValue`, the result always holds an entry under the property's name:
      a parameter of that name, or else the property's own entry, a dictionary holding its
      `PropertyName` and every list-valued field. Without one, the result is empty. */
  lemma SelfEntryPresent(ids: Option<ODict<Val, Val>>, units: Option<ODict<Val, string>>, property: Val,
                         xmlproperty: Val, parse: NumParser, r: ODict<string, Val>)
    requires property.Prop? && property.name.Str? && Index(property, "PropertyName") == Ok(property.name)
    requires ParametersOf(ids, units, property, xmlproperty, parse) == Ok(r)
    ensures Index(xmlproperty, "ParameterValue").Err? ==> r == []
    ensures Index(xmlproperty, "ParameterValue").Ok? ==> HasKey(r, property.name.s)
    ensures Index(xmlproperty, "ParameterValue").Ok? ==>
      var folded := Fold([], AsList(Index(xmlproperty, "ParameterValue").value), ParameterStep(ids, units, parse));
      folded.Ok? &&
      (HasKey(folded.value, property.name.s) ==> r == folded.value) &&
      (!HasKey(folded.value, property.name.s) ==>
         var own := Get(r, property.name.s);
         own.Dict? && Index(own, "PropertyName") == Ok(property.name) &&
         (forall k :: HasKey(property.entries, k) && Get(property.entries, k).List? ==> HasKey(own.entries, k)) &&
         (UniqueKeys(property.entries) ==>
            own.entries == ListEntries(property.entries) + [("PropertyName", property.name)]))
  {
    if Index(xmlproperty, "ParameterValue").Ok? {
      var folded := Fold([], AsList(Index(xmlproperty, "ParameterValue").value), ParameterStep(ids, units, parse));
      var n := property.name.s;
      if !HasKey(folded.value, n) {
        var pairs := ListEntries(property.entries) + [("PropertyName", property.name)];
        var own := FromPairs(pairs);
        assert Get(r, n) == Dict(own);
        assert own == Set(FromPairs(pairs[..|pairs| - 1]), "PropertyName", property.name);
        forall k | HasKey(property.entries, k) && Get(property.entries, k).List?
          ensures HasKey(own, k)
        {
          var j := IndexOf(ListEntries(property.entries), k);
          assert pairs[j].0 == k;
          FromPairsHas(pairs, k);
        }
        if UniqueKeys(property.entries) {
          OwnPairsUnique(property.entries, property.name);
          FromPairsOfUnique(pairs);
        }
      }
    }
  }

  /** With unique keys, the list-valued fields followed by `PropertyName` (a string field)
      name every key once. */
  lemma OwnPairsUnique(entries: ODict<string, Val>, name: Val)
    requires UniqueKeys(entries) && HasKey(entries, "PropertyName") && !Get(entries, "PropertyName").List?
    ensures UniqueKeys(ListEntries(entries) + [("PropertyName", name)])
  {
    ListEntriesPairs(entries);
    var l := ListEntries(entries);
    var pairs := l + [("PropertyName", name)];
    forall i | 0 <= i < |l| ensures l[i].0 != "PropertyName" {
      assert l[i] in l;
      var m :| 0 <= m < |entries| && entries[m] == l[i];
    }
    forall i, j | 0 <= i < j < |pairs| ensures pairs[i].0 != pairs[j].0 {
      if j < |l| {
        assert pairs[i] == l[i] && pairs[j] == l[j];
      }
    }
  }

  /** With unique keys, the list-valued fields of a property, in order, keep their values:
      a key is present exactly when the property holds a list under it, with that list. */
  lemma ListEntriesValues(entries: ODict<string, Val>, k: string)
    requires UniqueKeys(entries)
    ensures HasKey(ListEntries(entries), k) <==> HasKey(entries, k) && Get(entries, k).List?
    ensures HasKey(ListEntries(entries), k) ==> Get(ListEntries(entries), k) == Get(entries, k)
  {
    ListEntriesPairs(entries);
    var l := ListEntries(entries);
    if HasKey(l, k) {
      var p := l[IndexOf(l, k)];
      assert p in l;
      var m :| 0 <= m < |entries| && entries[m] == p;
      GetAt(entries, m, k);
    }
  }

  /** The copy holds exactly the list-valued fields, and no key twice when the property has
      none twice. */
  lemma {:induction false} ListEntriesPairs(entries: ODict<string, Val>)
    ensures forall p :: p in ListEntries(entries) <==> p in entries && p.1.List?
    ensures UniqueKeys(entries) ==> UniqueKeys(ListEntries(entries))
    decreases |entries|
  {
    if |entries| > 0 {
      var n := |entries|;
      var init, x := entries[..n - 1], entries[n - 1];
      ListEntriesPairs(init);
      assert entries == init + [x];
      ListEntriesSnoc(init, x);
      var r := ListEntries(entries);
      assert r == ListEntries(init) + (if x.1.List? then [x] else []);
      if UniqueKeys(entries) {
        assert UniqueKeys(init) by {
          forall i, j | 0 <= i < j < |init| ensures init[i].0 != init[j].0 {
            assert init[i] == entries[i] && init[j] == entries[j];
          }
        }
        forall i, j | 0 <= i < j < |r| ensures r[i].0 != r[j].0 {
          if j == |ListEntries(init)| {
            assert r[i] in ListEntries(init);
            var m :| 0 <= m < |init| && init[m] == r[i];
            assert entries[m] == r[i] && r[j] == entries[n - 1];
          }
        }
      }
    }
  }

  /** The copy keeps the order of the fields: copying two runs of fields gives the copied runs
      one after the other. */
  lemma {:induction false} ListEntriesConcat(a: ODict<string, Val>, b: ODict<string, Val>)
    ensures ListEntries(a + b) == ListEntries(a) + ListEntries(b)
    decreases |b|
  {
    if |b| == 0 {
      assert a + b == a;
    } else {
      var n := |b|;
      var init, x := b[..n - 1], b[n - 1];
      ListEntriesConcat(a, init);
      assert a + b == (a + init) + [x] && b == init + [x];
      ListEntriesSnoc(a + init, x);
      ListEntriesSnoc(init, x);
    }
  }

  /** One more field adds its own entry, if any, at the end. */
  lemma ListEntriesSnoc(d: ODict<string, Val>, x: (string, Val))
    ensures ListEntries(d + [x]) == ListEntries(d) + (if x.1.List? then [x] else [])
  {
    assert (d + [x])[..|d|] == d;
  }

  // ---------------------------------------------------------------------------------------
  // Properties of getproperties

  /** A property built from an element carries its name, one unit, and values that are never
      empty: the parsed numbers, or `['-']`. */
  lemma BarePropertyFields(ids: Option<ODict<Val, Val>>, units: Option<ODict<Val, string>>, xmlproperty: Val,
                           parse: NumParser, p: Val)
    requires BareProperty(ids, units, xmlproperty, parse) == Ok(p)
    requires Qualifiers(xmlproperty).Ok? ==>
      forall k :: k in ["PropertyName", "Units", "Values"] ==> !HasKey(Qualifiers(xmlproperty).value, k)
    ensures PropertyName(ids, xmlproperty) == Ok(p.name)
    ensures p.Prop? && Index(p, "PropertyName") == Ok(p.name)
    ensures Index(p, "Units").Ok? && Index(p, "Units").value.List? && |Index(p, "Units").value.items| == 1
    ensures Index(p, "Values").Ok? && Index(p, "Values").value.List?
    ensures var vs := Index(p, "Values").value.items;
      |vs| > 0 && (vs == [Str("-")] || forall i :: 0 <= i < |vs| ==> vs[i].Num?)
  {
    var id := Index(xmlproperty, "@property").value;
    BuiltPropertyFields(PropertyName(ids, xmlproperty).value, DataValues(xmlproperty, parse).value,
                        UnitsFor(units.value, id), xmlproperty);
  }

  lemma BuiltPropertyFields(name: Val, values: seq<Val>, unitlist: Val, xmlproperty: Val)
    requires forall i :: 0 <= i < |values| ==> values[i].Num?
    requires unitlist.List? && |unitlist.items| == 1
    requires Qualifiers(xmlproperty).Ok? ==>
      forall k :: k in ["PropertyName", "Units", "Values"] ==> !HasKey(Qualifiers(xmlproperty).value, k)
    ensures var p := BuiltProperty(name, values, unitlist, xmlproperty);
      p.Prop? && p.name == name && Index(p, "PropertyName") == Ok(name) &&
      Index(p, "Units") == Ok(unitlist) && Index(p, "Values") == Ok(PropertyValues(values))
  {
    var e := PropertyFields(name, PropertyValues(values), unitlist);
    if Qualifiers(xmlproperty).Ok? {
      var q := Qualifiers(xmlproperty).value;
      assert !HasKey(q, "PropertyName") && !HasKey(q, "Units") && !HasKey(q, "Values");
      UpdateGet(e, q, "PropertyName");
      UpdateGet(e, q, "Units");
      UpdateGet(e, q, "Values");
    }
  }

  /** The name a property element gets, once read successfully. */
  function PropertyKey(ids: Option<ODict<Val, Val>>, xmlproperty: Val): string {
    match PropertyName(ids, xmlproperty) case Ok(Str(k)) => k case _ => ""
  }

  /** The property built from an element, once built successfully. */
  function PropertyBuilt(ids: Option<ODict<Val, Val>>, units: Option<ODict<Val, string>>, parse: NumParser,
                         xmlproperty: Val): Val {
    match PropertyOf(ids, units, xmlproperty, parse) case Ok(p) => p.1 case Err(_) => PyNone
  }

  /** One pass of `getproperties` adds the element's property only under a name not yet
      present. */
  lemma PropertyStepKeeps(ids: Option<ODict<Val, Val>>, units: Option<ODict<Val, string>>, parse: NumParser,
                          a: ODict<string, Val>, xmlproperty: Val, b: ODict<string, Val>)
    requires PropertyStep(ids, units, parse)(a, xmlproperty) == Ok(b)
    ensures PropertyName(ids, xmlproperty) == Ok(Str(PropertyKey(ids, xmlproperty)))
    ensures Keeps(a, b, PropertyKey(ids, xmlproperty), PropertyBuilt(ids, units, parse, xmlproperty))
    ensures !HasKey(a, PropertyKey(ids, xmlproperty)) ==> PropertyOf(ids, units, xmlproperty, parse).Ok?
  {
    PropertyStepIs(ids, units, parse, a, xmlproperty, b);
    KeepsBySet(a, b, PropertyKey(ids, xmlproperty), PropertyBuilt(ids, units, parse, xmlproperty));
  }

  /** A pass of `getproperties` that does not raise: the element has a string name, and a
      name not yet present gets the property built from the element. */
  lemma PropertyStepIs(ids: Option<ODict<Val, Val>>, units: Option<ODict<Val, string>>, parse: NumParser,
                       a: ODict<string, Val>, xmlproperty: Val, b: ODict<string, Val>)
    requires PropertyStep(ids, units, parse)(a, xmlproperty) == Ok(b)
    ensures PropertyName(ids, xmlproperty).Ok? && PropertyName(ids, xmlproperty).value.Str?
    ensures HasKey(a, PropertyName(ids, xmlproperty).value.s) ==> b == a
    ensures !HasKey(a, PropertyName(ids, xmlproperty).value.s) ==>
      PropertyOf(ids, units, xmlproperty, parse).Ok? &&
      PropertyOf(ids, units, xmlproperty, parse).value.0 == PropertyName(ids, xmlproperty).value.s &&
      b == Set(a, PropertyName(ids, xmlproperty).value.s, PropertyOf(ids, units, xmlproperty, parse).value.1)
  {
  }

  /** The first element naming a property decides it: later elements with the same name are
      skipped. */
  lemma PropertiesFirstWins(ids: Option<ODict<Val, Val>>, units: Option<ODict<Val, string>>, parse: NumParser,
                            p0: ODict<string, Val>, items: seq<Val>, r: ODict<string, Val>, i: nat, k: string)
    requires Fold(p0, items, PropertyStep(ids, units, parse)) == Ok(r)
    requires i < |items| && PropertyName(ids, items[i]) == Ok(Str(k)) && !HasKey(p0, k)
    requires forall j :: 0 <= j < i ==> PropertyName(ids, items[j]) != Ok(Str(k))
    ensures PropertyOf(ids, units, items[i], parse).Ok?
    ensures HasKey(r, k) && Get(r, k) == PropertyOf(ids, units, items[i], parse).value.1
  {
    var step := PropertyStep(ids, units, parse);
    var view := (d: ODict<string, Val>) => d;
    var key := (x: Val) => PropertyKey(ids, x);
    var val := (x: Val) => PropertyBuilt(ids, units, parse, x);
    PropertyStepsKeep(ids, units, parse);
    EarlierKeysDiffer(ids, units, parse, p0, items, r, i, k);
    FoldFirstWins(p0, items, step, view, key, val, r, i);
    var t, u := FoldPass(p0, items, step, r, i);
    if HasKey(t, k) {
      FoldKeyFrom(p0, items[..i], step, view, key, val, t, k);
      assert false;
    }
    PropertyStepKeeps(ids, units, parse, t, items[i], u);
  }

  /** Every pass of `getproperties` keeps an existing name and otherwise stores the element's
      property. */
  lemma PropertyStepsKeep(ids: Option<ODict<Val, Val>>, units: Option<ODict<Val, string>>, parse: NumParser)
    ensures forall a, x, b :: PropertyStep(ids, units, parse)(a, x) == Ok(b) ==>
      Keeps(a, b, PropertyKey(ids, x), PropertyBuilt(ids, units, parse, x))
  {
    forall a, x, b | PropertyStep(ids, units, parse)(a, x) == Ok(b)
      ensures Keeps(a, b, PropertyKey(ids, x), PropertyBuilt(ids, units, parse, x))
    {
      PropertyStepKeeps(ids, units, parse, a, x, b);
    }
  }

  /** In a loop that ends normally, the elements before the first one naming `k` are
      stored under other names. */
  lemma EarlierKeysDiffer(ids: Option<ODict<Val, Val>>, units: Option<ODict<Val, string>>, parse: NumParser,
                          p0: ODict<string, Val>, items: seq<Val>, r: ODict<string, Val>, i: nat, k: string)
    requires Fold(p0, items, PropertyStep(ids, units, parse)) == Ok(r)
    requires i < |items| && PropertyName(ids, items[i]) == Ok(Str(k))
    requires forall j :: 0 <= j < i ==> PropertyName(ids, items[j]) != Ok(Str(k))
    ensures PropertyKey(ids, items[i]) == k
    ensures forall j :: 0 <= j < i ==> PropertyKey(ids, items[j]) != k
  {
    forall j | 0 <= j < i
      ensures PropertyKey(ids, items[j]) != k
    {
      var t, u := FoldPass(p0, items, PropertyStep(ids, units, parse), r, j);
      PropertyStepKeeps(ids, units, parse, t, items[j], u);
    }
  }

  // ---------------------------------------------------------------------------------------
  // Properties of getmaterials

  lemma {:induction false} PropertiesUnique(ids: Option<ODict<Val, Val>>, units: Option<ODict<Val, string>>,
                                            parse: NumParser, p0: ODict<string, Val>, items: seq<Val>)
    requires UniqueKeys(p0) && Fold(p0, items, PropertyStep(ids, units, parse)).Ok?
    ensures UniqueKeys(Fold(p0, items, PropertyStep(ids, units, parse)).value)
    decreases |items|
  {
    if |items| > 0 {
      PropertiesUnique(ids, units, parse, p0, items[..|items| - 1]);
    }
  }

  /** A new material holds its name, every property read for it, and its description (or
      `'-'`), unless a property of the same name replaces those fields. */
  lemma MaterialOfContents(ids: Option<ODict<Val, Val>>, units: Option<ODict<Val, string>>, name: Val,
                           xmlmaterial: Val, parse: NumParser, e: Entry)
    requires MaterialOf(ids, units, name, xmlmaterial, parse) == Ok(e)
    ensures e.Mat? && e.name == name && PropertiesOf(ids, units, xmlmaterial, parse).Ok?
    ensures var properties := PropertiesOf(ids, units, xmlmaterial, parse).value;
      forall k :: HasKey(properties, k) ==> HasKey(e.dict, k) && Get(e.dict, k) == Get(properties, k)
    ensures !HasKey(PropertiesOf(ids, units, xmlmaterial, parse).value, "Description") ==>
      Item(e, "Description") == Ok(Description(xmlmaterial))
    ensures !HasKey(PropertiesOf(ids, units, xmlmaterial, parse).value, "MaterialName") ==>
      Item(e, "MaterialName") == Ok(name)
  {
    MaterialOfIs(ids, units, name, xmlmaterial, parse, e);
    var properties := PropertiesOf(ids, units, xmlmaterial, parse).value;
    var described := Set(NewMaterial(name).dict, "Description", Description(xmlmaterial));
    forall k | HasKey(properties, k)
      ensures HasKey(e.dict, k) && Get(e.dict, k) == Get(properties, k)
    {
      UpdateGet(described, properties, k);
    }
    UpdateGet(described, properties, "Description");
    assert "MaterialName" != "Description" by {
      assert |"MaterialName"| == 12;
    }
    UpdateGet(described, properties, "MaterialName");
  }

  /** A material read successfully: the fields of `Material(name)`, its description set, then
      the properties read for it, which have distinct names. */
  lemma MaterialOfIs(ids: Option<ODict<Val, Val>>, units: Option<ODict<Val, string>>, name: Val,
                     xmlmaterial: Val, parse: NumParser, e: Entry)
    requires MaterialOf(ids, units, name, xmlmaterial, parse) == Ok(e)
    ensures PropertiesOf(ids, units, xmlmaterial, parse).Ok?
    ensures UniqueKeys(PropertiesOf(ids, units, xmlmaterial, parse).value)
    ensures e == Mat(name, Update(Set(NewMaterial(name).dict, "Description", Description(xmlmaterial)),
                                  PropertiesOf(ids, units, xmlmaterial, parse).value))
  {
    var bulk := Index(xmlmaterial, "BulkDetails").value;
    var items := Iter(Index(bulk, "PropertyData").value).value;
    PropertiesUnique(ids, units, parse, [], items);
  }

  /** The name of a material element, once read successfully. */
  function MaterialKey(xmlmaterial: Val): string {
    match MaterialName(xmlmaterial) case Ok(Str(n)) => n case _ => ""
  }

  /** The material built from an element, once built successfully. */
  function MaterialBuilt(ids: Option<ODict<Val, Val>>, units: Option<ODict<Val, string>>, parse: NumParser,
                         xmlmaterial: Val): Entry {
    match MaterialOf(ids, units, Str(MaterialKey(xmlmaterial)), xmlmaterial, parse) case Ok(e) => e case Err(_) => Other(PyNone)
  }

  /** One pass of `getmaterials` stores a material under the element's name; for a name the
      collection does not hold, it is the material built from the element. */
  lemma MaterialStepStores(ids: Option<ODict<Val, Val>>, units: Option<ODict<Val, string>>,
                           existing: ODict<string, Entry>, parse: NumParser, a: Built, xmlmaterial: Val, b: Built)
    requires MaterialStep(ids, units, existing, parse)(a, xmlmaterial) == Ok(b)
    ensures MaterialName(xmlmaterial) == Ok(Str(MaterialKey(xmlmaterial)))
    ensures Stores(a.materials, b.materials, MaterialKey(xmlmaterial), !HasKey(existing, MaterialKey(xmlmaterial)),
                   MaterialBuilt(ids, units, parse, xmlmaterial))
    ensures !HasKey(existing, MaterialKey(xmlmaterial)) ==>
      MaterialOf(ids, units, Str(MaterialKey(xmlmaterial)), xmlmaterial, parse).Ok?
  {
    MaterialStepIs(ids, units, existing, parse, a, xmlmaterial, b);
    var name := MaterialName(xmlmaterial).value.s;
    assert name == MaterialKey(xmlmaterial);
    if !HasKey(existing, name) {
      var built := MaterialOf(ids, units, Str(name), xmlmaterial, parse);
      assert MaterialBuilt(ids, units, parse, xmlmaterial) == built.value;
      assert b.materials == Set(a.materials, name, built.value);
      SetStores(a.materials, name, built.value);
    } else {
      assert b.materials == Set(a.materials, name, a.material.value);
      SetStores(a.materials, name, a.material.value);
    }
  }

  /** A pass of `getmaterials` that does not raise: the element has a string name, stored
      with the material built from the element, or, for a name the collection holds, with
      the previous pass's material. */
  lemma MaterialStepIs(ids: Option<ODict<Val, Val>>, units: Option<ODict<Val, string>>,
                       existing: ODict<string, Entry>, parse: NumParser, a: Built, xmlmaterial: Val, b: Built)
    requires MaterialStep(ids, units, existing, parse)(a, xmlmaterial) == Ok(b)
    ensures MaterialName(xmlmaterial).Ok? && MaterialName(xmlmaterial).value.Str?
    ensures var name := MaterialName(xmlmaterial).value.s;
      !HasKey(existing, name) ==>
        MaterialOf(ids, units, Str(name), xmlmaterial, parse).Ok? &&
        b.materials == Set(a.materials, name, MaterialOf(ids, units, Str(name), xmlmaterial, parse).value)
    ensures var name := MaterialName(xmlmaterial).value.s;
      HasKey(existing, name) ==> a.material.Some? && b.materials == Set(a.materials, name, a.material.value)
  {
  }

  /** For a name the collection does not hold yet, the material stored is the one built from
      the last element carrying that name. */
  lemma MaterialsLastWins(ids: Option<ODict<Val, Val>>, units: Option<ODict<Val, string>>,
                          existing: ODict<string, Entry>, parse: NumParser, b0: Built,
                          items: seq<Val>, r: Built, i: nat, name: string)
    requires Fold(b0, items, MaterialStep(ids, units, existing, parse)) == Ok(r)
    requires i < |items| && MaterialName(items[i]) == Ok(Str(name)) && !HasKey(existing, name)
    requires forall j :: i < j < |items| ==> MaterialName(items[j]) != Ok(Str(name))
    ensures MaterialOf(ids, units, Str(name), items[i], parse).Ok?
    ensures HasKey(r.materials, name) && Get(r.materials, name) == MaterialOf(ids, units, Str(name), items[i], parse).value
  {
    var step := MaterialStep(ids, units, existing, parse);
    var view := (b: Built) => b.materials;
    var fixed := (x: Val) => !HasKey(existing, MaterialKey(x));
    var val := (x: Val) => MaterialBuilt(ids, units, parse, x);
    forall a, x, b | step(a, x) == Ok(b)
      ensures Stores(view(a), view(b), MaterialKey(x), fixed(x), val(x))
    {
      MaterialStepStores(ids, units, existing, parse, a, x, b);
    }
    forall j | i <= j < |items|
      ensures MaterialName(items[j]) == Ok(Str(MaterialKey(items[j])))
    {
      var t, u := FoldPass(b0, items, step, r, j);
      MaterialStepStores(ids, units, existing, parse, t, items[j], u);
    }
    FoldLastWins(b0, items, step, view, MaterialKey, fixed, val, r, i);
    var t, u := FoldPass(b0, items, step, r, i);
    MaterialStepStores(ids, units, existing, parse, t, items[i], u);
  }

  /** A name the collection already holds is not rebuilt: the pass stores the material of the
      previous pass under it, and on the first pass `material` is unbound. */
  lemma ExistingNameReused(ids: Option<ODict<Val, Val>>, units: Option<ODict<Val, string>>,
                           existing: ODict<string, Entry>, parse: NumParser, built: Built, xmlmaterial: Val,
                           name: string)
    requires MaterialName(xmlmaterial) == Ok(Str(name)) && HasKey(existing, name)
    ensures built.material.None? ==>
      MaterialStep(ids, units, existing, parse)(built, xmlmaterial) == Err(UnboundLocalError)
    ensures built.material.Some? ==>
      var r := MaterialStep(ids, units, existing, parse)(built, xmlmaterial);
      r.Ok? && r.value.material == built.material && Get(r.value.materials, name) == built.material.value
  {
  }

  // ---------------------------------------------------------------------------------------
  // The MatMLData object

  /** A `MatMLData`: the collection it builds (it is itself a dictionary of materials), the
      name of its file, and the attributes its methods set one after the other. An attribute
      not yet set is `None`; reading it raises `AttributeError`. */
  class MatMLData {
    var entries: ODict<string, Entry>
    var filename: string
    var matml: Option<Val>
    var units: Option<ODict<Val, string>>
    var ids: Option<ODict<Val, Val>>
    var xmlmaterials: Option<seq<Val>>

    constructor()
      ensures entries == [] && filename == "no file imported yet"
      ensures matml == None && units == None && ids == None && xmlmaterials == None
    {
      entries := [];
      filename := "no file imported yet";
      matml := None;
      units := None;
      ids := None;
      xmlmaterials := None;
    }

    /** `getunits`: the unit string of every detail entry, stored as `self.units`. */
    method GetUnits() returns (r: Result<ODict<Val, string>>)
      modifies this
      ensures r == (if old(matml).Some? then UnitsOf(old(matml).value) else Err(AttributeError))
      ensures units == (if r.Ok? then Some(r.value) else old(units))
      ensures entries == old(entries) && filename == old(filename) && matml == old(matml)
      ensures ids == old(ids) && xmlmaterials == old(xmlmaterials)
    {
      if matml.None? {
        return Err(AttributeError);
      }
      var metadata :- Index(matml.value, "Metadata");
      var properties :- Index(metadata, "PropertyDetails");
      var pitems :- Iter(properties);
      var found := DetailsUnits([], pitems, "PropertyDetails");
      if found.Err? {
        return found;
      }
      var parameters :- Index(metadata, "ParameterDetails");
      var qitems :- Iter(parameters);
      r := DetailsUnits(found.value, qitems, "ParameterDetails");
      if r.Ok? {
        units := Some(r.value);
      }
    }

    /** `getids`: every detail id mapped to its name, stored as `self.ids`. */
    method GetIds() returns (r: Result<ODict<Val, Val>>)
      modifies this
      ensures r == (if old(matml).Some? then IdsOf(old(matml).value) else Err(AttributeError))
      ensures ids == (if r.Ok? then Some(r.value) else old(ids))
      ensures entries == old(entries) && filename == old(filename) && matml == old(matml)
      ensures units == old(units) && xmlmaterials == old(xmlmaterials)
    {
      if matml.None? {
        return Err(AttributeError);
      }
      var metadata :- Index(matml.value, "Metadata");
      var properties :- Index(metadata, "PropertyDetails");
      var pitems :- Iter(properties);
      var found := DetailsIds([], pitems);
      if found.Err? {
        return found;
      }
      var parameters :- Index(metadata, "ParameterDetails");
      var qitems :- Iter(parameters);
      r := DetailsIds(found.value, qitems);
      if r.Ok? {
        ids := Some(r.value);
      }
    }

    /** `getmaterials`: the materials of the document, keyed by name. The material elements
        are stored as `self.xmlmaterials` before the loop. */
    method GetMaterials(parse: NumParser) returns (r: Result<ODict<string, Entry>>)
      modifies this
      ensures r == (if old(matml).Some? then MaterialsIn(old(matml).value, old(ids), old(units), old(entries), parse)
                    else Err(AttributeError))
      ensures xmlmaterials ==
        (if old(matml).Some? && Index(old(matml).value, "Material").Ok?
         then Some(AsList(Index(old(matml).value, "Material").value)) else old(xmlmaterials))
      ensures entries == old(entries) && filename == old(filename) && matml == old(matml)
      ensures units == old(units) && ids == old(ids)
    {
      if matml.None? {
        return Err(AttributeError);
      }
      var xml :- Index(matml.value, "Material");
      var elements := AsList(xml);
      xmlmaterials := Some(elements);
      var built :- MaterialsLoop(ids, units, entries, elements, parse);
      r := Ok(built.materials);
    }

    /** `getdata`: units, ids, then the materials, added to the collection. Each step stores
        its field only when it succeeds, and a failing step ends the call, leaving the later
        fields as they were. Python's `getdata` returns `None`; here the result carries the
        materials read, or the error. */
    method GetData(parse: NumParser) returns (r: Result<ODict<string, Entry>>)
      modifies this
      ensures r == DataOf(old(matml), old(entries), parse)
      ensures units == (if old(matml).Some? && UnitsOf(old(matml).value).Ok?
                        then Some(UnitsOf(old(matml).value).value) else old(units))
      ensures ids == (if old(matml).Some? && UnitsOf(old(matml).value).Ok? && IdsOf(old(matml).value).Ok?
                      then Some(IdsOf(old(matml).value).value) else old(ids))
      ensures xmlmaterials ==
        (if old(matml).Some? && UnitsOf(old(matml).value).Ok? && IdsOf(old(matml).value).Ok? &&
            Index(old(matml).value, "Material").Ok?
         then Some(AsList(Index(old(matml).value, "Material").value)) else old(xmlmaterials))
      ensures entries == (if r.Ok? then Update(old(entries), r.value) else old(entries))
      ensures filename == old(filename) && matml == old(matml)
    {
      var u :- GetUnits();
      var d :- GetIds();
      r := GetMaterials(parse);
      if r.Ok? {
        entries := Update(entries, r.value);
      }
    }
  }

  /** The loop of `getmaterials`. */
  method MaterialsLoop(ids: Option<ODict<Val, Val>>, units: Option<ODict<Val, string>>, existing: ODict<string, Entry>,
                       elements: seq<Val>, parse: NumParser) returns (r: Result<Built>)
    ensures r == MaterialsOf(ids, units, existing, elements, parse)
  {
    r := FoldLoop(Built([], None), elements, MaterialStep(ids, units, existing, parse));
  }

  /** The property-detail or parameter-detail loop of `getunits`. */
  method DetailsUnits(units0: ODict<Val, string>, items: seq<Val>, ps: string) returns (r: Result<ODict<Val, string>>)
    ensures r == Fold(units0, items, UnitsStep(ps))
  {
    r := FoldLoop(units0, items, UnitsStep(ps));
  }

  /** The property-detail or parameter-detail loop of `getids`. */
  method DetailsIds(ids0: ODict<Val, Val>, items: seq<Val>) returns (r: Result<ODict<Val, Val>>)
    ensures r == Fold(ids0, items, IdStep)
  {
    r := FoldLoop(ids0, items, IdStep);
  }

  /** `read.matml`: a new `MatMLData` holding the MatML document of an ANSYS Engineering Data
      file and the materials read from it. Opening and parsing the file is the argument
      `xml`. */
  method ReadMatml(filename: string, xml: Result<Val>, parse: NumParser) returns (r: Result<MatMLData>)
    ensures r.Ok? <==> ReadEntries(xml, parse).Ok?
    ensures r.Err? ==> r.error == ReadEntries(xml, parse).error
    ensures r.Ok? ==> fresh(r.value) && r.value.filename == filename &&
                      r.value.entries == Update([], ReadEntries(xml, parse).value)
  {
    var materialdata := new MatMLData();
    if xml.Err? {
      return Err(xml.error);
    }
    var doc := MatmlDoc(xml.value);
    if doc.Err? {
      return Err(doc.error);
    }
    materialdata.matml := Some(doc.value);
    var materials := materialdata.GetData(parse);
    if materials.Err? {
      return Err(materials.error);
    }
    materialdata.filename := filename;
    r := Ok(materialdata);
  }
}
