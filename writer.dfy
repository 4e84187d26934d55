/** Export of a collection as a MatML document (`write.matml`), and the word abbreviation the
    spreadsheet exporter names its sheets with.

    The document is text built from lines joined with a newline and a run of tabs. Every
    failure of a lookup on the way (a missing `Name`, an id that was never generated, an
    empty `Values` list) is an exception that ends the export.
 */
module Writer {
  import opened PyValues
  import opened Collection
  import MatML

  // ---------------------------------------------------------------------------------------
  // abbreviate

  /** The first character of every word; an empty word raises `IndexError`. */
  function Initials(words: seq<string>): (r: Result<string>)
    ensures r.Ok? <==> forall i :: 0 <= i < |words| ==> |words[i]| > 0
    ensures r.Ok? ==> |r.value| == |words| && forall i :: 0 <= i < |words| ==> r.value[i] == words[i][0]
    ensures r.Err? ==> r.error == IndexError
    decreases |words|
  {
    if |words| == 0 then Ok("")
    else
      var n := |words|;
      var init := Initials(words[..n - 1]);
      assert forall i :: 0 <= i < n - 1 ==> words[..n - 1][i] == words[i];
      if init.Err? then init
      else if |words[n - 1]| == 0 then Err(IndexError)
      else Ok(init.value + [words[n - 1][0]])
  }

  /** Every word has a first character. */
  predicate AllInitials(words: seq<string>) {
    forall i :: 0 <= i < |words| ==> |words[i]| > 0
  }

  /** `abbreviate(name)`: `''.join([w[0] for w in name.split(' ')])`. */
  function Abbreviate(name: string): (r: Result<string>)
    ensures AllInitials(Split(name, ' ')) <==> r.Ok?
    ensures r.Ok? ==> |r.value| == |Split(name, ' ')| &&
                      forall i :: 0 <= i < |Split(name, ' ')| ==> r.value[i] == Split(name, ' ')[i][0]
    ensures r.Err? ==> r.error == IndexError
  {
    var words := Split(name, ' ');
    var initials := Initials(words);
    initials
  }

  /** Words without spaces, joined by single spaces, abbreviate to their initials; an empty
      word (the text is empty, starts or ends with a space, or has two in a row) raises
      `IndexError`. Every text is such a join of its own pieces. */
  lemma AbbreviateWords(words: seq<string>)
    requires |words| > 0 && forall i :: 0 <= i < |words| ==> ' ' !in words[i]
    ensures var r := Abbreviate(Join(" ", words));
      (r.Ok? <==> forall i :: 0 <= i < |words| ==> |words[i]| > 0) &&
      (r.Ok? ==> |r.value| == |words| && forall i :: 0 <= i < |words| ==> r.value[i] == words[i][0]) &&
      (r.Err? ==> r.error == IndexError)
  {
    SplitJoin(words, ' ');
  }

  // ---------------------------------------------------------------------------------------
  // write_parameter

  /** `type(x).__name__`; the model does not tell `int` from `float`. */
  function TypeName(v: Val): string {
    match v
    case PyNone => "NoneType"
    case Str(_) => "str"
    case Num(_) => "float"
    case List(_) => "list"
    case Dict(_) => "dict"
    case Prop(_, _) => "MaterialProperty"
    case Param(_, _) => "MaterialParameter"
  }

  /** `type(x).__name__` as `write_parameter` renames it: `str` becomes `string`, `NoneType`
      the empty text and `int` (like `float`) `float`. */
  function FormatName(v: Val): (f: string)
    ensures TypeName(v) == "str" ==> f == "string"
    ensures TypeName(v) == "NoneType" ==> f == ""
    ensures TypeName(v) != "str" && TypeName(v) != "NoneType" ==> f == TypeName(v)
    ensures f == "string" <==> v.Str?
    ensures f == "" <==> v.PyNone?
    ensures f == "float" <==> v.Num?
  {
    match v
    case PyNone => ""
    case Str(_) => "string"
    case Num(_) => "float"
    case List(_) => "list"
    case Dict(_) => "dict"
    case Prop(_, _) => "MaterialProperty"
    case Param(_, _) => "MaterialParameter"
  }

  /** `[str(x) for x in data]`. */
  function ValueTexts(items: seq<Val>, num: NumText): (ts: seq<string>)
    ensures |ts| == |items| && forall i :: 0 <= i < |items| ==> ts[i] == Show(items[i], num)
    decreases |items|
  {
    if |items| == 0 then []
    else ValueTexts(items[..|items| - 1], num) + [Show(items[|items| - 1], num)]
  }

  /** The data field: the texts joined by commas, replaced by `-` as a whole when the joined
      text holds a `-` anywhere. */
  function DataField(texts: seq<string>): (data: string)
    ensures '-' in data ==> data == "-"
  {
    var joined := Join(",", texts);
    if '-' in joined then "-" else joined
  }

  /** A character absent from every piece and from the separator is absent from the join. */
  lemma {:induction false} JoinAvoids(texts: seq<string>, c: char)
    requires c != ',' && forall i :: 0 <= i < |texts| ==> c !in texts[i]
    ensures c !in Join(",", texts)
    decreases |texts|
  {
    if |texts| > 1 {
      JoinAvoids(texts[1..], c);
      assert forall i :: 0 <= i < |texts| - 1 ==> texts[1..][i] == texts[i + 1];
    }
  }

  /** A character of any piece is in the join. */
  lemma {:induction false} JoinHas(texts: seq<string>, i: nat, c: char)
    requires i < |texts| && c in texts[i]
    ensures c in Join(",", texts)
    decreases |texts|
  {
    if |texts| > 1 && i > 0 {
      JoinHas(texts[1..], i - 1, c);
    }
  }

  /** Values whose texts hold neither a comma nor a `-` are written so that splitting the data
      field at the commas gives their texts back. */
  lemma DataRoundTrip(texts: seq<string>)
    requires |texts| > 0
    requires forall i :: 0 <= i < |texts| ==> ',' !in texts[i] && '-' !in texts[i]
    ensures Split(DataField(texts), ',') == texts
  {
    JoinAvoids(texts, '-');
    SplitJoin(texts, ',');
  }

  /** A single value whose text holds a `-` (a negative number, an exponent like `1e-05`)
      turns the whole data field into `-`. */
  lemma DataDashed(texts: seq<string>, i: nat)
    requires i < |texts| && '-' in texts[i]
    ensures DataField(texts) == "-"
  {
    JoinHas(texts, i, '-');
  }

  /** `[str(c) for c in s]`: one text per character. */
  function Letters(s: string): (ts: seq<string>)
    ensures |ts| == |s| && forall i :: 0 <= i < |s| ==> ts[i] == [s[i]]
    decreases |s|
  {
    if |s| == 0 then [] else Letters(s[..|s| - 1]) + [[s[|s| - 1]]]
  }

  /** The format and the data field written for `materialparameter["Values"]`. The format
      comes from the first value alone. A string is subscripted and iterated character by
      character; an empty list or string raises `IndexError`, a dictionary `KeyError`, and
      `None` or a number `TypeError`. */
  function FormatAndData(values: Val, num: NumText): (r: Result<(string, string)>)
    ensures r.Ok? <==> (values.List? && |values.items| > 0) || (values.Str? && |values.s| > 0)
    ensures r.Ok? && values.List? ==> r.value.0 == FormatName(values.items[0])
    ensures r.Ok? && values.Str? ==> r.value.0 == "string"
    ensures r.Err? && (values.List? || values.Str?) ==> r.error == IndexError
    ensures r.Err? && IsMapping(values) ==> r.error == KeyError
    ensures r.Err? && (values.PyNone? || values.Num?) ==> r.error == TypeError
  {
    match values
    case List(items) =>
      if |items| == 0 then Err(IndexError) else Ok((FormatName(items[0]), DataField(ValueTexts(items, num))))
    case Str(s) =>
      if |s| == 0 then Err(IndexError) else Ok(("string", DataField(Letters(s))))
    case PyNone => Err(TypeError)
    case Num(_) => Err(TypeError)
    case _ => Err(KeyError)
  }

  /** `write_parameter`: the `ParameterValue` element of one parameter. Its id is looked up
      by its `Name`; the qualifier list is always empty, so only the data line sits between
      the tags. */
  function ParameterBlock(ids: ODict<Val, string>, p: Val, num: NumText): (r: Result<string>)
    ensures r.Ok? <==> (Index(p, "Name").Ok? && MatML.Lookup(ids, Index(p, "Name").value).Ok? &&
                        Index(p, "Values").Ok? && FormatAndData(Index(p, "Values").value, num).Ok?)
    ensures Index(p, "Name").Err? ==> r == Err(Index(p, "Name").error)
  {
    var name :- Index(p, "Name");
    var mid :- MatML.Lookup(ids, name);
    var values :- Index(p, "Values");
    var fd :- FormatAndData(values, num);
    var lines := ["<ParameterValue parameter='" + mid + "' format=\"" + fd.0 + "\">",
                  "<Data format=\"" + fd.0 + "\">" + fd.1 + "</Data>",
                  "</ParameterValue>"];
    Ok(Join("\n\t\t\t", lines))
  }

  // ---------------------------------------------------------------------------------------
  // Writing every element of a list

  /** The texts written for each element in turn; the first exception ends the loop. */
  function MapAll<T>(xs: seq<T>, f: T -> Result<string>): (r: Result<seq<string>>)
    ensures r.Ok? <==> forall i :: 0 <= i < |xs| ==> f(xs[i]).Ok?
    ensures r.Ok? ==> |r.value| == |xs| && forall i :: 0 <= i < |xs| ==> r.value[i] == f(xs[i]).value
    ensures r.Err? ==> exists i :: 0 <= i < |xs| && f(xs[i]) == Err(r.error) && forall j :: 0 <= j < i ==> f(xs[j]).Ok?
    decreases |xs|
  {
    if |xs| == 0 then Ok([])
    else
      var n := |xs|;
      var init := MapAll(xs[..n - 1], f);
      assert forall i :: 0 <= i < n - 1 ==> xs[..n - 1][i] == xs[i];
      if init.Err? then Err(init.error)
      else
        var last := f(xs[n - 1]);
        if last.Err? then Err(last.error) else Ok(init.value + [last.value])
  }

  /** One more element written. */
  lemma MapAllNext<T>(xs: seq<T>, f: T -> Result<string>, i: nat)
    requires i < |xs| && MapAll(xs[..i], f).Ok? && f(xs[i]).Ok?
    ensures MapAll(xs[..i + 1], f) == Ok(MapAll(xs[..i], f).value + [f(xs[i]).value])
  {
    assert xs[..i + 1][..i] == xs[..i];
  }

  /** The loop ends at the first element that raises. */
  lemma MapAllStops<T>(xs: seq<T>, f: T -> Result<string>, i: nat)
    requires i < |xs| && MapAll(xs[..i], f).Ok? && f(xs[i]).Err?
    ensures MapAll(xs, f) == Err(f(xs[i]).error)
  {
    var r := MapAll(xs, f);
    assert forall j :: 0 <= j < i ==> xs[..i][j] == xs[j];
    assert forall j :: 0 <= j < i ==> f(xs[j]).Ok?;
    if r.Err? {
      var k :| 0 <= k < |xs| && f(xs[k]) == Err(r.error) && forall j :: 0 <= j < k ==> f(xs[j]).Ok?;
      assert k == i;
    }
  }

  // ---------------------------------------------------------------------------------------
  // write_property

  /** `[pa for pa in d.values() if type(pa) is MaterialParameter]`. */
  function Parameters(d: ODict<string, Val>): (ps: seq<Val>)
    ensures forall p :: p in ps ==> p.Param?
    ensures forall k, p :: (k, p) in d && p.Param? ==> p in ps
    ensures |d| == 1 ==> ps == (if d[0].1.Param? then [d[0].1] else [])
    decreases |d|
  {
    if |d| == 0 then []
    else
      var n := |d|;
      assert d == d[..n - 1] + [d[n - 1]];
      Parameters(d[..n - 1]) + (if d[n - 1].1.Param? then [d[n - 1].1] else [])
  }

  /** Every value written comes from the dictionary: a value is among `Parameters(d)` exactly when
      it is a parameter stored in `d`. */
  lemma {:induction false} ParametersMembers(d: ODict<string, Val>, p: Val)
    ensures p in Parameters(d) <==> p.Param? && exists k :: (k, p) in d
    decreases |d|
  {
    if |d| > 0 {
      var n := |d|;
      var init := d[..n - 1];
      ParametersMembers(init, p);
      assert d == init + [d[n - 1]];
      if p in Parameters(d) && p !in Parameters(init) {
        assert (d[n - 1].0, p) in d;
      }
      if p.Param? && p !in Parameters(init) && exists k :: (k, p) in d {
        var k :| (k, p) in d;
        assert (k, p) == d[n - 1];
      }
    }
  }

  /** The parameter values are written in the dictionary's order: those of two runs of fields
      are the first run's, then the second's. */
  lemma {:induction false} ParametersConcat(a: ODict<string, Val>, b: ODict<string, Val>)
    ensures Parameters(a + b) == Parameters(a) + Parameters(b)
    decreases |b|
  {
    if |b| == 0 {
      assert a + b == a;
    } else {
      var n := |b|;
      var init, x := b[..n - 1], b[n - 1];
      ParametersConcat(a, init);
      SplitLast(a, b);
      ParametersLast(b, init, x);
      ParametersLast(a + b, a + init, x);
    }
  }

  /** Unfolds `Parameters` once: `d` is `init` and one more field `x`. */
  lemma ParametersLast(d: ODict<string, Val>, init: ODict<string, Val>, x: (string, Val))
    requires d == init + [x]
    ensures Parameters(d) == Parameters(init) + (if x.1.Param? then [x.1] else [])
  {
    assert d[..|d| - 1] == init;
  }

  /** `write_parameter` as a value, for the loop over a property's parameters. */
  function ParameterWriter(ids: ODict<Val, string>, num: NumText): Val -> Result<string> {
    p => ParameterBlock(ids, p, num)
  }

  /** `write_property`: the `PropertyData` element of one property, holding the element of
      every parameter among its values, in order. */
  function PropertyBlock(ids: ODict<Val, string>, prop: Val, num: NumText): (r: Result<string>)
    ensures r.Ok? <==> (Index(prop, "Name").Ok? && MatML.Lookup(ids, Index(prop, "Name").value).Ok? &&
                        forall p :: p in Parameters(prop.entries) ==> ParameterBlock(ids, p, num).Ok?)
  {
    var name :- Index(prop, "Name");
    var id :- MatML.Lookup(ids, name);
    var blocks :- MapAll(Parameters(prop.entries), ParameterWriter(ids, num));
    Ok(Join("\n\t\t", ["\t\t<PropertyData property=\"" + id + "\">"] + blocks + ["</PropertyData>"]))
  }

  /** A new value that is not a parameter, under a key other than `Name`, leaves the written
      property as it was. */
  lemma PropertyIgnoresOthers(ids: ODict<Val, string>, name: Val, d: ODict<string, Val>, k: string, v: Val, num: NumText)
    requires !v.Param? && !HasKey(d, k) && k != "Name"
    ensures PropertyBlock(ids, Prop(name, Set(d, k, v)), num) == PropertyBlock(ids, Prop(name, d), num)
  {
    NewKeyKeeps(d, k, v, "Name");
    ParametersLast(Set(d, k, v), d, (k, v));
    assert Parameters(d) + [] == Parameters(d);
    assert Parameters(Set(d, k, v)) == Parameters(d);
  }

  /** A new key leaves the lookup of any other key alone. */
  lemma NewKeyKeeps(d: ODict<string, Val>, k: string, v: Val, other: string)
    requires !HasKey(d, k) && k != other
    ensures Set(d, k, v) == d + [(k, v)]
    ensures Index(Dict(Set(d, k, v)), other) == Index(Dict(d), other)
  {
    if HasKey(d, other) {
      SetKeeps(d, k, v, other);
    }
  }

  // ---------------------------------------------------------------------------------------
  // write_material

  /** `[p for p in material.values() if type(p) is MaterialProperty]`. */
  function Properties(d: ODict<string, Val>): (ps: seq<Val>)
    ensures forall p :: p in ps ==> p.Prop?
    ensures forall k, p :: (k, p) in d && p.Prop? ==> p in ps
    ensures |d| == 1 ==> ps == (if d[0].1.Prop? then [d[0].1] else [])
    decreases |d|
  {
    if |d| == 0 then []
    else
      var n := |d|;
      assert d == d[..n - 1] + [d[n - 1]];
      Properties(d[..n - 1]) + (if d[n - 1].1.Prop? then [d[n - 1].1] else [])
  }

  /** Every value written comes from the dictionary: a value is among `Properties(d)` exactly when
      it is a property stored in `d`. */
  lemma {:induction false} PropertiesMembers(d: ODict<string, Val>, p: Val)
    ensures p in Properties(d) <==> p.Prop? && exists k :: (k, p) in d
    decreases |d|
  {
    if |d| > 0 {
      var n := |d|;
      var init := d[..n - 1];
      PropertiesMembers(init, p);
      assert d == init + [d[n - 1]];
      if p in Properties(d) && p !in Properties(init) {
        assert (d[n - 1].0, p) in d;
      }
      if p.Prop? && p !in Properties(init) && exists k :: (k, p) in d {
        var k :| (k, p) in d;
        assert (k, p) == d[n - 1];
      }
    }
  }

  /** The property values are written in the dictionary's order: those of two runs of fields
      are the first run's, then the second's. */
  lemma {:induction false} PropertiesConcat(a: ODict<string, Val>, b: ODict<string, Val>)
    ensures Properties(a + b) == Properties(a) + Properties(b)
    decreases |b|
  {
    if |b| == 0 {
      assert a + b == a;
    } else {
      var n := |b|;
      var init, x := b[..n - 1], b[n - 1];
      PropertiesConcat(a, init);
      SplitLast(a, b);
      PropertiesLast(b, init, x);
      PropertiesLast(a + b, a + init, x);
    }
  }

  /** Unfolds `Properties` once: `d` is `init` and one more field `x`. */
  lemma PropertiesLast(d: ODict<string, Val>, init: ODict<string, Val>, x: (string, Val))
    requires d == init + [x]
    ensures Properties(d) == Properties(init) + (if x.1.Prop? then [x.1] else [])
  {
    assert d[..|d| - 1] == init;
  }

  /** `write_property` as a value, for the loop over a material's properties. */
  function PropertyWriter(ids: ODict<Val, string>, num: NumText): Val -> Result<string> {
    p => PropertyBlock(ids, p, num)
  }

  /** `write_material`: the `Material` element. Of the material's own fields only `Name` and
      `Description` are written, and both must be present; then the element of every
      property among its values, in order. */
  function MaterialBlock(ids: ODict<Val, string>, d: ODict<string, Val>, num: NumText): (r: Result<string>)
    ensures r.Ok? <==> (HasKey(d, "Name") && HasKey(d, "Description") &&
                        forall p :: p in Properties(d) ==> PropertyBlock(ids, p, num).Ok?)
    ensures !HasKey(d, "Name") ==> r == Err(KeyError)
  {
    var name :- Index(Dict(d), "Name");
    var description :- Index(Dict(d), "Description");
    var blocks :- MapAll(Properties(d), PropertyWriter(ids, num));
    var head := ["<Material>\n\t<BulkDetails>",
                 "\t\t<Name>" + Show(name, num) + "</Name>",
                 "\t\t<Description>" + Show(description, num) + "</Description>"];
    Ok(Join("\n\t", head + blocks + ["\t</BulkDetails>\n</Material>"]))
  }

  /** A new value that is not a property, under a key other than `Name` and `Description`,
      leaves the written material as it was. */
  lemma MaterialIgnoresOthers(ids: ODict<Val, string>, d: ODict<string, Val>, k: string, v: Val, num: NumText)
    requires !v.Prop? && !HasKey(d, k) && k != "Name" && k != "Description"
    ensures MaterialBlock(ids, Set(d, k, v), num) == MaterialBlock(ids, d, num)
  {
    NewKeyKeeps(d, k, v, "Name");
    NewKeyKeeps(d, k, v, "Description");
    PropertiesLast(Set(d, k, v), d, (k, v));
    assert Properties(d) + [] == Properties(d);
    assert Properties(Set(d, k, v)) == Properties(d);
  }

  // ---------------------------------------------------------------------------------------
  // write_metadata

  /** Python's `a <= b` on strings: lexicographic by character code. */
  predicate NotAfter(a: string, b: string)
    decreases |a|
  {
    |a| == 0 || (|b| > 0 && (a[0] < b[0] || (a[0] == b[0] && NotAfter(a[1..], b[1..]))))
  }

  lemma {:induction false} NotAfterTotal(a: string, b: string)
    ensures NotAfter(a, b) || NotAfter(b, a)
    decreases |a|
  {
    if |a| > 0 && |b| > 0 && a[0] == b[0] {
      NotAfterTotal(a[1..], b[1..]);
    }
  }

  /** Each id no later than the next. */
  predicate SortedById(s: seq<(Val, string)>) {
    forall i :: 0 < i < |s| ==> NotAfter(s[i - 1].1, s[i].1)
  }

  /** `x` placed after every entry whose id is not after its own. */
  function Insert(s: seq<(Val, string)>, x: (Val, string)): (r: seq<(Val, string)>)
    requires SortedById(s)
    ensures SortedById(r) && multiset(r) == multiset(s) + multiset{x}
    ensures |r| == |s| + 1 && (r[|s|] == x || (|s| > 0 && r[|s|] == s[|s| - 1]))
    decreases |s|
  {
    if |s| == 0 then [x]
    else
      var n := |s|;
      if NotAfter(s[n - 1].1, x.1) then s + [x]
      else
        NotAfterTotal(s[n - 1].1, x.1);
        assert s == s[..n - 1] + [s[n - 1]];
        Insert(s[..n - 1], x) + [s[n - 1]]
  }

  /** `items.sort(key=lambda x: x[1])`: a stable sort by id. */
  function SortById(s: seq<(Val, string)>): (r: seq<(Val, string)>)
    ensures SortedById(r) && multiset(r) == multiset(s)
    decreases |s|
  {
    if |s| == 0 then []
    else
      var n := |s|;
      assert s == s[..n - 1] + [s[n - 1]];
      Insert(SortById(s[..n - 1]), s[n - 1])
  }

  /** `[p for p in ids.items() if tag in p[1]]`. */
  function Tagged(ids: ODict<Val, string>, tag: string): (r: seq<(Val, string)>)
    ensures forall p :: p in r <==> p in ids && IsSubstring(tag, p.1)
    decreases |ids|
  {
    if |ids| == 0 then []
    else
      var n := |ids|;
      assert ids == ids[..n - 1] + [ids[n - 1]];
      Tagged(ids[..n - 1], tag) + (if IsSubstring(tag, ids[n - 1].1) then [ids[n - 1]] else [])
  }

  /** `write_unitlines`: every entry is unitless. */
  const UnitLine := "\t<Unitless />"

  /** The opening line of an entry's details. */
  function DetailsTag(kind: string, id: string): string {
    "<" + kind + " id=\"" + id + "\">"
  }

  /** The line naming an entry. */
  function NameLine(name: Val, num: NumText): string {
    "\t<Name>" + Show(name, num) + "</Name>"
  }

  /** The four lines written for each `(name, id)` entry, under the element name `kind`. */
  function DetailLines(kind: string, items: seq<(Val, string)>, num: NumText): (ls: seq<string>)
    ensures |ls| == 4 * |items|
    ensures forall i :: 0 <= i < |items| ==>
      ls[4 * i] == DetailsTag(kind, items[i].1) &&
      ls[4 * i + 1] == NameLine(items[i].0, num) &&
      ls[4 * i + 2] == UnitLine &&
      ls[4 * i + 3] == "</" + kind + ">"
    decreases |items|
  {
    if |items| == 0 then []
    else
      var n := |items|;
      var x := items[n - 1];
      assert forall i :: 0 <= i < n - 1 ==> items[..n - 1][i] == items[i];
      DetailLines(kind, items[..n - 1], num) + [DetailsTag(kind, x.1), NameLine(x.0, num), UnitLine, "</" + kind + ">"]
  }

  /** The parameter entries of the ids, sorted by id. */
  function ParameterIds(ids: ODict<Val, string>): seq<(Val, string)> {
    SortById(Tagged(ids, "pa"))
  }

  /** The property entries of the ids, sorted by id. */
  function PropertyIds(ids: ODict<Val, string>): seq<(Val, string)> {
    SortById(Tagged(ids, "pr"))
  }

  /** The lines of the `Metadata` element: parameter details first, then property details. */
  function MetadataLines(ids: ODict<Val, string>, num: NumText): seq<string> {
    ["<Metadata>"] + DetailLines("ParameterDetails", ParameterIds(ids), num) +
      DetailLines("PropertyDetails", PropertyIds(ids), num) + ["</Metadata>"]
  }

  /** `write_metadata`. */
  function MetadataText(ids: ODict<Val, string>, num: NumText): (text: string)
    ensures Framed(text, "<Metadata>", "</Metadata>")
  {
    var lines := MetadataLines(ids, num);
    JoinFramed("\n\t\t", lines);
    Join("\n\t\t", lines)
  }

  /** The details of entry `i`, when the detail lines are the second of four pieces and
      start at line `m`. */
  lemma DetailsSecond(a: seq<string>, kind: string, items: seq<(Val, string)>, num: NumText,
                      c: seq<string>, d: seq<string>, m: nat, i: nat)
    requires |a| == m && i < |items|
    ensures (a + DetailLines(kind, items, num) + c + d)[m + 4 * i] == DetailsTag(kind, items[i].1)
    ensures (a + DetailLines(kind, items, num) + c + d)[m + 4 * i + 1] == NameLine(items[i].0, num)
  {
    assert DetailLines(kind, items, num)[4 * i] == DetailsTag(kind, items[i].1);
  }

  /** The details of entry `i`, when the detail lines are the third of four pieces and
      start at line `m`. */
  lemma DetailsThird(a: seq<string>, b: seq<string>, kind: string, items: seq<(Val, string)>,
                     num: NumText, d: seq<string>, m: nat, i: nat)
    requires |a| + |b| == m && i < |items|
    ensures (a + b + DetailLines(kind, items, num) + d)[m + 4 * i] == DetailsTag(kind, items[i].1)
    ensures (a + b + DetailLines(kind, items, num) + d)[m + 4 * i + 1] == NameLine(items[i].0, num)
  {
    assert DetailLines(kind, items, num)[4 * i] == DetailsTag(kind, items[i].1);
  }

  /** An entry of the ids whose id holds the tag is among the sorted entries of that tag. */
  lemma SortedHas(ids: ODict<Val, string>, tag: string, p: (Val, string))
    requires p in ids && IsSubstring(tag, p.1)
    ensures p in SortById(Tagged(ids, tag))
  {
    assert p in multiset(Tagged(ids, tag));
  }

  /** The metadata line where the property details start: after the opening tag and the
      four lines of every parameter entry. */
  function PropertyStart(ids: ODict<Val, string>): nat {
    1 + 4 * |ParameterIds(ids)|
  }

  /** The details of parameter entry `i`, at their place in the metadata lines. */
  lemma ParameterEntryAt(ids: ODict<Val, string>, num: NumText, i: nat)
    requires i < |ParameterIds(ids)|
    ensures MetadataLines(ids, num)[1 + 4 * i] == DetailsTag("ParameterDetails", ParameterIds(ids)[i].1)
    ensures MetadataLines(ids, num)[1 + 4 * i + 1] == NameLine(ParameterIds(ids)[i].0, num)
  {
    var rl := DetailLines("PropertyDetails", PropertyIds(ids), num);
    DetailsSecond(["<Metadata>"], "ParameterDetails", ParameterIds(ids), num, rl, ["</Metadata>"], 1, i);
  }

  /** The details of property entry `i`, at their place in the metadata lines. */
  lemma PropertyEntryAt(ids: ODict<Val, string>, num: NumText, i: nat)
    requires i < |PropertyIds(ids)|
    ensures MetadataLines(ids, num)[PropertyStart(ids) + 4 * i] ==
      DetailsTag("PropertyDetails", PropertyIds(ids)[i].1)
    ensures MetadataLines(ids, num)[PropertyStart(ids) + 4 * i + 1] ==
      NameLine(PropertyIds(ids)[i].0, num)
  {
    var pl := DetailLines("ParameterDetails", ParameterIds(ids), num);
    DetailsThird(["<Metadata>"], pl, "PropertyDetails", PropertyIds(ids), num, ["</Metadata>"],
                 PropertyStart(ids), i);
  }

  /** Every id holding `pa` has a `ParameterDetails` entry with its name. */
  lemma MetadataListsParameter(ids: ODict<Val, string>, num: NumText, p: (Val, string)) returns (i: nat)
    requires p in ids && IsSubstring("pa", p.1)
    ensures i < |ParameterIds(ids)|
    ensures MetadataLines(ids, num)[1 + 4 * i] == DetailsTag("ParameterDetails", p.1)
    ensures MetadataLines(ids, num)[1 + 4 * i + 1] == NameLine(p.0, num)
  {
    SortedHas(ids, "pa", p);
    i :| 0 <= i < |ParameterIds(ids)| && ParameterIds(ids)[i] == p;
    ParameterEntryAt(ids, num, i);
  }

  /** Every id holding `pr` has a `PropertyDetails` entry with its name, after all the
      parameter entries. */
  lemma MetadataListsProperty(ids: ODict<Val, string>, num: NumText, p: (Val, string)) returns (i: nat)
    requires p in ids && IsSubstring("pr", p.1)
    ensures i < |PropertyIds(ids)|
    ensures MetadataLines(ids, num)[PropertyStart(ids) + 4 * i] == DetailsTag("PropertyDetails", p.1)
    ensures MetadataLines(ids, num)[PropertyStart(ids) + 4 * i + 1] == NameLine(p.0, num)
  {
    SortedHas(ids, "pr", p);
    i :| 0 <= i < |PropertyIds(ids)| && PropertyIds(ids)[i] == p;
    PropertyEntryAt(ids, num, i);
  }

  // ---------------------------------------------------------------------------------------
  // write_matml_lines

  /** `write_material` as a value, for the loop over the collection's materials. */
  function MaterialWriter(ids: ODict<Val, string>, num: NumText): ODict<string, Val> -> Result<string> {
    d => MaterialBlock(ids, d, num)
  }

  /** The document for a collection once its ids are known: a `Material` element per
      material, in order, then the metadata. */
  function DocumentText(entries: ODict<string, Entry>, ids: ODict<Val, string>, num: NumText): (r: Result<string>)
    ensures r.Ok? <==> AllWritable(ids, MaterialDicts(entries), num)
    ensures r.Ok? ==> Framed(r.value, "<MatML_Doc>", "</MatML_Doc>")
    ensures r.Ok? ==> exists blocks: seq<string> ::
      r.value == Join("\n\t", ["<MatML_Doc>"] + blocks + [MetadataText(ids, num), "</MatML_Doc>"]) &&
      IsBlocks(ids, MaterialDicts(entries), num, blocks)
  {
    var ms := MaterialDicts(entries);
    WriterIsBlock(ids, num, ms);
    var blocks :- MapAll(ms, MaterialWriter(ids, num));
    assert IsBlocks(ids, ms, num, blocks);
    var lines := ["<MatML_Doc>"] + blocks + [MetadataText(ids, num), "</MatML_Doc>"];
    JoinFramed("\n\t", lines);
    Ok(Join("\n\t", lines))
  }

  /** `blocks` are the `Material` elements of the materials, one per material, in order. */
  predicate IsBlocks(ids: ODict<Val, string>, ms: seq<ODict<string, Val>>, num: NumText, blocks: seq<string>) {
    |blocks| == |ms| && forall i :: 0 <= i < |ms| ==> MaterialBlock(ids, ms[i], num) == Ok(blocks[i])
  }

  /** Every material of the list can be written. */
  predicate AllWritable(ids: ODict<Val, string>, ms: seq<ODict<string, Val>>, num: NumText) {
    forall i :: 0 <= i < |ms| ==> MaterialBlock(ids, ms[i], num).Ok?
  }

  lemma WriterIsBlock(ids: ODict<Val, string>, num: NumText, ms: seq<ODict<string, Val>>)
    ensures forall i :: 0 <= i < |ms| ==> MaterialWriter(ids, num)(ms[i]) == MaterialBlock(ids, ms[i], num)
  {
  }

  /** `text` starts with `open` and ends with `close`. */
  predicate Framed(text: string, open: string, close: string) {
    |text| >= |open| && text[..|open|] == open && |text| >= |close| && text[|text| - |close|..] == close
  }

  /** Lines joined are framed by their first and last line. */
  lemma JoinFramed(sep: string, lines: seq<string>)
    requires |lines| > 0
    ensures Framed(Join(sep, lines), lines[0], lines[|lines| - 1])
  {
    JoinEnds(sep, lines);
  }

  /** A joined text starts with the first piece and ends with the last. */
  lemma {:induction false} JoinEnds(sep: string, parts: seq<string>)
    requires |parts| > 0
    ensures |Join(sep, parts)| >= |parts[0]| && Join(sep, parts)[..|parts[0]|] == parts[0]
    ensures |Join(sep, parts)| >= |parts[|parts| - 1]| &&
      Join(sep, parts)[|Join(sep, parts)| - |parts[|parts| - 1]|..] == parts[|parts| - 1]
    decreases |parts|
  {
    if |parts| > 1 {
      JoinEnds(sep, parts[1..]);
      var rest := Join(sep, parts[1..]);
      var last := parts[|parts| - 1];
      assert parts[1..][|parts| - 2] == last;
      assert Join(sep, parts) == parts[0] + sep + rest;
      assert (parts[0] + sep + rest)[|parts[0] + sep + rest| - |last|..] == rest[|rest| - |last|..];
    }
  }

  /** Every material's dictionary is among the collection's material dictionaries. */
  lemma {:induction false} MaterialDictsHas(entries: ODict<string, Entry>, i: nat)
    requires i < |entries| && entries[i].1.Mat?
    ensures exists j :: 0 <= j < |MaterialDicts(entries)| && MaterialDicts(entries)[j] == entries[i].1.dict
    decreases |entries|
  {
    var n := |entries|;
    if i < n - 1 {
      assert entries[..n - 1][i] == entries[i];
      MaterialDictsHas(entries[..n - 1], i);
      var j :| 0 <= j < |MaterialDicts(entries[..n - 1])| && MaterialDicts(entries[..n - 1])[j] == entries[i].1.dict;
      assert MaterialDicts(entries)[j] == MaterialDicts(entries[..n - 1])[j];
    } else {
      assert MaterialDicts(entries)[|MaterialDicts(entries)| - 1] == entries[i].1.dict;
    }
  }

  /** A document is written only when every material has a `Name` and a `Description`. */
  lemma DocumentNeedsNames(entries: ODict<string, Entry>, ids: ODict<Val, string>, num: NumText, i: nat)
    requires i < |entries| && entries[i].1.Mat?
    ensures DocumentText(entries, ids, num).Ok? ==>
      HasKey(entries[i].1.dict, "Name") && HasKey(entries[i].1.dict, "Description")
  {
    if DocumentText(entries, ids, num).Ok? {
      MaterialDictsHas(entries, i);
      var ms := MaterialDicts(entries);
      var j :| 0 <= j < |ms| && ms[j] == entries[i].1.dict;
      assert MaterialWriter(ids, num)(ms[j]).Ok?;
    }
  }

  /** A material as its constructor makes it (`MaterialName`, `Condition`, `DataSource`,
      `Description`) has no `Name`: a collection holding one cannot be written. */
  lemma FreshMaterialNotWritable(entries: ODict<string, Entry>, ids: ODict<Val, string>, num: NumText, i: nat, name: Val)
    requires i < |entries| && entries[i].1 == NewMaterial(name)
    ensures DocumentText(entries, ids, num).Err?
  {
    DocumentNeedsNames(entries, ids, num, i);
  }

  /** The header the ANSYS wrapper puts before the document. */
  const AnsysHeader := "<?xml version=\"1.0\" encoding=\"UTF-8\"?>\n" +
    "<EngineeringData version='15.0.0.504' versiondate='16/10/2013 16:34:00'>\n" +
    "\t<Notes>\n" +
    "\t</Notes>\n" +
    "<Materials>\n"

  /** The footer the ANSYS wrapper puts after the document. */
  const AnsysFooter := "\n</Materials>\n" + "</EngineeringData>"

  // ---------------------------------------------------------------------------------------
  // The writing loops

  /** `write_parameter`, building its list of lines. */
  method WriteParameter(ids: ODict<Val, string>, p: Val, num: NumText) returns (r: Result<string>)
    ensures r == ParameterBlock(ids, p, num)
  {
    var name := Index(p, "Name");
    if name.Err? {
      return Err(name.error);
    }
    var mid := MatML.Lookup(ids, name.value);
    if mid.Err? {
      return Err(mid.error);
    }
    var data := Index(p, "Values");
    if data.Err? {
      return Err(data.error);
    }
    var fd := FormatAndData(data.value, num);
    if fd.Err? {
      return Err(fd.error);
    }
    var dformat := fd.value.0;
    var first := "<ParameterValue parameter='" + mid.value + "' format=\"" + dformat + "\">";
    var second := "<Data format=\"" + dformat + "\">" + fd.value.1 + "</Data>";
    var parameter_lines := [first];
    parameter_lines := parameter_lines + [second];
    parameter_lines := parameter_lines + ["</ParameterValue>"];
    assert parameter_lines == [first, second, "</ParameterValue>"];
    r := Ok(Join("\n\t\t\t", parameter_lines));
  }

  /** The loop of `write_property`: the element of each parameter in turn. */
  method WriteParameters(ids: ODict<Val, string>, parameters: seq<Val>, num: NumText) returns (r: Result<seq<string>>)
    ensures r == MapAll(parameters, ParameterWriter(ids, num))
  {
    ghost var f := ParameterWriter(ids, num);
    var blocks := [];
    var i := 0;
    while i < |parameters|
      invariant 0 <= i <= |parameters|
      invariant MapAll(parameters[..i], f) == Ok(blocks)
    {
      var block := WriteParameter(ids, parameters[i], num);
      assert f(parameters[i]) == block;
      if block.Err? {
        MapAllStops(parameters, f, i);
        return Err(block.error);
      }
      MapAllNext(parameters, f, i);
      blocks := blocks + [block.value];
      i := i + 1;
    }
    assert parameters[..i] == parameters;
    r := Ok(blocks);
  }

  /** `write_property`: the opening line with the property's id, the element of each
      parameter, the closing tag. */
  method WriteProperty(ids: ODict<Val, string>, prop: Val, num: NumText) returns (r: Result<string>)
    ensures r == PropertyBlock(ids, prop, num)
  {
    var name := Index(prop, "Name");
    if name.Err? {
      return Err(name.error);
    }
    var id := MatML.Lookup(ids, name.value);
    if id.Err? {
      return Err(id.error);
    }
    var blocks := WriteParameters(ids, Parameters(prop.entries), num);
    if blocks.Err? {
      return Err(blocks.error);
    }
    var property_lines := ["\t\t<PropertyData property=\"" + id.value + "\">"] + blocks.value + ["</PropertyData>"];
    r := Ok(Join("\n\t\t", property_lines));
  }

  /** The loop of `write_material`: the element of each property in turn. */
  method WriteProperties(ids: ODict<Val, string>, properties: seq<Val>, num: NumText) returns (r: Result<seq<string>>)
    ensures r == MapAll(properties, PropertyWriter(ids, num))
  {
    ghost var f := PropertyWriter(ids, num);
    var blocks := [];
    var i := 0;
    while i < |properties|
      invariant 0 <= i <= |properties|
      invariant MapAll(properties[..i], f) == Ok(blocks)
    {
      var block := WriteProperty(ids, properties[i], num);
      assert f(properties[i]) == block;
      if block.Err? {
        MapAllStops(properties, f, i);
        return Err(block.error);
      }
      MapAllNext(properties, f, i);
      blocks := blocks + [block.value];
      i := i + 1;
    }
    assert properties[..i] == properties;
    r := Ok(blocks);
  }

  /** `write_material`: the lines of the material's name and description, the element of
      each property, the closing tags. */
  method WriteMaterial(ids: ODict<Val, string>, d: ODict<string, Val>, num: NumText) returns (r: Result<string>)
    ensures r == MaterialBlock(ids, d, num)
  {
    var name := Index(Dict(d), "Name");
    if name.Err? {
      return Err(name.error);
    }
    var description := Index(Dict(d), "Description");
    if description.Err? {
      return Err(description.error);
    }
    var blocks := WriteProperties(ids, Properties(d), num);
    if blocks.Err? {
      return Err(blocks.error);
    }
    var head := ["<Material>\n\t<BulkDetails>",
                 "\t\t<Name>" + Show(name.value, num) + "</Name>",
                 "\t\t<Description>" + Show(description.value, num) + "</Description>"];
    var material_lines := head + blocks.value + ["\t</BulkDetails>\n</Material>"];
    r := Ok(Join("\n\t", material_lines));
  }

  /** The loop of `write_matml_lines`: the element of each material in turn. */
  method WriteMaterials(ids: ODict<Val, string>, materials: seq<ODict<string, Val>>, num: NumText) returns (r: Result<seq<string>>)
    ensures r == MapAll(materials, MaterialWriter(ids, num))
  {
    ghost var f := MaterialWriter(ids, num);
    var blocks := [];
    var i := 0;
    while i < |materials|
      invariant 0 <= i <= |materials|
      invariant MapAll(materials[..i], f) == Ok(blocks)
    {
      var block := WriteMaterial(ids, materials[i], num);
      assert f(materials[i]) == block;
      if block.Err? {
        MapAllStops(materials, f, i);
        return Err(block.error);
      }
      MapAllNext(materials, f, i);
      blocks := blocks + [block.value];
      i := i + 1;
    }
    assert materials[..i] == materials;
    r := Ok(blocks);
  }

  /** Four appends in a row add one block of four. */
  lemma AppendFour<T>(p: seq<T>, q: seq<T>, a: T, b: T, c: T, d: T)
    ensures p + q + [a] + [b] + [c] + [d] == p + (q + [a, b, c, d])
  {
  }

  /** Appends the four lines of every entry. */
  method AppendDetails(lines: seq<string>, kind: string, items: seq<(Val, string)>, num: NumText) returns (out: seq<string>)
    ensures out == lines + DetailLines(kind, items, num)
  {
    out := lines;
    var i := 0;
    while i < |items|
      invariant 0 <= i <= |items|
      invariant out == lines + DetailLines(kind, items[..i], num)
    {
      assert items[..i + 1][..i] == items[..i];
      var name, id := items[i].0, items[i].1;
      out := out + [DetailsTag(kind, id)];
      out := out + [NameLine(name, num)];
      out := out + [UnitLine];
      out := out + ["</" + kind + ">"];
      AppendFour(lines, DetailLines(kind, items[..i], num), DetailsTag(kind, id), NameLine(name, num), UnitLine, "</" + kind + ">");
      assert DetailLines(kind, items[..i + 1], num) ==
        DetailLines(kind, items[..i], num) + [DetailsTag(kind, id), NameLine(name, num), UnitLine, "</" + kind + ">"];
      i := i + 1;
    }
    assert items[..i] == items;
  }

  /** `write_metadata`: parameters, then properties, each group sorted by id. */
  method WriteMetadata(ids: ODict<Val, string>, num: NumText) returns (text: string)
    ensures text == MetadataText(ids, num)
  {
    var mdata_lines := ["<Metadata>"];
    var properties := Tagged(ids, "pr");
    var parameters := Tagged(ids, "pa");
    properties := SortById(properties);
    parameters := SortById(parameters);
    mdata_lines := AppendDetails(mdata_lines, "ParameterDetails", parameters, num);
    mdata_lines := AppendDetails(mdata_lines, "PropertyDetails", properties, num);
    mdata_lines := mdata_lines + ["</Metadata>"];
    text := Join("\n\t\t", mdata_lines);
  }

  /** `write_matml_lines`: the ids are generated (and kept on the collection) first; an
      exception there ends the export. */
  method WriteMatmlLines(md: MaterialData, num: NumText) returns (r: Result<string>)
    modifies md
    ensures Ids(old(md.entries)).Err? ==> r == Err(Ids(old(md.entries)).error) && md.ids == old(md.ids)
    ensures Ids(old(md.entries)).Ok? ==>
      r == DocumentText(old(md.entries), Ids(old(md.entries)).value, num) && md.ids == Some(Ids(old(md.entries)).value)
    ensures md.entries == old(md.entries) && md.source == old(md.source) && md.filename == old(md.filename)
    ensures md.materialnames == old(md.materialnames) && md.sources == old(md.sources)
  {
    var ids := md.GenerateIds();
    if ids.Err? {
      return Err(ids.error);
    }
    var blocks := WriteMaterials(ids.value, MaterialDicts(md.entries), num);
    if blocks.Err? {
      return Err(blocks.error);
    }
    var metadata := WriteMetadata(ids.value, num);
    var matml_lines := ["<MatML_Doc>"] + blocks.value + [metadata, "</MatML_Doc>"];
    r := Ok(Join("\n\t", matml_lines));
  }

  /** `write.matml` up to the file write: the document, wrapped in the ANSYS header and
      footer when `ansys` is set. */
  method WriteMatml(md: MaterialData, ansys: bool, num: NumText) returns (r: Result<string>)
    modifies md
    ensures var ids := Ids(old(md.entries));
      var doc := if ids.Ok? then DocumentText(old(md.entries), ids.value, num) else Err(ids.error);
      (doc.Err? ==> r == doc) &&
      (doc.Ok? ==> r == Ok(if ansys then AnsysHeader + doc.value + AnsysFooter else doc.value))
    ensures Ids(old(md.entries)).Err? ==> md.ids == old(md.ids)
    ensures Ids(old(md.entries)).Ok? ==> md.ids == Some(Ids(old(md.entries)).value)
    ensures md.entries == old(md.entries) && md.source == old(md.source) && md.filename == old(md.filename)
    ensures md.materialnames == old(md.materialnames) && md.sources == old(md.sources)
  {
    var matml_lines := WriteMatmlLines(md, num);
    if matml_lines.Err? {
      return matml_lines;
    }
    var text := matml_lines.value;
    if ansys {
      text := AnsysHeader + text + AnsysFooter;
    }
    r := Ok(text);
  }
}
