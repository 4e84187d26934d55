/** `MaterialData`: a collection of materials keyed by name.

    Reading a file merges its materials into the collection, renaming both sides of a name
    clash; `generate_ids` numbers the distinct parameter and property names for the MatML
    writer. The collection is a dictionary; a material inside it is kept as a value (its
    `.name` attribute and its entries).
 */
module Collection {
  import opened PyValues
  import opened Entities
  import Materials

  /** A value stored in a collection: a `Material`, or anything else. */
  datatype Entry = Mat(name: Val, dict: ODict<string, Val>) | Other(v: Val)

  /** `Material(name)` as a collection entry. */
  function NewMaterial(name: Val): (e: Entry)
    ensures e.Mat? && e.name == name && Item(e, "MaterialName") == Ok(name)
  {
    Mat(name, Materials.Fields(name))
  }

  /** `entry[key]`. */
  function Item(e: Entry, key: string): (r: Result<Val>)
    ensures e.Mat? && HasKey(e.dict, key) ==> r == Ok(Get(e.dict, key))
    ensures e.Mat? && !HasKey(e.dict, key) ==> r == Err(KeyError)
  {
    match e
    case Mat(_, d) => Index(Dict(d), key)
    case Other(v) => Index(v, key)
  }

  // ---------------------------------------------------------------------------------------
  // import_material

  /** The collection after `import_material(materialdata, materialname, newname)`: the source
      entry is copied under `newname` (`'auto'` keeps its name) when the source holds it;
      otherwise nothing changes. */
  function Imported(entries: ODict<string, Entry>, materialdata: ODict<string, Entry>, materialname: string,
                    newname: string): (r: ODict<string, Entry>)
    ensures var target := if newname == "auto" then materialname else newname;
      HasKey(materialdata, materialname) ==>
        HasKey(r, target) && Get(r, target) == Get(materialdata, materialname) &&
        forall k :: k != target ==> (HasKey(r, k) <==> HasKey(entries, k)) && (HasKey(entries, k) ==> Get(r, k) == Get(entries, k))
    ensures !HasKey(materialdata, materialname) ==> r == entries
  {
    var target := if newname == "auto" then materialname else newname;
    if HasKey(materialdata, materialname) then Set(entries, target, Get(materialdata, materialname)) else entries
  }

  // ---------------------------------------------------------------------------------------
  // The merge loop of import_file

  /** `'{} ({})'.format(m, x)`: the name with a value appended in parentheses. */
  function Qualified(m: string, x: Val, num: NumText): (n: string)
    ensures |n| > |m| && n[..|m|] == m
  {
    m + " (" + Show(x, num) + ")"
  }

  /** The name an incoming material takes on a clash: its condition appended, and then its
      data source as well when that name is already taken. */
  function NewName(entries: ODict<string, Entry>, m: string, incoming: Entry, num: NumText): (r: Result<string>)
    ensures incoming.Mat? && HasKey(incoming.dict, "Condition") &&
            !HasKey(entries, Qualified(m, Get(incoming.dict, "Condition"), num)) ==>
      r == Ok(Qualified(m, Get(incoming.dict, "Condition"), num))
    ensures incoming.Mat? && HasKey(incoming.dict, "Condition") && HasKey(incoming.dict, "DataSource") &&
            HasKey(entries, Qualified(m, Get(incoming.dict, "Condition"), num)) ==>
      r == Ok(Qualified(Qualified(m, Get(incoming.dict, "Condition"), num), Get(incoming.dict, "DataSource"), num))
    ensures incoming.Mat? && !HasKey(incoming.dict, "Condition") ==> r == Err(KeyError)
    ensures r.Ok? ==> |r.value| > |m| && r.value[..|m|] == m
  {
    var condition :- Item(incoming, "Condition");
    var newname := Qualified(m, condition, num);
    if !HasKey(entries, newname) then Ok(newname)
    else
      var source :- Item(incoming, "DataSource");
      Ok(Qualified(newname, source, num))
  }

  /** The incumbent under `m`, if any, moved to `m` with its own condition appended. */
  function MoveIncumbent(entries: ODict<string, Entry>, m: string, num: NumText): (r: Result<ODict<string, Entry>>)
    ensures !HasKey(entries, m) ==> r == Ok(entries)
    ensures r.Ok? ==> !HasKey(r.value, m)
  {
    if !HasKey(entries, m) then Ok(entries)
    else
      var condition :- Item(Get(entries, m), "Condition");
      var moved := Qualified(m, condition, num);
      Ok(Remove(Set(entries, moved, Get(entries, m)), m))
  }

  /** One pass of the merge loop for the incoming key `m`, on the non-interactive path (the
      answer to "append conditions?" is always yes). Only materials are merged; a clash is
      a key found among the cached material names. */
  function MergeStep(entries: ODict<string, Entry>, materialnames: seq<Val>, m: string, incoming: Entry,
                     num: NumText): (r: Result<ODict<string, Entry>>)
    ensures !incoming.Mat? ==> r == Ok(entries)
    ensures incoming.Mat? && Str(m) !in materialnames ==>
      r.Ok? && HasKey(r.value, m) && Get(r.value, m) == incoming &&
      forall k :: k != m ==> SameAt(entries, r.value, k)
    ensures incoming.Mat? && Str(m) in materialnames && NewName(entries, m, incoming, num).Err? ==>
      r == Err(NewName(entries, m, incoming, num).error)
    ensures incoming.Mat? && Str(m) in materialnames && r.Ok? ==>
      NewName(entries, m, incoming, num).Ok? && !HasKey(r.value, m) &&
      HasKey(r.value, NewName(entries, m, incoming, num).value) &&
      Get(r.value, NewName(entries, m, incoming, num).value) == incoming
  {
    if !incoming.Mat? then Ok(entries)
    else if Str(m) !in materialnames then Ok(Set(entries, m, incoming))
    else
      var newname :- NewName(entries, m, incoming, num);
      var moved :- MoveIncumbent(entries, m, num);
      Ok(Set(moved, newname, incoming))
  }

  /** The collection when the merge loop stops, and the exception that stopped it. */
  datatype Merged = Merged(entries: ODict<string, Entry>, error: Option<Error>)

  /** The merge loop over the incoming materials, in order; an exception ends it with the
      changes made so far. */
  function MergeAll(entries: ODict<string, Entry>, materialnames: seq<Val>, incoming: ODict<string, Entry>,
                    num: NumText): (r: Merged)
    ensures (forall i :: 0 <= i < |incoming| ==> !incoming[i].1.Mat?) ==> r == Merged(entries, None)
    ensures r.error.Some? ==> exists i :: 0 <= i < |incoming| && incoming[i].1.Mat?
    decreases |incoming|
  {
    if |incoming| == 0 then Merged(entries, None)
    else
      var n := |incoming|;
      var before := MergeAll(entries, materialnames, incoming[..n - 1], num);
      if before.error.Some? then before
      else
        match MergeStep(before.entries, materialnames, incoming[n - 1].0, incoming[n - 1].1, num)
        case Ok(after) => Merged(after, None)
        case Err(e) => Merged(before.entries, Some(e))
  }

  /** Once a pass has raised, the remaining passes do not run. */
  lemma {:induction false} ErrorEndsMerge(entries: ODict<string, Entry>, materialnames: seq<Val>,
                                          incoming: ODict<string, Entry>, i: nat, num: NumText)
    requires i <= |incoming| && MergeAll(entries, materialnames, incoming[..i], num).error.Some?
    ensures MergeAll(entries, materialnames, incoming, num) == MergeAll(entries, materialnames, incoming[..i], num)
    decreases |incoming|
  {
    if i < |incoming| {
      var init := incoming[..|incoming| - 1];
      assert init[..i] == incoming[..i];
      ErrorEndsMerge(entries, materialnames, init, i, num);
      ErrorStops(entries, materialnames, incoming, num);
    } else {
      assert incoming[..i] == incoming;
    }
  }

  /** A pass after one that raised returns the loop's state unchanged. */
  lemma ErrorStops(entries: ODict<string, Entry>, materialnames: seq<Val>, incoming: ODict<string, Entry>, num: NumText)
    requires |incoming| > 0 && MergeAll(entries, materialnames, incoming[..|incoming| - 1], num).error.Some?
    ensures MergeAll(entries, materialnames, incoming, num) == MergeAll(entries, materialnames, incoming[..|incoming| - 1], num)
  {
  }

  /** A clash: the incoming material ends under its new name, the incumbent under its
      qualified name (unless the incoming material then overwrote it), and neither keeps the
      bare name. */
  lemma ClashRenamesBoth(entries: ODict<string, Entry>, materialnames: seq<Val>, m: string, e: Entry, num: NumText)
    requires UniqueKeys(entries) && e.Mat? && Str(m) in materialnames
    requires NewName(entries, m, e, num).Ok? && MoveIncumbent(entries, m, num).Ok?
    ensures var r := MergeStep(entries, materialnames, m, e, num);
      var newname := NewName(entries, m, e, num).value;
      r.Ok? && !HasKey(r.value, m) && HasKey(r.value, newname) && Get(r.value, newname) == e
    ensures HasKey(entries, m) ==>
      var r := MergeStep(entries, materialnames, m, e, num);
      var newname := NewName(entries, m, e, num).value;
      var moved := Qualified(m, Item(Get(entries, m), "Condition").value, num);
      HasKey(r.value, moved) && Get(r.value, moved) == (if moved == newname then e else Get(entries, m))
    ensures var r := MergeStep(entries, materialnames, m, e, num);
      var newname := NewName(entries, m, e, num).value;
      forall k :: k != m && k != newname &&
                  (HasKey(entries, m) ==> k != Qualified(m, Item(Get(entries, m), "Condition").value, num)) ==>
        SameAt(entries, r.value, k)
  {
    var newname := NewName(entries, m, e, num).value;
    var moved := MoveIncumbent(entries, m, num).value;
    assert newname != m by {
      assert |newname| > |m|;
    }
    if HasKey(entries, m) {
      var movedname := Qualified(m, Item(Get(entries, m), "Condition").value, num);
      var copied := Set(entries, movedname, Get(entries, m));
      assert movedname != m by {
        assert |movedname| > |m|;
      }
      assert UniqueKeys(copied);
      assert moved == Remove(copied, m);
      assert HasKey(moved, movedname) && Get(moved, movedname) == Get(entries, m);
    }
  }

  /** When the incumbent and the incoming material have the same condition and that name is
      free, the moved incumbent is overwritten by the incoming material. */
  lemma SameConditionOverwrites(entries: ODict<string, Entry>, materialnames: seq<Val>, m: string, e: Entry, num: NumText)
    requires UniqueKeys(entries) && e.Mat? && Str(m) in materialnames && HasKey(entries, m)
    requires Get(entries, m).Mat? && HasKey(Get(entries, m).dict, "Condition") && HasKey(e.dict, "Condition")
    requires Get(Get(entries, m).dict, "Condition") == Get(e.dict, "Condition")
    requires !HasKey(entries, Qualified(m, Get(e.dict, "Condition"), num))
    ensures var r := MergeStep(entries, materialnames, m, e, num);
      var name := Qualified(m, Get(e.dict, "Condition"), num);
      r.Ok? && !HasKey(r.value, m) && HasKey(r.value, name) && Get(r.value, name) == e
  {
    ClashRenamesBoth(entries, materialnames, m, e, num);
  }

  /** Without a clash among the cached names, the incoming material is stored under its own
      key, replacing whatever was there; anything but a material is skipped. */
  lemma NoClashOverwrites(entries: ODict<string, Entry>, materialnames: seq<Val>, m: string, e: Entry, num: NumText)
    ensures !e.Mat? ==> MergeStep(entries, materialnames, m, e, num) == Ok(entries)
    ensures e.Mat? && Str(m) !in materialnames ==>
      var r := MergeStep(entries, materialnames, m, e, num);
      r.Ok? && HasKey(r.value, m) && Get(r.value, m) == e &&
      forall k :: k != m ==> SameAt(entries, r.value, k)
  {
  }

  /** Every pass keeps the keys of the collection distinct. */
  lemma MergeStepUnique(entries: ODict<string, Entry>, materialnames: seq<Val>, m: string, e: Entry, num: NumText)
    requires UniqueKeys(entries)
    ensures var r := MergeStep(entries, materialnames, m, e, num); r.Ok? ==> UniqueKeys(r.value)
  {
    if e.Mat? && Str(m) in materialnames && HasKey(entries, m) && Item(Get(entries, m), "Condition").Ok? {
      var movedname := Qualified(m, Item(Get(entries, m), "Condition").value, num);
      assert UniqueKeys(Set(entries, movedname, Get(entries, m)));
    }
  }

  /** The whole merge keeps the keys of the collection distinct. */
  lemma {:induction false} MergeAllUnique(entries: ODict<string, Entry>, materialnames: seq<Val>,
                                          incoming: ODict<string, Entry>, num: NumText)
    requires UniqueKeys(entries)
    ensures UniqueKeys(MergeAll(entries, materialnames, incoming, num).entries)
    decreases |incoming|
  {
    if |incoming| > 0 {
      var n := |incoming|;
      MergeAllUnique(entries, materialnames, incoming[..n - 1], num);
      var before := MergeAll(entries, materialnames, incoming[..n - 1], num);
      MergeStepUnique(before.entries, materialnames, incoming[n - 1].0, incoming[n - 1].1, num);
    }
  }

  /** `[x[key] for x in self.values() if type(x) is Material]`. */
  function MaterialField(entries: ODict<string, Entry>, key: string): (r: Result<seq<Val>>)
    ensures r.Ok? <==> forall i :: 0 <= i < |entries| && entries[i].1.Mat? ==> HasKey(entries[i].1.dict, key)
    ensures r.Ok? ==> (|r.value| == |MaterialDicts(entries)| &&
      forall i :: 0 <= i < |r.value| ==> HasKey(MaterialDicts(entries)[i], key) && r.value[i] == Get(MaterialDicts(entries)[i], key))
    ensures r.Err? ==> r.error == KeyError
    decreases |entries|
  {
    if |entries| == 0 then Ok([])
    else
      var n := |entries|;
      var init := MaterialField(entries[..n - 1], key);
      var e := entries[n - 1].1;
      assert forall i :: 0 <= i < n - 1 ==> entries[..n - 1][i] == entries[i];
      if init.Err? then init
      else if !e.Mat? then Ok(init.value)
      else if !HasKey(e.dict, key) then Err(KeyError)
      else Ok(init.value + [Get(e.dict, key)])
  }

  /** The dictionaries of the materials of a collection, in order. */
  function MaterialDicts(entries: ODict<string, Entry>): (ms: seq<ODict<string, Val>>)
    ensures |ms| <= |entries|
    ensures |entries| == 1 ==> ms == (if entries[0].1.Mat? then [entries[0].1.dict] else [])
    ensures forall i :: 0 <= i < |entries| && entries[i].1.Mat? ==> entries[i].1.dict in ms
    ensures forall d :: d in ms ==> exists i :: 0 <= i < |entries| && entries[i].1.Mat? && entries[i].1.dict == d
    decreases |entries|
  {
    if |entries| == 0 then []
    else
      var n := |entries|;
      var e := entries[n - 1].1;
      var init := entries[..n - 1];
      assert forall i :: 0 <= i < n - 1 ==> init[i] == entries[i];
      MaterialDicts(init) + (if e.Mat? then [e.dict] else [])
  }

  /** The materials keep the collection's order: the dictionaries of two runs of entries are
      those of the first run, then those of the second. */
  lemma {:induction false} MaterialDictsConcat(a: ODict<string, Entry>, b: ODict<string, Entry>)
    ensures MaterialDicts(a + b) == MaterialDicts(a) + MaterialDicts(b)
    decreases |b|
  {
    if |b| == 0 {
      assert a + b == a;
    } else {
      var n := |b|;
      var ab := a + b;
      var e := b[n - 1].1;
      var tail := if e.Mat? then [e.dict] else [];
      MaterialDictsConcat(a, b[..n - 1]);
      assert ab[..|ab| - 1] == a + b[..n - 1] && ab[|ab| - 1] == b[n - 1];
      assert MaterialDicts(ab) == MaterialDicts(a + b[..n - 1]) + tail;
      assert MaterialDicts(b) == MaterialDicts(b[..n - 1]) + tail;
    }
  }

  /** The merge loop after one more pass. */
  lemma MergeNext(entries: ODict<string, Entry>, materialnames: seq<Val>, incoming: ODict<string, Entry>, i: nat, num: NumText)
    requires i < |incoming| && MergeAll(entries, materialnames, incoming[..i], num).error.None?
    ensures var before := MergeAll(entries, materialnames, incoming[..i], num);
      MergeAll(entries, materialnames, incoming[..i + 1], num) ==
        match MergeStep(before.entries, materialnames, incoming[i].0, incoming[i].1, num)
        case Ok(after) => Merged(after, None)
        case Err(e) => Merged(before.entries, Some(e))
  {
    assert incoming[..i + 1][..i] == incoming[..i];
  }

  // ---------------------------------------------------------------------------------------
  // generate_ids

  /** `parameter["Name"]` for every `MaterialParameter` among a property's values. */
  function ParameterNames(entries: ODict<string, Val>): (r: Result<seq<Val>>)
    ensures r.Err? ==> r.error == KeyError
    ensures |entries| == 1 ==>
      var v := entries[0].1;
      r == (if !v.Param? then Ok([]) else if HasKey(v.entries, "Name") then Ok([Get(v.entries, "Name")]) else Err(KeyError))
    decreases |entries|
  {
    if |entries| == 0 then Ok([])
    else
      var n := |entries|;
      assert n == 1 ==> entries[..n - 1] == [];
      var init :- ParameterNames(entries[..n - 1]);
      var v := entries[n - 1].1;
      if !v.Param? then Ok(init)
      else if !HasKey(v.entries, "Name") then Err(KeyError)
      else
        assert n == 1 ==> init + [Get(v.entries, "Name")] == [Get(v.entries, "Name")];
        Ok(init + [Get(v.entries, "Name")])
  }

  /** The names collected from one material: `property["Name"]` for every
      `MaterialProperty`, and the names of its parameters. */
  function PropertyNames(d: ODict<string, Val>): (r: Result<(seq<Val>, seq<Val>)>)
    ensures r.Err? ==> r.error == KeyError
    ensures |d| == 1 && !d[0].1.Prop? ==> r == Ok(([], []))
    ensures |d| == 1 && d[0].1.Prop? && !HasKey(d[0].1.entries, "Name") ==> r == Err(KeyError)
    ensures |d| == 1 && d[0].1.Prop? && HasKey(d[0].1.entries, "Name") ==>
      var ps := ParameterNames(d[0].1.entries);
      (ps.Err? ==> r == Err(KeyError)) && (ps.Ok? ==> r == Ok(([Get(d[0].1.entries, "Name")], ps.value)))
    decreases |d|
  {
    if |d| == 0 then Ok(([], []))
    else
      var n := |d|;
      assert n == 1 ==> d[..n - 1] == [];
      var init :- PropertyNames(d[..n - 1]);
      var v := d[n - 1].1;
      if !v.Prop? then Ok(init)
      else if !HasKey(v.entries, "Name") then Err(KeyError)
      else
        var parameters :- ParameterNames(v.entries);
        assert n == 1 ==> init.0 + [Get(v.entries, "Name")] == [Get(v.entries, "Name")] && init.1 + parameters == parameters;
        Ok((init.0 + [Get(v.entries, "Name")], init.1 + parameters))
  }

  /** The property names and the parameter names of every material, in order. */
  function CollectedNames(entries: ODict<string, Entry>): (r: Result<(seq<Val>, seq<Val>)>)
    ensures r.Err? ==> r.error == KeyError
    ensures |entries| == 1 ==> r == (if entries[0].1.Mat? then PropertyNames(entries[0].1.dict) else Ok(([], [])))
    decreases |entries|
  {
    if |entries| == 0 then Ok(([], []))
    else
      var n := |entries|;
      assert n == 1 ==> entries[..n - 1] == [];
      var init :- CollectedNames(entries[..n - 1]);
      var e := entries[n - 1].1;
      if !e.Mat? then Ok(init)
      else
        var names :- PropertyNames(e.dict);
        assert n == 1 ==> init.0 + names.0 == names.0 && init.1 + names.1 == names.1;
        Ok((init.0 + names.0, init.1 + names.1))
  }

  /** A property's parameter names keep its order: the names of two runs of values are those
      of the first run, then those of the second; the first run that raises decides. */
  lemma {:induction false} ParameterNamesConcat(a: ODict<string, Val>, b: ODict<string, Val>)
    ensures ParameterNames(a).Err? ==> ParameterNames(a + b) == ParameterNames(a)
    ensures ParameterNames(a).Ok? && ParameterNames(b).Err? ==> ParameterNames(a + b) == ParameterNames(b)
    ensures ParameterNames(a).Ok? && ParameterNames(b).Ok? ==>
      ParameterNames(a + b) == Ok(ParameterNames(a).value + ParameterNames(b).value)
    decreases |b|
  {
    if |b| == 0 {
      assert a + b == a;
      assert ParameterNames(a).Ok? ==> ParameterNames(a).value + [] == ParameterNames(a).value;
    } else {
      var n := |b|;
      var ab := a + b;
      var init := b[..n - 1];
      var v := b[n - 1].1;
      ParameterNamesConcat(a, init);
      assert ab[..|ab| - 1] == a + init && ab[|ab| - 1] == b[n - 1];
      if ParameterNames(a).Ok? && ParameterNames(init).Ok? && v.Param? && HasKey(v.entries, "Name") {
        var x, y, name := ParameterNames(a).value, ParameterNames(init).value, Get(v.entries, "Name");
        assert ParameterNames(ab) == Ok((x + y) + [name]);
        assert ParameterNames(b) == Ok(y + [name]);
        assert (x + y) + [name] == x + (y + [name]);
      }
    }
  }

  /** A material's names keep its order, in the same sense. */
  lemma {:induction false} PropertyNamesConcat(a: ODict<string, Val>, b: ODict<string, Val>)
    ensures PropertyNames(a).Err? ==> PropertyNames(a + b) == PropertyNames(a)
    ensures PropertyNames(a).Ok? && PropertyNames(b).Err? ==> PropertyNames(a + b) == PropertyNames(b)
    ensures PropertyNames(a).Ok? && PropertyNames(b).Ok? ==>
      PropertyNames(a + b) == Ok((PropertyNames(a).value.0 + PropertyNames(b).value.0,
                                  PropertyNames(a).value.1 + PropertyNames(b).value.1))
    decreases |b|
  {
    if |b| == 0 {
      assert a + b == a;
      assert PropertyNames(a).Ok? ==>
        (PropertyNames(a).value.0 + [] == PropertyNames(a).value.0 && PropertyNames(a).value.1 + [] == PropertyNames(a).value.1);
    } else {
      var n := |b|;
      var ab := a + b;
      var init := b[..n - 1];
      var v := b[n - 1].1;
      PropertyNamesConcat(a, init);
      assert ab[..|ab| - 1] == a + init && ab[|ab| - 1] == b[n - 1];
      if PropertyNames(a).Ok? && PropertyNames(init).Ok? && v.Prop? && HasKey(v.entries, "Name") &&
         ParameterNames(v.entries).Ok? {
        var x, y, name, ps := PropertyNames(a).value, PropertyNames(init).value, Get(v.entries, "Name"),
                              ParameterNames(v.entries).value;
        assert PropertyNames(ab) == Ok(((x.0 + y.0) + [name], (x.1 + y.1) + ps));
        assert PropertyNames(b) == Ok((y.0 + [name], y.1 + ps));
        assert (x.0 + y.0) + [name] == x.0 + (y.0 + [name]) && (x.1 + y.1) + ps == x.1 + (y.1 + ps);
      }
    }
  }

  /** The collection's names keep the order of its materials, in the same sense. */
  lemma {:induction false} CollectedNamesConcat(a: ODict<string, Entry>, b: ODict<string, Entry>)
    ensures CollectedNames(a).Err? ==> CollectedNames(a + b) == CollectedNames(a)
    ensures CollectedNames(a).Ok? && CollectedNames(b).Err? ==> CollectedNames(a + b) == CollectedNames(b)
    ensures CollectedNames(a).Ok? && CollectedNames(b).Ok? ==>
      CollectedNames(a + b) == Ok((CollectedNames(a).value.0 + CollectedNames(b).value.0,
                                   CollectedNames(a).value.1 + CollectedNames(b).value.1))
    decreases |b|
  {
    if |b| == 0 {
      assert a + b == a;
      assert CollectedNames(a).Ok? ==>
        (CollectedNames(a).value.0 + [] == CollectedNames(a).value.0 && CollectedNames(a).value.1 + [] == CollectedNames(a).value.1);
    } else {
      var n := |b|;
      var ab := a + b;
      var init := b[..n - 1];
      var e := b[n - 1].1;
      CollectedNamesConcat(a, init);
      assert ab[..|ab| - 1] == a + init && ab[|ab| - 1] == b[n - 1];
      if CollectedNames(a).Ok? && CollectedNames(init).Ok? && e.Mat? && PropertyNames(e.dict).Ok? {
        var x, y, z := CollectedNames(a).value, CollectedNames(init).value, PropertyNames(e.dict).value;
        assert CollectedNames(ab) == Ok(((x.0 + y.0) + z.0, (x.1 + y.1) + z.1));
        assert CollectedNames(b) == Ok((y.0 + z.0, y.1 + z.1));
        assert (x.0 + y.0) + z.0 == x.0 + (y.0 + z.0) && (x.1 + y.1) + z.1 == x.1 + (y.1 + z.1);
      }
    }
  }

  predicate Distinct(s: seq<Val>) {
    forall i, j :: 0 <= i < j < |s| ==> s[i] != s[j]
  }

  /** The elements in the order of their first appearance, each once. */
  function FirstAppearances(s: seq<Val>): (d: seq<Val>)
    ensures Distinct(d)
    ensures forall x :: x in d <==> x in s
    decreases |s|
  {
    if |s| == 0 then []
    else
      var n := |s|;
      var init := FirstAppearances(s[..n - 1]);
      assert forall x :: x in s <==> x in s[..n - 1] || x == s[n - 1] by {
        assert s == s[..n - 1] + [s[n - 1]];
      }
      if s[n - 1] in init then init else init + [s[n - 1]]
  }

  /** The ids given to `names`, in order: `ids[p] = prefix + str(i)`; a name that cannot be
      a dictionary key raises `TypeError`. */
  function Numbered(ids: ODict<Val, string>, names: seq<Val>, prefix: string): (r: Result<ODict<Val, string>>)
    ensures r.Ok? <==> forall i :: 0 <= i < |names| ==> Hashable(names[i])
    ensures r.Err? ==> r.error == TypeError
    decreases |names|
  {
    if |names| == 0 then Ok(ids)
    else
      var n := |names|;
      var front := names[..n - 1];
      HashableSnoc(names);
      var init := Numbered(ids, front, prefix);
      if init.Err? then init
      else if !Hashable(names[n - 1]) then Err(TypeError)
      else Ok(Set(init.value, names[n - 1], prefix + Dec(n - 1)))
  }

  /** Every name is hashable exactly when all but the last are and the last is. */
  lemma HashableSnoc(names: seq<Val>)
    requires |names| > 0
    ensures var front := names[..|names| - 1];
      (forall i :: 0 <= i < |names| ==> Hashable(names[i])) <==>
      (forall i :: 0 <= i < |front| ==> Hashable(front[i])) && Hashable(names[|names| - 1])
  {
    var front := names[..|names| - 1];
    assert forall i :: 0 <= i < |front| ==> front[i] == names[i];
  }

  /** `generate_ids`: parameters numbered `pa0, pa1, ...` first, then properties
      `pr0, pr1, ...`, each in order of first appearance. */
  function Ids(entries: ODict<string, Entry>): (r: Result<ODict<Val, string>>)
    ensures CollectedNames(entries).Err? ==> r == Err(KeyError)
    ensures CollectedNames(entries).Ok? ==>
      (r.Ok? <==> AllHashable(CollectedNames(entries).value.0) && AllHashable(CollectedNames(entries).value.1))
    ensures r.Err? ==> r.error == KeyError || r.error == TypeError
  {
    var names :- CollectedNames(entries);
    FirstAppearancesHashable(names.0);
    FirstAppearancesHashable(names.1);
    var parameters :- Numbered([], FirstAppearances(names.1), "pa");
    Numbered(parameters, FirstAppearances(names.0), "pr")
  }

  /** Every name can be a dictionary key. */
  predicate AllHashable(names: seq<Val>) {
    forall i :: 0 <= i < |names| ==> Hashable(names[i])
  }

  /** Keeping first appearances neither adds nor removes an unhashable name. */
  lemma FirstAppearancesHashable(names: seq<Val>)
    ensures AllHashable(FirstAppearances(names)) <==> AllHashable(names)
  {
    var d := FirstAppearances(names);
    if AllHashable(d) {
      forall i | 0 <= i < |names|
        ensures Hashable(names[i])
      {
        assert names[i] in d;
      }
    }
    if AllHashable(names) {
      forall i | 0 <= i < |d|
        ensures Hashable(d[i])
      {
        assert d[i] in names;
      }
    }
  }

  /** What numbering does to one key: a listed name gets its position, any other key keeps
      its id. */
  lemma {:induction false} NumberedAt(ids: ODict<Val, string>, names: seq<Val>, prefix: string, x: Val)
    requires Distinct(names) && forall i :: 0 <= i < |names| ==> Hashable(names[i])
    ensures var r := Numbered(ids, names, prefix);
      r.Ok? && (HasKey(r.value, x) <==> HasKey(ids, x) || x in names) &&
      (forall j :: 0 <= j < |names| && names[j] == x ==> Get(r.value, x) == prefix + Dec(j)) &&
      (x !in names && HasKey(ids, x) ==> Get(r.value, x) == Get(ids, x))
    decreases |names|
  {
    if |names| > 0 {
      var n := |names|;
      var init, last := names[..n - 1], names[n - 1];
      NumberedNext(ids, names, prefix);
      assert Distinct(init) by {
        forall i, j | 0 <= i < j < |init| ensures init[i] != init[j] {
          assert init[i] == names[i] && init[j] == names[j];
        }
      }
      NumberedAt(ids, init, prefix, x);
      var before := Numbered(ids, init, prefix).value;
      var after := Set(before, last, prefix + Dec(n - 1));
      assert Numbered(ids, names, prefix) == Ok(after);
      InSnoc(names, x);
      if x == last {
        assert HasKey(after, x) && Get(after, x) == prefix + Dec(n - 1);
        assert x !in init;
        forall j | 0 <= j < |names| && names[j] == x
          ensures Get(after, x) == prefix + Dec(j)
        {
          assert j == n - 1;
        }
      } else {
        assert HasKey(after, x) <==> HasKey(before, x);
        if HasKey(before, x) {
          SetKeeps(before, last, prefix + Dec(n - 1), x);
        }
        forall j | 0 <= j < |names| && names[j] == x
          ensures Get(after, x) == prefix + Dec(j)
        {
          assert j < n - 1 && init[j] == x;
        }
      }
    }
  }

  /** Numbering a non-empty list of hashable names numbers all but the last, then sets
      the last. */
  lemma NumberedNext(ids: ODict<Val, string>, names: seq<Val>, prefix: string)
    requires |names| > 0 && forall i :: 0 <= i < |names| ==> Hashable(names[i])
    ensures var init := Numbered(ids, names[..|names| - 1], prefix);
      init.Ok? &&
      Numbered(ids, names, prefix) == Ok(Set(init.value, names[|names| - 1], prefix + Dec(|names| - 1)))
  {
    var init := names[..|names| - 1];
    assert forall i :: 0 <= i < |init| ==> Hashable(init[i]);
  }

  /** An element of a non-empty sequence is in all but its last element, or is the last. */
  lemma InSnoc<T>(s: seq<T>, x: T)
    requires |s| > 0
    ensures x in s <==> x in s[..|s| - 1] || x == s[|s| - 1]
  {
    assert s == s[..|s| - 1] + [s[|s| - 1]];
  }

  /** The id of a collected name: `pr{j}` for the j-th distinct property name (so a name used
      for both ends with its `pr` id), else `pa{i}` for the i-th distinct parameter name; and
      exactly the collected names get an id. */
  lemma IdOf(entries: ODict<string, Entry>, x: Val)
    requires Ids(entries).Ok?
    ensures var names := CollectedNames(entries).value;
      var ids := Ids(entries).value;
      var pau, pru := FirstAppearances(names.1), FirstAppearances(names.0);
      (HasKey(ids, x) <==> x in names.0 || x in names.1) &&
      (forall j :: 0 <= j < |pru| && pru[j] == x ==> Get(ids, x) == "pr" + Dec(j)) &&
      (forall i :: 0 <= i < |pau| && pau[i] == x && x !in pru ==> Get(ids, x) == "pa" + Dec(i))
  {
    var names := CollectedNames(entries).value;
    var pau, pru := FirstAppearances(names.1), FirstAppearances(names.0);
    var parameters := Numbered([], pau, "pa");
    assert forall i :: 0 <= i < |pau| ==> Hashable(pau[i]);
    NumberedAt([], pau, "pa", x);
    assert forall i :: 0 <= i < |pru| ==> Hashable(pru[i]);
    NumberedAt(parameters.value, pru, "pr", x);
  }

  /** Different names get different ids. */
  lemma IdsDistinct(entries: ODict<string, Entry>, x: Val, y: Val)
    requires Ids(entries).Ok? && HasKey(Ids(entries).value, x) && HasKey(Ids(entries).value, y) && x != y
    ensures Get(Ids(entries).value, x) != Get(Ids(entries).value, y)
  {
    var names := CollectedNames(entries).value;
    var ids := Ids(entries).value;
    var pau, pru := FirstAppearances(names.1), FirstAppearances(names.0);
    IdOf(entries, x);
    IdOf(entries, y);
    var a := IdText(pau, pru, x);
    var b := IdText(pau, pru, y);
    assert Get(ids, x) == a.0 + Dec(a.1);
    assert Get(ids, y) == b.0 + Dec(b.1);
    if a.0 + Dec(a.1) == b.0 + Dec(b.1) {
      IdTextInjective(a.0, a.1, b.0, b.1);
      assert false;
    }
  }

  /** Different prefixes or different numbers give different ids. */
  lemma IdTextInjective(p: string, i: nat, q: string, j: nat)
    requires (p == "pa" || p == "pr") && (q == "pa" || q == "pr") && p + Dec(i) == q + Dec(j)
    ensures p == q && i == j
  {
    var s, t := p + Dec(i), q + Dec(j);
    assert s[1] == p[1] && t[1] == q[1];
    assert s[2..] == Dec(i) && t[2..] == Dec(j);
    DecInjective(i, j);
  }

  /** The prefix and number of a name's id, read off the two lists of distinct names. */
  function IdText(pau: seq<Val>, pru: seq<Val>, x: Val): (t: (string, nat))
    requires Distinct(pau) && Distinct(pru) && (x in pau || x in pru)
    ensures x in pru ==> t.0 == "pr" && t.1 < |pru| && pru[t.1] == x
    ensures x !in pru ==> t.0 == "pa" && t.1 < |pau| && pau[t.1] == x
  {
    if x in pru then ("pr", Position(pru, x)) else ("pa", Position(pau, x))
  }

  function Position(s: seq<Val>, x: Val): (i: nat)
    requires x in s
    ensures i < |s| && s[i] == x
  {
    if s[0] == x then 0 else 1 + Position(s[1..], x)
  }

  /** The entities the constructors build carry no `"Name"` key, so numbering a material
      holding one raises `KeyError`. */
  lemma ConstructedPropertyHasNoName(key: string, materialname: Val, propertykey: string, name: Val, units: Val,
                                     values: Val, source: Val, comments: Val)
    ensures var p := NewProperty(name, units, values, source, comments);
      Ids([(key, Mat(materialname, [(propertykey, p)]))]) == Err(KeyError)
  {
    var p := NewProperty(name, units, values, source, comments);
    var d := [(propertykey, p)];
    assert d[..0] == [];
    assert PropertyNames(d) == Err(KeyError);
    var entries := [(key, Mat(materialname, d))];
    assert entries[..0] == [];
  }

  lemma {:induction false} CollectedFails(entries: ODict<string, Entry>, i: nat)
    requires 0 < i <= |entries| && entries[i - 1].1.Mat? && PropertyNames(entries[i - 1].1.dict).Err?
    ensures CollectedNames(entries) == Err(KeyError)
    decreases |entries|
  {
    var n := |entries|;
    if i < n {
      assert entries[..n - 1][i - 1] == entries[i - 1];
      CollectedFails(entries[..n - 1], i);
    }
  }

  /** `[out.append(x) for x in s if x not in out]`. */
  method Dedupe(s: seq<Val>) returns (out: seq<Val>)
    ensures out == FirstAppearances(s)
  {
    out := [];
    var i := 0;
    while i < |s|
      invariant 0 <= i <= |s|
      invariant out == FirstAppearances(s[..i])
    {
      assert s[..i + 1][..i] == s[..i];
      if s[i] !in out {
        out := out + [s[i]];
      }
      i := i + 1;
    }
    assert s[..i] == s;
  }

  /** `for i, p in enumerate(names): ids[p] = prefix + str(i)`. */
  method Number(start: ODict<Val, string>, names: seq<Val>, prefix: string) returns (r: Result<ODict<Val, string>>)
    ensures r == Numbered(start, names, prefix)
  {
    var ids := start;
    var i := 0;
    while i < |names|
      invariant 0 <= i <= |names|
      invariant Numbered(start, names[..i], prefix) == Ok(ids)
    {
      assert names[..i + 1][..i] == names[..i];
      if !Hashable(names[i]) {
        NumberedFails(start, names, prefix, i + 1);
        return Err(TypeError);
      }
      ids := Set(ids, names[i], prefix + Dec(i));
      i := i + 1;
    }
    assert names[..i] == names;
    r := Ok(ids);
  }

  lemma NumberedFails(start: ODict<Val, string>, names: seq<Val>, prefix: string, i: nat)
    requires 0 < i <= |names| && !Hashable(names[i - 1])
    ensures Numbered(start, names, prefix) == Err(TypeError)
  {
  }

  /** A collection of materials. */
  class MaterialData {
    var entries: ODict<string, Entry>
    var source: Val
    var filename: seq<string>
    var materialnames: seq<Val>
    /** `self.sources`, absent until an import computes it. */
    var sources: Option<seq<Val>>
    /** `self.ids`, absent until `generate_ids` runs. */
    var ids: Option<ODict<Val, string>>

    /** `MaterialData()` without a source: an empty collection. */
    constructor ()
      ensures entries == [] && source == PyNone && filename == [] && materialnames == []
      ensures sources == None && ids == None
    {
      entries := [];
      source := PyNone;
      filename := [];
      materialnames := [];
      sources := None;
      ids := None;
    }

    /** `import_material`. */
    method ImportMaterial(materialdata: ODict<string, Entry>, materialname: string, newname: string)
      modifies this
      ensures entries == Imported(old(entries), materialdata, materialname, newname)
      ensures source == old(source) && filename == old(filename) && materialnames == old(materialnames)
      ensures sources == old(sources) && ids == old(ids)
    {
      var target := newname;
      if target == "auto" {
        target := materialname;
      }
      if HasKey(materialdata, materialname) {
        entries := Set(entries, target, Get(materialdata, materialname));
      }
    }

    /** One pass of the merge loop: the incoming entry `e` under key `m`. */
    method MergeOne(m: string, e: Entry, num: NumText) returns (err: Option<Error>)
      modifies this
      ensures var step := MergeStep(old(entries), materialnames, m, e, num);
        (step.Ok? ==> err.None? && entries == step.value) && (step.Err? ==> err == Some(step.error) && entries == old(entries))
      ensures source == old(source) && ids == old(ids) && filename == old(filename)
      ensures materialnames == old(materialnames) && sources == old(sources)
    {
      if e.Mat? {
        if Str(m) in materialnames {
          var newname := NewName(entries, m, e, num);
          if newname.Err? {
            return Some(newname.error);
          }
          if HasKey(entries, m) {
            var incumbent := Item(Get(entries, m), "Condition");
            if incumbent.Err? {
              return Some(incumbent.error);
            }
            var movedname := Qualified(m, incumbent.value, num);
            entries := Set(entries, movedname, Get(entries, m));
            entries := Remove(entries, m);
          }
          entries := Set(entries, newname.value, e);
        } else {
          entries := Set(entries, m, e);
        }
      }
      err := None;
    }

    /** `generate_ids`: the ids are stored in `self.ids` and returned; an exception leaves
        `self.ids` as it was. */
    method GenerateIds() returns (r: Result<ODict<Val, string>>)
      modifies this
      ensures r == Ids(entries)
      ensures r.Ok? ==> ids == Some(r.value)
      ensures r.Err? ==> ids == old(ids)
      ensures entries == old(entries) && source == old(source) && filename == old(filename)
      ensures materialnames == old(materialnames) && sources == old(sources)
    {
      var propertynames, parameternames := [], [];
      var i := 0;
      while i < |entries|
        invariant 0 <= i <= |entries|
        invariant CollectedNames(entries[..i]) == Ok((propertynames, parameternames))
      {
        assert entries[..i + 1][..i] == entries[..i];
        var e := entries[i].1;
        if e.Mat? {
          var names := PropertyNames(e.dict);
          if names.Err? {
            CollectedFails(entries, i + 1);
            return Err(names.error);
          }
          propertynames := propertynames + names.value.0;
          parameternames := parameternames + names.value.1;
        }
        i := i + 1;
      }
      assert entries[..i] == entries;
      var pau := Dedupe(parameternames);
      var pru := Dedupe(propertynames);
      var numbered := Number([], pau, "pa");
      if numbered.Err? {
        return numbered;
      }
      r := Number(numbered.value, pru, "pr");
      if r.Ok? {
        ids := Some(r.value);
      }
    }

    /** The merging loop of `importfile`: each incoming entry in turn, stopping at the first
        error. */
    method MergeEach(incoming: ODict<string, Entry>, num: NumText) returns (err: Option<Error>)
      modifies this
      ensures var out := MergeAll(old(entries), old(materialnames), incoming, num);
        entries == out.entries && err == out.error
      ensures source == old(source) && ids == old(ids) && filename == old(filename)
      ensures materialnames == old(materialnames) && sources == old(sources)
    {
      err := None;
      var i := 0;
      while i < |incoming|
        invariant 0 <= i <= |incoming|
        invariant MergeAll(old(entries), materialnames, incoming[..i], num) == Merged(entries, None)
        invariant materialnames == old(materialnames) && sources == old(sources)
        invariant source == old(source) && ids == old(ids) && filename == old(filename)
        invariant err.None?
      {
        ghost var before := entries;
        MergeNext(old(entries), materialnames, incoming, i, num);
        err := MergeOne(incoming[i].0, incoming[i].1, num);
        ghost var step := MergeStep(before, materialnames, incoming[i].0, incoming[i].1, num);
        if err.Some? {
          assert MergeAll(old(entries), materialnames, incoming[..i + 1], num) == Merged(entries, Some(step.error));
          ErrorEndsMerge(old(entries), materialnames, incoming, i + 1, num);
          return;
        }
        assert MergeAll(old(entries), materialnames, incoming[..i + 1], num) == Merged(entries, None);
        i := i + 1;
      }
      assert incoming[..i] == incoming;
    }

    /** `import_file` once the file has been read: `read` is what the reader returned (or the
        exception it raised). The file name is recorded, the materials are merged in order,
        and then the cached material names (and, when every material has one, the data
        sources) are recomputed. An exception during the merge leaves the changes made so far
        and skips the recomputation. */
    method ImportFile(path: string, read: Result<ODict<string, Entry>>, num: NumText) returns (r: Result<ODict<string, Entry>>)
      modifies this
      ensures source == old(source) && ids == old(ids)
      ensures read.Err? ==> (r == Err(read.error) && entries == old(entries) && filename == old(filename) &&
        materialnames == old(materialnames) && sources == old(sources))
      ensures read.Ok? ==> filename == old(filename) + [path]
      ensures read.Ok? ==> var out := MergeAll(old(entries), old(materialnames), read.value, num);
        entries == out.entries &&
        (out.error.Some? ==> r == Err(out.error.value) && materialnames == old(materialnames) && sources == old(sources)) &&
        (out.error.None? && MaterialField(out.entries, "MaterialName").Err? ==>
           r == Err(KeyError) && materialnames == old(materialnames) && sources == old(sources)) &&
        (out.error.None? && MaterialField(out.entries, "MaterialName").Ok? ==>
           r == read && materialnames == MaterialField(out.entries, "MaterialName").value &&
           sources == (if MaterialField(out.entries, "DataSource").Ok? then Some(MaterialField(out.entries, "DataSource").value)
                       else old(sources)))
    {
      if read.Err? {
        return Err(read.error);
      }
      filename := filename + [path];
      var err := MergeEach(read.value, num);
      if err.Some? {
        return Err(err.value);
      }
      var names := MaterialField(entries, "MaterialName");
      if names.Err? {
        return Err(names.error);
      }
      materialnames := names.value;
      var datasources := MaterialField(entries, "DataSource");
      if datasources.Ok? {
        sources := Some(datasources.value);
      }
      r := read;
    }
  }
}
