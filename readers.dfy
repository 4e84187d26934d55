/** The line-based text importer and the CSV importer of `read.py`, from the text once it
    has been read: the file's lines (`textfile`) or the rows `csv.reader` produced (`csv`).
    Each returns the entries of a new `MaterialData` collection; number parsing (`float`)
    is the parameter `parse`.
 */
module Readers {
  import opened PyValues
  import opened Collection
  import Materials

  // ---------------------------------------------------------------------------------------
  // textfile

  /** The heading of a line that starts a new material. */
  const MaterialNameHeading := "Material Name"

  /** `[line for line in lines if line is not '']`. */
  function NonEmptyLines(lines: seq<string>): (ls: seq<string>)
    ensures |ls| <= |lines|
    ensures forall i :: 0 <= i < |ls| ==> ls[i] != "" && ls[i] in lines
    ensures forall i :: 0 <= i < |lines| && lines[i] != "" ==> lines[i] in ls
  {
    if |lines| == 0 then []
    else
      var last := lines[|lines| - 1];
      var rest := NonEmptyLines(lines[..|lines| - 1]);
      assert forall i :: 0 <= i < |lines| - 1 ==> lines[i] == lines[..|lines| - 1][i];
      rest + (if last == "" then [] else [last])
  }

  /** The filter keeps the order of the lines: filtering two runs of lines one after the
      other gives the two filtered runs one after the other; a single line is kept exactly
      when it is not empty. */
  lemma {:induction false} NonEmptyLinesConcat(a: seq<string>, b: seq<string>)
    ensures NonEmptyLines(a + b) == NonEmptyLines(a) + NonEmptyLines(b)
    ensures forall line :: NonEmptyLines([line]) == if line == "" then [] else [line]
    decreases |b|
  {
    forall line ensures NonEmptyLines([line]) == if line == "" then [] else [line] {
      assert [line][..0] == [];
    }
    if |b| == 0 {
      assert a + b == a;
    } else {
      var c := b[..|b| - 1];
      var last := b[|b| - 1];
      assert (a + b)[..|a + b| - 1] == a + c;
      assert (a + b)[|a + b| - 1] == last;
      NonEmptyLinesConcat(a, c);
    }
  }

  /** `line[0:line.find('=')].strip()`: the text before the first `'='`; without one, the
      line less its last character. */
  function Heading(line: string): string {
    Strip(Slice(line, 0, Find(line, '=')))
  }

  /** `line[line.find('=')+1:].strip()`: the text after the first `'='`. */
  function AfterEquals(line: string): string {
    Strip(SliceFrom(line, Find(line, '=') + 1))
  }

  /** `line[line.find('=')+1:line.find('[')].strip()`: the text offered to `float`. */
  function NumberText(line: string): string {
    Strip(Slice(line, Find(line, '=') + 1, Find(line, '[')))
  }

  /** `line[line.find('[')+1:line.find(']')].strip()`: the units between the brackets. */
  function UnitsText(line: string): string {
    Strip(Slice(line, Find(line, '[') + 1, Find(line, ']')))
  }

  /** `{'Values': value, 'Units': units}`. */
  function Reading(value: real, units: string): ODict<string, Val> {
    [("Values", Num(value)), ("Units", Str(units))]
  }

  /** What a variable line stores: the number and its units with a nested copy under the
      variable's own name (a variable called `Values` or `Units` has that key replaced by the
      nested record), or the stripped text after `'='` when the number does not parse. */
  function LineValue(line: string, variable: string, parse: NumParser): (v: Val)
    ensures parse(NumberText(line)).None? ==> v == Str(AfterEquals(line))
    ensures parse(NumberText(line)).Some? ==>
      var number := parse(NumberText(line)).value;
      v.Dict? && Index(v, variable) == Ok(Dict(Reading(number, UnitsText(line)))) &&
      (variable != "Values" ==> Index(v, "Values") == Ok(Num(number))) &&
      (variable != "Units" ==> Index(v, "Units") == Ok(Str(UnitsText(line))))
  {
    match parse(NumberText(line))
    case Some(value) =>
      var reading := Reading(value, UnitsText(line));
      assert reading[0].0 == "Values" && reading[1].0 == "Units";
      assert Get(reading, "Values") == Num(value);
      assert Get(reading, "Units") == Str(UnitsText(line));
      Dict(Set(reading, variable, Dict(reading)))
    case None => Str(AfterEquals(line))
  }

  /** The importer's state: the collection so far and the material lines attach to. */
  datatype TextState = TextState(entries: ODict<string, Entry>, current: string)

  /** One pass of the loop over the lines. A `Material Name` line stores a fresh material
      and makes it current; any other line stores its value in the current material, which
      raises `KeyError` when no material of that name is stored. */
  function LineStep(st: TextState, line: string, parse: NumParser): (r: Result<TextState>)
    ensures Heading(line) == MaterialNameHeading ==>
      r.Ok? && r.value.current == AfterEquals(line) && HasKey(r.value.entries, AfterEquals(line)) &&
      Get(r.value.entries, AfterEquals(line)) == NewMaterial(Str(AfterEquals(line)))
    ensures Heading(line) != MaterialNameHeading && !HasKey(st.entries, st.current) ==> r == Err(KeyError)
    ensures Heading(line) != MaterialNameHeading && HasKey(st.entries, st.current) && Get(st.entries, st.current).Mat? ==>
      r.Ok? && r.value.current == st.current && Keys(r.value.entries) == Keys(st.entries) &&
      HasKey(r.value.entries, st.current) && Get(r.value.entries, st.current).Mat? &&
      Get(r.value.entries, st.current).name == Get(st.entries, st.current).name &&
      HasKey(Get(r.value.entries, st.current).dict, Heading(line)) &&
      Get(Get(r.value.entries, st.current).dict, Heading(line)) == LineValue(line, Heading(line), parse)
  {
    var variable := Heading(line);
    if variable == MaterialNameHeading then
      var name := AfterEquals(line);
      Ok(TextState(Set(st.entries, name, NewMaterial(Str(name))), name))
    else if !HasKey(st.entries, st.current) then Err(KeyError)
    else
      match Get(st.entries, st.current)
      case Mat(name, d) =>
        Ok(TextState(Set(st.entries, st.current, Mat(name, Set(d, variable, LineValue(line, variable, parse)))), st.current))
      // Only materials are ever stored (`TextAllMaterials`), so this case does not arise.
      case Other(_) => Err(TypeError)
  }

  function TextStep(parse: NumParser): (TextState, string) -> Result<TextState> {
    (st: TextState, line: string) => LineStep(st, line, parse)
  }

  /** The state before the loop: the first line's material when it is a `Material Name`
      line, otherwise an empty collection. */
  function TextStart(first: string): (st: TextState)
    ensures st.current == AfterEquals(first)
    ensures AllMaterials(st.entries) && UniqueKeys(st.entries)
  {
    var name := AfterEquals(first);
    var entries: ODict<string, Entry> := [(name, NewMaterial(Str(name)))];
    assert AllMaterials(entries) && UniqueKeys(entries);
    TextState(if Heading(first) == MaterialNameHeading then entries else [], name)
  }

  /** `textfile`: the collection read from the lines of a text file; `lines[0]` raises
      `IndexError` when every line is empty. */
  function TextData(lines: seq<string>, parse: NumParser): (r: Result<ODict<string, Entry>>)
    ensures |NonEmptyLines(lines)| == 0 ==> r == Err(IndexError)
  {
    var ls := NonEmptyLines(lines);
    if |ls| == 0 then Err(IndexError)
    else
      var last :- Fold(TextStart(ls[0]), ls, TextStep(parse));
      Ok(last.entries)
  }

  /** `textfile`, with the file's lines given. */
  method TextFile(lines: seq<string>, parse: NumParser) returns (r: Result<ODict<string, Entry>>)
    ensures r == TextData(lines, parse)
  {
    var ls := NonEmptyLines(lines);
    if |ls| == 0 {
      return Err(IndexError);
    }
    var start := FirstLine(ls[0]);
    var last := ReadLines(start.entries, start.current, ls, parse);
    if last.Err? {
      return Err(last.error);
    }
    r := Ok(last.value.entries);
  }

  /** The statements before the loop. */
  method FirstLine(first: string) returns (st: TextState)
    ensures st == TextStart(first)
  {
    var firstheading := Heading(first);
    var materialname := AfterEquals(first);
    var materialdata: ODict<string, Entry> := [];
    if firstheading == MaterialNameHeading {
      materialdata := [(materialname, NewMaterial(Str(materialname)))];
    }
    st := TextState(materialdata, materialname);
  }

  /** The loop over the lines. */
  method ReadLines(entries: ODict<string, Entry>, current: string, ls: seq<string>, parse: NumParser)
    returns (r: Result<TextState>)
    ensures r == Fold(TextState(entries, current), ls, TextStep(parse))
  {
    var materialdata, materialname := entries, current;
    var i := 0;
    while i < |ls|
      invariant 0 <= i <= |ls|
      invariant Fold(TextState(entries, current), ls[..i], TextStep(parse)) == Ok(TextState(materialdata, materialname))
    {
      FoldNext(TextState(entries, current), ls, TextStep(parse), i);
      var next := ReadLine(materialdata, materialname, ls[i], parse);
      if next.Err? {
        FoldStops(TextState(entries, current), ls, TextStep(parse), i + 1);
        return Err(next.error);
      }
      materialdata, materialname := next.value.entries, next.value.current;
      i := i + 1;
    }
    assert ls[..i] == ls;
    r := Ok(TextState(materialdata, materialname));
  }

  /** The body of the loop over the lines, on the collection and the current material
      name. */
  method ReadLine(materialdata: ODict<string, Entry>, materialname: string, line: string, parse: NumParser)
    returns (r: Result<TextState>)
    ensures r == LineStep(TextState(materialdata, materialname), line, parse)
  {
    var variable := Heading(line);
    if variable != MaterialNameHeading {
      if !HasKey(materialdata, materialname) {
        return Err(KeyError);
      }
      var material := Get(materialdata, materialname);
      if material.Other? {
        return Err(TypeError);
      }
      var value := LineValue(line, variable, parse);
      r := Ok(TextState(Set(materialdata, materialname, Mat(material.name, Set(material.dict, variable, value))), materialname));
    } else {
      var name := AfterEquals(line);
      r := Ok(TextState(Set(materialdata, name, NewMaterial(Str(name))), name));
    }
  }

  /** When the first line is not `Material Name = ...`, the first line is read as a
      variable of a material that was never stored, and the import fails with `KeyError`. */
  lemma TextNeedsHeading(lines: seq<string>, parse: NumParser)
    requires |NonEmptyLines(lines)| > 0 && Heading(NonEmptyLines(lines)[0]) != MaterialNameHeading
    ensures TextData(lines, parse) == Err(KeyError)
  {
    var ls := NonEmptyLines(lines);
    var st := TextStart(ls[0]);
    assert st.entries == [];
    FoldNext(st, ls, TextStep(parse), 0);
    assert ls[..0] == [];
    assert LineStep(st, ls[0], parse) == Err(KeyError);
    FoldStops(st, ls, TextStep(parse), 1);
  }

  /** A `Material Name = Y` line stores a fresh material under `Y`, replacing any earlier
      one, makes it the material later lines attach to, and leaves every other material
      alone. */
  lemma MaterialLineStarts(st: TextState, line: string, parse: NumParser)
    requires Heading(line) == MaterialNameHeading
    ensures var r := LineStep(st, line, parse);
      r.Ok? && r.value.current == AfterEquals(line) &&
      Stores(st.entries, r.value.entries, AfterEquals(line), true, NewMaterial(Str(AfterEquals(line))))
  {
    var name := AfterEquals(line);
    assert LineStep(st, line, parse) == Ok(TextState(Set(st.entries, name, NewMaterial(Str(name))), name));
    SetStores(st.entries, name, NewMaterial(Str(name)));
  }

  /** Any other line stores its value under its heading in the current material, which
      keeps its name and its other entries; the other materials are untouched. */
  lemma VariableLineStored(st: TextState, line: string, parse: NumParser)
    requires Heading(line) != MaterialNameHeading
    requires HasKey(st.entries, st.current) && Get(st.entries, st.current).Mat?
    ensures var r := LineStep(st, line, parse);
      var before := Get(st.entries, st.current);
      r.Ok? && r.value.current == st.current &&
      Stores(st.entries, r.value.entries, st.current, false, before) &&
      Get(r.value.entries, st.current).Mat? && Get(r.value.entries, st.current).name == before.name &&
      Stores(before.dict, Get(r.value.entries, st.current).dict, Heading(line), true, LineValue(line, Heading(line), parse))
  {
    var before := Get(st.entries, st.current);
    var after := Mat(before.name, Set(before.dict, Heading(line), LineValue(line, Heading(line), parse)));
    assert LineStep(st, line, parse) == Ok(TextState(Set(st.entries, st.current, after), st.current));
    SetStores(st.entries, st.current, after);
    SetStores(before.dict, Heading(line), LineValue(line, Heading(line), parse));
  }

  /** `name = number [units]`: the number is the text between `'='` and `'['`. */
  lemma NumberBeforeBracket(h: string, t: string, u: string)
    requires '=' !in h && '[' !in h && '[' !in t
    ensures NumberText(h + "=" + t + "[" + u) == Strip(t)
  {
    var line := h + "=" + t + "[" + u;
    BracketMarks(h, t, u);
    Between(h, '=', t, '[', u);
    var lo, hi := Find(line, '=') + 1, Find(line, '[');
    assert |line| == hi + 1 + |u|;
    assert SliceBound(lo, |line|) == lo && SliceBound(hi, |line|) == hi;
    assert Slice(line, lo, hi) == t;
  }

  /** The text between two marks. */
  lemma Between(h: string, x: char, t: string, y: char, u: string)
    ensures (h + [x] + t + [y] + u)[|h| + 1..|h| + 1 + |t|] == t
  {
    var line := h + [x] + t + [y] + u;
    assert line == (h + [x]) + t + ([y] + u);
  }

  lemma BracketMarks(h: string, t: string, u: string)
    requires '=' !in h && '[' !in h && '[' !in t
    ensures Find(h + "=" + t + "[" + u, '=') == |h|
    ensures Find(h + "=" + t + "[" + u, '[') == |h| + 1 + |t|
  {
    var line := h + "=" + t + "[" + u;
    assert line == h + ['='] + (t + "[" + u);
    FindFirst(h, '=', t + "[" + u);
    assert line == (h + "=" + t) + ['['] + u;
    FindFirst(h + "=" + t, '[', u);
  }

  /** Without a `'['`, `find` gives -1 and the slice ends one before the end: the last
      character of the number is dropped before parsing. */
  lemma NumberWithoutBracket(h: string, t: string)
    requires '=' !in h && '[' !in h && '[' !in t && |t| > 0
    ensures NumberText(h + "=" + t) == Strip(t[..|t| - 1])
  {
    var line := h + "=" + t;
    assert line == h + ['='] + t;
    FindFirst(h, '=', t);
    assert '[' !in line;
    assert Find(line, '[') == -1;
    assert line[|h| + 1..|line| - 1] == t[..|t| - 1];
    assert Slice(line, Find(line, '=') + 1, Find(line, '[')) == t[..|t| - 1];
  }

  /** Every entry of the collection is a `Material`. */
  predicate AllMaterials(entries: ODict<string, Entry>) {
    forall i :: 0 <= i < |entries| ==> entries[i].1.Mat?
  }

  lemma SetMaterial(entries: ODict<string, Entry>, k: string, e: Entry)
    requires AllMaterials(entries) && UniqueKeys(entries) && e.Mat?
    ensures AllMaterials(Set(entries, k, e))
  {
    var r := Set(entries, k, e);
    forall i | 0 <= i < |r| ensures r[i].1.Mat? {
      var key := r[i].0;
      GetAt(r, i, key);
      if key != k {
        assert HasKey(entries, key);
        assert Get(entries, key) == entries[IndexOf(entries, key)].1;
      }
    }
  }

  /** The text importer stores only materials; the `TypeError` branch of `LineStep` is
      never reached. */
  lemma TextAllMaterials(lines: seq<string>, parse: NumParser)
    requires TextData(lines, parse).Ok?
    ensures AllMaterials(TextData(lines, parse).value) && UniqueKeys(TextData(lines, parse).value)
  {
    var ls := NonEmptyLines(lines);
    var st := TextStart(ls[0]);
    var inv := (s: TextState) => AllMaterials(s.entries) && UniqueKeys(s.entries);
    forall a, x, b | inv(a) && TextStep(parse)(a, x) == Ok(b) ensures inv(b) {
      StepKeepsMaterials(a, x, parse);
    }
    var last := Fold(st, ls, TextStep(parse)).value;
    FoldInvariant(st, ls, TextStep(parse), inv, last);
  }

  lemma StepKeepsMaterials(st: TextState, line: string, parse: NumParser)
    requires AllMaterials(st.entries) && UniqueKeys(st.entries) && LineStep(st, line, parse).Ok?
    ensures AllMaterials(LineStep(st, line, parse).value.entries) && UniqueKeys(LineStep(st, line, parse).value.entries)
  {
    var variable := Heading(line);
    if variable == MaterialNameHeading {
      SetMaterial(st.entries, AfterEquals(line), NewMaterial(Str(AfterEquals(line))));
    } else {
      var m := Get(st.entries, st.current);
      SetMaterial(st.entries, st.current, Mat(m.name, Set(m.dict, variable, LineValue(line, variable, parse))));
    }
  }

  // ---------------------------------------------------------------------------------------
  // csv

  /** Every row has a first cell. The importer first collects the rows whose first cell
      mentions `Name`, reading `row[0]` of every row, so an empty row raises `IndexError`
      before anything else. */
  predicate RowsNonEmpty(rows: seq<seq<string>>) {
    forall i :: 0 <= i < |rows| ==> |rows[i]| > 0
  }

  /** `float(row[n].strip())`, or `None` when the cell is missing (`IndexError`) or does not
      parse; either exception is caught. */
  function Cell(row: seq<string>, n: nat, parse: NumParser): Option<real> {
    if n < |row| then parse(Strip(row[n])) else None
  }

  /** A property named `Units` or `Values` shares its name with a key of its own record, so
      `material[name][name]["Values"]` raises after the append to `material[name]["Values"]`
      has happened: the number is kept but its temperature is masked. */
  predicate Shadowed(name: string) {
    name == "Units" || name == "Values"
  }

  /** `[row[0] for row in allvalues]`: the temperature texts, copied into each column. */
  function TemperatureTexts(rows: seq<seq<string>>): (ts: seq<Val>)
    requires RowsNonEmpty(rows)
    ensures |ts| == |rows| && forall i :: 0 <= i < |rows| ==> ts[i] == Str(rows[i][0])
  {
    if |rows| == 0 then [] else [Str(rows[0][0])] + TemperatureTexts(rows[1..])
  }

  /** A row's entry in a column's temperature list after the masking loop: its temperature
      text when the number was taken without an exception, `None` otherwise. */
  function MaskOf(row: seq<string>, n: nat, parse: NumParser, shadowed: bool): Val
    requires |row| > 0
  {
    if Cell(row, n, parse).Some? && !shadowed then Str(row[0]) else PyNone
  }

  /** A column's temperature list after the masking loop. */
  function Masked(rows: seq<seq<string>>, n: nat, parse: NumParser, shadowed: bool): (m: seq<Val>)
    requires RowsNonEmpty(rows)
    ensures |m| == |rows|
  {
    if |rows| == 0 then [] else Masked(rows[..|rows| - 1], n, parse, shadowed) + [MaskOf(rows[|rows| - 1], n, parse, shadowed)]
  }

  /** Row `i`'s entry in the masked list is its mask; in a shadowed column every entry is
      `None`. */
  lemma {:induction false} MaskedAt(rows: seq<seq<string>>, n: nat, parse: NumParser, shadowed: bool, i: nat)
    requires RowsNonEmpty(rows) && i < |rows|
    ensures Masked(rows, n, parse, shadowed)[i] == MaskOf(rows[i], n, parse, shadowed)
    ensures shadowed ==> Masked(rows, n, parse, shadowed)[i] == PyNone
  {
    var k := |rows| - 1;
    if i < k {
      MaskedAt(rows[..k], n, parse, shadowed, i);
    }
  }

  /** The numbers appended to a column's `Values`, in row order. */
  function ColumnValues(rows: seq<seq<string>>, n: nat, parse: NumParser): (vs: seq<real>)
    ensures |vs| <= |rows|
  {
    if |rows| == 0 then []
    else
      ColumnValues(rows[..|rows| - 1], n, parse) +
      match Cell(rows[|rows| - 1], n, parse)
      case Some(v) => [v]
      case None => []
  }

  /** `[x for x in xs if x is not None]`. */
  function NotNone(xs: seq<Val>): (ys: seq<Val>)
    ensures |ys| <= |xs|
    ensures forall i :: 0 <= i < |ys| ==> !ys[i].PyNone?
  {
    if |xs| == 0 then []
    else NotNone(xs[..|xs| - 1]) + if xs[|xs| - 1].PyNone? then [] else [xs[|xs| - 1]]
  }

  /** The readings of column `n`, as a reference: the rows whose cell holds a number, each
      as its temperature text and that number. */
  function Readings(rows: seq<seq<string>>, n: nat, parse: NumParser): seq<(string, real)>
    requires RowsNonEmpty(rows)
  {
    if |rows| == 0 then []
    else
      var k := |rows| - 1;
      Readings(rows[..k], n, parse) +
      match Cell(rows[k], n, parse)
      case Some(v) => [(rows[k][0], v)]
      case None => []
  }

  /** The temperature texts of some readings. */
  function Temperatures(rs: seq<(string, real)>): (ts: seq<Val>)
    ensures |ts| == |rs|
  {
    if |rs| == 0 then [] else Temperatures(rs[..|rs| - 1]) + [Str(rs[|rs| - 1].0)]
  }

  /** The numbers of some readings. */
  function Numbers(rs: seq<(string, real)>): (xs: seq<real>)
    ensures |xs| == |rs|
  {
    if |rs| == 0 then [] else Numbers(rs[..|rs| - 1]) + [rs[|rs| - 1].1]
  }

  /** Masking and then dropping the `None`s keeps a column's temperatures in step with its
      values: both list exactly the rows whose cell holds a number, in row order. A shadowed
      column keeps no temperature at all. */
  lemma ColumnAligned(rows: seq<seq<string>>, n: nat, parse: NumParser)
    requires RowsNonEmpty(rows)
    ensures NotNone(Masked(rows, n, parse, false)) == Temperatures(Readings(rows, n, parse))
    ensures ColumnValues(rows, n, parse) == Numbers(Readings(rows, n, parse))
    ensures NotNone(Masked(rows, n, parse, true)) == []
    ensures |NotNone(Masked(rows, n, parse, false))| == |ColumnValues(rows, n, parse)|
  {
    TemperaturesKept(rows, n, parse);
    ValuesKept(rows, n, parse);
    NothingKept(rows, n, parse);
  }

  lemma NotNoneSnoc(xs: seq<Val>, x: Val)
    ensures NotNone(xs + [x]) == NotNone(xs) + if x.PyNone? then [] else [x]
  {
    assert (xs + [x])[..|xs|] == xs;
  }

  lemma {:induction false} TemperaturesKept(rows: seq<seq<string>>, n: nat, parse: NumParser)
    requires RowsNonEmpty(rows)
    ensures NotNone(Masked(rows, n, parse, false)) == Temperatures(Readings(rows, n, parse))
    decreases |rows|
  {
    if |rows| > 0 {
      var k := |rows| - 1;
      var init := rows[..k];
      TemperaturesKept(init, n, parse);
      var rs := Readings(init, n, parse);
      NotNoneSnoc(Masked(init, n, parse, false), MaskOf(rows[k], n, parse, false));
      match Cell(rows[k], n, parse)
      case Some(v) =>
        var rs' := rs + [(rows[k][0], v)];
        assert Readings(rows, n, parse) == rs';
        assert rs'[..|rs|] == rs;
      case None =>
        assert Readings(rows, n, parse) == rs;
    }
  }

  lemma {:induction false} ValuesKept(rows: seq<seq<string>>, n: nat, parse: NumParser)
    requires RowsNonEmpty(rows)
    ensures ColumnValues(rows, n, parse) == Numbers(Readings(rows, n, parse))
    decreases |rows|
  {
    if |rows| > 0 {
      var k := |rows| - 1;
      var init := rows[..k];
      ValuesKept(init, n, parse);
      var rs := Readings(init, n, parse);
      match Cell(rows[k], n, parse)
      case Some(v) =>
        var rs' := rs + [(rows[k][0], v)];
        assert Readings(rows, n, parse) == rs';
        assert rs'[..|rs|] == rs;
      case None =>
        assert Readings(rows, n, parse) == rs;
    }
  }

  lemma {:induction false} NothingKept(rows: seq<seq<string>>, n: nat, parse: NumParser)
    requires RowsNonEmpty(rows)
    ensures NotNone(Masked(rows, n, parse, true)) == []
    decreases |rows|
  {
    if |rows| > 0 {
      var k := |rows| - 1;
      NothingKept(rows[..k], n, parse);
      NotNoneSnoc(Masked(rows[..k], n, parse, true), MaskOf(rows[k], n, parse, true));
    }
  }

  /** The dictionary display `csv` writes for a column, as key-value pairs in order:
      `{name: {"Units": '', "Values": [...]}, "Temperature": {"Units": '', "Values": [...]},
      "Units": '', "Values": [...]}`, whose two number lists receive the same appends. */
  function ColumnDisplay(name: string, values: seq<real>, temperatures: seq<Val>): ODict<string, Val> {
    var numbers := List(Materials.Nums(values));
    [(name, Dict([("Units", Str("")), ("Values", numbers)])),
     ("Temperature", Dict([("Units", Str("")), ("Values", List(temperatures))])),
     ("Units", Str("")),
     ("Values", numbers)]
  }

  /** The record `csv` stores for a column, the display evaluated (`ColumnRecordIsDisplay`):
      a name equal to a later key of the display keeps its position and takes that key's
      value. */
  function ColumnRecord(name: string, values: seq<real>, temperatures: seq<Val>): (r: Val)
    ensures r.Dict? && UniqueKeys(r.entries)
  {
    var numbers := List(Materials.Nums(values));
    var temperature := Dict([("Units", Str("")), ("Values", List(temperatures))]);
    assert "Temperature" != "Units" && "Temperature" != "Values" && "Units" != "Values" by {
      assert |"Temperature"| == 11 && |"Units"| == 5 && |"Values"| == 6;
    }
    if name == "Temperature" then Dict([("Temperature", temperature), ("Units", Str("")), ("Values", numbers)])
    else if name == "Units" then Dict([("Units", Str("")), ("Temperature", temperature), ("Values", numbers)])
    else if name == "Values" then Dict([("Values", numbers), ("Temperature", temperature), ("Units", Str(""))])
    else Dict([(name, Dict([("Units", Str("")), ("Values", numbers)])), ("Temperature", temperature),
               ("Units", Str("")), ("Values", numbers)])
  }

  /** The record holds the column's name, `Temperature`, `Units` and `Values` and nothing
      else: the numbers under `Values`, the empty text under `Units`, the temperatures under
      `Temperature`, and for an ordinary name its own `Units`/`Values` pair. */
  lemma ColumnRecordFields(name: string, values: seq<real>, temperatures: seq<Val>)
    ensures var r := ColumnRecord(name, values, temperatures);
      (forall k :: HasKey(r.entries, k) <==> k == name || k == "Temperature" || k == "Units" || k == "Values") &&
      Index(r, "Values") == Ok(List(Materials.Nums(values))) &&
      Index(r, "Units") == Ok(Str("")) &&
      Index(r, "Temperature") == Ok(Dict([("Units", Str("")), ("Values", List(temperatures))])) &&
      (name != "Temperature" && name != "Units" && name != "Values" ==>
         Index(r, name) == Ok(Dict([("Units", Str("")), ("Values", List(Materials.Nums(values)))])))
  {
    var r := ColumnRecord(name, values, temperatures);
    assert "Temperature" != "Units" && "Temperature" != "Values" && "Units" != "Values" by {
      assert |"Temperature"| == 11 && |"Units"| == 5 && |"Values"| == 6;
    }
    forall k | HasKey(r.entries, k)
      ensures k == name || k == "Temperature" || k == "Units" || k == "Values"
    {
      var i :| 0 <= i < |r.entries| && r.entries[i].0 == k;
    }
    assert HasKey(r.entries, name) && HasKey(r.entries, "Temperature") by {
      if name == "Temperature" {
        assert r.entries[0].0 == "Temperature";
      } else if name == "Units" {
        assert r.entries[0].0 == "Units" && r.entries[1].0 == "Temperature";
      } else if name == "Values" {
        assert r.entries[0].0 == "Values" && r.entries[1].0 == "Temperature";
      } else {
        assert r.entries[0].0 == name && r.entries[1].0 == "Temperature";
      }
    }
    ColumnRecordIsDisplay(name, values, temperatures);
  }

  /** The record is the display evaluated as Python evaluates a dictionary display. */
  lemma ColumnRecordIsDisplay(name: string, values: seq<real>, temperatures: seq<Val>)
    ensures ColumnRecord(name, values, temperatures) == Dict(FromPairs(ColumnDisplay(name, values, temperatures)))
  {
    var numbers := List(Materials.Nums(values));
    var own := Dict([("Units", Str("")), ("Values", numbers)]);
    var temperature := Dict([("Units", Str("")), ("Values", List(temperatures))]);
    assert "Temperature" != "Units" && "Temperature" != "Values" && "Units" != "Values" by {
      assert |"Temperature"| == 11 && |"Units"| == 5 && |"Values"| == 6;
    }
    if name == "Temperature" {
      FirstKeyIsSecond("Temperature", "Units", "Values", own, temperature, Str(""), numbers);
    } else if name == "Units" {
      FirstKeyIsThird("Temperature", "Units", "Values", own, temperature, Str(""), numbers);
    } else if name == "Values" {
      FirstKeyIsFourth("Temperature", "Units", "Values", own, temperature, Str(""), numbers);
    } else {
      var pairs := ColumnDisplay(name, values, temperatures);
      assert UniqueKeys(pairs);
      Materials.FromDistinctPairs(pairs);
    }
  }

  /** The first pair of a display. */
  lemma FromPairsFirst<K(!new), V>(pairs: seq<(K, V)>)
    requires |pairs| > 0
    ensures FromPairs(pairs[..1]) == [pairs[0]]
  {
    FromPairsNext(pairs, 0);
    assert pairs[..0] == [];
  }

  /** A four-pair display evaluated: its pairs set one after the other. */
  lemma FromFourPairs<K(!new), V>(p0: (K, V), p1: (K, V), p2: (K, V), p3: (K, V))
    ensures FromPairs([p0, p1, p2, p3]) == Set(Set(Set([p0], p1.0, p1.1), p2.0, p2.1), p3.0, p3.1)
  {
    var pairs := [p0, p1, p2, p3];
    FromPairsFirst(pairs);
    FromPairsNext(pairs, 1);
    FromPairsNext(pairs, 2);
    FromPairsNext(pairs, 3);
    assert pairs[..4] == pairs;
  }

  /** A four-pair display whose first key repeats the second: one pair, at the front,
      with the later value. */
  lemma FirstKeyIsSecond<K(!new), V>(b: K, c: K, d: K, w: V, x: V, y: V, z: V)
    requires b != c && b != d && c != d
    ensures FromPairs([(b, w), (b, x), (c, y), (d, z)]) == [(b, x), (c, y), (d, z)]
  {
    FromFourPairs((b, w), (b, x), (c, y), (d, z));
    SetAt([(b, w)], 0, b, x);
    SetNew([(b, x)], c, y);
    SetNew([(b, x), (c, y)], d, z);
  }

  /** A four-pair display whose first key repeats the third. */
  lemma FirstKeyIsThird<K(!new), V>(b: K, c: K, d: K, w: V, x: V, y: V, z: V)
    requires b != c && b != d && c != d
    ensures FromPairs([(c, w), (b, x), (c, y), (d, z)]) == [(c, y), (b, x), (d, z)]
  {
    FromFourPairs((c, w), (b, x), (c, y), (d, z));
    SetNew([(c, w)], b, x);
    SetAt([(c, w), (b, x)], 0, c, y);
    SetNew([(c, y), (b, x)], d, z);
  }

  /** A four-pair display whose first key repeats the fourth. */
  lemma FirstKeyIsFourth<K(!new), V>(b: K, c: K, d: K, w: V, x: V, y: V, z: V)
    requires b != c && b != d && c != d
    ensures FromPairs([(d, w), (b, x), (c, y), (d, z)]) == [(d, z), (b, x), (c, y)]
  {
    FromFourPairs((d, w), (b, x), (c, y), (d, z));
    SetNew([(d, w)], b, x);
    SetNew([(d, w), (b, x)], c, y);
    SetAt([(d, w), (b, x), (c, y)], 0, d, z);
  }

  /** The dictionary of the first `k + 1` pairs: the pair `k` set into that of the first `k`. */
  lemma FromPairsNext<K(!new), V>(pairs: seq<(K, V)>, k: nat)
    requires k < |pairs|
    ensures FromPairs(pairs[..k + 1]) == Set(FromPairs(pairs[..k]), pairs[k].0, pairs[k].1)
  {
    assert pairs[..k + 1][..k] == pairs[..k];
  }

  /** Setting a key held at position `i` replaces that pair in place. */
  lemma SetAt<K(!new), V>(d: ODict<K, V>, i: nat, k: K, v: V)
    requires i < |d| && d[i].0 == k && forall j :: 0 <= j < i ==> d[j].0 != k
    ensures Set(d, k, v) == d[i := (k, v)]
  {
    GetAt(d, i, k);
  }

  /** Setting a new key appends it. */
  lemma SetNew<K(!new), V>(d: ODict<K, V>, k: K, v: V)
    requires !HasKey(d, k)
    ensures Set(d, k, v) == d + [(k, v)]
  {
  }

  /** The record for column `n` under `name`. */
  function Column(name: string, rows: seq<seq<string>>, n: nat, parse: NumParser): Val
    requires RowsNonEmpty(rows)
  {
    ColumnRecord(name, ColumnValues(rows, n, parse), NotNone(Masked(rows, n, parse, Shadowed(name))))
  }

  /** An ordinary column's record holds its readings: the numbers under `Values` and under
      the property's own name, and their temperatures, equally many and in the same order,
      under `Temperature`. */
  lemma ColumnStored(name: string, rows: seq<seq<string>>, n: nat, parse: NumParser)
    requires RowsNonEmpty(rows) && !Shadowed(name) && name != "Temperature"
    ensures var p := Column(name, rows, n, parse);
      var rs := Readings(rows, n, parse);
      var numbers := List(Materials.Nums(Numbers(rs)));
      Index(p, "Values") == Ok(numbers) &&
      Index(p, name) == Ok(Dict([("Units", Str("")), ("Values", numbers)])) &&
      Index(p, "Temperature") == Ok(Dict([("Units", Str("")), ("Values", List(Temperatures(rs)))])) &&
      |Temperatures(rs)| == |Numbers(rs)|
  {
    ColumnAligned(rows, n, parse);
    var rs := Readings(rows, n, parse);
    var numbers := List(Materials.Nums(Numbers(rs)));
    var temperature := Dict([("Units", Str("")), ("Values", List(Temperatures(rs)))]);
    var entries := [(name, Dict([("Units", Str("")), ("Values", numbers)])), ("Temperature", temperature),
                    ("Units", Str("")), ("Values", numbers)];
    assert Column(name, rows, n, parse) == Dict(entries);
    GetAt(entries, 0, name);
    GetAt(entries, 1, "Temperature");
    GetAt(entries, 3, "Values");
  }

  /** A column named `Units` or `Values` keeps every number but none of its temperatures. */
  lemma ShadowedColumn(name: string, rows: seq<seq<string>>, n: nat, parse: NumParser)
    requires RowsNonEmpty(rows) && Shadowed(name)
    ensures var p := Column(name, rows, n, parse);
      Index(p, "Values") == Ok(List(Materials.Nums(Numbers(Readings(rows, n, parse))))) &&
      Index(p, "Temperature") == Ok(Dict([("Units", Str("")), ("Values", List([]))]))
  {
    ColumnAligned(rows, n, parse);
    var numbers := List(Materials.Nums(ColumnValues(rows, n, parse)));
    var temperature := Dict([("Units", Str("")), ("Values", List([]))]);
    assert "Temperature" != "Units" && "Temperature" != "Values" && "Units" != "Values" by {
      assert |"Temperature"| == 11 && |"Units"| == 5 && |"Values"| == 6;
    }
    if name == "Units" {
      var entries := [("Units", Str("")), ("Temperature", temperature), ("Values", numbers)];
      assert Column(name, rows, n, parse) == Dict(entries);
      GetAt(entries, 1, "Temperature");
      GetAt(entries, 2, "Values");
    } else {
      var entries := [("Values", numbers), ("Temperature", temperature), ("Units", Str(""))];
      assert Column(name, rows, n, parse) == Dict(entries);
      GetAt(entries, 0, "Values");
      GetAt(entries, 1, "Temperature");
    }
  }

  /** The entries once the header cells before `k` are processed, given each column's
      record: the record of each header other than `''` and `Temperature` is stored under
      it, a later column of the same name replacing an earlier one in place. */
  function Headed(base: ODict<string, Val>, names: seq<string>, records: seq<Val>, k: nat): (d: ODict<string, Val>)
    requires k <= |names| == |records|
    ensures UniqueKeys(base) ==> UniqueKeys(d)
  {
    if k == 0 then base
    else
      var d := Headed(base, names, records, k - 1);
      if names[k - 1] == "" || names[k - 1] == "Temperature" then d else Set(d, names[k - 1], records[k - 1])
  }

  /** The record of every column, whether or not it is stored. */
  function ColumnsOf(names: seq<string>, rows: seq<seq<string>>, parse: NumParser, k: nat): (records: seq<Val>)
    requires k <= |names| && RowsNonEmpty(rows)
    ensures |records| == k
  {
    if k == 0 then [] else ColumnsOf(names, rows, parse, k - 1) + [Column(names[k - 1], rows, k - 1, parse)]
  }

  /** Record `j` is the record of column `j`. */
  lemma {:induction false} ColumnsOfAt(names: seq<string>, rows: seq<seq<string>>, parse: NumParser, k: nat, j: nat)
    requires j < k <= |names| && RowsNonEmpty(rows)
    ensures ColumnsOf(names, rows, parse, k)[j] == Column(names[j], rows, j, parse)
  {
    var init := ColumnsOf(names, rows, parse, k - 1);
    assert ColumnsOf(names, rows, parse, k) == init + [Column(names[k - 1], rows, k - 1, parse)];
    if j < k - 1 {
      ColumnsOfAt(names, rows, parse, k - 1, j);
      assert init[j] == Column(names[j], rows, j, parse);
    }
  }

  /** The material `csv` builds: the fields of `Material()` followed by the columns. */
  function CsvMaterial(names: seq<string>, rows: seq<seq<string>>, parse: NumParser): (r: ODict<string, Val>)
    requires RowsNonEmpty(rows)
    ensures HasKey(r, "MaterialName") && HasKey(r, "Condition") && HasKey(r, "DataSource") && HasKey(r, "Description")
    ensures forall i :: 0 <= i < |names| && names[i] != "" && names[i] != "Temperature" ==> HasKey(r, names[i])
    ensures forall key :: HasKey(r, key) ==>
      key in ["MaterialName", "Condition", "DataSource", "Description"] || key in names
  {
    var base := Materials.Fields(PyNone);
    var records := ColumnsOf(names, rows, parse, |names|);
    FieldsPresent();
    HeadedAll(base, names, records, |names|);
    Headed(base, names, records, |names|)
  }

  /** The four fields of a new material, and no other keys. */
  lemma FieldsPresent()
    ensures var base := Materials.Fields(PyNone);
      HasKey(base, "MaterialName") && HasKey(base, "Condition") && HasKey(base, "DataSource") &&
      HasKey(base, "Description")
    ensures forall key :: HasKey(Materials.Fields(PyNone), key) ==>
      key in ["MaterialName", "Condition", "DataSource", "Description"]
  {
    FieldKeys("MaterialName");
    FieldKeys("Condition");
    FieldKeys("DataSource");
    FieldKeys("Description");
    forall key | HasKey(Materials.Fields(PyNone), key)
      ensures key in ["MaterialName", "Condition", "DataSource", "Description"]
    {
      FieldKeys(key);
    }
  }

  /** The headers before `k` add their own keys and no others, and keep those of `base`. */
  lemma {:induction false} HeadedAll(base: ODict<string, Val>, names: seq<string>, records: seq<Val>, k: nat)
    requires k <= |names| == |records|
    ensures forall key :: HasKey(base, key) ==> HasKey(Headed(base, names, records, k), key)
    ensures forall i :: 0 <= i < k && names[i] != "" && names[i] != "Temperature" ==>
      HasKey(Headed(base, names, records, k), names[i])
    ensures forall key :: HasKey(Headed(base, names, records, k), key) ==> HasKey(base, key) || key in names[..k]
  {
    forall key
      ensures HasKey(Headed(base, names, records, k), key) <==>
        HasKey(base, key) || (key != "" && key != "Temperature" && exists i :: 0 <= i < k && names[i] == key)
    {
      HeadedKeys(base, names, records, k, key);
    }
    forall key | HasKey(Headed(base, names, records, k), key) && !HasKey(base, key)
      ensures key in names[..k]
    {
      var i :| 0 <= i < k && names[i] == key;
      assert names[..k][i] == key;
    }
  }

  /** A key is present after the headers before `k` exactly when it was present before or
      is one of those headers, other than `''` and `Temperature`. */
  lemma {:induction false} HeadedKeys(base: ODict<string, Val>, names: seq<string>, records: seq<Val>, k: nat, key: string)
    requires k <= |names| == |records|
    ensures HasKey(Headed(base, names, records, k), key) <==>
      HasKey(base, key) || (key != "" && key != "Temperature" && exists i :: 0 <= i < k && names[i] == key)
  {
    if k > 0 {
      HeadedKeys(base, names, records, k - 1, key);
      var d := Headed(base, names, records, k - 1);
      var name := names[k - 1];
      if name == "" || name == "Temperature" {
        assert Headed(base, names, records, k) == d;
      } else {
        assert Headed(base, names, records, k) == Set(d, name, records[k - 1]);
      }
      if name == key {
        assert 0 <= k - 1 < k && names[k - 1] == key;
      } else {
        assert (exists i :: 0 <= i < k && names[i] == key) ==> exists i :: 0 <= i < k - 1 && names[i] == key;
      }
    }
  }

  /** Under a header the record of its last column is kept. */
  lemma {:induction false} HeadedLastWins(base: ODict<string, Val>, names: seq<string>, records: seq<Val>, k: nat, j: nat)
    requires j < k <= |names| == |records|
    requires names[j] != "" && names[j] != "Temperature"
    requires forall i :: j < i < k ==> names[i] != names[j]
    ensures HasKey(Headed(base, names, records, k), names[j])
    ensures Get(Headed(base, names, records, k), names[j]) == records[j]
  {
    if j < k - 1 {
      HeadedLastWins(base, names, records, k - 1, j);
      var d := Headed(base, names, records, k - 1);
      if names[k - 1] != "" && names[k - 1] != "Temperature" {
        SetKeeps(d, names[k - 1], records[k - 1], names[j]);
      }
    }
  }

  /** A key that is not a header keeps its earlier value. */
  lemma {:induction false} HeadedKeeps(base: ODict<string, Val>, names: seq<string>, records: seq<Val>, k: nat, key: string)
    requires k <= |names| == |records| && HasKey(base, key)
    requires forall i :: 0 <= i < k ==> names[i] != key
    ensures HasKey(Headed(base, names, records, k), key)
    ensures Get(Headed(base, names, records, k), key) == Get(base, key)
  {
    if k > 0 {
      HeadedKeeps(base, names, records, k - 1, key);
      var d := Headed(base, names, records, k - 1);
      if names[k - 1] != "" && names[k - 1] != "Temperature" {
        SetKeeps(d, names[k - 1], records[k - 1], key);
      }
    }
  }

  /** The material has the fields of `Material()` and one entry per header other than `''`
      and `Temperature`; under a header it holds the record of the header's last column. */
  lemma CsvMaterialShape(names: seq<string>, rows: seq<seq<string>>, parse: NumParser, key: string, j: nat)
    requires RowsNonEmpty(rows)
    ensures HasKey(CsvMaterial(names, rows, parse), key) <==>
      key in ["MaterialName", "Condition", "DataSource", "Description"] ||
      (key != "" && key != "Temperature" && exists i :: 0 <= i < |names| && names[i] == key)
    ensures (j < |names| && names[j] != "" && names[j] != "Temperature" &&
             forall i :: j < i < |names| ==> names[i] != names[j]) ==>
      HasKey(CsvMaterial(names, rows, parse), names[j]) &&
      Get(CsvMaterial(names, rows, parse), names[j]) == Column(names[j], rows, j, parse)
  {
    var base := Materials.Fields(PyNone);
    var records := ColumnsOf(names, rows, parse, |names|);
    HeadedKeys(base, names, records, |names|, key);
    FieldKeys(key);
    if j < |names| && names[j] != "" && names[j] != "Temperature" && forall i :: j < i < |names| ==> names[i] != names[j] {
      HeadedLastWins(base, names, records, |names|, j);
      ColumnsOfAt(names, rows, parse, |names|, j);
    }
  }

  /** The keys of `Material()`. */
  lemma FieldKeys(key: string)
    ensures HasKey(Materials.Fields(PyNone), key) <==> key in ["MaterialName", "Condition", "DataSource", "Description"]
  {
    var d := Materials.Fields(PyNone);
    assert Keys(d) == ["MaterialName", "Condition", "DataSource", "Description"];
    if HasKey(d, key) {
      assert Keys(d)[IndexOf(d, key)] == key;
    }
    if key in Keys(d) {
      var i :| 0 <= i < |d| && Keys(d)[i] == key;
      assert d[i].0 == key;
    }
  }

  /** The `MaterialName` field stays `None` unless a header is `MaterialName`. */
  lemma CsvMaterialName(names: seq<string>, rows: seq<seq<string>>, parse: NumParser)
    requires RowsNonEmpty(rows) && forall i :: 0 <= i < |names| ==> names[i] != "MaterialName"
    ensures HasKey(CsvMaterial(names, rows, parse), "MaterialName")
    ensures Get(CsvMaterial(names, rows, parse), "MaterialName") == PyNone
  {
    var d := Materials.Fields(PyNone);
    assert d[0].0 == "MaterialName";
    GetAt(d, 0, "MaterialName");
    HeadedKeeps(d, names, ColumnsOf(names, rows, parse, |names|), |names|, "MaterialName");
  }

  /** The inner loop for column `n`: a number is appended to the values, and a row without
      one has its temperature masked with `None`; so does every row of a shadowed column,
      after its number has been appended. */
  method FillColumn(rows: seq<seq<string>>, n: nat, parse: NumParser, shadowed: bool) returns (values: seq<real>, masked: seq<Val>)
    requires RowsNonEmpty(rows)
    ensures values == ColumnValues(rows, n, parse)
    ensures masked == Masked(rows, n, parse, shadowed)
  {
    ghost var target := Masked(rows, n, parse, shadowed);
    values := [];
    masked := TemperatureTexts(rows);
    MaskedUpToStart(rows, target);
    ghost var done: seq<seq<string>> := [];
    var i := 0;
    while i < |rows|
      invariant 0 <= i <= |rows| && done == rows[..i]
      invariant values == ColumnValues(done, n, parse)
      invariant MaskedUpTo(masked, target, rows, i)
    {
      ColumnValuesSnoc(done, rows[i], n, parse);
      TakeNext(rows, i);
      MaskedAt(rows, n, parse, shadowed, i);
      MaskedUpToNext(masked, target, rows, i);
      values, masked := FillRow(rows[i], n, parse, shadowed, values, masked, i);
      done := done + [rows[i]];
      i := i + 1;
    }
    assert done == rows;
    MaskedUpToAll(masked, target, rows);
  }

  /** The temperature list partway through the row loop: the rows before `i` hold their
      final entries and the rest still hold their temperature texts. */
  ghost predicate MaskedUpTo(masked: seq<Val>, target: seq<Val>, rows: seq<seq<string>>, i: nat) {
    RowsNonEmpty(rows) && |masked| == |target| == |rows| && i <= |rows| &&
    (forall j :: 0 <= j < i ==> masked[j] == target[j]) &&
    (forall j :: i <= j < |rows| ==> masked[j] == Str(rows[j][0]))
  }

  lemma MaskedUpToNext(masked: seq<Val>, target: seq<Val>, rows: seq<seq<string>>, i: nat)
    requires MaskedUpTo(masked, target, rows, i) && i < |rows|
    ensures masked[i] == Str(rows[i][0])
    ensures MaskedUpTo(masked[i := target[i]], target, rows, i + 1)
  {
  }

  lemma MaskedUpToStart(rows: seq<seq<string>>, target: seq<Val>)
    requires RowsNonEmpty(rows) && |target| == |rows|
    ensures MaskedUpTo(TemperatureTexts(rows), target, rows, 0)
  {
  }

  lemma MaskedUpToAll(masked: seq<Val>, target: seq<Val>, rows: seq<seq<string>>)
    requires MaskedUpTo(masked, target, rows, |rows|)
    ensures masked == target
  {
  }

  /** One pass of the inner loop, for row `i`: its number, if any, is appended to the
      values, and its temperature is masked when there is none or the column is shadowed. */
  method FillRow(row: seq<string>, n: nat, parse: NumParser, shadowed: bool,
                 values: seq<real>, masked: seq<Val>, i: nat) returns (values': seq<real>, masked': seq<Val>)
    requires |row| > 0 && i < |masked| && masked[i] == Str(row[0])
    ensures values' == values + match Cell(row, n, parse) case Some(v) => [v] case None => []
    ensures masked' == masked[i := MaskOf(row, n, parse, shadowed)]
  {
    values', masked' := values, masked;
    var cell := Cell(row, n, parse);
    if cell.Some? {
      values' := values' + [cell.value];
      if shadowed {
        masked' := masked'[i := PyNone];
      }
    } else {
      masked' := masked'[i := PyNone];
    }
  }

  /** One more row: its number, if any, follows those of the rows before it. */
  lemma ColumnValuesSnoc(done: seq<seq<string>>, row: seq<string>, n: nat, parse: NumParser)
    ensures ColumnValues(done + [row], n, parse) ==
      ColumnValues(done, n, parse) + match Cell(row, n, parse) case Some(v) => [v] case None => []
  {
    assert (done + [row])[..|done|] == done;
  }

  /** The outer loop over the header cells, starting from the entries of `Material()`. */
  method FillColumns(names: seq<string>, rows: seq<seq<string>>, parse: NumParser) returns (material: ODict<string, Val>)
    requires RowsNonEmpty(rows)
    ensures material == CsvMaterial(names, rows, parse)
  {
    ghost var records := ColumnsOf(names, rows, parse, |names|);
    var base := Materials.Fields(PyNone);
    material := base;
    var n := 0;
    while n < |names|
      invariant 0 <= n <= |names|
      invariant material == Headed(base, names, records, n)
    {
      var name := names[n];
      ghost var before := material;
      if name != "" && name != "Temperature" {
        var values, masked := FillColumn(rows, n, parse, Shadowed(name));
        var record := ColumnRecord(name, values, NotNone(masked));
        assert record == records[n] by {
          ColumnsOfAt(names, rows, parse, |names|, n);
        }
        material := Set(material, name, record);
      }
      HeadedNext(base, names, records, n, before, material);
      n := n + 1;
    }
  }

  /** One header cell processed: its record stored under it, unless it is `''` or
      `Temperature`. */
  lemma HeadedNext(base: ODict<string, Val>, names: seq<string>, records: seq<Val>, n: nat,
                   before: ODict<string, Val>, after: ODict<string, Val>)
    requires n < |names| == |records| && before == Headed(base, names, records, n)
    requires after == if names[n] == "" || names[n] == "Temperature" then before else Set(before, names[n], records[n])
    ensures after == Headed(base, names, records, n + 1)
  {
  }

  /** `[cell.strip() for cell in row]`. */
  function Strips(row: seq<string>): (r: seq<string>)
    ensures |r| == |row|
    ensures forall i :: 0 <= i < |row| ==> r[i] == Strip(row[i])
  {
    if |row| == 0 then [] else [Strip(row[0])] + Strips(row[1..])
  }

  /** `csv`: the first row names the material (a first cell mentioning `Name`, the name in
      the second), the second row holds the headers with `Temperature` first, and the rest
      are readings. The result is a collection holding one `Material` under that name,
      whose own `MaterialName` stays `None` (`CsvMaterialName`). */
  function CsvData(rawdata: seq<seq<string>>, parse: NumParser): (r: Result<ODict<string, Entry>>)
    ensures r.Ok? <==>
      RowsNonEmpty(rawdata) && |rawdata| >= 2 && IsSubstring("Name", rawdata[0][0]) && |rawdata[0]| >= 2 &&
      Strip(rawdata[1][0]) == "Temperature"
    ensures r.Ok? ==>
      |r.value| == 1 && r.value[0].0 == rawdata[0][1] && r.value[0].1.Mat? && r.value[0].1.name == PyNone &&
      RowsNonEmpty(rawdata[2..]) && r.value[0].1.dict == CsvMaterial(Strips(rawdata[1]), rawdata[2..], parse)
    ensures !RowsNonEmpty(rawdata) || |rawdata| == 0 ==> r == Err(IndexError)
    ensures RowsNonEmpty(rawdata) && |rawdata| > 0 && !IsSubstring("Name", rawdata[0][0]) ==> r == Err(UnboundLocalError)
    ensures (RowsNonEmpty(rawdata) && |rawdata| >= 2 && IsSubstring("Name", rawdata[0][0]) && |rawdata[0]| >= 2 &&
             Strip(rawdata[1][0]) != "Temperature") ==> r == Err(AssertionError)
  {
    if !RowsNonEmpty(rawdata) || |rawdata| == 0 then Err(IndexError)
    else if !IsSubstring("Name", rawdata[0][0]) then Err(UnboundLocalError)
    else if |rawdata[0]| < 2 || |rawdata| < 2 then Err(IndexError)
    else
      var names := Strips(rawdata[1]);
      if names[0] != "Temperature" then Err(AssertionError)
      else
        var rows := rawdata[2..];
        assert RowsNonEmpty(rows) by {
          forall i | 0 <= i < |rows| ensures |rows[i]| > 0 {
            assert rows[i] == rawdata[i + 2];
          }
        }
        Ok([(rawdata[0][1], Mat(PyNone, CsvMaterial(names, rows, parse)))])
  }

  /** `csv`, with the rows `csv.reader` produced. */
  method Csv(rawdata: seq<seq<string>>, parse: NumParser) returns (r: Result<ODict<string, Entry>>)
    ensures r == CsvData(rawdata, parse)
  {
    if !RowsNonEmpty(rawdata) || |rawdata| == 0 {
      return Err(IndexError);
    }
    if !IsSubstring("Name", rawdata[0][0]) {
      return Err(UnboundLocalError);
    }
    if |rawdata[0]| < 2 || |rawdata| < 2 {
      return Err(IndexError);
    }
    var materialname := rawdata[0][1];
    var materialdata := rawdata[1..];
    var propertynames := Strips(materialdata[0]);
    var allvalues := materialdata[1..];
    if propertynames[0] != "Temperature" {
      return Err(AssertionError);
    }
    assert allvalues == rawdata[2..];
    assert RowsNonEmpty(allvalues) by {
      forall i | 0 <= i < |allvalues| ensures |allvalues[i]| > 0 {
        assert allvalues[i] == rawdata[i + 2];
      }
    }
    var material := FillColumns(propertynames, allvalues, parse);
    r := Ok([(materialname, Mat(PyNone, material))]);
  }
}
