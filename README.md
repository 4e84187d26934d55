# materialtools in Dafny

A model of the core of `materialtools`, a Python library that holds engineering material data
(properties such as Young's modulus or thermal conductivity, tabulated against parameters such
as temperature). The model covers:

- `Material`, a dictionary of properties, and its value lookup, which answers a query by exact
  index, by nearest value within a tolerance, or by linear interpolation between the sorted
  neighbours;
- `MaterialProperty`, `MaterialParameter` and `MaterialProperty.Calculated`;
- `MaterialData`, a collection of materials: importing one material, the name-clash merge of an
  imported file, and the generation of the `pa{i}`/`pr{i}` ids;
- the calculators: the thermal stress figure of merit, the three-pass thermal mismatch stress
  and the units check;
- the readers, from an already-parsed MatML tree (`MatMLData`: units, ids, materials,
  properties, parameters), from the lines of a text file and from the rows of a CSV file;
- the MatML writer (materials, properties, parameters, sorted metadata, the ANSYS wrapper) and
  the `abbreviate` helper.

Python values are one datatype `Val` (`None`, `str`, number, list, dict, `MaterialProperty`,
`MaterialParameter`); dictionaries are insertion-ordered association lists, since the order of
a dictionary decides the order of ids and of written elements. Every Python exception the core
can raise is an `Error` value of a `Result`, named after its Python class. Numbers are `real`.
The text of a number (`str(x)`) and the parser of a number (`float(s)`) are function parameters
(`NumText`, `NumParser`), so every statement holds for every formatting and parsing function.

Modules follow the source: `PyValues` (Python values, dictionaries, string operations),
`Entities` (`materialproperty.py`), `MaterialLookup` and `Materials` (`material.py`),
`Calculators` (`calculators.py`), `Collection` (`materialdata.py`), `MatML` (`matml.py` and
`read.matml`), `Readers` (`read.textfile`, `read.csv`), `Writer` (`write.matml`, `abbreviate`).
Classes whose methods update their fields (`Material`, `MaterialData`, `MatMLData`,
`Calculated`) are Dafny classes; their loops are methods proved equal to the functions that
specify them, and the properties are lemmas about those functions.

Behaviour of the code that the model keeps, although a reader of the names might expect
otherwise:

- the on-demand figure of merit is requested under the name `"Thermal Stress FOM"`, while
  `populate_thermal_stress_fom` stores it under `"Thermal Stress Figure of Merit"`;
- on a name clash the merge renames the incoming material as well as the incumbent, so neither
  keeps the bare name;
- parallel value lists of different lengths are not rejected: `zip` truncates;
- a lookup method other than `"nearest"`/`"linear"` raises `UnboundLocalError`;
- linear interpolation of the example steel data (210 GPa at 20 °C, 180 GPa at 500 °C) at
  250 °C gives 195.625 GPa (`LookupExamples.LinearBetweenPoints`);
- Python `is` comparisons between strings are modelled as equality.

## Model

| member | source | states |
|---|---|---|
| Entities.NewProperty | materialtools/classes/materialproperty.py:10-21 | the property has `.name == name` and exactly the keys PropertyName, DataSource, Units, Values, Comments, holding the arguments; it has no `Name` key |
| Entities.NewParameter | materialtools/classes/materialproperty.py:94-101 | the parameter has `.name == name` and exactly the keys ParameterName, Units, Values, holding the arguments; it has no `Name` key |
| Entities.Calculated.constructor | materialtools/classes/materialproperty.py:29-37 | every constructor argument becomes the field of the same name |
| Entities.Calculated.Value | materialtools/classes/materialproperty.py:39-43 | the loop as written returns only the last term c[n-1]·T^(n-1), and 0 for no coefficients |
| Entities.LastTerm | materialtools/classes/materialproperty.py:39-43 | no coefficients give 0; otherwise the as-written value is the polynomial minus the polynomial of all coefficients but the last, i.e. its last term only |
| Entities.LastTermDiffers | materialtools/classes/materialproperty.py:39-43 | the as-written value agrees with the polynomial for one coefficient and differs for [1, 1] at T = 1 (1 against 2) |
| Entities.Calculated.PolynomialValue | materialtools/classes/materialproperty.py:24-28 | the accumulating loop returns a + b·T + c·T² + … as the class documentation promises |
| Entities.Polynomial | materialtools/classes/materialproperty.py:24-28 | the documented a + b·T + c·T² + …: 0 for no coefficients and the constant a for one |
| Entities.PolynomialIsHorner | materialtools/classes/materialproperty.py:24-28 | the documented polynomial equals its Horner evaluation |
| Entities.PolynomialShift | materialtools/classes/materialproperty.py:24-28 | the polynomial is its constant term plus T times the polynomial of the remaining coefficients |
| MaterialLookup.Checked | materialtools/classes/material.py:106-116 | a property missing from the material, or a dependent or independent parameter missing from the property, fails with AssertionError; success returns the stored property, and `'auto'` names the property itself |
| MaterialLookup.DependentValues | materialtools/classes/material.py:118-124 | the dependent values are `property[parameter1]['Values']`, or `property['Values']` when that raises |
| MaterialLookup.StoredValue | materialtools/classes/material.py:106-195 | failed checks propagate; a `None` query gives the first dependent value without reading the axis; a query equal to a stored axis value gives the dependent value at its first index |
| MaterialLookup.NumIn | materialtools/classes/material.py:133 | `q in p2values` is list membership for a list, false for a mapping and TypeError for other values |
| MaterialLookup.FirstIndex | materialtools/classes/material.py:134 | `list.index`: the first index holding the value |
| MaterialLookup.Distances | materialtools/classes/material.py:138 | the distances are \|x − q\| for each stored x, in order |
| MaterialLookup.ArgMin | materialtools/classes/material.py:140 | `differences.index(min(differences))`: an index of a minimal distance, before which every distance is strictly larger |
| MaterialLookup.Nearest | materialtools/classes/material.py:136-149 | a non-numeric axis raises TypeError and an empty one ValueError |
| MaterialLookup.NearestPicksFirstClosest | materialtools/classes/material.py:136-149 | the first index of minimal distance is chosen; the result is `None` exactly when that distance exceeds the tolerance (a distance equal to it is accepted), otherwise the value at that index |
| LookupExamples.StoredValueBranches | materialtools/classes/material.py:133-188 | a non-exact query goes to the nearest lookup for `"nearest"` and to the linear lookup for `"linear"` |
| MaterialLookup.UnknownMethodRaises | materialtools/classes/material.py:191-195 | any other method with a non-exact query raises UnboundLocalError instead of returning |
| MaterialLookup.Linear | materialtools/classes/material.py:156-188 | unreadable values propagate their error; points that cannot be sorted (a non-number x, or tied points with different values that `<` cannot order) raise TypeError and an empty axis ValueError; below every stored x the result is `values[0]` when \|q − xs[0]\| < tolerance (strict, measured to the first stored x, not the minimum) and ValueError otherwise; above every stored x it is `values[-1]` when \|q − xs[-1]\| < tolerance and ValueError otherwise |
| MaterialLookup.LinearInRange | materialtools/classes/material.py:160-183 | inside the range the linear lookup is the interpolation between the sorted neighbours of the sentinel |
| MaterialLookup.MaxBelow | materialtools/classes/material.py:160-181 | the neighbour below: the largest stored x under q, absent exactly when none is under q |
| MaterialLookup.MinAbove | materialtools/classes/material.py:160-182 | the neighbour above: the smallest stored x over q, absent exactly when none is over q |
| MaterialLookup.MaxOf | materialtools/classes/material.py:172 | `max(xs)` is a stored x not below any other |
| MaterialLookup.GroupMax | materialtools/classes/material.py:162-181 | among equal x the sorted tuples place the largest y last: the value is the largest y stored at x, defined exactly when every y at x is a number |
| MaterialLookup.GroupMin | materialtools/classes/material.py:162-182 | among equal x the smallest y comes first: the value is the smallest y stored at x, defined exactly when every y at x is a number |
| MaterialLookup.InteriorStraddles | materialtools/classes/material.py:179-183 | the neighbours satisfy x1 < q < x2, so the divisor is nonzero, and the result is the interpolation, lying between y1 and y2; missing neighbour values raise UnboundLocalError |
| MaterialLookup.InterpolateBetween | materialtools/classes/material.py:183 | y2 − (x2 − q)(y2 − y1)/(x2 − x1) equals y1 + (q − x1)(y2 − y1)/(x2 − x1) and lies between y1 and y2 |
| MaterialLookup.Points | materialtools/classes/material.py:198-221 | a missing property raises KeyError; for a present property a missing parameter's error propagates, and otherwise the result is exactly reading `Values` of `material[property][parameter]` (its value or its error) |
| MaterialLookup.Units | materialtools/classes/material.py:223-226 | a missing property raises KeyError; for a present property the parameter's or its `Units`' error propagates, and otherwise the result is exactly `Units[0]` (its value or its IndexError/TypeError) |
| LookupExamples.LinearBetweenPoints | materialtools/classes/material.py:179-183 | the steel example at 250 °C interpolates to 195.625e9 |
| LookupExamples.SteelLinear | materialtools/classes/material.py:156-183 | the linear lookup on the steel axis at 250 gives 195.625e9 |
| LookupExamples.SteelInterior | materialtools/classes/material.py:179-183 | the interior interpolation on the steel data at 250 gives 195.625e9 |
| LookupExamples.NearestWithinTolerance | materialtools/classes/material.py:136-149 | the steel example at 550 °C gives 180e9 within tolerance 100 and `None` within tolerance 10 |
| LookupExamples.SteelNearest | materialtools/classes/material.py:136-149 | the nearest lookup at 550 is `None` exactly when the tolerance is below 50 |
| LookupExamples.TiedEqualValuesSort | materialtools/classes/material.py:160-168 | points tied at 1 with equal `None` values sort, and a query at 0 within the tolerance gives `values[0]`; tied points with values `None` and 2 raise TypeError |
| Materials.Fields | materialtools/classes/material.py:12-20 | a new material has exactly the keys MaterialName, Condition, DataSource, Description, MaterialName holding its name; it has no `Name` key |
| Materials.Material.constructor | materialtools/classes/material.py:12-22 | name and dictionary as above, source `None` |
| Materials.Material.GetValue | materialtools/classes/material.py:56-105 | the name `"Thermal Stress FOM"` is computed on demand and asserts a Temperature index; any other name is the stored lookup |
| Materials.Material.GetPoints | materialtools/classes/material.py:198-221 | `Points` of the material's dictionary: success and every error case as stated there |
| Materials.Material.GetUnits | materialtools/classes/material.py:223-226 | `Units` of the material's dictionary: success and every error case as stated there |
| Materials.WithValue | materialtools/classes/material.py:228-246 | the property is present afterwards; every other key keeps its presence and its value |
| Materials.Material.SetValue | materialtools/classes/material.py:228-246 | the dictionary becomes `WithValue` of the old one; name and source are unchanged |
| Materials.EntryStored | materialtools/classes/material.py:236-245 | the stored entry passes the lookup's checks with Temperature as index |
| Materials.EntryRead | materialtools/classes/material.py:238-243 | the stored entry's dependent values are the given values, and a stored temperature is found at its first index |
| Materials.SetThenGet | materialtools/classes/material.py:228-246 | after `set_value`, `get_value` with no query gives the first value and with a stored temperature the co-indexed value |
| Materials.SetThenPoints | materialtools/classes/material.py:198-246 | after `set_value`, `get_points` of the dependent parameter gives the dependent values and of the index parameter the index values (the dependent ones when both names coincide); `get_units` of either raises KeyError, since no `Units` is stored |
| Materials.Kept | materialtools/classes/material.py:281-287 | a temperature is kept exactly when it is among the given ones and the figure of merit succeeds there; no more are kept than given; a single temperature is kept exactly when its figure of merit succeeds (order: `KeptStep`, `KeptConcat`) |
| Materials.KeptStep | materialtools/classes/material.py:281-287 | one more temperature is appended after those already kept when the figure of merit succeeds at it, and otherwise changes nothing |
| Materials.KeptConcat | materialtools/classes/material.py:281-287 | the temperatures keep their order: those kept from two runs of temperatures are the first run's, then the second's |
| Materials.FomsAt | materialtools/classes/material.py:281-283 | one figure of merit per kept temperature, in the same order |
| Materials.Series | materialtools/classes/material.py:281-287 | the loop gives the kept temperatures and their figures of merit |
| Materials.FomSeries | materialtools/classes/material.py:272-291 | the stored property's Temperature and figure-of-merit series have equal length and agree index by index |
| Materials.Material.PopulateThermalStressFom | materialtools/classes/material.py:264-292 | with no temperature kept the assertion fails and nothing changes; otherwise the property is stored under "Thermal Stress Figure of Merit" and returned |
| Materials.DefaultTemperatures | materialtools/classes/material.py:265 | `range(0, 2000, 50)`: 40 temperatures 0, 50, …, 1950 |
| Calculators.Presence | materialtools/calculators.py:55-65 | succeeds exactly when every (property, parameter) pair is present; failure is an AssertionError (or TypeError from `in`) |
| Calculators.CheckInputs | materialtools/calculators.py:55-65 | the assertion loop, as `Presence` |
| Calculators.Lookups | materialtools/calculators.py:66-80 | every input is read with the default method and tolerance at the Temperature index; the result lists them in order, or is the first failure |
| Calculators.ReadInputs | materialtools/calculators.py:66-80 | the lookup loop, as `Lookups` |
| Calculators.Figure | materialtools/calculators.py:83-88 | defined exactly for numeric inputs with α·E ≠ 0; M·(α·E) = uts·k·(1 − ν); non-numbers raise TypeError |
| Calculators.Merit | materialtools/calculators.py:88 | defined exactly when α·E ≠ 0, and then M·(α·E) = uts·k·(1 − ν) |
| Calculators.Fom | materialtools/calculators.py:10-89 | all pairs are checked before any lookup; a missing pair or failing lookup is the error returned; otherwise M from the five values read |
| Calculators.ThermalStressFom | materialtools/calculators.py:10-89 | the method computes `Fom` |
| Calculators.FomFormula | materialtools/calculators.py:83-88 | with numeric inputs the result is uts·k·(1 − ν)/(α·E), or ZeroDivisionError when α·E = 0 |
| Calculators.FigureOfNumbers | materialtools/calculators.py:88 | the same formula on numbers, with ZeroDivisionError for α·E = 0 |
| Calculators.Div | materialtools/calculators.py:199-205 | division fails exactly on a zero divisor, and the quotient times the divisor is the dividend |
| Calculators.MeanTemperatures | materialtools/calculators.py:199-200 | defined exactly for h ≠ 0 and nonzero numeric conductivities |
| Calculators.MeansOrdered | materialtools/calculators.py:199-200 | with positive load and conductivities, T_coolant < T1mean < T2mean, and T2mean − T1mean = q·t1/(2k1) + q·t2/(2k2) |
| Calculators.OnePass | materialtools/calculators.py:169-202 | one pass makes eight reads at the current temperatures (expansion, Poisson's ratio, modulus, conductivity, each for layer 1 then layer 2); the first read that fails is the pass's error; when all succeed, the pass holds the values read and the mean temperatures from the two conductivities, or the mean temperatures' error |
| Calculators.PassAt | materialtools/calculators.py:169-202 | the method computes `OnePass` |
| Calculators.Stress | materialtools/calculators.py:204-205 | a non-number among α2, α1, ν2, E2 raises TypeError; with numbers, t2·E2 = 0 or E1 = 0 raises ZeroDivisionError, a zero compliance raises ZeroDivisionError, and otherwise the result is α2(T2mean − Tref) − α1(T1mean − Tref) divided by the compliance (1 − ν2)·t1/(t2·E2) + (1 − ν1)/E1 |
| Calculators.NoMismatchNoStress | materialtools/calculators.py:204-205 | equal expansion at equal mean temperature gives zero stress |
| Calculators.Mismatch | materialtools/calculators.py:163-208 | starting from the coolant temperature, two passes give the temperatures of the third pass; a failure of the first two passes or of the third is the result, and a third pass that succeeds gives exactly `Stress` of its values |
| Calculators.MismatchFormula | materialtools/calculators.py:169-205 | when the third pass reads numbers and no divisor vanishes, the result is (α2(T2mean − Tref) − α1(T1mean − Tref)) / ((1 − ν2)·t1/(t2·E2) + (1 − ν1)/E1) with the third pass's values |
| Calculators.Temperatures | materialtools/calculators.py:166-201 | before any pass both temperatures are the coolant's; after n passes they are the mean temperatures of pass n at the temperatures after n − 1 passes, and an earlier failure is kept |
| Calculators.Advance | materialtools/calculators.py:169-201 | one turn: a failure so far is kept, a failing pass is the result, and a pass that succeeds gives its (T1mean, T2mean), which are `MeanTemperatures` of the conductivities it read |
| Calculators.MismatchStress | materialtools/calculators.py:92-208 | the three-iteration loop computes `Mismatch` |
| Calculators.AllUnits | materialtools/calculators.py:218-219 | the flattened list exists exactly when every parameter has `Units` and they are iterable |
| Calculators.AllUnitsSnoc | materialtools/calculators.py:218-219 | one more parameter appends its iterated `Units` after those before it; the first parameter whose `Units` is missing or not iterable gives the error |
| Calculators.CheckUnits | materialtools/calculators.py:211-222 | a non-parameter fails the assertion; a list of parameters whose units flatten always gets an answer, and a flattening error propagates; the answer is true exactly when all units are equal (vacuously for zero or one) |
| Calculators.ShiftedEqual | materialtools/calculators.py:221 | `s[1:] == s[:-1]` holds exactly when all elements are equal |
| Collection.NewMaterial | materialtools/classes/material.py:12-22 | a fresh material named `name`, MaterialName holding it |
| Collection.Item | materialtools/classes/materialdata.py:132-137 | a material's field, or KeyError when absent |
| Collection.Imported | materialtools/classes/materialdata.py:51-56 | when the source holds the name, its entry is stored under `newname` (the source name for `'auto'`) and every other key is unchanged; otherwise nothing changes |
| Collection.MaterialData.constructor | materialtools/classes/materialdata.py:19-25 | an empty collection with no files, names, sources or ids |
| Collection.MaterialData.ImportMaterial | materialtools/classes/materialdata.py:42-60 | the entries become `Imported` of the old ones; other fields are unchanged |
| Collection.Qualified | materialtools/classes/materialdata.py:132 | `m + ' (x)'` extends `m` |
| Collection.NewName | materialtools/classes/materialdata.py:131-135 | the incoming name is `m (Condition)`, or `m (Condition) (DataSource)` when that key exists; a missing Condition raises KeyError |
| Collection.MoveIncumbent | materialtools/classes/materialdata.py:136-141 | nothing moves when `m` is not a key; afterwards `m` is never a key |
| Collection.ClashRenamesBoth | materialtools/classes/materialdata.py:125-146 | on a clash the incoming material is stored under its new name, `m` is gone, and the incumbent sits under `m (its Condition)` unless the incoming one took that key; every other key keeps its presence and its value |
| Collection.MergeStep | materialtools/classes/materialdata.py:123-149 | a non-material changes nothing; a material whose name is not in `materialnames` is stored under it and every other key keeps its presence and value; on a clash a failing rename is the error, and success stores the incoming material under its new name and leaves no entry under the bare name |
| Collection.SameConditionOverwrites | materialtools/classes/materialdata.py:132-146 | equal conditions with the renamed key absent: the moved incumbent is overwritten by the incoming material |
| Collection.NoClashOverwrites | materialtools/classes/materialdata.py:123-149 | clashes are read from the cached `materialnames`, not the keys: an unlisted name is stored as is (overwriting a key) with every other key unchanged, and non-materials are skipped |
| Collection.MergeStepUnique | materialtools/classes/materialdata.py:123-149 | one merge step keeps the keys unique |
| Collection.MergeAll | materialtools/classes/materialdata.py:119-152 | incoming entries none of which is a material change nothing and raise nothing; an error needs an incoming material |
| Collection.MergeAllUnique | materialtools/classes/materialdata.py:123-149 | the whole merge keeps the keys unique |
| Collection.ErrorEndsMerge | materialtools/classes/materialdata.py:119-152 | an exception ends the merge: later incoming entries change nothing |
| Collection.MergeNext | materialtools/classes/materialdata.py:123-149 | the merge of one more entry is one step on the merge so far |
| Collection.MaterialData.MergeOne | materialtools/classes/materialdata.py:123-149 | one pass of the loop updates the entries by the merge step, or leaves them and reports the error |
| Collection.MaterialField | materialtools/classes/materialdata.py:153-158 | `[x[key] for x in materials]`: defined exactly when every material has the key, in order |
| Collection.MaterialData.ImportFile | materialtools/classes/materialdata.py:119-162 | after a read the filename is appended once, the entries are the merge of the read ones, `materialnames` is recomputed from MaterialName and `sources` from DataSource when readable; a failed read changes nothing |
| Collection.MaterialData.MergeEach | materialtools/classes/materialdata.py:119-152 | the merge loop leaves the entries `MergeAll` gives and returns its error; names, sources, ids and filename are unchanged |
| Collection.MaterialDicts | materialtools/classes/materialdata.py:246-247 | one dict per material value and nothing else: a single entry gives its dict exactly when it is a material, every material's dict is in the result, and every dict in the result is some material's |
| Collection.MaterialDictsConcat | materialtools/classes/materialdata.py:246-247 | the material dicts of two runs of entries are those of the first run, then those of the second: the comprehension keeps the order of `self.values()` |
| Collection.CollectedNames | materialtools/classes/materialdata.py:244-257 | reading a `Name` can only raise KeyError; a single entry contributes the property and parameter names of its material (nothing for a non-material) |
| Collection.CollectedNamesConcat | materialtools/classes/materialdata.py:249-257 | the names collected over two runs of entries are the first run's, then the second's, in both lists; the first KeyError in order is the one raised |
| Collection.PropertyNames | materialtools/classes/materialdata.py:250-257 | for a single value: nothing for a non-property, KeyError for a property without `Name`, else its `Name` and then its parameters' names (or their KeyError) |
| Collection.PropertyNamesConcat | materialtools/classes/materialdata.py:250-257 | property names and parameter names of two runs of values are the first run's, then the second's; the first KeyError in order is the one raised |
| Collection.ParameterNames | materialtools/classes/materialdata.py:254-257 | for a single value: nothing for a non-parameter, its `Name` for a parameter, KeyError for a parameter without one |
| Collection.ParameterNamesConcat | materialtools/classes/materialdata.py:254-257 | the parameter names of two runs of values are the first run's, then the second's; the first KeyError in order is the one raised |
| Collection.CollectedFails | materialtools/classes/materialdata.py:249-257 | a material whose names cannot be read makes the whole collection raise KeyError |
| Collection.ConstructedPropertyHasNoName | materialtools/classes/materialdata.py:253 | a property built by its constructor has no `Name`, so generating ids raises KeyError |
| Collection.FirstAppearances | materialtools/classes/materialdata.py:260-261 | the deduplicated list holds each name once and exactly the names of the input |
| Collection.Dedupe | materialtools/classes/materialdata.py:260-261 | the loop computes `FirstAppearances` |
| Collection.Numbered | materialtools/classes/materialdata.py:264-267 | numbering succeeds exactly when every name is hashable, else TypeError |
| Collection.NumberedAt | materialtools/classes/materialdata.py:264-267 | each listed name gets prefix + its position; other keys keep their ids |
| Collection.Number | materialtools/classes/materialdata.py:264-267 | the loop computes `Numbered` |
| Collection.NumberedFails | materialtools/classes/materialdata.py:264-267 | an unhashable name makes numbering raise TypeError |
| Collection.IdOf | materialtools/classes/materialdata.py:244-267 | the ids cover exactly the property and parameter names; a property name gets `pr{i}` by first appearance, a parameter-only name `pa{i}`, so a name used as both ends with its `pr` id |
| Collection.Ids | materialtools/classes/materialdata.py:237-272 | an unreadable property or parameter `Name` raises KeyError; otherwise ids are produced exactly when every collected name is hashable, and the only errors are KeyError and TypeError |
| Collection.IdsDistinct | materialtools/classes/materialdata.py:264-267 | distinct names get distinct ids |
| Collection.IdTextInjective | materialtools/classes/materialdata.py:265-267 | `pa{i}`/`pr{j}` texts determine prefix and number |
| Collection.MaterialData.GenerateIds | materialtools/classes/materialdata.py:237-272 | the method returns `Ids` of the entries and stores it in `ids`; nothing else changes |
| MatML.AsList | materialtools/classes/matml.py:35 | a list stays itself, any other value becomes a one-element list |
| MatML.Insert | materialtools/classes/matml.py:41 | storing under a hashable key sets it; an unhashable key raises TypeError |
| MatML.Lookup | materialtools/classes/matml.py:109 | a present key gives its value, an absent one KeyError, an unhashable one TypeError |
| MatML.Concat | materialtools/classes/matml.py:39 | `a + s` for a string, TypeError otherwise |
| MatML.JoinStrings | materialtools/classes/matml.py:41 | `'.'.join` succeeds exactly for strings and joins their texts |
| MatML.JoinStringsSplit | materialtools/classes/matml.py:41 | splitting a joined unit string at the separator gives the terms back |
| MatML.UnitTerm | materialtools/classes/matml.py:37-40 | a term is `Name^power`, or `Name` when `@power` is absent |
| MatML.Terms | materialtools/classes/matml.py:37-40 | every term is converted, in order |
| MatML.UnitStringTerms | materialtools/classes/matml.py:32-41 | a unit string is the terms of `Units/Unit` (a single unit as a list) joined with `'.'`, and splits back into them |
| MatML.DetailUnits | materialtools/classes/matml.py:31-51 | a details entry that is not a container raises TypeError; an entry is accepted exactly when `'Units' in p` can be asked, its `@id` is present and hashable, and with `Units` its unit string can be built, without it `'Unitless' in p` can be asked (what is recorded: `DetailUnitsRecords`) |
| MatML.DetailUnitsRecords | materialtools/classes/matml.py:30-51 | each details entry records its id; with `Units` its unit string, otherwise `'Unitless'` exactly for a Unitless ParameterDetails entry and `'-'` in every other case; other ids are kept |
| MatML.UnitsOf | materialtools/classes/matml.py:27-55 | a document without `Metadata` gives that error; units exist only when the metadata holds both PropertyDetails and ParameterDetails |
| MatML.MatMLData.GetUnits | materialtools/classes/matml.py:27-55 | the units of both detail lists are returned and stored; other fields are unchanged |
| PyValues.FoldLoop | materialtools/classes/matml.py:74-88 | a `for` loop whose passes may raise computes `Fold`: every pass in order, ending at the first exception |
| MatML.DetailsUnits | materialtools/classes/matml.py:31-51 | the loop over one detail list |
| MatML.IdStepSets | materialtools/classes/matml.py:61 | one entry maps its `@id` to its `Name` |
| MatML.IdsLastWins | materialtools/classes/matml.py:56-63 | an id maps to the name of the last entry carrying it |
| MatML.IdsOf | materialtools/classes/matml.py:56-63 | a document without `Metadata` gives that error; ids exist only when the metadata holds both detail lists |
| MatML.MatMLData.GetIds | materialtools/classes/matml.py:56-63 | the id map is returned and stored |
| MatML.DetailsIds | materialtools/classes/matml.py:59-61 | the loop over one detail list |
| MatML.Pieces | materialtools/classes/matml.py:145 | `text.split(',')` as string values |
| MatML.PiecesTexts | materialtools/classes/matml.py:145 | the pieces are strings whose texts are the split |
| MatML.QualifierStep | materialtools/classes/matml.py:144-146 | `#text` is read first: missing is that error, a non-string AttributeError; then `@name`: missing is that error, a non-string TypeError; on success the name holds the comma-separated pieces of the text and every other key is unchanged |
| MatML.QualifierRoundTrip | materialtools/classes/matml.py:144-146 | a qualifier stores its split text under its name, and joining it with `','` gives the text back |
| MatML.Filled | materialtools/classes/matml.py:123-125 | every piece other than `'-'` is kept and nothing else; a single piece is kept unless it is `'-'` |
| MatML.FilledConcat | materialtools/classes/matml.py:123-125 | the comprehension keeps order and repeats: filtering two runs of pieces gives the filtered runs one after the other |
| MatML.FilledAllDashes | materialtools/classes/matml.py:123-125 | pieces that are all `'-'` leave nothing |
| MatML.ParseAll | materialtools/classes/matml.py:123-125 | parsing succeeds exactly when every piece parses, giving the numbers in order; otherwise ValueError |
| MatML.ParsedValues | materialtools/classes/matml.py:123-125 | the data text split at `','`, `'-'` dropped, parsed; a non-string raises AttributeError |
| MatML.ParameterValuesShape | materialtools/classes/matml.py:206-214 | parameter values are `['-']` when reading or parsing fails, and `[]` when every piece is `'-'`; otherwise numbers |
| MatML.Attr | materialtools/classes/matml.py:109 | an attribute not yet set raises AttributeError |
| MatML.UnitsFor | materialtools/classes/matml.py:132-135 | the units of an id with units, else `['-']` |
| MatML.ParameterUnits | materialtools/classes/matml.py:200-204 | a parameter's units are a one-element list of a string |
| MatML.ParameterFields | materialtools/classes/matml.py:190-214 | the empty parameter given Name, Units and Values, with ParameterName `None` |
| MatML.ParameterOf | materialtools/classes/matml.py:189-215 | a parameter's name is the id map's entry for `@parameter`, and the parameter is the one built from the element |
| MatML.ParameterOfFields | materialtools/classes/matml.py:189-232 | the built parameter has the looked-up Name, ParameterName `None`, one unit and the parsed values |
| MatML.BuiltParameterFields | materialtools/classes/matml.py:190-225 | the same, for the parameter built from given name and units |
| MatML.ListEntries | materialtools/classes/matml.py:236-237 | every copied field holds a list, and every key the property holds a list under is copied |
| MatML.ListEntriesPairs | materialtools/classes/matml.py:236-237 | a field is copied exactly when it is list-valued, and keys stay distinct when the property's are |
| MatML.ListEntriesValues | materialtools/classes/matml.py:236-241 | with distinct keys, a key is in the copy exactly when the property holds a list under it, with that same list |
| MatML.ListEntriesConcat | materialtools/classes/matml.py:236-237 | the copy keeps the property's field order: copying two runs of fields gives the copied runs one after the other |
| MatML.SelfEntry | materialtools/classes/matml.py:234-241 | an unhashable property name raises TypeError; a name already among the parameters leaves them unchanged; otherwise a missing PropertyName is that error and a non-string one TypeError, and on success PropertyName's key holds a dict of the property's list-valued fields followed by PropertyName while every other key keeps its presence and value |
| MatML.ParametersOf | materialtools/classes/matml.py:174-243 | no `ParameterValue` gives `{}`; otherwise the first failing parameter is the error, and the folded parameters are completed by `SelfEntry`, all of them staying in the result |
| MatML.SelfEntryPresent | materialtools/classes/matml.py:178-243 | no ParameterValue gives `{}`; otherwise the result always holds the property's own name, as the XML gave it or as a dict of the property's list fields plus PropertyName; with distinct keys that dict is exactly the list-valued fields, in order and with their values, then `PropertyName` |
| MatML.PropertyFields | materialtools/classes/matml.py:113-136 | the new property's PropertyName, Values and Units |
| MatML.DataValues | materialtools/classes/matml.py:121-129 | property data parses to numbers |
| MatML.BareProperty | materialtools/classes/matml.py:108-153 | a property is built from the id map's name, the parsed values and the units of its id |
| MatML.BarePropertyFields | materialtools/classes/matml.py:113-153 | its Values are the parsed numbers or `['-']` when none remain, and its Units `['-']` when the id has none |
| MatML.BuiltPropertyFields | materialtools/classes/matml.py:113-146 | the built property's name, Units and Values |
| MatML.PropertyOf | materialtools/classes/matml.py:105-167 | a property is named by its id and stored under that name |
| MatML.PropertyStepKeeps | materialtools/classes/matml.py:111-167 | a property name already present is skipped; a new one is added |
| MatML.PropertyStep | materialtools/classes/matml.py:105-167 | an unreadable property name is the pass's error; a name already in the properties leaves them unchanged |
| MatML.PropertiesFirstWins | materialtools/classes/matml.py:105-172 | the first PropertyData of each name is the one kept |
| MatML.PropertiesUnique | materialtools/classes/matml.py:105-172 | the properties map has unique keys |
| MatML.PropertiesOf | materialtools/classes/matml.py:94-172 | a material element without `BulkDetails` gives that error; the properties built have unique names |
| MatML.MaterialOfContents | materialtools/classes/matml.py:76-86 | a new material holds its properties, the description (or `'-'`) and its name |
| MatML.MaterialOf | materialtools/classes/matml.py:76-86 | a failure building the properties is the result; the result is a material carrying the element's name |
| MatML.MaterialStepStores | materialtools/classes/matml.py:74-88 | each material element stores a material under its name, newly built when the collection does not hold that name |
| MatML.MaterialStep | materialtools/classes/matml.py:74-88 | an unreadable material name is the pass's error and an unhashable one TypeError; a pass that succeeds has a string name, sets `material`, and stores that material under the name |
| MatML.MaterialsLastWins | materialtools/classes/matml.py:74-92 | of two material elements with one name, the last one is kept |
| MatML.MaterialsOf | materialtools/classes/matml.py:70-92 | no material elements give no materials and an unbound `material`; after a loop that ends normally the last element's name holds the last material built |
| MatML.MaterialsIn | materialtools/classes/matml.py:65-92 | a document without `Material` gives that error; otherwise the loop's error or its materials (a single element counting as a list) |
| MatML.ExistingNameReused | materialtools/classes/matml.py:74-88 | a name the collection already holds stores the previous pass's material again, or raises UnboundLocalError on the first pass |
| MatML.MaterialsLoop | materialtools/classes/matml.py:74-88 | the loop over the material elements |
| MatML.MatMLData.GetMaterials | materialtools/classes/matml.py:65-92 | the materials are returned and the element list is stored |
| MatML.MatMLData.constructor | materialtools/classes/matml.py:20-24 | an empty object named `'no file imported yet'` |
| MatML.MatMLData.GetData | materialtools/classes/matml.py:245-259 | units, ids, then materials; each of `units`, `ids` and `xmlmaterials` is set from the document when its step and the steps before it succeed and is otherwise left as it was; the collection is updated with the materials on success; the result carries the materials where Python returns `None` |
| MatML.DataOf | materialtools/classes/matml.py:245-259 | no document raises AttributeError; the units' error, then the ids' error, is the result; otherwise the materials read with those ids and units |
| MatML.MatmlDoc | materialtools/read.py:29-39 | a non-mapping raises TypeError and a missing `EngineeringData` KeyError; a document found is `data['EngineeringData']['Materials']['MatML_Doc']` |
| MatML.ReadEntries | materialtools/read.py:10-54 | a failed parse is the error; then a missing document's error; otherwise the materials `getdata` builds from the document into an empty collection |
| MatML.ReadMatml | materialtools/read.py:10-54 | the MatML document of an ANSYS file is read into a new object holding its materials and the filename; any failure propagates |
| Readers.NonEmptyLines | materialtools/read.py:192 | no empty line remains, every kept line is a line of the input and every non-empty input line is kept |
| Readers.NonEmptyLinesConcat | materialtools/read.py:192 | the filter keeps the order: filtering two runs of lines gives the filtered runs one after the other, and a single line is kept exactly when it is not empty |
| Readers.TextStart | materialtools/read.py:196-201 | the current material name is the text after `'='` of the first line; the collection holds only materials |
| Readers.LineStep | materialtools/read.py:206-224 | a `Material Name` line makes the text after `'='` current, holding a fresh material; any other line raises KeyError when no material is current, and otherwise stores its value under its heading in the current material, keeping its name, the current name and the collection's keys |
| Readers.FirstLine | materialtools/read.py:196-201 | computes `TextStart` |
| Readers.TextData | materialtools/read.py:189-232 | no non-empty line raises IndexError |
| Readers.TextNeedsHeading | materialtools/read.py:196-214 | a first line other than `Material Name = X` only prints, then storing the first variable raises KeyError |
| Readers.MaterialLineStarts | materialtools/read.py:221-224 | a `Material Name = Y` line stores a fresh material under Y, replacing any earlier one, and makes it current |
| Readers.VariableLineStored | materialtools/read.py:208-220 | any other line stores its value in the current material under the variable's name |
| Readers.LineValue | materialtools/read.py:211-220 | a line whose number parses stores a dictionary with the number under `Values` and the units under `Units` (unless the variable itself is named so) and the same `{'Values', 'Units'}` record under the variable's name; a line whose number does not parse stores the stripped text after `'='` |
| Readers.NumberBeforeBracket | materialtools/read.py:212 | the number text is what lies between `'='` and `'['` |
| Readers.BracketMarks | materialtools/read.py:212 | where `find` locates `'='` and `'['` in such a line |
| Readers.NumberWithoutBracket | materialtools/read.py:212-213 | without `'['` the slice ends at −1: the last character is dropped |
| Readers.StepKeepsMaterials | materialtools/read.py:206-224 | each line keeps the collection made of materials with unique keys |
| Readers.TextAllMaterials | materialtools/read.py:194-224 | the result holds only materials, with unique keys |
| Readers.ReadLine | materialtools/read.py:206-224 | one pass of the loop |
| Readers.ReadLines | materialtools/read.py:206-224 | the loop over the lines |
| Readers.TextFile | materialtools/read.py:176-232 | the importer computes `TextData` |
| Readers.Strips | materialtools/read.py:259 | one name per header cell, each the stripped cell |
| Readers.TemperatureTexts | materialtools/read.py:264 | the temperatures are the raw first cells of the value rows |
| Readers.ColumnValues | materialtools/read.py:279-285 | at most one number per row |
| Readers.ColumnRecord | materialtools/read.py:271-276 | the record of a column is a dictionary with distinct keys; its keys and values are stated by `ColumnRecordFields` |
| Readers.ColumnRecordFields | materialtools/read.py:271-298 | the record's keys are exactly the column's name, `Temperature`, `Units` and `Values`; `Values` holds the numbers, `Units` the empty text, `Temperature` the kept temperatures with empty units, and an ordinary name its own `Units`/`Values` pair with the same numbers |
| Readers.ColumnRecordIsDisplay | materialtools/read.py:271-276 | the record equals the dictionary display evaluated as Python does: a repeated key keeps its first position and takes its last value |
| Readers.Masked | materialtools/read.py:278-293 | one entry per value row; what each entry is is stated by `MaskedAt`, and in a column named `Units` or `Values` every row is masked |
| Readers.MaskedAt | materialtools/read.py:278-293 | row i's entry is its temperature when the cell of that row parses and the column is not named `Units` or `Values`, and `None` otherwise; in a column named `Units` or `Values` every row is masked, since storing under the column's own name raises after the append |
| Readers.NotNone | materialtools/read.py:296-298 | no `None` remains |
| Readers.ColumnAligned | materialtools/read.py:279-298 | the temperatures kept and the values kept come from the same rows, in row order, so they have equal length |
| Readers.TemperaturesKept | materialtools/read.py:286-298 | the temperatures kept are those of the rows that parse |
| Readers.ValuesKept | materialtools/read.py:279-285 | the values are the numbers of the rows that parse |
| Readers.NothingKept | materialtools/read.py:284-293 | for a column named `Units` or `Values` every temperature is masked |
| Readers.FillColumn | materialtools/read.py:279-298 | the row loop computes the values and the masked temperatures |
| Readers.ColumnStored | materialtools/read.py:271-298 | a property's record holds the values twice (at top level and under its own name) and the kept temperatures |
| Readers.ShadowedColumn | materialtools/read.py:271-298 | a column named `Units` or `Values` keeps its values but no temperature |
| Readers.Headed | materialtools/read.py:267-298 | storing the columns keeps keys unique |
| Readers.HeadedKeys | materialtools/read.py:267-271 | the keys are the base fields plus every column name other than `''` and `Temperature` |
| Readers.HeadedLastWins | materialtools/read.py:267-271 | a repeated column name holds its last column |
| Readers.HeadedKeeps | materialtools/read.py:267-271 | fields no column names keep their values |
| Readers.FieldKeys | materialtools/classes/material.py:16-20 | the fields of a new material |
| Readers.CsvMaterialShape | materialtools/read.py:243-298 | the material's keys are its fields plus the non-blank, non-Temperature headers; the last column of each name is stored |
| Readers.CsvMaterial | materialtools/read.py:243-298 | the material has the four fields of a new material and every header other than `''` and `Temperature` as keys, and no keys besides those |
| Readers.CsvMaterialName | materialtools/read.py:243-302 | unless a column is named MaterialName, MaterialName stays `None` |
| Readers.FillColumns | materialtools/read.py:267-298 | the column loop computes `CsvMaterial` |
| Readers.CsvData | materialtools/read.py:234-304 | success exactly for a name row, a header starting with Temperature and non-empty rows; the one material is keyed by the second cell of the first row with name `None`, and its fields are `CsvMaterial` of the stripped header and the reading rows; missing name row raises UnboundLocalError, a wrong first header AssertionError, an empty row IndexError |
| Readers.Csv | materialtools/read.py:234-304 | the importer computes `CsvData` |
| Writer.Initials | materialtools/write.py:117 | the initials of the words, one per word; an empty word raises IndexError |
| Writer.Abbreviate | materialtools/write.py:117 | the abbreviation exists exactly when no word between single spaces is empty, and is then one initial per word, in order; otherwise IndexError |
| Writer.AbbreviateWords | materialtools/write.py:117 | words joined by single spaces abbreviate to their initials exactly when no word is empty |
| Writer.ValueTexts | materialtools/write.py:251 | `str` of each value, in order |
| Writer.Letters | materialtools/write.py:251 | a string's items are its characters |
| Writer.DataField | materialtools/write.py:251-253 | a data field containing `'-'` is `"-"` |
| Writer.DataRoundTrip | materialtools/write.py:251-253 | without `','` or `'-'` in any text, splitting the field at `','` gives the texts back |
| Writer.DataDashed | materialtools/write.py:251-253 | one text containing `'-'` (a negative number, `1e-05`) collapses the whole field to `"-"` |
| Writer.FormatName | materialtools/write.py:246-249 | the Python type name with `str` renamed `string` and `NoneType` renamed to the empty text (`int` is already `float`); `string`, the empty text and `float` name exactly strings, `None` and numbers |
| Writer.FormatAndData | materialtools/write.py:244-253 | defined exactly for a non-empty list or string; the format is the first value's type name (`str` → `string`, `NoneType` → ``, `int` → `float`); empty values raise IndexError |
| Writer.ParameterBlock | materialtools/write.py:236-264 | written exactly when the parameter's Name has an id and its Values a format; a missing Name is that error |
| Writer.WriteParameter | materialtools/write.py:236-264 | the method builds `ParameterBlock` |
| Writer.Parameters | materialtools/write.py:225 | only parameter values are chosen, and every parameter value stored in the dictionary is; a single field gives its value exactly when it is a parameter |
| Writer.ParametersMembers | materialtools/write.py:225 | a value is chosen exactly when it is a parameter stored under some key |
| Writer.ParametersConcat | materialtools/write.py:225 | the parameters are written in dictionary order: those of two runs of fields are the first run's, then the second's |
| Writer.MapAll | materialtools/write.py:226-229 | every element written in order, or the first failure |
| Writer.WriteParameters | materialtools/write.py:226-229 | the loop computes `MapAll` |
| Writer.PropertyBlock | materialtools/write.py:213-234 | written exactly when the property's Name has an id and every parameter is written |
| Writer.PropertyIgnoresOthers | materialtools/write.py:219-229 | a new field that is not a parameter does not change the property's element |
| Writer.WriteProperty | materialtools/write.py:213-234 | the method builds `PropertyBlock` |
| Writer.Properties | materialtools/write.py:203 | only property values are chosen, and every property value stored in the dictionary is; a single field gives its value exactly when it is a property |
| Writer.PropertiesMembers | materialtools/write.py:203 | a value is chosen exactly when it is a property stored under some key |
| Writer.PropertiesConcat | materialtools/write.py:203 | the properties are written in dictionary order: those of two runs of fields are the first run's, then the second's |
| Writer.WriteProperties | materialtools/write.py:203-206 | the loop computes `MapAll` |
| Writer.MaterialBlock | materialtools/write.py:189-211 | written exactly when `Name` and `Description` are present and every property is written; no `Name` raises KeyError |
| Writer.MaterialIgnoresOthers | materialtools/write.py:196-206 | a new field other than Name, Description or a property does not change the material's element |
| Writer.WriteMaterial | materialtools/write.py:189-211 | the method builds `MaterialBlock` |
| Writer.WriteMaterials | materialtools/write.py:312-316 | the loop computes `MapAll` |
| Writer.DocumentText | materialtools/write.py:309-322 | the document is written exactly when every material can be written, and is then `<MatML_Doc>`, one `Material` block per material in the collection's order, the metadata block and `</MatML_Doc>`, joined by newline and tab |
| Writer.DocumentNeedsNames | materialtools/write.py:198-200 | a written document means every material has `Name` and `Description` |
| Writer.FreshMaterialNotWritable | materialtools/write.py:198-200 | a material as its constructor builds it has MaterialName but no `Name`, so the document cannot be written |
| Writer.NotAfterTotal | materialtools/write.py:282-283 | string order is total |
| Writer.Insert | materialtools/write.py:282-283 | inserting keeps the list sorted by id and adds exactly one element |
| Writer.SortById | materialtools/write.py:282-283 | sorted by id string (so `pa10` precedes `pa2`) and a permutation |
| Writer.Tagged | materialtools/write.py:280-281 | exactly the id entries whose id contains the tag |
| Writer.DetailLines | materialtools/write.py:284-296 | four lines per entry, in the entries' order: lines 4i to 4i+3 are the details tag with entry i's id, its name, `<Unitless />` and the closing tag |
| Writer.AppendDetails | materialtools/write.py:284-296 | the loop appends `DetailLines` |
| Writer.MetadataListsParameter | materialtools/write.py:280-289 | every `pa` id is listed with its name among the parameter details, which come first |
| Writer.MetadataListsProperty | materialtools/write.py:280-296 | every `pr` id is listed with its name among the property details, after all parameter details |
| Writer.WriteMetadata | materialtools/write.py:278-307 | the method builds the metadata text |
| Writer.MetadataText | materialtools/write.py:278-307 | the metadata text opens with `<Metadata>` and closes with `</Metadata>` |
| Writer.WriteMatmlLines | materialtools/write.py:309-322 | ids are generated and stored first (their failure is the result); then the document of the materials, in order, and the metadata |
| Writer.WriteMatml | materialtools/write.py:309-333 | with `ansys` the document is wrapped in the EngineeringData header and footer; `ids` becomes the generated ids when they can be generated and is otherwise unchanged; `materialnames` and `sources` are unchanged |

## Left out

- File and library input/output: opening, reading and writing files, `xmltodict`, `csv.reader`,
  `splitlines`, `json`, `openpyxl`. The readers start from the parsed tree, the lines or the rows,
  and the writer returns the text.
- Printing and `verbose` output; the tkinter dialogs; the `input()` prompt of the merge (only
  the non-interactive path, answer `'Yes'`, is modelled).
- Extension dispatch and directory listing in `MaterialData.__init__`, `import_directory`,
  `import_file` and `export_file`: the read of `import_file` is a parameter.
- Floating point: numbers are reals, `str(x)` is an arbitrary `NumText` and `float(s)` an
  arbitrary `NumParser`; rounding and the `int`/`float` distinction are not modelled.
- Aliasing: dictionaries and lists are values, so the default lists shared by
  `MaterialProperty`/`MaterialParameter` objects built without `units`/`values`, and entries
  shared between collections, are not modelled.
- Dictionary keys other than strings: property, parameter, material and qualifier names that are
  not strings are treated as raising TypeError where the source would store them under that
  key.
- Entities.Calculated.constructor: the `locals()` loop also stores the constructor's `self` as an
  attribute named `self`; a reference from the object to itself is not modelled as a field.
- `write_qualifier`: never called, since the qualifier list of `write_parameter` is always empty.
- MaterialLookup.Linear: whether `sorted` raises is decided pairwise over tied points; for list values the sort may never compare some pair the model requires to be orderable, and two dictionaries with the same entries in a different order count as different values.
- Writer.SortById: states sorted and a permutation, not that `list.sort` is stable.
- PyValues.Strip: `str.strip` is modelled on ASCII whitespace and carries no proved contract.
- Readers.LineStep: the branch for a non-material value under the current name cannot occur
  (the collection holds only materials, `Readers.StepKeepsMaterials`) and returns TypeError.
- `Material.import_materialdata`, `plotproperty`, `MaterialProperty.write_csv`, `tabulate` and
  `fix_units`: not part of this model (file output, plotting, or empty bodies).

## Findings

| source | as written | input that shows it | evidently intended | confidence | as-written member | corrected member |
|---|---|---|---|---|---|---|
| materialtools/classes/materialproperty.py:42 | `value =+ c*T**i` assigns, so only the last term is returned | coefficients [1, 1] at T = 1 give 1 | `value += c*T**i`, giving 1 + 1 = 2 as the documented a + b·T + … | not executed | Entities.Calculated.Value | Entities.Calculated.PolynomialValue |
