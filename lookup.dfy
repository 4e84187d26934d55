/** Value lookup on a material's dictionary: `Material.get_value`, `get_points` and `get_units`.

    A material maps property names to property dictionaries; a property holds, under the
    names of its parameters, dictionaries whose `Values` entries are co-indexed lists. A lookup
    finds the dependent values at a query of the independent parameter: the first value when
    there is no query, the co-indexed value on an exact match, and otherwise the nearest
    stored point (within a tolerance) or a linear interpolation between the neighbours of the
    query in the sorted points.
 */
module MaterialLookup {
  import opened PyValues

  function Abs(x: real): real {
    if x < 0.0 then -x else x
  }

  predicate AllNum(vs: seq<Val>) {
    forall i :: 0 <= i < |vs| ==> vs[i].Num?
  }

  function Reals(vs: seq<Val>): (xs: seq<real>)
    requires AllNum(vs)
    ensures |xs| == |vs| && forall i :: 0 <= i < |vs| ==> vs[i] == Num(xs[i])
  {
    seq(|vs|, i requires 0 <= i < |vs| => vs[i].r)
  }

  /** `list.index(x)`: the first position holding `x`. */
  function FirstIndex(vs: seq<Val>, x: Val): (i: nat)
    requires x in vs
    ensures i < |vs| && vs[i] == x && x !in vs[..i]
  {
    if vs[0] == x then 0
    else
      assert x in vs[1..] by {
        var k :| 0 <= k < |vs| && vs[k] == x;
        assert vs[1..][k - 1] == x;
      }
      var j := FirstIndex(vs[1..], x);
      assert vs[..j + 1] == [vs[0]] + vs[1..][..j];
      j + 1
  }

  /** `q in p2values` for a number `q`: element test on a list; a dictionary's keys are
      strings, so a number is never among them; a string or a scalar raises `TypeError`. */
  function NumIn(p2values: Val, q: real): (r: Result<bool>)
    ensures p2values.List? ==> r == Ok(Num(q) in p2values.items)
    ensures IsMapping(p2values) ==> r == Ok(false)
    ensures p2values.Str? || p2values.PyNone? || p2values.Num? ==> r == Err(TypeError)
  {
    match p2values
    case List(items) => Ok(Num(q) in items)
    case Str(_) => Err(TypeError)
    case PyNone => Err(TypeError)
    case Num(_) => Err(TypeError)
    case _ => Ok(false)
  }

  // ---------------------------------------------------------------------------------------
  // Nearest lookup

  function Distances(xs: seq<real>, q: real): (d: seq<real>)
    ensures |d| == |xs| && forall i :: 0 <= i < |xs| ==> d[i] == Abs(xs[i] - q)
  {
    seq(|xs|, i requires 0 <= i < |xs| => Abs(xs[i] - q))
  }

  /** `d.index(min(d))`: the first position of the smallest element. */
  function ArgMin(d: seq<real>): (i: nat)
    requires |d| > 0
    ensures i < |d|
    ensures forall j :: 0 <= j < |d| ==> d[i] <= d[j]
    ensures forall j :: 0 <= j < i ==> d[i] < d[j]
    decreases |d|
  {
    if |d| == 1 then 0
    else
      var k := 1 + ArgMin(d[1..]);
      assert forall j :: 1 <= j < |d| ==> d[j] == d[1..][j - 1];
      if d[0] <= d[k] then 0 else k
  }

  /** The `nearest` branch: distances to every point of the axis (any non-number raises
      `TypeError`, no point raises `ValueError`), the dependent value at the first closest
      point (read before the tolerance test, so a short value list raises first), and `None`
      when even that point is farther than the tolerance. */
  function Nearest(axis: seq<Val>, q: real, tolerance: real, values: Val): (r: Result<Val>)
    ensures !AllNum(axis) ==> r == Err(TypeError)
    ensures AllNum(axis) && |axis| == 0 ==> r == Err(ValueError)
  {
    if !AllNum(axis) then Err(TypeError)
    else if |axis| == 0 then Err(ValueError)
    else
      var d := Distances(Reals(axis), q);
      var best := ArgMin(d);
      var bestvalue :- At(values, best);
      if d[best] > tolerance then Ok(PyNone) else Ok(bestvalue)
  }

  /** The nearest lookup picks the first of the closest points, and gives `None` exactly when
      its distance exceeds the tolerance (a distance equal to the tolerance is accepted). */
  lemma NearestPicksFirstClosest(axis: seq<Val>, q: real, tolerance: real, values: Val, i: nat)
    requires AllNum(axis) && i < |axis|
    requires forall j :: 0 <= j < |axis| ==> Abs(axis[i].r - q) <= Abs(axis[j].r - q)
    requires forall j :: 0 <= j < i ==> Abs(axis[i].r - q) < Abs(axis[j].r - q)
    ensures At(values, i).Err? ==> Nearest(axis, q, tolerance, values) == At(values, i)
    ensures At(values, i).Ok? ==>
      Nearest(axis, q, tolerance, values) == (if Abs(axis[i].r - q) > tolerance then Ok(PyNone) else At(values, i))
  {
    var d := Distances(Reals(axis), q);
    var best := ArgMin(d);
    assert d[i] <= d[best] && d[best] <= d[i];
    assert best == i;
  }

  // ---------------------------------------------------------------------------------------
  // Linear lookup

  /** Python's `<` between two values that `==` finds different completes: numbers with
      numbers, strings with strings, and lists whose first differing elements compare (a
      list that is a prefix of the other compares by length). */
  predicate Orderable(a: Val, b: Val) {
    a == b ||
    (a.Num? && b.Num?) || (a.Str? && b.Str?) ||
    (a.List? && b.List? &&
     forall k :: 0 <= k < |a.items| && k < |b.items| && a.items[..k] == b.items[..k] && a.items[k] != b.items[k] ==>
       Orderable(a.items[k], b.items[k]))
  }

  /** `sorted(list(zip(xs, ys)) + [(q, None)])` completes: the sentinel is compared with the
      points, so every zipped point must be a number; tuples compare item by item with `==`
      first, so two points that tie are ordered by their values only when those differ, and
      then the values must be orderable. */
  predicate Sortable(axis: seq<Val>, ys: seq<Val>)
    requires |axis| == |ys|
  {
    AllNum(axis) &&
    forall i, j :: 0 <= i < j < |axis| && axis[i] == axis[j] ==> Orderable(ys[i], ys[j])
  }

  /** The number of pairs `zip` makes of two lists. */
  function Zipped(axis: seq<Val>, ys: seq<Val>): (n: nat)
    ensures n <= |axis| && n <= |ys| && (n == |axis| || n == |ys|)
  {
    if |axis| < |ys| then |axis| else |ys|
  }

  /** The largest point below `q`. */
  function MaxBelow(xs: seq<real>, q: real): (m: Option<real>)
    ensures m.None? <==> forall i :: 0 <= i < |xs| ==> xs[i] >= q
    ensures m.Some? ==> m.value < q && m.value in xs
    ensures m.Some? ==> forall i :: 0 <= i < |xs| && xs[i] < q ==> xs[i] <= m.value
  {
    if |xs| == 0 then None
    else
      var m := MaxBelow(xs[1..], q);
      assert forall i :: 1 <= i < |xs| ==> xs[i] == xs[1..][i - 1];
      if xs[0] >= q || (m.Some? && m.value >= xs[0]) then m else Some(xs[0])
  }

  /** The smallest point above `q`. */
  function MinAbove(xs: seq<real>, q: real): (m: Option<real>)
    ensures m.None? <==> forall i :: 0 <= i < |xs| ==> xs[i] <= q
    ensures m.Some? ==> m.value > q && m.value in xs
    ensures m.Some? ==> forall i :: 0 <= i < |xs| && xs[i] > q ==> m.value <= xs[i]
  {
    if |xs| == 0 then None
    else
      var m := MinAbove(xs[1..], q);
      assert forall i :: 1 <= i < |xs| ==> xs[i] == xs[1..][i - 1];
      if xs[0] <= q || (m.Some? && m.value <= xs[0]) then m else Some(xs[0])
  }

  /** The largest point. */
  function MaxOf(xs: seq<real>): (m: real)
    requires |xs| > 0
    ensures m in xs && forall i :: 0 <= i < |xs| ==> xs[i] <= m
  {
    if |xs| == 1 then xs[0]
    else
      var m := MaxOf(xs[1..]);
      assert forall i :: 1 <= i < |xs| ==> xs[i] == xs[1..][i - 1];
      if xs[0] >= m then xs[0] else m
  }

  /** Among the pairs at point `x`, the last one in sorted order: the largest value, when every
      value paired with `x` is a number. */
  function GroupMax(xs: seq<real>, ys: seq<Val>, x: real): (m: Option<real>)
    requires |xs| == |ys|
    ensures m.Some? <==> x in xs && forall i :: 0 <= i < |xs| && xs[i] == x ==> ys[i].Num?
    ensures m.Some? ==> exists i :: 0 <= i < |xs| && xs[i] == x && ys[i] == Num(m.value)
    ensures m.Some? ==> forall i :: 0 <= i < |xs| && xs[i] == x ==> ys[i].Num? && ys[i].r <= m.value
  {
    if |xs| == 0 then None
    else
      var m := GroupMax(xs[1..], ys[1..], x);
      assert forall i :: 1 <= i < |xs| ==> xs[i] == xs[1..][i - 1] && ys[i] == ys[1..][i - 1];
      if xs[0] != x then m
      else if !ys[0].Num? then None
      else if x !in xs[1..] then Some(ys[0].r)
      else if m.None? then None
      else if ys[0].r >= m.value then Some(ys[0].r)
      else m
  }

  /** Among the pairs at point `x`, the first one in sorted order: the smallest value, when
      every value paired with `x` is a number. */
  function GroupMin(xs: seq<real>, ys: seq<Val>, x: real): (m: Option<real>)
    requires |xs| == |ys|
    ensures m.Some? <==> x in xs && forall i :: 0 <= i < |xs| && xs[i] == x ==> ys[i].Num?
    ensures m.Some? ==> exists i :: 0 <= i < |xs| && xs[i] == x && ys[i] == Num(m.value)
    ensures m.Some? ==> forall i :: 0 <= i < |xs| && xs[i] == x ==> ys[i].Num? && m.value <= ys[i].r
  {
    if |xs| == 0 then None
    else
      var m := GroupMin(xs[1..], ys[1..], x);
      assert forall i :: 1 <= i < |xs| ==> xs[i] == xs[1..][i - 1] && ys[i] == ys[1..][i - 1];
      if xs[0] != x then m
      else if !ys[0].Num? then None
      else if x !in xs[1..] then Some(ys[0].r)
      else if m.None? then None
      else if ys[0].r <= m.value then Some(ys[0].r)
      else m
  }

  /** `y2 - (x2 - q)*(y2 - y1)/(x2 - x1)`. */
  function Interpolate(x1: real, y1: real, x2: real, y2: real, q: real): real
    requires x1 != x2
  {
    y2 - (x2 - q) * (y2 - y1) / (x2 - x1)
  }

  /** Between its neighbours the interpolated value agrees with the usual form measured from
      the lower neighbour, and lies between the two neighbouring values. */
  lemma InterpolateBetween(x1: real, y1: real, x2: real, y2: real, q: real)
    requires x1 < q < x2
    ensures Interpolate(x1, y1, x2, y2, q) == y1 + (q - x1) * (y2 - y1) / (x2 - x1)
    ensures y1 <= y2 ==> y1 <= Interpolate(x1, y1, x2, y2, q) <= y2
    ensures y2 <= y1 ==> y2 <= Interpolate(x1, y1, x2, y2, q) <= y1
  {
    var w, a, b, dy := x2 - x1, x2 - q, q - x1, y2 - y1;
    var u, v := a * dy / w, b * dy / w;
    SplitQuotient(a * dy, b * dy, w);
    assert a * dy + b * dy == w * dy;
    assert u + v == dy;
    if y1 <= y2 {
      SignOfQuotient(a, dy, w);
      SignOfQuotient(b, dy, w);
    } else {
      SignOfQuotient(a, -dy, w);
      SignOfQuotient(b, -dy, w);
      assert a * (-dy) / w == -u && b * (-dy) / w == -v;
    }
  }

  lemma SplitQuotient(m: real, n: real, w: real)
    requires w > 0.0
    ensures m / w + n / w == (m + n) / w
    ensures (m + n) / w * w == m + n
  {
  }

  lemma SignOfQuotient(a: real, c: real, w: real)
    requires a > 0.0 && c >= 0.0 && w > 0.0
    ensures a * c / w >= 0.0
  {
  }

  /** The `try` block between the extremes: the pair just below the sentinel `(q, None)` in
      the sorted list and the pair just above it. With no point below `q`, Python's index -1
      wraps round to the largest pair. Any failure inside the block (no pair above, a
      non-number value, a zero divisor) ends in the handler printing a variable that was never
      bound, so it surfaces as `UnboundLocalError`. */
  function Interior(xs: seq<real>, ys: seq<Val>, q: real): (r: Result<Val>)
    requires |xs| == |ys|
    requires q !in xs
  {
    if |xs| == 0 then Err(UnboundLocalError)
    else
      var x1 := match MaxBelow(xs, q) case Some(x) => x case None => MaxOf(xs);
      match MinAbove(xs, q)
      case None => Err(UnboundLocalError)
      case Some(x2) =>
        match (GroupMax(xs, ys, x1), GroupMin(xs, ys, x2))
        case (Some(y1), Some(y2)) =>
          if x1 == x2 then Err(UnboundLocalError) else Ok(Num(Interpolate(x1, y1, x2, y2, q)))
        case _ => Err(UnboundLocalError)
  }

  /** With zipped points on both sides of `q`, the neighbours straddle it (so the divisor is
      never zero) and the interpolated value lies between the neighbouring values. */
  lemma InteriorStraddles(xs: seq<real>, ys: seq<Val>, q: real)
    requires |xs| == |ys| && q !in xs
    requires exists i :: 0 <= i < |xs| && xs[i] < q
    requires exists i :: 0 <= i < |xs| && xs[i] > q
    ensures var x1, x2 := MaxBelow(xs, q).value, MinAbove(xs, q).value;
      x1 < q < x2 &&
      match (GroupMax(xs, ys, x1), GroupMin(xs, ys, x2))
      case (Some(y1), Some(y2)) =>
        Interior(xs, ys, q) == Ok(Num(Interpolate(x1, y1, x2, y2, q))) &&
        (y1 <= y2 ==> y1 <= Interpolate(x1, y1, x2, y2, q) <= y2) &&
        (y2 <= y1 ==> y2 <= Interpolate(x1, y1, x2, y2, q) <= y1)
      case _ => Interior(xs, ys, q) == Err(UnboundLocalError)
  {
    var x1, x2 := MaxBelow(xs, q).value, MinAbove(xs, q).value;
    match (GroupMax(xs, ys, x1), GroupMin(xs, ys, x2))
    case (Some(y1), Some(y2)) =>
      InterpolateBetween(x1, y1, x2, y2, q);
    case _ =>
  }

  /** The `linear` branch. `zip` stops at the shorter list, so only the first
      `min(len(p2values), len(values))` points take part in the sort; the range tests use all
      of `p2values` (`min`/`max`), and measure the tolerance to the FIRST and LAST stored points
      rather than to the extremes. */
  function Linear(p2values: Val, axis: seq<Val>, q: real, tolerance: real, values: Val): (r: Result<Val>)
    requires Iter(p2values) == Ok(axis)
    requires Num(q) !in axis
    ensures Iter(values).Err? ==> r == Err(Iter(values).error)
    // the sort raises on incomparable points, `min` on an empty list
    ensures Iter(values).Ok? && !Sortable(axis[..Zipped(axis, Iter(values).value)],
                                          Iter(values).value[..Zipped(axis, Iter(values).value)]) ==>
      r == Err(TypeError)
    ensures Iter(values).Ok? && !AllNum(axis) ==> r == Err(TypeError)
    ensures Iter(values).Ok? && |axis| == 0 ==> r == Err(ValueError)
    // below the stored points: the first value within the tolerance of the FIRST point, else ValueError
    ensures Iter(values).Ok? && Sortable(axis[..Zipped(axis, Iter(values).value)],
                                         Iter(values).value[..Zipped(axis, Iter(values).value)]) &&
            AllNum(axis) && |axis| > 0 && (forall i :: 0 <= i < |axis| ==> q < axis[i].r) ==>
      r == if Abs(q - axis[0].r) < tolerance then At(values, 0) else Err(ValueError)
    // above the stored points: the last value within the tolerance of the LAST point, else ValueError
    ensures Iter(values).Ok? && Sortable(axis[..Zipped(axis, Iter(values).value)],
                                         Iter(values).value[..Zipped(axis, Iter(values).value)]) &&
            AllNum(axis) && |axis| > 0 && (forall i :: 0 <= i < |axis| ==> q > axis[i].r) ==>
      r == if Abs(q - axis[|axis| - 1].r) < tolerance then At(values, -1) else Err(ValueError)
  {
    var ys :- Iter(values);
    var n := Zipped(axis, ys);
    if !Sortable(axis[..n], ys[..n]) then Err(TypeError)
    else if !AllNum(axis) then Err(TypeError)
    else if |axis| == 0 then Err(ValueError)
    else
      var xs := Reals(axis);
      if forall i :: 0 <= i < |xs| ==> q < xs[i] then
        if Abs(q - xs[0]) < tolerance then At(values, 0) else Err(ValueError)
      else if forall i :: 0 <= i < |xs| ==> q > xs[i] then
        if Abs(q - xs[|xs| - 1]) < tolerance then At(values, -1) else Err(ValueError)
      else
        assert q !in xs[..n] by {
          forall i | 0 <= i < n ensures xs[..n][i] != q {
            assert axis[i] == Num(xs[i]);
          }
        }
        Interior(xs[..n], ys[..n], q)
  }

  /** Inside the range of the stored points, with as many values as points, the linear
      lookup is the interpolation between the neighbours of the query. */
  lemma LinearInRange(axis: seq<Val>, q: real, tolerance: real, ys: seq<Val>)
    requires Num(q) !in axis && |axis| == |ys| && Sortable(axis, ys)
    requires exists i :: 0 <= i < |axis| && axis[i].r < q
    requires exists i :: 0 <= i < |axis| && axis[i].r > q
    ensures q !in Reals(axis)
    ensures Linear(List(axis), axis, q, tolerance, List(ys)) == Interior(Reals(axis), ys, q)
  {
    var xs := Reals(axis);
    var n := |axis|;
    assert axis[..n] == axis && ys[..n] == ys && xs[..n] == xs;
    assert Iter(List(ys)) == Ok(ys);
    var i :| 0 <= i < |axis| && axis[i].r < q;
    var j :| 0 <= j < |axis| && axis[j].r > q;
    assert xs[i] < q && xs[j] > q;
    assert !(forall k :: 0 <= k < |xs| ==> q < xs[k]);
    assert !(forall k :: 0 <= k < |xs| ==> q > xs[k]);
    assert q !in xs by {
      forall k | 0 <= k < |xs| ensures xs[k] != q {
        assert axis[k] == Num(xs[k]);
      }
    }
  }

  // ---------------------------------------------------------------------------------------
  // get_value

  /** The dependent values: `prop[dep]['Values']`, or on any failure `prop['Values']`. */
  function DependentValues(prop: Val, dep: string): (r: Result<Val>)
    ensures Index(prop, dep).Ok? && Index(Index(prop, dep).value, "Values").Ok? ==>
      r == Index(Index(prop, dep).value, "Values")
    ensures (Index(prop, dep).Err? || Index(Index(prop, dep).value, "Values").Err?) ==>
      r == Index(prop, "Values")
  {
    match Index(prop, dep)
    case Ok(p) => (match Index(p, "Values") case Ok(v) => Ok(v) case Err(_) => Index(prop, "Values"))
    case Err(_) => Index(prop, "Values")
  }

  /** The dependent parameter's name: `'auto'` stands for the property itself. */
  function Dependent(propertyname: string, parameter1: string): string {
    if parameter1 == "auto" then propertyname else parameter1
  }

  /** The checks `get_value` asserts before reading anything: the property is in the
      material, and both parameters are in the property. */
  function Checked(md: ODict<string, Val>, propertyname: string, parameter2: string, parameter1: string): (r: Result<Val>)
    ensures !HasKey(md, propertyname) ==> r == Err(AssertionError)
    ensures r.Ok? ==> HasKey(md, propertyname) && r.value == Get(md, propertyname)
    ensures r.Ok? ==> Contains(r.value, Dependent(propertyname, parameter1)) == Ok(true)
    ensures r.Ok? ==> Contains(r.value, parameter2) == Ok(true)
    ensures HasKey(md, propertyname) && Contains(Get(md, propertyname), Dependent(propertyname, parameter1)) == Ok(false) ==>
      r == Err(AssertionError)
    ensures (HasKey(md, propertyname) && Contains(Get(md, propertyname), Dependent(propertyname, parameter1)) == Ok(true) &&
             Contains(Get(md, propertyname), parameter2) == Ok(false)) ==> r == Err(AssertionError)
  {
    if !HasKey(md, propertyname) then Err(AssertionError)
    else
      var prop := Get(md, propertyname);
      var hasDependent :- Contains(prop, Dependent(propertyname, parameter1));
      if !hasDependent then Err(AssertionError)
      else
        var hasIndependent :- Contains(prop, parameter2);
        if !hasIndependent then Err(AssertionError) else Ok(prop)
  }

  /** The first position of `x` among the stored independent values, when those are a list
      holding `x`. */
  function ExactIndex(prop: Val, parameter2: string, x: real): Option<nat> {
    match Index(prop, parameter2)
    case Err(_) => None
    case Ok(p2) =>
      match Index(p2, "Values")
      case Err(_) => None
      case Ok(v) => if v.List? && Num(x) in v.items then Some(FirstIndex(v.items, Num(x))) else None
  }

  /** `Material.get_value` for a stored property. */
  function StoredValue(md: ODict<string, Val>, propertyname: string, q: Option<real>, parameter2: string,
                       parameter1: string, tolerance: real, how: string): (r: Result<Val>)
    // the assertions come first
    ensures Checked(md, propertyname, parameter2, parameter1).Err? ==> r == Checked(md, propertyname, parameter2, parameter1)
    // no query: the first dependent value, without reading the independent parameter
    ensures Checked(md, propertyname, parameter2, parameter1).Ok? && q.None? ==>
      var values := DependentValues(Get(md, propertyname), Dependent(propertyname, parameter1));
      r == if values.Ok? then At(values.value, 0) else values
    // an exact match: the dependent value at the first position of the query
    ensures (Checked(md, propertyname, parameter2, parameter1).Ok? && q.Some? &&
             DependentValues(Get(md, propertyname), Dependent(propertyname, parameter1)).Ok? &&
             ExactIndex(Get(md, propertyname), parameter2, q.value).Some?) ==>
        r == At(DependentValues(Get(md, propertyname), Dependent(propertyname, parameter1)).value,
                ExactIndex(Get(md, propertyname), parameter2, q.value).value)
  {
    var prop :- Checked(md, propertyname, parameter2, parameter1);
    var values :- DependentValues(prop, Dependent(propertyname, parameter1));
    match q
    case None => At(values, 0)
    case Some(x) =>
      match Index(prop, parameter2)
      case Err(e) => Err(e)
      case Ok(p2) =>
        match Index(p2, "Values")
        case Err(e) => Err(e)
        case Ok(p2values) =>
          match NumIn(p2values, x)
          case Err(e) => Err(e)
          case Ok(exact) =>
            if exact then At(values, FirstIndex(p2values.items, Num(x)))
            else
              var axis := Iter(p2values).value;
              if how == "nearest" then Nearest(axis, x, tolerance, values)
              else if how == "linear" then Linear(p2values, axis, x, tolerance, values)
              else Err(UnboundLocalError)
  }

  /** A method other than `nearest` or `linear` never binds the result, so a query that is
      neither absent nor an exact match ends in `UnboundLocalError`. */
  lemma UnknownMethodRaises(md: ODict<string, Val>, propertyname: string, x: real, parameter2: string,
                            parameter1: string, tolerance: real, how: string)
    requires how != "nearest" && how != "linear"
    requires Checked(md, propertyname, parameter2, parameter1).Ok?
    requires DependentValues(Get(md, propertyname), Dependent(propertyname, parameter1)).Ok?
    requires Index(Get(md, propertyname), parameter2).Ok?
    requires Index(Index(Get(md, propertyname), parameter2).value, "Values").Ok?
    requires NumIn(Index(Index(Get(md, propertyname), parameter2).value, "Values").value, x) == Ok(false)
    ensures StoredValue(md, propertyname, Some(x), parameter2, parameter1, tolerance, how) == Err(UnboundLocalError)
  {
  }

  // ---------------------------------------------------------------------------------------
  // get_points and get_units

  /** `Material.get_points`: `self[propertyname][parametername]['Values']`. */
  function Points(md: ODict<string, Val>, propertyname: string, parametername: string): (r: Result<Val>)
    ensures !HasKey(md, propertyname) ==> r == Err(KeyError)
    ensures r.Ok? ==> (HasKey(md, propertyname) &&
      Index(Get(md, propertyname), parametername).Ok? &&
      r == Index(Index(Get(md, propertyname), parametername).value, "Values"))
    ensures HasKey(md, propertyname) ==>
      var parameter := Index(Get(md, propertyname), parametername);
      (parameter.Err? ==> r == Err(parameter.error)) &&
      (parameter.Ok? ==> r == Index(parameter.value, "Values"))
  {
    if !HasKey(md, propertyname) then Err(KeyError)
    else
      var parameter :- Index(Get(md, propertyname), parametername);
      Index(parameter, "Values")
  }

  /** `Material.get_units`: the first entry of `self[propertyname][parametername]["Units"]`. */
  function Units(md: ODict<string, Val>, propertyname: string, parametername: string): (r: Result<Val>)
    ensures !HasKey(md, propertyname) ==> r == Err(KeyError)
    ensures r.Ok? ==> (HasKey(md, propertyname) &&
      Index(Get(md, propertyname), parametername).Ok? &&
      Index(Index(Get(md, propertyname), parametername).value, "Units").Ok? &&
      r == At(Index(Index(Get(md, propertyname), parametername).value, "Units").value, 0))
    ensures HasKey(md, propertyname) ==>
      var parameter := Index(Get(md, propertyname), parametername);
      (parameter.Err? ==> r == Err(parameter.error)) &&
      (parameter.Ok? && Index(parameter.value, "Units").Err? ==> r == Err(Index(parameter.value, "Units").error)) &&
      (parameter.Ok? && Index(parameter.value, "Units").Ok? ==> r == At(Index(parameter.value, "Units").value, 0))
  {
    if !HasKey(md, propertyname) then Err(KeyError)
    else
      var parameter :- Index(Get(md, propertyname), parametername);
      var units :- Index(parameter, "Units");
      At(units, 0)
  }
}

/** Worked lookups on a small elasticity table. */
module LookupExamples {
  import opened PyValues
  import opened MaterialLookup

  /** A material whose `Elasticity` property holds Young's modulus at 20, 500 and 1000. */
  function Steel(): ODict<string, Val> {
    [("Elasticity", Elasticity())]
  }

  function Elasticity(): Val {
    Dict([("Temperature", Dict([("Values", List(SteelAxis()))])), ("Young's Modulus", Dict([("Values", List(SteelModulus()))]))])
  }

  function SteelAxis(): seq<Val> {
    [Num(20.0), Num(500.0), Num(1000.0)]
  }

  function SteelModulus(): seq<Val> {
    [Num(210000000000.0), Num(180000000000.0), Num(150000000000.0)]
  }

  /** The property passes the checks, its dependent values are the moduli and its independent
      values the temperatures; 250 and 550 are not stored temperatures. */
  lemma SteelReads(x: real)
    requires x == 250.0 || x == 550.0
    ensures HasKey(Steel(), "Elasticity") && Get(Steel(), "Elasticity") == Elasticity()
    ensures Checked(Steel(), "Elasticity", "Temperature", "Young's Modulus") == Ok(Elasticity())
    ensures DependentValues(Elasticity(), "Young's Modulus") == Ok(List(SteelModulus()))
    ensures Index(Elasticity(), "Temperature").Ok?
    ensures Index(Index(Elasticity(), "Temperature").value, "Values") == Ok(List(SteelAxis()))
    ensures NumIn(List(SteelAxis()), x) == Ok(false)
  {
    SteelChecked();
    SteelColumns();
    assert Num(x) !in SteelAxis();
  }

  lemma SteelChecked()
    ensures HasKey(Steel(), "Elasticity") && Get(Steel(), "Elasticity") == Elasticity()
    ensures Checked(Steel(), "Elasticity", "Temperature", "Young's Modulus") == Ok(Elasticity())
  {
    var md := Steel();
    assert md[0].0 == "Elasticity";
    var prop := md[0].1;
    assert Get(md, "Elasticity") == prop;
    assert prop.entries[0].0 == "Temperature" && prop.entries[1].0 == "Young's Modulus";
    assert HasKey(prop.entries, "Young's Modulus") && HasKey(prop.entries, "Temperature");
  }

  lemma SteelColumns()
    ensures DependentValues(Elasticity(), "Young's Modulus") == Ok(List(SteelModulus()))
    ensures Index(Elasticity(), "Temperature").Ok?
    ensures Index(Index(Elasticity(), "Temperature").value, "Values") == Ok(List(SteelAxis()))
  {
    var prop := Elasticity();
    assert prop.entries[0].0 == "Temperature" && prop.entries[1].0 == "Young's Modulus";
    assert HasKey(prop.entries, "Young's Modulus") && HasKey(prop.entries, "Temperature");
    var modulus := prop.entries[1].1;
    assert Index(prop, "Young's Modulus") == Ok(modulus);
    assert modulus.entries[0].0 == "Values";
    assert Index(modulus, "Values") == Ok(List(SteelModulus()));
    var temperature := prop.entries[0].1;
    assert Index(prop, "Temperature") == Ok(temperature);
    assert temperature.entries[0].0 == "Values";
    assert Index(temperature, "Values") == Ok(List(SteelAxis()));
  }

  /** With the checks passed and no exact match, `get_value` hands over to the branch its
      `method` names. */
  lemma StoredValueBranches(md: ODict<string, Val>, propertyname: string, x: real, parameter2: string,
                            parameter1: string, tolerance: real, how: string, prop: Val, values: Val, axis: seq<Val>)
    requires Checked(md, propertyname, parameter2, parameter1) == Ok(prop)
    requires DependentValues(prop, Dependent(propertyname, parameter1)) == Ok(values)
    requires Index(prop, parameter2).Ok? && Index(Index(prop, parameter2).value, "Values") == Ok(List(axis))
    requires Num(x) !in axis
    ensures how == "nearest" ==>
      StoredValue(md, propertyname, Some(x), parameter2, parameter1, tolerance, how) == Nearest(axis, x, tolerance, values)
    ensures how == "linear" ==>
      StoredValue(md, propertyname, Some(x), parameter2, parameter1, tolerance, how) == Linear(List(axis), axis, x, tolerance, values)
  {
  }

  /** Between 20 and 500 the modulus is interpolated on the straight line through the two
      stored points: at 250 it is 195.625e9. */
  lemma LinearBetweenPoints()
    ensures StoredValue(Steel(), "Elasticity", Some(250.0), "Temperature", "Young's Modulus", 100.0, "linear")
            == Ok(Num(195625000000.0))
  {
    SteelReads(250.0);
    StoredValueBranches(Steel(), "Elasticity", 250.0, "Temperature", "Young's Modulus", 100.0, "linear",
                        Elasticity(), List(SteelModulus()), SteelAxis());
    SteelLinear();
  }

  lemma SteelLinear()
    ensures Linear(List(SteelAxis()), SteelAxis(), 250.0, 100.0, List(SteelModulus())) == Ok(Num(195625000000.0))
  {
    var axis, ys := SteelAxis(), SteelModulus();
    assert Sortable(axis, ys);
    assert Num(250.0) !in axis;
    assert axis[0].r < 250.0 && axis[1].r > 250.0;
    LinearInRange(axis, 250.0, 100.0, ys);
    assert Reals(axis) == [20.0, 500.0, 1000.0];
    SteelInterior();
  }

  lemma SteelInterior()
    ensures Interior([20.0, 500.0, 1000.0], SteelModulus(), 250.0) == Ok(Num(195625000000.0))
  {
    var xs, ys := [20.0, 500.0, 1000.0], SteelModulus();
    assert MaxBelow(xs, 250.0) == Some(20.0);
    assert MinAbove(xs, 250.0) == Some(500.0);
    assert GroupMax(xs, ys, 20.0) == Some(210000000000.0);
    assert GroupMin(xs, ys, 500.0) == Some(180000000000.0);
  }

  /** The nearest point to 550 is 500, 50 away: accepted with a tolerance of 100, refused
      (`None`) with a tolerance of 10. */
  lemma NearestWithinTolerance()
    ensures StoredValue(Steel(), "Elasticity", Some(550.0), "Temperature", "Young's Modulus", 100.0, "nearest")
            == Ok(Num(180000000000.0))
    ensures StoredValue(Steel(), "Elasticity", Some(550.0), "Temperature", "Young's Modulus", 10.0, "nearest")
            == Ok(PyNone)
  {
    SteelReads(550.0);
    StoredValueBranches(Steel(), "Elasticity", 550.0, "Temperature", "Young's Modulus", 100.0, "nearest",
                        Elasticity(), List(SteelModulus()), SteelAxis());
    StoredValueBranches(Steel(), "Elasticity", 550.0, "Temperature", "Young's Modulus", 10.0, "nearest",
                        Elasticity(), List(SteelModulus()), SteelAxis());
    SteelNearest(100.0);
    SteelNearest(10.0);
  }

  lemma SteelNearest(tolerance: real)
    ensures Nearest(SteelAxis(), 550.0, tolerance, List(SteelModulus())) ==
            if 50.0 > tolerance then Ok(PyNone) else Ok(Num(180000000000.0))
  {
    var axis := SteelAxis();
    assert Abs(axis[0].r - 550.0) == 530.0 && Abs(axis[1].r - 550.0) == 50.0 && Abs(axis[2].r - 550.0) == 450.0;
    assert At(List(SteelModulus()), 1) == Ok(Num(180000000000.0));
    NearestPicksFirstClosest(axis, 550.0, tolerance, List(SteelModulus()), 1);
  }

  /** Two points tied at 1 with equal values `None` sort without comparing the values, so a
      query at 0 within the tolerance of the first point gives the first value, `None`; two
      tied points whose values are `None` and a number cannot be sorted. */
  lemma TiedEqualValuesSort()
    ensures Linear(List([Num(1.0), Num(1.0)]), [Num(1.0), Num(1.0)], 0.0, 100.0, List([PyNone, PyNone])) == Ok(PyNone)
    ensures Linear(List([Num(1.0), Num(1.0)]), [Num(1.0), Num(1.0)], 0.0, 100.0, List([PyNone, Num(2.0)])) == Err(TypeError)
  {
    var axis := [Num(1.0), Num(1.0)];
    assert axis[..2] == axis;
    assert [PyNone, PyNone][..2] == [PyNone, PyNone];
    assert [PyNone, Num(2.0)][..2] == [PyNone, Num(2.0)];
    assert !Orderable(PyNone, Num(2.0));
  }
}
