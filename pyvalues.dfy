/** Python values and the built-in operations the material-property model relies on.

    The library stores everything in dictionaries (materials, properties and parameters are
    `dict` subclasses), so the model works on one datatype of Python values. Dictionaries keep
    insertion order, as Python's do, and are association lists with at most one pair per key.
 */
module PyValues {

  datatype Option<+T> = None | Some(value: T)

  /** The exceptions the library raises or lets escape. */
  datatype Error =
    | AssertionError
    | KeyError
    | IndexError
    | TypeError
    | ValueError
    | ZeroDivisionError
    | UnboundLocalError
    | AttributeError

  datatype Result<+T> = Ok(value: T) | Err(error: Error) {
    predicate IsFailure() { Err? }
    function PropagateFailure<U>(): Result<U> requires Err? { Err(error) }
    function Extract(): T requires Ok? { value }
  }

  /** An ordered dictionary: pairs in insertion order. */
  type ODict<K, V> = seq<(K, V)>

  /** A Python value as the library sees it. `Prop` and `Param` are the `MaterialProperty` and
      `MaterialParameter` dict subclasses: they carry their `.name` attribute beside their
      entries, and `type(x) is MaterialProperty` is `x.Prop?`. Python's int and float are both
      `Num`. */
  datatype Val =
    | PyNone
    | Str(s: string)
    | Num(r: real)
    | List(items: seq<Val>)
    | Dict(entries: ODict<string, Val>)
    | Prop(name: Val, entries: ODict<string, Val>)
    | Param(name: Val, entries: ODict<string, Val>)

  /** The text Python's `str` gives a number; rendering of floats is left abstract. */
  type NumText = real -> string

  /** Python's `float` on a string: an abstract partial parser. */
  type NumParser = string -> Option<real>

  // ---------------------------------------------------------------------------------------
  // Ordered dictionaries

  predicate HasKey<K(==,!new), V>(d: ODict<K, V>, k: K) {
    exists i :: 0 <= i < |d| && d[i].0 == k
  }

  predicate UniqueKeys<K(==,!new), V>(d: ODict<K, V>) {
    forall i, j :: 0 <= i < j < |d| ==> d[i].0 != d[j].0
  }

  function Keys<K, V>(d: ODict<K, V>): seq<K> {
    seq(|d|, i requires 0 <= i < |d| => d[i].0)
  }

  /** Position of the (first) pair holding key `k`. */
  function IndexOf<K(==,!new), V>(d: ODict<K, V>, k: K): (i: nat)
    requires HasKey(d, k)
    ensures i < |d| && d[i].0 == k
    ensures forall j :: 0 <= j < i ==> d[j].0 != k
  {
    if d[0].0 == k then 0 else 1 + IndexOf(d[1..], k)
  }

  function Get<K(==,!new), V>(d: ODict<K, V>, k: K): V
    requires HasKey(d, k)
  {
    d[IndexOf(d, k)].1
  }

  /** The value of the first pair holding `k`. */
  lemma GetAt<K(!new), V>(d: ODict<K, V>, i: nat, k: K)
    requires i < |d| && d[i].0 == k
    requires forall j :: 0 <= j < i ==> d[j].0 != k
    ensures HasKey(d, k) && IndexOf(d, k) == i && Get(d, k) == d[i].1
  {
  }

  /** `d[k] = v`: an existing key keeps its position, a new key goes to the end. */
  function Set<K(==,!new), V>(d: ODict<K, V>, k: K, v: V): (r: ODict<K, V>)
    ensures HasKey(r, k) && Get(r, k) == v
    ensures forall k' :: k' != k ==> (HasKey(r, k') <==> HasKey(d, k'))
    ensures forall k' :: k' != k && HasKey(d, k') ==> Get(r, k') == Get(d, k')
    ensures HasKey(d, k) ==> Keys(r) == Keys(d)
    ensures !HasKey(d, k) ==> Keys(r) == Keys(d) + [k] && r == d + [(k, v)]
    ensures UniqueKeys(d) ==> UniqueKeys(r)
  {
    if HasKey(d, k) then
      var i := IndexOf(d, k);
      var r := d[i := (k, v)];
      assert r[i].0 == k;
      assert forall k' :: k' != k && HasKey(d, k') ==> HasKey(r, k') && IndexOf(r, k') == IndexOf(d, k') by {
        forall k' | k' != k && HasKey(d, k') ensures HasKey(r, k') && IndexOf(r, k') == IndexOf(d, k') {
          var j := IndexOf(d, k');
          assert r[j].0 == k';
          assert forall m :: 0 <= m < j ==> r[m].0 != k';
        }
      }
      r
    else
      var r := d + [(k, v)];
      assert r[|d|].0 == k;
      assert forall k' :: k' != k && HasKey(d, k') ==> HasKey(r, k') && IndexOf(r, k') == IndexOf(d, k') by {
        forall k' | k' != k && HasKey(d, k') ensures HasKey(r, k') && IndexOf(r, k') == IndexOf(d, k') {
          var j := IndexOf(d, k');
          assert r[j].0 == k';
          assert forall m :: 0 <= m < j ==> r[m].0 != k';
        }
      }
      r
  }

  /** `d[k] = v` leaves another key's value alone. */
  lemma SetKeeps<K(!new), V>(d: ODict<K, V>, k: K, v: V, other: K)
    requires other != k && HasKey(d, other)
    ensures HasKey(Set(d, k, v), other) && Get(Set(d, k, v), other) == Get(d, other)
  {
  }

  /** `del d[k]` (on a dictionary with unique keys; every pair with key `k` is dropped). */
  function Remove<K(==,!new), V>(d: ODict<K, V>, k: K): (r: ODict<K, V>)
    ensures !HasKey(r, k)
    ensures forall k' :: k' != k ==> (HasKey(r, k') <==> HasKey(d, k'))
    ensures UniqueKeys(d) ==> UniqueKeys(r) && forall k' :: k' != k && HasKey(d, k') ==> Get(r, k') == Get(d, k')
  {
    if |d| == 0 then []
    else
      var rest := Remove(d[1..], k);
      assert forall k' :: HasKey(d, k') <==> (d[0].0 == k' || HasKey(d[1..], k')) by {
        forall k' ensures HasKey(d, k') <==> (d[0].0 == k' || HasKey(d[1..], k')) {
          if HasKey(d, k') && d[0].0 != k' {
            var i := IndexOf(d, k');
            assert d[1..][i - 1].0 == k';
          }
          if HasKey(d[1..], k') {
            var i := IndexOf(d[1..], k');
            assert d[i + 1].0 == k';
          }
        }
      }
      if d[0].0 == k then rest
      else
        var r := [d[0]] + rest;
        assert r[0] == d[0];
        assert forall k' :: HasKey(r, k') <==> (d[0].0 == k' || HasKey(rest, k')) by {
          forall k' ensures HasKey(r, k') <==> (d[0].0 == k' || HasKey(rest, k')) {
            if HasKey(r, k') && d[0].0 != k' {
              var i := IndexOf(r, k');
              assert rest[i - 1].0 == k';
            }
            if HasKey(rest, k') {
              var i := IndexOf(rest, k');
              assert r[i + 1].0 == k';
            }
          }
        }
        if UniqueKeys(d) then
          assert UniqueKeys(d[1..]);
          assert !HasKey(d[1..], d[0].0) by {
            forall i | 0 <= i < |d| - 1 ensures d[1..][i].0 != d[0].0 {
              assert d[1..][i] == d[i + 1];
            }
          }
          assert forall k' :: k' != k && HasKey(d, k') ==> Get(r, k') == Get(d, k') by {
            forall k' | k' != k && HasKey(d, k') ensures Get(r, k') == Get(d, k') {
              if k' != d[0].0 {
                assert IndexOf(r, k') == IndexOf(rest, k') + 1;
                assert IndexOf(d, k') == IndexOf(d[1..], k') + 1;
              }
            }
          }
          r
        else r
  }

  /** The dictionary built from a list of pairs by successive `d[k] = v`, as a Python dict
      literal or a run of `update` calls builds it: the first occurrence fixes the position
      and the last one the value. */
  function FromPairs<K(==,!new), V>(pairs: seq<(K, V)>): (r: ODict<K, V>)
    ensures UniqueKeys(r)
  {
    if |pairs| == 0 then [] else Set(FromPairs(pairs[..|pairs| - 1]), pairs[|pairs| - 1].0, pairs[|pairs| - 1].1)
  }

  /** A key of the built dictionary is a key of some pair. */
  lemma {:induction false} FromPairsHas<K(!new), V>(pairs: seq<(K, V)>, k: K)
    ensures HasKey(FromPairs(pairs), k) <==> HasKey(pairs, k)
    decreases |pairs|
  {
    if |pairs| > 0 {
      var n := |pairs|;
      var init := pairs[..n - 1];
      FromPairsHas(init, k);
      if HasKey(pairs, k) && pairs[n - 1].0 != k {
        assert init[IndexOf(pairs, k)].0 == k;
      }
      if HasKey(init, k) {
        assert pairs[IndexOf(init, k)].0 == k;
      }
    }
  }

  /** Pairs with distinct keys build the dictionary holding exactly those pairs, in order. */
  lemma {:induction false} FromPairsOfUnique<K(!new), V>(pairs: seq<(K, V)>)
    requires UniqueKeys(pairs)
    ensures FromPairs(pairs) == pairs
    decreases |pairs|
  {
    if |pairs| > 0 {
      var n := |pairs|;
      var init := pairs[..n - 1];
      assert UniqueKeys(init) by {
        forall i, j | 0 <= i < j < |init| ensures init[i].0 != init[j].0 {
          assert init[i] == pairs[i] && init[j] == pairs[j];
        }
      }
      FromPairsOfUnique(init);
      assert forall j :: 0 <= j < |init| ==> init[j].0 != pairs[n - 1].0;
      assert pairs == init + [pairs[n - 1]];
    }
  }

  /** `d.update(e)`. */
  function Update<K(==,!new), V>(d: ODict<K, V>, e: ODict<K, V>): (r: ODict<K, V>)
    decreases |e|
  {
    if |e| == 0 then d else Update(Set(d, e[0].0, e[0].1), e[1..])
  }

  lemma {:induction false} UpdateGet<K(!new), V>(d: ODict<K, V>, e: ODict<K, V>, k: K)
    ensures HasKey(Update(d, e), k) <==> HasKey(d, k) || HasKey(e, k)
    ensures HasKey(e, k) && UniqueKeys(e) ==> Get(Update(d, e), k) == Get(e, k)
    ensures !HasKey(e, k) && HasKey(d, k) ==> Get(Update(d, e), k) == Get(d, k)
    decreases |e|
  {
    if |e| > 0 {
      var d' := Set(d, e[0].0, e[0].1);
      UpdateGet(d', e[1..], k);
      assert HasKey(e, k) <==> e[0].0 == k || HasKey(e[1..], k) by {
        if HasKey(e, k) && e[0].0 != k {
          var i := IndexOf(e, k);
          assert e[1..][i - 1].0 == k;
        }
        if HasKey(e[1..], k) {
          var i := IndexOf(e[1..], k);
          assert e[i + 1].0 == k;
        }
      }
      if HasKey(e, k) && UniqueKeys(e) {
        if e[0].0 == k {
          assert !HasKey(e[1..], k) by {
            forall i | 0 <= i < |e| - 1 ensures e[1..][i].0 != k {
              assert e[1..][i] == e[i + 1];
            }
          }
        } else {
          assert UniqueKeys(e[1..]);
          assert IndexOf(e, k) == IndexOf(e[1..], k) + 1;
        }
      }
    }
  }

  // ---------------------------------------------------------------------------------------
  // Loops

  /** A `for` loop over `items` whose body updates a state and may raise: the first
      exception ends the loop. */
  function Fold<S, T>(s: S, items: seq<T>, step: (S, T) -> Result<S>): Result<S>
    decreases |items|
  {
    if |items| == 0 then Ok(s)
    else
      match Fold(s, items[..|items| - 1], step)
      case Ok(t) => step(t, items[|items| - 1])
      case Err(e) => Err(e)
  }

  /** The first `i + 1` elements: the first `i`, then element `i`. */
  lemma TakeNext<T>(s: seq<T>, i: nat)
    requires i < |s|
    ensures s[..i + 1] == s[..i] + [s[i]]
  {
  }

  /** A non-empty run appended to `a`: `a` and all of the run but its last element, then that
      element. */
  lemma SplitLast<T>(a: seq<T>, b: seq<T>)
    requires |b| > 0
    ensures b == b[..|b| - 1] + [b[|b| - 1]]
    ensures a + b == (a + b[..|b| - 1]) + [b[|b| - 1]]
  {
  }

  /** One more pass of the loop. */
  lemma FoldNext<S, T>(s: S, items: seq<T>, step: (S, T) -> Result<S>, i: nat)
    requires i < |items|
    ensures Fold(s, items[..i + 1], step) ==
      match Fold(s, items[..i], step)
      case Ok(t) => step(t, items[i])
      case Err(e) => Err(e)
  {
    assert items[..i + 1][..i] == items[..i];
  }

  /** The loop a `for` statement over `items` runs: each pass applies `step`, and the first
      pass that raises ends the loop with that exception. */
  method FoldLoop<S, T>(s: S, items: seq<T>, step: (S, T) -> Result<S>) returns (r: Result<S>)
    ensures r == Fold(s, items, step)
  {
    var acc := s;
    var i := 0;
    while i < |items|
      invariant 0 <= i <= |items|
      invariant Fold(s, items[..i], step) == Ok(acc)
    {
      FoldNext(s, items, step, i);
      var next := step(acc, items[i]);
      if next.Err? {
        FoldStops(s, items, step, i + 1);
        return next;
      }
      acc := next.value;
      i := i + 1;
    }
    assert items[..i] == items;
    r := Ok(acc);
  }

  /** A loop that ends normally ended its last-but-one pass normally too. */
  lemma FoldInit<S, T>(s: S, items: seq<T>, step: (S, T) -> Result<S>, r: S) returns (t: S)
    requires |items| > 0 && Fold(s, items, step) == Ok(r)
    ensures Fold(s, items[..|items| - 1], step) == Ok(t) && step(t, items[|items| - 1]) == Ok(r)
  {
    t := Fold(s, items[..|items| - 1], step).value;
  }

  /** In a loop that ends normally, every pass ended normally. */
  lemma FoldPass<S, T>(s: S, items: seq<T>, step: (S, T) -> Result<S>, r: S, i: nat) returns (t: S, u: S)
    requires Fold(s, items, step) == Ok(r) && i < |items|
    ensures Fold(s, items[..i], step) == Ok(t) && step(t, items[i]) == Ok(u)
    ensures Fold(s, items[..i + 1], step) == Ok(u)
  {
    if Fold(s, items[..i + 1], step).Err? {
      FoldStops(s, items, step, i + 1);
      assert false;
    }
    FoldNext(s, items, step, i);
    t := Fold(s, items[..i], step).value;
    u := Fold(s, items[..i + 1], step).value;
  }

  /** A property every pass preserves holds when the loop ends normally. */
  lemma {:induction false} FoldInvariant<S, T>(s: S, items: seq<T>, step: (S, T) -> Result<S>, inv: S -> bool, r: S)
    requires forall a, x, b :: inv(a) && step(a, x) == Ok(b) ==> inv(b)
    requires inv(s) && Fold(s, items, step) == Ok(r)
    ensures inv(r)
    decreases |items|
  {
    if |items| > 0 {
      var t := FoldInit(s, items, step, r);
      FoldInvariant(s, items[..|items| - 1], step, inv, t);
    }
  }

  /** A loop whose every pass stores one item's value under that item's key (in the
      dictionary `view` reads off the state) keeps, for each key, the value of the last item
      carrying it, when that value does not depend on the state (`fixed`). */
  lemma {:induction false} FoldLastWins<S, T, K(!new), V>(s: S, items: seq<T>, step: (S, T) -> Result<S>,
                                                             view: S -> ODict<K, V>, key: T -> K, fixed: T -> bool,
                                                             val: T -> V, r: S, i: nat)
    requires forall a, x, b :: step(a, x) == Ok(b) ==> Stores(view(a), view(b), key(x), fixed(x), val(x))
    requires Fold(s, items, step) == Ok(r) && i < |items|
    requires forall j :: i < j < |items| ==> key(items[j]) != key(items[i])
    ensures HasKey(view(r), key(items[i]))
    ensures fixed(items[i]) ==> Get(view(r), key(items[i])) == val(items[i])
    decreases |items|
  {
    var n := |items|;
    var init := items[..n - 1];
    var prev := FoldInit(s, items, step, r);
    assert Stores(view(prev), view(r), key(items[n - 1]), fixed(items[n - 1]), val(items[n - 1]));
    if i < n - 1 {
      assert forall j :: i < j < n - 1 ==> key(init[j]) != key(init[i]) by {
        forall j | i < j < n - 1 ensures key(init[j]) != key(init[i]) {
          assert init[j] == items[j];
        }
      }
      FoldLastWins(s, init, step, view, key, fixed, val, prev, i);
      assert init[i] == items[i];
    }
  }

  /** Key `k` is present in `after` exactly when it is in `before`, with the same value. */
  ghost predicate SameAt<K(!new), V>(before: ODict<K, V>, after: ODict<K, V>, k: K) {
    (HasKey(after, k) <==> HasKey(before, k)) && (HasKey(before, k) ==> Get(after, k) == Get(before, k))
  }

  /** Storing under `k` leaves every other key as it was. */
  lemma SetSameAt<K(!new), V>(d: ODict<K, V>, k: K, v: V)
    ensures forall k' :: k' != k ==> SameAt(d, Set(d, k, v), k')
  {
  }

  /** `after` is `before` with key `k` stored, holding `v` when `fixed`, and nothing else
      changed. */
  ghost predicate Stores<K(!new), V>(before: ODict<K, V>, after: ODict<K, V>, k: K, fixed: bool, v: V) {
    HasKey(after, k) && (fixed ==> Get(after, k) == v) &&
    (forall k' :: k' != k ==> (HasKey(after, k') <==> HasKey(before, k'))) &&
    forall k' :: k' != k && HasKey(before, k') ==> Get(after, k') == Get(before, k')
  }

  /** `d[k] = v` stores `v` under `k` and changes nothing else. */
  lemma SetStores<K(!new), V>(d: ODict<K, V>, k: K, v: V)
    ensures Stores(d, Set(d, k, v), k, true, v)
  {
  }

  /** A step that leaves a present key alone and sets an absent one keeps it. */
  lemma KeepsBySet<K(!new), V>(before: ODict<K, V>, after: ODict<K, V>, k: K, v: V)
    requires HasKey(before, k) ==> after == before
    requires !HasKey(before, k) ==> after == Set(before, k, v)
    ensures Keeps(before, after, k, v)
  {
    if !HasKey(before, k) {
      SetStores(before, k, v);
    }
  }

  /** `if k not in d: d[k] = v`. */
  ghost predicate Keeps<K(!new), V>(before: ODict<K, V>, after: ODict<K, V>, k: K, v: V) {
    (HasKey(before, k) ==> after == before) && (!HasKey(before, k) ==> Stores(before, after, k, true, v))
  }

  /** A key a loop of such passes adds is the key of one of its items. */
  lemma {:induction false} FoldKeyFrom<S, T, K(!new), V>(s: S, items: seq<T>, step: (S, T) -> Result<S>,
                                                         view: S -> ODict<K, V>, key: T -> K, val: T -> V, r: S, k: K)
    requires forall a, x, b :: step(a, x) == Ok(b) ==> Keeps(view(a), view(b), key(x), val(x))
    requires Fold(s, items, step) == Ok(r) && HasKey(view(r), k) && !HasKey(view(s), k)
    ensures exists j :: 0 <= j < |items| && key(items[j]) == k
    decreases |items|
  {
    var n := |items|;
    var prev := FoldInit(s, items, step, r);
    assert Keeps(view(prev), view(r), key(items[n - 1]), val(items[n - 1]));
    if key(items[n - 1]) != k {
      FoldKeyFrom(s, items[..n - 1], step, view, key, val, prev, k);
      var j :| 0 <= j < n - 1 && key(items[..n - 1][j]) == k;
      assert items[..n - 1][j] == items[j];
    }
  }

  /** A loop whose passes store an item's value only under a key not yet present keeps, for
      each key, the value of the first item carrying it. */
  lemma {:induction false} FoldFirstWins<S, T, K(!new), V>(s: S, items: seq<T>, step: (S, T) -> Result<S>,
                                                           view: S -> ODict<K, V>, key: T -> K, val: T -> V, r: S, i: nat)
    requires forall a, x, b :: step(a, x) == Ok(b) ==> Keeps(view(a), view(b), key(x), val(x))
    requires Fold(s, items, step) == Ok(r) && i < |items| && !HasKey(view(s), key(items[i]))
    requires forall j :: 0 <= j < i ==> key(items[j]) != key(items[i])
    ensures HasKey(view(r), key(items[i])) && Get(view(r), key(items[i])) == val(items[i])
    decreases |items|
  {
    var n := |items|;
    var init := items[..n - 1];
    var prev := FoldInit(s, items, step, r);
    assert Keeps(view(prev), view(r), key(items[n - 1]), val(items[n - 1]));
    if i == n - 1 {
      if HasKey(view(prev), key(items[i])) {
        FoldKeyFrom(s, init, step, view, key, val, prev, key(items[i]));
        assert false;
      }
    } else {
      assert init[i] == items[i];
      assert forall j :: 0 <= j < i ==> init[j] == items[j];
      FoldFirstWins(s, init, step, view, key, val, prev, i);
    }
  }

  /** After an exception the remaining passes do not run. */
  lemma {:induction false} FoldStops<S, T>(s: S, items: seq<T>, step: (S, T) -> Result<S>, i: nat)
    requires i <= |items| && Fold(s, items[..i], step).Err?
    ensures Fold(s, items, step) == Fold(s, items[..i], step)
    decreases |items| - i
  {
    if i == |items| {
      assert items[..i] == items;
    } else {
      var n := |items|;
      FoldStopsAt(s, items, step, i, n - 1);
      assert items[..n] == items;
    }
  }

  lemma {:induction false} FoldStopsAt<S, T>(s: S, items: seq<T>, step: (S, T) -> Result<S>, i: nat, j: nat)
    requires i <= j < |items| && Fold(s, items[..i], step).Err?
    ensures Fold(s, items[..j + 1], step) == Fold(s, items[..i], step)
    decreases j - i
  {
    assert items[..j + 1][..j] == items[..j];
    if i < j {
      FoldStopsAt(s, items, step, i, j - 1);
    }
  }

  // ---------------------------------------------------------------------------------------
  // Python operations on values

  predicate IsMapping(v: Val) {
    v.Dict? || v.Prop? || v.Param?
  }

  /** `hash(v)` succeeds: lists and dictionaries (and their subclasses) are unhashable. */
  predicate Hashable(v: Val) {
    v.PyNone? || v.Str? || v.Num?
  }

  /** `v[key]` with a string key. */
  function Index(v: Val, key: string): (r: Result<Val>)
    ensures IsMapping(v) && HasKey(v.entries, key) ==> r == Ok(Get(v.entries, key))
    ensures IsMapping(v) && !HasKey(v.entries, key) ==> r == Err(KeyError)
    ensures !IsMapping(v) ==> r == Err(TypeError)
  {
    if !IsMapping(v) then Err(TypeError)
    else if HasKey(v.entries, key) then Ok(Get(v.entries, key))
    else Err(KeyError)
  }

  /** `sub` occurs in `s` at some position. */
  predicate IsSubstring(sub: string, s: string)
    decreases |s|
  {
    (|sub| <= |s| && s[..|sub|] == sub) || (|s| > 0 && IsSubstring(sub, s[1..]))
  }

  /** `key in v`: key membership for a dictionary, substring test for a string, element test
      for a list; anything else raises `TypeError`. */
  function Contains(v: Val, key: string): (r: Result<bool>)
    ensures IsMapping(v) ==> r == Ok(HasKey(v.entries, key))
    ensures v.Str? ==> r == Ok(IsSubstring(key, v.s))
    ensures v.List? ==> r == Ok(Str(key) in v.items)
    ensures v.PyNone? || v.Num? ==> r == Err(TypeError)
  {
    match v
    case Str(s) => Ok(IsSubstring(key, s))
    case List(items) => Ok(Str(key) in items)
    case PyNone => Err(TypeError)
    case Num(_) => Err(TypeError)
    case _ => Ok(HasKey(v.entries, key))
  }

  /** The items a `for` loop over `v` visits: list elements, dictionary keys, or the
      characters of a string. */
  function Iter(v: Val): (r: Result<seq<Val>>)
    ensures v.List? ==> r == Ok(v.items)
    ensures IsMapping(v) ==> r.Ok? && |r.value| == |v.entries| && forall i :: 0 <= i < |v.entries| ==> r.value[i] == Str(v.entries[i].0)
    ensures v.Str? ==> r.Ok? && |r.value| == |v.s| && forall i :: 0 <= i < |v.s| ==> r.value[i] == Str([v.s[i]])
    ensures v.PyNone? || v.Num? ==> r == Err(TypeError)
  {
    match v
    case List(items) => Ok(items)
    case Str(s) => Ok(seq(|s|, i requires 0 <= i < |s| => Str([s[i]])))
    case PyNone => Err(TypeError)
    case Num(_) => Err(TypeError)
    case _ => Ok(seq(|v.entries|, i requires 0 <= i < |v.entries| => Str(v.entries[i].0)))
  }

  /** Position in a sequence for a Python index (negative counts from the end). */
  function Wrap(i: int, n: nat): int {
    if i < 0 then i + n else i
  }

  /** `v[i]` with an integer index. Dictionary keys in this model are strings, so an integer
      subscript on a dictionary raises `KeyError`. */
  function At(v: Val, i: int): (r: Result<Val>)
    ensures v.List? && 0 <= Wrap(i, |v.items|) < |v.items| ==> r == Ok(v.items[Wrap(i, |v.items|)])
    ensures v.List? && !(0 <= Wrap(i, |v.items|) < |v.items|) ==> r == Err(IndexError)
    ensures v.Str? && 0 <= Wrap(i, |v.s|) < |v.s| ==> r == Ok(Str([v.s[Wrap(i, |v.s|)]]))
    ensures IsMapping(v) ==> r == Err(KeyError)
    ensures v.PyNone? || v.Num? ==> r == Err(TypeError)
  {
    match v
    case List(items) =>
      var j := Wrap(i, |items|);
      if 0 <= j < |items| then Ok(items[j]) else Err(IndexError)
    case Str(s) =>
      var j := Wrap(i, |s|);
      if 0 <= j < |s| then Ok(Str([s[j]])) else Err(IndexError)
    case PyNone => Err(TypeError)
    case Num(_) => Err(TypeError)
    case _ => Err(KeyError)
  }

  // ---------------------------------------------------------------------------------------
  // Strings

  /** `s.find(c)`: the first index of `c`, or -1. */
  function Find(s: string, c: char): (i: int)
    ensures -1 <= i < |s|
    ensures i == -1 <==> c !in s
    ensures 0 <= i ==> s[i] == c && c !in s[..i]
  {
    if |s| == 0 then -1
    else if s[0] == c then 0
    else
      var j := Find(s[1..], c);
      if j == -1 then -1 else j + 1
  }

  /** A Python slice bound: negative counts from the end, then clamped into [0, n]. */
  function SliceBound(i: int, n: nat): (b: nat)
    ensures b <= n
    ensures 0 <= i <= n ==> b == i
  {
    if i < 0 then (if i + n < 0 then 0 else i + n) else if i > n then n else i
  }

  /** `s[a:b]`. */
  function Slice(s: string, a: int, b: int): string {
    var lo, hi := SliceBound(a, |s|), SliceBound(b, |s|);
    if lo < hi then s[lo..hi] else ""
  }

  /** `s[a:]`. */
  function SliceFrom(s: string, a: int): string {
    s[SliceBound(a, |s|)..]
  }

  predicate IsSpace(c: char) {
    c == ' ' || c == '\t' || c == '\n' || c == '\r' || c == '\U{B}' || c == '\U{C}'
  }

  function StripLeft(s: string): (r: string)
  {
    if |s| > 0 && IsSpace(s[0]) then StripLeft(s[1..]) else s
  }

  function StripRight(s: string): (r: string)
  {
    if |s| > 0 && IsSpace(s[|s| - 1]) then StripRight(s[..|s| - 1]) else s
  }

  /** `s.strip()`: whitespace removed from both ends. */
  function Strip(s: string): string {
    StripRight(StripLeft(s))
  }

  /** `s.split(sep)` with a one-character separator: empty pieces are kept. */
  function Split(s: string, sep: char): (parts: seq<string>)
    ensures |parts| >= 1
    ensures forall i :: 0 <= i < |parts| ==> sep !in parts[i]
    decreases |s|
  {
    var i := Find(s, sep);
    if i == -1 then [s] else [s[..i]] + Split(s[i + 1..], sep)
  }

  /** `sep.join(parts)`. */
  function Join(sep: string, parts: seq<string>): string {
    if |parts| == 0 then ""
    else if |parts| == 1 then parts[0]
    else parts[0] + sep + Join(sep, parts[1..])
  }

  /** Splitting and joining back with the same separator gives the original string. */
  lemma {:induction false} JoinSplit(s: string, sep: char)
    ensures Join([sep], Split(s, sep)) == s
    decreases |s|
  {
    var i := Find(s, sep);
    if i != -1 {
      var head, rest := s[..i], s[i + 1..];
      var parts := Split(rest, sep);
      JoinSplit(rest, sep);
      assert Split(s, sep) == [head] + parts;
      assert ([head] + parts)[1..] == parts;
      assert Join([sep], [head] + parts) == head + [sep] + Join([sep], parts);
      assert s == head + [sep] + rest;
    }
  }

  /** Joining pieces that do not contain the separator and splitting again gives the pieces. */
  lemma {:induction false} SplitJoin(parts: seq<string>, sep: char)
    requires |parts| > 0 && forall i :: 0 <= i < |parts| ==> sep !in parts[i]
    ensures Split(Join([sep], parts), sep) == parts
    decreases |parts|
  {
    if |parts| == 1 {
      assert Find(parts[0], sep) == -1;
    } else {
      var rest := Join([sep], parts[1..]);
      assert Join([sep], parts) == parts[0] + [sep] + rest;
      SplitHead(parts[0], sep, rest);
      SplitJoin(parts[1..], sep);
      assert parts == [parts[0]] + parts[1..];
    }
  }

  lemma SplitHead(a: string, c: char, b: string)
    requires c !in a
    ensures Split(a + [c] + b, c) == [a] + Split(b, c)
  {
    var s := a + [c] + b;
    FindFirst(a, c, b);
    assert s[..|a|] == a && s[|a| + 1..] == b;
  }

  lemma FindFirst(a: string, c: char, b: string)
    requires c !in a
    ensures Find(a + [c] + b, c) == |a|
  {
    var s := a + [c] + b;
    assert s[|a|] == c;
    assert forall j :: 0 <= j < |a| ==> s[j] != c by {
      forall j | 0 <= j < |a| ensures s[j] != c { assert s[j] == a[j]; }
    }
    assert forall j :: 0 <= j < Find(s, c) ==> s[j] != c by {
      forall j | 0 <= j < Find(s, c) ensures s[j] != c { assert s[j] == s[..Find(s, c)][j]; }
    }
  }

  /** Decimal digits of a natural number, as `str(n)` gives them. */
  function Dec(n: nat): (r: string)
    ensures |r| >= 1 && (|r| == 1 <==> n < 10)
    ensures forall i :: 0 <= i < |r| ==> '0' <= r[i] <= '9'
  {
    if n < 10 then [Digit(n)] else Dec(n / 10) + [Digit(n % 10)]
  }

  function Digit(d: nat): (c: char)
    requires d < 10
    ensures '0' <= c <= '9' && c as int - '0' as int == d
  {
    ('0' as int + d) as char
  }

  /** Different numbers have different decimal texts. */
  lemma {:induction false} DecInjective(a: nat, b: nat)
    requires Dec(a) == Dec(b)
    ensures a == b
  {
    var ra, rb := Dec(a), Dec(b);
    assert ra[|ra| - 1] == rb[|rb| - 1];
    assert a % 10 == b % 10;
    if a >= 10 {
      assert b >= 10;
      assert Dec(a / 10) == ra[..|ra| - 1] == rb[..|rb| - 1] == Dec(b / 10);
      DecInjective(a / 10, b / 10);
    }
  }

  // ---------------------------------------------------------------------------------------
  // Rendering values as `str` and `repr` do

  /** `str(v)`, as `'{}'.format(v)` inserts it. */
  function Show(v: Val, num: NumText): string
    decreases v, 1
  {
    match v
    case PyNone => "None"
    case Str(s) => s
    case Num(r) => num(r)
    case List(items) => "[" + ShowItems(v, items, num) + "]"
    case _ => "{" + ShowEntries(v, v.entries, num) + "}"
  }

  /** `repr(v)`: strings are quoted (escape sequences are not modelled). */
  function Repr(v: Val, num: NumText): string
    decreases v, 2
  {
    if v.Str? then "'" + v.s + "'" else Show(v, num)
  }

  function ShowItems(ghost parent: Val, items: seq<Val>, num: NumText): string
    requires forall x :: x in items ==> x < parent
    decreases parent, 0, |items|
  {
    if |items| == 0 then ""
    else
      assert items[0] in items;
      var head := Repr(items[0], num);
      if |items| == 1 then head
      else
        assert forall x :: x in items[1..] ==> x in items;
        head + ", " + ShowItems(parent, items[1..], num)
  }

  function ShowEntries(ghost parent: Val, entries: ODict<string, Val>, num: NumText): string
    requires forall i :: 0 <= i < |entries| ==> entries[i].1 < parent
    decreases parent, 0, |entries|
  {
    if |entries| == 0 then ""
    else
      var first := "'" + entries[0].0 + "': " + Repr(entries[0].1, num);
      if |entries| == 1 then first else first + ", " + ShowEntries(parent, entries[1..], num)
  }
}
