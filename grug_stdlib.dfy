/** The list operations of the standard package
    (src/grug/packages/grug_stdlib/grug_stdlib.py), and the package `get`
    builds from them.  A grug list is a Python list that the operations
    change in place; here it is an object whose one field is the sequence
    of its elements. */
module GrugStdlib {
  import opened Wrappers
  import opened GrugValues
  import opened GrugPackages

  /** The exceptions Python's list methods raise. */
  datatype ListError =
    /** `pop` of an empty list, or at a position out of range. */
    | IndexError
    /** `remove` or `index` of a value the list does not hold. */
    | ValueError
    /** `sort` of elements that Python cannot order. */
    | TypeError

  class GrugList {
    var elems: seq<Value>

    constructor()
      ensures elems == []
    {
      elems := [];
    }
  }

  // ---------------------------------------------------------------------------
  // Positions and occurrences
  // ---------------------------------------------------------------------------

  /** `int(x)` of a float: truncation toward zero. */
  function Trunc(x: real): (r: int)
    ensures x >= 0.0 ==> r as real <= x < r as real + 1.0
    ensures x < 0.0 ==> r as real - 1.0 < x <= r as real
  {
    if x >= 0.0 then x.Floor else -((-x).Floor)
  }

  /** Where `list.insert(i, v)` puts `v` in a list of length `n`: a negative
      `i` counts from the end, and a position past either end is clamped. */
  function InsertPosition(i: int, n: nat): (r: nat)
    ensures r <= n
    ensures 0 <= i <= n ==> r == i
    ensures i > n ==> r == n
    ensures i < 0 && 0 <= i + n ==> r == i + n
    ensures i + n < 0 ==> r == 0
  {
    if i < 0 then (if i + n < 0 then 0 else i + n)
    else if i > n then n
    else i
  }

  /** The first position holding a value `==` to `v`. */
  function FirstIndexOf(s: seq<Value>, v: Value): (r: Option<nat>)
    ensures r.Some? ==> r.value < |s| && PyEq(s[r.value], v)
    ensures r.Some? ==> forall k :: 0 <= k < r.value ==> !PyEq(s[k], v)
    ensures r.None? <==> forall k :: 0 <= k < |s| ==> !PyEq(s[k], v)
  {
    if s == [] then None
    else if PyEq(s[0], v) then Some(0)
    else match FirstIndexOf(s[1..], v)
      case None => None
      case Some(k) => Some(k + 1)
  }

  /** The positions of `s` holding a value `==` to `v`. */
  ghost function Occurrences(s: seq<Value>, v: Value): set<int> {
    set k | 0 <= k < |s| && PyEq(s[k], v)
  }

  /** How many elements are `==` to `v`. */
  function CountOf(s: seq<Value>, v: Value): (r: nat)
    ensures r <= |s|
  {
    if s == [] then 0
    else (if PyEq(s[0], v) then 1 else 0) + CountOf(s[1..], v)
  }

  lemma {:induction false} CountAppend(a: seq<Value>, b: seq<Value>, v: Value)
    ensures CountOf(a + b, v) == CountOf(a, v) + CountOf(b, v)
  {
    if a == [] {
      assert a + b == b;
    } else {
      assert (a + b)[1..] == a[1..] + b;
      CountAppend(a[1..], b, v);
    }
  }

  /** The positions of a sequence are those of all but its last element,
      plus the last one if it holds `v`. */
  lemma OccurrencesLast(s: seq<Value>, v: Value)
    requires s != []
    ensures |Occurrences(s, v)| == |Occurrences(s[..|s| - 1], v)| + (if PyEq(s[|s| - 1], v) then 1 else 0)
  {
    var n := |s| - 1;
    var before := Occurrences(s[..n], v);
    var last: set<int> := if PyEq(s[n], v) then {n} else {};
    forall k | k in Occurrences(s, v)
      ensures k in before + last
    {
      if k < n {
        assert s[..n][k] == s[k];
      }
    }
    forall k | k in before + last
      ensures k in Occurrences(s, v)
    {
      if k < n {
        assert s[..n][k] == s[k];
      }
    }
    assert Occurrences(s, v) == before + last;
    assert n !in before;
  }

  /** `count` is the number of positions holding a value `==` to `v`. */
  lemma {:induction false} CountIsOccurrences(s: seq<Value>, v: Value)
    ensures CountOf(s, v) == |set k | 0 <= k < |s| && PyEq(s[k], v)|
    decreases |s|
  {
    if s == [] {
      assert Occurrences(s, v) == {};
    } else {
      var n := |s| - 1;
      assert s == s[..n] + [s[n]];
      CountAppend(s[..n], [s[n]], v);
      CountIsOccurrences(s[..n], v);
      OccurrencesLast(s, v);
    }
  }

  /** `count` is positive exactly where `index` finds the value. */
  lemma {:induction false} CountPositiveIffFound(s: seq<Value>, v: Value)
    ensures CountOf(s, v) > 0 <==> FirstIndexOf(s, v).Some?
  {
    if s != [] {
      CountPositiveIffFound(s[1..], v);
    }
  }

  /** Removing the first occurrence leaves one occurrence fewer. */
  lemma RemoveFirstCount(s: seq<Value>, v: Value, k: nat)
    requires FirstIndexOf(s, v) == Some(k)
    ensures CountOf(s[..k] + s[k + 1..], v) == CountOf(s, v) - 1
  {
    assert s == s[..k] + ([s[k]] + s[k + 1..]);
    CountAppend(s[..k], [s[k]] + s[k + 1..], v);
    CountAppend(s[..k], s[k + 1..], v);
    assert ([s[k]] + s[k + 1..])[1..] == s[k + 1..];
  }

  // ---------------------------------------------------------------------------
  // The operations
  // ---------------------------------------------------------------------------

  /** `list_X`: a new, empty list. */
  method ListX() returns (r: GrugList)
    ensures fresh(r) && r.elems == []
  {
    r := new GrugList();
  }

  /** `list_append`: `val` goes last; nothing else changes. */
  method ListAppend(lst: GrugList, val: Value)
    modifies lst
    ensures lst.elems == old(lst.elems) + [val]
  {
    lst.elems := lst.elems + [val];
  }

  /** `list_len` */
  function ListLen(lst: GrugList): (r: nat)
    reads lst
    ensures r == |lst.elems|
  {
    |lst.elems|
  }

  /** `list_extend`: the elements of `lst2`, in order, after those of
      `lst1`; extending a list by itself doubles it. */
  method ListExtend(lst1: GrugList, lst2: GrugList)
    modifies lst1
    ensures lst1.elems == old(lst1.elems) + old(lst2.elems)
    ensures lst2 != lst1 ==> lst2.elems == old(lst2.elems)
  {
    lst1.elems := lst1.elems + lst2.elems;
  }

  /** `list_insert`: `val` at `int(index)` as `list.insert` places it, the
      later elements shifted right. */
  method ListInsert(lst: GrugList, index: real, val: Value)
    modifies lst
    ensures var p := InsertPosition(Trunc(index), |old(lst.elems)|);
      && |lst.elems| == |old(lst.elems)| + 1 && lst.elems[p] == val
      && lst.elems[..p] == old(lst.elems)[..p] && lst.elems[p + 1..] == old(lst.elems)[p..]
  {
    var p := InsertPosition(Trunc(index), |lst.elems|);
    lst.elems := lst.elems[..p] + [val] + lst.elems[p..];
  }

  /** `list_remove`: the first element `==` to `val` goes; a ValueError if
      there is none, and then the list is unchanged. */
  method ListRemove(lst: GrugList, val: Value) returns (r: Result<(), ListError>)
    modifies lst
    ensures r.Err? <==> forall k :: 0 <= k < |old(lst.elems)| ==> !PyEq(old(lst.elems)[k], val)
    ensures r.Err? ==> r.error == ValueError && lst.elems == old(lst.elems)
    ensures r.Ok? ==> (var k := FirstIndexOf(old(lst.elems), val).value;
      lst.elems == old(lst.elems)[..k] + old(lst.elems)[k + 1..])
    ensures r.Ok? ==> CountOf(lst.elems, val) == CountOf(old(lst.elems), val) - 1
  {
    match FirstIndexOf(lst.elems, val)
    case None =>
      return Err(ValueError);
    case Some(k) =>
      RemoveFirstCount(lst.elems, val, k);
      lst.elems := lst.elems[..k] + lst.elems[k + 1..];
      return Ok(());
  }

  /** `list_pop`: removes and returns the last element; an IndexError for
      an empty list. */
  method ListPop(lst: GrugList) returns (r: Result<Value, ListError>)
    modifies lst
    ensures r.Err? <==> old(lst.elems) == []
    ensures r.Err? ==> r.error == IndexError && lst.elems == old(lst.elems)
    ensures r.Ok? ==> old(lst.elems) == lst.elems + [r.value]
  {
    if lst.elems == [] {
      return Err(IndexError);
    }
    var last := lst.elems[|lst.elems| - 1];
    lst.elems := lst.elems[..|lst.elems| - 1];
    return Ok(last);
  }

  /** The position `list.pop(i)` removes: a negative `i` counts from the
      end; outside the list it is an IndexError. */
  function PopPosition(i: int, n: nat): (r: Option<nat>)
    ensures r.Some? ==> r.value < n
    ensures r.Some? && i >= 0 ==> r.value == i
    ensures r.Some? && i < 0 ==> r.value == i + n
    ensures r.None? <==> i >= n || i + n < 0
  {
    var j := if i < 0 then i + n else i;
    if 0 <= j < n then Some(j) else None
  }

  /** `list_pop_index`: removes and returns the element at `int(index)`. */
  method ListPopIndex(lst: GrugList, index: real) returns (r: Result<Value, ListError>)
    modifies lst
    ensures var p := PopPosition(Trunc(index), |old(lst.elems)|);
      && (r.Err? <==> p.None?)
      && (r.Err? ==> r.error == IndexError && lst.elems == old(lst.elems))
      && (r.Ok? ==> (r.value == old(lst.elems)[p.value]
                     && lst.elems == old(lst.elems)[..p.value] + old(lst.elems)[p.value + 1..]))
  {
    match PopPosition(Trunc(index), |lst.elems|)
    case None =>
      return Err(IndexError);
    case Some(p) =>
      var v := lst.elems[p];
      lst.elems := lst.elems[..p] + lst.elems[p + 1..];
      return Ok(v);
  }

  /** `list_index`: the first position of `val`, a ValueError if absent. */
  function ListIndex(lst: GrugList, val: Value): (r: Result<nat, ListError>)
    reads lst
    ensures r.Ok? ==> r.value < |lst.elems| && PyEq(lst.elems[r.value], val)
    ensures r.Ok? ==> forall k :: 0 <= k < r.value ==> !PyEq(lst.elems[k], val)
    ensures r.Err? <==> forall k :: 0 <= k < |lst.elems| ==> !PyEq(lst.elems[k], val)
  {
    match FirstIndexOf(lst.elems, val)
    case None => Err(ValueError)
    case Some(k) => Ok(k)
  }

  /** `list_count`: how many elements are `==` to `val`; positive exactly
      when `list_index` finds it. */
  function ListCount(lst: GrugList, val: Value): (r: nat)
    reads lst
    ensures r <= |lst.elems|
    ensures r == |set k | 0 <= k < |lst.elems| && PyEq(lst.elems[k], val)|
    ensures r > 0 <==> ListIndex(lst, val).Ok?
  {
    CountPositiveIffFound(lst.elems, val);
    CountIsOccurrences(lst.elems, val);
    CountOf(lst.elems, val)
  }

  // ---------------------------------------------------------------------------
  // Sorting
  // ---------------------------------------------------------------------------

  /** Python's `<` on two strings: by code point, a proper prefix first. */
  predicate StrLess(a: string, b: string)
    decreases |a|
  {
    if a == [] then b != []
    else if b == [] then false
    else if a[0] != b[0] then a[0] < b[0]
    else StrLess(a[1..], b[1..])
  }

  lemma {:induction false} StrLessIrreflexive(a: string)
    ensures !StrLess(a, a)
  {
    if a != [] {
      StrLessIrreflexive(a[1..]);
    }
  }

  lemma {:induction false} StrLessTotal(a: string, b: string)
    ensures a == b || StrLess(a, b) || StrLess(b, a)
    decreases |a|
  {
    if a != [] && b != [] && a[0] == b[0] {
      StrLessTotal(a[1..], b[1..]);
      if a[1..] == b[1..] {
        assert a == [a[0]] + a[1..] && b == [b[0]] + b[1..];
      }
    }
  }

  lemma {:induction false} StrLessAsymmetric(a: string, b: string)
    requires StrLess(a, b)
    ensures !StrLess(b, a)
    decreases |a|
  {
    if a != [] && b != [] && a[0] == b[0] {
      StrLessAsymmetric(a[1..], b[1..]);
    }
  }

  lemma {:induction false} StrLessTransitive(a: string, b: string, c: string)
    requires StrLess(a, b) && StrLess(b, c)
    ensures StrLess(a, c)
    decreases |a|
  {
    if a != [] && b != [] && c != [] && a[0] == b[0] && b[0] == c[0] {
      StrLessTransitive(a[1..], b[1..], c[1..]);
    }
  }

  /** The lists `list.sort` orders without a TypeError: all numbers, all
      strings, or too short to compare anything.  Lists held as values are
      not ordered here, where Python compares them element by element. */
  predicate Sortable(s: seq<Value>) {
    |s| <= 1 || (forall k :: 0 <= k < |s| ==> IsNumeric(s[k])) || (forall k :: 0 <= k < |s| ==> s[k].VStr?)
  }

  /** `a <= b` for two numbers or two strings. */
  predicate Le(a: Value, b: Value) {
    if IsNumeric(a) && IsNumeric(b) then NumericValue(a) <= NumericValue(b)
    else if a.VStr? && b.VStr? then !StrLess(b.s, a.s)
    else false
  }

  predicate Homogeneous(s: seq<Value>) {
    (forall k :: 0 <= k < |s| ==> IsNumeric(s[k])) || (forall k :: 0 <= k < |s| ==> s[k].VStr?)
  }

  predicate SortedSeq(s: seq<Value>) {
    forall i, j :: 0 <= i < j < |s| ==> Le(s[i], s[j])
  }

  lemma LeTotal(a: Value, b: Value)
    requires (IsNumeric(a) && IsNumeric(b)) || (a.VStr? && b.VStr?)
    ensures Le(a, b) || Le(b, a)
  {
    if a.VStr? && b.VStr? && StrLess(a.s, b.s) {
      StrLessAsymmetric(a.s, b.s);
    }
  }

  lemma LeTransitive(a: Value, b: Value, c: Value)
    requires Le(a, b) && Le(b, c)
    ensures Le(a, c)
  {
    if a.VStr? && b.VStr? && c.VStr? && StrLess(c.s, a.s) {
      StrLessTotal(a.s, b.s);
      StrLessTotal(b.s, c.s);
      if a.s != b.s && b.s != c.s {
        StrLessTransitive(c.s, a.s, b.s);
      }
    }
  }

  /** `x` placed before the first element it is not above. */
  function InsertSorted(x: Value, s: seq<Value>): (r: seq<Value>)
    ensures multiset(r) == multiset(s) + multiset{x}
    ensures |r| == |s| + 1
  {
    if s == [] then [x]
    else if Le(x, s[0]) then [x] + s
    else
      assert s == [s[0]] + s[1..];
      [s[0]] + InsertSorted(x, s[1..])
  }

  /** The elements of `s` in ascending order (the order `list.sort` leaves
      a sortable list in, up to the order of equal elements). */
  function SortValues(s: seq<Value>): (r: seq<Value>)
    ensures multiset(r) == multiset(s)
  {
    if s == [] then []
    else
      assert s == [s[0]] + s[1..];
      InsertSorted(s[0], SortValues(s[1..]))
  }

  /** A lower bound of `x` and of every element of `t` bounds every element
      of the result of inserting one into the other. */
  lemma {:induction false} InsertSortedBounded(b: Value, x: Value, t: seq<Value>)
    requires Le(b, x) && forall k :: 0 <= k < |t| ==> Le(b, t[k])
    ensures forall k :: 0 <= k < |t| + 1 ==> Le(b, InsertSorted(x, t)[k])
  {
    if t != [] && !Le(x, t[0]) {
      InsertSortedBounded(b, x, t[1..]);
    }
  }

  lemma {:induction false} InsertSortedKeepsOrder(x: Value, s: seq<Value>)
    requires SortedSeq(s) && Homogeneous(s + [x])
    ensures SortedSeq(InsertSorted(x, s))
    decreases |s|
  {
    if s != [] && !Le(x, s[0]) {
      var rest := s[1..];
      assert rest + [x] == (s + [x])[1..];
      InsertSortedKeepsOrder(x, rest);
      assert (s + [x])[0] == s[0] && (s + [x])[|s|] == x;
      LeTotal(x, s[0]);
      InsertSortedBounded(s[0], x, rest);
      assert InsertSorted(x, s) == [s[0]] + InsertSorted(x, rest);
    } else if s != [] {
      assert InsertSorted(x, s) == [x] + s;
      forall i, j | 0 <= i < j < |s| + 1
        ensures Le(([x] + s)[i], ([x] + s)[j])
      {
        if i == 0 && j > 1 {
          LeTransitive(x, s[0], s[j - 1]);
        }
      }
    }
  }

  lemma {:induction false} SortValuesSorted(s: seq<Value>)
    requires Homogeneous(s)
    ensures SortedSeq(SortValues(s))
  {
    if s != [] {
      assert Homogeneous(s[1..]);
      SortValuesSorted(s[1..]);
      var t := SortValues(s[1..]);
      assert Homogeneous(t + [s[0]]) by {
        forall k | 0 <= k < |t| + 1
          ensures (t + [s[0]])[k] in multiset(s)
        {
          if k < |t| {
            assert t[k] in multiset(t);
          }
        }
        assert forall v :: v in multiset(s) ==> v in s;
      }
      InsertSortedKeepsOrder(s[0], t);
    }
  }

  /** `list_sort`: a sortable list is put in ascending order, keeping its
      elements; any other raises a TypeError. */
  method ListSort(lst: GrugList) returns (r: Result<(), ListError>)
    modifies lst
    ensures r.Ok? <==> Sortable(old(lst.elems))
    ensures r.Err? ==> r.error == TypeError
    ensures multiset(lst.elems) == multiset(old(lst.elems))
    ensures r.Ok? ==> SortedSeq(lst.elems)
  {
    if !Sortable(lst.elems) {
      return Err(TypeError);
    }
    if |lst.elems| > 1 {
      SortValuesSorted(lst.elems);
      lst.elems := SortValues(lst.elems);
    }
    return Ok(());
  }

  /** `list_reverse`: the last element first. */
  method ListReverse(lst: GrugList)
    modifies lst
    ensures |lst.elems| == |old(lst.elems)|
    ensures forall k :: 0 <= k < |lst.elems| ==> lst.elems[k] == old(lst.elems)[|lst.elems| - 1 - k]
  {
    lst.elems := seq(|lst.elems|, k requires 0 <= k < |lst.elems| reads lst => lst.elems[|lst.elems| - 1 - k]);
  }

  /** `list_copy`: a new list with the same elements. */
  method ListCopy(lst: GrugList) returns (r: GrugList)
    ensures fresh(r) && r.elems == lst.elems
  {
    r := new GrugList();
    r.elems := lst.elems;
  }

  /** A change to a copy leaves the original as it was. */
  method CopyIsIndependent(lst: GrugList, val: Value) returns (copy: GrugList)
    modifies lst
    ensures fresh(copy) && lst.elems == old(lst.elems) && copy.elems == old(lst.elems) + [val]
  {
    copy := ListCopy(lst);
    ListAppend(copy, val);
  }

  /** `list_clear` */
  method ListClear(lst: GrugList)
    modifies lst
    ensures lst.elems == []
  {
    lst.elems := [];
  }

  // ---------------------------------------------------------------------------
  // The package
  // ---------------------------------------------------------------------------

  /** The generic list operations `make_list_package` wraps, in its order. */
  datatype ListOp =
    | NewList | Append | Len | Extend | Insert | Remove | Pop | PopIndex
    | Index | Count | Sort | Reverse | Copy | Clear

  const LIST_OPS: seq<ListOp> :=
    [NewList, Append, Len, Extend, Insert, Remove, Pop, PopIndex, Index, Count, Sort, Reverse, Copy, Clear]

  /** What follows `list_<type>` in the name of each operation. */
  function Suffix(op: ListOp): string {
    match op
    case NewList => ""
    case Append => "_append"
    case Len => "_len"
    case Extend => "_extend"
    case Insert => "_insert"
    case Remove => "_remove"
    case Pop => "_pop"
    case PopIndex => "_pop_index"
    case Index => "_index"
    case Count => "_count"
    case Sort => "_sort"
    case Reverse => "_reverse"
    case Copy => "_copy"
    case Clear => "_clear"
  }

  /** `make_list_package(type_name)`: the fourteen operations, each under
      `list_<type_name><suffix>`, in a fixed order. */
  function MakeListPackage(typeName: string): (r: seq<(string, ListOp)>)
    ensures |r| == 14
    ensures forall k :: 0 <= k < 14 ==> r[k].1 == LIST_OPS[k] && r[k].0 == "list_" + typeName + Suffix(LIST_OPS[k])
  {
    seq(14, k requires 0 <= k < 14 => ("list_" + typeName + Suffix(LIST_OPS[k]), LIST_OPS[k]))
  }

  lemma SuffixesDistinct()
    ensures forall i, j :: 0 <= i < j < 14 ==> Suffix(LIST_OPS[i]) != Suffix(LIST_OPS[j])
  {
  }

  /** No two operations of one list package share a name. */
  lemma ListPackageNamesDistinct(typeName: string)
    ensures var r := MakeListPackage(typeName);
      forall i, j :: 0 <= i < j < |r| ==> r[i].0 != r[j].0
  {
    var r := MakeListPackage(typeName);
    var p := "list_" + typeName;
    SuffixesDistinct();
    forall i, j | 0 <= i < j < 14
      ensures r[i].0 != r[j].0
    {
      assert r[i].0 == p + Suffix(LIST_OPS[i]) && r[j].0 == p + Suffix(LIST_OPS[j]);
      assert r[i].0[|p|..] == Suffix(LIST_OPS[i]) && r[j].0[|p|..] == Suffix(LIST_OPS[j]);
    }
  }

  /** The functions `get` lists before the list packages, in its order. */
  const FIXED_FN_NAMES: seq<string> := [
    "assert_bool", "assert_id", "assert_number", "assert_string",
    "print_number", "print_bool", "print_string", "print_id",
    "print_list_number", "print_list_bool", "print_list_string", "print_list_id",
    "ceil", "sqrt"]

  /** The element types `get` makes a list package for, in its order. */
  const LIST_TYPES: seq<string> := ["number", "bool", "string", "id"]

  /** The names of the functions of one list package, in its order. */
  function PackageNames(typeName: string): (r: seq<string>)
    ensures |r| == 14
    ensures forall k :: 0 <= k < 14 ==> r[k] == MakeListPackage(typeName)[k].0
  {
    seq(14, k requires 0 <= k < 14 => MakeListPackage(typeName)[k].0)
  }

  /** The names of the list functions of the first `n` element types. */
  function ListFnNames(n: nat): (r: seq<string>)
    requires n <= |LIST_TYPES|
    ensures |r| == 14 * n
  {
    if n == 0 then [] else ListFnNames(n - 1) + PackageNames(LIST_TYPES[n - 1])
  }

  /** Game functions named `names`, known by their positions from `first` on. */
  function Numbered(names: seq<string>, first: nat): (r: seq<GameFn>)
    ensures |r| == |names|
    ensures forall k :: 0 <= k < |r| ==> r[k] == GameFn(names[k], first + k)
  {
    seq(|names|, k requires 0 <= k < |names| => GameFn(names[k], first + k))
  }

  /** Every game function of a package, each known by its position. */
  function Named(names: seq<string>): (r: seq<GameFn>)
    ensures |r| == |names|
    ensures forall k :: 0 <= k < |r| ==> r[k] == GameFn(names[k], k)
  {
    Numbered(names, 0)
  }

  lemma NamedAppend(a: seq<string>, b: seq<string>)
    ensures Named(a + b) == Named(a) + Numbered(b, |a|)
  {
    assert forall k :: 0 <= k < |a| + |b| ==> (Named(a) + Numbered(b, |a|))[k] == GameFn((a + b)[k], k);
  }

  /** The inner loop of `get`: each function of one list package, renamed
      and appended. */
  /** Numbering one more name extends the numbered prefix by one function. */
  lemma NumberedSnoc(names: seq<string>, first: nat, j: nat)
    requires j < |names|
    ensures Numbered(names[..j + 1], first) == Numbered(names[..j], first) + [GameFn(names[j], first + j)]
  {
    assert forall k :: 0 <= k < j + 1 ==> names[..j + 1][k] == names[k];
  }

  method AppendListPackage(fns: seq<GameFn>, typeName: string) returns (r: seq<GameFn>)
    ensures r == fns + Numbered(PackageNames(typeName), |fns|)
  {
    var package := MakeListPackage(typeName);
    ghost var names := PackageNames(typeName);
    r := fns;
    for j := 0 to |package|
      invariant r == fns + Numbered(names[..j], |fns|)
    {
      // `fn.__name__ = fn_name`, then `game_fns.append(fn)`
      NumberedSnoc(names, |fns|, j);
      r := r + [GameFn(package[j].0, |r|)];
    }
    assert names[..|package|] == names;
  }


  /** The functions `get` gathers: the fixed ones, then every list
      function renamed after its `list_<type>` name. */
  method GatherGameFns() returns (fns: seq<GameFn>)
    ensures |fns| == 14 + 14 * 4
    ensures fns == Named(FIXED_FN_NAMES + ListFnNames(4))
  {
    fns := Named(FIXED_FN_NAMES);
    for t := 0 to |LIST_TYPES|
      invariant fns == Named(FIXED_FN_NAMES + ListFnNames(t))
    {
      ghost var before := FIXED_FN_NAMES + ListFnNames(t);
      fns := AppendListPackage(fns, LIST_TYPES[t]);
      NamedAppend(before, PackageNames(LIST_TYPES[t]));
      assert FIXED_FN_NAMES + ListFnNames(t + 1) == before + PackageNames(LIST_TYPES[t]);
    }
  }

  /** `get`, as written: the package is created with `prefix=""`, which its
      own `__post_init__` rejects, so `get` always raises. */
  method Get() returns (r: Result<GrugPackage, PackageError>)
    ensures r == Err(EmptyPrefix)
  {
    var gameFns := GatherGameFns();
    r := NewGrugPackage("", gameFns);
  }

  /** `get` as evidently intended: the same functions, registered without a
      prefix, by creating the package with a prefix and then calling
      `noprefix`. */
  method GetWithoutPrefix() returns (r: GrugPackage)
    ensures r.prefix == "" && r.gameFns == Named(FIXED_FN_NAMES + ListFnNames(4))
    ensures |r.gameFns| == 70
  {
    var gameFns := GatherGameFns();
    var created := PackageWithoutPrefix("grug_stdlib", gameFns);
    r := created.value;
  }
}
