/**
 * Parsed rule documents: the untyped values a YAML reader hands to the
 * rule checkers, together with the Python type tests the checkers apply
 * to them and the Python exceptions the checked code can let escape.
 */
module PyValues {

  /** A parsed YAML (or Python literal) value. Mappings keep their
      insertion order, which is the order Python iterates them in.
      Floats are opaque: no arithmetic is ever done on them. */
  datatype Value =
    | VStr(s: string)
    | VInt(i: int)
    | VFloat(token: string)
    | VBool(b: bool)
    | VNone
    | VList(items: seq<Value>)
    | VDict(entries: seq<(Value, Value)>)

  /** The built-in exceptions the modelled code can raise without
      catching them. */
  datatype PyError = KeyError | AttributeError | TypeError

  datatype Option<+T> = None | Some(value: T)

  /** A computation that either returns a value or raises. */
  datatype Outcome<+T> = Ok(value: T) | Raised(error: PyError)

  /** `isinstance(v, str)` */
  predicate IsStr(v: Value) { v.VStr? }

  /** `isinstance(v, (int, float))`; `bool` is a subclass of `int` in
      Python, so booleans are numbers here. */
  predicate IsNumber(v: Value) { v.VInt? || v.VFloat? || v.VBool? }

  /** `isinstance(v, (str, int, float))` */
  predicate IsScalar(v: Value) { IsStr(v) || IsNumber(v) }

  /** `v in names` for a list of strings: only a string can be equal to
      one of them. */
  predicate IsNameIn(v: Value, names: seq<string>) { v.VStr? && v.s in names }

  /** `a` is obtained from `b` by deleting some elements. */
  predicate IsSubsequence<T(==)>(a: seq<T>, b: seq<T>)
    decreases |b|
  {
    a == [] || (b != [] && ((a[0] == b[0] && IsSubsequence(a[1..], b[1..])) || IsSubsequence(a, b[1..])))
  }

  /** The list comprehension `[x for x in xs if keep(x)]`: exactly the kept
      elements, each as often as in `xs`, in their original order. */
  function Filter<T(==,!new)>(xs: seq<T>, keep: T -> bool): (r: seq<T>)
    ensures forall x :: x in r <==> x in xs && keep(x)
    ensures forall x :: multiset(r)[x] == if keep(x) then multiset(xs)[x] else 0
    ensures IsSubsequence(r, xs)
    ensures |r| <= |xs|
    ensures |r| == |xs| <==> forall x :: x in xs ==> keep(x)
    ensures r == [] <==> forall x :: x in xs ==> !keep(x)
  {
    if xs == [] then []
    else
      var rest := Filter(xs[1..], keep);
      assert xs == [xs[0]] + xs[1..];
      if keep(xs[0]) then [xs[0]] + rest else rest
  }

  /** The names of a sequence of strings. */
  function Strings(vs: seq<Value>): (r: seq<string>)
    requires forall v :: v in vs ==> v.VStr?
    ensures |r| == |vs|
    ensures forall i :: 0 <= i < |vs| ==> vs[i] == VStr(r[i])
  {
    if vs == [] then [] else [vs[0].s] + Strings(vs[1..])
  }

  /** The keys of a mapping, in iteration order (`list(d)`). */
  function KeysOf(entries: seq<(Value, Value)>): (r: seq<Value>)
    ensures |r| == |entries|
    ensures forall i :: 0 <= i < |entries| ==> r[i] == entries[i].0
  {
    if entries == [] then [] else [entries[0].0] + KeysOf(entries[1..])
  }

  /** `d[key]` on a mapping: the value stored under `key`, or None when
      the lookup would raise KeyError. */
  function Lookup(entries: seq<(Value, Value)>, key: Value): (r: Option<Value>)
    ensures r.Some? <==> exists x :: (key, x) in entries
    ensures r.Some? ==> (key, r.value) in entries
  {
    if entries == [] then None
    else if entries[0].0 == key then
      assert entries[0] == (key, entries[0].1);
      Some(entries[0].1)
    else
      var r := Lookup(entries[1..], key);
      assert forall x :: (key, x) in entries <==> (key, x) in entries[1..];
      r
  }
}
