/**
 * The static checkers of `RulesCollection`: each takes a parsed rule
 * value and the reference entry for its rule, and returns an empty list
 * when the value is well formatted, or a short error list (a code and,
 * for most codes, the offending part of the value).
 */
module RuleChecks {
  import opened PyValues

  /** The second element of a checker's error list, when there is one. */
  datatype Detail =
    | NoDetail
    | Items(items: seq<Value>)
    | Pairs(pairs: seq<(Value, Value)>)
    | Item(item: Value)
    | Names(names: set<string>)

  /** A checker's answer: the empty list, an error list, or an exception
      that escapes the checker. */
  datatype Verdict = Pass | Fail(code: string, detail: Detail) | Raise(error: PyError)

  /** The reference values read from the rules asset: the accepted
      strings for the single-string rules, the two-level table of accepted
      validations and the accepted normalization terms. The entries for
      `expected` and `remap` are passed to their checkers but never read,
      so they are not represented. */
  datatype Reference = Reference(
    ontology: seq<string>,
    blank: seq<string>,
    missing: seq<string>,
    format: seq<string>,
    validation: map<string, seq<string>>,
    normalization: seq<string>)

  /** The string keys of a mapping that are not among `allowed`, i.e.
      `set(d).difference(allowed)` when every key is a string. */
  function UnknownNames(entries: seq<(Value, Value)>, allowed: set<string>): (r: set<string>)
    ensures forall n :: n in r <==> n !in allowed && exists x :: (VStr(n), x) in entries
  {
    var r := set e | e in entries && e.0.VStr? && e.0.s !in allowed :: e.0.s;
    assert forall n :: n !in allowed && (exists x :: (VStr(n), x) in entries) ==> n in r by {
      forall n | n !in allowed && exists x :: (VStr(n), x) in entries ensures n in r {
        var x :| (VStr(n), x) in entries;
        var e := (VStr(n), x);
        assert e in entries && e.0.VStr? && e.0.s !in allowed;
      }
    }
    r
  }

  /** `RulesCollection.check_expected` */
  function CheckExpected(v: Value): (r: Verdict)
    ensures !v.VList? ==> r == Fail("not a list", NoDetail)
    ensures v.VList? ==> (r == Pass <==> forall x :: x in v.items ==> IsStr(x))
    ensures v.VList? && r != Pass ==> (r.Fail? && r.code == "not a string" && r.detail.Items? &&
      (forall x :: x in r.detail.items <==> x in v.items && !IsStr(x)) &&
      (forall x :: multiset(r.detail.items)[x] == if IsStr(x) then 0 else multiset(v.items)[x]) &&
      IsSubsequence(r.detail.items, v.items))
  {
    if v.VList? then
      var wrong := Filter(v.items, (x: Value) => !IsStr(x));
      if |wrong| > 0 then Fail("not a string", Items(wrong)) else Pass
    else Fail("not a list", NoDetail)
  }

  /** `RulesCollection.check_remap`: both sides of every pair must be a
      string or a number. The offending pairs are reported as they are;
      the source prints each as `key: value`. */
  function CheckRemap(v: Value): (r: Verdict)
    ensures !v.VDict? ==> r == Fail("not a dictionary", NoDetail)
    ensures v.VDict? ==> (r == Pass <==> forall e :: e in v.entries ==> IsScalar(e.0) && IsScalar(e.1))
    ensures v.VDict? && r != Pass ==> (r.Fail? && r.code == "not str, int or float" && r.detail.Pairs? &&
      (forall e :: e in r.detail.pairs <==> e in v.entries && !(IsScalar(e.0) && IsScalar(e.1))) &&
      IsSubsequence(r.detail.pairs, v.entries))
  {
    if v.VDict? then
      var wrong := Filter(v.entries, (e: (Value, Value)) => !(IsScalar(e.0) && IsScalar(e.1)));
      if |wrong| > 0 then Fail("not str, int or float", Pairs(wrong)) else Pass
    else Fail("not a dictionary", NoDetail)
  }

  /** All keys of a mapping are strings among `allowed` (`issubset`). */
  predicate KeysAmong(entries: seq<(Value, Value)>, allowed: set<string>)
  {
    forall e :: e in entries ==> e.0.VStr? && e.0.s in allowed
  }

  /** The answer of the inner loop of `check_validation` over one nested
      mapping: the first condition that is not accepted, else the first
      whose variables are not a list. */
  function ScanNested(nested: seq<(Value, Value)>, accepted: seq<string>): (r: Verdict)
    ensures !r.Raise?
  {
    if nested == [] then Pass
    else if !IsNameIn(nested[0].0, accepted) then Fail("not allowed", Item(nested[0].0))
    else if !nested[0].1.VList? then Fail("not a list", Item(nested[0].1))
    else ScanNested(nested[1..], accepted)
  }

  /** The answer of the outer loop of `check_validation`. */
  function ScanTop(entries: seq<(Value, Value)>, allowed: map<string, seq<string>>): (r: Verdict)
    requires KeysAmong(entries, allowed.Keys)
    ensures !r.Raise?
  {
    if entries == [] then Pass
    else
      assert entries[0] in entries;
      if !entries[0].1.VDict? then Fail("not a nested dictionary", NoDetail)
      else match ScanNested(entries[0].1.entries, allowed[entries[0].0.s])
        case Pass => ScanTop(entries[1..], allowed)
        case other => other
  }

  /** What `RulesCollection.check_validation` returns or raises: joining
      the unknown top-level keys raises TypeError when one is not a
      string. */
  function ValidationVerdict(v: Value, allowed: map<string, seq<string>>): (r: Verdict)
    ensures !v.VDict? ==> r == Fail("not a dictionary", NoDetail)
    ensures v.VDict? && !KeysAmong(v.entries, allowed.Keys) ==>
      (r == Raise(TypeError) <==> exists e :: e in v.entries && !e.0.VStr?)
    ensures v.VDict? && !KeysAmong(v.entries, allowed.Keys) && r != Raise(TypeError) ==>
      r == Fail("not allowed", Names(UnknownNames(v.entries, allowed.Keys)))
    ensures v.VDict? && KeysAmong(v.entries, allowed.Keys) ==> r == ScanTop(v.entries, allowed)
  {
    if !v.VDict? then Fail("not a dictionary", NoDetail)
    else if KeysAmong(v.entries, allowed.Keys) then ScanTop(v.entries, allowed)
    else if exists e :: e in v.entries && !e.0.VStr? then Raise(TypeError)
    else Fail("not allowed", Names(UnknownNames(v.entries, allowed.Keys)))
  }

  /** A nested validation mapping is well formed: every condition is
      accepted for its key and holds a list of variables. */
  predicate NestedWellFormed(nested: seq<(Value, Value)>, accepted: seq<string>)
  {
    forall c :: c in nested ==> IsNameIn(c.0, accepted) && c.1.VList?
  }

  /** A validation rule is well formed: a mapping from accepted keys to
      mappings of accepted conditions to lists. */
  predicate ValidationWellFormed(v: Value, allowed: map<string, seq<string>>)
  {
    v.VDict? && KeysAmong(v.entries, allowed.Keys) &&
    forall e :: e in v.entries ==> e.0.s in allowed && e.1.VDict? && NestedWellFormed(e.1.entries, allowed[e.0.s])
  }

  lemma {:induction false} ScanNestedPasses(nested: seq<(Value, Value)>, accepted: seq<string>)
    ensures ScanNested(nested, accepted) == Pass <==> NestedWellFormed(nested, accepted)
  {
    if nested != [] {
      ScanNestedPasses(nested[1..], accepted);
      assert nested[0] in nested;
      assert forall c :: c in nested ==> c == nested[0] || c in nested[1..];
    }
  }

  lemma {:induction false} ScanTopPasses(entries: seq<(Value, Value)>, allowed: map<string, seq<string>>)
    requires KeysAmong(entries, allowed.Keys)
    ensures ScanTop(entries, allowed) == Pass <==>
      forall e :: e in entries ==> e.0.s in allowed && e.1.VDict? && NestedWellFormed(e.1.entries, allowed[e.0.s])
  {
    if entries != [] {
      assert entries[0] in entries;
      assert forall e :: e in entries ==> e == entries[0] || e in entries[1..];
      ScanTopPasses(entries[1..], allowed);
      if entries[0].1.VDict? {
        ScanNestedPasses(entries[0].1.entries, allowed[entries[0].0.s]);
      }
    }
  }

  /** A nested condition the inner loop lets through. */
  predicate ConditionOk(c: (Value, Value), accepted: seq<string>)
  {
    IsNameIn(c.0, accepted) && c.1.VList?
  }

  /** What the inner loop reports about a condition it does not let
      through: the name is tested first, then the value. */
  function NestedComplaint(c: (Value, Value), accepted: seq<string>): Verdict
  {
    if !IsNameIn(c.0, accepted) then Fail("not allowed", Item(c.0)) else Fail("not a list", Item(c.1))
  }

  /** The first `i` conditions are let through and condition `i` is not. */
  predicate FirstIllCondition(nested: seq<(Value, Value)>, accepted: seq<string>, i: int)
  {
    0 <= i < |nested| && (forall j :: 0 <= j < i ==> ConditionOk(nested[j], accepted)) && !ConditionOk(nested[i], accepted)
  }

  /** When the inner loop fails, it reports the first condition it does
      not let through: `not allowed` with its name when the name is not
      accepted (tested first), else `not a list` with its value. */
  lemma {:induction false} ScanNestedFirstFailure(nested: seq<(Value, Value)>, accepted: seq<string>)
    ensures ScanNested(nested, accepted) != Pass ==>
      exists i :: FirstIllCondition(nested, accepted, i) && ScanNested(nested, accepted) == NestedComplaint(nested[i], accepted)
  {
    if nested != [] && ScanNested(nested, accepted) != Pass {
      if !ConditionOk(nested[0], accepted) {
        assert FirstIllCondition(nested, accepted, 0);
      } else {
        var rest := nested[1..];
        assert ScanNested(nested, accepted) == ScanNested(rest, accepted);
        ScanNestedFirstFailure(rest, accepted);
        var i :| FirstIllCondition(rest, accepted, i) && ScanNested(rest, accepted) == NestedComplaint(rest[i], accepted);
        assert nested[i + 1] == rest[i];
        assert FirstIllCondition(nested, accepted, i + 1) by {
          forall j | 0 <= j < i + 1 ensures ConditionOk(nested[j], accepted) {
            if j > 0 { assert nested[j] == rest[j - 1]; }
          }
        }
      }
    }
  }

  /** A top-level entry the outer loop gets past. */
  predicate EntryOk(e: (Value, Value), allowed: map<string, seq<string>>)
  {
    e.0.VStr? && e.0.s in allowed && e.1.VDict? && ScanNested(e.1.entries, allowed[e.0.s]) == Pass
  }

  /** What the outer loop reports about an entry it does not get past:
      `not a nested dictionary`, or the inner loop's failure. */
  function EntryComplaint(e: (Value, Value), allowed: map<string, seq<string>>): Verdict
    requires e.0.VStr? && e.0.s in allowed
  {
    if !e.1.VDict? then Fail("not a nested dictionary", NoDetail) else ScanNested(e.1.entries, allowed[e.0.s])
  }

  /** The first `i` entries are got past and entry `i` is not. */
  predicate FirstIllEntry(entries: seq<(Value, Value)>, allowed: map<string, seq<string>>, i: int)
  {
    0 <= i < |entries| && (forall j :: 0 <= j < i ==> EntryOk(entries[j], allowed)) &&
    entries[i].0.VStr? && entries[i].0.s in allowed && !EntryOk(entries[i], allowed)
  }

  /** When the outer loop fails, it is at the first entry it does not get
      past: `not a nested dictionary` when that entry's value is not a
      mapping, else the failure of the inner loop over it. */
  lemma {:induction false} ScanTopFirstFailure(entries: seq<(Value, Value)>, allowed: map<string, seq<string>>)
    requires KeysAmong(entries, allowed.Keys)
    ensures ScanTop(entries, allowed) != Pass ==>
      exists i :: FirstIllEntry(entries, allowed, i) && ScanTop(entries, allowed) == EntryComplaint(entries[i], allowed)
  {
    if entries != [] && ScanTop(entries, allowed) != Pass {
      assert entries[0] in entries;
      if !EntryOk(entries[0], allowed) {
        assert FirstIllEntry(entries, allowed, 0);
      } else {
        var rest := entries[1..];
        assert KeysAmong(rest, allowed.Keys) by {
          forall e | e in rest ensures e in entries { }
        }
        assert ScanTop(entries, allowed) == ScanTop(rest, allowed);
        ScanTopFirstFailure(rest, allowed);
        var i :| FirstIllEntry(rest, allowed, i) && ScanTop(rest, allowed) == EntryComplaint(rest[i], allowed);
        assert entries[i + 1] == rest[i];
        assert FirstIllEntry(entries, allowed, i + 1) by {
          forall j | 0 <= j < i + 1 ensures EntryOk(entries[j], allowed) {
            if j > 0 { assert entries[j] == rest[j - 1]; }
          }
        }
      }
    }
  }

  /** `check_validation` passes exactly the well-formed validation rules,
      and never raises on a mapping whose keys are all strings. */
  lemma ValidationVerdictMeaning(v: Value, allowed: map<string, seq<string>>)
    ensures ValidationVerdict(v, allowed) == Pass <==> ValidationWellFormed(v, allowed)
    ensures ValidationVerdict(v, allowed).Raise? <==> v.VDict? && exists e :: e in v.entries && !e.0.VStr?
  {
    if v.VDict? && KeysAmong(v.entries, allowed.Keys) {
      ScanTopPasses(v.entries, allowed);
    }
  }

  /** `RulesCollection.check_validation`, with its two nested loops. */
  method CheckValidation(v: Value, allowed: map<string, seq<string>>) returns (r: Verdict)
    ensures r == ValidationVerdict(v, allowed)
  {
    if !v.VDict? {
      return Fail("not a dictionary", NoDetail);
    }
    if !KeysAmong(v.entries, allowed.Keys) {
      if exists e :: e in v.entries && !e.0.VStr? {
        return Raise(TypeError);
      }
      return Fail("not allowed", Names(UnknownNames(v.entries, allowed.Keys)));
    }
    var entries := v.entries;
    var i := 0;
    while i < |entries|
      invariant 0 <= i <= |entries|
      invariant ScanTop(entries, allowed) == ScanTop(entries[i..], allowed)
    {
      assert entries[i..][0] == entries[i] && entries[i..][1..] == entries[i + 1..];
      assert entries[i] in entries;
      var nested := entries[i].1;
      if !nested.VDict? {
        return Fail("not a nested dictionary", NoDetail);
      }
      var accepted := allowed[entries[i].0.s];
      var conditions := nested.entries;
      var j := 0;
      while j < |conditions|
        invariant 0 <= j <= |conditions|
        invariant ScanNested(conditions, accepted) == ScanNested(conditions[j..], accepted)
      {
        assert conditions[j..][0] == conditions[j] && conditions[j..][1..] == conditions[j + 1..];
        if !IsNameIn(conditions[j].0, accepted) {
          return Fail("not allowed", Item(conditions[j].0));
        }
        if !conditions[j].1.VList? {
          return Fail("not a list", Item(conditions[j].1));
        }
        j := j + 1;
      }
      i := i + 1;
    }
    return Pass;
  }

  /** An entry whose value is not a number. */
  predicate NotNumericEntry(e: (Value, Value))
  {
    !IsNumber(e.1)
  }

  /** The keys whose value is not a number, in iteration order: the keys
      of the entries the comprehension keeps. */
  function NotNumericKeys(entries: seq<(Value, Value)>): (r: seq<Value>)
    ensures forall k :: k in r <==> exists x :: (k, x) in entries && !IsNumber(x)
    ensures r == [] <==> forall e :: e in entries ==> IsNumber(e.1)
  {
    if entries == [] then []
    else
      var rest := NotNumericKeys(entries[1..]);
      assert forall k, x :: (k, x) in entries <==> (k, x) == entries[0] || (k, x) in entries[1..];
      if IsNumber(entries[0].1) then rest else [entries[0].0] + rest
  }

  /** The keys reported are those of the comprehension over the entries,
      in the same order and with the same repetitions. */
  lemma {:induction false} NotNumericKeysInOrder(entries: seq<(Value, Value)>)
    ensures NotNumericKeys(entries) == KeysOf(Filter(entries, NotNumericEntry))
  {
    if entries != [] {
      NotNumericKeysInOrder(entries[1..]);
      var head := if NotNumericEntry(entries[0]) then [entries[0]] else [];
      assert Filter(entries, NotNumericEntry) == head + Filter(entries[1..], NotNumericEntry);
      KeysOfConcat(head, Filter(entries[1..], NotNumericEntry));
    }
  }

  /** The keys of two runs of entries, one after the other. */
  lemma KeysOfConcat(a: seq<(Value, Value)>, b: seq<(Value, Value)>)
    ensures KeysOf(a + b) == KeysOf(a) + KeysOf(b)
  {
  }

  /** `RulesCollection.check_normalization`: a mapping whose keys are
      accepted terms and whose values are numbers; joining the unknown
      keys raises TypeError when one is not a string. */
  function CheckNormalization(v: Value, allowed: seq<string>): (r: Verdict)
    ensures !v.VDict? ==> r == Fail("not a dictionary", NoDetail)
    ensures v.VDict? ==>
      (r == Pass <==> KeysAmong(v.entries, ToSet(allowed)) && forall e :: e in v.entries ==> IsNumber(e.1))
    ensures v.VDict? ==> (r == Raise(TypeError) <==> exists e :: e in v.entries && !e.0.VStr?)
    ensures v.VDict? && KeysAmong(v.entries, ToSet(allowed)) && r != Pass ==>
      (r.Fail? && r.code == "not numeric" && r.detail.Items? &&
       (forall k :: k in r.detail.items <==> exists x :: (k, x) in v.entries && !IsNumber(x)) &&
       r.detail.items == KeysOf(Filter(v.entries, NotNumericEntry)))
    ensures v.VDict? && !KeysAmong(v.entries, ToSet(allowed)) && r != Raise(TypeError) ==>
      r == Fail("not allowed", Names(UnknownNames(v.entries, ToSet(allowed))))
  {
    if !v.VDict? then Fail("not a dictionary", NoDetail)
    else if KeysAmong(v.entries, ToSet(allowed)) then
      NotNumericKeysInOrder(v.entries);
      var notNumeric := NotNumericKeys(v.entries);
      if |notNumeric| > 0 then Fail("not numeric", Items(notNumeric)) else Pass
    else if exists e :: e in v.entries && !e.0.VStr? then Raise(TypeError)
    else Fail("not allowed", Names(UnknownNames(v.entries, ToSet(allowed))))
  }

  /** The elements of a list, as `issubset` sees them. */
  function ToSet(xs: seq<string>): (r: set<string>)
    ensures forall x :: x in r <==> x in xs
  {
    set x | x in xs
  }

  /** `RulesCollection.check_allowed`: a string among the reference
      terms. */
  function CheckAllowed(v: Value, allowed: seq<string>): (r: Verdict)
    ensures r == Pass <==> IsNameIn(v, allowed)
    ensures !v.VStr? ==> r == Fail("not a string", NoDetail)
    ensures v.VStr? && r != Pass ==> r == Fail("not allowed", Item(v))
  {
    if v.VStr? then
      if v.s !in allowed then Fail("not allowed", Item(v)) else Pass
    else Fail("not a string", NoDetail)
  }

  /** The eight rules `RulesCollection.check_rule` recognises. */
  datatype RuleKind = Normalization | Validation | Remap | Expected | Ontology | Blank | Missing | Format

  function KindName(k: RuleKind): string
  {
    match k
    case Normalization => "normalization"
    case Validation => "validation"
    case Remap => "remap"
    case Expected => "expected"
    case Ontology => "ontology"
    case Blank => "blank"
    case Missing => "missing"
    case Format => "format"
  }

  /** `rule in rule_type_map`: only the eight names are recognised, and a
      rule key that is not a string never is. */
  function KindOf(rule: Value): (r: Option<RuleKind>)
    ensures r.Some? ==> rule == VStr(KindName(r.value))
  {
    if !rule.VStr? then None
    else match rule.s
      case "normalization" => Some(Normalization)
      case "validation" => Some(Validation)
      case "remap" => Some(Remap)
      case "expected" => Some(Expected)
      case "ontology" => Some(Ontology)
      case "blank" => Some(Blank)
      case "missing" => Some(Missing)
      case "format" => Some(Format)
      case _ => None
  }

  /** Rule names and kinds are in one-to-one correspondence. */
  lemma KindNameRoundTrip(k: RuleKind)
    ensures KindOf(VStr(KindName(k))) == Some(k)
  {
  }

  /** The sub-dictionary of `Rules.rules` each kind is filed under. */
  datatype Bucket = Edits | Lookups | Allowed

  function BucketOf(k: RuleKind): (b: Bucket)
    ensures b == Edits <==> k in {Normalization, Validation, Remap}
    ensures b == Lookups <==> k in {Expected, Ontology}
    ensures b == Allowed <==> k in {Blank, Missing, Format}
  {
    match k
    case Normalization => Edits
    case Validation => Edits
    case Remap => Edits
    case Expected => Lookups
    case Ontology => Lookups
    case Blank => Allowed
    case Missing => Allowed
    case Format => Allowed
  }

  function BucketName(b: Bucket): string
  {
    match b
    case Edits => "edits"
    case Lookups => "lookups"
    case Allowed => "allowed"
  }

  /** The checker `check_rule` applies to a recognised rule, with the
      rule's reference entry; ontology, blank, missing and format all go
      through `check_allowed`. */
  function Check(k: RuleKind, v: Value, ref: Reference): (r: Verdict)
    ensures r.Raise? ==> (k == Validation || k == Normalization) && r.error == TypeError
  {
    match k
    case Normalization => CheckNormalization(v, ref.normalization)
    case Validation => ValidationVerdict(v, ref.validation)
    case Remap => CheckRemap(v)
    case Expected => CheckExpected(v)
    case Ontology => CheckAllowed(v, ref.ontology)
    case Blank => CheckAllowed(v, ref.blank)
    case Missing => CheckAllowed(v, ref.missing)
    case Format => CheckAllowed(v, ref.format)
  }
}
