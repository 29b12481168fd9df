/**
 * The first, fail-fast rule checker: one boolean test per rule kind and
 * a dispatcher that files an accepted rule value into the caller's rules
 * dictionary and raises the matching error class on the first rejected
 * one.
 */
module CheckRules {
  import opened PyValues
  import opened Text
  import opened NormErrors

  /** The one condition this checker accepts under `force_to_blank_if`;
      note the space, where `ValidationError` expects `is_null`. */
  const IsNull: string := "is null"

  /** `check_expected`: a list whose items are all strings. */
  function CheckExpected(v: Value): (ok: bool)
    ensures ok <==> v.VList? && forall x :: x in v.items ==> IsStr(x)
  {
    v.VList? && |Filter(v.items, IsStr)| == |v.items|
  }

  /** `check_ontology`: the one known ontology name. */
  function CheckOntology(v: Value): (ok: bool)
    ensures ok <==> v == VStr("Gazetteer ontology")
  {
    v.VStr? && v.s in Ontologies
  }

  /** `check_remap`: a mapping whose values are all strings (keys are not
      inspected). */
  function CheckRemap(v: Value): (ok: bool)
    ensures ok <==> v.VDict? && forall e :: e in v.entries ==> IsStr(e.1)
  {
    v.VDict? && |Filter(v.entries, (e: (Value, Value)) => IsStr(e.1))| == |v.entries|
  }

  /** `check_normalization`: a mapping whose keys are all among
      `maximum`, `mininum` and `gated_value` (values are not inspected). */
  function CheckNormalization(v: Value): (ok: bool)
    ensures ok <==> v.VDict? && forall k :: k in KeysOf(v.entries) ==> IsNameIn(k, NormalizationTerms)
  {
    v.VDict? && Filter(KeysOf(v.entries), (k: Value) => !IsNameIn(k, NormalizationTerms)) == []
  }

  /** `check_str` */
  function CheckStr(v: Value): bool
  {
    v.VStr?
  }

  /** What `check_validation` returns or raises: a mapping whose only key
      is `force_to_blank_if` passes when some nested condition is
      `is null` with a list of variables. The nested lookup raises
      KeyError on an empty mapping and `.items()` raises AttributeError
      when the nested value is not a mapping. */
  function ValidationAccepts(v: Value): (r: Outcome<bool>)
    ensures r == Raised(KeyError) <==> v == VDict([])
    ensures r.Raised? ==> r == Raised(KeyError) || r == Raised(AttributeError)
    ensures r == Ok(true) ==> v.VDict? && forall e :: e in v.entries ==> e.0 == VStr(ForceToBlankIf)
    ensures !v.VDict? ==> r == Ok(false)
    ensures v.VDict? && (exists e :: e in v.entries && e.0 != VStr(ForceToBlankIf)) ==> r == Ok(false)
    ensures r == Raised(AttributeError) ==>
      v.VDict? && Lookup(v.entries, VStr(ForceToBlankIf)).Some? && !Lookup(v.entries, VStr(ForceToBlankIf)).value.VDict?
  {
    if !v.VDict? then Ok(false)
    else if exists e :: e in v.entries && e.0 != VStr(ForceToBlankIf) then Ok(false)
    else
      assert v.entries != [] ==> v.entries[0] in v.entries && v.entries[0] == (VStr(ForceToBlankIf), v.entries[0].1);
      match Lookup(v.entries, VStr(ForceToBlankIf))
      case None => Raised(KeyError)
      case Some(nested) =>
        if !nested.VDict? then Raised(AttributeError)
        else Ok(exists e :: e in nested.entries && e.0 == VStr(IsNull) && e.1.VList?)
  }

  /** `check_validation`, with its loop over the nested conditions that
      returns on the first acceptable one. */
  method CheckValidation(v: Value) returns (r: Outcome<bool>)
    ensures r == ValidationAccepts(v)
  {
    if !v.VDict? {
      return Ok(false);
    }
    if exists e :: e in v.entries && e.0 != VStr(ForceToBlankIf) {
      return Ok(false);
    }
    var found := Lookup(v.entries, VStr(ForceToBlankIf));
    if found.None? {
      return Raised(KeyError);
    }
    if !found.value.VDict? {
      return Raised(AttributeError);
    }
    var conditions := found.value.entries;
    var i := 0;
    while i < |conditions|
      invariant 0 <= i <= |conditions|
      invariant forall j :: 0 <= j < i ==> !(conditions[j].0 == VStr(IsNull) && conditions[j].1.VList?)
    {
      if conditions[i].1.VList? && conditions[i].0 == VStr(IsNull) {
        assert conditions[i] in conditions;
        return Ok(true);
      }
      i := i + 1;
    }
    return Ok(false);
  }

  /** Where the dispatcher files an accepted rule value. */
  datatype Slot = InLookups | InEdits | InAllowed | AtFormat

  /** The branch of the dispatcher a rule name takes: its slot and the
      error class raised on rejection; None for an unknown rule, which is
      ignored. */
  function Dispatch(rule: string): (r: Option<(Slot, ErrorClass)>)
    ensures r.Some? ==> RuleOf(r.value.1) == if rule == "blank" then "format" else rule
    ensures r.Some? && r.value.0 == AtFormat <==> rule == "format"
    ensures r.Some? && r.value.0 == InLookups <==> rule == "expected" || rule == "ontology"
    ensures r.Some? && r.value.0 == InEdits <==> rule == "remap" || rule == "validation" || rule == "normalization"
    ensures r.Some? && r.value.0 == InAllowed <==> rule == "blank" || rule == "missing"
    ensures r.None? <==> rule !in {"expected", "ontology", "remap", "validation", "normalization", "blank", "missing", "format"}
  {
    match rule
    case "expected" => Some((InLookups, ExpectedError))
    case "ontology" => Some((InLookups, OntologyError))
    case "remap" => Some((InEdits, RemapError))
    case "validation" => Some((InEdits, ValidationError))
    case "normalization" => Some((InEdits, NormalizationError))
    case "blank" => Some((InAllowed, BlankError))
    case "missing" => Some((InAllowed, MissingError))
    case "format" => Some((AtFormat, FormatError))
    case _ => None
  }

  /** The test the dispatcher applies to a known rule. */
  function Accepts(rule: string, v: Value): (r: Outcome<bool>)
    ensures r.Raised? ==> rule == "validation"
    ensures rule == "blank" || rule == "missing" || rule == "format" ==> r == Ok(IsStr(v))
  {
    match rule
    case "expected" => Ok(CheckExpected(v))
    case "ontology" => Ok(CheckOntology(v))
    case "remap" => Ok(CheckRemap(v))
    case "validation" => ValidationAccepts(v)
    case "normalization" => Ok(CheckNormalization(v))
    case _ => Ok(CheckStr(v))
  }

  /** The caller's rules dictionary as a value: the `edits`, `lookups`
      and `allowed` sub-dictionaries and the top-level `format` entry. */
  datatype RulesValue = RulesValue(edits: map<string, Value>, lookups: map<string, Value>, allowed: map<string, Value>, format: Value)

  /** What `check_rule` lets escape: the rule's error, or a built-in
      exception raised while checking or while building the error. */
  datatype Thrown = RuleFailure(error: RuleError) | Fault(fault: PyError)

  /** `rules[slot][rule] = value`: in the slot the dispatcher picks for
      `rule`, the rule reads back the new value and no other rule's entry
      changes. */
  function Store(s: RulesValue, slot: Slot, rule: string, v: Value): (t: RulesValue)
    ensures Dispatch(rule).Some? && Dispatch(rule).value.0 == slot ==>
      Filed(t, rule) == Some(v) && forall r :: r != rule ==> Filed(t, r) == Filed(s, r)
  {
    match slot
    case InLookups => s.(lookups := s.lookups[rule := v])
    case InEdits => s.(edits := s.edits[rule := v])
    case InAllowed => s.(allowed := s.allowed[rule := v])
    case AtFormat => s.(format := v)
  }

  /** What a rule name reads back from the dictionary after filing:
      the entry of its slot, if there is one. */
  function Filed(s: RulesValue, rule: string): Option<Value>
  {
    match Dispatch(rule)
    case None => None
    case Some((slot, _)) =>
      match slot
      case InLookups => if rule in s.lookups then Some(s.lookups[rule]) else None
      case InEdits => if rule in s.edits then Some(s.edits[rule]) else None
      case InAllowed => if rule in s.allowed then Some(s.allowed[rule]) else None
      case AtFormat => Some(s.format)
  }

  /** The effect of `check_rule` on the dictionary and what it raises. */
  function CheckRuleEffect(s: RulesValue, variable: string, rule: string, v: Value): (r: (RulesValue, Option<Thrown>))
    ensures r.1.Some? ==> r.0 == s
    ensures Dispatch(rule).None? ==> r == (s, None)
    ensures r.1.None? && Dispatch(rule).Some? ==> Accepts(rule, v) == Ok(true) && Filed(r.0, rule) == Some(v)
    ensures Dispatch(rule).Some? && Accepts(rule, v) == Ok(true) ==> r.1.None?
  {
    match Dispatch(rule)
    case None => (s, None)
    case Some((slot, cls)) =>
      match Accepts(rule, v)
      case Raised(e) => (s, Some(Fault(e)))
      case Ok(true) => (Store(s, slot, rule, v), None)
      case Ok(false) =>
        match NewRuleError(cls, variable, v)
        case Ok(err) => (s, Some(RuleFailure(err)))
        case Raised(e) => (s, Some(Fault(e)))
  }

  /** The rules dictionary `check_rule` fills in place. */
  class RulesDict {
    var edits: map<string, Value>
    var lookups: map<string, Value>
    var allowed: map<string, Value>
    var format: Value

    ghost function Contents(): RulesValue
      reads this
    {
      RulesValue(edits, lookups, allowed, format)
    }

    /** The empty dictionary callers pass in: default edits and lookups,
        no blank or missing term, no format. */
    constructor()
      ensures Contents() == RulesValue(
        map["remap" := VDict([]), "normalization" := VDict([]), "validation" := VDict([])],
        map["ontology" := VNone, "expected" := VList([])],
        map["blank" := VNone, "missing" := VNone],
        VNone)
    {
      edits := map["remap" := VDict([]), "normalization" := VDict([]), "validation" := VDict([])];
      lookups := map["ontology" := VNone, "expected" := VList([])];
      allowed := map["blank" := VNone, "missing" := VNone];
      format := VNone;
    }

    /** `rules[slot][rule] = value` */
    method File(slot: Slot, rule: string, v: Value)
      modifies this
      ensures Contents() == Store(old(Contents()), slot, rule, v)
    {
      match slot
      case InLookups => lookups := lookups[rule := v];
      case InEdits => edits := edits[rule := v];
      case InAllowed => allowed := allowed[rule := v];
      case AtFormat => format := v;
    }

    /** `check_rule(variable, rules, rule, rule_value)`: the chain of
        rule names picks the test, the slot and the error class. */
    method CheckRule(variable: string, rule: string, v: Value) returns (raised: Option<Thrown>)
      modifies this
      ensures (Contents(), raised) == CheckRuleEffect(old(Contents()), variable, rule, v)
    {
      var ok: bool;
      var slot: Slot;
      var cls: ErrorClass;
      match rule {
        case "expected" =>
          ok, slot, cls := CheckExpected(v), InLookups, ExpectedError;
        case "ontology" =>
          ok, slot, cls := CheckOntology(v), InLookups, OntologyError;
        case "remap" =>
          ok, slot, cls := CheckRemap(v), InEdits, RemapError;
        case "validation" =>
          var r := CheckValidation(v);
          if r.Raised? {
            return Some(Fault(r.error));
          }
          ok, slot, cls := r.value, InEdits, ValidationError;
        case "normalization" =>
          ok, slot, cls := CheckNormalization(v), InEdits, NormalizationError;
        case "blank" =>
          ok, slot, cls := CheckStr(v), InAllowed, BlankError;
        case "missing" =>
          ok, slot, cls := CheckStr(v), InAllowed, MissingError;
        case "format" =>
          ok, slot, cls := CheckStr(v), AtFormat, FormatError;
        case _ =>
          return None;
      }
      raised := Conclude(variable, rule, v, ok, slot, cls);
    }

    /** The tail of `check_rule` once the test has run: file an accepted
        value, or build the rule's error for a rejected one. */
    method Conclude(variable: string, rule: string, v: Value, ok: bool, slot: Slot, cls: ErrorClass) returns (raised: Option<Thrown>)
      requires Dispatch(rule) == Some((slot, cls)) && Accepts(rule, v) == Ok(ok)
      modifies this
      ensures (Contents(), raised) == CheckRuleEffect(old(Contents()), variable, rule, v)
    {
      if ok {
        File(slot, rule, v);
        return None;
      }
      var e := NewRuleError(cls, variable, v);
      if e.Raised? {
        return Some(Fault(e.error));
      }
      return Some(RuleFailure(e.value));
    }
  }

  /** `check_rule` is fail-fast: it files the value under the rule's own
      slot exactly when it raises nothing for a known rule, touches no
      other entry, and leaves the dictionary as it was when it raises. */
  lemma CheckRuleFilesOnlyAccepted(s: RulesValue, variable: string, rule: string, v: Value)
    ensures var (t, raised) := CheckRuleEffect(s, variable, rule, v);
      && (raised.Some? ==> t == s)
      && (Dispatch(rule).None? ==> t == s && raised == None)
      && (Dispatch(rule).Some? && raised == None ==> Filed(t, rule) == Some(v) && Accepts(rule, v) == Ok(true))
      && (Dispatch(rule).Some? && Accepts(rule, v) == Ok(true) ==> raised == None && Filed(t, rule) == Some(v))
      && (Dispatch(rule).Some? && Accepts(rule, v) != Ok(true) ==> raised.Some? && t == s)
      && (forall r :: r != rule ==> Filed(t, r) == Filed(s, r))
  {
    match Dispatch(rule)
    case None =>
    case Some((slot, cls)) =>
      match Accepts(rule, v)
      case Raised(_) =>
      case Ok(ok) =>
        if ok {
          StoreFiles(s, rule, v);
        } else {
          assert CheckRuleEffect(s, variable, rule, v).0 == s;
        }
  }

  /** Filing a known rule makes it read back its value and leaves what
      every other rule reads back as it was. */
  lemma StoreFiles(s: RulesValue, rule: string, v: Value)
    requires Dispatch(rule).Some?
    ensures var t := Store(s, Dispatch(rule).value.0, rule, v);
      Filed(t, rule) == Some(v) && forall r :: r != rule ==> Filed(t, r) == Filed(s, r)
  {
    var t := Store(s, Dispatch(rule).value.0, rule, v);
    forall r | r != rule ensures Filed(t, r) == Filed(s, r) {
      if Dispatch(r).Some? && Dispatch(r).value.0 == AtFormat {
        assert r == "format";
      }
    }
  }

  /** A rejected rule raises the error class of its kind, carrying the
      variable and the value as given; a built-in exception escapes only
      from a validation or normalization rule. */
  lemma CheckRuleRaisesItsClass(s: RulesValue, variable: string, rule: string, v: Value)
    ensures var (_, raised) := CheckRuleEffect(s, variable, rule, v);
      && (raised.Some? && raised.value.RuleFailure? ==>
            Dispatch(rule).Some? && Accepts(rule, v) == Ok(false) &&
            var e := raised.value.error;
            e.cls == Dispatch(rule).value.1 && e.rule == RuleOf(e.cls) && e.variable == variable && e.value == v)
      && (raised.Some? && raised.value.Fault? ==> rule == "validation" || rule == "normalization")
  {
    match Dispatch(rule)
    case None =>
    case Some((slot, cls)) =>
      match Accepts(rule, v)
      case Raised(_) =>
      case Ok(b) =>
        if !b {
          var r := NewRuleError(cls, variable, v);
          if r.Raised? {
            assert RuleOf(cls) == "validation" || RuleOf(cls) == "normalization";
          }
        }
  }

  /** Apart from validation, each boolean test and the `get_message` of
      its error class agree: the test fails exactly when there is
      something to say, and the message never raises when the test
      passes. */
  lemma CheckersAgreeWithMessages(v: Value)
    ensures CheckExpected(v) <==> ExpectedMessage(v) == None
    ensures CheckOntology(v) <==> OntologyMessage(v) == None
    ensures CheckRemap(v) <==> RemapMessage(v) == None
    ensures CheckNormalization(v) <==> NormalizationMessage(v) == Ok(None)
  {
  }

  /** The two validation vocabularies differ (`is null` here, `is_null`
      in `ValidationError`), so a rule written the way `ValidationError`
      wants is rejected, and the error raised for it has no message. */
  lemma {:induction false} RejectedValidationWithoutMessage(v: Value)
    requires v.VDict?
    requires forall e :: e in v.entries ==> e.0 == VStr(ForceToBlankIf)
    requires Lookup(v.entries, VStr(ForceToBlankIf)).Some?
    requires Lookup(v.entries, VStr(ForceToBlankIf)).value.VDict?
    requires forall e :: e in Lookup(v.entries, VStr(ForceToBlankIf)).value.entries ==> GoodCondition(e)
    ensures ValidationAccepts(v) == Ok(false)
    ensures ValidationMessage(v) == Ok(None)
  {
    ValidationMessageNone(v);
    var nested := Lookup(v.entries, VStr(ForceToBlankIf)).value;
    forall e | e in nested.entries ensures e.0 != VStr(IsNull) {
      assert GoodCondition(e);
      assert "is null" != "is_null";
    }
  }

  /** The checker accepts a `force_to_blank_if` mapping exactly when one of
      its nested conditions is a list under `is null`, whatever the other
      nested conditions hold. */
  lemma OneGoodConditionSuffices(nested: seq<(Value, Value)>)
    ensures ValidationAccepts(VDict([(VStr(ForceToBlankIf), VDict(nested))])) == Ok(true) <==>
      exists e :: e in nested && e.0 == VStr(IsNull) && e.1.VList?
  {
    var v := VDict([(VStr(ForceToBlankIf), VDict(nested))]);
    assert v.entries[0] in v.entries;
    assert Lookup(v.entries, VStr(ForceToBlankIf)) == Some(VDict(nested));
  }

  /** Every validation rule the checker accepts would, had it been
      rejected, get a ValidationError with a message: the accepting
      `is null` condition is one `ValidationError` does not accept. */
  lemma AcceptedValidationHasMessage(v: Value)
    requires ValidationAccepts(v) == Ok(true)
    ensures ValidationMessage(v).Ok? && ValidationMessage(v).value.Some?
  {
    var nested := Lookup(v.entries, VStr(ForceToBlankIf)).value;
    var e :| e in nested.entries && e.0 == VStr(IsNull) && e.1.VList?;
    assert !GoodCondition(e) by { assert "is null" != "is_null"; }
    ValidationMessageNone(v);
    if ValidationMessage(v).Raised? {
      ValidationMessageTypeError(v);
      assert false;
    }
  }
}
