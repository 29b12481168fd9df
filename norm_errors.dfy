/**
 * The error classes of the rule checker, one per rule kind. Each error
 * stores the variable and the offending rule value, fixes its rule name,
 * and (for the first five kinds) classifies at construction time what is
 * wrong with the value. Rendering an error gives a generic preamble that
 * shows the value as a commented YAML block, then ` -> ` and the cause.
 *
 * `yaml.dump` and Python's `str()` of an arbitrary value are parameters
 * (`dump`, `show`): the model does not fix how values are printed.
 */
module NormErrors {
  import opened PyValues
  import opened Text

  /** The eight exception classes. */
  datatype ErrorClass =
    | ExpectedError
    | OntologyError
    | RemapError
    | ValidationError
    | NormalizationError
    | BlankError
    | MissingError
    | FormatError

  /** What `get_message` found wrong, before it is put into words. */
  datatype Cause =
    | IsNotAList
    | NotAllItemsStrings
    | IsNotAString
    | NoneOf(ontologies: seq<string>)
    | IsNotADictionary
    | NotAllValuesStrings
    | InacceptableValidations(validations: seq<string>)
    | NotInAList(condition: Value)
    | InacceptableCondition(badCondition: Value)
    | ImpossibleTerms(terms: seq<string>)

  /** An error instance: its class, the `rule` attribute, the variable
      and value it was built from, and the `message` attribute (None when
      `get_message` returned None or the class has no `get_message`). */
  datatype RuleError = RuleError(cls: ErrorClass, rule: string, variable: string, value: Value, message: Option<Cause>)

  /** The ontologies `OntologyError` accepts. */
  const Ontologies: seq<string> := ["Gazetteer ontology"]

  /** The one accepted top-level validation key. */
  const ForceToBlankIf: string := "force_to_blank_if"

  /** The conditions `ValidationError` accepts under it; note the
      underscore, where the checkers spell the condition `is null`. */
  const MessageConditions: seq<string> := ["is_null"]

  /** The accepted normalization terms, with the source's `mininum`. */
  const NormalizationTerms: seq<string> := ["maximum", "mininum", "gated_value"]

  /** The `rule` attribute each constructor sets. `BlankError` records
      `format`, as the source does. */
  function RuleOf(c: ErrorClass): string
  {
    match c
    case ExpectedError => "expected"
    case OntologyError => "ontology"
    case RemapError => "remap"
    case ValidationError => "validation"
    case NormalizationError => "normalization"
    case BlankError => "format"
    case MissingError => "missing"
    case FormatError => "format"
  }

  /** Two error classes share a rule name only when they are `BlankError`
      and `FormatError`: every other rule name identifies its class. */
  lemma RuleNamesCollide(c: ErrorClass, d: ErrorClass)
    ensures RuleOf(c) == RuleOf(d) <==> c == d || (c in {BlankError, FormatError} && d in {BlankError, FormatError})
  {
  }

  /** The three classes without `get_message`, whose cause is always
      `is not a string`. */
  predicate IsStringRuleClass(c: ErrorClass)
  {
    c == BlankError || c == MissingError || c == FormatError
  }

  /** `ExpectedError.get_message` */
  function ExpectedMessage(v: Value): (r: Option<Cause>)
    ensures r == None <==> v.VList? && forall x :: x in v.items ==> IsStr(x)
    ensures !v.VList? ==> r == Some(IsNotAList)
    ensures v.VList? && r != None ==> r == Some(NotAllItemsStrings)
  {
    if !v.VList? then Some(IsNotAList)
    else if |Filter(v.items, IsStr)| != |v.items| then Some(NotAllItemsStrings)
    else None
  }

  /** `OntologyError.get_message` */
  function OntologyMessage(v: Value): (r: Option<Cause>)
    ensures r == None <==> v == VStr("Gazetteer ontology")
    ensures !v.VStr? ==> r == Some(IsNotAString)
    ensures v.VStr? && r != None ==> r == Some(NoneOf(["Gazetteer ontology"]))
  {
    if !v.VStr? then Some(IsNotAString)
    else if v.s !in Ontologies then Some(NoneOf(Ontologies))
    else None
  }

  /** `RemapError.get_message`: only the values of the mapping are
      inspected. */
  function RemapMessage(v: Value): (r: Option<Cause>)
    ensures r == None <==> v.VDict? && forall e :: e in v.entries ==> IsStr(e.1)
    ensures !v.VDict? ==> r == Some(IsNotADictionary)
    ensures v.VDict? && r != None ==> r == Some(NotAllValuesStrings)
  {
    if !v.VDict? then Some(IsNotADictionary)
    else if |Filter(v.entries, (e: (Value, Value)) => IsStr(e.1))| != |v.entries| then Some(NotAllValuesStrings)
    else None
  }

  /** A nested condition `ValidationError.get_message` lets pass: its
      variables are in a list and the condition is `is_null`. */
  predicate GoodCondition(e: (Value, Value))
  {
    e.1.VList? && IsNameIn(e.0, MessageConditions)
  }

  /** What `ValidationError.get_message` says about a bad nested
      condition: the list test comes before the name test. */
  function ConditionComplaint(e: (Value, Value)): Cause
  {
    if !e.1.VList? then NotInAList(e.0) else InacceptableCondition(e.0)
  }

  /** The position where the loop over the nested conditions returns,
      or their number when it runs to the end. */
  function FirstBadIndex(conditions: seq<(Value, Value)>): (i: nat)
    ensures i <= |conditions|
    ensures forall j :: 0 <= j < i ==> GoodCondition(conditions[j])
    ensures i < |conditions| ==> !GoodCondition(conditions[i])
  {
    if conditions == [] then 0
    else if !GoodCondition(conditions[0]) then 0
    else 1 + FirstBadIndex(conditions[1..])
  }

  /** The loop of `ValidationError.get_message` over the nested
      conditions: the complaint about the first bad one, if any. */
  function FirstBadCondition(conditions: seq<(Value, Value)>): (r: Option<Cause>)
    ensures r == None <==> forall e :: e in conditions ==> GoodCondition(e)
    ensures r.Some? ==> exists i :: (0 <= i < |conditions| && !GoodCondition(conditions[i]) &&
      (forall j :: 0 <= j < i ==> GoodCondition(conditions[j])) &&
      r.value == ConditionComplaint(conditions[i]))
  {
    var i := FirstBadIndex(conditions);
    if i == |conditions| then
      assert forall e :: e in conditions ==> GoodCondition(e) by {
        forall e | e in conditions ensures GoodCondition(e) {
          var j :| 0 <= j < |conditions| && conditions[j] == e;
        }
      }
      None
    else
      assert conditions[i] in conditions;
      Some(ConditionComplaint(conditions[i]))
  }

  /** The top-level keys of a validation rule other than
      `force_to_blank_if`, in iteration order. */
  function ExtraKeys(entries: seq<(Value, Value)>): (r: seq<Value>)
    ensures forall k :: k in r <==> k != VStr(ForceToBlankIf) && k in KeysOf(entries)
  {
    if entries == [] then []
    else
      var rest := ExtraKeys(entries[1..]);
      assert KeysOf(entries) == [entries[0].0] + KeysOf(entries[1..]);
      if entries[0].0 != VStr(ForceToBlankIf) then [entries[0].0] + rest else rest
  }

  /** `ValidationError.get_message`. Sorting and joining the unaccepted
      top-level keys raise TypeError when one is not a string; the lookup
      of `force_to_blank_if` raises KeyError on an empty mapping, and
      `.items()` raises AttributeError when it is not a mapping. */
  function ValidationMessage(v: Value): (r: Outcome<Option<Cause>>)
    ensures !v.VDict? ==> r == Ok(Some(IsNotADictionary))
    ensures v.VDict? && v.entries == [] ==> r == Raised(KeyError)
    ensures r.Ok? && r.value.Some? && r.value.value.InacceptableValidations? ==>
      StrictlySorted(r.value.value.validations)
    ensures (v.VDict? && (forall k :: k in KeysOf(v.entries) ==> k == VStr(ForceToBlankIf)) &&
             Lookup(v.entries, VStr(ForceToBlankIf)).Some?) ==>
        r == if Lookup(v.entries, VStr(ForceToBlankIf)).value.VDict?
          then Ok(FirstBadCondition(Lookup(v.entries, VStr(ForceToBlankIf)).value.entries))
          else Raised(AttributeError)
  {
    if !v.VDict? then Ok(Some(IsNotADictionary))
    else
      var extra := ExtraKeys(v.entries);
      assert extra != [] ==> extra[0] in extra;
      if extra != [] then
        if exists k :: k in extra && !k.VStr? then Raised(TypeError)
        else Ok(Some(InacceptableValidations(SortedUnique(Strings(extra)))))
      else
        match Lookup(v.entries, VStr(ForceToBlankIf))
        case None => Raised(KeyError)
        case Some(nested) =>
          if !nested.VDict? then Raised(AttributeError)
          else Ok(FirstBadCondition(nested.entries))
  }

  /** Every unaccepted top-level key is named, each once, in sorted
      order, as long as they are all strings. */
  lemma ValidationMessageNamesExtraKeys(v: Value)
    requires v.VDict?
    requires exists k :: k in KeysOf(v.entries) && k != VStr(ForceToBlankIf)
    requires forall k :: k in KeysOf(v.entries) ==> k.VStr?
    ensures var r := ValidationMessage(v);
      r.Ok? && r.value.Some? && r.value.value.InacceptableValidations? &&
      StrictlySorted(r.value.value.validations) &&
      forall n :: n in r.value.value.validations <==> n != ForceToBlankIf && VStr(n) in KeysOf(v.entries)
  {
    var extra := ExtraKeys(v.entries);
    var k :| k in KeysOf(v.entries) && k != VStr(ForceToBlankIf);
    assert k in extra;
    var names := Strings(extra);
    assert ValidationMessage(v) == Ok(Some(InacceptableValidations(SortedUnique(names))));
    forall n ensures n in names <==> VStr(n) in extra {
      if n in names {
        var i :| 0 <= i < |names| && names[i] == n;
        assert extra[i] == VStr(n);
      }
      if VStr(n) in extra {
        var i :| 0 <= i < |extra| && extra[i] == VStr(n);
        assert names[i] == n;
      }
    }
  }

  /** `ValidationError.get_message` raises TypeError exactly when some
      top-level key is not a string. */
  lemma ValidationMessageTypeError(v: Value)
    requires v.VDict?
    ensures ValidationMessage(v) == Raised(TypeError) <==> exists k :: k in KeysOf(v.entries) && !k.VStr?
  {
    var extra := ExtraKeys(v.entries);
    if exists k :: k in KeysOf(v.entries) && !k.VStr? {
      var k :| k in KeysOf(v.entries) && !k.VStr?;
      assert k in extra;
    }
  }

  /** `ValidationError.get_message` finds nothing wrong exactly when the
      only key is `force_to_blank_if`, it holds a mapping, and every
      nested condition is `is_null` with a list of variables. */
  lemma ValidationMessageNone(v: Value)
    requires v.VDict?
    ensures ValidationMessage(v) == Ok(None) <==>
      (forall k :: k in KeysOf(v.entries) ==> k == VStr(ForceToBlankIf)) &&
      Lookup(v.entries, VStr(ForceToBlankIf)).Some? &&
      Lookup(v.entries, VStr(ForceToBlankIf)).value.VDict? &&
      forall e :: e in Lookup(v.entries, VStr(ForceToBlankIf)).value.entries ==> GoodCondition(e)
  {
    var extra := ExtraKeys(v.entries);
    if extra != [] {
      assert extra[0] in extra;
      assert extra[0] in KeysOf(v.entries) && extra[0] != VStr(ForceToBlankIf);
      assert ValidationMessage(v) != Ok(None);
    } else {
      forall k | k in KeysOf(v.entries) ensures k == VStr(ForceToBlankIf) {
        assert k !in extra;
      }
      var l := Lookup(v.entries, VStr(ForceToBlankIf));
      if l.None? {
        assert ValidationMessage(v) == Raised(KeyError);
      } else if !l.value.VDict? {
        assert ValidationMessage(v) == Raised(AttributeError);
      } else {
        assert ValidationMessage(v) == Ok(FirstBadCondition(l.value.entries));
      }
    }
  }

  /** The keys of a normalization rule that are not normalization terms,
      in iteration order. */
  function UnknownTerms(entries: seq<(Value, Value)>): (r: seq<Value>)
    ensures forall k :: k in r <==> k in KeysOf(entries) && !IsNameIn(k, NormalizationTerms)
  {
    if entries == [] then []
    else
      var rest := UnknownTerms(entries[1..]);
      assert KeysOf(entries) == [entries[0].0] + KeysOf(entries[1..]);
      if !IsNameIn(entries[0].0, NormalizationTerms) then [entries[0].0] + rest else rest
  }

  /** `NormalizationError.get_message`: only the keys are inspected. */
  function NormalizationMessage(v: Value): (r: Outcome<Option<Cause>>)
    ensures !v.VDict? ==> r == Ok(Some(IsNotADictionary))
    ensures v.VDict? ==>
      && (r == Ok(None) <==> forall k :: k in KeysOf(v.entries) ==> IsNameIn(k, NormalizationTerms))
      && (r == Raised(TypeError) <==> exists k :: k in KeysOf(v.entries) && !k.VStr?)
      && (r.Ok? && r.value.Some? ==> (r.value.value.ImpossibleTerms? &&
            StrictlySorted(r.value.value.terms) &&
            forall n :: n in r.value.value.terms <==> VStr(n) in KeysOf(v.entries) && n !in NormalizationTerms))
  {
    if !v.VDict? then Ok(Some(IsNotADictionary))
    else
      var impossible := UnknownTerms(v.entries);
      if impossible == [] then Ok(None)
      else if exists k :: k in impossible && !k.VStr? then Raised(TypeError)
      else
        var names := Strings(impossible);
        assert forall n :: n in names <==> VStr(n) in impossible by {
          forall n ensures n in names <==> VStr(n) in impossible {
            if VStr(n) in impossible {
              var i :| 0 <= i < |impossible| && impossible[i] == VStr(n);
              assert names[i] == n;
            }
          }
        }
        Ok(Some(ImpossibleTerms(SortedUnique(names))))
  }

  /** `get_message` of each class; the last three classes have none. */
  function GetMessage(c: ErrorClass, v: Value): (r: Outcome<Option<Cause>>)
    ensures IsStringRuleClass(c) ==> r == Ok(None)
    ensures r.Raised? ==> c == ValidationError || c == NormalizationError
  {
    match c
    case ExpectedError => Ok(ExpectedMessage(v))
    case OntologyError => Ok(OntologyMessage(v))
    case RemapError => Ok(RemapMessage(v))
    case ValidationError => ValidationMessage(v)
    case NormalizationError => NormalizationMessage(v)
    case BlankError => Ok(None)
    case MissingError => Ok(None)
    case FormatError => Ok(None)
  }

  /** The constructor `Cls(variable, value)`: it stores both unchanged,
      fixes the rule name and computes the message, which may raise. */
  function NewRuleError(c: ErrorClass, variable: string, value: Value): (r: Outcome<RuleError>)
    ensures r.Ok? ==> r.value.cls == c && r.value.rule == RuleOf(c) && r.value.variable == variable && r.value.value == value
    ensures r.Ok? ==> Ok(r.value.message) == GetMessage(c, value)
    ensures r.Raised? <==> GetMessage(c, value).Raised?
    ensures r.Raised? ==> c == ValidationError || c == NormalizationError
  {
    var m := GetMessage(c, value);
    if m.Raised? then Raised(m.error) else Ok(RuleError(c, RuleOf(c), variable, value, m.value))
  }

  /** The first line of `generic_message`. */
  function Header(rule: string, variable: string): string
  {
    "Wrong formatting for \"" + rule + "\" rule; variable " + variable + ":\n"
  }

  /** `Error.generic_message`: the header, then the dumped value as a
      block of `\t# ` comment lines. */
  function GenericMessage(rule: string, variable: string, value: Value, dump: Value -> string): (r: string)
    ensures exists block ::
      r == Header(rule, variable) + "\t# " + block && UncommentNewlines(block) == dump(value) && NewlinesCommented(block)
  {
    var block := CommentNewlines(dump(value));
    UncommentCommentNewlines(dump(value));
    CommentNewlinesComments(dump(value));
    Header(rule, variable) + "\t# " + block
  }

  /** The cause in words, as `get_message` formats it. */
  function CauseText(c: Cause, show: Value -> string): string
  {
    match c
    case IsNotAList => "is not a list"
    case NotAllItemsStrings => "not all items are strings"
    case IsNotAString => "is not a string"
    case NoneOf(os) => "none of " + Join(os, ", ")
    case IsNotADictionary => "is not a dictionary"
    case NotAllValuesStrings => "not all dictionary values are strings"
    case InacceptableValidations(ns) => "inacceptable validations (" + Join(ns, ", ") + ")"
    case NotInAList(k) => "variables under condition \"" + show(k) + "\" not in a list"
    case InacceptableCondition(k) => "inacceptable condition: " + show(k)
    case ImpossibleTerms(ns) => "impossible normalization terms (" + Join(ns, ", ") + ")"
  }

  /** What follows ` -> `: the fixed `is not a string` of the last three
      classes, else `'%s' % self.message`, which prints None as `None`. */
  function CauseClause(e: RuleError, show: Value -> string): string
  {
    if IsStringRuleClass(e.cls) then "is not a string"
    else match e.message
      case None => "None"
      case Some(c) => CauseText(c, show)
  }

  /** `str(e)` */
  function Render(e: RuleError, dump: Value -> string, show: Value -> string): string
  {
    GenericMessage(e.rule, e.variable, e.value, dump) + " -> " + CauseClause(e, show)
  }

  /** A rendered error names the rule and the variable in its first line,
      shows the offending value as a comment block from which the dumped
      value can be read back, and ends with ` -> ` and the cause. */
  lemma RenderLocatesOffence(e: RuleError, dump: Value -> string, show: Value -> string)
    ensures var text := Render(e, dump, show);
      exists block :: text == Header(e.rule, e.variable) + "\t# " + block + " -> " + CauseClause(e, show)
        && UncommentNewlines(block) == dump(e.value)
        && NewlinesCommented(block)
  {
    var block := CommentNewlines(dump(e.value));
    UncommentCommentNewlines(dump(e.value));
    CommentNewlinesComments(dump(e.value));
    assert Render(e, dump, show) == Header(e.rule, e.variable) + "\t# " + block + " -> " + CauseClause(e, show);
  }

  /** `BlankError`, `MissingError` and `FormatError` always end in
      ` -> is not a string`, whatever their value. */
  lemma StringRuleErrorsEndAlike(e: RuleError, dump: Value -> string, show: Value -> string)
    requires IsStringRuleClass(e.cls)
    ensures var text := Render(e, dump, show);
      |text| >= 19 && text[|text| - 19..] == " -> is not a string"
  {
    var g := GenericMessage(e.rule, e.variable, e.value, dump);
    assert Render(e, dump, show) == g + " -> is not a string";
  }
}
