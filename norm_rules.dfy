/**
 * The rule collection: one `Rules` object per variable, holding the
 * variable's parsed rule document and a fixed-shape structure of the
 * rules accepted so far, and a `RulesCollection` that builds those
 * objects from rule files and checks every rule of the variables in
 * focus. A rejected or unknown rule is recorded in the collection's
 * error log and checking goes on; only a built-in exception stops it.
 *
 * The specification functions come first (the structure, one checking
 * step, a whole run), then what is proved about them, then the two
 * classes, whose methods are proved to follow the specification.
 */
module NormRules {
  import opened PyValues
  import opened Text
  import opened RuleChecks

  /** `Rules.rules`: the `edits`, `lookups` and `allowed` sub-dictionaries. */
  datatype Structure = Structure(edits: map<string, Value>, lookups: map<string, Value>, allowed: map<string, Value>)

  /** Exactly the keys the default structure has. */
  predicate Shaped(s: Structure)
  {
    && s.edits.Keys == {"remap", "normalization", "validation"}
    && s.lookups.Keys == {"ontology", "expected"}
    && s.allowed.Keys == {"blank", "missing", "format"}
  }

  /** The structure every `Rules` object starts with. */
  function Default(): (s: Structure)
    ensures Shaped(s)
  {
    Structure(
      map["remap" := VDict([]), "normalization" := VDict([]), "validation" := VDict([])],
      map["ontology" := VNone, "expected" := VList([])],
      map["blank" := VNone, "missing" := VNone, "format" := VNone])
  }

  function BucketMap(s: Structure, b: Bucket): map<string, Value>
  {
    match b
    case Edits => s.edits
    case Lookups => s.lookups
    case Allowed => s.allowed
  }

  /** `rules[bucket][rule]` for the bucket and name of kind `k`. */
  function Slot(s: Structure, k: RuleKind): Option<Value>
  {
    var m := BucketMap(s, BucketOf(k));
    if KindName(k) in m then Some(m[KindName(k)]) else None
  }

  /** `rules[bucket][rule] = value`: sets the slot of `k` and no other. */
  function Store(s: Structure, k: RuleKind, v: Value): (t: Structure)
    ensures Slot(t, k) == Some(v)
    ensures forall j :: j != k ==> Slot(t, j) == Slot(s, j)
    ensures Shaped(s) ==> Shaped(t)
  {
    match BucketOf(k)
    case Edits => s.(edits := s.edits[KindName(k) := v])
    case Lookups => s.(lookups := s.lookups[KindName(k) := v])
    case Allowed => s.(allowed := s.allowed[KindName(k) := v])
  }

  /** Two structures of the default shape are equal when all their slots are. */
  lemma ShapedExtensional(a: Structure, b: Structure)
    requires Shaped(a) && Shaped(b)
    requires forall k :: Slot(a, k) == Slot(b, k)
    ensures a == b
  {
    assert Slot(a, Remap) == Slot(b, Remap) && Slot(a, Normalization) == Slot(b, Normalization);
    assert Slot(a, Validation) == Slot(b, Validation);
    assert Slot(a, Ontology) == Slot(b, Ontology) && Slot(a, Expected) == Slot(b, Expected);
    assert Slot(a, Blank) == Slot(b, Blank) && Slot(a, Missing) == Slot(b, Missing);
    assert Slot(a, Format) == Slot(b, Format);
    assert a.edits == b.edits;
    assert a.lookups == b.lookups;
    assert a.allowed == b.allowed;
  }

  /** What a logged rule went wrong with: the checker's error list, or
      `rule not recognized` (logged with an empty bucket name). */
  datatype Problem = Rejected(code: string, detail: Detail) | NotRecognized

  /** One call of `rules_format_error.collect`. */
  datatype Record = Record(variable: string, rule: Value, value: Value, bucket: string, problem: Problem)

  /** The part of a `RulesCollection` that checking changes: every
      variable's structure and the error log. */
  datatype State = State(structs: map<string, Structure>, log: seq<Record>)

  /** `RulesCollection.check_rule`: what one rule does to the state, and
      the exception that escapes it, if any. Storing an accepted value
      looks the variable up and raises KeyError when it is unknown. */
  function Step(st: State, variable: string, rule: Value, v: Value, ref: Reference): (r: (State, Option<PyError>))
    ensures r.0.structs.Keys == st.structs.Keys && st.log <= r.0.log
    ensures r.1.Some? ==> r.0 == st
  {
    match KindOf(rule)
    case None => (st.(log := st.log + [Record(variable, rule, v, "", NotRecognized)]), None)
    case Some(k) =>
      match Check(k, v, ref)
      case Pass =>
        if variable in st.structs then (st.(structs := st.structs[variable := Store(st.structs[variable], k, v)]), None)
        else (st, Some(KeyError))
      case Fail(code, detail) => (st.(log := st.log + [Record(variable, rule, v, BucketName(BucketOf(k)), Rejected(code, detail))]), None)
      case Raise(e) => (st, Some(e))
  }

  /** The inner loop of `check_variables_rules`: the rules of one
      document in order, stopping at the first exception. */
  function RunPairs(st: State, variable: string, pairs: seq<(Value, Value)>, ref: Reference): (r: (State, Option<PyError>))
    decreases |pairs|
    ensures r.0.structs.Keys == st.structs.Keys && st.log <= r.0.log
  {
    if pairs == [] then (st, None)
    else
      var (st1, crash) := Step(st, variable, pairs[0].0, pairs[0].1, ref);
      if crash.Some? then (st1, crash) else RunPairs(st1, variable, pairs[1..], ref)
  }

  /** One variable of `check_variables_rules`: looking it up raises
      KeyError when it has no rules, and `.items()` raises AttributeError
      when its document is not a mapping. */
  function RunVariable(st: State, docs: map<string, Value>, variable: string, ref: Reference): (r: (State, Option<PyError>))
    ensures r.0.structs.Keys == st.structs.Keys && st.log <= r.0.log
    ensures r.1.None? ==> variable in docs && docs[variable].VDict?
  {
    if variable !in docs then (st, Some(KeyError))
    else if !docs[variable].VDict? then (st, Some(AttributeError))
    else RunPairs(st, variable, docs[variable].entries, ref)
  }

  /** `RulesCollection.check_variables_rules(focus)` */
  function Run(st: State, docs: map<string, Value>, focus: seq<string>, ref: Reference): (r: (State, Option<PyError>))
    decreases |focus|
    ensures r.0.structs.Keys == st.structs.Keys && st.log <= r.0.log
    ensures r.1.None? ==> forall w :: w in focus ==> w in docs && docs[w].VDict?
  {
    if focus == [] then (st, None)
    else
      var (st1, crash) := RunVariable(st, docs, focus[0], ref);
      if crash.Some? then (st1, crash) else Run(st1, docs, focus[1..], ref)
  }

  // ---------------------------------------------------------------------
  // One step

  /** A step touches at most the structure of its own variable, and only
      the slot of its own rule; it either stores or logs, never both;
      the log only grows, by at most one record about this rule; and a
      step that raises changes nothing. */
  lemma StepFrame(st: State, variable: string, rule: Value, v: Value, ref: Reference)
    ensures var (t, crash) := Step(st, variable, rule, v, ref);
      && t.structs.Keys == st.structs.Keys
      && (forall w :: w in st.structs && w != variable ==> t.structs[w] == st.structs[w])
      && (variable in st.structs ==> forall k :: Some(k) != KindOf(rule) ==> Slot(t.structs[variable], k) == Slot(st.structs[variable], k))
      && (t.structs == st.structs || t.log == st.log)
      && st.log <= t.log && |t.log| <= |st.log| + 1
      && (|t.log| > |st.log| ==> t.log[|st.log|].variable == variable && t.log[|st.log|].rule == rule && t.log[|st.log|].value == v)
      && (crash.Some? ==> t == st)
  {
  }

  /** Every slot of a sound structure holds its default or a value its
      checker passes. */
  ghost predicate Sound(s: Structure, ref: Reference)
  {
    forall k :: Slot(s, k) == Slot(Default(), k) || (Slot(s, k).Some? && Check(k, Slot(s, k).value, ref) == Pass)
  }

  ghost predicate AllSound(structs: map<string, Structure>, ref: Reference)
  {
    forall w :: w in structs ==> Sound(structs[w], ref)
  }

  /** A value stored by a step is one its checker passed, and a value
      the checker rejects is logged instead of stored. */
  lemma StepKeepsSound(st: State, variable: string, rule: Value, v: Value, ref: Reference)
    requires AllSound(st.structs, ref)
    ensures AllSound(Step(st, variable, rule, v, ref).0.structs, ref)
    ensures KindOf(rule).Some? && Check(KindOf(rule).value, v, ref).Fail? ==>
      Step(st, variable, rule, v, ref).0.structs == st.structs
  {
    var t := Step(st, variable, rule, v, ref).0;
    forall w | w in t.structs ensures Sound(t.structs[w], ref) {
      assert w in st.structs;
      if w == variable && KindOf(rule).Some? && Check(KindOf(rule).value, v, ref) == Pass {
        var k := KindOf(rule).value;
        forall j ensures Slot(t.structs[w], j) == Slot(Default(), j) || (Slot(t.structs[w], j).Some? && Check(j, Slot(t.structs[w], j).value, ref) == Pass) {
          if j != k {
            assert Slot(t.structs[w], j) == Slot(st.structs[w], j);
          }
        }
      }
    }
  }

  lemma {:induction false} RunPairsKeepsSound(st: State, variable: string, pairs: seq<(Value, Value)>, ref: Reference)
    decreases |pairs|
    requires AllSound(st.structs, ref)
    ensures AllSound(RunPairs(st, variable, pairs, ref).0.structs, ref)
  {
    if pairs != [] {
      StepKeepsSound(st, variable, pairs[0].0, pairs[0].1, ref);
      var (st1, crash) := Step(st, variable, pairs[0].0, pairs[0].1, ref);
      if crash.None? {
        RunPairsKeepsSound(st1, variable, pairs[1..], ref);
      }
    }
  }

  /** However a run ends, every stored rule value passed its checker. */
  lemma {:induction false} RunKeepsSound(st: State, docs: map<string, Value>, focus: seq<string>, ref: Reference)
    decreases |focus|
    requires AllSound(st.structs, ref)
    ensures AllSound(Run(st, docs, focus, ref).0.structs, ref)
  {
    if focus != [] {
      var (st1, crash) := RunVariable(st, docs, focus[0], ref);
      if focus[0] in docs && docs[focus[0]].VDict? {
        RunPairsKeepsSound(st, focus[0], docs[focus[0]].entries, ref);
      }
      if crash.None? {
        RunKeepsSound(st1, docs, focus[1..], ref);
      }
    }
  }

  /** However a run ends, it only adds to the log and leaves the
      variables outside the focus alone. */
  lemma {:induction false} RunPairsFrame(st: State, variable: string, pairs: seq<(Value, Value)>, ref: Reference)
    decreases |pairs|
    ensures var t := RunPairs(st, variable, pairs, ref).0;
      t.structs.Keys == st.structs.Keys && st.log <= t.log &&
      forall w :: w in st.structs && w != variable ==> t.structs[w] == st.structs[w]
  {
    if pairs != [] {
      StepFrame(st, variable, pairs[0].0, pairs[0].1, ref);
      var (st1, crash) := Step(st, variable, pairs[0].0, pairs[0].1, ref);
      if crash.None? {
        RunPairsFrame(st1, variable, pairs[1..], ref);
      }
    }
  }

  lemma {:induction false} RunFrame(st: State, docs: map<string, Value>, focus: seq<string>, ref: Reference)
    decreases |focus|
    ensures var t := Run(st, docs, focus, ref).0;
      t.structs.Keys == st.structs.Keys && st.log <= t.log &&
      forall w :: w in st.structs && w !in focus ==> t.structs[w] == st.structs[w]
  {
    if focus != [] {
      var (st1, crash) := RunVariable(st, docs, focus[0], ref);
      if focus[0] in docs && docs[focus[0]].VDict? {
        RunPairsFrame(st, focus[0], docs[focus[0]].entries, ref);
      }
      if crash.None? {
        RunFrame(st1, docs, focus[1..], ref);
      }
    }
  }

  // ---------------------------------------------------------------------
  // Runs that raise nothing

  /** The change one rule makes to a structure when nothing is raised. */
  function Apply(s: Structure, p: (Value, Value), ref: Reference): Structure
  {
    match KindOf(p.0)
    case None => s
    case Some(k) => if Check(k, p.1, ref) == Pass then Store(s, k, p.1) else s
  }

  /** The structure after all rules of a document, one after the other. */
  function Settle(s: Structure, pairs: seq<(Value, Value)>, ref: Reference): (t: Structure)
    decreases |pairs|
    ensures Shaped(s) ==> Shaped(t)
  {
    if pairs == [] then s else Settle(Apply(s, pairs[0], ref), pairs[1..], ref)
  }

  /** The rule `p` is of kind `k` and its value passes. */
  predicate Passing(p: (Value, Value), k: RuleKind, ref: Reference)
  {
    KindOf(p.0) == Some(k) && Check(k, p.1, ref) == Pass
  }

  /** The value of the last rule of kind `k` that passes, if any. */
  function LastPassing(pairs: seq<(Value, Value)>, k: RuleKind, ref: Reference): (r: Option<Value>)
    ensures r.None? ==> forall p :: p in pairs ==> !Passing(p, k, ref)
    ensures r.Some? ==> exists i :: (0 <= i < |pairs| && Passing(pairs[i], k, ref) && pairs[i].1 == r.value &&
      forall j :: i < j < |pairs| ==> !Passing(pairs[j], k, ref))
  {
    if pairs == [] then None
    else
      var rest := LastPassing(pairs[1..], k, ref);
      assert forall p :: p in pairs ==> p == pairs[0] || p in pairs[1..];
      if rest.Some? then
        var i :| 0 <= i < |pairs[1..]| && Passing(pairs[1..][i], k, ref) && pairs[1..][i].1 == rest.value &&
          forall j :: i < j < |pairs[1..]| ==> !Passing(pairs[1..][j], k, ref);
        assert forall j :: i + 1 < j < |pairs| ==> !Passing(pairs[j], k, ref) by {
          forall j | i + 1 < j < |pairs| ensures !Passing(pairs[j], k, ref) {
            assert pairs[j] == pairs[1..][j - 1];
          }
        }
        assert pairs[i + 1] == pairs[1..][i];
        rest
      else if Passing(pairs[0], k, ref) then Some(pairs[0].1)
      else None
  }

  /** When a document's rules raise nothing, each slot ends up with the
      value of the last passing rule of its kind: a later rule of the same
      kind overrides an earlier one, and a slot no rule passes for keeps
      what it had. */
  lemma {:induction false} SettleSlots(s: Structure, pairs: seq<(Value, Value)>, k: RuleKind, ref: Reference)
    decreases |pairs|
    ensures Slot(Settle(s, pairs, ref), k) == if LastPassing(pairs, k, ref).Some? then LastPassing(pairs, k, ref) else Slot(s, k)
  {
    if pairs != [] {
      SettleSlots(Apply(s, pairs[0], ref), pairs[1..], k, ref);
    }
  }

  /** Settling a document twice is settling it once. */
  lemma SettleIdempotent(s: Structure, pairs: seq<(Value, Value)>, ref: Reference)
    requires Shaped(s)
    ensures Settle(Settle(s, pairs, ref), pairs, ref) == Settle(s, pairs, ref)
  {
    var once := Settle(s, pairs, ref);
    forall k ensures Slot(Settle(once, pairs, ref), k) == Slot(once, k) {
      SettleSlots(s, pairs, k, ref);
      SettleSlots(once, pairs, k, ref);
    }
    ShapedExtensional(Settle(once, pairs, ref), once);
  }

  /** No rule of the document raises inside its checker. */
  predicate NoRaise(pairs: seq<(Value, Value)>, ref: Reference)
  {
    forall p :: p in pairs ==> KindOf(p.0).None? || !Check(KindOf(p.0).value, p.1, ref).Raise?
  }

  /** The records logged for one rule when nothing is raised. */
  function Complaint(variable: string, p: (Value, Value), ref: Reference): seq<Record>
  {
    match KindOf(p.0)
    case None => [Record(variable, p.0, p.1, "", NotRecognized)]
    case Some(k) =>
      match Check(k, p.1, ref)
      case Fail(code, detail) => [Record(variable, p.0, p.1, BucketName(BucketOf(k)), Rejected(code, detail))]
      case _ => []
  }

  /** The records logged for a document: one per unknown or rejected
      rule, in document order. */
  function Failures(variable: string, pairs: seq<(Value, Value)>, ref: Reference): seq<Record>
    decreases |pairs|
  {
    if pairs == [] then [] else Complaint(variable, pairs[0], ref) + Failures(variable, pairs[1..], ref)
  }

  /** One rule whose checker raises nothing applies its change and logs
      its complaint. */
  lemma StepCollects(st: State, variable: string, p: (Value, Value), ref: Reference)
    requires variable in st.structs
    requires KindOf(p.0).None? || !Check(KindOf(p.0).value, p.1, ref).Raise?
    ensures Step(st, variable, p.0, p.1, ref) ==
      (State(st.structs[variable := Apply(st.structs[variable], p, ref)], st.log + Complaint(variable, p, ref)), None)
  {
    match KindOf(p.0)
    case None =>
      assert st.structs[variable := st.structs[variable]] == st.structs;
    case Some(k) =>
      match Check(k, p.1, ref)
      case Pass =>
        assert st.log + [] == st.log;
      case Fail(_, _) =>
        assert st.structs[variable := st.structs[variable]] == st.structs;
  }

  /** A document whose checkers raise nothing is checked to the end: a
      rejected rule is logged and checking goes on. */
  lemma {:induction false} RunPairsCollects(st: State, variable: string, pairs: seq<(Value, Value)>, ref: Reference)
    decreases |pairs|
    requires variable in st.structs && NoRaise(pairs, ref)
    ensures RunPairs(st, variable, pairs, ref) ==
      (State(st.structs[variable := Settle(st.structs[variable], pairs, ref)], st.log + Failures(variable, pairs, ref)), None)
  {
    if pairs == [] {
      assert st.structs[variable := st.structs[variable]] == st.structs;
      assert st.log + [] == st.log;
    } else {
      var s0 := st.structs[variable];
      var st1 := State(st.structs[variable := Apply(s0, pairs[0], ref)], st.log + Complaint(variable, pairs[0], ref));
      assert RunPairs(st, variable, pairs, ref) == RunPairs(st1, variable, pairs[1..], ref) by {
        assert pairs[0] in pairs;
        StepCollects(st, variable, pairs[0], ref);
      }
      assert NoRaise(pairs[1..], ref) by {
        forall p | p in pairs[1..] ensures p in pairs { }
      }
      RunPairsCollects(st1, variable, pairs[1..], ref);
      assert st1.structs[variable := Settle(st1.structs[variable], pairs[1..], ref)] == st.structs[variable := Settle(s0, pairs, ref)];
      assert st1.log + Failures(variable, pairs[1..], ref) == st.log + Failures(variable, pairs, ref) by {
        ConcatAssociative(st.log, Complaint(variable, pairs[0], ref), Failures(variable, pairs[1..], ref));
      }
    }
  }

  /** Every variable in focus has a document that is a mapping, a
      structure, and rules whose checkers raise nothing. */
  predicate Runnable(st: State, docs: map<string, Value>, focus: seq<string>, ref: Reference)
  {
    forall v :: v in focus ==> v in docs && v in st.structs && docs[v].VDict? && NoRaise(docs[v].entries, ref)
  }

  /** The records logged for the variables in focus, in focus order. */
  function FocusFailures(docs: map<string, Value>, focus: seq<string>, ref: Reference): seq<Record>
    decreases |focus|
    requires forall v :: v in focus ==> v in docs && docs[v].VDict?
  {
    if focus == [] then []
    else
      assert focus[0] in focus;
      Failures(focus[0], docs[focus[0]].entries, ref) + FocusFailures(docs, focus[1..], ref)
  }

  predicate AllShaped(structs: map<string, Structure>)
  {
    forall w :: w in structs ==> Shaped(structs[w])
  }

  /** `after` holds the settled structure of each variable in focus and
      the structure of `before` for every other variable. */
  predicate SettledFocus(before: map<string, Structure>, after: map<string, Structure>,
                         docs: map<string, Value>, focus: seq<string>, ref: Reference)
    requires forall v :: v in focus ==> v in docs && docs[v].VDict?
  {
    after.Keys == before.Keys &&
    forall w :: w in before ==>
      after[w] == if w in focus then Settle(before[w], docs[w].entries, ref) else before[w]
  }

  /** Settling the head of the focus first and then the rest settles the
      whole focus, since settling a document a second time changes nothing. */
  lemma SettledFocusStep(before: map<string, Structure>, after: map<string, Structure>,
                         docs: map<string, Value>, focus: seq<string>, ref: Reference)
    requires forall v :: v in focus ==> v in docs && docs[v].VDict?
    requires focus != [] && focus[0] in before && AllShaped(before)
    requires SettledFocus(before[focus[0] := Settle(before[focus[0]], docs[focus[0]].entries, ref)], after, docs, focus[1..], ref)
    ensures SettledFocus(before, after, docs, focus, ref)
  {
    var f := focus[0];
    var mid := before[f := Settle(before[f], docs[f].entries, ref)];
    forall w | w in before
      ensures after[w] == if w in focus then Settle(before[w], docs[w].entries, ref) else before[w]
    {
      assert w in mid;
      assert w in focus <==> w == f || w in focus[1..];
      if w == f && w in focus[1..] {
        SettleIdempotent(before[w], docs[w].entries, ref);
      }
    }
  }

  /** The state after one runnable variable: its structure settled and its
      failures logged. */
  function Collected(st: State, variable: string, pairs: seq<(Value, Value)>, ref: Reference): State
    requires variable in st.structs
  {
    State(st.structs[variable := Settle(st.structs[variable], pairs, ref)], st.log + Failures(variable, pairs, ref))
  }

  /** The first variable of a runnable focus is collected without a raise,
      and the rest of the focus stays runnable. */
  lemma RunCollectsHead(st: State, docs: map<string, Value>, focus: seq<string>, ref: Reference)
    requires focus != [] && Runnable(st, docs, focus, ref) && AllShaped(st.structs)
    ensures focus[0] in st.structs && focus[0] in docs && docs[focus[0]].VDict?
    ensures var st1 := Collected(st, focus[0], docs[focus[0]].entries, ref);
      Run(st, docs, focus, ref) == Run(st1, docs, focus[1..], ref) &&
      Runnable(st1, docs, focus[1..], ref) && AllShaped(st1.structs)
  {
    var f := focus[0];
    assert f in focus;
    var pf := docs[f].entries;
    var st1 := Collected(st, f, pf, ref);
    RunPairsCollects(st, f, pf, ref);
    assert RunVariable(st, docs, f, ref) == (st1, None);
    forall w | w in st1.structs ensures Shaped(st1.structs[w]) {
      assert w in st.structs;
    }
    forall v | v in focus[1..] ensures v in docs && v in st1.structs && docs[v].VDict? && NoRaise(docs[v].entries, ref) {
      assert v in focus;
    }
  }

  lemma ConcatAssociative<T>(a: seq<T>, b: seq<T>, c: seq<T>)
    ensures (a + b) + c == a + (b + c)
  {
  }

  /** A run that raises nothing logs every unknown and rejected rule of
      the focus, and leaves each variable in focus with its settled
      structure (once, however often it occurs in the focus). */
  lemma {:induction false} RunCollects(st: State, docs: map<string, Value>, focus: seq<string>, ref: Reference)
    decreases |focus|
    requires Runnable(st, docs, focus, ref) && AllShaped(st.structs)
    ensures Run(st, docs, focus, ref).1 == None
    ensures Run(st, docs, focus, ref).0.log == st.log + FocusFailures(docs, focus, ref)
    ensures SettledFocus(st.structs, Run(st, docs, focus, ref).0.structs, docs, focus, ref)
  {
    if focus != [] {
      var f := focus[0];
      assert f in focus;
      var st1 := Collected(st, f, docs[f].entries, ref);
      var t := Run(st1, docs, focus[1..], ref);
      assert Run(st, docs, focus, ref) == t && t.1 == None && t.0.log == st1.log + FocusFailures(docs, focus[1..], ref)
          && SettledFocus(st1.structs, t.0.structs, docs, focus[1..], ref) by {
        RunCollectsHead(st, docs, focus, ref);
        RunCollects(st1, docs, focus[1..], ref);
      }
      assert t.0.log == st.log + FocusFailures(docs, focus, ref) by {
        var a, b, c := st.log, Failures(f, docs[f].entries, ref), FocusFailures(docs, focus[1..], ref);
        assert st1.log == a + b;
        assert FocusFailures(docs, focus, ref) == b + c;
        ConcatAssociative(a, b, c);
      }
      assert SettledFocus(st.structs, t.0.structs, docs, focus, ref) by {
        RunCollectsHead(st, docs, focus, ref);
        SettledFocusStep(st.structs, t.0.structs, docs, focus, ref);
      }
    }
  }

  /** Checking the same focus a second time stores nothing new; the log
      receives the same records once more. */
  lemma RunTwice(st: State, docs: map<string, Value>, focus: seq<string>, ref: Reference)
    requires Runnable(st, docs, focus, ref) && AllShaped(st.structs)
    ensures Run(Run(st, docs, focus, ref).0, docs, focus, ref).1 == None
    ensures Run(Run(st, docs, focus, ref).0, docs, focus, ref).0.structs == Run(st, docs, focus, ref).0.structs
    ensures Run(Run(st, docs, focus, ref).0, docs, focus, ref).0.log == Run(st, docs, focus, ref).0.log + FocusFailures(docs, focus, ref)
  {
    var once := Run(st, docs, focus, ref).0;
    assert SettledFocus(st.structs, once.structs, docs, focus, ref) && AllShaped(once.structs) by {
      RunCollects(st, docs, focus, ref);
      forall w | w in once.structs ensures Shaped(once.structs[w]) {
        assert w in st.structs;
      }
    }
    assert Runnable(once, docs, focus, ref);
    var twice := Run(once, docs, focus, ref).0;
    assert SettledFocus(once.structs, twice.structs, docs, focus, ref) by {
      RunCollects(once, docs, focus, ref);
    }
    forall w | w in once.structs ensures twice.structs[w] == once.structs[w] {
      if w in focus {
        SettleIdempotent(st.structs[w], docs[w].entries, ref);
      }
    }
    RunCollects(once, docs, focus, ref);
  }

  // ---------------------------------------------------------------------
  // The rule files

  /** What `check_variables_rules_dir` answers. */
  datatype DirResult = RuleFiles(files: seq<string>) | IOError(message: string)

  /** `RulesCollection.check_variables_rules_dir`, with the directory
      test and the listing of its `*.yml` files as parameters. */
  function CheckVariablesRulesDir(dir: string, isDir: bool, ymlFiles: seq<string>): (r: DirResult)
    ensures r.RuleFiles? <==> isDir && ymlFiles != []
    ensures r.RuleFiles? ==> r.files == ymlFiles
    ensures !isDir ==> r.message == "Input directory " + dir + " does not exist"
    ensures isDir && ymlFiles == [] ==> r.message == "Input directory " + dir + " empty"
  {
    if !isDir then IOError("Input directory " + dir + " does not exist")
    else if ymlFiles == [] then IOError("Input directory " + dir + " empty")
    else RuleFiles(ymlFiles)
  }

  /** Each rule file as its variable name (the file's stem) with its document. */
  function Stems(files: seq<(string, Value)>): (r: seq<(string, Value)>)
    ensures |r| == |files|
    ensures forall i :: 0 <= i < |files| ==> r[i] == (VariableName(files[i].0), files[i].1)
  {
    seq(|files|, i requires 0 <= i < |files| => (VariableName(files[i].0), files[i].1))
  }

  /** The document each variable ends up with after
      `parse_variables_rules`: a later file with the same stem replaces an
      earlier one. */
  function Index(named: seq<(string, Value)>): map<string, Value>
  {
    if named == [] then map[]
    else Index(named[..|named| - 1])[named[|named| - 1].0 := named[|named| - 1].1]
  }

  /** Indexing one more entry of a list of named documents. */
  lemma IndexPrefix(named: seq<(string, Value)>, i: nat)
    requires i < |named|
    ensures Index(named[..i + 1]) == Index(named[..i])[named[i].0 := named[i].1]
  {
    assert named[..i + 1][..i] == named[..i];
  }

  /** Entry `i` is the last one named `v`. */
  predicate LastNamed(named: seq<(string, Value)>, i: int, v: string)
  {
    0 <= i < |named| && named[i].0 == v && forall j :: i < j < |named| ==> named[j].0 != v
  }

  /** The variables indexed are exactly the names given. */
  lemma {:induction false} IndexKeys(named: seq<(string, Value)>, v: string)
    ensures v in Index(named) <==> exists i :: 0 <= i < |named| && named[i].0 == v
  {
    if named != [] {
      var n := |named| - 1;
      var init := named[..n];
      IndexKeys(init, v);
      if v in Index(named) && v != named[n].0 {
        var i :| 0 <= i < |init| && init[i].0 == v;
        assert named[i] == init[i];
      }
      if exists i :: 0 <= i < |named| && named[i].0 == v {
        var i :| 0 <= i < |named| && named[i].0 == v;
        if i < n {
          assert init[i] == named[i];
        }
      }
    }
  }

  /** Each variable is indexed with the document of the last entry of its name. */
  lemma {:induction false} IndexLastWins(named: seq<(string, Value)>, v: string)
    requires v in Index(named)
    ensures exists i :: LastNamed(named, i, v) && Index(named)[v] == named[i].1
  {
    var n := |named| - 1;
    var init := named[..n];
    if named[n].0 == v {
      assert LastNamed(named, n, v);
    } else {
      assert v in Index(init);
      IndexLastWins(init, v);
      var i :| LastNamed(init, i, v) && Index(init)[v] == init[i].1;
      assert named[i] == init[i];
      forall j | i < j < |named| ensures named[j].0 != v {
        if j < n { assert named[j] == init[j]; }
      }
      assert LastNamed(named, i, v);
    }
  }

  /** Updating a union is updating its right-hand, winning side. */
  lemma UnionUpdate<K, V>(m: map<K, V>, a: map<K, V>, k: K, x: V)
    ensures (m + a)[k := x] == m + a[k := x]
  {
  }

  /** The `Rules` objects `added` are new ones for the documents of `idx`. */
  ghost predicate Seeded(added: map<string, Rules>, idx: map<string, Value>)
    reads added.Values
  {
    added.Keys == idx.Keys && forall v :: v in added ==> added[v].rules == Default() && added[v].parsedRules == idx[v]
  }

  /** Seeding one more variable. */
  lemma SeededUpdate(added: map<string, Rules>, idx: map<string, Value>, v: string, r: Rules)
    requires Seeded(added, idx) && r.rules == Default()
    ensures Seeded(added[v := r], idx[v := r.parsedRules])
  {
  }

  // ---------------------------------------------------------------------
  // The classes

  /** The rules of one variable. */
  class Rules {
    var rules: Structure
    const parsedRules: Value

    /** `Rules(path)`, given the document read from `path`. */
    constructor(parsed: Value)
      ensures rules == Default() && parsedRules == parsed
    {
      rules := Default();
      parsedRules := parsed;
    }
  }

  /** The rules of all variables and the log of rule-format errors. */
  class RulesCollection {
    var variablesRules: map<string, Rules>
    var log: seq<Record>
    const rulesAllowed: Reference

    /** No two variables share a `Rules` object. */
    ghost predicate Valid()
      reads this
    {
      forall v, w :: v in variablesRules && w in variablesRules && v != w ==> variablesRules[v] != variablesRules[w]
    }

    ghost function Structures(): map<string, Structure>
      reads this, variablesRules.Values
    {
      map v | v in variablesRules :: variablesRules[v].rules
    }

    ghost function Docs(): map<string, Value>
      reads this
    {
      map v | v in variablesRules :: variablesRules[v].parsedRules
    }

    ghost function Snapshot(): State
      reads this, variablesRules.Values
    {
      State(Structures(), log)
    }

    /** `RulesCollection()`, given the reference values of the rules asset. */
    constructor(ref: Reference)
      ensures variablesRules == map[] && log == [] && rulesAllowed == ref
      ensures Valid()
    {
      variablesRules := map[];
      log := [];
      rulesAllowed := ref;
    }

    /** `parse_variables_rules(files)`, given each file's path with the
        document read from it: one fresh `Rules` object per stem, the last
        file of a stem winning; variables of other stems keep theirs. */
    method ParseVariablesRules(files: seq<(string, Value)>)
      requires Valid()
      modifies this
      ensures Valid() && log == old(log)
      ensures variablesRules.Keys == old(variablesRules).Keys + Index(Stems(files)).Keys
      ensures forall v :: v in Index(Stems(files)) ==>
        fresh(variablesRules[v]) && variablesRules[v].rules == Default() && variablesRules[v].parsedRules == Index(Stems(files))[v]
      ensures forall v :: v in old(variablesRules) && v !in Index(Stems(files)) ==> variablesRules[v] == old(variablesRules)[v]
    {
      var named := Stems(files);
      var i := 0;
      ghost var idx: map<string, Value> := map[];
      ghost var added: map<string, Rules> := map[];
      while i < |named|
        invariant 0 <= i <= |named| && idx == Index(named[..i])
        invariant Valid() && log == old(log)
        invariant variablesRules == old(variablesRules) + added
        invariant Seeded(added, idx) && forall v :: v in added ==> fresh(added[v])
      {
        var r := Add(named[i].0, named[i].1);
        IndexPrefix(named, i);
        UnionUpdate(old(variablesRules), added, named[i].0, r);
        SeededUpdate(added, idx, named[i].0, r);
        idx := idx[named[i].0 := named[i].1];
        added := added[named[i].0 := r];
        i := i + 1;
      }
      assert named[..i] == named;
    }

    /** `self.variables_rules[variable] = Rules(path)` */
    method Add(variable: string, doc: Value) returns (r: Rules)
      requires Valid()
      modifies this
      ensures Valid() && log == old(log)
      ensures variablesRules == old(variablesRules)[variable := r]
      ensures fresh(r) && r.rules == Default() && r.parsedRules == doc
    {
      r := new Rules(doc);
      variablesRules := variablesRules[variable := r];
    }

    /** `check_rule(variable, rule, rule_value)` */
    method CheckRule(variable: string, rule: Value, v: Value) returns (crash: Option<PyError>)
      requires Valid()
      modifies this, variablesRules.Values
      ensures variablesRules == old(variablesRules) && Valid()
      ensures (Snapshot(), crash) == Step(old(Snapshot()), variable, rule, v, rulesAllowed)
    {
      var kind := KindOf(rule);
      if kind.None? {
        Log(Record(variable, rule, v, "", NotRecognized));
        return None;
      }
      var k := kind.value;
      var verdict: Verdict;
      if k == Validation {
        verdict := CheckValidation(v, rulesAllowed.validation);
      } else {
        verdict := Check(k, v, rulesAllowed);
      }
      match verdict
      case Pass =>
        if variable !in variablesRules {
          return Some(KeyError);
        }
        Keep(variable, k, v);
        return None;
      case Fail(code, detail) =>
        Log(Record(variable, rule, v, BucketName(BucketOf(k)), Rejected(code, detail)));
        return None;
      case Raise(e) =>
        return Some(e);
    }

    /** `self.rules_format_error.collect(...)`: one record more in the log. */
    method Log(record: Record)
      modifies this
      ensures variablesRules == old(variablesRules) && log == old(log) + [record]
      ensures Structures() == old(Structures())
    {
      log := log + [record];
    }

    /** `self.variables_rules[variable].rules[bucket][rule] = rule_value`:
        only that variable's structure changes, in the slot of the kind. */
    method Keep(variable: string, k: RuleKind, v: Value)
      requires Valid() && variable in variablesRules
      modifies variablesRules[variable]
      ensures Structures() == old(Structures())[variable := Store(old(Structures())[variable], k, v)]
    {
      var r := variablesRules[variable];
      r.rules := Store(r.rules, k, v);
      forall w | w in variablesRules && w != variable ensures Structures()[w] == old(Structures())[w] {
        assert variablesRules[w] != r;
      }
    }

    /** `check_variables_rules(focus)` */
    method CheckVariablesRules(focus: seq<string>) returns (crash: Option<PyError>)
      requires Valid()
      modifies this, variablesRules.Values
      ensures variablesRules == old(variablesRules) && Valid()
      ensures (Snapshot(), crash) == Run(old(Snapshot()), old(Docs()), focus, rulesAllowed)
    {
      ghost var docs := Docs();
      var i := 0;
      while i < |focus|
        invariant 0 <= i <= |focus|
        invariant variablesRules == old(variablesRules) && Valid() && Docs() == docs
        invariant Run(old(Snapshot()), docs, focus, rulesAllowed) == Run(Snapshot(), docs, focus[i..], rulesAllowed)
      {
        assert focus[i..][0] == focus[i] && focus[i..][1..] == focus[i + 1..];
        var variable := focus[i];
        if variable !in variablesRules {
          return Some(KeyError);
        }
        var doc := variablesRules[variable].parsedRules;
        if !doc.VDict? {
          return Some(AttributeError);
        }
        ghost var start := Snapshot();
        var pairs := doc.entries;
        var j := 0;
        while j < |pairs|
          invariant 0 <= j <= |pairs|
          invariant variablesRules == old(variablesRules) && Valid() && Docs() == docs
          invariant RunPairs(start, variable, pairs, rulesAllowed) == RunPairs(Snapshot(), variable, pairs[j..], rulesAllowed)
        {
          assert pairs[j..][0] == pairs[j] && pairs[j..][1..] == pairs[j + 1..];
          var c := CheckRule(variable, pairs[j].0, pairs[j].1);
          if c.Some? {
            return c;
          }
          j := j + 1;
        }
        assert pairs[j..] == [];
        i := i + 1;
      }
      assert focus[i..] == [];
      return None;
    }
  }
}
