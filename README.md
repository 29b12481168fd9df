# Rule-document checking in q2-metadata, modelled in Dafny

q2-metadata normalises sample metadata according to per-variable rule
documents written in YAML. Each document maps rule names (`expected`,
`ontology`, `remap`, `validation`, `normalization`, `blank`, `missing`,
`format`) to rule values. This project models the part of q2-metadata
that checks those documents before any metadata is touched:

- `RulesCollection` (`_norm_rules.py`) locates the rule files, creates one
  `Rules` object per variable (named after the file's stem), and checks
  every rule of the variables in focus. An accepted value is stored in the
  variable's fixed-shape `rules` structure (`edits`, `lookups`, `allowed`).
  A rejected or unknown rule is recorded in the collection's error log and
  checking goes on.
- The older fail-fast checker (`_norm_check_rules.py`) applies one boolean
  test per rule kind. It files an accepted value into the caller's rules
  dictionary and raises the matching error class on the first rejected
  one.
- The error classes (`_norm_errors.py`) record the variable and the value.
  Five of them classify at construction time what is wrong with the value.
  All of them render as a generic preamble (the value as a commented YAML
  block), then ` -> ` and the cause.

Files:

- `py_values.dfy` (module `PyValues`): parsed YAML values, Python type
  tests, and the exceptions that can escape.
- `text.dfy` (module `Text`): string order and sorting, comment
  formatting, and file-name handling (`basename`, `splitext`).
- `norm_errors.dfy` (module `NormErrors`): the error classes and their
  messages.
- `check_rules.dfy` (module `CheckRules`): the fail-fast checker and its
  rules dictionary (class `RulesDict`).
- `rule_checks.dfy` (module `RuleChecks`): the static checkers of
  `RulesCollection`, and which checker and sub-dictionary each rule name
  selects.
- `norm_rules.dfy` (module `NormRules`): the classes `Rules` and
  `RulesCollection`, the specification functions their methods are proved
  against, and the properties of a whole checking run.

Python exceptions that the code does not catch are part of the model, not
preconditions. These are:

- `KeyError` for a variable without rules, and for an empty validation
  mapping;
- `AttributeError` for `.items()` on a value that is not a mapping;
- `TypeError` for `join` or `sorted` over non-string keys.

They appear as `Outcome.Raised`, `Verdict.Raise` or a returned `crash`.

## Model

| member | source | states |
|---|---|---|
| PyValues.Lookup | q2_metadata/normalization/_norm_errors.py:111 | `d[key]` finds a value exactly when the key is present, and the value found is stored under that key |
| PyValues.Filter | q2_metadata/normalization/_norm_check_rules.py:123 | a list comprehension keeps exactly the elements that pass, with their multiplicities and in order; it keeps all elements iff all pass |
| Text.Join | q2_metadata/normalization/_norm_errors.py:109 | the joined text is empty for no names, starts with the first name and ends with the last |
| Text.SortedUnique | q2_metadata/normalization/_norm_errors.py:107 | `sorted(set(...))` is strictly increasing and holds exactly the given names |
| Text.StrictlySortedUnique | q2_metadata/normalization/_norm_errors.py:107 | two strictly sorted lists with the same members are equal, so the sorted names are determined by the set |
| Text.UncommentCommentNewlines | q2_metadata/normalization/_norm_errors.py:18 | replacing each newline by a newline plus `\t# ` can be undone, so the dumped value is recoverable from the message |
| Text.CommentNewlinesComments | q2_metadata/normalization/_norm_errors.py:18 | after the replacement every newline is followed by `\t# `, so every line of the dumped value is commented |
| Text.Basename | q2_metadata/normalization/_norm_rules.py:300 | `basename` gives a suffix of the path without `/` |
| Text.LastDot | q2_metadata/normalization/_norm_rules.py:300 | the extension starts at the last dot, or there is none |
| Text.StripExtension | q2_metadata/normalization/_norm_rules.py:300 | `splitext(...)[0]` is a prefix of the name |
| Text.BasenameOfSuffix | q2_metadata/normalization/_norm_rules.py:300 | the basename of `dir/name` is `name` when `name` has no `/` |
| Text.LastDotOfExtension | q2_metadata/normalization/_norm_rules.py:300 | the last dot of `name.ext` is the one before `ext` when `ext` has no dot |
| Text.VariableNameOfRuleFile | q2_metadata/normalization/_norm_rules.py:300 | the variable named by `dir/name.yml` is `name`, for any name that is not all dots |
| NormErrors.ExpectedMessage | q2_metadata/normalization/_norm_errors.py:33-38 | no message iff the value is a list of strings; `is not a list` for a non-list, otherwise `not all items are strings` |
| NormErrors.OntologyMessage | q2_metadata/normalization/_norm_errors.py:55-60 | no message iff the value is `Gazetteer ontology`; `is not a string` for a non-string, otherwise `none of` the known ontologies |
| NormErrors.RemapMessage | q2_metadata/normalization/_norm_errors.py:77-82 | no message iff the value is a mapping with string values; `is not a dictionary` for a non-mapping, otherwise `not all dictionary values are strings` |
| NormErrors.FirstBadIndex | q2_metadata/normalization/_norm_errors.py:111-115 | the position of the first condition whose variables are not a list or whose name is not accepted; every earlier condition is good |
| NormErrors.FirstBadCondition | q2_metadata/normalization/_norm_errors.py:111-115 | no message iff every condition is good; otherwise the complaint about the first bad one, in mapping order |
| NormErrors.ExtraKeys | q2_metadata/normalization/_norm_errors.py:105-107 | the symmetric difference with the accepted set is exactly the keys other than `force_to_blank_if` |
| NormErrors.ValidationMessage | q2_metadata/normalization/_norm_errors.py:99-115 | `is not a dictionary` for a non-mapping; an empty mapping raises KeyError; any list of inacceptable validations it names is sorted; when `force_to_blank_if` is the only key, a non-mapping under it raises AttributeError and otherwise the message is the complaint about the first bad nested condition (`not in a list` or `inacceptable condition`), or none |
| NormErrors.ValidationMessageNamesExtraKeys | q2_metadata/normalization/_norm_errors.py:105-109 | with string keys and at least one extra key, the message lists exactly the extra keys, sorted |
| NormErrors.ValidationMessageTypeError | q2_metadata/normalization/_norm_errors.py:105-107 | building the message raises TypeError iff some key is not a string |
| NormErrors.ValidationMessageNone | q2_metadata/normalization/_norm_errors.py:99-115 | no message iff `force_to_blank_if` is the only key and maps to a mapping of good conditions |
| NormErrors.UnknownTerms | q2_metadata/normalization/_norm_errors.py:136-137 | the keys outside the accepted normalization terms, exactly |
| NormErrors.NormalizationMessage | q2_metadata/normalization/_norm_errors.py:132-139 | `is not a dictionary` for a non-mapping; no message iff every key is an accepted term; TypeError iff a key is not a string; otherwise the sorted list of exactly the impossible terms |
| NormErrors.GetMessage | q2_metadata/normalization/_norm_errors.py:146-185 | the string-rule classes have no message; only the validation and normalization messages can raise |
| NormErrors.NewRuleError | q2_metadata/normalization/_norm_errors.py:27-31 | an error records its class, the class's rule name, the variable, the value and the class's message; construction raises exactly when the message does |
| NormErrors.RuleNamesCollide | q2_metadata/normalization/_norm_errors.py:27-185 | two error classes record the same rule name iff they are the same class or both are among `BlankError` and `FormatError` (both record `format`) |
| NormErrors.GenericMessage | q2_metadata/normalization/_norm_errors.py:17-20 | the preamble is the header naming the rule and variable, then `\t# ` and a block in which every newline is commented and from which the dumped value is recovered exactly |
| NormErrors.RenderLocatesOffence | q2_metadata/normalization/_norm_errors.py:17-20 | the text names the rule and the variable, then holds the dumped value as a commented block from which the dump is recoverable, then ` -> ` and the cause |
| NormErrors.StringRuleErrorsEndAlike | q2_metadata/normalization/_norm_errors.py:155-157 | the blank, missing and format errors all end in ` -> is not a string` |
| CheckRules.CheckExpected | q2_metadata/normalization/_norm_check_rules.py:121-126 | accepts iff the value is a list whose items are all strings |
| CheckRules.CheckOntology | q2_metadata/normalization/_norm_check_rules.py:147-150 | accepts iff the value is the string `Gazetteer ontology` |
| CheckRules.CheckRemap | q2_metadata/normalization/_norm_check_rules.py:174-178 | accepts iff the value is a mapping whose values are all strings |
| CheckRules.CheckNormalization | q2_metadata/normalization/_norm_check_rules.py:257-262 | accepts iff the value is a mapping whose keys are all accepted normalization terms |
| CheckRules.CheckValidation | q2_metadata/normalization/_norm_check_rules.py:206-226 | the loop over the nested conditions returns, or raises, what the validation specification says |
| CheckRules.ValidationAccepts | q2_metadata/normalization/_norm_check_rules.py:206-226 | False for a non-mapping and for a mapping with any key other than `force_to_blank_if`; an empty mapping raises KeyError and nothing else does; AttributeError only when `force_to_blank_if` holds a non-mapping; an accepted validation has `force_to_blank_if` as its only key |
| CheckRules.RejectedValidationWithoutMessage | q2_metadata/normalization/_norm_check_rules.py:206-226 | a validation whose only condition is `is_null` is rejected by the checker, yet its ValidationError has no message |
| CheckRules.OneGoodConditionSuffices | q2_metadata/normalization/_norm_check_rules.py:220-225 | a validation holding only `force_to_blank_if` is accepted iff some nested condition is `is null` and maps to a list, whatever the other conditions are |
| CheckRules.AcceptedValidationHasMessage | q2_metadata/normalization/_norm_check_rules.py:206-226 | every validation the checker accepts still gets a message from `ValidationError`, because the checker requires `is null` while the error class accepts only `is_null` |
| CheckRules.Dispatch | q2_metadata/normalization/_norm_check_rules.py:49-95 | exactly the eight rule names are recognised; `expected` and `ontology` are filed under `lookups`, `remap`, `validation` and `normalization` under `edits`, `blank` and `missing` under `allowed`, and only `format` at the top level; each raises an error class whose rule name is the rule's own, except that `blank` raises an error naming `format` |
| CheckRules.Accepts | q2_metadata/normalization/_norm_check_rules.py:49-95 | the checkers for the eight rules; `blank`, `missing` and `format` accept exactly strings (`check_str`); only the validation checker can raise |
| CheckRules.RulesDict.constructor | q2_metadata/tests/normalization/test_norm_rules.py:225-240 | the rules dictionary the fail-fast checker fills starts empty, with `format` at the top level |
| CheckRules.RulesDict.File | q2_metadata/normalization/_norm_check_rules.py:51 | filing a value updates exactly that rule's place in the dictionary |
| CheckRules.Store | q2_metadata/normalization/_norm_check_rules.py:51 | filing a known rule in its own place makes the value readable there and leaves every other rule's place as it was |
| CheckRules.CheckRuleEffect | q2_metadata/normalization/_norm_check_rules.py:49-95 | an exception leaves the dictionary unchanged; an unknown rule does nothing; for a known rule nothing is raised iff the value is accepted, and then it is filed at that rule's place |
| CheckRules.RulesDict.CheckRule | q2_metadata/normalization/_norm_check_rules.py:49-95 | the new dictionary and the raised error are those of the specification of `check_rule` |
| CheckRules.RulesDict.Conclude | q2_metadata/normalization/_norm_check_rules.py:50-53 | for a known rule, an accepted value is filed and a rejected one raises its class's error |
| CheckRules.CheckRuleFilesOnlyAccepted | q2_metadata/normalization/_norm_check_rules.py:49-95 | an exception leaves the dictionary unchanged; an unknown rule does nothing; for a known rule an accepted value is filed without raising and a value not accepted raises and files nothing; no other rule's place changes |
| CheckRules.StoreFiles | q2_metadata/normalization/_norm_check_rules.py:51 | filing a rule makes its value readable at that rule's place and changes nothing else |
| CheckRules.CheckRuleRaisesItsClass | q2_metadata/normalization/_norm_check_rules.py:49-95 | a raised rule error belongs to the rule's class and carries the variable and value; a built-in exception comes only from validation or normalization |
| CheckRules.CheckersAgreeWithMessages | q2_metadata/normalization/_norm_check_rules.py:121-178 | for expected, ontology, remap and normalization, the checker rejects exactly when the error class finds a message |
| RuleChecks.UnknownNames | q2_metadata/normalization/_norm_rules.py:466 | the names in the set difference are exactly the string keys not allowed |
| RuleChecks.CheckExpected | q2_metadata/normalization/_norm_rules.py:386-393 | `not a list` for a non-list; passes iff all items are strings; otherwise `not a string` with exactly the offending items, each as often as it occurs and in list order |
| RuleChecks.CheckRemap | q2_metadata/normalization/_norm_rules.py:414-425 | `not a dictionary` for a non-mapping; passes iff keys and values are all strings or numbers; otherwise `not str, int or float` with exactly the offending pairs, in order |
| RuleChecks.ScanNested | q2_metadata/normalization/_norm_rules.py:458-462 | the scan of the nested conditions never raises; it reports `not allowed` with the nested key, `not a list` with the value, or passes |
| RuleChecks.ScanTop | q2_metadata/normalization/_norm_rules.py:456-464 | the scan of the top-level entries never raises; it reports `not a nested dictionary`, a failure of the nested scan, or passes |
| RuleChecks.ValidationVerdict | q2_metadata/normalization/_norm_rules.py:454-470 | `not a dictionary` for a non-mapping; when every key is in the table, the verdict of the nested loops (first failure as stated by `ScanTopFirstFailure`); with a key outside the table it raises TypeError iff a key is not a string, and otherwise reports `not allowed` with exactly the unknown names |
| RuleChecks.ScanNestedPasses | q2_metadata/normalization/_norm_rules.py:458-462 | the nested scan passes iff every condition is accepted and maps to a list |
| RuleChecks.ScanTopPasses | q2_metadata/normalization/_norm_rules.py:456-464 | the top-level scan passes iff every entry is an allowed key mapping to well-formed nested conditions |
| RuleChecks.ScanNestedFirstFailure | q2_metadata/normalization/_norm_rules.py:458-462 | a failing nested scan stops at the first condition that is not accepted or does not map to a list: `not allowed` with its key when the name is unknown (tested first), else `not a list` with its value; all earlier conditions are good |
| RuleChecks.ScanTopFirstFailure | q2_metadata/normalization/_norm_rules.py:456-464 | a failing top-level scan stops at the first entry that is not well formed: `not a nested dictionary` when its value is not a mapping, else the first failure of the nested scan over it; all earlier entries are well formed |
| RuleChecks.ValidationVerdictMeaning | q2_metadata/normalization/_norm_rules.py:454-470 | the validation checker passes iff the value is well formed, and raises iff it is a mapping with a non-string key |
| RuleChecks.CheckValidation | q2_metadata/normalization/_norm_rules.py:454-470 | the nested loops return what the validation specification says |
| RuleChecks.NotNumericKeys | q2_metadata/normalization/_norm_rules.py:496-497 | exactly the keys whose value is not a number |
| RuleChecks.NotNumericKeysInOrder | q2_metadata/normalization/_norm_rules.py:496-497 | the non-numeric keys are listed once per entry, in mapping order: exactly the keys of the entries whose value is not a number |
| RuleChecks.CheckNormalization | q2_metadata/normalization/_norm_rules.py:493-506 | `not a dictionary` for a non-mapping; passes iff keys are allowed and values numeric; TypeError iff a key is not a string; otherwise `not numeric` with the keys of exactly the non-numeric entries, in mapping order, or `not allowed` with exactly the unknown names |
| RuleChecks.CheckAllowed | q2_metadata/normalization/_norm_rules.py:531-537 | passes iff the value is an allowed string; `not a string` for a non-string, otherwise `not allowed` with the value |
| RuleChecks.KindOf | q2_metadata/normalization/_norm_rules.py:346-356 | a rule name is recognised only when it is the name of a rule kind |
| RuleChecks.KindNameRoundTrip | q2_metadata/normalization/_norm_rules.py:346-356 | every rule kind's name is recognised as that kind |
| RuleChecks.BucketOf | q2_metadata/normalization/_norm_rules.py:346-355 | `normalization`, `validation` and `remap` go to `edits`; `expected` and `ontology` to `lookups`; `blank`, `missing` and `format` to `allowed`, each in both directions |
| RuleChecks.Check | q2_metadata/normalization/_norm_rules.py:357-358 | only the validation and normalization checkers can raise, and only TypeError |
| NormRules.Default | q2_metadata/normalization/_norm_rules.py:150-166 | the initial rules structure has exactly the default keys |
| NormRules.Store | q2_metadata/normalization/_norm_rules.py:360-361 | storing a rule sets that rule's slot, keeps every other slot, and keeps the shape |
| NormRules.ShapedExtensional | q2_metadata/normalization/_norm_rules.py:150-166 | two well-shaped structures with the same slots are equal |
| NormRules.StepFrame | q2_metadata/normalization/_norm_rules.py:346-367 | one rule changes at most its own slot of its own variable, or appends at most one record naming that variable, rule and value, never both; an exception changes nothing |
| NormRules.Step | q2_metadata/normalization/_norm_rules.py:346-367 | one rule keeps the set of variables with a structure and only appends to the log; an exception leaves the state unchanged |
| NormRules.RunPairs | q2_metadata/normalization/_norm_rules.py:317-318 | checking a document keeps the set of variables with a structure and only appends to the log |
| NormRules.RunVariable | q2_metadata/normalization/_norm_rules.py:316-318 | checking a variable keeps the set of variables and only appends to the log; finishing without exception means the variable has a document that is a mapping |
| NormRules.Run | q2_metadata/normalization/_norm_rules.py:315-318 | a run keeps the set of variables and only appends to the log; finishing without exception means every variable in focus has a document that is a mapping |
| NormRules.StepKeepsSound | q2_metadata/normalization/_norm_rules.py:356-364 | one rule keeps every slot holding its default or a value its checker passes; a rejected rule stores nothing |
| NormRules.RunPairsKeepsSound | q2_metadata/normalization/_norm_rules.py:318-319 | checking a whole document keeps every slot holding its default or a value its checker passes |
| NormRules.RunKeepsSound | q2_metadata/normalization/_norm_rules.py:316-319 | a whole run keeps every slot of every variable holding its default or a value its checker passes |
| NormRules.RunPairsFrame | q2_metadata/normalization/_norm_rules.py:318-319 | checking one document touches only its variable's structure and only appends to the log |
| NormRules.RunFrame | q2_metadata/normalization/_norm_rules.py:316-319 | a run touches only the structures of variables in focus and only appends to the log |
| NormRules.Settle | q2_metadata/normalization/_norm_rules.py:318-319 | applying a document's accepted rules keeps the structure's shape |
| NormRules.LastPassing | q2_metadata/normalization/_norm_rules.py:318-361 | the value of the last entry of a rule kind that passes, if any |
| NormRules.SettleSlots | q2_metadata/normalization/_norm_rules.py:318-361 | after a document, each slot holds the last passing value for it, or its old value when none passes |
| NormRules.SettleIdempotent | q2_metadata/normalization/_norm_rules.py:318-361 | applying a document's rules a second time leaves the structure as the first time did |
| NormRules.RunPairsCollects | q2_metadata/normalization/_norm_rules.py:318-319 | when no checker raises, the whole document is checked: the structure is settled and one record per unknown or rejected rule is appended, in order |
| NormRules.RunCollects | q2_metadata/normalization/_norm_rules.py:316-319 | a run over documents whose checkers do not raise ends without exception, logs every failure of every document in focus in order, and settles each structure |
| NormRules.RunTwice | q2_metadata/normalization/_norm_rules.py:316-319 | a second run leaves the structures unchanged and appends the same records to the log again |
| NormRules.CheckVariablesRulesDir | q2_metadata/normalization/_norm_rules.py:277-282 | the files are returned iff the directory exists and holds YAML files; otherwise the IOError message names the missing or empty directory |
| NormRules.IndexKeys | q2_metadata/normalization/_norm_rules.py:298-302 | the variables indexed are exactly the stems of the files |
| NormRules.IndexLastWins | q2_metadata/normalization/_norm_rules.py:298-302 | each variable's document is that of the last file with its stem |
| NormRules.Rules.constructor | q2_metadata/normalization/_norm_rules.py:150-167 | a new `Rules` object holds the default structure and the given document |
| NormRules.RulesCollection.constructor | q2_metadata/normalization/_norm_rules.py:254-257 | a new collection has no variables, an empty log and the given reference values |
| NormRules.RulesCollection.ParseVariablesRules | q2_metadata/normalization/_norm_rules.py:298-302 | every stem gets a new `Rules` object with the default structure and its last file's document; other variables keep their objects |
| NormRules.RulesCollection.Add | q2_metadata/normalization/_norm_rules.py:302 | a variable is bound to a new `Rules` object, and the others are kept |
| NormRules.RulesCollection.CheckRule | q2_metadata/normalization/_norm_rules.py:346-367 | the new structures, log and exception are those of one specification step |
| NormRules.RulesCollection.Log | q2_metadata/normalization/_norm_rules.py:363-367 | a record is appended and the structures are unchanged |
| NormRules.RulesCollection.Keep | q2_metadata/normalization/_norm_rules.py:360-361 | storing a value changes only that variable's structure, and there only the given slot |
| NormRules.RulesCollection.CheckVariablesRules | q2_metadata/normalization/_norm_rules.py:316-319 | the new structures, log and exception are those of the specification of a whole run |

## Left out

- Reading rule files and the rules asset from disk (`read_yaml_file`,
  `glob`, `isdir`, and the asset path). A document, the directory test and
  the file listing are parameters.
- `Rules.parse_rule` and the `Rules.normalize` stub
  (`_norm_rules.py:185-207`, a body of `pass`) are not modelled: `Rules`
  receives its document already parsed and nothing calls the stub here.
  `_normalize.py` (the entry point of normalisation) and `_transformer.py`
  are not part of this model.
- `RuleFormatError` is not part of this model. Its `collect` is modelled
  as appending a record to the collection's error log.
- The contents of the rules asset are not modelled. They are a
  `Reference` parameter. Its `expected` and `remap` entries are passed to
  checkers that never read them, so they are not represented.
- `yaml.dump` and Python's `str()` of a value are the `dump` and `show`
  parameters. The remap checker's `"x: y"` strings are therefore kept as
  the offending pairs themselves.
- `RuleChecks.UnknownNames`: the set difference is a `set`. The order in
  which Python iterates a set (and so the order of the joined names) is
  not modelled.
- Floating-point values are opaque tokens: no arithmetic is done on them
  anywhere in this code.
- Mapping keys are not required to be distinct. A lookup returns the first
  entry with the key, which for a real Python dict is the only one.
- Behaviour where the code and its test-suite disagree follows the code:
  - `check_variables_rules` collects rejected rules in the log. The tests
    (`test_norm_rules.py:66`) expect an exception.
  - `RulesCollection` files `format` under `allowed`. The tests expect it
    at the top level, where the older `check_rule` does put it.
  - The directory check is the static `check_variables_rules_dir`. The
    tests call a `_check_variables_rules_dir` that does not exist.
- Consequences of the code that the model keeps and proves:
  - A second `check_variables_rules` over the same variables appends the
    same records to the log again (`NormRules.RunTwice`).
  - `BlankError` records the rule name `format`.
  - The checker accepts the condition `is null`, while `ValidationError`
    accepts `is_null` (`CheckRules.RejectedValidationWithoutMessage`,
    `CheckRules.OneGoodConditionSuffices`).
  - The normalization term is spelled `mininum` in both files.
- `CheckRules.CheckStr` carries no contract of its own. What it decides
  (`_norm_check_rules.py:311-313`) is stated by the clause of
  `CheckRules.Accepts` for `blank`, `missing` and `format`.
- No value is a tuple: a YAML document never yields one. A tuple behaves
  like any value that is not a string, list or mapping; the tests that
  pass tuples (`test_norm_errors.py:63`, `test_errors_classes.py:35`)
  fall under that case.
- The fail-fast checker's rules dictionary (`CheckRules.RulesDict`)
  always has its `edits`, `lookups` and `allowed` sub-dictionaries, so the
  `KeyError` raised when a caller passes a dictionary without them is not
  modelled.
- `NormRules.RulesCollection.Valid`: does not include that every variable's
  structure has the default keys. `NormRules.RunCollects` and
  `NormRules.RunTwice` therefore take that shape as a requirement on the
  state a run starts from, rather than reading it off the collection.
