# InfraSync core: plan classification, risk analysis and exit code

InfraSync reads the JSON plan that an infrastructure-as-code tool writes
during its "plan" step. It summarises which resources will be created,
updated, deleted, replaced or left alone. It then runs a fixed set of
heuristic rules over those changes and emits warnings about dangerous
operations, such as destroying a database, replacing a load balancer,
opening a security group to the world, or turning off encryption or backups.
This project models three pieces of that pipeline in Dafny and proves
properties of them:

- the parser (`pkg/parser/parser.go`), which classifies resource-change
  records and builds the plan summary;
- the analyzer (`pkg/analyzer/analyzer.go`), which holds the rule battery
  and the attribute helpers it uses;
- two functions of the command-line driver (`cmd/infrasync/main.go`): the
  severity filter and the exit code of the plain-text (cli) report.

Files:

- `wrappers.dfy`: `Option`.
- `json.dfy`: decoded JSON values. An attribute snapshot is a map from keys
  to JSON values.
- `strings.dfy`: ASCII lower-casing, substring containment, and
  `ContainsAny`, the case-insensitive "contains any of these fragments"
  test. Every resource-type predicate is built from `ContainsAny`.
- `parser.dfy`:
  - action lists and the classifier;
  - the per-flag counters and the summary fold.
- `analyzer.dfy`:
  - the rules and the exact warning texts;
  - the resource-type predicates and the attribute tests;
  - the three rule groups, the per-change analysis and the whole-plan analysis.
- `cli.dfy`: the severity filter, the exit code, and an end-to-end lemma
  that connects the parser, the analyzer and the exit code.
- `scenarios.dfy`: every case of the repository's analyzer test file for
  the type predicates and the encryption and backup tests, as lemmas, plus
  scenarios of whole changes. Most of the latter are stated for every change of the shape the case describes, not
  for one literal record.

How the model is built:

- The analyzer is modelled by rule. Each of the ten rules has a level, a
  message and an explanation, copied verbatim from the source. It also has
  a test.
- `Assess` runs every test once and produces a `Verdicts` record. A group
  analyser maps its rules, in source order, to the warnings of the rules
  that fire.
- Different rules emit different warnings (`EmitInjective`), because their
  messages differ. That is why "this rule's warning is in the output" is the
  same statement as "this rule fired".
- A message is identified by its length and last character
  (`Signature`, `MessageKey`, `MessageRule`). Comparing two whole messages
  would make the solver walk both literal texts, which is much slower.
- Each rule has a position in the battery (`Rank`): the delete rules, then the
  replace rules, then the update rules, each group in source order. "In
  battery order" means the positions strictly increase, so nothing repeats.

## Model

| member | source | states |
|---|---|---|
| Parser.ActionName | pkg/parser/parser.go:113-146 | The name of each action the classifier compares against reads back as that action, so different actions have different names |
| Parser.ToMap | pkg/parser/parser.go:150-158 | An object snapshot is kept as its map; nil and every non-object value become the empty map |
| Parser.ReplaceShape | pkg/parser/parser.go:115-130 | A two-element list that holds both "delete" and "create" is exactly the multiset {delete, create}, in either order |
| Parser.ClassifyChange | pkg/parser/parser.go:93-147 | The change copies the address, the type, the action names verbatim, the snapshots and the sensitivity markers. Replace is set iff the list is {delete, create}. Create, delete, update or no-op is set iff the list is that one name. Any other list sets nothing |
| Parser.ClassifyFlagsExclusive | pkg/parser/parser.go:113-146 | At most one flag is ever set, and exactly one iff the action list is well formed |
| Parser.CountFlag | pkg/parser/parser.go:69-86 | A flag's count never exceeds the number of changes |
| Parser.CountFlagPositive | pkg/parser/parser.go:71-86 | A counter is positive exactly when some change carries that counter's flag |
| Parser.FlagTotalBound | pkg/parser/parser.go:71-86 | With at most one flag per change, the counters add up to at most the number of changes, with equality iff every change has a flag |
| Parser.Record | pkg/parser/parser.go:69-86 | One loop step appends the change, keeps every counter equal to its flag's count, and raises the counters' sum by the number of flags the change has |
| Parser.Summarize | pkg/parser/parser.go:67-87 | The fold keeps the versions and the changes in input order. Every counter equals the number of changes with its flag |
| Parser.ClassifyAll | pkg/parser/parser.go:67-69 | Each record is classified in order. Each change has at most one flag, and exactly one iff its list is well formed |
| Parser.ParsePlan | pkg/parser/parser.go:56-90 | The summary keeps the versions and has one change per record, in order, classified. Each counter counts its flag. The counters sum to at most the number of changes, with equality iff every action list is well formed. No records give an empty summary |
| Strings.Lower | pkg/analyzer/analyzer.go:226 | Lower-casing keeps the length, moves each upper-case ASCII letter to its lower-case letter, keeps every other character, and leaves no upper-case letter |
| Strings.LowerFixesLower | pkg/analyzer/analyzer.go:226-228 | A string with no upper-case letter is its own lower-case form |
| Strings.Contains | pkg/analyzer/analyzer.go:228 | The left-to-right scan answers true exactly when the fragment occurs at some position |
| Strings.MissingCharNotContained | pkg/analyzer/analyzer.go:228 | A fragment holding a character the string lacks does not occur in it |
| Strings.ContainsTransitive | pkg/analyzer/analyzer.go:56-57 | Whatever occurs in a substring of s occurs in s |
| Strings.ContainsAny | pkg/analyzer/analyzer.go:225-233 | True exactly when the lower-cased string contains the lower-cased form of some candidate |
| Strings.ContainsAnyWitness | pkg/analyzer/analyzer.go:225-233 | For lower-case inputs, one occurrence of one candidate makes the test true |
| Analyzer.RuleLevel | pkg/analyzer/analyzer.go:52-186 | Every rule's warning is Critical or High; Critical exactly for the production deletion, database deletion, database replacement and encryption rules |
| Analyzer.SignatureMatches | pkg/analyzer/analyzer.go:52-186 | Each rule's message, copied verbatim, has a length and last character that no other rule's message has, so the message names its rule |
| Analyzer.Emit | pkg/analyzer/analyzer.go:52-186 | A rule's warning names the change's address and type, carries the rule's severity, and its message names the rule |
| Analyzer.EmitInjective | pkg/analyzer/analyzer.go:52-186 | Two rules emit the same warning about a change only if they are the same rule |
| Analyzer.IsOfKind | pkg/analyzer/analyzer.go:225-233 | For a list of lower-case fragments, a type matches iff its lower-cased form contains one of the fragments as written |
| Analyzer.IsDatabase | pkg/analyzer/analyzer.go:189-193 | A type is a database iff its lower-cased form contains one of the seven database fragments |
| Analyzer.IsStorage | pkg/analyzer/analyzer.go:195-199 | A type is storage iff its lower-cased form contains one of the four storage fragments |
| Analyzer.IsNetwork | pkg/analyzer/analyzer.go:201-205 | A type is a network resource iff its lower-cased form contains one of the four network fragments |
| Analyzer.IsCompute | pkg/analyzer/analyzer.go:207-211 | A type is compute iff its lower-cased form contains one of the five compute fragments |
| Analyzer.IsLoadBalancer | pkg/analyzer/analyzer.go:213-217 | A type is a load balancer iff its lower-cased form contains one of the five load-balancer fragments |
| Analyzer.IsSecurityGroup | pkg/analyzer/analyzer.go:219-223 | A type is a security group iff its lower-cased form contains one of the three security-group fragments |
| Analyzer.IsProductionAddress | pkg/analyzer/analyzer.go:56-57 | The address test holds exactly when the lower-cased address contains "prod"; the "production" disjunct adds nothing |
| Analyzer.GetBool | pkg/analyzer/analyzer.go:299-306 | True exactly when the key is present and holds the boolean true |
| Analyzer.GetNumber | pkg/analyzer/analyzer.go:308-315 | A number stored under the key is returned as it is; a missing key or a non-number reads as zero |
| Analyzer.StringItems | pkg/analyzer/analyzer.go:319-325 | Every string element of the list is kept as often as it occurs, everything else is skipped, and no element is invented |
| Analyzer.StringItemsAppend | pkg/analyzer/analyzer.go:321-325 | The strings of a concatenation are the strings of each part, one after the other, so list order is kept |
| Analyzer.GetStringSlice | pkg/analyzer/analyzer.go:317-330 | When the key holds a list, its strings come back in list order (through StringItems), each as often as the list holds it; otherwise the result is empty |
| Analyzer.NewOpenCidr | pkg/analyzer/analyzer.go:241-255 | True exactly when some after-block is open to the world and absent from the before-blocks |
| Analyzer.HasSecurityGroupWeakening | pkg/analyzer/analyzer.go:236-258 | True exactly when "0.0.0.0/0" or "::/0" appears in the after snapshot's cidr_blocks but not in the before snapshot's |
| Analyzer.AnyTurnedOff | pkg/analyzer/analyzer.go:263-272 | True exactly when some key reads true before and not true after |
| Analyzer.HasEncryptionDisabled | pkg/analyzer/analyzer.go:260-273 | True exactly when one of the four encryption keys goes from true to not true |
| Analyzer.AnyBackupOff | pkg/analyzer/analyzer.go:279-293 | True exactly when some key is turned off, or its number drops from positive to zero (missing reads as zero) |
| Analyzer.HasBackupDisabled | pkg/analyzer/analyzer.go:275-296 | True exactly when one of the five backup keys is turned off or drops from positive to zero |
| Analyzer.AssessMeaning | pkg/analyzer/analyzer.go:52-186 | The production test means "prod" in the address; the security test means a security-group type gaining an open block; the encryption and backup tests mean a listed key turned off or a retention dropped to zero |
| Analyzer.Fired | pkg/analyzer/analyzer.go:52-186 | The rules kept from a group are exactly the group's rules whose test holds, never more than the group has, and a list in battery order stays in battery order |
| Analyzer.Emits | pkg/analyzer/analyzer.go:52-186 | The i-th warning is the i-th rule's warning about the change; every warning is Critical or High, names the change and names its rule; rules in battery order give warnings in battery order |
| Analyzer.EmitsMember | pkg/analyzer/analyzer.go:52-186 | A rule's warning is among the emitted warnings exactly when the rule is listed |
| Analyzer.AnalyzeDelete | pkg/analyzer/analyzer.go:52-101 | At most four warnings, each severe, about the change and the warning of the rule it names. The warning of a rule is present iff it is one of production, database, storage or network and its test holds. The warnings come in source order with no repeat |
| Analyzer.AnalyzeReplace | pkg/analyzer/analyzer.go:104-141 | At most three warnings, each severe, about the change and the warning of the rule it names. The warning of a rule is present iff it is one of database, compute or load balancer and its test holds. The warnings come in source order with no repeat |
| Analyzer.AnalyzeUpdate | pkg/analyzer/analyzer.go:144-186 | At most three warnings, each severe, about the change and the warning of the rule it names. The warning of a rule is present iff it is one of security relaxed, encryption disabled or backup disabled and its test holds. The warnings come in source order with no repeat |
| Analyzer.AnalyzeChange | pkg/analyzer/analyzer.go:32-46 | A change with no delete, replace or update flag gets no warning. Every warning is severe and names the change. There are at most ten |
| Analyzer.Triggered | pkg/analyzer/analyzer.go:32-46 | The rules that reach a change are exactly those whose group's flag is set and whose test holds, in battery order |
| Analyzer.AnalyzeChangeEmits | pkg/analyzer/analyzer.go:32-46 | A change's warnings are the warnings of its triggered rules, in group and rule order |
| Analyzer.AnalyzeChangeOrdered | pkg/analyzer/analyzer.go:32-46 | A change's warnings come in battery order (delete, replace, update groups in turn), so no warning repeats |
| Analyzer.AnalyzeChangeMember | pkg/analyzer/analyzer.go:32-46 | The battery is additive: a rule's warning is present iff the change's flag enables the rule's group and the rule's test holds |
| Analyzer.AnalyzeChangeOrigin | pkg/analyzer/analyzer.go:32-46 | Every warning about a change is the warning of an enabled rule whose test holds |
| Analyzer.AnalyzeAll | pkg/analyzer/analyzer.go:32-46 | A list of changes yields at most ten warnings per change |
| Analyzer.AnalyzeAllSnoc | pkg/analyzer/analyzer.go:32-46 | One pass of the plan loop: appending a change appends exactly its warnings after the earlier ones |
| Analyzer.AnalyzeAllAppend | pkg/analyzer/analyzer.go:32-46 | Analysing a concatenation concatenates the analyses, so warnings follow change order |
| Analyzer.AnalyzeAllSound | pkg/analyzer/analyzer.go:29-49 | Every warning is Critical or High and names a change that has a delete, replace or update flag |
| Analyzer.AnalyzeAllQuiet | pkg/analyzer/analyzer.go:29-49 | Changes without delete, replace or update flags yield no warning |
| Analyzer.AnalyzeAllSplit | pkg/analyzer/analyzer.go:32-46 | The warnings about change i sit between the warnings about the changes before it and those after it |
| Analyzer.AnalyzeAllCovers | pkg/analyzer/analyzer.go:32-46 | Every warning about any single change is among the plan's warnings |
| Analyzer.AnalyzeChanges | pkg/analyzer/analyzer.go:29-49 | The plan's warnings are severe and each names a non-quiet change. All-quiet changes give none. Each change's warnings all appear |
| Cli.Filtered | cmd/infrasync/main.go:201-209 | Keeps exactly the warnings of the requested level and never grows the list |
| Cli.FilterWarnings | cmd/infrasync/main.go:201-209 | The single-pass loop computes the reference filter |
| Cli.FilteredCounts | cmd/infrasync/main.go:201-209 | Every copy of a warning of the level is kept, and none of any other level |
| Cli.FilteredAppend | cmd/infrasync/main.go:201-209 | Filtering a concatenation concatenates the filtered parts, so order is kept |
| Cli.FilteredIdempotent | cmd/infrasync/main.go:201-209 | Filtering twice by a level equals filtering once |
| Cli.FilteredAllKept | cmd/infrasync/main.go:201-209 | A list whose warnings all have the level passes unchanged |
| Cli.FilteredNone | cmd/infrasync/main.go:201-209 | A list with no warning of the level filters to empty |
| Cli.FilteredPartition | cmd/infrasync/main.go:201-209 | The four severity filters split the list: their sizes sum to its length |
| Cli.AnyCritical | cmd/infrasync/main.go:217-222 | The front-to-back scan finds a Critical warning iff one exists |
| Cli.ExitCode | cmd/infrasync/main.go:211-226 | The cli report's code is 0, 1 or 2. It is 0 iff the create, update, delete and replace counters are all zero. It is 2 iff some counter is nonzero and some warning is Critical. It is 1 iff some counter is nonzero and no warning is Critical |
| Cli.PendingIffActionable | cmd/infrasync/main.go:213 | For a counted summary, some of the four counters is nonzero iff some change is a create, update, delete or replace |
| Cli.ExitCodeOf | cmd/infrasync/main.go:211-226 | When a Critical warning only arises from a pending summary, the code is 0 iff no change is actionable and 2 iff some warning is Critical |
| Cli.SummaryExitCode | cmd/infrasync/main.go:76-92 | For a counted summary and the warnings about it, the code is 0 iff no change is actionable and 2 iff some warning is Critical |
| Cli.PipelineExitCode | cmd/infrasync/main.go:58-92 | On a parsed plan and its warnings, the cli report's code is 0 iff no change is a create, update, delete or replace, and 2 iff some warning is Critical |
| Scenarios.DbInstanceRecognised | pkg/analyzer/analyzer_test.go:129 | "aws_db_instance" is a database type |
| Scenarios.RdsClusterRecognised | pkg/analyzer/analyzer_test.go:130 | "aws_rds_cluster" is a database type through the "aws_rds" fragment |
| Scenarios.GoogleSqlRecognised | pkg/analyzer/analyzer_test.go:131 | "google_sql_database" is a database type |
| Scenarios.AzureSqlRecognised | pkg/analyzer/analyzer_test.go:132 | "azurerm_sql_database" is a database type |
| Scenarios.DynamoTableRecognised | pkg/analyzer/analyzer_test.go:133 | "aws_dynamodb_table" is a database type |
| Scenarios.S3BucketRecognised | pkg/analyzer/analyzer_test.go:153 | "aws_s3_bucket" is a storage type |
| Scenarios.StorageBucketRecognised | pkg/analyzer/analyzer_test.go:154 | "google_storage_bucket" is a storage type |
| Scenarios.StorageAccountRecognised | pkg/analyzer/analyzer_test.go:155 | "azurerm_storage_account" is a storage type |
| Scenarios.EbsVolumeRecognised | pkg/analyzer/analyzer_test.go:156 | "aws_ebs_volume" is a storage type |
| Scenarios.NoFragment | pkg/analyzer/analyzer.go:225-233 | A lower-case type that lacks, for each fragment, one of its characters contains none of the fragments |
| Scenarios.InstanceNotDatabase | pkg/analyzer/analyzer_test.go:134 | "aws_instance" is not a database type |
| Scenarios.BucketNotDatabase | pkg/analyzer/analyzer_test.go:135 | "aws_s3_bucket" is not a database type |
| Scenarios.InstanceNotStorage | pkg/analyzer/analyzer_test.go:157 | "aws_instance" is not a storage type |
| Scenarios.DbInstanceNotStorage | pkg/analyzer/analyzer_test.go:158 | "aws_db_instance" is not a storage type |
| Scenarios.EncryptionCases | pkg/analyzer/analyzer_test.go:178-201 | `encrypted` going true to false disables encryption; false to true, true to true and snapshots without an encryption key do not |
| Scenarios.BackupCases | pkg/analyzer/analyzer_test.go:222-237 | `versioning` going true to false and a retention dropping from 30 to 0 disable backups; a retention rising from 7 to 30 does not |
| Scenarios.DatabaseDeletionCritical | pkg/analyzer/analyzer.go:68-77 | Deleting any database yields the Critical "Database will be DESTROYED" warning about it |
| Scenarios.DatabaseReplaceCritical | pkg/analyzer/analyzer.go:108-117 | Replacing any database yields the Critical "Database will be REPLACED" warning about it |
| Scenarios.ProductionDeletionCritical | pkg/analyzer/analyzer.go:56-65 | Deleting any resource whose address mentions "prod" yields the Critical production warning |
| Scenarios.UpdateRulesHigh | pkg/analyzer/analyzer.go:144-186 | Without a delete or replace flag, and with encryption untouched, every rule that reaches the change is High |
| Scenarios.UpdateCriticalOnlyForEncryption | pkg/analyzer/analyzer.go:144-186 | An update that neither deletes nor replaces gets a Critical warning only by turning encryption off |
| Scenarios.EncryptionOnlyFired | pkg/analyzer/analyzer.go:144-186 | Of the update rules, only the encryption rule fires when only its test holds |
| Scenarios.EncryptionOnlyUpdate | pkg/analyzer/analyzer.go:144-186 | When only the encryption test holds, the update rules yield exactly one warning, the encryption warning |
| Scenarios.DatabaseRiskIsCritical | pkg/analyzer/analyzer.go:29-141 | A database deletion or replacement anywhere in a plan yields a Critical warning |

## Left out

- Reading the plan file and decoding JSON (`ParsePlanFile`) are left out. The model starts from a decoded `Plan` value.
- `ParsePlan` never returns an error on its own, so the error result is not modelled.
- Parser.ClassifyChange: requires the record's `change` object to be present. The source dereferences it without a check, so a missing one would crash rather than return a result.
- Sensitivity and unknown-value markers are copied through as opaque JSON values.
- Strings.Lower: folds only ASCII letters. The source's `strings.ToLower` folds all of Unicode, and a few non-ASCII letters fold to ASCII ones (U+212A KELVIN SIGN to `k`, U+0130 to `i`). A type spelled with such a letter, such as "aws_s3_buc\u212Aet", is storage in the source but not in the model. Real resource types are ASCII identifiers.
- Analyzer.GetNumber: numbers are mathematical reals rather than 64-bit floats. Its only caller, `hasBackupDisabled`, compares the numbers only with zero (`> 0` and `== 0`, analyzer.go:290), and those comparisons agree on reals and floats.
- Analyzer.RuleExplanation carries no contract of its own: it is a table of constant texts, copied verbatim, and every warning carries its rule's text through `Emit`.
- The Verdicts record runs every test up front, while the source runs each test inside its rule. The tests have no side effects, so the warnings are the same.
- The terminal and markdown renderers (`pkg/formatter`), the colour output and the warnings printers are left out. Argument parsing and the second command (`cmd/infrasyncli`) are left out too. They only format data the model already computes.
- Cli.PipelineExitCode: covers the cli report with warnings enabled (main.go:66-70, 76-92). With warnings switched off, the driver passes an empty list, so the code is at most 1. The markdown report (main.go:94-113) never calls `determineExitCode` and exits 0 after printing; the model does not cover it.
- `determineExitCode` tests only the create, update, delete and replace counters (main.go:213). A plan made only of no-op records therefore exits 0.
- `classifyChange` sets no flag for an empty list, a list of three or more actions, a two-action list other than {delete, create}, or a single name other than create, delete, update or no-op (parser.go:113-146). Such a record adds to no counter. `ClassifyFlagsExclusive` proves the exact condition.
