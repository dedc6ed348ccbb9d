/**
 The risk analyzer: a fixed battery of independent, additive rules run over
 every classified change. Delete rules look at the address and the resource
 type, replace rules at the resource type, update rules at the before/after
 attribute snapshots. Every rule emits one warning of severity Critical or
 High about the change that triggered it.
 */
module Analyzer {
  import opened Wrappers
  import opened Json
  import opened Strings
  import opened Parser

  /** Severity of a warning, from most to least severe. */
  datatype RiskLevel = Critical | High | Medium | Low

  /** A detected risky change. */
  datatype Warning = Warning(
    level: RiskLevel,
    resource: string,
    resourceType: string,
    message: string,
    explanation: string)

  /** The rules of the battery, grouped by the flag that enables them. */
  datatype Rule =
    | ProductionDestroyed | DatabaseDestroyed | StorageDestroyed | NetworkDestroyed
    | DatabaseReplaced | ComputeReplaced | LoadBalancerReplaced
    | SecurityRelaxed | EncryptionDisabled | BackupDisabled

  /** The severity of each rule's warning: Critical for the four data- or security-losing rules, High otherwise. */
  function RuleLevel(rule: Rule): (r: RiskLevel)
    ensures r == Critical || r == High
    ensures r == Critical <==> rule in {ProductionDestroyed, DatabaseDestroyed, DatabaseReplaced, EncryptionDisabled}
  {
    match rule
    case ProductionDestroyed => Critical
    case DatabaseDestroyed => Critical
    case StorageDestroyed => High
    case NetworkDestroyed => High
    case DatabaseReplaced => Critical
    case ComputeReplaced => High
    case LoadBalancerReplaced => High
    case SecurityRelaxed => High
    case EncryptionDisabled => Critical
    case BackupDisabled => High
  }

  /** The message of each rule's warning. */
  function RuleMessage(rule: Rule): string
  {
    match rule
    case ProductionDestroyed => "Production resource will be DESTROYED"
    case DatabaseDestroyed => "Database will be DESTROYED - data loss risk!"
    case StorageDestroyed => "Storage resource will be DESTROYED - potential data loss"
    case NetworkDestroyed => "Network resource will be DESTROYED - connectivity impact"
    case DatabaseReplaced => "Database will be REPLACED - downtime expected!"
    case ComputeReplaced => "Compute instance will be REPLACED - downtime expected"
    case LoadBalancerReplaced => "Load balancer will be REPLACED - traffic interruption"
    case SecurityRelaxed => "Security group rules are being relaxed"
    case EncryptionDisabled => "Encryption is being DISABLED"
    case BackupDisabled => "Backup or versioning is being DISABLED"
  }

  /** The explanation each rule's warning carries. */
  function RuleExplanation(rule: Rule): string
  {
    match rule
    case ProductionDestroyed => "Deleting production resources can cause service outages"
    case DatabaseDestroyed => "Ensure backups are in place before deleting databases"
    case StorageDestroyed => "Verify data is backed up or migrated before deletion"
    case NetworkDestroyed => "This may affect connectivity for other resources"
    case DatabaseReplaced => "Database recreation causes downtime and potential data loss"
    case ComputeReplaced => "Instance recreation causes service interruption"
    case LoadBalancerReplaced => "This may cause temporary service unavailability"
    case SecurityRelaxed => "Review that new permissions don't expose services unnecessarily"
    case EncryptionDisabled => "Disabling encryption is a serious security risk"
    case BackupDisabled => "This increases risk of data loss"
  }

  /** The warning a rule emits about a change: it names the change and carries the rule's severity and texts. */
  function Emit(rule: Rule, c: ResourceChange): (r: Warning)
    ensures About(r, c) && IsSevere(r)
    ensures r.level == RuleLevel(rule) && MessageRule(r.message) == Some(rule)
  {
    SignatureMatches(rule);
    Warning(RuleLevel(rule), c.address, c.resourceType, RuleMessage(rule), RuleExplanation(rule))
  }

  /**
   The length and last character of a message. Rules are told apart through
   this pair rather than by comparing whole messages: a literal message is a
   long chain of characters to the solver, and comparing two symbolic
   messages character by character costs far more than comparing two pairs.
   */
  function Signature(m: string): (int, char)
  {
    if |m| == 0 then (0, ' ') else (|m|, m[|m| - 1])
  }

  /** The signature of every rule's message; no two rules share one. */
  function MessageKey(rule: Rule): (int, char)
  {
    match rule
    case ProductionDestroyed => (37, 'D')
    case DatabaseDestroyed => (44, '!')
    case StorageDestroyed => (56, 's')
    case NetworkDestroyed => (56, 't')
    case DatabaseReplaced => (46, '!')
    case ComputeReplaced => (53, 'd')
    case LoadBalancerReplaced => (53, 'n')
    case SecurityRelaxed => (38, 'd')
    case EncryptionDisabled => (28, 'D')
    case BackupDisabled => (38, 'D')
  }

  /** The rule whose message signature is `key`, if any. */
  function KeyRule(key: (int, char)): Option<Rule>
  {
    if key == (37, 'D') then Some(ProductionDestroyed)
    else if key == (44, '!') then Some(DatabaseDestroyed)
    else if key == (56, 's') then Some(StorageDestroyed)
    else if key == (56, 't') then Some(NetworkDestroyed)
    else if key == (46, '!') then Some(DatabaseReplaced)
    else if key == (53, 'd') then Some(ComputeReplaced)
    else if key == (53, 'n') then Some(LoadBalancerReplaced)
    else if key == (38, 'd') then Some(SecurityRelaxed)
    else if key == (28, 'D') then Some(EncryptionDisabled)
    else if key == (38, 'D') then Some(BackupDisabled)
    else None
  }

  lemma KeyRuleOfKey(rule: Rule)
    ensures KeyRule(MessageKey(rule)) == Some(rule)
  {
  }

  /** The rule a warning message names, read off its signature. */
  function MessageRule(m: string): Option<Rule>
  {
    KeyRule(Signature(m))
  }

  // The signatures of each group's messages, read off the literal texts.

  lemma DeleteSignatures()
    ensures Signature(RuleMessage(ProductionDestroyed)) == MessageKey(ProductionDestroyed)
    ensures Signature(RuleMessage(DatabaseDestroyed)) == MessageKey(DatabaseDestroyed)
    ensures Signature(RuleMessage(StorageDestroyed)) == MessageKey(StorageDestroyed)
    ensures Signature(RuleMessage(NetworkDestroyed)) == MessageKey(NetworkDestroyed)
  {
  }

  lemma ReplaceSignatures()
    ensures Signature(RuleMessage(DatabaseReplaced)) == MessageKey(DatabaseReplaced)
    ensures Signature(RuleMessage(ComputeReplaced)) == MessageKey(ComputeReplaced)
    ensures Signature(RuleMessage(LoadBalancerReplaced)) == MessageKey(LoadBalancerReplaced)
  {
  }

  lemma UpdateSignatures()
    ensures Signature(RuleMessage(SecurityRelaxed)) == MessageKey(SecurityRelaxed)
    ensures Signature(RuleMessage(EncryptionDisabled)) == MessageKey(EncryptionDisabled)
    ensures Signature(RuleMessage(BackupDisabled)) == MessageKey(BackupDisabled)
  {
  }

  /** Each rule's message carries that rule's signature, so the message names its rule. */
  lemma SignatureMatches(rule: Rule)
    ensures Signature(RuleMessage(rule)) == MessageKey(rule)
    ensures MessageRule(RuleMessage(rule)) == Some(rule)
  {
    DeleteSignatures();
    ReplaceSignatures();
    UpdateSignatures();
    KeyRuleOfKey(rule);
    match rule
    case ProductionDestroyed =>
    case DatabaseDestroyed =>
    case StorageDestroyed =>
    case NetworkDestroyed =>
    case DatabaseReplaced =>
    case ComputeReplaced =>
    case LoadBalancerReplaced =>
    case SecurityRelaxed =>
    case EncryptionDisabled =>
    case BackupDisabled =>
  }

  /** Different rules emit different warnings: their messages differ. */
  lemma EmitInjective(r1: Rule, r2: Rule, c: ResourceChange)
    ensures Emit(r1, c) == Emit(r2, c) <==> r1 == r2
  {
    if Emit(r1, c) == Emit(r2, c) {
      assert MessageRule(Emit(r1, c).message) == MessageRule(Emit(r2, c).message);
    }
  }

  /** Severities the analyzer emits. */
  predicate IsSevere(w: Warning)
  {
    w.level == Critical || w.level == High
  }

  /** The warning names the change's address and type. */
  predicate About(w: Warning, c: ResourceChange)
  {
    w.resource == c.address && w.resourceType == c.resourceType
  }

  // Resource-type lists, matched case-insensitively as substrings.

  const DatabaseTypes: seq<string> := ["aws_db_instance", "aws_rds", "google_sql_database",
    "azurerm_sql_database", "aws_dynamodb_table", "postgresql", "mysql"]
  const StorageTypes: seq<string> := ["aws_s3_bucket", "google_storage_bucket",
    "azurerm_storage_account", "aws_ebs_volume"]
  const NetworkTypes: seq<string> := ["aws_vpc", "aws_subnet", "google_compute_network",
    "azurerm_virtual_network"]
  const ComputeTypes: seq<string> := ["aws_instance", "google_compute_instance",
    "azurerm_virtual_machine", "aws_ecs_service", "aws_lambda_function"]
  const LoadBalancerTypes: seq<string> := ["aws_lb", "aws_elb", "aws_alb",
    "google_compute_forwarding_rule", "azurerm_lb"]
  const SecurityGroupTypes: seq<string> := ["aws_security_group", "google_compute_firewall",
    "azurerm_network_security_group"]

  /** Every fragment of a type list is written in lower case. */
  predicate LowerFragments(fragments: seq<string>)
  {
    forall i :: 0 <= i < |fragments| ==> IsLower(fragments[i])
  }

  // Each type list is written in lower case.

  lemma DatabaseFragmentsLower()
    ensures LowerFragments(DatabaseTypes)
  {
    forall i | 0 <= i < |DatabaseTypes| ensures IsLower(DatabaseTypes[i]) {}
  }

  lemma StorageFragmentsLower()
    ensures LowerFragments(StorageTypes)
  {
    forall i | 0 <= i < |StorageTypes| ensures IsLower(StorageTypes[i]) {}
  }

  lemma NetworkFragmentsLower()
    ensures LowerFragments(NetworkTypes)
  {
    forall i | 0 <= i < |NetworkTypes| ensures IsLower(NetworkTypes[i]) {}
  }

  lemma ComputeFragmentsLower()
    ensures LowerFragments(ComputeTypes)
  {
    forall i | 0 <= i < |ComputeTypes| ensures IsLower(ComputeTypes[i]) {}
  }

  lemma LoadBalancerFragmentsLower()
    ensures LowerFragments(LoadBalancerTypes)
  {
    forall i | 0 <= i < |LoadBalancerTypes| ensures IsLower(LoadBalancerTypes[i]) {}
  }

  lemma SecurityGroupFragmentsLower()
    ensures LowerFragments(SecurityGroupTypes)
  {
    forall i | 0 <= i < |SecurityGroupTypes| ensures IsLower(SecurityGroupTypes[i]) {}
  }

  /**
   A resource type belongs to a list when its lower-cased form contains one
   of the list's fragments; the fragments are already lower case, so they
   are matched as written.
   */
  function IsOfKind(resourceType: string, fragments: seq<string>): (r: bool)
    requires LowerFragments(fragments)
    ensures r <==> exists i :: 0 <= i < |fragments| && Contains(Lower(resourceType), fragments[i])
  {
    forall i | 0 <= i < |fragments|
      ensures Lower(fragments[i]) == fragments[i]
    {
      LowerFixesLower(fragments[i]);
    }
    ContainsAny(resourceType, fragments)
  }

  function IsDatabase(resourceType: string): (r: bool)
    ensures r <==> exists i :: 0 <= i < |DatabaseTypes| && Contains(Lower(resourceType), DatabaseTypes[i])
  {
    DatabaseFragmentsLower();
    IsOfKind(resourceType, DatabaseTypes)
  }

  function IsStorage(resourceType: string): (r: bool)
    ensures r <==> exists i :: 0 <= i < |StorageTypes| && Contains(Lower(resourceType), StorageTypes[i])
  {
    StorageFragmentsLower();
    IsOfKind(resourceType, StorageTypes)
  }

  function IsNetwork(resourceType: string): (r: bool)
    ensures r <==> exists i :: 0 <= i < |NetworkTypes| && Contains(Lower(resourceType), NetworkTypes[i])
  {
    NetworkFragmentsLower();
    IsOfKind(resourceType, NetworkTypes)
  }

  function IsCompute(resourceType: string): (r: bool)
    ensures r <==> exists i :: 0 <= i < |ComputeTypes| && Contains(Lower(resourceType), ComputeTypes[i])
  {
    ComputeFragmentsLower();
    IsOfKind(resourceType, ComputeTypes)
  }

  function IsLoadBalancer(resourceType: string): (r: bool)
    ensures r <==> exists i :: 0 <= i < |LoadBalancerTypes| && Contains(Lower(resourceType), LoadBalancerTypes[i])
  {
    LoadBalancerFragmentsLower();
    IsOfKind(resourceType, LoadBalancerTypes)
  }

  function IsSecurityGroup(resourceType: string): (r: bool)
    ensures r <==> exists i :: 0 <= i < |SecurityGroupTypes| && Contains(Lower(resourceType), SecurityGroupTypes[i])
  {
    SecurityGroupFragmentsLower();
    IsOfKind(resourceType, SecurityGroupTypes)
  }

  /**
   The delete rule's address test: "prod" or "production" in the lower-cased
   address. The "production" disjunct adds nothing, since every address
   containing it contains "prod".
   */
  function IsProductionAddress(address: string): (r: bool)
    ensures r <==> Contains(Lower(address), "prod")
  {
    var lower := Lower(address);
    assert Contains(lower, "production") ==> Contains(lower, "prod") by {
      if Contains(lower, "production") {
        assert OccursAt("production", "prod", 0);
        ContainsTransitive(lower, "production", "prod");
      }
    }
    Contains(lower, "prod") || Contains(lower, "production")
  }

  /** The snapshot holds the boolean `true` under `key`. */
  predicate IsTrue(m: Attributes, key: string)
  {
    key in m && m[key] == JBool(true)
  }

  // Typed reads from an attribute map. A missing key or a value of another
  // type reads as false, zero or the empty list.

  function GetBool(m: Attributes, key: string): (r: bool)
    ensures r <==> IsTrue(m, key)
  {
    if key in m then
      match m[key]
      case JBool(b) => b
      case _ => false
    else
      false
  }

  function GetNumber(m: Attributes, key: string): (r: real)
    ensures r != 0.0 ==> key in m && m[key] == JNumber(r)
    ensures (key in m && m[key].JNumber?) ==> r == m[key].n
  {
    if key in m then
      match m[key]
      case JNumber(n) => n
      case _ => 0.0
    else
      0.0
  }

  /** The string elements of a JSON list, in order; other elements are skipped. */
  function StringItems(items: seq<JValue>): (r: seq<string>)
    ensures |r| <= |items|
    ensures forall s :: s in r <==> JString(s) in items
    ensures forall s :: multiset(r)[s] == multiset(items)[JString(s)]
  {
    if |items| == 0 then
      []
    else
      var rest := StringItems(items[1..]);
      assert items == [items[0]] + items[1..];
      if items[0].JString? then
        assert multiset([items[0].s] + rest) == multiset{items[0].s} + multiset(rest);
        [items[0].s] + rest
      else
        rest
  }

  /**
   Picking the strings out of a list distributes over concatenation, so the
   strings come out in the order the list holds them.
   */
  lemma {:induction false} StringItemsAppend(a: seq<JValue>, b: seq<JValue>)
    ensures StringItems(a + b) == StringItems(a) + StringItems(b)
    decreases |a|
  {
    if |a| == 0 {
      assert a + b == b;
    } else {
      assert (a + b)[1..] == a[1..] + b;
      assert (a + b)[0] == a[0];
      StringItemsAppend(a[1..], b);
    }
  }

  function GetStringSlice(m: Attributes, key: string): (r: seq<string>)
    ensures forall s :: s in r <==> key in m && m[key].JArray? && JString(s) in m[key].items
    ensures key in m && m[key].JArray? ==> forall s :: multiset(r)[s] == multiset(m[key].items)[JString(s)]
    ensures key in m && m[key].JArray? ==> r == StringItems(m[key].items)
    ensures !(key in m && m[key].JArray?) ==> r == []
  {
    if key in m then
      match m[key]
      case JArray(items) => StringItems(items)
      case _ => []
    else
      []
  }

  /** The "open to the world" address blocks. */
  predicate IsOpenCidr(cidr: string)
  {
    cidr == "0.0.0.0/0" || cidr == "::/0"
  }

  /** An open block of `afterCidr` that `beforeCidr` lacks, scanning `afterCidr` in order. */
  function NewOpenCidr(afterCidr: seq<string>, beforeCidr: seq<string>): (r: bool)
    ensures r <==> exists i :: 0 <= i < |afterCidr| && IsOpenCidr(afterCidr[i]) && afterCidr[i] !in beforeCidr
  {
    if |afterCidr| == 0 then
      false
    else if IsOpenCidr(afterCidr[0]) && afterCidr[0] !in beforeCidr then
      true
    else
      var r := NewOpenCidr(afterCidr[1..], beforeCidr);
      assert forall i :: 1 <= i < |afterCidr| ==> afterCidr[i] == afterCidr[1..][i - 1];
      r
  }

  /** The snapshot's `cidr_blocks` list holds the string `cidr`. */
  predicate ListsCidr(m: Attributes, cidr: string)
  {
    "cidr_blocks" in m && m["cidr_blocks"].JArray? && JString(cidr) in m["cidr_blocks"].items
  }

  /** An open block appears in the after snapshot's `cidr_blocks` but not in the before snapshot's. */
  function HasSecurityGroupWeakening(before: Attributes, after: Attributes): (r: bool)
    ensures r <==> || (ListsCidr(after, "0.0.0.0/0") && !ListsCidr(before, "0.0.0.0/0"))
                   || (ListsCidr(after, "::/0") && !ListsCidr(before, "::/0"))
  {
    var afterCidr := GetStringSlice(after, "cidr_blocks");
    var beforeCidr := GetStringSlice(before, "cidr_blocks");
    var r := NewOpenCidr(afterCidr, beforeCidr);
    assert ListsCidr(after, "0.0.0.0/0") <==> "0.0.0.0/0" in afterCidr;
    assert ListsCidr(after, "::/0") <==> "::/0" in afterCidr;
    r
  }

  const EncryptionKeys: seq<string> := ["encryption", "encrypted", "enable_encryption", "encryption_enabled"]
  const BackupKeys: seq<string> := ["versioning", "backup_enabled", "enable_backup",
    "backup_retention_days", "backup_retention_period"]

  /** The key reads true before and not true after. */
  predicate TurnedOff(before: Attributes, after: Attributes, key: string)
  {
    IsTrue(before, key) && !IsTrue(after, key)
  }

  /** Some key among `keys` has its boolean turned off, trying the keys in order. */
  function AnyTurnedOff(keys: seq<string>, before: Attributes, after: Attributes): (r: bool)
    ensures r <==> exists i :: 0 <= i < |keys| && TurnedOff(before, after, keys[i])
  {
    if |keys| == 0 then
      false
    else if GetBool(before, keys[0]) && !GetBool(after, keys[0]) then
      true
    else
      var r := AnyTurnedOff(keys[1..], before, after);
      assert forall i :: 1 <= i < |keys| ==> keys[i] == keys[1..][i - 1];
      r
  }

  /** Some encryption key reads true before and not true after. */
  function HasEncryptionDisabled(before: Attributes, after: Attributes): (r: bool)
    ensures r <==> exists k :: k in EncryptionKeys && TurnedOff(before, after, k)
  {
    AnyTurnedOff(EncryptionKeys, before, after)
  }

  /** The key's number drops from positive to exactly zero (missing or non-numbers read as zero). */
  predicate DroppedToZero(before: Attributes, after: Attributes, key: string)
  {
    && key in before && before[key].JNumber? && before[key].n > 0.0
    && (key !in after || !after[key].JNumber? || after[key].n == 0.0)
  }

  /** Some key among `keys` is turned off or dropped to zero, trying the keys in order. */
  function AnyBackupOff(keys: seq<string>, before: Attributes, after: Attributes): (r: bool)
    ensures r <==> exists i :: 0 <= i < |keys| && (TurnedOff(before, after, keys[i]) || DroppedToZero(before, after, keys[i]))
  {
    if |keys| == 0 then
      false
    else if GetBool(before, keys[0]) && !GetBool(after, keys[0]) then
      true
    else if GetNumber(before, keys[0]) > 0.0 && GetNumber(after, keys[0]) == 0.0 then
      true
    else
      var r := AnyBackupOff(keys[1..], before, after);
      assert forall i :: 1 <= i < |keys| ==> keys[i] == keys[1..][i - 1];
      r
  }

  /** Some backup or versioning key is turned off, or its retention drops from positive to zero. */
  function HasBackupDisabled(before: Attributes, after: Attributes): (r: bool)
    ensures r <==> exists k :: k in BackupKeys && (TurnedOff(before, after, k) || DroppedToZero(before, after, k))
  {
    AnyBackupOff(BackupKeys, before, after)
  }

  /**
   The outcome of every test the rules consult, for one change. The
   database test is shared by a delete rule and a replace rule.
   */
  datatype Verdicts = Verdicts(
    production: bool,
    database: bool,
    storage: bool,
    network: bool,
    compute: bool,
    loadBalancer: bool,
    securityRelaxed: bool,
    encryptionOff: bool,
    backupOff: bool)

  /** Runs every test on a change; the security-group test only counts for security-group types. */
  function Assess(c: ResourceChange): Verdicts
  {
    Verdicts(
      IsProductionAddress(c.address),
      IsDatabase(c.resourceType),
      IsStorage(c.resourceType),
      IsNetwork(c.resourceType),
      IsCompute(c.resourceType),
      IsLoadBalancer(c.resourceType),
      IsSecurityGroup(c.resourceType) && HasSecurityGroupWeakening(c.before, c.after),
      HasEncryptionDisabled(c.before, c.after),
      HasBackupDisabled(c.before, c.after))
  }

  /** The test each rule consults. */
  predicate Fires(rule: Rule, v: Verdicts)
  {
    match rule
    case ProductionDestroyed => v.production
    case DatabaseDestroyed => v.database
    case StorageDestroyed => v.storage
    case NetworkDestroyed => v.network
    case DatabaseReplaced => v.database
    case ComputeReplaced => v.compute
    case LoadBalancerReplaced => v.loadBalancer
    case SecurityRelaxed => v.securityRelaxed
    case EncryptionDisabled => v.encryptionOff
    case BackupDisabled => v.backupOff
  }

  /**
   What the verdicts mean. The address test reduces to "prod"; the
   security-group verdict means a security-group type that gains an open
   block; the encryption and backup verdicts mean some listed key turned off
   (or, for backups, a retention dropped to zero).
   */
  lemma AssessMeaning(c: ResourceChange)
    ensures Assess(c).production <==> Contains(Lower(c.address), "prod")
    ensures Assess(c).securityRelaxed <==>
              && IsSecurityGroup(c.resourceType)
              && (|| (ListsCidr(c.after, "0.0.0.0/0") && !ListsCidr(c.before, "0.0.0.0/0"))
                  || (ListsCidr(c.after, "::/0") && !ListsCidr(c.before, "::/0")))
    ensures Assess(c).encryptionOff <==> exists k :: k in EncryptionKeys && TurnedOff(c.before, c.after, k)
    ensures Assess(c).backupOff <==>
              exists k :: k in BackupKeys && (TurnedOff(c.before, c.after, k) || DroppedToZero(c.before, c.after, k))
  {
  }

  const DeleteRules: seq<Rule> := [ProductionDestroyed, DatabaseDestroyed, StorageDestroyed, NetworkDestroyed]
  const ReplaceRules: seq<Rule> := [DatabaseReplaced, ComputeReplaced, LoadBalancerReplaced]
  const UpdateRules: seq<Rule> := [SecurityRelaxed, EncryptionDisabled, BackupDisabled]

  /** A rule is enabled for a change when the change has the flag of the rule's group. */
  predicate Enabled(rule: Rule, c: ResourceChange)
  {
    (rule in DeleteRules && c.isDelete) || (rule in ReplaceRules && c.isReplace) || (rule in UpdateRules && c.isUpdate)
  }

  /** The position of a rule in the battery: the delete, replace and update groups, each in source order. */
  function Rank(rule: Rule): nat
  {
    match rule
    case ProductionDestroyed => 0
    case DatabaseDestroyed => 1
    case StorageDestroyed => 2
    case NetworkDestroyed => 3
    case DatabaseReplaced => 4
    case ComputeReplaced => 5
    case LoadBalancerReplaced => 6
    case SecurityRelaxed => 7
    case EncryptionDisabled => 8
    case BackupDisabled => 9
  }

  /** The rules appear in battery order, each at most once. */
  predicate Ascending(rules: seq<Rule>)
  {
    forall i, j :: 0 <= i < j < |rules| ==> Rank(rules[i]) < Rank(rules[j])
  }

  /** Each group lists its rules in battery order. */
  lemma GroupsAscending()
    ensures Ascending(DeleteRules) && Ascending(ReplaceRules) && Ascending(UpdateRules)
  {
  }

  /**
   The rules of a list that fire: exactly the listed rules that fire, kept
   in list order, so a list in battery order stays in battery order.
   */
  function Fired(rules: seq<Rule>, v: Verdicts): (r: seq<Rule>)
    ensures |r| <= |rules|
    ensures forall rule :: rule in r <==> rule in rules && Fires(rule, v)
    ensures Ascending(rules) ==> Ascending(r)
  {
    if |rules| == 0 then
      []
    else
      var rest := Fired(rules[1..], v);
      assert forall rule :: rule in rules <==> rule == rules[0] || rule in rules[1..];
      if Fires(rules[0], v) then
        assert Ascending(rules) ==> forall rule :: rule in rest ==> Rank(rules[0]) < Rank(rule);
        [rules[0]] + rest
      else
        rest
  }

  /** `f` applied to every element, in order. */
  function Map<A, B>(f: A -> B, s: seq<A>): (r: seq<B>)
    ensures |r| == |s|
    ensures forall i :: 0 <= i < |s| ==> r[i] == f(s[i])
  {
    seq(|s|, i requires 0 <= i < |s| => f(s[i]))
  }

  ghost predicate Injective<A(!new), B>(f: A -> B)
  {
    forall a, b :: f(a) == f(b) ==> a == b
  }

  /** Under an injective `f`, the image of `x` is in the mapped list exactly when `x` is in the list. */
  lemma MapMember<A(!new), B>(f: A -> B, s: seq<A>, x: A)
    requires Injective(f)
    ensures f(x) in Map(f, s) <==> x in s
  {
    if f(x) in Map(f, s) {
      var i :| 0 <= i < |s| && Map(f, s)[i] == f(x);
      assert s[i] == x;
    }
    if x in s {
      var i :| 0 <= i < |s| && s[i] == x;
      assert Map(f, s)[i] == f(x);
    }
  }

  /** Every element of a mapped list is the image of an element of the list. */
  lemma MapOrigin<A, B>(f: A -> B, s: seq<A>, y: B) returns (x: A)
    requires y in Map(f, s)
    ensures x in s && y == f(x)
  {
    var i :| 0 <= i < |s| && Map(f, s)[i] == y;
    x := s[i];
  }

  lemma MapAppend<A, B>(f: A -> B, a: seq<A>, b: seq<A>)
    ensures Map(f, a + b) == Map(f, a) + Map(f, b)
  {
  }

  /** Rule by rule, the warning about a change. */
  function Emitter(c: ResourceChange): Rule -> Warning
  {
    rule => Emit(rule, c)
  }

  /** The warning's message names a rule, and the warning is that rule's warning about `c`. */
  predicate EmittedAbout(w: Warning, c: ResourceChange)
  {
    MessageRule(w.message).Some? && w == Emit(MessageRule(w.message).value, c)
  }

  /** Warnings whose messages name rules in strictly increasing battery order. */
  predicate InBatteryOrder(ws: seq<Warning>)
  {
    forall i, j :: 0 <= i < j < |ws| ==>
      MessageRule(ws[i].message).Some? && MessageRule(ws[j].message).Some?
      && Rank(MessageRule(ws[i].message).value) < Rank(MessageRule(ws[j].message).value)
  }

  /**
   The warnings a list of rules emits about a change, one per rule in list
   order; rules in battery order give warnings in battery order.
   */
  function Emits(rules: seq<Rule>, c: ResourceChange): (r: seq<Warning>)
    ensures |r| == |rules|
    ensures forall i :: 0 <= i < |rules| ==> r[i] == Emit(rules[i], c)
    ensures forall w :: w in r ==> IsSevere(w) && EmittedAbout(w, c) && About(w, c)
    ensures Ascending(rules) ==> InBatteryOrder(r)
  {
    Map(Emitter(c), rules)
  }

  /** Warnings in battery order are pairwise different. */
  lemma OrderedDistinct(ws: seq<Warning>)
    requires InBatteryOrder(ws)
    ensures forall i, j :: 0 <= i < j < |ws| ==> ws[i] != ws[j]
  {
  }

  /** A rule's warning is among the warnings of a rule list exactly when the rule is listed. */
  lemma EmitsMember(rules: seq<Rule>, c: ResourceChange, rule: Rule)
    ensures Emit(rule, c) in Emits(rules, c) <==> rule in rules
  {
    forall a, b | Emitter(c)(a) == Emitter(c)(b)
      ensures a == b
    {
      EmitInjective(a, b, c);
    }
    MapMember(Emitter(c), rules, rule);
  }

  /**
   The delete rules, each independent of the others and in a fixed order:
   a production address (Critical), a database (Critical), storage (High),
   a network resource (High).
   */
  function AnalyzeDelete(c: ResourceChange): (r: seq<Warning>)
    ensures |r| <= 4
    ensures forall w :: w in r ==> IsSevere(w) && About(w, c)
    ensures forall rule :: Emit(rule, c) in r <==> rule in DeleteRules && Fires(rule, Assess(c))
    ensures forall w :: w in r ==> EmittedAbout(w, c)
    ensures InBatteryOrder(r)
    ensures forall i, j :: 0 <= i < j < |r| ==> r[i] != r[j]
  {
    var fired := Fired(DeleteRules, Assess(c));
    forall rule
      ensures Emit(rule, c) in Emits(fired, c) <==> rule in fired
    {
      EmitsMember(fired, c, rule);
    }
    GroupsAscending();
    OrderedDistinct(Emits(fired, c));
    Emits(fired, c)
  }

  /**
   The replace rules: a database (Critical), compute (High), a load balancer
   (High). The address is not consulted.
   */
  function AnalyzeReplace(c: ResourceChange): (r: seq<Warning>)
    ensures |r| <= 3
    ensures forall w :: w in r ==> IsSevere(w) && About(w, c)
    ensures forall rule :: Emit(rule, c) in r <==> rule in ReplaceRules && Fires(rule, Assess(c))
    ensures forall w :: w in r ==> EmittedAbout(w, c)
    ensures InBatteryOrder(r)
    ensures forall i, j :: 0 <= i < j < |r| ==> r[i] != r[j]
  {
    var fired := Fired(ReplaceRules, Assess(c));
    forall rule
      ensures Emit(rule, c) in Emits(fired, c) <==> rule in fired
    {
      EmitsMember(fired, c, rule);
    }
    GroupsAscending();
    OrderedDistinct(Emits(fired, c));
    Emits(fired, c)
  }

  /**
   The update rules: a security group opened to the world (High, only for
   security-group types), encryption turned off (Critical), backup or
   versioning turned off (High).
   */
  function AnalyzeUpdate(c: ResourceChange): (r: seq<Warning>)
    ensures |r| <= 3
    ensures forall w :: w in r ==> IsSevere(w) && About(w, c)
    ensures forall rule :: Emit(rule, c) in r <==> rule in UpdateRules && Fires(rule, Assess(c))
    ensures forall w :: w in r ==> EmittedAbout(w, c)
    ensures InBatteryOrder(r)
    ensures forall i, j :: 0 <= i < j < |r| ==> r[i] != r[j]
  {
    var fired := Fired(UpdateRules, Assess(c));
    forall rule
      ensures Emit(rule, c) in Emits(fired, c) <==> rule in fired
    {
      EmitsMember(fired, c, rule);
    }
    GroupsAscending();
    OrderedDistinct(Emits(fired, c));
    Emits(fired, c)
  }

  /** A change none of whose delete, replace or update flags is set. */
  predicate Quiet(c: ResourceChange)
  {
    !c.isDelete && !c.isReplace && !c.isUpdate
  }

  /**
   All warnings about one change: the delete, replace and update groups, each
   run when its flag is set, in that order.
   */
  function AnalyzeChange(c: ResourceChange): (r: seq<Warning>)
    ensures Quiet(c) ==> r == []
    ensures forall w :: w in r ==> IsSevere(w) && About(w, c)
    ensures |r| <= 10
  {
    (if c.isDelete then AnalyzeDelete(c) else [])
    + (if c.isReplace then AnalyzeReplace(c) else [])
    + (if c.isUpdate then AnalyzeUpdate(c) else [])
  }

  /** The rules whose warnings a change receives, group by group in the analyzer's order. */
  function Triggered(c: ResourceChange): (r: seq<Rule>)
    ensures forall rule :: rule in r <==> Enabled(rule, c) && Fires(rule, Assess(c))
    ensures Ascending(r)
  {
    var v := Assess(c);
    var d := if c.isDelete then Fired(DeleteRules, v) else [];
    var p := if c.isReplace then Fired(ReplaceRules, v) else [];
    var u := if c.isUpdate then Fired(UpdateRules, v) else [];
    GroupsAscending();
    GroupedAscending(d, p, u);
    d + p + u
  }

  /** Sublists of the three groups, each in battery order, join in battery order. */
  lemma GroupedAscending(d: seq<Rule>, p: seq<Rule>, u: seq<Rule>)
    requires Ascending(d) && Ascending(p) && Ascending(u)
    requires forall rule :: rule in d ==> rule in DeleteRules
    requires forall rule :: rule in p ==> rule in ReplaceRules
    requires forall rule :: rule in u ==> rule in UpdateRules
    ensures Ascending(d + p + u)
  {
    AscendingAppend(d, p);
    AscendingAppend(d + p, u);
  }

  /** Two rule lists in battery order, the first wholly ranked before the second, join in battery order. */
  lemma AscendingAppend(x: seq<Rule>, y: seq<Rule>)
    requires Ascending(x) && Ascending(y)
    requires forall a, b :: a in x && b in y ==> Rank(a) < Rank(b)
    ensures Ascending(x + y)
  {
    forall i, j | 0 <= i < j < |x + y|
      ensures Rank((x + y)[i]) < Rank((x + y)[j])
    {
      if j < |x| {
        assert (x + y)[i] == x[i] && (x + y)[j] == x[j];
      } else if i >= |x| {
        assert (x + y)[i] == y[i - |x|] && (x + y)[j] == y[j - |x|];
      } else {
        assert (x + y)[i] in x && (x + y)[j] in y;
      }
    }
  }

  /** A change's warnings are the warnings of its triggered rules, in order. */
  lemma AnalyzeChangeEmits(c: ResourceChange)
    ensures AnalyzeChange(c) == Emits(Triggered(c), c)
  {
    var v := Assess(c);
    var d := if c.isDelete then Fired(DeleteRules, v) else [];
    var p := if c.isReplace then Fired(ReplaceRules, v) else [];
    var u := if c.isUpdate then Fired(UpdateRules, v) else [];
    MapAppend(Emitter(c), d, p);
    MapAppend(Emitter(c), d + p, u);
  }

  /**
   A change's warnings come in battery order: delete, replace and update
   warnings in turn, each group in source order, so no warning repeats.
   */
  lemma AnalyzeChangeOrdered(c: ResourceChange)
    ensures InBatteryOrder(AnalyzeChange(c))
    ensures forall i, j :: 0 <= i < j < |AnalyzeChange(c)| ==> AnalyzeChange(c)[i] != AnalyzeChange(c)[j]
  {
    AnalyzeChangeEmits(c);
    OrderedDistinct(AnalyzeChange(c));
  }

  /**
   The rule battery is additive: a rule's warning is among a change's
   warnings exactly when the rule's group is enabled by the change's flags
   and the rule fires.
   */
  lemma AnalyzeChangeMember(c: ResourceChange, rule: Rule)
    ensures Emit(rule, c) in AnalyzeChange(c) <==> Enabled(rule, c) && Fires(rule, Assess(c))
  {
    AnalyzeChangeEmits(c);
    EmitsMember(Triggered(c), c, rule);
  }

  /** Every warning about a change is the warning of a rule that is enabled for it and fires. */
  lemma AnalyzeChangeOrigin(c: ResourceChange)
    ensures forall w :: w in AnalyzeChange(c) ==>
              exists rule :: Enabled(rule, c) && Fires(rule, Assess(c)) && w == Emit(rule, c)
  {
    AnalyzeChangeEmits(c);
    forall w | w in AnalyzeChange(c)
      ensures exists rule :: Enabled(rule, c) && Fires(rule, Assess(c)) && w == Emit(rule, c)
    {
      var rule := MapOrigin(Emitter(c), Triggered(c), w);
      assert w == Emit(rule, c);
    }
  }

  /** The warnings of a list of changes, change by change in list order. */
  function AnalyzeAll(cs: seq<ResourceChange>): (r: seq<Warning>)
    ensures |r| <= 10 * |cs|
  {
    if |cs| == 0 then [] else AnalyzeAll(cs[..|cs| - 1]) + AnalyzeChange(cs[|cs| - 1])
  }

  lemma AppendAssoc(x: seq<Warning>, y: seq<Warning>, z: seq<Warning>)
    ensures (x + y) + z == x + (y + z)
  {
  }

  /** Analysing a concatenation concatenates the analyses: warnings follow change order. */
  lemma {:induction false} AnalyzeAllAppend(a: seq<ResourceChange>, b: seq<ResourceChange>)
    ensures AnalyzeAll(a + b) == AnalyzeAll(a) + AnalyzeAll(b)
    decreases |b|
  {
    if |b| == 0 {
      assert a + b == a;
    } else {
      var b' := b[..|b| - 1];
      var last := b[|b| - 1];
      assert b == b' + [last];
      assert a + b == (a + b') + [last];
      AnalyzeAllAppend(a, b');
      AnalyzeAllSnoc(a + b', last);
      AnalyzeAllSnoc(b', last);
      AppendAssoc(AnalyzeAll(a), AnalyzeAll(b'), AnalyzeChange(last));
    }
  }

  /** One step of the plan loop: a change appended to the list appends its warnings. */
  lemma AnalyzeAllSnoc(cs: seq<ResourceChange>, c: ResourceChange)
    ensures AnalyzeAll(cs + [c]) == AnalyzeAll(cs) + AnalyzeChange(c)
  {
    assert (cs + [c])[..|cs|] == cs;
  }

  /** Every warning of a list of changes is Critical or High and names one of the non-quiet changes. */
  lemma {:induction false} AnalyzeAllSound(cs: seq<ResourceChange>)
    ensures forall w :: w in AnalyzeAll(cs) ==> IsSevere(w) && exists i :: 0 <= i < |cs| && !Quiet(cs[i]) && About(w, cs[i])
  {
    if |cs| > 0 {
      var init := cs[..|cs| - 1];
      AnalyzeAllSound(init);
      assert forall i :: 0 <= i < |init| ==> init[i] == cs[i];
    }
  }

  /** A list of quiet changes yields no warning. */
  lemma {:induction false} AnalyzeAllQuiet(cs: seq<ResourceChange>)
    requires forall i :: 0 <= i < |cs| ==> Quiet(cs[i])
    ensures AnalyzeAll(cs) == []
  {
    if |cs| > 0 {
      AnalyzeAllQuiet(cs[..|cs| - 1]);
    }
  }

  /** The warnings about the change at position `i` sit between those about the changes before and after it. */
  lemma AnalyzeAllSplit(cs: seq<ResourceChange>, i: nat)
    requires i < |cs|
    ensures AnalyzeAll(cs) == AnalyzeAll(cs[..i]) + AnalyzeChange(cs[i]) + AnalyzeAll(cs[i + 1..])
  {
    var front := cs[..i] + [cs[i]];
    SplitAt(cs, i);
    AnalyzeAllAppend(front, cs[i + 1..]);
    AnalyzeAllAppend(cs[..i], [cs[i]]);
    AnalyzeAllSingle(cs[i]);
  }

  lemma SplitAt<T>(s: seq<T>, i: nat)
    requires i < |s|
    ensures s == (s[..i] + [s[i]]) + s[i + 1..]
  {
  }

  lemma AnalyzeAllSingle(c: ResourceChange)
    ensures AnalyzeAll([c]) == AnalyzeChange(c)
  {
    assert [c][..0] == [];
    EmptyAppend(AnalyzeChange(c));
  }

  lemma EmptyAppend(x: seq<Warning>)
    ensures [] + x == x
  {
  }

  lemma MiddleMember(x: seq<Warning>, y: seq<Warning>, z: seq<Warning>)
    ensures forall w :: w in y ==> w in x + y + z
  {
  }

  /** Every warning about any one change appears among the warnings of the whole list. */
  lemma AnalyzeAllCovers(cs: seq<ResourceChange>)
    ensures forall i :: 0 <= i < |cs| ==> forall w :: w in AnalyzeChange(cs[i]) ==> w in AnalyzeAll(cs)
  {
    forall i | 0 <= i < |cs|
      ensures forall w :: w in AnalyzeChange(cs[i]) ==> w in AnalyzeAll(cs)
    {
      AnalyzeAllSplit(cs, i);
      MiddleMember(AnalyzeAll(cs[..i]), AnalyzeChange(cs[i]), AnalyzeAll(cs[i + 1..]));
    }
  }

  /** Analyses a plan summary's changes. */
  function AnalyzeChanges(summary: PlanSummary): (r: seq<Warning>)
    ensures forall w :: w in r ==>
              IsSevere(w) && exists i :: 0 <= i < |summary.changes| && !Quiet(summary.changes[i]) && About(w, summary.changes[i])
    ensures (forall i :: 0 <= i < |summary.changes| ==> Quiet(summary.changes[i])) ==> r == []
    ensures forall i :: 0 <= i < |summary.changes| ==>
              forall w :: w in AnalyzeChange(summary.changes[i]) ==> w in r
  {
    AnalyzeAllSound(summary.changes);
    assert (forall i :: 0 <= i < |summary.changes| ==> Quiet(summary.changes[i])) ==> AnalyzeAll(summary.changes) == [] by {
      if forall i :: 0 <= i < |summary.changes| ==> Quiet(summary.changes[i]) {
        AnalyzeAllQuiet(summary.changes);
      }
    }
    AnalyzeAllCovers(summary.changes);
    AnalyzeAll(summary.changes)
  }
}
