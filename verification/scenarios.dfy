/**
 Concrete cases of the analyzer's tests, stated over the model: resource-type
 recognition and rejection, the encryption and backup tests on small
 snapshots, and the warnings of database, production and encryption changes.
 */
module Scenarios {
  import opened Json
  import opened Strings
  import opened Parser
  import opened Analyzer

  /** Database types are recognised by a listed fragment anywhere in the type. */
  lemma DbInstanceRecognised()
    ensures IsDatabase("aws_db_instance")
  {
    ContainsAnyWitness("aws_db_instance", DatabaseTypes, 0, 0);
  }

  lemma RdsClusterRecognised()
    ensures IsDatabase("aws_rds_cluster")
  {
    ContainsAnyWitness("aws_rds_cluster", DatabaseTypes, 1, 0);
  }

  lemma GoogleSqlRecognised()
    ensures IsDatabase("google_sql_database")
  {
    ContainsAnyWitness("google_sql_database", DatabaseTypes, 2, 0);
  }

  lemma AzureSqlRecognised()
    ensures IsDatabase("azurerm_sql_database")
  {
    ContainsAnyWitness("azurerm_sql_database", DatabaseTypes, 3, 0);
  }

  lemma DynamoTableRecognised()
    ensures IsDatabase("aws_dynamodb_table")
  {
    ContainsAnyWitness("aws_dynamodb_table", DatabaseTypes, 4, 0);
  }

  /** Storage types are recognised the same way, each by its own fragment. */
  lemma S3BucketRecognised()
    ensures IsStorage("aws_s3_bucket")
  {
    ContainsAnyWitness("aws_s3_bucket", StorageTypes, 0, 0);
  }

  lemma StorageBucketRecognised()
    ensures IsStorage("google_storage_bucket")
  {
    ContainsAnyWitness("google_storage_bucket", StorageTypes, 1, 0);
  }

  lemma StorageAccountRecognised()
    ensures IsStorage("azurerm_storage_account")
  {
    ContainsAnyWitness("azurerm_storage_account", StorageTypes, 2, 0);
  }

  lemma EbsVolumeRecognised()
    ensures IsStorage("aws_ebs_volume")
  {
    ContainsAnyWitness("aws_ebs_volume", StorageTypes, 3, 0);
  }

  /**
   A lower-case type lacking, for each fragment, one of that fragment's
   characters is of none of the fragments' kind.
   */
  lemma NoFragment(s: string, fragments: seq<string>, missing: string)
    requires IsLower(s) && |missing| == |fragments|
    requires forall i :: 0 <= i < |fragments| ==> missing[i] in fragments[i] && missing[i] !in s
    ensures forall i :: 0 <= i < |fragments| ==> !Contains(Lower(s), fragments[i])
  {
    LowerFixesLower(s);
    forall i | 0 <= i < |fragments|
      ensures !Contains(s, fragments[i])
    {
      MissingCharNotContained(s, fragments[i], missing[i]);
    }
  }

  /** A compute type shares no fragment with the database list. */
  lemma InstanceNotDatabase()
    ensures !IsDatabase("aws_instance")
  {
    NoFragment("aws_instance", DatabaseTypes, "drgzdpm");
  }

  /** A storage bucket is not a database. */
  lemma BucketNotDatabase()
    ensures !IsDatabase("aws_s3_bucket")
  {
    NoFragment("aws_s3_bucket", DatabaseTypes, "drgzdpm");
  }

  /** A compute instance is not storage. */
  lemma InstanceNotStorage()
    ensures !IsStorage("aws_instance")
  {
    NoFragment("aws_instance", StorageTypes, "3gzv");
  }

  /** A database instance is not storage. */
  lemma DbInstanceNotStorage()
    ensures !IsStorage("aws_db_instance")
  {
    NoFragment("aws_db_instance", StorageTypes, "3gzv");
  }

  /**
   `encrypted` going from true to false disables encryption; the reverse,
   an unchanged value and snapshots without any encryption key do not.
   */
  lemma EncryptionCases()
    ensures HasEncryptionDisabled(map["encrypted" := JBool(true)], map["encrypted" := JBool(false)])
    ensures !HasEncryptionDisabled(map["encrypted" := JBool(false)], map["encrypted" := JBool(true)])
    ensures !HasEncryptionDisabled(map["encrypted" := JBool(true)], map["encrypted" := JBool(true)])
    ensures !HasEncryptionDisabled(map["name" := JString("test")], map["name" := JString("test")])
  {
    assert "encrypted" in EncryptionKeys;
  }

  /**
   Versioning going from true to false and a retention dropping from 30 to 0
   disable backups; a retention rising from 7 to 30 does not.
   */
  lemma BackupCases()
    ensures HasBackupDisabled(map["versioning" := JBool(true)], map["versioning" := JBool(false)])
    ensures HasBackupDisabled(map["backup_retention_days" := JNumber(30.0)], map["backup_retention_days" := JNumber(0.0)])
    ensures !HasBackupDisabled(map["backup_retention_days" := JNumber(7.0)], map["backup_retention_days" := JNumber(30.0)])
  {
    assert "versioning" in BackupKeys;
    assert "backup_retention_days" in BackupKeys;
  }

  /** Deleting a database always yields the Critical "Database will be DESTROYED" warning about it. */
  lemma DatabaseDeletionCritical(c: ResourceChange)
    requires c.isDelete && IsDatabase(c.resourceType)
    ensures Emit(DatabaseDestroyed, c) in AnalyzeChange(c)
    ensures Emit(DatabaseDestroyed, c).level == Critical && About(Emit(DatabaseDestroyed, c), c)
  {
    AnalyzeChangeMember(c, DatabaseDestroyed);
  }

  /** Replacing a database always yields the Critical "Database will be REPLACED" warning about it. */
  lemma DatabaseReplaceCritical(c: ResourceChange)
    requires c.isReplace && IsDatabase(c.resourceType)
    ensures Emit(DatabaseReplaced, c) in AnalyzeChange(c)
    ensures Emit(DatabaseReplaced, c).level == Critical && About(Emit(DatabaseReplaced, c), c)
  {
    AnalyzeChangeMember(c, DatabaseReplaced);
  }

  /** Deleting a resource whose address mentions "prod" yields the Critical production warning about it. */
  lemma ProductionDeletionCritical(c: ResourceChange)
    requires c.isDelete && Contains(Lower(c.address), "prod")
    ensures Emit(ProductionDestroyed, c) in AnalyzeChange(c)
    ensures Emit(ProductionDestroyed, c).level == Critical && About(Emit(ProductionDestroyed, c), c)
  {
    AnalyzeChangeMember(c, ProductionDestroyed);
  }

  /** Without a delete or replace flag, only the encryption rule among the enabled ones is Critical. */
  lemma UpdateRulesHigh(c: ResourceChange)
    requires !c.isDelete && !c.isReplace
    requires !HasEncryptionDisabled(c.before, c.after)
    ensures forall rule :: Enabled(rule, c) && Fires(rule, Assess(c)) ==> RuleLevel(rule) == High
  {
  }

  /**
   An update that neither deletes nor replaces raises a Critical warning
   only by turning encryption off.
   */
  lemma UpdateCriticalOnlyForEncryption(c: ResourceChange)
    requires !c.isDelete && !c.isReplace
    requires !HasEncryptionDisabled(c.before, c.after)
    ensures forall w :: w in AnalyzeChange(c) ==> w.level == High
  {
    AnalyzeChangeOrigin(c);
    UpdateRulesHigh(c);
    forall w | w in AnalyzeChange(c)
      ensures w.level == High
    {
      var rule :| Enabled(rule, c) && Fires(rule, Assess(c)) && w == Emit(rule, c);
      assert w.level == RuleLevel(rule);
    }
  }

  /** Of the update rules, only the encryption rule fires when only its test holds. */
  lemma EncryptionOnlyFired(v: Verdicts)
    requires !v.securityRelaxed && v.encryptionOff && !v.backupOff
    ensures Fired(UpdateRules, v) == [EncryptionDisabled]
  {
    assert UpdateRules[1..] == [EncryptionDisabled, BackupDisabled];
    assert UpdateRules[1..][1..] == [BackupDisabled];
    assert Fired([BackupDisabled], v) == [] by {
      assert [BackupDisabled][1..] == [];
    }
  }

  /**
   One warning per firing rule: an update whose only firing test is the
   encryption test yields exactly the encryption warning.
   */
  lemma EncryptionOnlyUpdate(c: ResourceChange)
    requires HasEncryptionDisabled(c.before, c.after) && !HasBackupDisabled(c.before, c.after)
    requires !(IsSecurityGroup(c.resourceType) && HasSecurityGroupWeakening(c.before, c.after))
    ensures AnalyzeUpdate(c) == [Emit(EncryptionDisabled, c)]
  {
    EncryptionOnlyFired(Assess(c));
    assert Emits([EncryptionDisabled], c)[0] == Emit(EncryptionDisabled, c);
  }

  /** A database deletion or replacement among a plan's changes yields a Critical warning. */
  lemma DatabaseRiskIsCritical(s: PlanSummary, i: nat)
    requires i < |s.changes| && IsDatabase(s.changes[i].resourceType)
    requires s.changes[i].isDelete || s.changes[i].isReplace
    ensures exists w :: w in AnalyzeChanges(s) && w.level == Critical
  {
    var c := s.changes[i];
    if c.isDelete {
      DatabaseDeletionCritical(c);
      assert Emit(DatabaseDestroyed, c) in AnalyzeChanges(s);
    } else {
      DatabaseReplaceCritical(c);
      assert Emit(DatabaseReplaced, c) in AnalyzeChanges(s);
    }
  }
}
