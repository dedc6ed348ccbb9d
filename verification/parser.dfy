/**
 The plan parser: classifies each decoded resource-change record into a
 `ResourceChange` carrying five action flags, and folds the records of a
 plan, in order, into a `PlanSummary` with one counter per flag.

 The classification sets AT MOST one flag for any action list, and exactly
 one only for the well-formed lists: a single create, delete, update or
 no-op, or the pair {delete, create} in either order. Every other list
 leaves all five flags false, and such a record then adds to no counter.
 */
module Parser {
  import opened Wrappers
  import opened Json

  /**
   The lifecycle actions a plan document names. `Read` (a data source being
   read) is one of them, but no counter and no flag is kept for it, so a
   record listing it is classified like any other unrecognised list.
   */
  datatype Action = Create | Delete | Update | NoOp | Read

  /** The action's name as it appears in the plan document; it reads back as the same action. */
  function ActionName(a: Action): (r: string)
    ensures ParseAction(r) == Some(a)
  {
    match a
    case Create => "create"
    case Delete => "delete"
    case Update => "update"
    case NoOp => "no-op"
    case Read => "read"
  }

  /** The action a name stands for; any other name gives `None`. */
  function ParseAction(name: string): Option<Action>
  {
    if name == "create" then Some(Create)
    else if name == "delete" then Some(Delete)
    else if name == "update" then Some(Update)
    else if name == "no-op" then Some(NoOp)
    else if name == "read" then Some(Read)
    else None
  }

  /** The decoded `change` object of a record: actions, snapshots and markers. */
  datatype RawChange = RawChange(
    actions: seq<string>,
    before: JValue,
    after: JValue,
    beforeSensitive: JValue,
    afterSensitive: JValue,
    afterUnknown: JValue)

  /** One decoded resource-change record; `change` is `None` when the document omits it. */
  datatype RawResourceChange = RawResourceChange(
    address: string,
    resourceType: string,
    change: Option<RawChange>)

  /** A decoded plan document. */
  datatype Plan = Plan(
    terraformVersion: string,
    formatVersion: string,
    resourceChanges: seq<RawResourceChange>)

  /** A classified resource change. */
  datatype ResourceChange = ResourceChange(
    address: string,
    resourceType: string,
    actions: seq<string>,
    before: Attributes,
    after: Attributes,
    isCreate: bool,
    isUpdate: bool,
    isDelete: bool,
    isReplace: bool,
    isNoOp: bool,
    beforeSensitive: JValue,
    afterSensitive: JValue,
    afterUnknown: JValue)

  /** The summary of a plan: its changes in input order and one counter per flag. */
  datatype PlanSummary = PlanSummary(
    terraformVersion: string,
    formatVersion: string,
    changes: seq<ResourceChange>,
    toCreate: nat,
    toUpdate: nat,
    toDelete: nat,
    toReplace: nat,
    noChanges: nat)

  /** The five flags of a classified change. */
  datatype Flag = CreateFlag | UpdateFlag | DeleteFlag | ReplaceFlag | NoOpFlag

  predicate HasFlag(c: ResourceChange, f: Flag)
  {
    match f
    case CreateFlag => c.isCreate
    case UpdateFlag => c.isUpdate
    case DeleteFlag => c.isDelete
    case ReplaceFlag => c.isReplace
    case NoOpFlag => c.isNoOp
  }

  function Indicator(b: bool): nat
  {
    if b then 1 else 0
  }

  /** How many of the five flags a change has set. */
  function FlagCount(c: ResourceChange): nat
  {
    Indicator(c.isCreate) + Indicator(c.isUpdate) + Indicator(c.isDelete)
    + Indicator(c.isReplace) + Indicator(c.isNoOp)
  }

  /** The action lists the classifier recognises. */
  predicate WellFormedActions(a: seq<string>)
  {
    || (|a| == 1 && ParseAction(a[0]) in {Some(Create), Some(Delete), Some(Update), Some(NoOp)})
    || (|a| == 2 && multiset(a) == multiset{ActionName(Delete), ActionName(Create)})
  }

  /** Normalises a snapshot to an attribute map: anything but an object becomes empty. */
  function ToMap(v: JValue): (r: Attributes)
    ensures v.JObject? ==> r == v.fields
    ensures !v.JObject? ==> r == map[]
  {
    match v
    case JObject(m) => m
    case _ => map[]
  }

  /** A two-element list contains both delete and create exactly when it is {delete, create} as a multiset. */
  lemma ReplaceShape(a: seq<string>)
    ensures |a| == 2 ==>
              ((ActionName(Delete) in a && ActionName(Create) in a) <==> multiset(a) == multiset{ActionName(Delete), ActionName(Create)})
  {
    if |a| == 2 {
      assert a == [a[0], a[1]];
      if multiset(a) == multiset{ActionName(Delete), ActionName(Create)} {
        assert ActionName(Delete) in multiset(a) && ActionName(Create) in multiset(a);
      }
    }
  }

  /**
   Classifies one record. The action names are copied verbatim. The pair
   check comes first: a two-element list holding both delete and create is a
   replace. Otherwise a one-element list naming create, delete, update or
   no-op maps to its own flag; anything else leaves every flag false. The
   record's `change` must be present: the source dereferences it
   unconditionally.
   */
  function ClassifyChange(rc: RawResourceChange): (r: ResourceChange)
    requires rc.change.Some?
    ensures r.address == rc.address && r.resourceType == rc.resourceType
    ensures r.actions == rc.change.value.actions
    ensures r.before == ToMap(rc.change.value.before) && r.after == ToMap(rc.change.value.after)
    ensures r.beforeSensitive == rc.change.value.beforeSensitive
    ensures r.afterSensitive == rc.change.value.afterSensitive
    ensures r.afterUnknown == rc.change.value.afterUnknown
    ensures r.isReplace <==>
              |r.actions| == 2 && multiset(r.actions) == multiset{ActionName(Delete), ActionName(Create)}
    ensures r.isCreate <==> r.actions == [ActionName(Create)]
    ensures r.isDelete <==> r.actions == [ActionName(Delete)]
    ensures r.isUpdate <==> r.actions == [ActionName(Update)]
    ensures r.isNoOp <==> r.actions == [ActionName(NoOp)]
  {
    var d := rc.change.value;
    var a := d.actions;
    var unflagged := ResourceChange(rc.address, rc.resourceType, a, ToMap(d.before), ToMap(d.after),
                                    false, false, false, false, false,
                                    d.beforeSensitive, d.afterSensitive, d.afterUnknown);
    ReplaceShape(a);
    if |a| == 2 && ActionName(Delete) in a && ActionName(Create) in a then
      unflagged.(isReplace := true)
    else if |a| == 1 then
      assert a == [a[0]];
      if a[0] == ActionName(Create) then unflagged.(isCreate := true)
      else if a[0] == ActionName(Delete) then unflagged.(isDelete := true)
      else if a[0] == ActionName(Update) then unflagged.(isUpdate := true)
      else if a[0] == ActionName(NoOp) then unflagged.(isNoOp := true)
      else unflagged
    else
      unflagged
  }

  /**
   The classifier's invariant: at most one flag is ever set, and exactly one
   precisely for the well-formed action lists.
   */
  lemma ClassifyFlagsExclusive(rc: RawResourceChange)
    requires rc.change.Some?
    ensures FlagCount(ClassifyChange(rc)) <= 1
    ensures FlagCount(ClassifyChange(rc)) == 1 <==> WellFormedActions(rc.change.value.actions)
  {
    var a := rc.change.value.actions;
    if |a| == 1 {
      assert a == [a[0]];
    }
  }

  /** Every record of the list carries its `change` object. */
  predicate AllPresent(rcs: seq<RawResourceChange>)
  {
    forall i :: 0 <= i < |rcs| ==> rcs[i].change.Some?
  }

  /** The number of changes with flag `f` set; it never exceeds the number of changes. */
  function CountFlag(cs: seq<ResourceChange>, f: Flag): (r: nat)
    ensures r <= |cs|
  {
    if |cs| == 0 then 0
    else CountFlag(cs[..|cs| - 1], f) + Indicator(HasFlag(cs[|cs| - 1], f))
  }

  /** A flag's count is positive exactly when some change has the flag. */
  lemma {:induction false} CountFlagPositive(cs: seq<ResourceChange>, f: Flag)
    ensures CountFlag(cs, f) > 0 <==> exists i :: 0 <= i < |cs| && HasFlag(cs[i], f)
  {
    if |cs| > 0 {
      var init := cs[..|cs| - 1];
      CountFlagPositive(init, f);
      assert forall i :: 0 <= i < |init| ==> init[i] == cs[i];
      if CountFlag(init, f) > 0 {
        var i :| 0 <= i < |init| && HasFlag(init[i], f);
        assert HasFlag(cs[i], f);
      }
    }
  }

  /** Each counter of the summary equals the number of its changes with the matching flag. */
  predicate Counted(s: PlanSummary)
  {
    && s.toCreate == CountFlag(s.changes, CreateFlag)
    && s.toUpdate == CountFlag(s.changes, UpdateFlag)
    && s.toDelete == CountFlag(s.changes, DeleteFlag)
    && s.toReplace == CountFlag(s.changes, ReplaceFlag)
    && s.noChanges == CountFlag(s.changes, NoOpFlag)
  }

  function CounterTotal(s: PlanSummary): nat
  {
    s.toCreate + s.toUpdate + s.toDelete + s.toReplace + s.noChanges
  }

  function FlagTotal(cs: seq<ResourceChange>): nat
  {
    CountFlag(cs, CreateFlag) + CountFlag(cs, UpdateFlag) + CountFlag(cs, DeleteFlag)
    + CountFlag(cs, ReplaceFlag) + CountFlag(cs, NoOpFlag)
  }

  /**
   When no change has more than one flag, the flag counts add up to at most
   the number of changes, with equality exactly when every change has a flag.
   */
  lemma {:induction false} FlagTotalBound(cs: seq<ResourceChange>)
    requires forall i :: 0 <= i < |cs| ==> FlagCount(cs[i]) <= 1
    ensures FlagTotal(cs) <= |cs|
    ensures FlagTotal(cs) == |cs| <==> forall i :: 0 <= i < |cs| ==> FlagCount(cs[i]) == 1
  {
    if |cs| > 0 {
      var init := cs[..|cs| - 1];
      var last := cs[|cs| - 1];
      assert forall i :: 0 <= i < |init| ==> init[i] == cs[i];
      FlagTotalBound(init);
      assert FlagTotal(cs) == FlagTotal(init) + FlagCount(last);
      if FlagTotal(cs) == |cs| {
        assert FlagTotal(init) == |init| && FlagCount(last) == 1;
        forall i | 0 <= i < |cs|
          ensures FlagCount(cs[i]) == 1
        {
          if i < |init| {
            assert cs[i] == init[i];
          }
        }
      }
      if forall i :: 0 <= i < |cs| ==> FlagCount(cs[i]) == 1 {
        assert FlagCount(last) == 1;
      }
    }
  }

  /**
   The loop body of the fold: append the change and bump the counter of its
   flag. It keeps every counter equal to its flag's count, and the counters
   grow by the number of flags the change carries.
   */
  function Record(s: PlanSummary, c: ResourceChange): (r: PlanSummary)
    ensures r.terraformVersion == s.terraformVersion && r.formatVersion == s.formatVersion
    ensures r.changes == s.changes + [c]
    ensures Counted(s) ==> Counted(r)
    ensures CounterTotal(r) == CounterTotal(s) + FlagCount(c)
  {
    var r := s.(changes := s.changes + [c],
                toCreate := s.toCreate + Indicator(c.isCreate),
                toUpdate := s.toUpdate + Indicator(c.isUpdate),
                toDelete := s.toDelete + Indicator(c.isDelete),
                toReplace := s.toReplace + Indicator(c.isReplace),
                noChanges := s.noChanges + Indicator(c.isNoOp));
    assert r.changes[..|r.changes| - 1] == s.changes;
    r
  }

  /** Appends classified changes in order, counting each one's flag. */
  function Summarize(cs: seq<ResourceChange>, terraformVersion: string, formatVersion: string): (s: PlanSummary)
    ensures s.terraformVersion == terraformVersion && s.formatVersion == formatVersion
    ensures s.changes == cs
    ensures Counted(s)
    decreases |cs|
  {
    if |cs| == 0 then
      PlanSummary(terraformVersion, formatVersion, [], 0, 0, 0, 0, 0)
    else
      var prev := Summarize(cs[..|cs| - 1], terraformVersion, formatVersion);
      assert prev.changes + [cs[|cs| - 1]] == cs;
      Record(prev, cs[|cs| - 1])
  }

  /** Classifies every record, in order; each change carries at most one flag. */
  function ClassifyAll(rcs: seq<RawResourceChange>): (cs: seq<ResourceChange>)
    requires AllPresent(rcs)
    ensures |cs| == |rcs|
    ensures forall i :: 0 <= i < |rcs| ==> cs[i] == ClassifyChange(rcs[i])
    ensures forall i :: 0 <= i < |rcs| ==> FlagCount(cs[i]) <= 1
    ensures forall i :: 0 <= i < |rcs| ==> (FlagCount(cs[i]) == 1 <==> WellFormedActions(rcs[i].change.value.actions))
  {
    var cs := seq(|rcs|, i requires 0 <= i < |rcs| && rcs[i].change.Some? => ClassifyChange(rcs[i]));
    forall i | 0 <= i < |rcs| {
      ClassifyFlagsExclusive(rcs[i]);
    }
    cs
  }

  /**
   Summarises a plan. The changes keep the records' length and order; each
   counter counts the changes with its flag, so the counters add up to at
   most the number of changes, with equality exactly when every record has a
   well-formed action list. An absent or empty record list gives an empty
   summary rather than an error.
   */
  function ParsePlan(plan: Plan): (s: PlanSummary)
    requires AllPresent(plan.resourceChanges)
    ensures s.terraformVersion == plan.terraformVersion && s.formatVersion == plan.formatVersion
    ensures |s.changes| == |plan.resourceChanges|
    ensures Counted(s)
    ensures CounterTotal(s) <= |s.changes|
    ensures CounterTotal(s) == |s.changes| <==>
              forall i :: 0 <= i < |plan.resourceChanges| ==> WellFormedActions(plan.resourceChanges[i].change.value.actions)
    ensures |plan.resourceChanges| == 0 ==> s.changes == [] && CounterTotal(s) == 0
    ensures forall i :: 0 <= i < |s.changes| ==> s.changes[i] == ClassifyChange(plan.resourceChanges[i])
  {
    var s := Summarize(ClassifyAll(plan.resourceChanges), plan.terraformVersion, plan.formatVersion);
    FlagTotalBound(s.changes);
    s
  }
}
