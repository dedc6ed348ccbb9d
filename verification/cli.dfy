/**
 The two pieces of the command-line driver that carry logic: picking the
 warnings of one severity for the report, and the exit code of the plain
 text (cli) report, which lets a CI pipeline gate on the analysis. The
 markdown report exits 0 after printing, whatever the plan holds.
 */
module Cli {
  import opened Parser
  import opened Analyzer

  /**
   Reference definition of the severity filter: the warnings of the given
   level, in their original order.
   */
  function Filtered(ws: seq<Warning>, level: RiskLevel): (r: seq<Warning>)
    ensures |r| <= |ws|
    ensures forall w :: w in r <==> w in ws && w.level == level
  {
    if |ws| == 0 then
      []
    else
      var init := ws[..|ws| - 1];
      var last := ws[|ws| - 1];
      assert ws == init + [last];
      var prev := Filtered(init, level);
      if last.level == level then prev + [last] else prev
  }

  /**
   The filter as the driver runs it: one pass over the warnings, appending
   each warning of the requested level.
   */
  method FilterWarnings(ws: seq<Warning>, level: RiskLevel) returns (r: seq<Warning>)
    ensures r == Filtered(ws, level)
  {
    r := [];
    var i := 0;
    while i < |ws|
      invariant 0 <= i <= |ws|
      invariant r == Filtered(ws[..i], level)
    {
      assert ws[..i + 1][..i] == ws[..i];
      if ws[i].level == level {
        r := r + [ws[i]];
      }
      i := i + 1;
    }
    assert ws[..|ws|] == ws;
  }

  /** A warning of the level keeps every copy; a warning of another level keeps none. */
  lemma {:induction false} FilteredCounts(ws: seq<Warning>, level: RiskLevel, w: Warning)
    ensures multiset(Filtered(ws, level))[w] == if w.level == level then multiset(ws)[w] else 0
  {
    if |ws| > 0 {
      var init := ws[..|ws| - 1];
      FilteredCounts(init, level, w);
      assert ws == init + [ws[|ws| - 1]];
    }
  }

  /** Filtering a concatenation filters each part: the filter keeps the order of the warnings. */
  lemma {:induction false} FilteredAppend(a: seq<Warning>, b: seq<Warning>, level: RiskLevel)
    ensures Filtered(a + b, level) == Filtered(a, level) + Filtered(b, level)
    decreases |b|
  {
    if |b| == 0 {
      assert a + b == a;
    } else {
      var init := b[..|b| - 1];
      var last := b[|b| - 1];
      var kept := if last.level == level then [last] else [];
      FilteredAppend(a, init, level);
      assert (a + b)[..|a + b| - 1] == a + init;
      assert (a + b)[|a + b| - 1] == last;
      assert Filtered(a + b, level) == Filtered(a + init, level) + kept;
      assert Filtered(b, level) == Filtered(init, level) + kept;
      AppendAssoc(Filtered(a, level), Filtered(init, level), kept);
    }
  }

  /** Filtering twice by the same level is filtering once. */
  lemma FilteredIdempotent(ws: seq<Warning>, level: RiskLevel)
    ensures Filtered(Filtered(ws, level), level) == Filtered(ws, level)
  {
    FilteredAllKept(Filtered(ws, level), level);
  }

  /** A list whose warnings all have the level passes the filter unchanged. */
  lemma {:induction false} FilteredAllKept(ws: seq<Warning>, level: RiskLevel)
    requires forall i :: 0 <= i < |ws| ==> ws[i].level == level
    ensures Filtered(ws, level) == ws
  {
    if |ws| > 0 {
      var init := ws[..|ws| - 1];
      FilteredAllKept(init, level);
      assert ws == init + [ws[|ws| - 1]];
    }
  }

  /** No warning of the level leaves nothing after filtering. */
  lemma {:induction false} FilteredNone(ws: seq<Warning>, level: RiskLevel)
    requires forall i :: 0 <= i < |ws| ==> ws[i].level != level
    ensures Filtered(ws, level) == []
  {
    if |ws| > 0 {
      FilteredNone(ws[..|ws| - 1], level);
    }
  }

  /** The four severity filters split the warnings: their sizes add up to the whole list. */
  lemma {:induction false} FilteredPartition(ws: seq<Warning>)
    ensures |Filtered(ws, Critical)| + |Filtered(ws, High)| + |Filtered(ws, Medium)| + |Filtered(ws, Low)| == |ws|
  {
    if |ws| > 0 {
      FilteredPartition(ws[..|ws| - 1]);
    }
  }

  /** The summary records at least one create, update, delete or replace. */
  predicate Pending(s: PlanSummary)
  {
    s.toCreate != 0 || s.toUpdate != 0 || s.toDelete != 0 || s.toReplace != 0
  }

  /** Scans the warnings from the front for a Critical one. */
  function AnyCritical(ws: seq<Warning>): (r: bool)
    ensures r <==> exists i :: 0 <= i < |ws| && ws[i].level == Critical
  {
    if |ws| == 0 then
      false
    else if ws[0].level == Critical then
      true
    else
      var r := AnyCritical(ws[1..]);
      assert forall i :: 1 <= i < |ws| ==> ws[i] == ws[1..][i - 1];
      r
  }

  /**
   The exit code of the cli report: 0 when the summary records no create,
   update, delete or replace (no-op records do not count), otherwise 2 when
   some warning is Critical and 1 when none is.
   */
  function ExitCode(s: PlanSummary, ws: seq<Warning>): (code: int)
    ensures code == 0 || code == 1 || code == 2
    ensures code == 0 <==> !Pending(s)
    ensures code == 2 <==> Pending(s) && |Filtered(ws, Critical)| > 0
    ensures code == 1 <==> Pending(s) && forall w :: w in ws ==> w.level != Critical
  {
    if s.toCreate == 0 && s.toUpdate == 0 && s.toDelete == 0 && s.toReplace == 0 then
      0
    else if AnyCritical(ws) then
      var i :| 0 <= i < |ws| && ws[i].level == Critical;
      assert ws[i] in Filtered(ws, Critical);
      2
    else
      FilteredNone(ws, Critical);
      1
  }

  /** The flags whose counters the exit code consults. */
  predicate Actionable(c: ResourceChange)
  {
    c.isCreate || c.isUpdate || c.isDelete || c.isReplace
  }

  /** The summary is pending exactly when one of its changes is actionable. */
  lemma PendingIffActionable(s: PlanSummary)
    requires Counted(s)
    ensures Pending(s) <==> exists i :: 0 <= i < |s.changes| && Actionable(s.changes[i])
  {
    CountFlagPositive(s.changes, CreateFlag);
    CountFlagPositive(s.changes, UpdateFlag);
    CountFlagPositive(s.changes, DeleteFlag);
    CountFlagPositive(s.changes, ReplaceFlag);
  }

  /**
   For a counted summary and warnings of which a Critical one only arises
   from a pending summary, the exit code is 0 exactly when no change is a
   create, update, delete or replace, and 2 exactly when some warning is
   Critical.
   */
  lemma ExitCodeOf(s: PlanSummary, ws: seq<Warning>)
    requires Counted(s)
    requires forall w :: w in ws && w.level == Critical ==> Pending(s)
    ensures ExitCode(s, ws) == 0 <==> forall i :: 0 <= i < |s.changes| ==> !Actionable(s.changes[i])
    ensures ExitCode(s, ws) == 2 <==> exists w :: w in ws && w.level == Critical
  {
    PendingIffActionable(s);
    if w :| w in ws && w.level == Critical {
      assert w in Filtered(ws, Critical);
    }
  }

  /** The same for a counted summary and the warnings about its changes. */
  lemma SummaryExitCode(s: PlanSummary)
    requires Counted(s)
    ensures var code := ExitCode(s, AnalyzeChanges(s));
            && (code == 0 <==> forall i :: 0 <= i < |s.changes| ==> !Actionable(s.changes[i]))
            && (code == 2 <==> exists w :: w in AnalyzeChanges(s) && w.level == Critical)
  {
    var ws := AnalyzeChanges(s);
    PendingIffActionable(s);
    forall w | w in ws && w.level == Critical
      ensures Pending(s)
    {
      var i :| 0 <= i < |s.changes| && !Quiet(s.changes[i]) && About(w, s.changes[i]);
      assert Actionable(s.changes[i]);
    }
    ExitCodeOf(s, ws);
  }

  /**
   End to end, for the cli report with warnings shown: for the summary of a
   plan and the warnings about it, the exit code is 0 exactly when no record
   is a create, update, delete or replace, and 2 exactly when some warning is
   Critical; a Critical warning is never silenced by the "no changes" exit.
   */
  lemma PipelineExitCode(plan: Plan)
    requires AllPresent(plan.resourceChanges)
    ensures var s := ParsePlan(plan);
            var code := ExitCode(s, AnalyzeChanges(s));
            && (code == 0 <==> forall i :: 0 <= i < |s.changes| ==> !Actionable(s.changes[i]))
            && (code == 2 <==> exists w :: w in AnalyzeChanges(s) && w.level == Critical)
  {
    SummaryExitCode(ParsePlan(plan));
  }
}
