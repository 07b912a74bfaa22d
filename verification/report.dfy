/** What the report derives from the analysis for display: the lifecycle table's
    percentages and risk flags, and the counts in the closing summary. */
module Report {
  import Inputs
  import opened Premium
  import opened Gap
  import opened Ancillary
  import Numbers

  /** The rows of the lifecycle table: '현재', '60세', '70세', '80세'. */
  datatype Stage = Now | At60 | At70 | At80

  datatype LifecycleRow = LifecycleRow(stage: Stage, val: int)

  function LifecycleRows(l: Lifecycle): (rows: seq<LifecycleRow>)
    ensures |rows| == 4
    ensures rows[0] == LifecycleRow(Now, l.current)
    ensures rows[1] == LifecycleRow(At60, l.age60)
    ensures rows[2] == LifecycleRow(At70, l.age70)
    ensures rows[3] == LifecycleRow(At80, l.age80)
  {
    [LifecycleRow(Now, l.current), LifecycleRow(At60, l.age60), LifecycleRow(At70, l.age70), LifecycleRow(At80, l.age80)]
  }

  /** A row's premium as a whole percentage of the current total: the nearest
      integer to 100 * val / total, halves rounded up, or 0 without a positive
      total. */
  function RowPercent(val: int, total: int): (pct: int)
    ensures total <= 0 ==> pct == 0
    ensures total > 0 ==> total * (2 * pct - 1) <= 200 * val < total * (2 * pct + 1)
  {
    if total > 0 then Numbers.RoundQuotient(100 * val, total) else 0
  }

  /** A row is flagged when its share, as displayed, exceeds 30%; the current
      row never is. A milestone row is thus flagged exactly when its premium is
      at least 30.5% of a positive total, the point from which it rounds to 31%. */
  predicate IsRiskRow(row: LifecycleRow, total: int): (b: bool)
    ensures b <==> row.stage != Now && total > 0 && 200 * row.val >= 61 * total
  {
    PercentAbove30(row.val, total);
    RowPercent(row.val, total) > 30 && row.stage != Now
  }

  lemma PercentAbove30(val: int, total: int)
    ensures RowPercent(val, total) > 30 <==> total > 0 && 200 * val >= 61 * total
  {
    if total > 0 {
      var pct := RowPercent(val, total);
      if pct > 30 {
        ScaleMonotone(total, 61, 2 * pct - 1);
      } else {
        ScaleMonotone(total, 2 * pct + 1, 61);
      }
    }
  }

  /** With non-negative premiums, a later milestone row is flagged only when
      every earlier milestone row is. */
  lemma RiskFlagsMonotone(p: Inputs.Profile, cs: seq<Inputs.Contract>, today: Inputs.YearMonth)
    requires NonNegativePremiums(cs)
    ensures var f := Afford(p, cs, today);
            var rows := LifecycleRows(f.lifecycle);
      && (IsRiskRow(rows[3], f.totalPremium) ==> IsRiskRow(rows[2], f.totalPremium))
      && (IsRiskRow(rows[2], f.totalPremium) ==> IsRiskRow(rows[1], f.totalPremium))
  {
  }

  lemma ScaleMonotone(t: int, a: int, b: int)
    requires t > 0 && a <= b
    ensures t * a <= t * b
  {
    assert t * b - t * a == t * (b - a);
  }

  /** The current row shows 100% whenever the total is positive. */
  lemma CurrentRowIsWhole(total: int)
    requires total > 0
    ensures RowPercent(total, total) == 100
  {
    var pct := RowPercent(total, total);
    if pct < 100 {
      ScaleMonotone(total, 2 * pct + 1, 199);
    } else if pct > 100 {
      ScaleMonotone(total, 201, 2 * pct - 1);
    }
  }

  /** The number of insufficient lines in the gap analysis. */
  function DeficientCount(gaps: seq<GapItem>): (n: nat)
    ensures n == |set i | 0 <= i < |gaps| && gaps[i].status == Deficient|
  {
    if |gaps| == 0 then 0
    else
      var front := gaps[..|gaps| - 1];
      var inFront := set i | 0 <= i < |front| && front[i].status == Deficient;
      var inAll := set i | 0 <= i < |gaps| && gaps[i].status == Deficient;
      assert inAll == inFront + (if gaps[|gaps| - 1].status == Deficient then {|gaps| - 1} else {});
      DeficientCount(front) + (if gaps[|gaps| - 1].status == Deficient then 1 else 0)
  }

  /** The labels of the missing ancillary coverages, in the checks' order. */
  function MissingLabels(items: seq<CheckItem>): (ls: seq<CheckLabel>)
    ensures |ls| <= |items|
    ensures forall l :: l in ls <==> exists i :: 0 <= i < |items| && items[i] == CheckItem(l, Lacking)
  {
    if |items| == 0 then []
    else
      var rest := MissingLabels(items[1..]);
      assert forall i :: 1 <= i < |items| ==> items[i] == items[1..][i - 1];
      if items[0].status == Lacking then [items[0].name] + rest else rest
  }

  /** The summary's missing ancillary coverages: each check is listed exactly
      when it failed, and the summary reports nothing missing exactly when
      every check is in place or not applicable. */
  lemma MissingChecksListed(c: Inputs.Checks, p: Inputs.Profile)
    ensures var missing := MissingLabels(AncillaryChecks(c, p));
      && (MedicalIndemnity in missing <==> c.silson == Inputs.NoSilson)
      && (DriverLiability in missing <==> p.isDriver == Inputs.Yes && c.driver == Inputs.No)
      && (FireDamage in missing <==> c.fire == Inputs.No)
      && (DailyLiability in missing <==> c.liability == Inputs.No)
  {
    var r := AncillaryChecks(c, p);
    assert r[0].name == MedicalIndemnity && r[1].name == DriverLiability;
    assert r[2].name == FireDamage && r[3].name == DailyLiability;
  }

  /** The missing coverages are listed once each, in the checks' order. */
  lemma MissingChecksInOrder(c: Inputs.Checks, p: Inputs.Profile)
    ensures MissingLabels(AncillaryChecks(c, p)) ==
              (if c.silson == Inputs.NoSilson then [MedicalIndemnity] else [])
              + (if p.isDriver == Inputs.Yes && c.driver == Inputs.No then [DriverLiability] else [])
              + (if c.fire == Inputs.No then [FireDamage] else [])
              + (if c.liability == Inputs.No then [DailyLiability] else [])
  {
    var r := AncillaryChecks(c, p);
    assert r == [r[0], r[1], r[2], r[3]];
    MissingOfFour(r[0], r[1], r[2], r[3]);
  }

  /** The label of a failed check, or nothing. */
  function IfMissing(x: CheckItem): seq<CheckLabel>
  {
    if x.status == Lacking then [x.name] else []
  }

  lemma MissingOfFour(a: CheckItem, b: CheckItem, c: CheckItem, d: CheckItem)
    ensures MissingLabels([a, b, c, d]) == IfMissing(a) + IfMissing(b) + IfMissing(c) + IfMissing(d)
  {
    var s := [a, b, c, d];
    assert s[1..] == [b, c, d] && s[1..][1..] == [c, d] && s[1..][1..][1..] == [d] && [d][1..] == [];
    MissingLabelsCons(s);
    MissingLabelsCons([b, c, d]);
    MissingLabelsCons([c, d]);
    MissingLabelsCons([d]);
  }

  /** The first check is listed, when it failed, ahead of the rest. */
  lemma MissingLabelsCons(items: seq<CheckItem>)
    requires |items| > 0
    ensures MissingLabels(items) ==
              (if items[0].status == Lacking then [items[0].name] else []) + MissingLabels(items[1..])
  {
  }
}
