/** The whole analysis: a total function of the profile, the contracts, the
    coverage amounts, the ancillary flags, the standards, the standard mode and
    the evaluation month. */
module Engine {
  import opened Inputs
  import opened Coverage
  import opened Premium
  import opened Gap
  import opened Ancillary

  /** The analysis result: the affordability figures, one gap line per
      coverage category and the four ancillary checks. */
  datatype Analysis = Analysis(afford: Affordability, gapAnalysis: seq<GapItem>, checkResults: seq<CheckItem>)

  function CalculateAnalysis(p: Profile, cs: seq<Contract>, coverages: map<CoverageKey, int>, checks: Checks,
                             standards: map<CoverageKey, StandardEntry>, mode: StandardMode,
                             today: YearMonth): (a: Analysis)
    requires Covers(coverages) && Covers(standards)
    ensures a.afford.totalPremium == TotalPremium(cs) && a.afford.lifecycle.current == a.afford.totalPremium
    ensures a.afford.risk.reason == IncomeBurden <==> p.income > 0 && a.afford.totalPremium > 1500 * p.income
    ensures a.afford.risk.status == AtRisk <==> a.afford.risk.reason != NoReason
    ensures |a.gapAnalysis| == 20
    ensures forall i :: 0 <= i < 20 ==>
              && a.gapAnalysis[i].key == CoverageKeys()[i]
              && a.gapAnalysis[i].current == coverages[CoverageKeys()[i]]
    ensures |a.checkResults| == 4
  {
    Analysis(Afford(p, cs, today), GapAnalysis(coverages, standards, mode, p), AncillaryChecks(checks, p))
  }
}
