/** The per-category coverage gap: the recommended amount chosen by the
    standard mode and adjusted for age and family history, the gap to the
    current amount, and its classification. */
module Gap {
  import opened Inputs
  import opened Coverage

  /** Which standard the analysis compares against: minimum ('min'),
      recommended ('rec') or the customer's own ('user'). */
  datatype StandardMode = MinMode | RecMode | UserMode

  /** 부족 (insufficient), 보통 (moderate), 적정 (adequate). */
  datatype Level = Deficient | Moderate | Adequate

  /** One line of the gap analysis; amounts are in units of 10,000 won. */
  datatype GapItem = GapItem(key: CoverageKey, current: int, rec: real, gap: real, status: Level)

  /** The standard amount the mode selects; in the customer's own mode an unset
      (non-positive) amount falls back to the recommended one. */
  function BaseAmount(e: StandardEntry, mode: StandardMode): (b: int)
    ensures mode == MinMode ==> b == e.min
    ensures mode == RecMode ==> b == e.rec
    ensures b == e.min || b == e.rec || b == e.user
    ensures b == e.min ==> mode == MinMode || e.min == e.rec || (e.min == e.user && e.user > 0)
    ensures mode == UserMode ==> (b == e.user && e.user > 0) || (b == e.rec && e.user <= 0)
    ensures mode != MinMode && e.user <= 0 ==> b == e.rec
  {
    match mode
    case MinMode => e.min
    case RecMode => e.rec
    case UserMode => if e.user > 0 then e.user else e.rec
  }

  /** The family-history flag that concerns a domain. */
  function History(p: Profile, d: Domain): Presence
  {
    match d
    case Cancer => p.historyCancer
    case BrainHeart => p.historyBrainHeart
    case Dementia => p.historyDementia
    case General => No
  }

  /** A family history of the category's own domain applies to it. */
  predicate HistoryApplies(k: CoverageKey, p: Profile)
  {
    History(p, DomainOf(k)) == Yes
  }

  /** The recommended amount adjusted for the customer: the multipliers apply
      one after the other, so they compound. At 60 or older the amount falls to
      60%; a family history of the category's domain raises it by half. */
  function AdjustedAmount(base: int, k: CoverageKey, p: Profile): (r: real)
    ensures r == (base as real) * (if p.age >= 60 then 0.6 else 1.0) * (if HistoryApplies(k, p) then 1.5 else 1.0)
    ensures p.age >= 60 && HistoryApplies(k, p) ==> r == 0.9 * (base as real)
    ensures base >= 0 ==> 0.6 * (base as real) <= r <= 1.5 * (base as real)
  {
    var b0 := base as real;
    var b1 := if p.age >= 60 then b0 * 0.6 else b0;
    var b2 := if DomainOf(k) == Cancer && p.historyCancer == Yes then b1 * 1.5 else b1;
    var b3 := if DomainOf(k) == BrainHeart && p.historyBrainHeart == Yes then b2 * 1.5 else b2;
    if DomainOf(k) == Dementia && p.historyDementia == Yes then b3 * 1.5 else b3
  }

  /** The adjustment as the analysis writes it, recognising each domain's
      categories by the terms in their labels. */
  function AdjustedByLabel(base: int, k: CoverageKey, p: Profile): (r: real)
    ensures p.historyCancer != Yes && p.historyBrainHeart != Yes && p.historyDementia != Yes ==>
              r == (base as real) * (if p.age >= 60 then 0.6 else 1.0)
    ensures p.age < 60 ==> r >= base as real || base < 0
  {
    var b0 := base as real;
    var b1 := if p.age >= 60 then b0 * 0.6 else b0;
    var b2 := if LabelMentions(Label(k), Cancer) && p.historyCancer == Yes then b1 * 1.5 else b1;
    var b3 := if LabelMentions(Label(k), BrainHeart) && p.historyBrainHeart == Yes then b2 * 1.5 else b2;
    if LabelMentions(Label(k), Dementia) && p.historyDementia == Yes then b3 * 1.5 else b3
  }

  /** Replacing the label tests by the domain table changes no adjusted amount. */
  lemma AdjustmentMatchesLabelTests(base: int, k: CoverageKey, p: Profile)
    ensures AdjustedAmount(base, k, p) == AdjustedByLabel(base, k, p)
  {
    DomainMatchesLabel(k, Cancer);
    DomainMatchesLabel(k, BrainHeart);
    DomainMatchesLabel(k, Dementia);
  }

  /** The classification of a current amount against an adjusted recommended
      amount: below half is insufficient, from half up to the amount is
      moderate, and the rest is adequate. */
  function Classify(current: int, rec: real): (s: Level)
    ensures s == Deficient <==> (current as real) < 0.5 * rec
    ensures s == Moderate <==> 0.5 * rec <= (current as real) < rec
    ensures s == Adequate <==> (current as real) >= rec && (current as real) >= 0.5 * rec
  {
    if (current as real) < rec * 0.5 then Deficient
    else if (current as real) < rec then Moderate
    else Adequate
  }

  /** The classification's order: insufficient, moderate, adequate. */
  function Rank(s: Level): nat
  {
    match s
    case Deficient => 0
    case Moderate => 1
    case Adequate => 2
  }

  /** A higher recommended amount never improves the classification. */
  lemma ClassifyAntitone(current: int, r1: real, r2: real)
    requires 0.0 <= r1 <= r2
    ensures Rank(Classify(current, r2)) <= Rank(Classify(current, r1))
  {
  }

  /** The gap line of one category. */
  function GapFor(k: CoverageKey, current: int, e: StandardEntry, mode: StandardMode, p: Profile): (g: GapItem)
    ensures g.key == k && g.current == current
    ensures g.rec == AdjustedAmount(BaseAmount(e, mode), k, p)
    ensures g.gap == (current as real) - g.rec
    ensures g.status == Classify(current, g.rec)
  {
    var rec := AdjustedAmount(BaseAmount(e, mode), k, p);
    GapItem(k, current, rec, (current as real) - rec, Classify(current, rec))
  }

  /** Every standard amount is non-negative. */
  predicate NonNegativeStandards(standards: map<CoverageKey, StandardEntry>)
  {
    forall k :: k in standards ==> standards[k].min >= 0 && standards[k].rec >= 0
  }

  /** The gap analysis: one line per category, in the declared order. */
  function GapAnalysis(coverages: map<CoverageKey, int>, standards: map<CoverageKey, StandardEntry>,
                       mode: StandardMode, p: Profile): (r: seq<GapItem>)
    requires Covers(coverages) && Covers(standards)
    ensures |r| == |CoverageKeys()| == 20
    ensures forall i :: 0 <= i < |r| ==> r[i].key == CoverageKeys()[i]
    ensures forall i :: 0 <= i < |r| ==>
              r[i] == GapFor(r[i].key, coverages[r[i].key], standards[r[i].key], mode, p)
  {
    var keys := CoverageKeys();
    seq(|keys|, i requires 0 <= i < |keys| =>
      GapFor(keys[i], coverages[keys[i]], standards[keys[i]], mode, p))
  }

  /** The built-in table has non-negative amounts with the minimum at most the
      recommended one, so the results below hold for it. */
  lemma InitialStandardsQualify()
    ensures NonNegativeStandards(InitialStandards())
    ensures forall k :: 0 <= InitialStandards()[k].min <= InitialStandards()[k].rec
  {
  }

  /** With non-negative standards, a category shows a shortfall (a negative gap)
      exactly when it is not adequate. */
  lemma GapNegativeIffNotAdequate(coverages: map<CoverageKey, int>, standards: map<CoverageKey, StandardEntry>,
                                  mode: StandardMode, p: Profile, i: int)
    requires Covers(coverages) && Covers(standards) && NonNegativeStandards(standards)
    requires 0 <= i < 20
    ensures var g := GapAnalysis(coverages, standards, mode, p)[i]; g.gap < 0.0 <==> g.status != Adequate
  {
    var g := GapAnalysis(coverages, standards, mode, p)[i];
    var e := standards[g.key];
    assert e.min >= 0 && e.rec >= 0;
    var b := BaseAmount(e, mode);
    assert b >= 0;
    assert g.rec >= 0.0;
  }

  /** Against the recommended standard no category fares better than against
      the minimum one, when the minimum does not exceed the recommendation. */
  lemma RecommendedNoMoreLenientThanMinimum(k: CoverageKey, current: int, e: StandardEntry, p: Profile)
    requires 0 <= e.min <= e.rec
    ensures GapFor(k, current, e, RecMode, p).gap <= GapFor(k, current, e, MinMode, p).gap
    ensures Rank(GapFor(k, current, e, RecMode, p).status) <= Rank(GapFor(k, current, e, MinMode, p).status)
  {
    var lo := AdjustedAmount(e.min, k, p);
    var hi := AdjustedAmount(e.rec, k, p);
    var f := (if p.age >= 60 then 0.6 else 1.0) * (if HistoryApplies(k, p) then 1.5 else 1.0);
    assert lo == (e.min as real) * f && hi == (e.rec as real) * f;
    assert f > 0.0;
    assert (e.rec as real) * f - (e.min as real) * f == ((e.rec - e.min) as real) * f;
    assert lo <= hi;
    ClassifyAntitone(current, lo, hi);
  }
}
