/** Premium affordability: the premium totals, the payments still owed, the
    premiums still payable after retirement and at ages 60, 70 and 80, and the
    first-match risk classification. */
module Premium {
  import opened Inputs
  import Numbers

  /** What contracts with a pay-end date add up to: the payments still owed (in
      won), and the monthly premium still payable after retirement and at ages
      60, 70 and 80. */
  datatype Share = Share(remaining: int, postRetire: int, at60: int, at70: int, at80: int)

  const Nothing := Share(0, 0, 0, 0, 0)

  function Add(a: Share, b: Share): Share
  {
    Share(a.remaining + b.remaining, a.postRetire + b.postRetire,
          a.at60 + b.at60, a.at70 + b.at70, a.at80 + b.at80)
  }

  /** Months from today's month to the pay-end month, counted on the calendar
      month index; zero or negative once that month has come. */
  function MonthsLeft(payEnd: YearMonth, today: YearMonth): (n: int)
    ensures n == MonthIndex(payEnd) - MonthIndex(today)
  {
    (payEnd.year - today.year) * 12 + (payEnd.month0 - today.month0)
  }

  /** The number of calendar months from January of year 0 to the given month. */
  function MonthIndex(m: YearMonth): int
  {
    12 * m.year + m.month0
  }

  /** The calendar year in which the customer reaches the given age: as many
      years after the current one as the age lies above the current age. */
  function YearAtAge(p: Profile, today: YearMonth, age: int): (y: int)
    ensures y - today.year == age - p.age
  {
    today.year + (age - p.age)
  }

  /** What one contract adds. A contract without a pay-end date adds nothing;
      each milestone counts a premium at most once, and the later the
      milestone the fewer contracts are still being paid. */
  function ContractShare(c: Contract, p: Profile, today: YearMonth): (s: Share)
    ensures c.payEnd.None? ==> s == Nothing
    ensures s.remaining != 0 ==> c.payEnd.Some? && MonthsLeft(c.payEnd.value, today) > 0
    ensures c.payEnd.Some? && c.payEnd.value.year < YearAtAge(p, today, 60) ==> s.at60 == s.at70 == s.at80 == 0
    ensures c.premium >= 0 ==>
              0 <= s.at80 <= s.at70 <= s.at60 <= c.premium && 0 <= s.postRetire <= c.premium && 0 <= s.remaining
    ensures c.payEnd.Some? && MonthsLeft(c.payEnd.value, today) > 0 ==>
              s.remaining == MonthsLeft(c.payEnd.value, today) * c.premium
    ensures s.postRetire == (if PaysAt(c, YearAtAge(p, today, p.retireAge) + 1) then c.premium else 0)
    ensures s.at60 == (if PaysAt(c, YearAtAge(p, today, 60)) then c.premium else 0)
    ensures s.at70 == (if PaysAt(c, YearAtAge(p, today, 70)) then c.premium else 0)
    ensures s.at80 == (if PaysAt(c, YearAtAge(p, today, 80)) then c.premium else 0)
  {
    match c.payEnd
    case None => Nothing
    case Some(end) =>
      var months := MonthsLeft(end, today);
      assert months > 0 && c.premium >= 0 ==> months * c.premium >= 0;
      Share(if months > 0 then months * c.premium else 0,
            if end.year > YearAtAge(p, today, p.retireAge) then c.premium else 0,
            if end.year >= YearAtAge(p, today, 60) then c.premium else 0,
            if end.year >= YearAtAge(p, today, 70) then c.premium else 0,
            if end.year >= YearAtAge(p, today, 80) then c.premium else 0)
  }

  /** The contract is still being paid in the given calendar year: it has a
      pay-end date in that year or later. */
  predicate PaysAt(c: Contract, year: int)
  {
    c.payEnd.Some? && c.payEnd.value.year >= year
  }

  predicate NonNegativePremiums(cs: seq<Contract>)
  {
    forall i :: 0 <= i < |cs| ==> cs[i].premium >= 0
  }

  /** The sum of every contract's monthly premium, taken left to right. */
  function TotalPremium(cs: seq<Contract>): (total: int)
    ensures NonNegativePremiums(cs) ==> total >= 0
    ensures (forall i :: 0 <= i < |cs| ==> cs[i].premium == 0) ==> total == 0
  {
    if |cs| == 0 then 0 else TotalPremium(cs[..|cs| - 1]) + cs[|cs| - 1].premium
  }

  /** The shares of all contracts added up, left to right. With non-negative
      premiums, no milestone and no post-retirement total exceeds the total
      premium, and later milestones never exceed earlier ones. */
  function Tally(cs: seq<Contract>, p: Profile, today: YearMonth): (t: Share)
    ensures NonNegativePremiums(cs) ==>
              0 <= t.at80 <= t.at70 <= t.at60 <= TotalPremium(cs) && 0 <= t.postRetire <= TotalPremium(cs)
              && 0 <= t.remaining
  {
    if |cs| == 0 then Nothing
    else
      var front := cs[..|cs| - 1];
      assert NonNegativePremiums(cs) ==> NonNegativePremiums(front);
      Add(Tally(front, p, today), ContractShare(cs[|cs| - 1], p, today))
  }

  /** The totals of a concatenation are the sums of the totals. */
  lemma {:induction false} TallyConcat(a: seq<Contract>, b: seq<Contract>, p: Profile, today: YearMonth)
    ensures Tally(a + b, p, today) == Add(Tally(a, p, today), Tally(b, p, today))
    decreases |b|
  {
    if |b| == 0 {
      TallyEmptySuffix(a, b, p, today);
    } else {
      var front, last := b[..|b| - 1], b[|b| - 1];
      assert (a + b)[..|a + b| - 1] == a + front;
      assert (a + b)[|a + b| - 1] == last;
      TallyConcat(a, front, p, today);
      var x, y, z := Tally(a, p, today), Tally(front, p, today), ContractShare(last, p, today);
      assert Tally(a + b, p, today) == Add(Tally(a + front, p, today), z);
      assert Tally(b, p, today) == Add(y, z);
      AddAssociative(x, y, z);
    }
  }

  lemma TallyEmptySuffix(a: seq<Contract>, b: seq<Contract>, p: Profile, today: YearMonth)
    requires |b| == 0
    ensures Tally(a + b, p, today) == Add(Tally(a, p, today), Tally(b, p, today))
  {
    assert a + b == a;
    assert Tally(b, p, today) == Nothing;
    AddNothing(Tally(a, p, today));
  }

  lemma AddAssociative(x: Share, y: Share, z: Share)
    ensures Add(Add(x, y), z) == Add(x, Add(y, z))
  {
  }

  lemma AddNothing(s: Share)
    ensures Add(s, Nothing) == s
  {
  }

  /** The order in which the contracts are listed does not change any total. */
  lemma TallyOrderIndependent(a: seq<Contract>, b: seq<Contract>, p: Profile, today: YearMonth)
    ensures Tally(a + b, p, today) == Tally(b + a, p, today)
  {
    TallyConcat(a, b, p, today);
    TallyConcat(b, a, p, today);
  }

  /** The total premium of a concatenation is the sum of the totals. */
  lemma {:induction false} TotalPremiumConcat(a: seq<Contract>, b: seq<Contract>)
    ensures TotalPremium(a + b) == TotalPremium(a) + TotalPremium(b)
    decreases |b|
  {
    if |b| == 0 {
      assert a + b == a;
    } else {
      var front := b[..|b| - 1];
      assert (a + b)[..|a + b| - 1] == a + front;
      assert (a + b)[|a + b| - 1] == b[|b| - 1];
      TotalPremiumConcat(a, front);
    }
  }

  /** Contracts without a pay-end date owe nothing and are payable at no milestone. */
  lemma {:induction false} DatelessContractsOweNothing(cs: seq<Contract>, p: Profile, today: YearMonth)
    requires forall i :: 0 <= i < |cs| ==> cs[i].payEnd.None?
    ensures Tally(cs, p, today) == Nothing
  {
    if |cs| > 0 {
      var front := cs[..|cs| - 1];
      assert forall i :: 0 <= i < |front| ==> front[i].payEnd.None?;
      DatelessContractsOweNothing(front, p, today);
      TallyStep(cs, p, today);
      AddNothing(Nothing);
    }
  }

  /** The contracts still being paid in the given year, in list order. */
  function PaidIn(cs: seq<Contract>, year: int): (r: seq<Contract>)
    ensures |r| <= |cs|
    ensures forall c :: c in r <==> c in cs && PaysAt(c, year)
  {
    if |cs| == 0 then []
    else
      var front, last := cs[..|cs| - 1], cs[|cs| - 1];
      assert cs == front + [last];
      PaidIn(front, year) + (if PaysAt(last, year) then [last] else [])
  }

  /** The premium still payable after retirement is the total premium of the
      contracts paid beyond the retirement year; the premium payable at 60, 70
      and 80 is the total premium of the contracts paid in the year the
      customer reaches that age. */
  lemma {:induction false} TallyCountsPaidIn(cs: seq<Contract>, p: Profile, today: YearMonth)
    ensures var t := Tally(cs, p, today);
      && t.postRetire == TotalPremium(PaidIn(cs, YearAtAge(p, today, p.retireAge) + 1))
      && t.at60 == TotalPremium(PaidIn(cs, YearAtAge(p, today, 60)))
      && t.at70 == TotalPremium(PaidIn(cs, YearAtAge(p, today, 70)))
      && t.at80 == TotalPremium(PaidIn(cs, YearAtAge(p, today, 80)))
  {
    if |cs| > 0 {
      TallyCountsPaidIn(cs[..|cs| - 1], p, today);
      PaidInStep(cs, YearAtAge(p, today, p.retireAge) + 1);
      PaidInStep(cs, YearAtAge(p, today, 60));
      PaidInStep(cs, YearAtAge(p, today, 70));
      PaidInStep(cs, YearAtAge(p, today, 80));
    }
  }

  lemma PaidInStep(cs: seq<Contract>, year: int)
    requires |cs| > 0
    ensures var last := cs[|cs| - 1];
      TotalPremium(PaidIn(cs, year)) ==
        TotalPremium(PaidIn(cs[..|cs| - 1], year)) + (if PaysAt(last, year) then last.premium else 0)
  {
    var front, last := cs[..|cs| - 1], cs[|cs| - 1];
    var tail := if PaysAt(last, year) then [last] else [];
    TotalPremiumConcat(PaidIn(front, year), tail);
    assert tail == [] || tail[..0] == [];
  }

  /** For a customer who retires before 60, every premium still payable at 60 is
      also payable after retirement. */
  lemma {:induction false} EarlyRetirementCoversAge60(cs: seq<Contract>, p: Profile, today: YearMonth)
    requires NonNegativePremiums(cs) && p.retireAge < 60
    ensures Tally(cs, p, today).at60 <= Tally(cs, p, today).postRetire
  {
    if |cs| > 0 {
      var front := cs[..|cs| - 1];
      assert NonNegativePremiums(front);
      EarlyRetirementCoversAge60(front, p, today);
    }
  }

  /** With 0-based month indexes, months remain exactly when the pay-end month
      lies after today's month. */
  lemma MonthsLeftPositiveIffLater(payEnd: YearMonth, today: YearMonth)
    requires 0 <= payEnd.month0 < 12 && 0 <= today.month0 < 12
    ensures MonthsLeft(payEnd, today) > 0 <==>
              payEnd.year > today.year || (payEnd.year == today.year && payEnd.month0 > today.month0)
  {
  }

  /** The premium as a percentage of monthly income; income is in units of
      10,000 won, and a non-positive income gives 0. */
  function IncomeRatio(total: int, income: int): (r: real)
    ensures income <= 0 ==> r == 0.0
    ensures income > 0 ==> r * (income as real) == (total as real) / 100.0
  {
    if income > 0 then (total as real) / ((income * 10000) as real) * 100.0 else 0.0
  }

  /** The ratio exceeds 15% exactly when income is positive and the premium
      exceeds 1,500 won per income unit. */
  lemma IncomeRatioAbove15(total: int, income: int)
    ensures IncomeRatio(total, income) > 15.0 <==> income > 0 && total > 1500 * income
  {
    if income > 0 {
      ScaledThreshold(IncomeRatio(total, income), income as real, (total as real) / 100.0);
    }
  }

  /** For a positive n, r * n = m exceeds 15 * n exactly when r exceeds 15. */
  lemma ScaledThreshold(r: real, n: real, m: real)
    requires n > 0.0 && r * n == m
    ensures r > 15.0 <==> m > 15.0 * n
  {
    assert (r - 15.0) * n == m - 15.0 * n;
    if r > 15.0 {
      assert (r - 15.0) * n > 0.0;
    } else {
      assert (15.0 - r) * n >= 0.0;
    }
  }

  datatype RiskStatus = Stable | AtRisk

  /** Why the premiums are at risk; the post-retirement reason carries the
      post-retirement premium as a rounded percentage of the current premium. */
  datatype RiskReason = NoReason | IncomeBurden | PostRetireBurden(percent: int)

  datatype Risk = Risk(status: RiskStatus, reason: RiskReason)

  /** The first-match risk classification: an income ratio above 15% wins;
      otherwise a post-retirement premium above 30% of a positive total premium;
      otherwise stable. */
  /** pct is part as a percentage of whole, rounded to the nearest integer with
      halves rounded up: pct - 1/2 <= 100 * part / whole < pct + 1/2, with both
      sides multiplied by 2 * whole. */
  predicate RoundedPercent(pct: int, part: int, whole: int)
  {
    whole * (2 * pct - 1) <= 200 * part < whole * (2 * pct + 1)
  }

  function Assess(ratio: real, total: int, postRetire: int): (r: Risk)
    ensures r.status == AtRisk <==> r.reason != NoReason
    ensures r.reason == IncomeBurden <==> ratio > 15.0
    ensures r.reason.PostRetireBurden? <==> ratio <= 15.0 && total > 0 && 10 * postRetire > 3 * total
    ensures r.reason.PostRetireBurden? ==> RoundedPercent(r.reason.percent, postRetire, total)
  {
    if ratio > 15.0 then Risk(AtRisk, IncomeBurden)
    else if total > 0 && (postRetire as real) > (total as real) * 0.3 then
      Risk(AtRisk, PostRetireBurden(Numbers.RoundQuotient(100 * postRetire, total)))
    else Risk(Stable, NoReason)
  }

  /** The risk rules stated on the won amounts rather than on the ratio. */
  function RiskFor(total: int, income: int, postRetire: int): (r: Risk)
    ensures r.status == AtRisk <==> r.reason != NoReason
    ensures r.reason == IncomeBurden <==> income > 0 && total > 1500 * income
    ensures r.reason.PostRetireBurden? <==>
              r.reason != IncomeBurden && total > 0 && 10 * postRetire > 3 * total
    ensures r.reason.PostRetireBurden? ==> RoundedPercent(r.reason.percent, postRetire, total)
  {
    IncomeRatioAbove15(total, income);
    Assess(IncomeRatio(total, income), total, postRetire)
  }

  /** The monthly premium payable now and at ages 60, 70 and 80. */
  datatype Lifecycle = Lifecycle(current: int, age60: int, age70: int, age80: int)

  /** The affordability half of the analysis. Premiums are monthly, in won;
      totalRemaining is in units of 10,000 won; incomeRatio is a percentage. */
  datatype Affordability = Affordability(
    totalPremium: int,
    incomeRatio: real,
    totalRemaining: int,
    postRetirePremium: int,
    lifecycle: Lifecycle,
    risk: Risk)

  /** The premium totals and the risk classification. The current lifecycle
      premium is the total premium; the payments owed are reported rounded to
      units of 10,000 won; the first-match risk rules are those of Assess. */
  function Afford(p: Profile, cs: seq<Contract>, today: YearMonth): (f: Affordability)
    ensures f.totalPremium == TotalPremium(cs) && f.lifecycle.current == f.totalPremium
    ensures f.incomeRatio == IncomeRatio(f.totalPremium, p.income)
    ensures var t := Tally(cs, p, today);
              f.postRetirePremium == t.postRetire && f.lifecycle == Lifecycle(f.totalPremium, t.at60, t.at70, t.at80)
    ensures var owed := Tally(cs, p, today).remaining;
              10000 * (2 * f.totalRemaining - 1) <= 2 * owed < 10000 * (2 * f.totalRemaining + 1)
    ensures NonNegativePremiums(cs) ==>
              && 0 <= f.lifecycle.age80 <= f.lifecycle.age70 <= f.lifecycle.age60 <= f.totalPremium
              && 0 <= f.postRetirePremium <= f.totalPremium
              && 0 <= f.totalRemaining
    ensures f.risk.status == AtRisk <==> f.risk.reason != NoReason
    ensures f.risk.reason == IncomeBurden <==> p.income > 0 && f.totalPremium > 1500 * p.income
    ensures f.risk.reason.PostRetireBurden? <==>
              f.risk.reason != IncomeBurden && f.totalPremium > 0 && 10 * f.postRetirePremium > 3 * f.totalPremium
    ensures f.risk.reason.PostRetireBurden? ==>
              RoundedPercent(f.risk.reason.percent, f.postRetirePremium, f.totalPremium)
  {
    var total := TotalPremium(cs);
    var shares := Tally(cs, p, today);
    var owed := Numbers.RoundQuotient(shares.remaining, 10000);
    var risk := RiskFor(total, p.income, shares.postRetire);
    Affordability(
      total,
      IncomeRatio(total, p.income),
      owed,
      shares.postRetire,
      Lifecycle(total, shares.at60, shares.at70, shares.at80),
      risk)
  }

  /** Listing the same contracts in any other order changes none of the figures. */
  lemma AffordOrderIndependent(a: seq<Contract>, b: seq<Contract>, p: Profile, today: YearMonth)
    requires multiset(a) == multiset(b)
    ensures Afford(p, a, today) == Afford(p, b, today)
  {
    TallyPermutation(a, b, p, today);
  }

  /** The totals of two lists holding the same contracts agree. */
  lemma {:induction false} TallyPermutation(a: seq<Contract>, b: seq<Contract>, p: Profile, today: YearMonth)
    requires multiset(a) == multiset(b)
    ensures Tally(a, p, today) == Tally(b, p, today)
    ensures TotalPremium(a) == TotalPremium(b)
    decreases |a|
  {
    if |a| == 0 {
      assert |b| == |multiset(b)| == 0;
    } else {
      var front, x := a[..|a| - 1], a[|a| - 1];
      var j := TakeOut(a, b);
      var l, r := b[..j], b[j + 1..];
      TallyPermutation(front, l + r, p, today);
      TallyWithout(l, x, r, p, today);
      TotalPremiumWithout(l, x, r);
    }
  }

  /** The last contract of a occurs in b at some index j, and the rest of a
      holds the same contracts as b without index j. */
  lemma TakeOut(a: seq<Contract>, b: seq<Contract>) returns (j: int)
    requires |a| > 0 && multiset(a) == multiset(b)
    ensures 0 <= j < |b| && b[j] == a[|a| - 1]
    ensures b == b[..j] + [b[j]] + b[j + 1..]
    ensures multiset(a[..|a| - 1]) == multiset(b[..j] + b[j + 1..])
  {
    var front, x := a[..|a| - 1], a[|a| - 1];
    assert a == front + [x];
    assert x in multiset(b);
    j :| 0 <= j < |b| && b[j] == x;
    var l, r := b[..j], b[j + 1..];
    assert b == l + [x] + r;
    assert multiset(front) == multiset(a) - multiset{x};
    assert multiset(l + r) == multiset(b) - multiset{x};
  }

  lemma TallyWithout(l: seq<Contract>, x: Contract, r: seq<Contract>, p: Profile, today: YearMonth)
    ensures Tally(l + [x] + r, p, today) == Add(Tally(l + r, p, today), ContractShare(x, p, today))
  {
    TallyConcat(l + [x], r, p, today);
    TallyConcat(l, [x], p, today);
    TallyConcat(l, r, p, today);
    TallySingle(x, p, today);
    AddSwap(Tally(l, p, today), ContractShare(x, p, today), Tally(r, p, today));
  }

  lemma TallySingle(x: Contract, p: Profile, today: YearMonth)
    ensures Tally([x], p, today) == ContractShare(x, p, today)
  {
    assert [x][..0] == [];
    TallyStep([x], p, today);
    assert Tally([], p, today) == Nothing;
    NothingAdd(ContractShare(x, p, today));
  }

  lemma NothingAdd(s: Share)
    ensures Add(Nothing, s) == s
  {
  }

  /** The last contract's share is added to the figures of the others. */
  lemma TallyStep(cs: seq<Contract>, p: Profile, today: YearMonth)
    requires |cs| > 0
    ensures Tally(cs, p, today) == Add(Tally(cs[..|cs| - 1], p, today), ContractShare(cs[|cs| - 1], p, today))
  {
  }

  lemma AddSwap(x: Share, y: Share, z: Share)
    ensures Add(Add(x, y), z) == Add(Add(x, z), y)
  {
  }

  lemma TotalPremiumWithout(l: seq<Contract>, x: Contract, r: seq<Contract>)
    ensures TotalPremium(l + [x] + r) == TotalPremium(l + r) + x.premium
  {
    TotalPremiumConcat(l + [x], r);
    TotalPremiumConcat(l, [x]);
    TotalPremiumConcat(l, r);
    assert [x][..0] == [];
  }

  /** The contract loops as the analysis runs them: one pass summing the
      premiums, then one pass visiting every contract. */
  method AccumulateContracts(cs: seq<Contract>, p: Profile, today: YearMonth) returns (total: int, s: Share)
    ensures total == TotalPremium(cs)
    ensures s == Tally(cs, p, today)
  {
    total := SumPremiums(cs);
    s := VisitAll(cs, p, today);
  }

  /** The reduce over the contracts' premiums. */
  method SumPremiums(cs: seq<Contract>) returns (total: int)
    ensures total == TotalPremium(cs)
  {
    total := 0;
    var i := 0;
    while i < |cs|
      invariant 0 <= i <= |cs|
      invariant total == TotalPremium(cs[..i])
    {
      assert cs[..i + 1][..i] == cs[..i];
      total := total + cs[i].premium;
      i := i + 1;
    }
    assert cs[..|cs|] == cs;
  }

  /** The forEach over the contracts, visiting each one in order. */
  method VisitAll(cs: seq<Contract>, p: Profile, today: YearMonth) returns (s: Share)
    ensures s == Tally(cs, p, today)
  {
    s := Nothing;
    var i := 0;
    while i < |cs|
      invariant 0 <= i <= |cs|
      invariant s == Tally(cs[..i], p, today)
    {
      assert cs[..i + 1][..i] == cs[..i];
      s := VisitContract(cs[i], p, today, s);
      i := i + 1;
    }
    assert cs[..|cs|] == cs;
  }

  /** One visit of the contract loop: a contract without a pay-end date is
      skipped; otherwise each total it is still liable for grows. */
  method VisitContract(c: Contract, p: Profile, today: YearMonth, acc: Share) returns (next: Share)
    ensures next == Add(acc, ContractShare(c, p, today))
  {
    next := acc;
    if c.payEnd.None? {
      return;
    }
    var end := c.payEnd.value;
    var retireYear := today.year + (p.retireAge - p.age);
    var monthsLeft := (end.year - today.year) * 12 + (end.month0 - today.month0);
    if monthsLeft > 0 { next := next.(remaining := next.remaining + monthsLeft * c.premium); }
    if end.year > retireYear { next := next.(postRetire := next.postRetire + c.premium); }
    var y60 := today.year + (60 - p.age);
    var y70 := today.year + (70 - p.age);
    var y80 := today.year + (80 - p.age);
    if end.year >= y60 { next := next.(at60 := next.at60 + c.premium); }
    if end.year >= y70 { next := next.(at70 := next.at70 + c.premium); }
    if end.year >= y80 { next := next.(at80 := next.at80 + c.premium); }
  }
}
