/** The twenty fixed coverage categories, their labels, their standard amounts
    and the disease domain each one belongs to. */
module Coverage {

  /** The coverage categories, in the declaration order of the standards table. */
  datatype CoverageKey =
    | DeathGeneral | DeathAccident | DeathDisease | Disability50
    | CancerDiagnosis | MajorCancerDiagnosis | MinorCancerDiagnosis | TargetedCancerTherapy
    | CerebrovascularDiagnosis | StrokeDiagnosis | IschemicHeartDiagnosis | AcuteMyocardialInfarction
    | DementiaDiagnosis
    | DiseaseSurgery | AccidentSurgery | DiseaseSurgeryClass1To5 | AccidentSurgeryClass1To5
    | DiseaseHospitalization | AccidentHospitalization | Caregiver

  /** The keys in the order the table declares them; the analysis lists its
      results in this order. */
  function CoverageKeys(): (ks: seq<CoverageKey>)
    ensures |ks| == 20
    ensures forall k :: k in ks
    ensures forall i, j :: 0 <= i < j < |ks| ==> ks[i] != ks[j]
    ensures forall k :: Position(k) < |ks| && ks[Position(k)] == k
  {
    var ks := [
      DeathGeneral, DeathAccident, DeathDisease, Disability50,
      CancerDiagnosis, MajorCancerDiagnosis, MinorCancerDiagnosis, TargetedCancerTherapy,
      CerebrovascularDiagnosis, StrokeDiagnosis, IschemicHeartDiagnosis, AcuteMyocardialInfarction,
      DementiaDiagnosis,
      DiseaseSurgery, AccidentSurgery, DiseaseSurgeryClass1To5, AccidentSurgeryClass1To5,
      DiseaseHospitalization, AccidentHospitalization, Caregiver ];
    assert forall k :: Position(k) < |ks| && ks[Position(k)] == k && k in ks;
    ks
  }

  /** The index of a key in the declaration order. */
  function Position(k: CoverageKey): nat
  {
    match k
    case DeathGeneral => 0
    case DeathAccident => 1
    case DeathDisease => 2
    case Disability50 => 3
    case CancerDiagnosis => 4
    case MajorCancerDiagnosis => 5
    case MinorCancerDiagnosis => 6
    case TargetedCancerTherapy => 7
    case CerebrovascularDiagnosis => 8
    case StrokeDiagnosis => 9
    case IschemicHeartDiagnosis => 10
    case AcuteMyocardialInfarction => 11
    case DementiaDiagnosis => 12
    case DiseaseSurgery => 13
    case AccidentSurgery => 14
    case DiseaseSurgeryClass1To5 => 15
    case AccidentSurgeryClass1To5 => 16
    case DiseaseHospitalization => 17
    case AccidentHospitalization => 18
    case Caregiver => 19
  }

  /** The label the category is known by, which is also its key in the tables. */
  function Label(k: CoverageKey): string
  {
    match k
    case DeathGeneral => "사망(일반)"
    case DeathAccident => "사망(재해)"
    case DeathDisease => "사망(질병)"
    case Disability50 => "후유장해(50%~)"
    case CancerDiagnosis => "암 진단비"
    case MajorCancerDiagnosis => "고액암 진단비"
    case MinorCancerDiagnosis => "소액암 진단비"
    case TargetedCancerTherapy => "표적항암허가치료비"
    case CerebrovascularDiagnosis => "뇌혈관 진단비"
    case StrokeDiagnosis => "뇌졸중 진단비"
    case IschemicHeartDiagnosis => "허혈성심장 진단비"
    case AcuteMyocardialInfarction => "급성심근경색"
    case DementiaDiagnosis => "치매 진단비"
    case DiseaseSurgery => "질병 수술비"
    case AccidentSurgery => "재해 수술비"
    case DiseaseSurgeryClass1To5 => "질병 1-5종 수술"
    case AccidentSurgeryClass1To5 => "재해 1-5종 수술"
    case DiseaseHospitalization => "질병 입원비"
    case AccidentHospitalization => "재해 입원비"
    case Caregiver => "간병인 사용"
  }

  /** The disease domain a category belongs to, which decides whether a family
      history raises its recommended amount. */
  datatype Domain = Cancer | BrainHeart | Dementia | General

  /** The domains occupy consecutive blocks of the table: the four cancer
      categories, then the four brain and heart ones, then dementia. */
  function DomainOf(k: CoverageKey): (d: Domain)
    ensures d == Cancer <==> 4 <= Position(k) < 8
    ensures d == BrainHeart <==> 8 <= Position(k) < 12
    ensures d == Dementia <==> Position(k) == 12
    ensures d == General <==> Position(k) < 4 || 13 <= Position(k)
  {
    match k
    case CancerDiagnosis | MajorCancerDiagnosis | MinorCancerDiagnosis | TargetedCancerTherapy => Cancer
    case CerebrovascularDiagnosis | StrokeDiagnosis | IschemicHeartDiagnosis | AcuteMyocardialInfarction => BrainHeart
    case DementiaDiagnosis => Dementia
    case _ => General
  }

  /** `sub` occurs in `s` starting at index i. */
  predicate OccursAt(s: string, sub: string, i: int)
  {
    0 <= i <= |s| - |sub| && s[i..i + |sub|] == sub
  }

  /** String.prototype.includes. */
  predicate Includes(s: string, sub: string)
  {
    exists i | 0 <= i <= |s| - |sub| :: OccursAt(s, sub, i)
  }

  /** The label test by which the analysis recognises a domain's categories. */
  predicate LabelMentions(text: string, d: Domain)
  {
    match d
    case Cancer => Includes(text, "암")
    case BrainHeart => Includes(text, "뇌") || Includes(text, "심장") || Includes(text, "급성심근")
    case Dementia => Includes(text, "치매")
    case General => false
  }

  /** The explicit domain table agrees with the substring tests on the labels:
      a category's label passes a domain's test exactly when the table puts it
      in that domain. */
  lemma DomainMatchesLabel(k: CoverageKey, d: Domain)
    requires d != General
    ensures LabelMentions(Label(k), d) <==> DomainOf(k) == d
  {
    if DomainOf(k) == Cancer {
      CancerLabels(k);
    } else if DomainOf(k) == BrainHeart {
      BrainHeartLabels(k);
    } else if k in {DementiaDiagnosis, DeathGeneral, DeathAccident, DeathDisease, Disability50} {
      DeathAndDementiaLabels(k);
    } else {
      TreatmentLabels(k);
    }
  }

  /** The four cancer categories' labels. */
  lemma CancerLabels(k: CoverageKey)
    requires DomainOf(k) == Cancer
    ensures forall d :: d != General ==> (LabelMentions(Label(k), d) <==> DomainOf(k) == d)
  {
    match k
    case CancerDiagnosis => CancerTermOnly("암 진단비", 0);
    case MajorCancerDiagnosis => CancerTermOnly("고액암 진단비", 2);
    case MinorCancerDiagnosis => CancerTermOnly("소액암 진단비", 2);
    case TargetedCancerTherapy => NoDementiaTermInTherapy(); CancerTermOnly("표적항암허가치료비", 3);
  }

  /** The four cerebro/cardiac categories' labels. */
  lemma BrainHeartLabels(k: CoverageKey)
    requires DomainOf(k) == BrainHeart
    ensures forall d :: d != General ==> (LabelMentions(Label(k), d) <==> DomainOf(k) == d)
  {
    match k
    case CerebrovascularDiagnosis => BrainHeartTermOnly("뇌혈관 진단비", "뇌", 0);
    case StrokeDiagnosis => BrainHeartTermOnly("뇌졸중 진단비", "뇌", 0);
    case IschemicHeartDiagnosis => BrainHeartTermOnly("허혈성심장 진단비", "심장", 3);
    case AcuteMyocardialInfarction => BrainHeartTermOnly("급성심근경색", "급성심근", 0);
  }

  /** The death, disability and dementia labels. */
  lemma DeathAndDementiaLabels(k: CoverageKey)
    requires k in {DementiaDiagnosis, DeathGeneral, DeathAccident, DeathDisease, Disability50}
    ensures forall d :: d != General ==> (LabelMentions(Label(k), d) <==> DomainOf(k) == d)
  {
    match k
    case DeathGeneral => NoTerm("사망(일반)");
    case DeathAccident => NoTerm("사망(재해)");
    case DeathDisease => NoTerm("사망(질병)");
    case Disability50 => NoTerm("후유장해(50%~)");
    case DementiaDiagnosis => DementiaTermOnly("치매 진단비");
  }

  /** The surgery, hospitalisation and caregiver labels. */
  lemma TreatmentLabels(k: CoverageKey)
    requires DomainOf(k) == General && k !in {DeathGeneral, DeathAccident, DeathDisease, Disability50}
    ensures forall d :: d != General ==> (LabelMentions(Label(k), d) <==> DomainOf(k) == d)
  {
    match k
    case DiseaseSurgery => NoTerm("질병 수술비");
    case AccidentSurgery => NoTerm("재해 수술비");
    case DiseaseSurgeryClass1To5 => NoTerm("질병 1-5종 수술");
    case AccidentSurgeryClass1To5 => NoTerm("재해 1-5종 수술");
    case DiseaseHospitalization => NoTerm("질병 입원비");
    case AccidentHospitalization => NoTerm("재해 입원비");
    case Caregiver => NoTerm("간병인 사용");
  }

  /** A term whose first character does not occur in a text is not included in it. */
  lemma FirstCharAbsent(s: string, sub: string)
    requires |sub| > 0 && sub[0] !in s
    ensures !Includes(s, sub)
  {
  }

  /** A text that contains '암' at index i and starts no other domain term
      passes the cancer test only. */
  lemma CancerTermOnly(s: string, i: int)
    requires OccursAt(s, "암", i)
    requires '뇌' !in s && '심' !in s && '급' !in s
    requires '치' !in s || !Includes(s, "치매")
    ensures LabelMentions(s, Cancer)
    ensures !LabelMentions(s, BrainHeart) && !LabelMentions(s, Dementia)
  {
    FirstCharAbsent(s, "뇌");
    FirstCharAbsent(s, "심장");
    FirstCharAbsent(s, "급성심근");
    if '치' !in s { FirstCharAbsent(s, "치매"); }
  }

  /** A text that contains the cerebro/cardiac term t at index i and starts no
      other domain term passes the cerebro/cardiac test only. */
  lemma BrainHeartTermOnly(s: string, t: string, i: int)
    requires t in ["뇌", "심장", "급성심근"] && OccursAt(s, t, i)
    requires '암' !in s && '치' !in s
    ensures LabelMentions(s, BrainHeart)
    ensures !LabelMentions(s, Cancer) && !LabelMentions(s, Dementia)
  {
    FirstCharAbsent(s, "암");
    FirstCharAbsent(s, "치매");
  }

  /** A text that starts with '치매' and starts no other domain term passes the
      dementia test only. */
  lemma DementiaTermOnly(s: string)
    requires OccursAt(s, "치매", 0)
    requires '암' !in s && '뇌' !in s && '심' !in s && '급' !in s
    ensures LabelMentions(s, Dementia)
    ensures !LabelMentions(s, Cancer) && !LabelMentions(s, BrainHeart)
  {
    FirstCharAbsent(s, "암");
    FirstCharAbsent(s, "뇌");
    FirstCharAbsent(s, "심장");
    FirstCharAbsent(s, "급성심근");
  }

  /** A text that starts no domain term passes no domain test. */
  lemma NoTerm(s: string)
    requires '암' !in s && '뇌' !in s && '심' !in s && '급' !in s && '치' !in s
    ensures !LabelMentions(s, Cancer) && !LabelMentions(s, BrainHeart) && !LabelMentions(s, Dementia)
  {
    FirstCharAbsent(s, "암");
    FirstCharAbsent(s, "뇌");
    FirstCharAbsent(s, "심장");
    FirstCharAbsent(s, "급성심근");
    FirstCharAbsent(s, "치매");
  }

  /** '치료' is not '치매': the targeted-therapy label does not mention dementia. */
  lemma NoDementiaTermInTherapy()
    ensures !Includes("표적항암허가치료비", "치매")
  {
    var s := "표적항암허가치료비";
    forall i | 0 <= i <= |s| - 2
      ensures !OccursAt(s, "치매", i)
    {
      if i == 6 {
        assert s[i + 1] == '료';
      } else {
        assert s[i] != '치';
      }
    }
  }

  /** One row of the standards table: the minimum, the recommended and the
      user-set amount (0 when unset), in units of 10,000 won. */
  datatype StandardEntry = StandardEntry(min: int, rec: int, user: int)

  /** Every category has an entry. */
  predicate Covers<V>(m: map<CoverageKey, V>)
  {
    forall k :: k in m
  }

  /** The built-in standards, with no user amount set. */
  function InitialStandards(): (m: map<CoverageKey, StandardEntry>)
    ensures Covers(m)
    ensures forall k :: m[k].user == 0 && 0 < m[k].min < m[k].rec
  {
    map k | k in CoverageKeys() :: InitialEntry(k)
  }

  function InitialEntry(k: CoverageKey): (e: StandardEntry)
    ensures e.user == 0 && 0 < e.min < e.rec
  {
    match k
    case DeathGeneral => StandardEntry(5000, 10000, 0)
    case DeathAccident => StandardEntry(10000, 20000, 0)
    case DeathDisease => StandardEntry(3000, 5000, 0)
    case Disability50 => StandardEntry(5000, 10000, 0)
    case CancerDiagnosis => StandardEntry(3000, 5000, 0)
    case MajorCancerDiagnosis => StandardEntry(3000, 5000, 0)
    case MinorCancerDiagnosis => StandardEntry(1000, 2000, 0)
    case TargetedCancerTherapy => StandardEntry(3000, 5000, 0)
    case CerebrovascularDiagnosis => StandardEntry(2000, 3000, 0)
    case StrokeDiagnosis => StandardEntry(2000, 3000, 0)
    case IschemicHeartDiagnosis => StandardEntry(2000, 3000, 0)
    case AcuteMyocardialInfarction => StandardEntry(2000, 3000, 0)
    case DementiaDiagnosis => StandardEntry(1000, 3000, 0)
    case DiseaseSurgery => StandardEntry(30, 50, 0)
    case AccidentSurgery => StandardEntry(50, 100, 0)
    case DiseaseSurgeryClass1To5 => StandardEntry(100, 300, 0)
    case AccidentSurgeryClass1To5 => StandardEntry(100, 300, 0)
    case DiseaseHospitalization => StandardEntry(3, 5, 0)
    case AccidentHospitalization => StandardEntry(3, 5, 0)
    case Caregiver => StandardEntry(10, 15, 0)
  }
}
