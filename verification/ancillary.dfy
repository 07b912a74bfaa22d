/** The four ancillary checks, always reported in the same order. */
module Ancillary {
  import opened Inputs

  /** 실손의료비, 운전자(형사합의), 화재손해(주택), 일상배상책임. */
  datatype CheckLabel = MedicalIndemnity | DriverLiability | FireDamage | DailyLiability

  /** 부족 (missing), 양호 (in place), 해당없음 (not applicable). */
  datatype CheckStatus = Lacking | Good | NotApplicable

  datatype CheckItem = CheckItem(name: CheckLabel, status: CheckStatus)

  function LabelText(l: CheckLabel): string
  {
    match l
    case MedicalIndemnity => "실손의료비"
    case DriverLiability => "운전자(형사합의)"
    case FireDamage => "화재손해(주택)"
    case DailyLiability => "일상배상책임"
  }

  /** The displayed labels tell the checks apart. */
  lemma LabelTextInjective(l1: CheckLabel, l2: CheckLabel)
    ensures LabelText(l1) == LabelText(l2) <==> l1 == l2
  {
    if l1 != l2 {
      assert LabelText(l1)[0] != LabelText(l2)[0];
    }
  }

  /** A '유'/'무' coverage flag: missing when '무'. */
  function FlagStatus(x: Presence): CheckStatus
  {
    if x == No then Lacking else Good
  }

  /** The checks in their fixed order. The medical-expense check fails only
      without any indemnity policy; the driver check does not apply to a
      non-driver, whatever the driver flag says. */
  function AncillaryChecks(c: Checks, p: Profile): (r: seq<CheckItem>)
    ensures |r| == 4
    ensures r[0].name == MedicalIndemnity && r[1].name == DriverLiability
    ensures r[2].name == FireDamage && r[3].name == DailyLiability
    ensures r[0].status == Lacking <==> c.silson == NoSilson
    ensures r[1].status == NotApplicable <==> p.isDriver != Yes
    ensures p.isDriver == Yes ==> (r[1].status == Lacking <==> c.driver == No)
    ensures r[2].status == Lacking <==> c.fire == No
    ensures r[3].status == Lacking <==> c.liability == No
    ensures forall i :: 0 <= i < 4 && i != 1 ==> r[i].status != NotApplicable
  {
    [ CheckItem(MedicalIndemnity, if c.silson == NoSilson then Lacking else Good),
      CheckItem(DriverLiability, if p.isDriver == Yes then FlagStatus(c.driver) else NotApplicable),
      CheckItem(FireDamage, FlagStatus(c.fire)),
      CheckItem(DailyLiability, FlagStatus(c.liability)) ]
  }

  /** For a non-driver the driver flag is ignored. */
  lemma DriverFlagIgnoredForNonDrivers(c: Checks, p: Profile, d: Presence)
    requires p.isDriver != Yes
    ensures AncillaryChecks(c, p) == AncillaryChecks(c.(driver := d), p)
  {
  }
}
