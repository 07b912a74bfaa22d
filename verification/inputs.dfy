/** The inputs of one analysis run: the customer profile, the list of insurance
    contracts, the ancillary coverage flags and the evaluation date. */
module Inputs {

  /** An optional value: a contract's pay-end date may be left empty. */
  datatype Option<+T> = None | Some(value: T)

  /** A '유'/'무' (present/absent) selection of the input form. */
  datatype Presence = Yes | No

  /** A calendar month: the year and the 0-based month index (January is 0). */
  datatype YearMonth = YearMonth(year: int, month0: int)

  /** The customer profile. Income is in units of 10,000 won. */
  datatype Profile = Profile(
    name: string,
    age: int,
    income: int,
    retireAge: int,
    historyCancer: Presence,
    historyBrainHeart: Presence,
    historyDementia: Presence,
    isDriver: Presence)

  /** One insurance contract; the premium is the monthly premium in won.
      Only the premium and the pay-end date take part in the analysis. */
  datatype Contract = Contract(
    id: int,
    company: string,
    name: string,
    kind: string,
    premium: int,
    payEnd: Option<YearMonth>,
    maturity: Option<YearMonth>)

  /** The generation of the medical-expense indemnity ('실손') policy, or none ('없음'). */
  datatype SilsonTier = NoSilson | Gen1 | Gen2 | Gen3 | Gen4

  /** The ancillary coverage flags. */
  datatype Checks = Checks(silson: SilsonTier, driver: Presence, fire: Presence, liability: Presence)
}
