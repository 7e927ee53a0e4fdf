/** The EmploymentRate tiers of src/enums.ts and the thresholds that its
    comments give for them.

    src/enums.ts declares the six tiers and documents, in a comment on each
    member, the share of employment it stands for; none of the modelled
    files computes a tier. Classify below is that documented rule written
    as a definition, over an exact percentage (a real number, not a
    floating-point one) and the two presence flags the first comment
    speaks of. */
module Enums {
  import Wrappers

  /** The EmploymentRate enum (src/enums.ts:1-8). */
  datatype EmploymentRate = NotApplicable | Full | High | Average | Low | None

  /** The string value of each member. */
  function Code(r: EmploymentRate): string
  {
    match r
    case NotApplicable => "6-01"
    case Full => "8-93"
    case High => "5-03"
    case Average => "1-51"
    case Low => "6-56"
    case None => "3-24"
  }

  /** The member whose string value is `s`, if any. */
  function FromCode(s: string): Wrappers.Option<EmploymentRate>
  {
    match s
    case "6-01" => Wrappers.Some(NotApplicable)
    case "8-93" => Wrappers.Some(Full)
    case "5-03" => Wrappers.Some(High)
    case "1-51" => Wrappers.Some(Average)
    case "6-56" => Wrappers.Some(Low)
    case "3-24" => Wrappers.Some(None)
    case _ => Wrappers.None
  }

  /** FromCode inverts Code. */
  lemma CodeRoundTrip(r: EmploymentRate)
    ensures FromCode(Code(r)) == Wrappers.Some(r)
  {
  }

  /** Every string that FromCode accepts is the code of the member it
      returns. */
  lemma FromCodeRoundTrip(s: string)
    requires FromCode(s).Some?
    ensures Code(FromCode(s).value) == s
  {
  }

  /** The six codes are pairwise distinct. */
  lemma CodesDistinct(r1: EmploymentRate, r2: EmploymentRate)
    requires Code(r1) == Code(r2)
    ensures r1 == r2
  {
    CodeRoundTrip(r1);
    CodeRoundTrip(r2);
  }

  /** The order of the five measured tiers, from None up to Full.
      NotApplicable measures nothing and has no place in it. */
  function Rank(r: EmploymentRate): (k: int)
    requires r != NotApplicable
    ensures 0 <= k <= 4
  {
    match r
    case None => 0
    case Low => 1
    case Average => 2
    case High => 3
    case Full => 4
  }

  /** Different measured tiers have different ranks. */
  lemma RankInjective(r1: EmploymentRate, r2: EmploymentRate)
    requires r1 != NotApplicable && r2 != NotApplicable
    requires Rank(r1) == Rank(r2)
    ensures r1 == r2
  {
  }

  /** The band of employment percentages each measured tier stands for
      (src/enums.ts:3-7): Full from 95 up, High from 65 below 95, Average
      from 35 below 65, Low from 5 below 35, None below 5. */
  predicate InBand(r: EmploymentRate, percent: real)
  {
    match r
    case NotApplicable => false
    case Full => 95.0 <= percent
    case High => 65.0 <= percent < 95.0
    case Average => 35.0 <= percent < 65.0
    case Low => 5.0 <= percent < 35.0
    case None => percent < 5.0
  }

  /** The tier of a district. `employment` and `housing` say whether
      either is present at all; `percent` is the share of employment.
      The flags and the percentage are independent inputs: nothing ties
      `percent` to `employment`, and a negative percentage falls in None. */
  function Classify(employment: bool, housing: bool, percent: real): (r: EmploymentRate)
    ensures r == NotApplicable <==> !employment && !housing
    ensures r != NotApplicable ==> InBand(r, percent)
  {
    if !employment && !housing then NotApplicable
    else if percent >= 95.0 then Full
    else if percent >= 65.0 then High
    else if percent >= 35.0 then Average
    else if percent >= 5.0 then Low
    else None
  }

  /** The bands do not overlap: a percentage lies in one band at most. */
  lemma BandsDisjoint(r1: EmploymentRate, r2: EmploymentRate, percent: real)
    requires InBand(r1, percent) && InBand(r2, percent)
    ensures r1 == r2
  {
  }

  /** The bands cover every percentage, and Classify picks the band the
      percentage lies in: for a present district, Classify returns `r`
      exactly when `percent` is in the band of `r`. */
  lemma ClassifyExact(employment: bool, housing: bool, percent: real, r: EmploymentRate)
    requires employment || housing
    ensures Classify(employment, housing, percent) == r <==> InBand(r, percent)
  {
    var c := Classify(employment, housing, percent);
    if InBand(r, percent) {
      BandsDisjoint(r, c, percent);
    }
  }

  /** A higher percentage never gives a lower tier. */
  lemma ClassifyMonotone(employment: bool, housing: bool, p: real, q: real)
    requires employment || housing
    requires p <= q
    ensures Rank(Classify(employment, housing, p)) <= Rank(Classify(employment, housing, q))
  {
  }
}
