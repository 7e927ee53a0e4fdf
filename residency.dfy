/** getResidencySmall (src/actions/residency.ts:5-39): the table of
    outcomes for building small homes, one row per face of a die, chosen
    by the district's employment rate. */
module Residency {
  import Enums
  import opened Amenities
  import opened Districts
  import opened RollTables

  /** The three outcomes (src/actions/residency.ts:6-25): small houses
      with LOW, MEDIUM or HIGH usage. */
  const LowResult := Outcome(CreatedAmenity(Housing, 1, 1, Low),
    "Build small houses, no one moves in",
    "People are too uncertain about the future, no one moves in")
  const MediumResult := Outcome(CreatedAmenity(Housing, 1, 1, Medium),
    "Build small houses, some people move in",
    "A ho hum amount of people move in")
  const HighResult := Outcome(CreatedAmenity(Housing, 1, 1, High),
    "Build small houses, everyone moves in",
    "This sounds like a dream location, everyone moves in!")

  /** The outcome for each usage level: small houses with that usage. */
  function ResidencyOutcome(u: Usage): (o: Outcome)
    ensures o.amenity == CreatedAmenity(Housing, 1, 1, u)
  {
    match u
    case Low => LowResult
    case Medium => MediumResult
    case High => HighResult
  }

  /** How many faces give LOW usage at each employment rate: one at High,
      three at Low and two at every other rate. Two faces give MEDIUM at
      every rate. */
  function LowFaces(rate: Enums.EmploymentRate): int
  {
    if rate == Enums.High then 1 else if rate == Enums.Low then 3 else 2
  }

  /** The builder. Its table is a staircase: LowFaces(rate) faces of LOW,
      then two of MEDIUM, then HIGH. */
  function GetResidencySmall(state: DistrictState): (a: CreateAction)
    ensures a.name == "Create Small Homes"
    ensures a.description == "Create some small homes, people may or may not move in"
    ensures a.cardRequirements == []
    ensures OnePerFace(a.results)
    ensures StaircaseTable(a.results, LowFaces(state.employmentRate), 2, ResidencyOutcome)
  {
    var rate := state.employmentRate;
    CreateAction(
      "Create Small Homes",
      "Create some small homes, people may or may not move in",
      [],
      [WithRoll(1, LowResult),
       WithRoll(2, if rate == Enums.High then MediumResult else LowResult),
       WithRoll(3, if rate == Enums.Low then LowResult else MediumResult),
       WithRoll(4, if rate == Enums.High then HighResult else MediumResult),
       WithRoll(5, if rate == Enums.Low then MediumResult else HighResult),
       WithRoll(6, HighResult)])
  }

  /** The usage on face `i + 1`. */
  function UsageOn(state: DistrictState, i: int): Usage
    requires 0 <= i < 6
  {
    GetResidencySmall(state).results[i].amenity.usage
  }

  /** Every row builds small houses (size 1, density 1); only usage and
      text vary. */
  lemma ResidencyBuildsSmallHouses(state: DistrictState, i: int)
    requires 0 <= i < 6
    ensures GetResidencySmall(state).results[i].amenity.code == Housing
    ensures GetResidencySmall(state).results[i].amenity.size == 1
    ensures GetResidencySmall(state).results[i].amenity.density == 1
  {
  }

  /** Face 1 is always LOW and face 6 always HIGH. */
  lemma ResidencyRollEnds(state: DistrictState)
    ensures UsageOn(state, 0) == Low
    ensures UsageOn(state, 5) == High
  {
  }

  /** At every rate, usage never goes down as the roll goes up. */
  lemma ResidencyNonDecreasing(state: DistrictState)
    ensures NonDecreasing(GetResidencySmall(state).results)
  {
    var rs := GetResidencySmall(state).results;
    var lows := LowFaces(state.employmentRate);
    forall i, j | 0 <= i <= j < |rs|
      ensures UsageRank(rs[i].amenity.usage) <= UsageRank(rs[j].amenity.usage)
    {
      StaircaseMonotone(lows, 2, i + 1, j + 1);
    }
  }

  /** On every face, High gives at least the usage of any rate, and Low at
      most. */
  lemma ResidencyDominance(state: DistrictState, i: int)
    requires 0 <= i < 6
    ensures UsageRank(UsageOn(DistrictState(Enums.Low), i)) <= UsageRank(UsageOn(state, i))
    ensures UsageRank(UsageOn(state, i)) <= UsageRank(UsageOn(DistrictState(Enums.High), i))
  {
    var lows := LowFaces(state.employmentRate);
    StaircaseDominance(lows, 2, 3, 2, i + 1);
    StaircaseDominance(1, 2, lows, 2, i + 1);
  }

  /** Only High and Low change the table: Full, Average, None and
      NotApplicable all give the same table, and Full is not treated like
      High. */
  lemma ResidencyOnlyHighAndLowMatter(rate: Enums.EmploymentRate)
    ensures rate != Enums.High && rate != Enums.Low ==>
      GetResidencySmall(DistrictState(rate)) == GetResidencySmall(DistrictState(Enums.NotApplicable))
    ensures GetResidencySmall(DistrictState(Enums.Full)) != GetResidencySmall(DistrictState(Enums.High))
  {
    assert UsageOn(DistrictState(Enums.Full), 1) != UsageOn(DistrictState(Enums.High), 1);
  }

  /** How many faces give each usage: 1 LOW, 2 MEDIUM and 3 HIGH at High;
      3, 2 and 1 at Low; 2, 2 and 2 at every other rate. */
  lemma ResidencyUsageCounts(state: DistrictState)
    ensures var us := Usages(GetResidencySmall(state).results);
      (state.employmentRate == Enums.High ==> Count(us, Low) == 1 && Count(us, Medium) == 2 && Count(us, High) == 3) &&
      (state.employmentRate == Enums.Low ==> Count(us, Low) == 3 && Count(us, Medium) == 2 && Count(us, High) == 1) &&
      (state.employmentRate != Enums.High && state.employmentRate != Enums.Low ==>
         Count(us, Low) == 2 && Count(us, Medium) == 2 && Count(us, High) == 2)
  {
    StaircaseCounts(GetResidencySmall(state).results, LowFaces(state.employmentRate), 2, ResidencyOutcome);
  }
}
