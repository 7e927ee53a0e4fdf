/** getCreateHealthSmall (src/actions/health.ts:5-39): the table of
    outcomes for building a small clinic, one row per face of a die,
    chosen by the district's employment rate. It has the shape of the
    residency table with the roles of High and Low swapped. */
module Health {
  import Enums
  import opened Amenities
  import opened Districts
  import opened RollTables
  import Residency

  /** The three outcomes (src/actions/health.ts:6-25): a small clinic with
      LOW, MEDIUM or HIGH usage. */
  const LowResult := Outcome(CreatedAmenity(Medical, 1, 1, Low),
    "Build small clinic, no one moves in",
    "You build a clinic but no one works here")
  const MediumResult := Outcome(CreatedAmenity(Medical, 1, 1, Medium),
    "Build small clinic, some people move in",
    "You build a clinic and a few people work there")
  const HighResult := Outcome(CreatedAmenity(Medical, 1, 1, High),
    "Build small clinic, everyone moves in",
    "You build a clinic and everyone works there")

  /** The outcome for each usage level: a small clinic with that usage. */
  function HealthOutcome(u: Usage): (o: Outcome)
    ensures o.amenity == CreatedAmenity(Medical, 1, 1, u)
  {
    match u
    case Low => LowResult
    case Medium => MediumResult
    case High => HighResult
  }

  /** How many faces give LOW usage at each employment rate: one at Low,
      three at High and two at every other rate. Two faces give MEDIUM at
      every rate. */
  function LowFaces(rate: Enums.EmploymentRate): int
  {
    if rate == Enums.Low then 1 else if rate == Enums.High then 3 else 2
  }

  /** The builder. Its table is a staircase: LowFaces(rate) faces of LOW,
      then two of MEDIUM, then HIGH. */
  function GetCreateHealthSmall(state: DistrictState): (a: CreateAction)
    ensures a.name == "Create Small Clinic"
    ensures a.description == "Create a small clinic, people may or may not "
    ensures a.cardRequirements == []
    ensures OnePerFace(a.results)
    ensures StaircaseTable(a.results, LowFaces(state.employmentRate), 2, HealthOutcome)
  {
    var rate := state.employmentRate;
    CreateAction(
      "Create Small Clinic",
      "Create a small clinic, people may or may not ",
      [],
      [WithRoll(1, LowResult),
       WithRoll(2, if rate == Enums.Low then MediumResult else LowResult),
       WithRoll(3, if rate == Enums.High then LowResult else MediumResult),
       WithRoll(4, if rate == Enums.Low then HighResult else MediumResult),
       WithRoll(5, if rate == Enums.High then MediumResult else HighResult),
       WithRoll(6, HighResult)])
  }

  /** The usage on face `i + 1`. */
  function UsageOn(state: DistrictState, i: int): Usage
    requires 0 <= i < 6
  {
    GetCreateHealthSmall(state).results[i].amenity.usage
  }

  /** Every row builds a small clinic (size 1, density 1). */
  lemma HealthBuildsSmallClinics(state: DistrictState, i: int)
    requires 0 <= i < 6
    ensures GetCreateHealthSmall(state).results[i].amenity.code == Medical
    ensures GetCreateHealthSmall(state).results[i].amenity.size == 1
    ensures GetCreateHealthSmall(state).results[i].amenity.density == 1
  {
  }

  /** Face 1 is always LOW and face 6 always HIGH. */
  lemma HealthRollEnds(state: DistrictState)
    ensures UsageOn(state, 0) == Low
    ensures UsageOn(state, 5) == High
  {
  }

  /** At every rate, usage never goes down as the roll goes up. */
  lemma HealthNonDecreasing(state: DistrictState)
    ensures NonDecreasing(GetCreateHealthSmall(state).results)
  {
    var rs := GetCreateHealthSmall(state).results;
    var lows := LowFaces(state.employmentRate);
    forall i, j | 0 <= i <= j < |rs|
      ensures UsageRank(rs[i].amenity.usage) <= UsageRank(rs[j].amenity.usage)
    {
      StaircaseMonotone(lows, 2, i + 1, j + 1);
    }
  }

  /** Dominance is the reverse of the residency table's: on every face,
      Low gives at least the usage of any rate, and High at most. */
  lemma HealthDominance(state: DistrictState, i: int)
    requires 0 <= i < 6
    ensures UsageRank(UsageOn(DistrictState(Enums.High), i)) <= UsageRank(UsageOn(state, i))
    ensures UsageRank(UsageOn(state, i)) <= UsageRank(UsageOn(DistrictState(Enums.Low), i))
  {
    var lows := LowFaces(state.employmentRate);
    StaircaseDominance(lows, 2, 3, 2, i + 1);
    StaircaseDominance(1, 2, lows, 2, i + 1);
  }

  /** Only High and Low change the table. */
  lemma HealthOnlyHighAndLowMatter(rate: Enums.EmploymentRate)
    ensures rate != Enums.High && rate != Enums.Low ==>
      GetCreateHealthSmall(DistrictState(rate)) == GetCreateHealthSmall(DistrictState(Enums.NotApplicable))
  {
  }

  /** How many faces give each usage: 1 LOW, 2 MEDIUM and 3 HIGH at Low;
      3, 2 and 1 at High; 2, 2 and 2 at every other rate. */
  lemma HealthUsageCounts(state: DistrictState)
    ensures var us := Usages(GetCreateHealthSmall(state).results);
      (state.employmentRate == Enums.Low ==> Count(us, Low) == 1 && Count(us, Medium) == 2 && Count(us, High) == 3) &&
      (state.employmentRate == Enums.High ==> Count(us, Low) == 3 && Count(us, Medium) == 2 && Count(us, High) == 1) &&
      (state.employmentRate != Enums.High && state.employmentRate != Enums.Low ==>
         Count(us, Low) == 2 && Count(us, Medium) == 2 && Count(us, High) == 2)
  {
    StaircaseCounts(GetCreateHealthSmall(state).results, LowFaces(state.employmentRate), 2, HealthOutcome);
  }

  /** High and Low swapped; every other rate is left alone. */
  function Swapped(rate: Enums.EmploymentRate): Enums.EmploymentRate
  {
    if rate == Enums.High then Enums.Low else if rate == Enums.Low then Enums.High else rate
  }

  /** The mirror property: on every face, the clinic's usage at a rate is
      the housing usage at the swapped rate. So the clinic table at Low is
      the housing table at High and the reverse, and the two agree at
      every other rate. */
  lemma HealthMirrorsResidency(state: DistrictState, i: int)
    requires 0 <= i < 6
    ensures UsageOn(state, i) == Residency.UsageOn(DistrictState(Swapped(state.employmentRate)), i)
  {
    assert LowFaces(state.employmentRate) == Residency.LowFaces(Swapped(state.employmentRate));
  }

  /** The other direction of the mirror: the housing usage at a rate is
      the clinic's usage at the swapped rate. */
  lemma ResidencyMirrorsHealth(state: DistrictState, i: int)
    requires 0 <= i < 6
    ensures Residency.UsageOn(state, i) == UsageOn(DistrictState(Swapped(state.employmentRate)), i)
  {
    var swapped := DistrictState(Swapped(state.employmentRate));
    assert Swapped(swapped.employmentRate) == state.employmentRate;
    HealthMirrorsResidency(swapped, i);
  }
}
