/** The action catalog of src/actions.ts: the Result and Action record
    shapes and the constant Actions object, keyed by action id.

    The catalog names attributes through the AttributeCode enum of
    src/attributes.ts; the six it uses (Industry, Food, Animals, Thrill,
    Residency, Office) are all members of the Attribute type, which is
    the larger tag set of the citizen deck. */
module ActionCatalog {
  import opened Wrappers
  import opened Attributes
  import opened Amenities
  import opened DistrictAttributes
  import opened Districts
  import Enums

  /** A Result (src/actions.ts:7-14): the amenity added when a total lies
      in `from..to`, both ends included. The file does not say what the
      total is; the catalog's ranges cover 2..12, the totals of two dice. The
      catalog's amenities also carry an `attributes` list, which the
      Amenity record does not declare; it is kept here beside the amenity. */
  datatype Result = Result(
    amenity: Amenity,
    amenityAttributes: seq<DistrictAttribute>,
    from: int,
    to: int,
    description: string,
    resultDescription: string)

  /** One entry of `cardRequirements.attributes`: at least `count` cards
      with the tag `attributeId`. */
  datatype AttributeRequirement = AttributeRequirement(attributeId: Attribute, count: int)

  /** `cardRequirements`; the employment-rate gate is optional. */
  datatype CardRequirements = CardRequirements(
    attributes: seq<AttributeRequirement>,
    employmentRate: Option<Enums.EmploymentRate>)

  /** An Action (src/actions.ts:16-22). */
  datatype Action = Action(
    name: string,
    description: string,
    cardRequirements: CardRequirements,
    spaceRequired: int,
    results: seq<Result>)

  /** The small house that both Small Homes results add. */
  const SmallHouse := Amenity(Housing, 1, 1, None, None)

  /** The Actions object (src/actions.ts:24-98). */
  const Actions: map<string, Action> := map[
    "0-39" := Action("Build Industrial Garage", "",
      CardRequirements([AttributeRequirement(Industry, 2)], None), 2, []),
    "4-48" := Action("Build Grocery Cart", "",
      CardRequirements([AttributeRequirement(Food, 2)], None), 2, []),
    "5-99" := Action("Build Petting Zoo", "",
      CardRequirements([AttributeRequirement(Animals, 2)], None), 2, []),
    "0-18" := Action("Build Whirly Goober", "",
      CardRequirements([AttributeRequirement(Thrill, 2)], None), 2, []),
    "4-17" := Action("Build Small Homes", "Wouldn't it be great if someone moved in?",
      CardRequirements([AttributeRequirement(Residency, 2)], Some(Enums.NotApplicable)), 2,
      [Result(SmallHouse, [Abandoned], 2, 2,
         "Build houses, but no one moves in",
         "People are too uncertain about the future, no one moves in"),
       Result(SmallHouse, [Occupied], 3, 12,
         "Build houses, and people move in",
         "People are excited about the future and move in")]),
    "0-88" := Action("Build Medium Homes", "",
      CardRequirements([AttributeRequirement(Residency, 3)], None), 3, []),
    "8-60" := Action("Build Small Offices", "",
      CardRequirements([AttributeRequirement(Office, 2)], None), 2, []),
    "5-95" := Action("Build Medium Offices", "",
      CardRequirements([AttributeRequirement(Office, 3)], None), 3, [])
  ]

  const SmallHomes := "4-17"
  const MediumHomes := "0-88"
  const SmallOffices := "8-60"
  const MediumOffices := "5-95"

  /** The catalog's ids, in the order the object lists them. */
  const ActionIds := ["0-39", "4-48", "5-99", "0-18", "4-17", "0-88", "8-60", "5-95"]

  /** The catalog holds exactly the eight listed ids, and they are
      pairwise different, so no entry of the object overwrites another. */
  lemma CatalogIds()
    ensures Actions.Keys == set id | id in ActionIds
    ensures forall i, j :: 0 <= i < j < |ActionIds| ==> ActionIds[i] != ActionIds[j]
  {
  }

  /** Every action needs exactly one attribute, two or three times over. */
  lemma OneRequirementEach(id: string)
    requires id in Actions
    ensures |Actions[id].cardRequirements.attributes| == 1
    ensures Actions[id].cardRequirements.attributes[0].count in {2, 3}
  {
  }

  /** Every action takes as many units of space as it needs cards. */
  lemma SpaceEqualsCount(id: string)
    requires id in Actions
    ensures |Actions[id].cardRequirements.attributes| == 1
    ensures Actions[id].spaceRequired == Actions[id].cardRequirements.attributes[0].count
  {
  }

  /** Build Small Homes is the only action gated on the employment rate,
      and its gate is NotApplicable. */
  lemma OnlySmallHomesGated(id: string)
    requires id in Actions
    ensures Actions[id].cardRequirements.employmentRate.Some? <==> id == SmallHomes
    ensures id == SmallHomes ==> Actions[id].cardRequirements.employmentRate == Some(Enums.NotApplicable)
  {
  }

  /** Build Small Homes is the only action with results. */
  lemma OnlySmallHomesHasResults(id: string)
    requires id in Actions
    ensures Actions[id].results != [] <==> id == SmallHomes
  {
  }

  /** The total `total` selects result `r`. */
  predicate Selects(r: Result, total: int)
  {
    r.from <= total <= r.to
  }

  /** The Small Homes ranges are well formed and partition the totals
      2..12: a total is selected by some result exactly when it lies in
      2..12, and never by two. */
  lemma SmallHomesRangesPartition(total: int)
    ensures var rs := Actions[SmallHomes].results;
      (forall i :: 0 <= i < |rs| ==> rs[i].from <= rs[i].to) &&
      ((exists i :: 0 <= i < |rs| && Selects(rs[i], total)) <==> 2 <= total <= 12) &&
      (forall i, j :: 0 <= i < |rs| && 0 <= j < |rs| && Selects(rs[i], total) && Selects(rs[j], total) ==> i == j)
  {
    var rs := Actions[SmallHomes].results;
    if 2 <= total <= 12 {
      assert Selects(rs[if total == 2 then 0 else 1], total);
    }
  }

  /** A total of 2 adds an abandoned small house; totals 3..12 add an
      occupied one. */
  lemma SmallHomesOutcomes(i: int, total: int)
    requires 0 <= i < |Actions[SmallHomes].results|
    requires Selects(Actions[SmallHomes].results[i], total)
    ensures var r := Actions[SmallHomes].results[i];
      r.amenity.amenityCode == Housing && r.amenity.size == 1 && r.amenity.density == 1 &&
      (r.amenityAttributes == [Abandoned] <==> total == 2) &&
      (r.amenityAttributes == [Occupied] <==> 3 <= total <= 12)
  {
  }

  /** Each Medium action needs one card and one unit of space more than
      the Small action on the same attribute. */
  lemma MediumIsSmallPlusOne()
    ensures var small, medium := Actions[SmallHomes], Actions[MediumHomes];
      small.cardRequirements.attributes[0].attributeId == medium.cardRequirements.attributes[0].attributeId &&
      medium.cardRequirements.attributes[0].count == small.cardRequirements.attributes[0].count + 1 &&
      medium.spaceRequired == small.spaceRequired + 1
    ensures var small, medium := Actions[SmallOffices], Actions[MediumOffices];
      small.cardRequirements.attributes[0].attributeId == medium.cardRequirements.attributes[0].attributeId &&
      medium.cardRequirements.attributes[0].count == small.cardRequirements.attributes[0].count + 1 &&
      medium.spaceRequired == small.spaceRequired + 1
  {
  }
}
