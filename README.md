# Oudenopolis rule tables in Dafny

Oudenopolis is a city-building card game. The player selects citizen cards and spends them on construction actions. Each action in the `Actions` catalog needs a number of cards that carry one attribute tag; the two roll-table builders need no cards. Where an action has outcomes, they come from a table indexed by a die roll (the two builders) or by a total (Build Small Homes, the only catalog action with results).

This project models the game's rule tables and reference data, and proves the properties they were designed to have. The game engine is not modelled: there is no deck manager, grid growth or travel-time search.

What is modelled:

- **Roll tables.** `getResidencySmall` and `getCreateHealthSmall` build a six-row table of outcomes, one row per die face, from a district's employment rate (modules `Residency`, `Health`, `RollTables`).
- **Action catalog.** The constant `Actions` catalog of `src/actions.ts` (module `ActionCatalog`).
- **Citizen deck.** The 37 cards, their four attribute tags each, and the 12-card starting deck (modules `Citizens`, `CitizenIncidence`, `Attributes`). The deck was built so that:
  - two different cards share at most one tag;
  - every tag sits on exactly four cards.

  None of the modelled files checks either fact. Both are proved here about the table as written.
- **Employment-rate tiers.** The six tiers and the thresholds their comments document (module `Enums`).
- **Amenities and districts.** The `Amenity` record and the `District` class (module `Districts`). `AmenityCode` and `DistrictAttributes` are stand-ins holding only the members the modelled files name (modules `Amenities`, `DistrictAttributes`).
- **Elements.** The map elements and the `ElementName` lookup (module `Elements`).
- **Eligibility.** A definition of "these cards meet this requirement" (module `Eligibility`). `src/actions.ts` states requirements, but none of the modelled files checks them, so this module is a definition, not modelled code. It is used to relate the deck to the catalog.

How the proofs are organised:

- **Roll tables.** Each builder is specified against a reference shape, the *staircase*. A staircase table has some number of LOW faces, then two MEDIUM faces, then HIGH faces. The ordering, dominance, mirror and counting properties are proved about staircases, then carried over to the builders.
- **Citizen deck.** The proofs use a second table, written out independently of the first: for each tag, the four cards that carry it. The two tables are proved to agree, and the sharing rule is proved for each card from that agreement.

Employment-rate tiers:

- `EmploymentRate` has six members, including `NotApplicable` (src/enums.ts:2), the tier of a district with neither employment nor housing. The other five are measured tiers, each with the band its comment documents (src/enums.ts:3-7).

## Model

| member | source | states |
|---|---|---|
| Enums.CodeRoundTrip | src/enums.ts:1-8 | Looking up the string value of any tier gives that tier back. |
| Enums.FromCodeRoundTrip | src/enums.ts:1-8 | Every string the lookup accepts is the string value of the tier it returns. |
| Enums.CodesDistinct | src/enums.ts:2-7 | The six tier codes are pairwise distinct. |
| Enums.RankInjective | src/enums.ts:3-7 | The five measured tiers have different positions in the order None < Low < Average < High < Full. |
| Enums.Classify | src/enums.ts:2-7 | The tier is NotApplicable exactly when neither employment nor housing is present. Otherwise the percentage lies in the documented band of the tier. |
| Enums.BandsDisjoint | src/enums.ts:3-7 | No percentage lies in the bands of two different tiers. |
| Enums.ClassifyExact | src/enums.ts:3-7 | For a present district, the tier is `r` if and only if the percentage is in the band of `r`. So Full is p ≥ 95, High 65 ≤ p < 95, Average 35 ≤ p < 65, Low 5 ≤ p < 35 and None p < 5, and exactly one tier applies to every p. |
| Enums.ClassifyMonotone | src/enums.ts:3-7 | A higher percentage never yields a lower tier. |
| Districts.UsageTextRoundTrip | src/districts.ts:7 | The usage strings 'LOW', 'MEDIUM' and 'HIGH' parse back to their levels, and no other string parses. |
| Districts.UsageRank | src/districts.ts:7 | The usage levels are ordered LOW < MEDIUM < HIGH. LOW is lowest and HIGH highest. |
| Districts.AmenityDomains | src/districts.ts:5-7 | Size and density are each 1, 2 or 4. Usage, when present, is LOW, MEDIUM or HIGH. |
| Districts.District.constructor | src/districts.ts:12-16 | The new district holds exactly the given amenity list. It has no other field. |
| Elements.CodeRoundTrip | src/elements.ts:1-5 | Looking up the code of any element gives that element back. |
| Elements.CodesDistinct | src/elements.ts:2-4 | The three element codes are pairwise distinct. |
| Elements.ElementName | src/elements.ts:7-18 | The name is 'unknown' exactly when the argument is not the code of an element. |
| Elements.ElementNames | src/elements.ts:9-14 | Road is named 'Road', Seaport 'Seaport' and WoodWarehouse 'Wood Warehouse'. |
| Elements.ElementNameInjective | src/elements.ts:8-17 | Different elements get different names, and no element is named 'unknown'. |
| Citizens.CodeRoundTrip | src/citizens.ts:5-43 | Looking up the code of any citizen gives that citizen back. |
| Citizens.CodesDistinct | src/citizens.ts:5-43 | The 37 citizen codes are pairwise distinct, so no two members key the same entry of the Citizens object. |
| Citizens.Citizens | src/citizens.ts:45-379 | There is an entry for every member. It carries four tags, no tag twice, and they are exactly the tags of that card's row. |
| Citizens.EveryCitizenHasFourDistinctTags | src/citizens.ts:46-378 | Every card has exactly four tags, and they are pairwise different. |
| Citizens.StartingCitizens | src/citizens.ts:381-394 | The twelve starting cards in source order. Citizens.StartingDeckShape proves there are twelve and that they are pairwise different. CitizenIncidence.StartingResidencyCarriers proves that exactly Home Owner and Doctor among them carry Residency. |
| Citizens.StartingDeckShape | src/citizens.ts:381-394 | The starting deck has 12 entries, pairwise different. |
| CitizenIncidence.CarriersDistinct | src/citizens.ts:46-378 | The four carriers listed for each tag are pairwise different. |
| CitizenIncidence.Carries | src/citizens.ts:46-378 | A card carries a tag if and only if it is one of that tag's four listed carriers. |
| CitizenIncidence.EveryTagOnFourCards | src/citizens.ts:46-378 | Every tag sits on exactly four cards: its four distinct carriers and no other card. |
| CitizenIncidence.SharesAtMostOne | src/citizens.ts:46-378 | Any two different cards have at most one tag in common. |
| CitizenIncidence.StartingResidencyCarriers | src/citizens.ts:381-394 | Among the starting cards, exactly Home Owner and Doctor carry Residency. |
| RollTables.StaircaseMonotone | src/actions/residency.ts:32-37 | In a staircase table, usage does not go down as the roll goes up. |
| RollTables.StaircaseDominance | src/actions/residency.ts:33-36 | A staircase with fewer LOW faces, and fewer faces below HIGH, has usage at least as high on every face. |
| RollTables.StaircaseUsages | src/actions/residency.ts:31-37 | The usage column of a staircase table is the LOW faces, then the MEDIUM faces, then the HIGH faces. |
| RollTables.StaircaseCounts | src/actions/residency.ts:31-37 | A staircase table has exactly its stated number of LOW, MEDIUM and HIGH rows. |
| Residency.ResidencyOutcome | src/actions/residency.ts:6-25 | The outcome for each usage level builds a Housing amenity of size 1 and density 1 with that usage. |
| Residency.GetResidencySmall | src/actions/residency.ts:5-39 | The action 'Create Small Homes' has no card requirements. It has one row per face 1..6, in order. Its table is a staircase: one LOW face at High, three at Low and two at any other rate, then two MEDIUM faces, then HIGH faces. |
| Residency.ResidencyBuildsSmallHouses | src/actions/residency.ts:8-22 | Every row creates Housing with size 1 and density 1. |
| Residency.ResidencyRollEnds | src/actions/residency.ts:32-37 | Roll 1 is always LOW and roll 6 always HIGH, whatever the employment rate. |
| Residency.ResidencyNonDecreasing | src/actions/residency.ts:32-37 | At every rate, usage never decreases as the roll increases. |
| Residency.ResidencyDominance | src/actions/residency.ts:33-36 | On every face, usage at High is at least the usage at any rate, which is at least the usage at Low. |
| Residency.ResidencyOnlyHighAndLowMatter | src/actions/residency.ts:33-36 | Full, Average, None and NotApplicable all give the same table. Full gives a different table from High. |
| Residency.ResidencyUsageCounts | src/actions/residency.ts:32-37 | High gives 1 LOW, 2 MEDIUM and 3 HIGH rows. Low gives 3, 2 and 1. Every other rate gives 2, 2 and 2. |
| Health.HealthOutcome | src/actions/health.ts:6-25 | The outcome for each usage level builds a Medical amenity of size 1 and density 1 with that usage. |
| Health.GetCreateHealthSmall | src/actions/health.ts:5-39 | The action 'Create Small Clinic' has no card requirements. It has one row per face 1..6, in order. Its table is a staircase: one LOW face at Low, three at High and two at any other rate, then two MEDIUM faces, then HIGH faces. |
| Health.HealthBuildsSmallClinics | src/actions/health.ts:8-22 | Every row creates a Medical amenity with size 1 and density 1. |
| Health.HealthRollEnds | src/actions/health.ts:32-37 | Roll 1 is always LOW and roll 6 always HIGH, whatever the employment rate. |
| Health.HealthNonDecreasing | src/actions/health.ts:32-37 | At every rate, clinic usage never decreases as the roll increases. |
| Health.HealthDominance | src/actions/health.ts:33-36 | Reversed dominance: on every face, usage at Low is at least the usage at any rate, which is at least the usage at High. |
| Health.HealthOnlyHighAndLowMatter | src/actions/health.ts:33-36 | Full, Average, None and NotApplicable all give the same clinic table. |
| Health.HealthUsageCounts | src/actions/health.ts:32-37 | Low gives 1 LOW, 2 MEDIUM and 3 HIGH rows. High gives 3, 2 and 1. Every other rate gives 2, 2 and 2. |
| Health.HealthMirrorsResidency | src/actions/health.ts:32-37 | On every face, clinic usage at a rate equals housing usage with High and Low swapped. So the clinic table at Low is the housing table at High, and the two agree at every other rate. |
| Health.ResidencyMirrorsHealth | src/actions/residency.ts:32-37 | The converse mirror: housing usage at a rate equals clinic usage with High and Low swapped. |
| ActionCatalog.Actions | src/actions.ts:24-98 | The eight catalog entries as written. The lemmas below constrain them: CatalogIds (the ids), OneRequirementEach and SpaceEqualsCount (requirements and space), OnlySmallHomesGated and OnlySmallHomesHasResults (gate and results), SmallHomesRangesPartition and SmallHomesOutcomes (the Small Homes table), and MediumIsSmallPlusOne (the Small and Medium pairs). |
| ActionCatalog.CatalogIds | src/actions.ts:24-98 | The catalog holds exactly eight ids, and they are pairwise different. |
| ActionCatalog.OneRequirementEach | src/actions.ts:24-98 | Every action has exactly one attribute requirement, with count 2 or 3. |
| ActionCatalog.SpaceEqualsCount | src/actions.ts:24-98 | In every action, the space required equals the count of its single attribute requirement. |
| ActionCatalog.OnlySmallHomesGated | src/actions.ts:56 | Build Small Homes is the only action with an employment-rate gate, and that gate is NotApplicable. |
| ActionCatalog.OnlySmallHomesHasResults | src/actions.ts:24-98 | Only Build Small Homes has a non-empty results list. |
| ActionCatalog.SmallHomesRangesPartition | src/actions.ts:58-75 | Every Small Homes range has from ≤ to. A total is selected by some result exactly when it lies in 2..12, and never by two results. |
| ActionCatalog.SmallHomesOutcomes | src/actions.ts:58-75 | The selected result adds Housing of size 1 and density 1. It is Abandoned exactly at total 2 and Occupied exactly at totals 3..12. |
| ActionCatalog.MediumIsSmallPlusOne | src/actions.ts:53-95 | Each Medium action needs the same attribute as its Small counterpart, one more card and one more unit of space. |
| Eligibility.CountCarrying | src/actions.ts:19 | The number of selected cards carrying a tag is at most the number of cards. It is zero exactly when no selected card carries the tag. |
| Eligibility.CarryingBound | src/actions.ts:19 | If every selected card with the tag lies in a pool, and no card is repeated, at most the pool's size of them carry the tag. |
| Eligibility.AtMostFourCarry | src/actions.ts:19 | A selection without repeats has at most four cards with any one tag. |
| Eligibility.MoreThanFourUnreachable | src/actions.ts:19 | A requirement for more than four cards of one tag is never met by a selection without repeats. |
| Eligibility.MediumHomesOutOfReachAtStart | src/actions.ts:80 | No selection of starting cards can take Build Medium Homes. A selection that repeats a card takes nothing. |
| Eligibility.SmallHomesReachableAtStart | src/actions.ts:56 | Home Owner and Doctor, two different starting cards, can take Build Small Homes in a district whose rate is NotApplicable. |

## Left out

- The user interface (`src/App.tsx`, `src/App.js`) is not modelled. It is presentation only.
- The glyph paths and display names of `src/attributes.ts` are not modelled. They are presentation data.
- The `Attribute` type is the 37 tags the citizen table uses. Five of them are missing from the `AttributeCode` enum of `src/attributes.ts`, so the citizen table is taken as the authority.
- The engine is not modelled, because it is not in the modelled files:
  - deck shuffling, drawing and discarding;
  - grid growth and adjacency;
  - amenity aging;
  - the computation of a district's employment percentage;
  - the road and seaport travel-time search;
  - the step that picks a table row for a roll.
- Die rolls and shuffles are not modelled. A roll or total appears only as a parameter.
- Enums.Classify: none of the modelled files computes a tier, so Classify is the documented thresholds written as a definition. It works over an exact real percentage and two presence flags. It is not a model of program code. The flags do not constrain the percentage: a district flagged as having no employment can still be given a positive percentage, and a percentage below zero is accepted.
- Eligibility: none of the modelled files checks a requirement. The module is a definition of the evident reading of `cardRequirements`.
- The `type: 'CREATE'` and `type: 'ADD'` fields of results are not modelled. They are constant string literals that no rule reads.
- Narrative strings are kept as plain strings, but no property is proved about them. These are the `name`, `description` and `resultDescription` fields and the citizen names.
- The older `Action`, `Result` and `DistrictState` shapes are not part of this model. `residency.ts` and `health.ts` import them from an earlier version of `src/actions.ts`, which is not among the modelled files.
  - `RollTables` declares only the keys those two files write.
  - Their `cardRequirements` is an empty list in both files, so its element type is taken to be an attribute.
- `AmenityCode` (`src/amenities.ts`) and `DistrictAttributes` (`src/districtAttributes.ts`) are not part of this model. They are stand-ins holding only Housing and Medical, and Abandoned and Occupied.
- The catalog's Small Homes amenities carry an `attributes` key that the `Amenity` record does not declare. It is kept as a separate field of the result.
- Amenity `age` is a JavaScript number, modelled as an unbounded integer.
- District.constructor: the amenity list is a value (`seq`). Aliasing between the caller's array and the district's field is not captured.
- Citizens.Citizens: the table is split into a `Name` column and a `Tags` column, and each entry is rebuilt from the two, so that proofs about tags never unfold the names.
- Elements.ElementName: it takes the code as a string rather than as an `Element`. This matches the switch's `default` branch, which exists for strings that are not element codes.
