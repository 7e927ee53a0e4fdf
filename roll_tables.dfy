/** The record shapes that src/actions/residency.ts and
    src/actions/health.ts build, and the facts about die-roll tables that
    both builders share.

    Both files import Action, DistrictState and Result from an earlier
    version of src/actions.ts (a `code` key on the amenity, a `roll` on
    each result, a list of card requirements), which is not among the
    modelled files, so the shapes below hold exactly the keys the two
    builders write. */
module RollTables {
  import Enums
  import opened Amenities
  import opened Districts
  import opened Attributes

  /** The state a builder reads; only its employment rate is used. */
  datatype DistrictState = DistrictState(employmentRate: Enums.EmploymentRate)

  /** The amenity a result creates. */
  datatype CreatedAmenity = CreatedAmenity(code: AmenityCode, size: int, density: int, usage: Usage)

  /** A result before it is given a die face. */
  datatype Outcome = Outcome(amenity: CreatedAmenity, description: string, resultDescription: string)

  /** One row of a table: the outcome for one face of the die. */
  datatype RollResult = RollResult(roll: int, amenity: CreatedAmenity, description: string, resultDescription: string)

  /** The action a builder returns. */
  datatype CreateAction = CreateAction(
    name: string,
    description: string,
    cardRequirements: seq<Attribute>,
    results: seq<RollResult>)

  /** The row `{roll, ...o}`. */
  function WithRoll(roll: int, o: Outcome): RollResult
  {
    RollResult(roll, o.amenity, o.description, o.resultDescription)
  }

  /** Six rows, one for each face 1..6, in order. */
  predicate OnePerFace(rs: seq<RollResult>)
  {
    |rs| == 6 && forall i :: 0 <= i < 6 ==> rs[i].roll == i + 1
  }

  /** Usage never goes down from one row to a later one. */
  predicate NonDecreasing(rs: seq<RollResult>)
  {
    forall i, j :: 0 <= i <= j < |rs| ==> UsageRank(rs[i].amenity.usage) <= UsageRank(rs[j].amenity.usage)
  }

  /** The usage column of a table. */
  function Usages(rs: seq<RollResult>): (us: seq<Usage>)
    ensures |us| == |rs|
    ensures forall i :: 0 <= i < |rs| ==> us[i] == rs[i].amenity.usage
  {
    seq(|rs|, i requires 0 <= i < |rs| => rs[i].amenity.usage)
  }

  /** The usage on face `roll` of a table whose first `lows` faces are
      LOW, whose next `mediums` faces are MEDIUM and whose other faces are
      HIGH. Both builders produce tables of this form; they differ only in
      the counts. */
  function Staircase(lows: int, mediums: int, roll: int): Usage
  {
    if roll <= lows then Low
    else if roll <= lows + mediums then Medium
    else High
  }

  /** A staircase goes up with the roll. */
  lemma StaircaseMonotone(lows: int, mediums: int, r1: int, r2: int)
    requires 0 <= mediums
    requires r1 <= r2
    ensures UsageRank(Staircase(lows, mediums, r1)) <= UsageRank(Staircase(lows, mediums, r2))
  {
  }

  /** Fewer LOW faces, and fewer faces below HIGH, give a usage at least
      as high on every face. */
  lemma StaircaseDominance(lows1: int, mediums1: int, lows2: int, mediums2: int, roll: int)
    requires lows1 <= lows2
    requires lows1 + mediums1 <= lows2 + mediums2
    ensures UsageRank(Staircase(lows2, mediums2, roll)) <= UsageRank(Staircase(lows1, mediums1, roll))
  {
  }

  /** A six-row table that follows a staircase: each face's row is the
      outcome `outcome` assigns to the staircase's usage on that face. */
  predicate StaircaseTable(rs: seq<RollResult>, lows: int, mediums: int, outcome: Usage -> Outcome)
  {
    |rs| == 6 &&
    forall i :: 0 <= i < 6 ==> rs[i] == WithRoll(i + 1, outcome(Staircase(lows, mediums, i + 1)))
  }

  /** The usage column of a six-row staircase table, with `lows` and
      `mediums` between them no more than six, holds `lows` LOW rows,
      `mediums` MEDIUM rows and the rest HIGH, in that order, so its
      multiset of usages is fixed by the two counts. */
  lemma StaircaseUsages(rs: seq<RollResult>, lows: int, mediums: int, outcome: Usage -> Outcome)
    requires StaircaseTable(rs, lows, mediums, outcome)
    requires forall u :: outcome(u).amenity.usage == u
    requires 0 <= lows && 0 <= mediums && lows + mediums <= 6
    ensures Usages(rs) == Repeat(Low, lows) + Repeat(Medium, mediums) + Repeat(High, 6 - lows - mediums)
  {
    var us := Usages(rs);
    var expected := Repeat(Low, lows) + Repeat(Medium, mediums) + Repeat(High, 6 - lows - mediums);
    forall i | 0 <= i < 6
      ensures us[i] == expected[i]
    {
      assert us[i] == Staircase(lows, mediums, i + 1);
      if i < lows {
        assert expected[i] == Repeat(Low, lows)[i];
      } else if i < lows + mediums {
        assert expected[i] == (Repeat(Low, lows) + Repeat(Medium, mediums))[i];
        assert expected[i] == Repeat(Medium, mediums)[i - lows];
      } else {
        assert expected[i] == Repeat(High, 6 - lows - mediums)[i - lows - mediums];
      }
    }
  }

  /** `n` copies of `u`. */
  function Repeat(u: Usage, n: int): (s: seq<Usage>)
    requires 0 <= n
    ensures |s| == n
    ensures forall i :: 0 <= i < n ==> s[i] == u
    decreases n
  {
    if n == 0 then [] else [u] + Repeat(u, n - 1)
  }

  /** How many entries of `us` are `u`. */
  function Count(us: seq<Usage>, u: Usage): (n: nat)
    ensures n <= |us|
  {
    if us == [] then 0 else (if us[0] == u then 1 else 0) + Count(us[1..], u)
  }

  /** Counting splits over concatenation. */
  lemma {:induction false} CountAppend(a: seq<Usage>, b: seq<Usage>, u: Usage)
    ensures Count(a + b, u) == Count(a, u) + Count(b, u)
  {
    if a == [] {
      assert a + b == b;
    } else {
      assert (a + b)[1..] == a[1..] + b;
      CountAppend(a[1..], b, u);
    }
  }

  /** `n` copies of `v` hold `u` `n` times if `u` is `v`, and never
      otherwise. */
  lemma {:induction false} CountRepeat(v: Usage, n: int, u: Usage)
    requires 0 <= n
    ensures Count(Repeat(v, n), u) == if v == u then n else 0
    decreases n
  {
    if n > 0 {
      assert Repeat(v, n)[1..] == Repeat(v, n - 1);
      CountRepeat(v, n - 1, u);
    }
  }

  /** How many rows of a staircase table have each usage. */
  lemma StaircaseCounts(rs: seq<RollResult>, lows: int, mediums: int, outcome: Usage -> Outcome)
    requires StaircaseTable(rs, lows, mediums, outcome)
    requires forall u :: outcome(u).amenity.usage == u
    requires 0 <= lows && 0 <= mediums && lows + mediums <= 6
    ensures Count(Usages(rs), Low) == lows
    ensures Count(Usages(rs), Medium) == mediums
    ensures Count(Usages(rs), High) == 6 - lows - mediums
  {
    StaircaseUsages(rs, lows, mediums, outcome);
    var a, b, c := Repeat(Low, lows), Repeat(Medium, mediums), Repeat(High, 6 - lows - mediums);
    forall u
      ensures Count(Usages(rs), u) == Count(a, u) + Count(b, u) + Count(c, u)
    {
      CountAppend(a + b, c, u);
      CountAppend(a, b, u);
    }
    CountRepeat(Low, lows, Low);
    CountRepeat(Medium, mediums, Low);
    CountRepeat(High, 6 - lows - mediums, Low);
    CountRepeat(Low, lows, Medium);
    CountRepeat(Medium, mediums, Medium);
    CountRepeat(High, 6 - lows - mediums, Medium);
    CountRepeat(Low, lows, High);
    CountRepeat(Medium, mediums, High);
    CountRepeat(High, 6 - lows - mediums, High);
  }
}
