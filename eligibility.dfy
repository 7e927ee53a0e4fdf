/** When a selection of citizen cards meets an action's card
    requirements.

    src/actions.ts:19 states the requirements, but none of the modelled
    files checks them. The predicates below are a definition of
    the evident reading, not a model of program code: an attribute
    requirement holds when at least `count` of the selected cards carry
    the attribute, and an employment-rate gate holds when the district's
    rate is the one named. The lemmas relate this definition to the
    deck and the catalog. */
module Eligibility {
  import opened Wrappers
  import opened Attributes
  import opened Citizens
  import opened CitizenIncidence
  import opened ActionCatalog
  import Enums

  /** No card is selected twice. */
  predicate NoDuplicates(cards: seq<CitizenCode>)
  {
    forall i, j :: 0 <= i < j < |cards| ==> cards[i] != cards[j]
  }

  /** How many of the selected cards carry tag `t`. None do exactly when
      the count is zero. */
  function CountCarrying(cards: seq<CitizenCode>, t: Attribute): (n: nat)
    ensures n <= |cards|
    ensures n == 0 <==> forall c :: c in cards ==> t !in Tags(c)
  {
    if cards == [] then 0
    else (if t in Tags(cards[0]) then 1 else 0) + CountCarrying(cards[1..], t)
  }

  /** One attribute requirement holds for the selection. */
  predicate Satisfies(cards: seq<CitizenCode>, r: AttributeRequirement)
  {
    CountCarrying(cards, r.attributeId) >= r.count
  }

  /** All requirements of `a` hold, for a selection of different cards
      played in a district whose employment rate is `rate`. A card played
      twice is not a selection. */
  predicate CanTake(cards: seq<CitizenCode>, rate: Enums.EmploymentRate, a: Action)
  {
    NoDuplicates(cards) &&
    (forall r :: r in a.cardRequirements.attributes ==> Satisfies(cards, r)) &&
    (a.cardRequirements.employmentRate.Some? ==> a.cardRequirements.employmentRate.value == rate)
  }

  /** If every selected card that carries `t` lies in `pool`, at most
      |pool| selected cards carry `t`. */
  lemma {:induction false} CarryingBound(cards: seq<CitizenCode>, t: Attribute, pool: set<CitizenCode>)
    requires NoDuplicates(cards)
    requires forall c :: c in cards && t in Tags(c) ==> c in pool
    ensures CountCarrying(cards, t) <= |pool|
  {
    if cards != [] {
      var rest := cards[1..];
      assert NoDuplicates(rest) by {
        forall i, j | 0 <= i < j < |rest| ensures rest[i] != rest[j] {
          assert rest[i] == cards[i + 1] && rest[j] == cards[j + 1];
        }
      }
      if t in Tags(cards[0]) {
        assert cards[0] !in rest by {
          forall k | 0 <= k < |rest| ensures rest[k] != cards[0] {
            assert rest[k] == cards[k + 1];
          }
        }
        CarryingBound(rest, t, pool - {cards[0]});
      } else {
        CarryingBound(rest, t, pool);
      }
    }
  }

  /** A selection without repeats has at most four cards with any one
      tag, since every tag sits on four cards. */
  lemma AtMostFourCarry(cards: seq<CitizenCode>, t: Attribute)
    requires NoDuplicates(cards)
    ensures CountCarrying(cards, t) <= 4
  {
    var q := Carriers(t);
    var pool := {q.a, q.b, q.c, q.d};
    forall c | c in cards && t in Tags(c) ensures c in pool {
      Carries(c, t);
    }
    CarryingBound(cards, t, pool);
  }

  /** So a requirement for more than four cards of one tag can never be
      met. */
  lemma MoreThanFourUnreachable(cards: seq<CitizenCode>, r: AttributeRequirement)
    requires NoDuplicates(cards)
    requires r.count > 4
    ensures !Satisfies(cards, r)
  {
    AtMostFourCarry(cards, r.attributeId);
  }

  /** Build Medium Homes needs three Residency cards, but the starting
      deck holds only two, so no selection from it can take that action. */
  lemma MediumHomesOutOfReachAtStart(cards: seq<CitizenCode>, rate: Enums.EmploymentRate)
    requires forall c :: c in cards ==> c in StartingCitizens
    ensures !CanTake(cards, rate, Actions[MediumHomes])
  {
    if NoDuplicates(cards) {
      var r := Actions[MediumHomes].cardRequirements.attributes[0];
      assert r == AttributeRequirement(Residency, 3);
      forall c | c in cards && Residency in Tags(c) ensures c in {HomeOwner, Doctor} {
        StartingResidencyCarriers(c);
      }
      CarryingBound(cards, Residency, {HomeOwner, Doctor});
      assert r in Actions[MediumHomes].cardRequirements.attributes;
    }
  }

  /** Home Owner and Doctor, both in the starting deck, can take Build
      Small Homes in a district where the rate is NotApplicable. */
  lemma SmallHomesReachableAtStart()
    ensures HomeOwner in StartingCitizens && Doctor in StartingCitizens
    ensures CanTake([HomeOwner, Doctor], Enums.NotApplicable, Actions[SmallHomes])
  {
    TagsOfHomeOwner();
    TagsOfDoctor();
    var r := AttributeRequirement(Residency, 2);
    assert Actions[SmallHomes].cardRequirements.attributes == [r];
    assert [HomeOwner, Doctor][1..] == [Doctor];
    assert CountCarrying([HomeOwner, Doctor], Residency) == 2;
  }
}
