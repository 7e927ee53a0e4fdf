/** Incidence structure of the citizen deck: which cards carry which tag.

    The deck is built so that any two different cards share at most one
    tag, and every tag sits on exactly four cards (37 cards, 37 tags,
    four tags per card). None of the modelled files checks either fact; both are
    proved here about the table of src/citizens.ts:45-379. The proofs go
    through a second table, written out independently of the first: for
    each tag, the four cards that carry it. */
module CitizenIncidence {
  import opened Attributes
  import opened Citizens

  /** Four values, in no particular order. */
  datatype Four<T> = Four(a: T, b: T, c: T, d: T)

  /** `x` is one of the four values of `q`. */
  predicate In<T(==)>(x: T, q: Four<T>)
  {
    x == q.a || x == q.b || x == q.c || x == q.d
  }

  /** The four values of `q` are pairwise different. */
  predicate Distinct<T(==)>(q: Four<T>)
  {
    q.a != q.b && q.a != q.c && q.a != q.d && q.b != q.c && q.b != q.d && q.c != q.d
  }

  // The cards that carry each tag.

  const AirCarriers := Four(Doctor, Musician, Pilot, Tourist)
  const AnimalsCarriers := Four(Farmer, Mystic, PoliceOfficer, ZooKeeper)
  const ArtCarriers := Four(Architect, Artist, Musician, Writer)
  const BooksCarriers := Four(Historian, OfficeWorker, Teacher, Writer)
  const CommerceCarriers := Four(Artist, FireFighter, PoliceOfficer, Shopkeeper)
  const DiningCarriers := Four(Captain, Chef, HomeOwner, Robot)
  const EducationCarriers := Four(Guru, Mathematician, Musician, Teacher)
  const ElectricityCarriers := Four(Architect, Engineer, Mystic, Robot)
  const ExplorationCarriers := Four(Actor, Cryptid, Explorer, Farmer)
  const FinanceCarriers := Four(Banker, Guru, HomeOwner, Shopkeeper)
  const FireCarriers := Four(Chef, FireFighter, Mystic, Pilot)
  const FoodCarriers := Four(Athlete, Chef, Farmer, Shopkeeper)
  const GovernmentCarriers := Four(Banker, Inventor, Mayor, Teacher)
  const HealthCarriers := Four(Actor, Athlete, Doctor, FireFighter)
  const HistoryCarriers := Four(Architect, Explorer, Historian, ZooKeeper)
  const IndustryCarriers := Four(Engineer, FactoryWorker, FireFighter, Miner)
  const LandmarkCarriers := Four(Architect, Daredevil, Miner, Tourist)
  const LawCarriers := Four(Banker, Driver, PoliceOfficer, Soldier)
  const MathematicsCarriers := Four(Captain, Cryptid, Mathematician, Scientist)
  const MilitaryCarriers := Four(Astronaut, Guru, Mayor, Soldier)
  const MusicCarriers := Four(Driver, Musician, OfficeWorker, Shopkeeper)
  const MysticismCarriers := Four(Cryptid, Guru, Mystic, Writer)
  const NatureCarriers := Four(Artist, Athlete, Miner, ZooKeeper)
  const OfficeCarriers := Four(Doctor, Engineer, OfficeWorker, ZooKeeper)
  const ResidencyCarriers := Four(Doctor, FactoryWorker, HomeOwner, Mayor)
  const ResourcesCarriers := Four(Captain, Miner, Pilot, Soldier)
  const RoadCarriers := Four(Actor, Driver, HomeOwner, Tourist)
  const RoboticsCarriers := Four(FactoryWorker, Mathematician, Robot, Soldier)
  const ScienceCarriers := Four(Historian, Inventor, Robot, Scientist)
  const SeaCarriers := Four(Captain, Explorer, Inventor, PoliceOfficer)
  const SpaceCarriers := Four(Astronaut, Explorer, FactoryWorker, Scientist)
  const SportCarriers := Four(Athlete, Daredevil, Scientist, Teacher)
  const TechnologyCarriers := Four(Astronaut, Engineer, Inventor, Mathematician)
  const TheatreCarriers := Four(Actor, Artist, Daredevil, Historian)
  const ThrillCarriers := Four(Cryptid, Daredevil, Driver, Pilot)
  const TourismCarriers := Four(Chef, Mayor, Tourist, Writer)
  const TrainCarriers := Four(Astronaut, Banker, Farmer, OfficeWorker)

  /** The cards that carry tag `t`. */
  function Carriers(t: Attribute): Four<CitizenCode>
  {
    match t
    case Air => AirCarriers
    case Animals => AnimalsCarriers
    case Art => ArtCarriers
    case Books => BooksCarriers
    case Commerce => CommerceCarriers
    case Dining => DiningCarriers
    case Education => EducationCarriers
    case Electricity => ElectricityCarriers
    case Exploration => ExplorationCarriers
    case Finance => FinanceCarriers
    case Fire => FireCarriers
    case Food => FoodCarriers
    case Government => GovernmentCarriers
    case Health => HealthCarriers
    case History => HistoryCarriers
    case Industry => IndustryCarriers
    case Landmark => LandmarkCarriers
    case Law => LawCarriers
    case Mathematics => MathematicsCarriers
    case Military => MilitaryCarriers
    case Music => MusicCarriers
    case Mysticism => MysticismCarriers
    case Nature => NatureCarriers
    case Office => OfficeCarriers
    case Residency => ResidencyCarriers
    case Resources => ResourcesCarriers
    case Road => RoadCarriers
    case Robotics => RoboticsCarriers
    case Science => ScienceCarriers
    case Sea => SeaCarriers
    case Space => SpaceCarriers
    case Sport => SportCarriers
    case Technology => TechnologyCarriers
    case Theatre => TheatreCarriers
    case Thrill => ThrillCarriers
    case Tourism => TourismCarriers
    case Train => TrainCarriers
  }

  // One entry of Carriers per lemma, for the same reason as TagsOf.

  lemma CarriersOfAir() ensures Carriers(Air) == AirCarriers { }
  lemma CarriersOfAnimals() ensures Carriers(Animals) == AnimalsCarriers { }
  lemma CarriersOfArt() ensures Carriers(Art) == ArtCarriers { }
  lemma CarriersOfBooks() ensures Carriers(Books) == BooksCarriers { }
  lemma CarriersOfCommerce() ensures Carriers(Commerce) == CommerceCarriers { }
  lemma CarriersOfDining() ensures Carriers(Dining) == DiningCarriers { }
  lemma CarriersOfEducation() ensures Carriers(Education) == EducationCarriers { }
  lemma CarriersOfElectricity() ensures Carriers(Electricity) == ElectricityCarriers { }
  lemma CarriersOfExploration() ensures Carriers(Exploration) == ExplorationCarriers { }
  lemma CarriersOfFinance() ensures Carriers(Finance) == FinanceCarriers { }
  lemma CarriersOfFire() ensures Carriers(Fire) == FireCarriers { }
  lemma CarriersOfFood() ensures Carriers(Food) == FoodCarriers { }
  lemma CarriersOfGovernment() ensures Carriers(Government) == GovernmentCarriers { }
  lemma CarriersOfHealth() ensures Carriers(Health) == HealthCarriers { }
  lemma CarriersOfHistory() ensures Carriers(History) == HistoryCarriers { }
  lemma CarriersOfIndustry() ensures Carriers(Industry) == IndustryCarriers { }
  lemma CarriersOfLandmark() ensures Carriers(Landmark) == LandmarkCarriers { }
  lemma CarriersOfLaw() ensures Carriers(Law) == LawCarriers { }
  lemma CarriersOfMathematics() ensures Carriers(Mathematics) == MathematicsCarriers { }
  lemma CarriersOfMilitary() ensures Carriers(Military) == MilitaryCarriers { }
  lemma CarriersOfMusic() ensures Carriers(Music) == MusicCarriers { }
  lemma CarriersOfMysticism() ensures Carriers(Mysticism) == MysticismCarriers { }
  lemma CarriersOfNature() ensures Carriers(Nature) == NatureCarriers { }
  lemma CarriersOfOffice() ensures Carriers(Office) == OfficeCarriers { }
  lemma CarriersOfResidency() ensures Carriers(Residency) == ResidencyCarriers { }
  lemma CarriersOfResources() ensures Carriers(Resources) == ResourcesCarriers { }
  lemma CarriersOfRoad() ensures Carriers(Road) == RoadCarriers { }
  lemma CarriersOfRobotics() ensures Carriers(Robotics) == RoboticsCarriers { }
  lemma CarriersOfScience() ensures Carriers(Science) == ScienceCarriers { }
  lemma CarriersOfSea() ensures Carriers(Sea) == SeaCarriers { }
  lemma CarriersOfSpace() ensures Carriers(Space) == SpaceCarriers { }
  lemma CarriersOfSport() ensures Carriers(Sport) == SportCarriers { }
  lemma CarriersOfTechnology() ensures Carriers(Technology) == TechnologyCarriers { }
  lemma CarriersOfTheatre() ensures Carriers(Theatre) == TheatreCarriers { }
  lemma CarriersOfThrill() ensures Carriers(Thrill) == ThrillCarriers { }
  lemma CarriersOfTourism() ensures Carriers(Tourism) == TourismCarriers { }
  lemma CarriersOfTrain() ensures Carriers(Train) == TrainCarriers { }

  /** Each tag has four different carriers. */
  lemma CarriersDistinct(t: Attribute)
    ensures Distinct(Carriers(t))
  {
  }

  // One lemma per card: the tags it carries are those whose carriers
  // include it.

  lemma CarriesActor(t: Attribute) ensures t in Tags(Actor) <==> In(Actor, Carriers(t)) { TagsOfActor(); }
  lemma CarriesArchitect(t: Attribute) ensures t in Tags(Architect) <==> In(Architect, Carriers(t)) { TagsOfArchitect(); }
  lemma CarriesArtist(t: Attribute) ensures t in Tags(Artist) <==> In(Artist, Carriers(t)) { TagsOfArtist(); }
  lemma CarriesAstronaut(t: Attribute) ensures t in Tags(Astronaut) <==> In(Astronaut, Carriers(t)) { TagsOfAstronaut(); }
  lemma CarriesAthlete(t: Attribute) ensures t in Tags(Athlete) <==> In(Athlete, Carriers(t)) { TagsOfAthlete(); }
  lemma CarriesBanker(t: Attribute) ensures t in Tags(Banker) <==> In(Banker, Carriers(t)) { TagsOfBanker(); }
  lemma CarriesCaptain(t: Attribute) ensures t in Tags(Captain) <==> In(Captain, Carriers(t)) { TagsOfCaptain(); }
  lemma CarriesChef(t: Attribute) ensures t in Tags(Chef) <==> In(Chef, Carriers(t)) { TagsOfChef(); }
  lemma CarriesCryptid(t: Attribute) ensures t in Tags(Cryptid) <==> In(Cryptid, Carriers(t)) { TagsOfCryptid(); }
  lemma CarriesDaredevil(t: Attribute) ensures t in Tags(Daredevil) <==> In(Daredevil, Carriers(t)) { TagsOfDaredevil(); }
  lemma CarriesDoctor(t: Attribute) ensures t in Tags(Doctor) <==> In(Doctor, Carriers(t)) { TagsOfDoctor(); }
  lemma CarriesDriver(t: Attribute) ensures t in Tags(Driver) <==> In(Driver, Carriers(t)) { TagsOfDriver(); }
  lemma CarriesEngineer(t: Attribute) ensures t in Tags(Engineer) <==> In(Engineer, Carriers(t)) { TagsOfEngineer(); }
  lemma CarriesExplorer(t: Attribute) ensures t in Tags(Explorer) <==> In(Explorer, Carriers(t)) { TagsOfExplorer(); }
  lemma CarriesFactoryWorker(t: Attribute) ensures t in Tags(FactoryWorker) <==> In(FactoryWorker, Carriers(t)) { TagsOfFactoryWorker(); }
  lemma CarriesFarmer(t: Attribute) ensures t in Tags(Farmer) <==> In(Farmer, Carriers(t)) { TagsOfFarmer(); }
  lemma CarriesFireFighter(t: Attribute) ensures t in Tags(FireFighter) <==> In(FireFighter, Carriers(t)) { TagsOfFireFighter(); }
  lemma CarriesGuru(t: Attribute) ensures t in Tags(Guru) <==> In(Guru, Carriers(t)) { TagsOfGuru(); }
  lemma CarriesHistorian(t: Attribute) ensures t in Tags(Historian) <==> In(Historian, Carriers(t)) { TagsOfHistorian(); }
  lemma CarriesHomeOwner(t: Attribute) ensures t in Tags(HomeOwner) <==> In(HomeOwner, Carriers(t)) { TagsOfHomeOwner(); }
  lemma CarriesInventor(t: Attribute) ensures t in Tags(Inventor) <==> In(Inventor, Carriers(t)) { TagsOfInventor(); }
  lemma CarriesMathematician(t: Attribute) ensures t in Tags(Mathematician) <==> In(Mathematician, Carriers(t)) { TagsOfMathematician(); }
  lemma CarriesMayor(t: Attribute) ensures t in Tags(Mayor) <==> In(Mayor, Carriers(t)) { TagsOfMayor(); }
  lemma CarriesMiner(t: Attribute) ensures t in Tags(Miner) <==> In(Miner, Carriers(t)) { TagsOfMiner(); }
  lemma CarriesMusician(t: Attribute) ensures t in Tags(Musician) <==> In(Musician, Carriers(t)) { TagsOfMusician(); }
  lemma CarriesMystic(t: Attribute) ensures t in Tags(Mystic) <==> In(Mystic, Carriers(t)) { TagsOfMystic(); }
  lemma CarriesOfficeWorker(t: Attribute) ensures t in Tags(OfficeWorker) <==> In(OfficeWorker, Carriers(t)) { TagsOfOfficeWorker(); }
  lemma CarriesPilot(t: Attribute) ensures t in Tags(Pilot) <==> In(Pilot, Carriers(t)) { TagsOfPilot(); }
  lemma CarriesPoliceOfficer(t: Attribute) ensures t in Tags(PoliceOfficer) <==> In(PoliceOfficer, Carriers(t)) { TagsOfPoliceOfficer(); }
  lemma CarriesRobot(t: Attribute) ensures t in Tags(Robot) <==> In(Robot, Carriers(t)) { TagsOfRobot(); }
  lemma CarriesScientist(t: Attribute) ensures t in Tags(Scientist) <==> In(Scientist, Carriers(t)) { TagsOfScientist(); }
  lemma CarriesShopkeeper(t: Attribute) ensures t in Tags(Shopkeeper) <==> In(Shopkeeper, Carriers(t)) { TagsOfShopkeeper(); }
  lemma CarriesSoldier(t: Attribute) ensures t in Tags(Soldier) <==> In(Soldier, Carriers(t)) { TagsOfSoldier(); }
  lemma CarriesTeacher(t: Attribute) ensures t in Tags(Teacher) <==> In(Teacher, Carriers(t)) { TagsOfTeacher(); }
  lemma CarriesTourist(t: Attribute) ensures t in Tags(Tourist) <==> In(Tourist, Carriers(t)) { TagsOfTourist(); }
  lemma CarriesWriter(t: Attribute) ensures t in Tags(Writer) <==> In(Writer, Carriers(t)) { TagsOfWriter(); }
  lemma CarriesZooKeeper(t: Attribute) ensures t in Tags(ZooKeeper) <==> In(ZooKeeper, Carriers(t)) { TagsOfZooKeeper(); }

  /** The two tables agree: card `c` carries tag `t` exactly when `c` is
      one of the carriers of `t`. */
  lemma Carries(c: CitizenCode, t: Attribute)
    ensures t in Tags(c) <==> In(c, Carriers(t))
  {
    match c
    case Actor => CarriesActor(t);
    case Architect => CarriesArchitect(t);
    case Artist => CarriesArtist(t);
    case Astronaut => CarriesAstronaut(t);
    case Athlete => CarriesAthlete(t);
    case Banker => CarriesBanker(t);
    case Captain => CarriesCaptain(t);
    case Chef => CarriesChef(t);
    case Cryptid => CarriesCryptid(t);
    case Daredevil => CarriesDaredevil(t);
    case Doctor => CarriesDoctor(t);
    case Driver => CarriesDriver(t);
    case Engineer => CarriesEngineer(t);
    case Explorer => CarriesExplorer(t);
    case FactoryWorker => CarriesFactoryWorker(t);
    case Farmer => CarriesFarmer(t);
    case FireFighter => CarriesFireFighter(t);
    case Guru => CarriesGuru(t);
    case Historian => CarriesHistorian(t);
    case HomeOwner => CarriesHomeOwner(t);
    case Inventor => CarriesInventor(t);
    case Mathematician => CarriesMathematician(t);
    case Mayor => CarriesMayor(t);
    case Miner => CarriesMiner(t);
    case Musician => CarriesMusician(t);
    case Mystic => CarriesMystic(t);
    case OfficeWorker => CarriesOfficeWorker(t);
    case Pilot => CarriesPilot(t);
    case PoliceOfficer => CarriesPoliceOfficer(t);
    case Robot => CarriesRobot(t);
    case Scientist => CarriesScientist(t);
    case Shopkeeper => CarriesShopkeeper(t);
    case Soldier => CarriesSoldier(t);
    case Teacher => CarriesTeacher(t);
    case Tourist => CarriesTourist(t);
    case Writer => CarriesWriter(t);
    case ZooKeeper => CarriesZooKeeper(t);
  }

  /** Balanced incidence: every tag sits on exactly four cards, namely the
      four different members of Carriers(t). */
  lemma EveryTagOnFourCards(t: Attribute, c: CitizenCode)
    ensures Distinct(Carriers(t))
    ensures t in Tags(c) <==> In(c, Carriers(t))
  {
    CarriersDistinct(t);
    Carries(c, t);
  }

  /** `c` is the only value that `h1` and `h2` have in common, if any. */
  predicate MeetOnlyAt<C(==)>(h1: Four<C>, h2: Four<C>, c: C)
  {
    (In(h1.a, h2) ==> h1.a == c) && (In(h1.b, h2) ==> h1.b == c) &&
    (In(h1.c, h2) ==> h1.c == c) && (In(h1.d, h2) ==> h1.d == c)
  }

  /** The tag lists `a` and `b` have at most one tag in common. */
  predicate ShareAtMostOne<T(==)>(a: seq<T>, b: seq<T>)
  {
    forall t1, t2 :: t1 in a && t1 in b && t2 in a && t2 in b ==> t1 == t2
  }

  /** The counting argument, on abstract data. Card `c` carries
      `t0`..`t3`, whose carriers are `h0`..`h3`, and `b` lists the tags of
      another card `d`. If no two of the four carrier sets meet anywhere
      but at `c`, then `d` is in at most one of them, so `b` holds at most
      one of `t0`..`t3`. */
  lemma AtMostOneCommon<C, T>(c: C, d: C, t0: T, t1: T, t2: T, t3: T, b: seq<T>,
                              h0: Four<C>, h1: Four<C>, h2: Four<C>, h3: Four<C>)
    requires c != d
    requires (t0 in b <==> In(d, h0)) && (t1 in b <==> In(d, h1))
    requires (t2 in b <==> In(d, h2)) && (t3 in b <==> In(d, h3))
    requires MeetOnlyAt(h0, h1, c) && MeetOnlyAt(h0, h2, c) && MeetOnlyAt(h0, h3, c)
    requires MeetOnlyAt(h1, h2, c) && MeetOnlyAt(h1, h3, c) && MeetOnlyAt(h2, h3, c)
    ensures ShareAtMostOne([t0, t1, t2, t3], b)
  {
  }

  // Two lemmas per card `c`. The first applies the counting argument to
  // the carriers of the tags of `c`, with the other card's tags left
  // abstract; the second supplies those tags through Carries.

  lemma SharedWithActor(d: CitizenCode, b: seq<Attribute>)
    requires d != Actor
    requires (Theatre in b <==> In(d, TheatreCarriers)) && (Road in b <==> In(d, RoadCarriers))
    requires (Health in b <==> In(d, HealthCarriers)) && (Exploration in b <==> In(d, ExplorationCarriers))
    ensures ShareAtMostOne([Theatre, Road, Health, Exploration], b)
  {
    AtMostOneCommon(Actor, d, Theatre, Road, Health, Exploration, b, TheatreCarriers, RoadCarriers, HealthCarriers, ExplorationCarriers);
  }

  lemma SharesAtMostOneActor(d: CitizenCode)
    requires d != Actor
    ensures ShareAtMostOne(Tags(Actor), Tags(d))
  {
    Carries(d, Theatre); Carries(d, Road); Carries(d, Health); Carries(d, Exploration);
    CarriersOfTheatre(); CarriersOfRoad(); CarriersOfHealth(); CarriersOfExploration();
    TagsOfActor();
    SharedWithActor(d, Tags(d));
  }

  lemma SharedWithArchitect(d: CitizenCode, b: seq<Attribute>)
    requires d != Architect
    requires (Landmark in b <==> In(d, LandmarkCarriers)) && (History in b <==> In(d, HistoryCarriers))
    requires (Art in b <==> In(d, ArtCarriers)) && (Electricity in b <==> In(d, ElectricityCarriers))
    ensures ShareAtMostOne([Landmark, History, Art, Electricity], b)
  {
    AtMostOneCommon(Architect, d, Landmark, History, Art, Electricity, b, LandmarkCarriers, HistoryCarriers, ArtCarriers, ElectricityCarriers);
  }

  lemma SharesAtMostOneArchitect(d: CitizenCode)
    requires d != Architect
    ensures ShareAtMostOne(Tags(Architect), Tags(d))
  {
    Carries(d, Landmark); Carries(d, History); Carries(d, Art); Carries(d, Electricity);
    CarriersOfLandmark(); CarriersOfHistory(); CarriersOfArt(); CarriersOfElectricity();
    TagsOfArchitect();
    SharedWithArchitect(d, Tags(d));
  }

  lemma SharedWithArtist(d: CitizenCode, b: seq<Attribute>)
    requires d != Artist
    requires (Art in b <==> In(d, ArtCarriers)) && (Theatre in b <==> In(d, TheatreCarriers))
    requires (Commerce in b <==> In(d, CommerceCarriers)) && (Nature in b <==> In(d, NatureCarriers))
    ensures ShareAtMostOne([Art, Theatre, Commerce, Nature], b)
  {
    AtMostOneCommon(Artist, d, Art, Theatre, Commerce, Nature, b, ArtCarriers, TheatreCarriers, CommerceCarriers, NatureCarriers);
  }

  lemma SharesAtMostOneArtist(d: CitizenCode)
    requires d != Artist
    ensures ShareAtMostOne(Tags(Artist), Tags(d))
  {
    Carries(d, Art); Carries(d, Theatre); Carries(d, Commerce); Carries(d, Nature);
    CarriersOfArt(); CarriersOfTheatre(); CarriersOfCommerce(); CarriersOfNature();
    TagsOfArtist();
    SharedWithArtist(d, Tags(d));
  }

  lemma SharedWithAstronaut(d: CitizenCode, b: seq<Attribute>)
    requires d != Astronaut
    requires (Space in b <==> In(d, SpaceCarriers)) && (Military in b <==> In(d, MilitaryCarriers))
    requires (Train in b <==> In(d, TrainCarriers)) && (Technology in b <==> In(d, TechnologyCarriers))
    ensures ShareAtMostOne([Space, Military, Train, Technology], b)
  {
    AtMostOneCommon(Astronaut, d, Space, Military, Train, Technology, b, SpaceCarriers, MilitaryCarriers, TrainCarriers, TechnologyCarriers);
  }

  lemma SharesAtMostOneAstronaut(d: CitizenCode)
    requires d != Astronaut
    ensures ShareAtMostOne(Tags(Astronaut), Tags(d))
  {
    Carries(d, Space); Carries(d, Military); Carries(d, Train); Carries(d, Technology);
    CarriersOfSpace(); CarriersOfMilitary(); CarriersOfTrain(); CarriersOfTechnology();
    TagsOfAstronaut();
    SharedWithAstronaut(d, Tags(d));
  }

  lemma SharedWithAthlete(d: CitizenCode, b: seq<Attribute>)
    requires d != Athlete
    requires (Sport in b <==> In(d, SportCarriers)) && (Health in b <==> In(d, HealthCarriers))
    requires (Nature in b <==> In(d, NatureCarriers)) && (Food in b <==> In(d, FoodCarriers))
    ensures ShareAtMostOne([Sport, Health, Nature, Food], b)
  {
    AtMostOneCommon(Athlete, d, Sport, Health, Nature, Food, b, SportCarriers, HealthCarriers, NatureCarriers, FoodCarriers);
  }

  lemma SharesAtMostOneAthlete(d: CitizenCode)
    requires d != Athlete
    ensures ShareAtMostOne(Tags(Athlete), Tags(d))
  {
    Carries(d, Sport); Carries(d, Health); Carries(d, Nature); Carries(d, Food);
    CarriersOfSport(); CarriersOfHealth(); CarriersOfNature(); CarriersOfFood();
    TagsOfAthlete();
    SharedWithAthlete(d, Tags(d));
  }

  lemma SharedWithBanker(d: CitizenCode, b: seq<Attribute>)
    requires d != Banker
    requires (Finance in b <==> In(d, FinanceCarriers)) && (Train in b <==> In(d, TrainCarriers))
    requires (Law in b <==> In(d, LawCarriers)) && (Government in b <==> In(d, GovernmentCarriers))
    ensures ShareAtMostOne([Finance, Train, Law, Government], b)
  {
    AtMostOneCommon(Banker, d, Finance, Train, Law, Government, b, FinanceCarriers, TrainCarriers, LawCarriers, GovernmentCarriers);
  }

  lemma SharesAtMostOneBanker(d: CitizenCode)
    requires d != Banker
    ensures ShareAtMostOne(Tags(Banker), Tags(d))
  {
    Carries(d, Finance); Carries(d, Train); Carries(d, Law); Carries(d, Government);
    CarriersOfFinance(); CarriersOfTrain(); CarriersOfLaw(); CarriersOfGovernment();
    TagsOfBanker();
    SharedWithBanker(d, Tags(d));
  }

  lemma SharedWithCaptain(d: CitizenCode, b: seq<Attribute>)
    requires d != Captain
    requires (Sea in b <==> In(d, SeaCarriers)) && (Resources in b <==> In(d, ResourcesCarriers))
    requires (Dining in b <==> In(d, DiningCarriers)) && (Mathematics in b <==> In(d, MathematicsCarriers))
    ensures ShareAtMostOne([Sea, Resources, Dining, Mathematics], b)
  {
    AtMostOneCommon(Captain, d, Sea, Resources, Dining, Mathematics, b, SeaCarriers, ResourcesCarriers, DiningCarriers, MathematicsCarriers);
  }

  lemma SharesAtMostOneCaptain(d: CitizenCode)
    requires d != Captain
    ensures ShareAtMostOne(Tags(Captain), Tags(d))
  {
    Carries(d, Sea); Carries(d, Resources); Carries(d, Dining); Carries(d, Mathematics);
    CarriersOfSea(); CarriersOfResources(); CarriersOfDining(); CarriersOfMathematics();
    TagsOfCaptain();
    SharedWithCaptain(d, Tags(d));
  }

  lemma SharedWithChef(d: CitizenCode, b: seq<Attribute>)
    requires d != Chef
    requires (Dining in b <==> In(d, DiningCarriers)) && (Food in b <==> In(d, FoodCarriers))
    requires (Tourism in b <==> In(d, TourismCarriers)) && (Fire in b <==> In(d, FireCarriers))
    ensures ShareAtMostOne([Dining, Food, Tourism, Fire], b)
  {
    AtMostOneCommon(Chef, d, Dining, Food, Tourism, Fire, b, DiningCarriers, FoodCarriers, TourismCarriers, FireCarriers);
  }

  lemma SharesAtMostOneChef(d: CitizenCode)
    requires d != Chef
    ensures ShareAtMostOne(Tags(Chef), Tags(d))
  {
    Carries(d, Dining); Carries(d, Food); Carries(d, Tourism); Carries(d, Fire);
    CarriersOfDining(); CarriersOfFood(); CarriersOfTourism(); CarriersOfFire();
    TagsOfChef();
    SharedWithChef(d, Tags(d));
  }

  lemma SharedWithCryptid(d: CitizenCode, b: seq<Attribute>)
    requires d != Cryptid
    requires (Mysticism in b <==> In(d, MysticismCarriers)) && (Thrill in b <==> In(d, ThrillCarriers))
    requires (Exploration in b <==> In(d, ExplorationCarriers)) && (Mathematics in b <==> In(d, MathematicsCarriers))
    ensures ShareAtMostOne([Mysticism, Thrill, Exploration, Mathematics], b)
  {
    AtMostOneCommon(Cryptid, d, Mysticism, Thrill, Exploration, Mathematics, b, MysticismCarriers, ThrillCarriers, ExplorationCarriers, MathematicsCarriers);
  }

  lemma SharesAtMostOneCryptid(d: CitizenCode)
    requires d != Cryptid
    ensures ShareAtMostOne(Tags(Cryptid), Tags(d))
  {
    Carries(d, Mysticism); Carries(d, Thrill); Carries(d, Exploration); Carries(d, Mathematics);
    CarriersOfMysticism(); CarriersOfThrill(); CarriersOfExploration(); CarriersOfMathematics();
    TagsOfCryptid();
    SharedWithCryptid(d, Tags(d));
  }

  lemma SharedWithDaredevil(d: CitizenCode, b: seq<Attribute>)
    requires d != Daredevil
    requires (Thrill in b <==> In(d, ThrillCarriers)) && (Theatre in b <==> In(d, TheatreCarriers))
    requires (Landmark in b <==> In(d, LandmarkCarriers)) && (Sport in b <==> In(d, SportCarriers))
    ensures ShareAtMostOne([Thrill, Theatre, Landmark, Sport], b)
  {
    AtMostOneCommon(Daredevil, d, Thrill, Theatre, Landmark, Sport, b, ThrillCarriers, TheatreCarriers, LandmarkCarriers, SportCarriers);
  }

  lemma SharesAtMostOneDaredevil(d: CitizenCode)
    requires d != Daredevil
    ensures ShareAtMostOne(Tags(Daredevil), Tags(d))
  {
    Carries(d, Thrill); Carries(d, Theatre); Carries(d, Landmark); Carries(d, Sport);
    CarriersOfThrill(); CarriersOfTheatre(); CarriersOfLandmark(); CarriersOfSport();
    TagsOfDaredevil();
    SharedWithDaredevil(d, Tags(d));
  }

  lemma SharedWithDoctor(d: CitizenCode, b: seq<Attribute>)
    requires d != Doctor
    requires (Health in b <==> In(d, HealthCarriers)) && (Residency in b <==> In(d, ResidencyCarriers))
    requires (Air in b <==> In(d, AirCarriers)) && (Office in b <==> In(d, OfficeCarriers))
    ensures ShareAtMostOne([Health, Residency, Air, Office], b)
  {
    AtMostOneCommon(Doctor, d, Health, Residency, Air, Office, b, HealthCarriers, ResidencyCarriers, AirCarriers, OfficeCarriers);
  }

  lemma SharesAtMostOneDoctor(d: CitizenCode)
    requires d != Doctor
    ensures ShareAtMostOne(Tags(Doctor), Tags(d))
  {
    Carries(d, Health); Carries(d, Residency); Carries(d, Air); Carries(d, Office);
    CarriersOfHealth(); CarriersOfResidency(); CarriersOfAir(); CarriersOfOffice();
    TagsOfDoctor();
    SharedWithDoctor(d, Tags(d));
  }

  lemma SharedWithDriver(d: CitizenCode, b: seq<Attribute>)
    requires d != Driver
    requires (Road in b <==> In(d, RoadCarriers)) && (Thrill in b <==> In(d, ThrillCarriers))
    requires (Music in b <==> In(d, MusicCarriers)) && (Law in b <==> In(d, LawCarriers))
    ensures ShareAtMostOne([Road, Thrill, Music, Law], b)
  {
    AtMostOneCommon(Driver, d, Road, Thrill, Music, Law, b, RoadCarriers, ThrillCarriers, MusicCarriers, LawCarriers);
  }

  lemma SharesAtMostOneDriver(d: CitizenCode)
    requires d != Driver
    ensures ShareAtMostOne(Tags(Driver), Tags(d))
  {
    Carries(d, Road); Carries(d, Thrill); Carries(d, Music); Carries(d, Law);
    CarriersOfRoad(); CarriersOfThrill(); CarriersOfMusic(); CarriersOfLaw();
    TagsOfDriver();
    SharedWithDriver(d, Tags(d));
  }

  lemma SharedWithEngineer(d: CitizenCode, b: seq<Attribute>)
    requires d != Engineer
    requires (Electricity in b <==> In(d, ElectricityCarriers)) && (Technology in b <==> In(d, TechnologyCarriers))
    requires (Industry in b <==> In(d, IndustryCarriers)) && (Office in b <==> In(d, OfficeCarriers))
    ensures ShareAtMostOne([Electricity, Technology, Industry, Office], b)
  {
    AtMostOneCommon(Engineer, d, Electricity, Technology, Industry, Office, b, ElectricityCarriers, TechnologyCarriers, IndustryCarriers, OfficeCarriers);
  }

  lemma SharesAtMostOneEngineer(d: CitizenCode)
    requires d != Engineer
    ensures ShareAtMostOne(Tags(Engineer), Tags(d))
  {
    Carries(d, Electricity); Carries(d, Technology); Carries(d, Industry); Carries(d, Office);
    CarriersOfElectricity(); CarriersOfTechnology(); CarriersOfIndustry(); CarriersOfOffice();
    TagsOfEngineer();
    SharedWithEngineer(d, Tags(d));
  }

  lemma SharedWithExplorer(d: CitizenCode, b: seq<Attribute>)
    requires d != Explorer
    requires (Exploration in b <==> In(d, ExplorationCarriers)) && (History in b <==> In(d, HistoryCarriers))
    requires (Sea in b <==> In(d, SeaCarriers)) && (Space in b <==> In(d, SpaceCarriers))
    ensures ShareAtMostOne([Exploration, History, Sea, Space], b)
  {
    AtMostOneCommon(Explorer, d, Exploration, History, Sea, Space, b, ExplorationCarriers, HistoryCarriers, SeaCarriers, SpaceCarriers);
  }

  lemma SharesAtMostOneExplorer(d: CitizenCode)
    requires d != Explorer
    ensures ShareAtMostOne(Tags(Explorer), Tags(d))
  {
    Carries(d, Exploration); Carries(d, History); Carries(d, Sea); Carries(d, Space);
    CarriersOfExploration(); CarriersOfHistory(); CarriersOfSea(); CarriersOfSpace();
    TagsOfExplorer();
    SharedWithExplorer(d, Tags(d));
  }

  lemma SharedWithFactoryWorker(d: CitizenCode, b: seq<Attribute>)
    requires d != FactoryWorker
    requires (Industry in b <==> In(d, IndustryCarriers)) && (Residency in b <==> In(d, ResidencyCarriers))
    requires (Space in b <==> In(d, SpaceCarriers)) && (Robotics in b <==> In(d, RoboticsCarriers))
    ensures ShareAtMostOne([Industry, Residency, Space, Robotics], b)
  {
    AtMostOneCommon(FactoryWorker, d, Industry, Residency, Space, Robotics, b, IndustryCarriers, ResidencyCarriers, SpaceCarriers, RoboticsCarriers);
  }

  lemma SharesAtMostOneFactoryWorker(d: CitizenCode)
    requires d != FactoryWorker
    ensures ShareAtMostOne(Tags(FactoryWorker), Tags(d))
  {
    Carries(d, Industry); Carries(d, Residency); Carries(d, Space); Carries(d, Robotics);
    CarriersOfIndustry(); CarriersOfResidency(); CarriersOfSpace(); CarriersOfRobotics();
    TagsOfFactoryWorker();
    SharedWithFactoryWorker(d, Tags(d));
  }

  lemma SharedWithFarmer(d: CitizenCode, b: seq<Attribute>)
    requires d != Farmer
    requires (Food in b <==> In(d, FoodCarriers)) && (Train in b <==> In(d, TrainCarriers))
    requires (Animals in b <==> In(d, AnimalsCarriers)) && (Exploration in b <==> In(d, ExplorationCarriers))
    ensures ShareAtMostOne([Food, Train, Animals, Exploration], b)
  {
    AtMostOneCommon(Farmer, d, Food, Train, Animals, Exploration, b, FoodCarriers, TrainCarriers, AnimalsCarriers, ExplorationCarriers);
  }

  lemma SharesAtMostOneFarmer(d: CitizenCode)
    requires d != Farmer
    ensures ShareAtMostOne(Tags(Farmer), Tags(d))
  {
    Carries(d, Food); Carries(d, Train); Carries(d, Animals); Carries(d, Exploration);
    CarriersOfFood(); CarriersOfTrain(); CarriersOfAnimals(); CarriersOfExploration();
    TagsOfFarmer();
    SharedWithFarmer(d, Tags(d));
  }

  lemma SharedWithFireFighter(d: CitizenCode, b: seq<Attribute>)
    requires d != FireFighter
    requires (Fire in b <==> In(d, FireCarriers)) && (Health in b <==> In(d, HealthCarriers))
    requires (Industry in b <==> In(d, IndustryCarriers)) && (Commerce in b <==> In(d, CommerceCarriers))
    ensures ShareAtMostOne([Fire, Health, Industry, Commerce], b)
  {
    AtMostOneCommon(FireFighter, d, Fire, Health, Industry, Commerce, b, FireCarriers, HealthCarriers, IndustryCarriers, CommerceCarriers);
  }

  lemma SharesAtMostOneFireFighter(d: CitizenCode)
    requires d != FireFighter
    ensures ShareAtMostOne(Tags(FireFighter), Tags(d))
  {
    Carries(d, Fire); Carries(d, Health); Carries(d, Industry); Carries(d, Commerce);
    CarriersOfFire(); CarriersOfHealth(); CarriersOfIndustry(); CarriersOfCommerce();
    TagsOfFireFighter();
    SharedWithFireFighter(d, Tags(d));
  }

  lemma SharedWithGuru(d: CitizenCode, b: seq<Attribute>)
    requires d != Guru
    requires (Mysticism in b <==> In(d, MysticismCarriers)) && (Education in b <==> In(d, EducationCarriers))
    requires (Finance in b <==> In(d, FinanceCarriers)) && (Military in b <==> In(d, MilitaryCarriers))
    ensures ShareAtMostOne([Mysticism, Education, Finance, Military], b)
  {
    AtMostOneCommon(Guru, d, Mysticism, Education, Finance, Military, b, MysticismCarriers, EducationCarriers, FinanceCarriers, MilitaryCarriers);
  }

  lemma SharesAtMostOneGuru(d: CitizenCode)
    requires d != Guru
    ensures ShareAtMostOne(Tags(Guru), Tags(d))
  {
    Carries(d, Mysticism); Carries(d, Education); Carries(d, Finance); Carries(d, Military);
    CarriersOfMysticism(); CarriersOfEducation(); CarriersOfFinance(); CarriersOfMilitary();
    TagsOfGuru();
    SharedWithGuru(d, Tags(d));
  }

  lemma SharedWithHistorian(d: CitizenCode, b: seq<Attribute>)
    requires d != Historian
    requires (History in b <==> In(d, HistoryCarriers)) && (Books in b <==> In(d, BooksCarriers))
    requires (Theatre in b <==> In(d, TheatreCarriers)) && (Science in b <==> In(d, ScienceCarriers))
    ensures ShareAtMostOne([History, Books, Theatre, Science], b)
  {
    AtMostOneCommon(Historian, d, History, Books, Theatre, Science, b, HistoryCarriers, BooksCarriers, TheatreCarriers, ScienceCarriers);
  }

  lemma SharesAtMostOneHistorian(d: CitizenCode)
    requires d != Historian
    ensures ShareAtMostOne(Tags(Historian), Tags(d))
  {
    Carries(d, History); Carries(d, Books); Carries(d, Theatre); Carries(d, Science);
    CarriersOfHistory(); CarriersOfBooks(); CarriersOfTheatre(); CarriersOfScience();
    TagsOfHistorian();
    SharedWithHistorian(d, Tags(d));
  }

  lemma SharedWithHomeOwner(d: CitizenCode, b: seq<Attribute>)
    requires d != HomeOwner
    requires (Residency in b <==> In(d, ResidencyCarriers)) && (Dining in b <==> In(d, DiningCarriers))
    requires (Road in b <==> In(d, RoadCarriers)) && (Finance in b <==> In(d, FinanceCarriers))
    ensures ShareAtMostOne([Residency, Dining, Road, Finance], b)
  {
    AtMostOneCommon(HomeOwner, d, Residency, Dining, Road, Finance, b, ResidencyCarriers, DiningCarriers, RoadCarriers, FinanceCarriers);
  }

  lemma SharesAtMostOneHomeOwner(d: CitizenCode)
    requires d != HomeOwner
    ensures ShareAtMostOne(Tags(HomeOwner), Tags(d))
  {
    Carries(d, Residency); Carries(d, Dining); Carries(d, Road); Carries(d, Finance);
    CarriersOfResidency(); CarriersOfDining(); CarriersOfRoad(); CarriersOfFinance();
    TagsOfHomeOwner();
    SharedWithHomeOwner(d, Tags(d));
  }

  lemma SharedWithInventor(d: CitizenCode, b: seq<Attribute>)
    requires d != Inventor
    requires (Technology in b <==> In(d, TechnologyCarriers)) && (Science in b <==> In(d, ScienceCarriers))
    requires (Sea in b <==> In(d, SeaCarriers)) && (Government in b <==> In(d, GovernmentCarriers))
    ensures ShareAtMostOne([Technology, Science, Sea, Government], b)
  {
    AtMostOneCommon(Inventor, d, Technology, Science, Sea, Government, b, TechnologyCarriers, ScienceCarriers, SeaCarriers, GovernmentCarriers);
  }

  lemma SharesAtMostOneInventor(d: CitizenCode)
    requires d != Inventor
    ensures ShareAtMostOne(Tags(Inventor), Tags(d))
  {
    Carries(d, Technology); Carries(d, Science); Carries(d, Sea); Carries(d, Government);
    CarriersOfTechnology(); CarriersOfScience(); CarriersOfSea(); CarriersOfGovernment();
    TagsOfInventor();
    SharedWithInventor(d, Tags(d));
  }

  lemma SharedWithMathematician(d: CitizenCode, b: seq<Attribute>)
    requires d != Mathematician
    requires (Mathematics in b <==> In(d, MathematicsCarriers)) && (Education in b <==> In(d, EducationCarriers))
    requires (Robotics in b <==> In(d, RoboticsCarriers)) && (Technology in b <==> In(d, TechnologyCarriers))
    ensures ShareAtMostOne([Mathematics, Education, Robotics, Technology], b)
  {
    AtMostOneCommon(Mathematician, d, Mathematics, Education, Robotics, Technology, b, MathematicsCarriers, EducationCarriers, RoboticsCarriers, TechnologyCarriers);
  }

  lemma SharesAtMostOneMathematician(d: CitizenCode)
    requires d != Mathematician
    ensures ShareAtMostOne(Tags(Mathematician), Tags(d))
  {
    Carries(d, Mathematics); Carries(d, Education); Carries(d, Robotics); Carries(d, Technology);
    CarriersOfMathematics(); CarriersOfEducation(); CarriersOfRobotics(); CarriersOfTechnology();
    TagsOfMathematician();
    SharedWithMathematician(d, Tags(d));
  }

  lemma SharedWithMayor(d: CitizenCode, b: seq<Attribute>)
    requires d != Mayor
    requires (Government in b <==> In(d, GovernmentCarriers)) && (Tourism in b <==> In(d, TourismCarriers))
    requires (Residency in b <==> In(d, ResidencyCarriers)) && (Military in b <==> In(d, MilitaryCarriers))
    ensures ShareAtMostOne([Government, Tourism, Residency, Military], b)
  {
    AtMostOneCommon(Mayor, d, Government, Tourism, Residency, Military, b, GovernmentCarriers, TourismCarriers, ResidencyCarriers, MilitaryCarriers);
  }

  lemma SharesAtMostOneMayor(d: CitizenCode)
    requires d != Mayor
    ensures ShareAtMostOne(Tags(Mayor), Tags(d))
  {
    Carries(d, Government); Carries(d, Tourism); Carries(d, Residency); Carries(d, Military);
    CarriersOfGovernment(); CarriersOfTourism(); CarriersOfResidency(); CarriersOfMilitary();
    TagsOfMayor();
    SharedWithMayor(d, Tags(d));
  }

  lemma SharedWithMiner(d: CitizenCode, b: seq<Attribute>)
    requires d != Miner
    requires (Resources in b <==> In(d, ResourcesCarriers)) && (Industry in b <==> In(d, IndustryCarriers))
    requires (Nature in b <==> In(d, NatureCarriers)) && (Landmark in b <==> In(d, LandmarkCarriers))
    ensures ShareAtMostOne([Resources, Industry, Nature, Landmark], b)
  {
    AtMostOneCommon(Miner, d, Resources, Industry, Nature, Landmark, b, ResourcesCarriers, IndustryCarriers, NatureCarriers, LandmarkCarriers);
  }

  lemma SharesAtMostOneMiner(d: CitizenCode)
    requires d != Miner
    ensures ShareAtMostOne(Tags(Miner), Tags(d))
  {
    Carries(d, Resources); Carries(d, Industry); Carries(d, Nature); Carries(d, Landmark);
    CarriersOfResources(); CarriersOfIndustry(); CarriersOfNature(); CarriersOfLandmark();
    TagsOfMiner();
    SharedWithMiner(d, Tags(d));
  }

  lemma SharedWithMusician(d: CitizenCode, b: seq<Attribute>)
    requires d != Musician
    requires (Music in b <==> In(d, MusicCarriers)) && (Art in b <==> In(d, ArtCarriers))
    requires (Air in b <==> In(d, AirCarriers)) && (Education in b <==> In(d, EducationCarriers))
    ensures ShareAtMostOne([Music, Art, Air, Education], b)
  {
    AtMostOneCommon(Musician, d, Music, Art, Air, Education, b, MusicCarriers, ArtCarriers, AirCarriers, EducationCarriers);
  }

  lemma SharesAtMostOneMusician(d: CitizenCode)
    requires d != Musician
    ensures ShareAtMostOne(Tags(Musician), Tags(d))
  {
    Carries(d, Music); Carries(d, Art); Carries(d, Air); Carries(d, Education);
    CarriersOfMusic(); CarriersOfArt(); CarriersOfAir(); CarriersOfEducation();
    TagsOfMusician();
    SharedWithMusician(d, Tags(d));
  }

  lemma SharedWithMystic(d: CitizenCode, b: seq<Attribute>)
    requires d != Mystic
    requires (Mysticism in b <==> In(d, MysticismCarriers)) && (Electricity in b <==> In(d, ElectricityCarriers))
    requires (Fire in b <==> In(d, FireCarriers)) && (Animals in b <==> In(d, AnimalsCarriers))
    ensures ShareAtMostOne([Mysticism, Electricity, Fire, Animals], b)
  {
    AtMostOneCommon(Mystic, d, Mysticism, Electricity, Fire, Animals, b, MysticismCarriers, ElectricityCarriers, FireCarriers, AnimalsCarriers);
  }

  lemma SharesAtMostOneMystic(d: CitizenCode)
    requires d != Mystic
    ensures ShareAtMostOne(Tags(Mystic), Tags(d))
  {
    Carries(d, Mysticism); Carries(d, Electricity); Carries(d, Fire); Carries(d, Animals);
    CarriersOfMysticism(); CarriersOfElectricity(); CarriersOfFire(); CarriersOfAnimals();
    TagsOfMystic();
    SharedWithMystic(d, Tags(d));
  }

  lemma SharedWithOfficeWorker(d: CitizenCode, b: seq<Attribute>)
    requires d != OfficeWorker
    requires (Office in b <==> In(d, OfficeCarriers)) && (Music in b <==> In(d, MusicCarriers))
    requires (Train in b <==> In(d, TrainCarriers)) && (Books in b <==> In(d, BooksCarriers))
    ensures ShareAtMostOne([Office, Music, Train, Books], b)
  {
    AtMostOneCommon(OfficeWorker, d, Office, Music, Train, Books, b, OfficeCarriers, MusicCarriers, TrainCarriers, BooksCarriers);
  }

  lemma SharesAtMostOneOfficeWorker(d: CitizenCode)
    requires d != OfficeWorker
    ensures ShareAtMostOne(Tags(OfficeWorker), Tags(d))
  {
    Carries(d, Office); Carries(d, Music); Carries(d, Train); Carries(d, Books);
    CarriersOfOffice(); CarriersOfMusic(); CarriersOfTrain(); CarriersOfBooks();
    TagsOfOfficeWorker();
    SharedWithOfficeWorker(d, Tags(d));
  }

  lemma SharedWithPilot(d: CitizenCode, b: seq<Attribute>)
    requires d != Pilot
    requires (Air in b <==> In(d, AirCarriers)) && (Fire in b <==> In(d, FireCarriers))
    requires (Thrill in b <==> In(d, ThrillCarriers)) && (Resources in b <==> In(d, ResourcesCarriers))
    ensures ShareAtMostOne([Air, Fire, Thrill, Resources], b)
  {
    AtMostOneCommon(Pilot, d, Air, Fire, Thrill, Resources, b, AirCarriers, FireCarriers, ThrillCarriers, ResourcesCarriers);
  }

  lemma SharesAtMostOnePilot(d: CitizenCode)
    requires d != Pilot
    ensures ShareAtMostOne(Tags(Pilot), Tags(d))
  {
    Carries(d, Air); Carries(d, Fire); Carries(d, Thrill); Carries(d, Resources);
    CarriersOfAir(); CarriersOfFire(); CarriersOfThrill(); CarriersOfResources();
    TagsOfPilot();
    SharedWithPilot(d, Tags(d));
  }

  lemma SharedWithPoliceOfficer(d: CitizenCode, b: seq<Attribute>)
    requires d != PoliceOfficer
    requires (Law in b <==> In(d, LawCarriers)) && (Commerce in b <==> In(d, CommerceCarriers))
    requires (Animals in b <==> In(d, AnimalsCarriers)) && (Sea in b <==> In(d, SeaCarriers))
    ensures ShareAtMostOne([Law, Commerce, Animals, Sea], b)
  {
    AtMostOneCommon(PoliceOfficer, d, Law, Commerce, Animals, Sea, b, LawCarriers, CommerceCarriers, AnimalsCarriers, SeaCarriers);
  }

  lemma SharesAtMostOnePoliceOfficer(d: CitizenCode)
    requires d != PoliceOfficer
    ensures ShareAtMostOne(Tags(PoliceOfficer), Tags(d))
  {
    Carries(d, Law); Carries(d, Commerce); Carries(d, Animals); Carries(d, Sea);
    CarriersOfLaw(); CarriersOfCommerce(); CarriersOfAnimals(); CarriersOfSea();
    TagsOfPoliceOfficer();
    SharedWithPoliceOfficer(d, Tags(d));
  }

  lemma SharedWithRobot(d: CitizenCode, b: seq<Attribute>)
    requires d != Robot
    requires (Robotics in b <==> In(d, RoboticsCarriers)) && (Science in b <==> In(d, ScienceCarriers))
    requires (Dining in b <==> In(d, DiningCarriers)) && (Electricity in b <==> In(d, ElectricityCarriers))
    ensures ShareAtMostOne([Robotics, Science, Dining, Electricity], b)
  {
    AtMostOneCommon(Robot, d, Robotics, Science, Dining, Electricity, b, RoboticsCarriers, ScienceCarriers, DiningCarriers, ElectricityCarriers);
  }

  lemma SharesAtMostOneRobot(d: CitizenCode)
    requires d != Robot
    ensures ShareAtMostOne(Tags(Robot), Tags(d))
  {
    Carries(d, Robotics); Carries(d, Science); Carries(d, Dining); Carries(d, Electricity);
    CarriersOfRobotics(); CarriersOfScience(); CarriersOfDining(); CarriersOfElectricity();
    TagsOfRobot();
    SharedWithRobot(d, Tags(d));
  }

  lemma SharedWithScientist(d: CitizenCode, b: seq<Attribute>)
    requires d != Scientist
    requires (Science in b <==> In(d, ScienceCarriers)) && (Space in b <==> In(d, SpaceCarriers))
    requires (Sport in b <==> In(d, SportCarriers)) && (Mathematics in b <==> In(d, MathematicsCarriers))
    ensures ShareAtMostOne([Science, Space, Sport, Mathematics], b)
  {
    AtMostOneCommon(Scientist, d, Science, Space, Sport, Mathematics, b, ScienceCarriers, SpaceCarriers, SportCarriers, MathematicsCarriers);
  }

  lemma SharesAtMostOneScientist(d: CitizenCode)
    requires d != Scientist
    ensures ShareAtMostOne(Tags(Scientist), Tags(d))
  {
    Carries(d, Science); Carries(d, Space); Carries(d, Sport); Carries(d, Mathematics);
    CarriersOfScience(); CarriersOfSpace(); CarriersOfSport(); CarriersOfMathematics();
    TagsOfScientist();
    SharedWithScientist(d, Tags(d));
  }

  lemma SharedWithShopkeeper(d: CitizenCode, b: seq<Attribute>)
    requires d != Shopkeeper
    requires (Commerce in b <==> In(d, CommerceCarriers)) && (Music in b <==> In(d, MusicCarriers))
    requires (Food in b <==> In(d, FoodCarriers)) && (Finance in b <==> In(d, FinanceCarriers))
    ensures ShareAtMostOne([Commerce, Music, Food, Finance], b)
  {
    AtMostOneCommon(Shopkeeper, d, Commerce, Music, Food, Finance, b, CommerceCarriers, MusicCarriers, FoodCarriers, FinanceCarriers);
  }

  lemma SharesAtMostOneShopkeeper(d: CitizenCode)
    requires d != Shopkeeper
    ensures ShareAtMostOne(Tags(Shopkeeper), Tags(d))
  {
    Carries(d, Commerce); Carries(d, Music); Carries(d, Food); Carries(d, Finance);
    CarriersOfCommerce(); CarriersOfMusic(); CarriersOfFood(); CarriersOfFinance();
    TagsOfShopkeeper();
    SharedWithShopkeeper(d, Tags(d));
  }

  lemma SharedWithSoldier(d: CitizenCode, b: seq<Attribute>)
    requires d != Soldier
    requires (Military in b <==> In(d, MilitaryCarriers)) && (Resources in b <==> In(d, ResourcesCarriers))
    requires (Law in b <==> In(d, LawCarriers)) && (Robotics in b <==> In(d, RoboticsCarriers))
    ensures ShareAtMostOne([Military, Resources, Law, Robotics], b)
  {
    AtMostOneCommon(Soldier, d, Military, Resources, Law, Robotics, b, MilitaryCarriers, ResourcesCarriers, LawCarriers, RoboticsCarriers);
  }

  lemma SharesAtMostOneSoldier(d: CitizenCode)
    requires d != Soldier
    ensures ShareAtMostOne(Tags(Soldier), Tags(d))
  {
    Carries(d, Military); Carries(d, Resources); Carries(d, Law); Carries(d, Robotics);
    CarriersOfMilitary(); CarriersOfResources(); CarriersOfLaw(); CarriersOfRobotics();
    TagsOfSoldier();
    SharedWithSoldier(d, Tags(d));
  }

  lemma SharedWithTeacher(d: CitizenCode, b: seq<Attribute>)
    requires d != Teacher
    requires (Education in b <==> In(d, EducationCarriers)) && (Books in b <==> In(d, BooksCarriers))
    requires (Sport in b <==> In(d, SportCarriers)) && (Government in b <==> In(d, GovernmentCarriers))
    ensures ShareAtMostOne([Education, Books, Sport, Government], b)
  {
    AtMostOneCommon(Teacher, d, Education, Books, Sport, Government, b, EducationCarriers, BooksCarriers, SportCarriers, GovernmentCarriers);
  }

  lemma SharesAtMostOneTeacher(d: CitizenCode)
    requires d != Teacher
    ensures ShareAtMostOne(Tags(Teacher), Tags(d))
  {
    Carries(d, Education); Carries(d, Books); Carries(d, Sport); Carries(d, Government);
    CarriersOfEducation(); CarriersOfBooks(); CarriersOfSport(); CarriersOfGovernment();
    TagsOfTeacher();
    SharedWithTeacher(d, Tags(d));
  }

  lemma SharedWithTourist(d: CitizenCode, b: seq<Attribute>)
    requires d != Tourist
    requires (Tourism in b <==> In(d, TourismCarriers)) && (Air in b <==> In(d, AirCarriers))
    requires (Landmark in b <==> In(d, LandmarkCarriers)) && (Road in b <==> In(d, RoadCarriers))
    ensures ShareAtMostOne([Tourism, Air, Landmark, Road], b)
  {
    AtMostOneCommon(Tourist, d, Tourism, Air, Landmark, Road, b, TourismCarriers, AirCarriers, LandmarkCarriers, RoadCarriers);
  }

  lemma SharesAtMostOneTourist(d: CitizenCode)
    requires d != Tourist
    ensures ShareAtMostOne(Tags(Tourist), Tags(d))
  {
    Carries(d, Tourism); Carries(d, Air); Carries(d, Landmark); Carries(d, Road);
    CarriersOfTourism(); CarriersOfAir(); CarriersOfLandmark(); CarriersOfRoad();
    TagsOfTourist();
    SharedWithTourist(d, Tags(d));
  }

  lemma SharedWithWriter(d: CitizenCode, b: seq<Attribute>)
    requires d != Writer
    requires (Books in b <==> In(d, BooksCarriers)) && (Art in b <==> In(d, ArtCarriers))
    requires (Mysticism in b <==> In(d, MysticismCarriers)) && (Tourism in b <==> In(d, TourismCarriers))
    ensures ShareAtMostOne([Books, Art, Mysticism, Tourism], b)
  {
    AtMostOneCommon(Writer, d, Books, Art, Mysticism, Tourism, b, BooksCarriers, ArtCarriers, MysticismCarriers, TourismCarriers);
  }

  lemma SharesAtMostOneWriter(d: CitizenCode)
    requires d != Writer
    ensures ShareAtMostOne(Tags(Writer), Tags(d))
  {
    Carries(d, Books); Carries(d, Art); Carries(d, Mysticism); Carries(d, Tourism);
    CarriersOfBooks(); CarriersOfArt(); CarriersOfMysticism(); CarriersOfTourism();
    TagsOfWriter();
    SharedWithWriter(d, Tags(d));
  }

  lemma SharedWithZooKeeper(d: CitizenCode, b: seq<Attribute>)
    requires d != ZooKeeper
    requires (Animals in b <==> In(d, AnimalsCarriers)) && (Nature in b <==> In(d, NatureCarriers))
    requires (Office in b <==> In(d, OfficeCarriers)) && (History in b <==> In(d, HistoryCarriers))
    ensures ShareAtMostOne([Animals, Nature, Office, History], b)
  {
    AtMostOneCommon(ZooKeeper, d, Animals, Nature, Office, History, b, AnimalsCarriers, NatureCarriers, OfficeCarriers, HistoryCarriers);
  }

  lemma SharesAtMostOneZooKeeper(d: CitizenCode)
    requires d != ZooKeeper
    ensures ShareAtMostOne(Tags(ZooKeeper), Tags(d))
  {
    Carries(d, Animals); Carries(d, Nature); Carries(d, Office); Carries(d, History);
    CarriersOfAnimals(); CarriersOfNature(); CarriersOfOffice(); CarriersOfHistory();
    TagsOfZooKeeper();
    SharedWithZooKeeper(d, Tags(d));
  }

  /** The deck-design rule: two different cards share at most one tag. */
  lemma SharesAtMostOne(c: CitizenCode, d: CitizenCode)
    requires c != d
    ensures ShareAtMostOne(Tags(c), Tags(d))
  {
    match c
    case Actor => SharesAtMostOneActor(d);
    case Architect => SharesAtMostOneArchitect(d);
    case Artist => SharesAtMostOneArtist(d);
    case Astronaut => SharesAtMostOneAstronaut(d);
    case Athlete => SharesAtMostOneAthlete(d);
    case Banker => SharesAtMostOneBanker(d);
    case Captain => SharesAtMostOneCaptain(d);
    case Chef => SharesAtMostOneChef(d);
    case Cryptid => SharesAtMostOneCryptid(d);
    case Daredevil => SharesAtMostOneDaredevil(d);
    case Doctor => SharesAtMostOneDoctor(d);
    case Driver => SharesAtMostOneDriver(d);
    case Engineer => SharesAtMostOneEngineer(d);
    case Explorer => SharesAtMostOneExplorer(d);
    case FactoryWorker => SharesAtMostOneFactoryWorker(d);
    case Farmer => SharesAtMostOneFarmer(d);
    case FireFighter => SharesAtMostOneFireFighter(d);
    case Guru => SharesAtMostOneGuru(d);
    case Historian => SharesAtMostOneHistorian(d);
    case HomeOwner => SharesAtMostOneHomeOwner(d);
    case Inventor => SharesAtMostOneInventor(d);
    case Mathematician => SharesAtMostOneMathematician(d);
    case Mayor => SharesAtMostOneMayor(d);
    case Miner => SharesAtMostOneMiner(d);
    case Musician => SharesAtMostOneMusician(d);
    case Mystic => SharesAtMostOneMystic(d);
    case OfficeWorker => SharesAtMostOneOfficeWorker(d);
    case Pilot => SharesAtMostOnePilot(d);
    case PoliceOfficer => SharesAtMostOnePoliceOfficer(d);
    case Robot => SharesAtMostOneRobot(d);
    case Scientist => SharesAtMostOneScientist(d);
    case Shopkeeper => SharesAtMostOneShopkeeper(d);
    case Soldier => SharesAtMostOneSoldier(d);
    case Teacher => SharesAtMostOneTeacher(d);
    case Tourist => SharesAtMostOneTourist(d);
    case Writer => SharesAtMostOneWriter(d);
    case ZooKeeper => SharesAtMostOneZooKeeper(d);
  }

  /** Of the starting deck, exactly Home Owner and Doctor carry Residency. */
  lemma StartingResidencyCarriers(c: CitizenCode)
    requires c in StartingCitizens
    ensures Residency in Tags(c) <==> c == HomeOwner || c == Doctor
  {
    Carries(c, Residency);
    CarriersOfResidency();
  }
}
