/** The citizen deck data of src/citizens.ts: the CitizenCode enum, the
    Citizens table (a name and four attribute tags per card) and the
    starting deck. */
module Citizens {
  import opened Wrappers
  import opened Attributes

  /** The CitizenCode enum (src/citizens.ts:5-43), in declaration order. */
  datatype CitizenCode =
    Actor
    | Architect
    | Artist
    | Astronaut
    | Athlete
    | Banker
    | Captain
    | Chef
    | Cryptid
    | Daredevil
    | Doctor
    | Driver
    | Engineer
    | Explorer
    | FactoryWorker
    | Farmer
    | FireFighter
    | Guru
    | Historian
    | HomeOwner
    | Inventor
    | Mathematician
    | Mayor
    | Miner
    | Musician
    | Mystic
    | OfficeWorker
    | Pilot
    | PoliceOfficer
    | Robot
    | Scientist
    | Shopkeeper
    | Soldier
    | Teacher
    | Tourist
    | Writer
    | ZooKeeper

  /** The string value each CitizenCode member stands for; the Citizens
      object is keyed by these strings. */
  function Code(c: CitizenCode): string
  {
    match c
    case Actor => "7-11"
    case Architect => "0-04"
    case Artist => "9-28"
    case Astronaut => "1-24"
    case Athlete => "1-13"
    case Banker => "2-09"
    case Captain => "0-86"
    case Chef => "2-80"
    case Cryptid => "9-71"
    case Daredevil => "7-73"
    case Doctor => "4-56"
    case Driver => "0-13"
    case Engineer => "3-16"
    case Explorer => "7-27"
    case FactoryWorker => "6-80"
    case Farmer => "0-36"
    case FireFighter => "7-08"
    case Guru => "1-98"
    case Historian => "0-99"
    case HomeOwner => "9-04"
    case Inventor => "3-23"
    case Mathematician => "9-74"
    case Mayor => "9-87"
    case Miner => "2-41"
    case Musician => "1-57"
    case Mystic => "6-69"
    case OfficeWorker => "2-83"
    case Pilot => "9-18"
    case PoliceOfficer => "8-19"
    case Robot => "0-73"
    case Scientist => "7-56"
    case Shopkeeper => "4-28"
    case Soldier => "7-67"
    case Teacher => "4-76"
    case Tourist => "6-63"
    case Writer => "1-42"
    case ZooKeeper => "5-76"
  }

  /** The member whose string value is `s`, if any. */
  function FromCode(s: string): Option<CitizenCode>
  {
    match s
    case "7-11" => Some(Actor)
    case "0-04" => Some(Architect)
    case "9-28" => Some(Artist)
    case "1-24" => Some(Astronaut)
    case "1-13" => Some(Athlete)
    case "2-09" => Some(Banker)
    case "0-86" => Some(Captain)
    case "2-80" => Some(Chef)
    case "9-71" => Some(Cryptid)
    case "7-73" => Some(Daredevil)
    case "4-56" => Some(Doctor)
    case "0-13" => Some(Driver)
    case "3-16" => Some(Engineer)
    case "7-27" => Some(Explorer)
    case "6-80" => Some(FactoryWorker)
    case "0-36" => Some(Farmer)
    case "7-08" => Some(FireFighter)
    case "1-98" => Some(Guru)
    case "0-99" => Some(Historian)
    case "9-04" => Some(HomeOwner)
    case "3-23" => Some(Inventor)
    case "9-74" => Some(Mathematician)
    case "9-87" => Some(Mayor)
    case "2-41" => Some(Miner)
    case "1-57" => Some(Musician)
    case "6-69" => Some(Mystic)
    case "2-83" => Some(OfficeWorker)
    case "9-18" => Some(Pilot)
    case "8-19" => Some(PoliceOfficer)
    case "0-73" => Some(Robot)
    case "7-56" => Some(Scientist)
    case "4-28" => Some(Shopkeeper)
    case "7-67" => Some(Soldier)
    case "4-76" => Some(Teacher)
    case "6-63" => Some(Tourist)
    case "1-42" => Some(Writer)
    case "5-76" => Some(ZooKeeper)
    case _ => None
  }

  /** FromCode inverts Code: every member is found again from its string. */
  lemma CodeRoundTrip(c: CitizenCode)
    ensures FromCode(Code(c)) == Some(c)
  {
  }

  /** No two members share a string value, so no entry of the Citizens
      object literal overwrites another and the object has one entry per
      member. */
  lemma CodesDistinct(c1: CitizenCode, c2: CitizenCode)
    requires Code(c1) == Code(c2)
    ensures c1 == c2
  {
    CodeRoundTrip(c1);
    CodeRoundTrip(c2);
  }

  /** One entry of the Citizens table. */
  datatype Citizen = Citizen(name: string, attributes: seq<Attribute>)

  /** `s` has four entries and no entry twice. */
  predicate FourDistinct<T(==)>(s: seq<T>)
  {
    |s| == 4 && s[0] != s[1] && s[0] != s[2] && s[0] != s[3] && s[1] != s[2] && s[1] != s[3] && s[2] != s[3]
  }

  /** The Citizens table (src/citizens.ts:45-379). The object has an entry
      for every CitizenCode member, so it is a total function here, put
      together from the two columns Name and Tags below. Every card
      carries four different tags. */
  function Citizens(c: CitizenCode): (r: Citizen)
    ensures r.name == Name(c) && r.attributes == Tags(c)
    ensures FourDistinct(r.attributes)
  {
    EveryCitizenHasFourDistinctTags(c);
    Citizen(Name(c), Tags(c))
  }

  /** The `name` column of the Citizens table. */
  function Name(c: CitizenCode): string
  {
    match c
    case Actor => "Actor"
    case Architect => "Architect"
    case Artist => "Artist"
    case Astronaut => "Astronaut"
    case Athlete => "Athlete"
    case Banker => "Banker"
    case Captain => "Captain"
    case Chef => "Chef"
    case Cryptid => "Cryptid"
    case Daredevil => "Dare Devil"
    case Doctor => "Doctor"
    case Driver => "Driver"
    case Engineer => "Engineer"
    case Explorer => "Explorer"
    case FactoryWorker => "Factory Worker"
    case Farmer => "Farmer"
    case FireFighter => "Fire Fighter"
    case Guru => "Guru"
    case Historian => "Historian"
    case HomeOwner => "Home Owner"
    case Inventor => "Inventor"
    case Mathematician => "Mathematician"
    case Mayor => "Mayor"
    case Miner => "Miner"
    case Musician => "Musician"
    case Mystic => "Mystic"
    case OfficeWorker => "Office Worker"
    case Pilot => "Pilot"
    case PoliceOfficer => "Police Officer"
    case Robot => "Robot"
    case Scientist => "Scientist"
    case Shopkeeper => "Shopkeeper"
    case Soldier => "Soldier"
    case Teacher => "Teacher"
    case Tourist => "Tourist"
    case Writer => "Writer"
    case ZooKeeper => "Zoo Keeper"
  }

  /** The `attributes` column of the Citizens table. */
  function Tags(c: CitizenCode): seq<Attribute>
  {
    match c
    case Actor => [Theatre, Road, Health, Exploration]
    case Architect => [Landmark, History, Art, Electricity]
    case Artist => [Art, Theatre, Commerce, Nature]
    case Astronaut => [Space, Military, Train, Technology]
    case Athlete => [Sport, Health, Nature, Food]
    case Banker => [Finance, Train, Law, Government]
    case Captain => [Sea, Resources, Dining, Mathematics]
    case Chef => [Dining, Food, Tourism, Fire]
    case Cryptid => [Mysticism, Thrill, Exploration, Mathematics]
    case Daredevil => [Thrill, Theatre, Landmark, Sport]
    case Doctor => [Health, Residency, Air, Office]
    case Driver => [Road, Thrill, Music, Law]
    case Engineer => [Electricity, Technology, Industry, Office]
    case Explorer => [Exploration, History, Sea, Space]
    case FactoryWorker => [Industry, Residency, Space, Robotics]
    case Farmer => [Food, Train, Animals, Exploration]
    case FireFighter => [Fire, Health, Industry, Commerce]
    case Guru => [Mysticism, Education, Finance, Military]
    case Historian => [History, Books, Theatre, Science]
    case HomeOwner => [Residency, Dining, Road, Finance]
    case Inventor => [Technology, Science, Sea, Government]
    case Mathematician => [Mathematics, Education, Robotics, Technology]
    case Mayor => [Government, Tourism, Residency, Military]
    case Miner => [Resources, Industry, Nature, Landmark]
    case Musician => [Music, Art, Air, Education]
    case Mystic => [Mysticism, Electricity, Fire, Animals]
    case OfficeWorker => [Office, Music, Train, Books]
    case Pilot => [Air, Fire, Thrill, Resources]
    case PoliceOfficer => [Law, Commerce, Animals, Sea]
    case Robot => [Robotics, Science, Dining, Electricity]
    case Scientist => [Science, Space, Sport, Mathematics]
    case Shopkeeper => [Commerce, Music, Food, Finance]
    case Soldier => [Military, Resources, Law, Robotics]
    case Teacher => [Education, Books, Sport, Government]
    case Tourist => [Tourism, Air, Landmark, Road]
    case Writer => [Books, Art, Mysticism, Tourism]
    case ZooKeeper => [Animals, Nature, Office, History]
  }

  // One row of the attributes column per lemma: each fixes the value of
  // Tags at one card, so later proofs never unfold the whole table.

  lemma TagsOfActor() ensures Tags(Actor) == [Theatre, Road, Health, Exploration] { }
  lemma TagsOfArchitect() ensures Tags(Architect) == [Landmark, History, Art, Electricity] { }
  lemma TagsOfArtist() ensures Tags(Artist) == [Art, Theatre, Commerce, Nature] { }
  lemma TagsOfAstronaut() ensures Tags(Astronaut) == [Space, Military, Train, Technology] { }
  lemma TagsOfAthlete() ensures Tags(Athlete) == [Sport, Health, Nature, Food] { }
  lemma TagsOfBanker() ensures Tags(Banker) == [Finance, Train, Law, Government] { }
  lemma TagsOfCaptain() ensures Tags(Captain) == [Sea, Resources, Dining, Mathematics] { }
  lemma TagsOfChef() ensures Tags(Chef) == [Dining, Food, Tourism, Fire] { }
  lemma TagsOfCryptid() ensures Tags(Cryptid) == [Mysticism, Thrill, Exploration, Mathematics] { }
  lemma TagsOfDaredevil() ensures Tags(Daredevil) == [Thrill, Theatre, Landmark, Sport] { }
  lemma TagsOfDoctor() ensures Tags(Doctor) == [Health, Residency, Air, Office] { }
  lemma TagsOfDriver() ensures Tags(Driver) == [Road, Thrill, Music, Law] { }
  lemma TagsOfEngineer() ensures Tags(Engineer) == [Electricity, Technology, Industry, Office] { }
  lemma TagsOfExplorer() ensures Tags(Explorer) == [Exploration, History, Sea, Space] { }
  lemma TagsOfFactoryWorker() ensures Tags(FactoryWorker) == [Industry, Residency, Space, Robotics] { }
  lemma TagsOfFarmer() ensures Tags(Farmer) == [Food, Train, Animals, Exploration] { }
  lemma TagsOfFireFighter() ensures Tags(FireFighter) == [Fire, Health, Industry, Commerce] { }
  lemma TagsOfGuru() ensures Tags(Guru) == [Mysticism, Education, Finance, Military] { }
  lemma TagsOfHistorian() ensures Tags(Historian) == [History, Books, Theatre, Science] { }
  lemma TagsOfHomeOwner() ensures Tags(HomeOwner) == [Residency, Dining, Road, Finance] { }
  lemma TagsOfInventor() ensures Tags(Inventor) == [Technology, Science, Sea, Government] { }
  lemma TagsOfMathematician() ensures Tags(Mathematician) == [Mathematics, Education, Robotics, Technology] { }
  lemma TagsOfMayor() ensures Tags(Mayor) == [Government, Tourism, Residency, Military] { }
  lemma TagsOfMiner() ensures Tags(Miner) == [Resources, Industry, Nature, Landmark] { }
  lemma TagsOfMusician() ensures Tags(Musician) == [Music, Art, Air, Education] { }
  lemma TagsOfMystic() ensures Tags(Mystic) == [Mysticism, Electricity, Fire, Animals] { }
  lemma TagsOfOfficeWorker() ensures Tags(OfficeWorker) == [Office, Music, Train, Books] { }
  lemma TagsOfPilot() ensures Tags(Pilot) == [Air, Fire, Thrill, Resources] { }
  lemma TagsOfPoliceOfficer() ensures Tags(PoliceOfficer) == [Law, Commerce, Animals, Sea] { }
  lemma TagsOfRobot() ensures Tags(Robot) == [Robotics, Science, Dining, Electricity] { }
  lemma TagsOfScientist() ensures Tags(Scientist) == [Science, Space, Sport, Mathematics] { }
  lemma TagsOfShopkeeper() ensures Tags(Shopkeeper) == [Commerce, Music, Food, Finance] { }
  lemma TagsOfSoldier() ensures Tags(Soldier) == [Military, Resources, Law, Robotics] { }
  lemma TagsOfTeacher() ensures Tags(Teacher) == [Education, Books, Sport, Government] { }
  lemma TagsOfTourist() ensures Tags(Tourist) == [Tourism, Air, Landmark, Road] { }
  lemma TagsOfWriter() ensures Tags(Writer) == [Books, Art, Mysticism, Tourism] { }
  lemma TagsOfZooKeeper() ensures Tags(ZooKeeper) == [Animals, Nature, Office, History] { }

  /** Every card carries exactly four tags, and no tag twice. */
  lemma EveryCitizenHasFourDistinctTags(c: CitizenCode)
    ensures FourDistinct(Tags(c))
  {
    match c
    case Actor => TagsOfActor();
    case Architect => TagsOfArchitect();
    case Artist => TagsOfArtist();
    case Astronaut => TagsOfAstronaut();
    case Athlete => TagsOfAthlete();
    case Banker => TagsOfBanker();
    case Captain => TagsOfCaptain();
    case Chef => TagsOfChef();
    case Cryptid => TagsOfCryptid();
    case Daredevil => TagsOfDaredevil();
    case Doctor => TagsOfDoctor();
    case Driver => TagsOfDriver();
    case Engineer => TagsOfEngineer();
    case Explorer => TagsOfExplorer();
    case FactoryWorker => TagsOfFactoryWorker();
    case Farmer => TagsOfFarmer();
    case FireFighter => TagsOfFireFighter();
    case Guru => TagsOfGuru();
    case Historian => TagsOfHistorian();
    case HomeOwner => TagsOfHomeOwner();
    case Inventor => TagsOfInventor();
    case Mathematician => TagsOfMathematician();
    case Mayor => TagsOfMayor();
    case Miner => TagsOfMiner();
    case Musician => TagsOfMusician();
    case Mystic => TagsOfMystic();
    case OfficeWorker => TagsOfOfficeWorker();
    case Pilot => TagsOfPilot();
    case PoliceOfficer => TagsOfPoliceOfficer();
    case Robot => TagsOfRobot();
    case Scientist => TagsOfScientist();
    case Shopkeeper => TagsOfShopkeeper();
    case Soldier => TagsOfSoldier();
    case Teacher => TagsOfTeacher();
    case Tourist => TagsOfTourist();
    case Writer => TagsOfWriter();
    case ZooKeeper => TagsOfZooKeeper();
  }

  /** The startingCitizens deck (src/citizens.ts:381-394). */
  const StartingCitizens: seq<CitizenCode> :=
    [HomeOwner, Teacher, Farmer, OfficeWorker, FireFighter, Engineer,
     PoliceOfficer, Athlete, Doctor, Driver, Shopkeeper, Pilot]

  /** The starting deck holds twelve different cards. */
  lemma StartingDeckShape()
    ensures |StartingCitizens| == 12
    ensures forall i, j :: 0 <= i < j < |StartingCitizens| ==> StartingCitizens[i] != StartingCitizens[j]
  {
  }
}
