/** The Amenity record and the District class of src/districts.ts. */
module Districts {
  import opened Wrappers
  import opened Amenities

  /** The usage level of an amenity, written 'LOW', 'MEDIUM' or 'HIGH' in
      the program. The levels are ordered. */
  datatype Usage = Low | Medium | High

  /** The string the program uses for each level. */
  function UsageText(u: Usage): string
  {
    match u
    case Low => "LOW"
    case Medium => "MEDIUM"
    case High => "HIGH"
  }

  /** The level a string stands for, if any. */
  function ParseUsage(s: string): Option<Usage>
  {
    match s
    case "LOW" => Some(Low)
    case "MEDIUM" => Some(Medium)
    case "HIGH" => Some(High)
    case _ => None
  }

  /** ParseUsage inverts UsageText, and accepts nothing else. */
  lemma UsageTextRoundTrip(u: Usage, s: string)
    ensures ParseUsage(UsageText(u)) == Some(u)
    ensures ParseUsage(s).Some? ==> UsageText(ParseUsage(s).value) == s
  {
  }

  /** The position of a level in the order Low < Medium < High. */
  function UsageRank(u: Usage): (k: int)
    ensures 0 <= k <= 2
    ensures k == 0 <==> u == Low
    ensures k == 2 <==> u == High
  {
    match u
    case Low => 0
    case Medium => 1
    case High => 2
  }

  /** The sizes and densities an amenity may have: 1, 2 or 4. */
  type Scale = n: int | n == 1 || n == 2 || n == 4 witness 1

  /** The Amenity record (src/districts.ts:3-9); `usage` and `age` are
      optional. */
  datatype Amenity = Amenity(
    amenityCode: AmenityCode,
    size: Scale,
    density: Scale,
    usage: Option<Usage>,
    age: Option<int>)

  /** Size and density of an amenity are each 1, 2 or 4, and its usage,
      when it has one, is LOW, MEDIUM or HIGH. */
  lemma AmenityDomains(a: Amenity)
    ensures a.size in {1, 2, 4} && a.density in {1, 2, 4}
    ensures a.usage.Some? ==> UsageText(a.usage.value) in {"LOW", "MEDIUM", "HIGH"}
  {
  }

  /** A district of the city grid: the amenities built in it. */
  class District {
    var amenities: seq<Amenity>

    /** Stores the given list; the class has no other field. */
    constructor(amenities: seq<Amenity>)
      ensures this.amenities == amenities
    {
      this.amenities := amenities;
    }
  }
}
