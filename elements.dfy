/** The map elements of src/elements.ts and their display names. */
module Elements {
  import opened Wrappers

  /** The Element enum (src/elements.ts:1-5). */
  datatype Element = Road | Seaport | WoodWarehouse

  /** The string value of each member. */
  function Code(e: Element): string
  {
    match e
    case Road => "8-66"
    case Seaport => "0-92"
    case WoodWarehouse => "1-95"
  }

  /** The member whose string value is `s`, if any. */
  function FromCode(s: string): Option<Element>
  {
    match s
    case "8-66" => Some(Road)
    case "0-92" => Some(Seaport)
    case "1-95" => Some(WoodWarehouse)
    case _ => None
  }

  /** FromCode inverts Code. */
  lemma CodeRoundTrip(e: Element)
    ensures FromCode(Code(e)) == Some(e)
  {
  }

  /** The three codes are pairwise distinct. */
  lemma CodesDistinct(e1: Element, e2: Element)
    requires Code(e1) == Code(e2)
    ensures e1 == e2
  {
    CodeRoundTrip(e1);
    CodeRoundTrip(e2);
  }

  /** ElementName (src/elements.ts:7-18). The argument is the string the
      program passes at run time, so it may be any string; every string
      that is not an element code names 'unknown'. */
  function ElementName(id: string): (name: string)
    ensures name == "unknown" <==> FromCode(id).None?
  {
    match id
    case "8-66" => "Road"
    case "0-92" => "Seaport"
    case "1-95" => "Wood Warehouse"
    case _ => "unknown"
  }

  /** The name of each element. */
  lemma ElementNames()
    ensures ElementName(Code(Road)) == "Road"
    ensures ElementName(Code(Seaport)) == "Seaport"
    ensures ElementName(Code(WoodWarehouse)) == "Wood Warehouse"
  {
  }

  /** Different elements have different names, and no element is named
      'unknown'. */
  lemma ElementNameInjective(e1: Element, e2: Element)
    ensures ElementName(Code(e1)) != "unknown"
    ensures ElementName(Code(e1)) == ElementName(Code(e2)) ==> e1 == e2
  {
  }
}
