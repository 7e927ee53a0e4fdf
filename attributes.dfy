/** The thematic tags printed on citizen cards.

    The type holds exactly the 37 tags that the citizen table uses
    (src/citizens.ts:46-378). Five of them (Exploration, Finance,
    Mathematics, Military, Robotics) have no member in the AttributeCode
    enum of src/attributes.ts:3-36; the citizen table is taken as the
    authority. The tags carry no order and no payload, so an enum is all
    the rules need. */
module Attributes {
  datatype Attribute =
    Air
    | Animals
    | Art
    | Books
    | Commerce
    | Dining
    | Education
    | Electricity
    | Exploration
    | Finance
    | Fire
    | Food
    | Government
    | Health
    | History
    | Industry
    | Landmark
    | Law
    | Mathematics
    | Military
    | Music
    | Mysticism
    | Nature
    | Office
    | Residency
    | Resources
    | Road
    | Robotics
    | Science
    | Sea
    | Space
    | Sport
    | Technology
    | Theatre
    | Thrill
    | Tourism
    | Train
}
