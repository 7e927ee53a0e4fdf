/** The AmenityCode enum. Its source file, src/amenities.ts, is not part
    of this model; the type holds only the two members that the modelled
    files name (Housing and Medical). */
module Amenities {
  datatype AmenityCode = Housing | Medical
}

/** The DistrictAttributes enum. Its source file, src/districtAttributes.ts,
    is not part of this model; the type holds only the two members that
    the action catalog names (Abandoned and Occupied). */
module DistrictAttributes {
  datatype DistrictAttribute = Abandoned | Occupied
}
