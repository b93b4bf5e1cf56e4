/** Facts about `HOME_TYPE_STRUCTURE` that completion relies on, proved
    bottom-up: for each nested object, how many of its fields fall in each
    class and how deep it nests, each lemma using the lemmas of the objects
    nested in it. */
module JsTypesFacts {
  import opened Wrappers
  import opened JsTypes

  lemma DimensionsCounts()
    ensures FieldCount(Dimensions, Irregular) == 0
    ensures FieldCount(Dimensions, ArrayWithProperties) == 0
    ensures FieldCount(Dimensions, WithEnum) == 0
  {
  }

  lemma DimensionsDepth()
    ensures FieldDepth(Dimensions) == 1
  {
  }

  lemma MasterCounts()
    ensures FieldCount(Master, Irregular) == 0
    ensures FieldCount(Master, ArrayWithProperties) == 0
    ensures FieldCount(Master, WithEnum) == 0
  {
    DimensionsCounts();
  }

  lemma MasterDepth()
    ensures FieldDepth(Master) == 2
  {
    DimensionsDepth();
  }

  lemma BedroomsCounts()
    ensures FieldCount(Bedrooms, Irregular) == 0
    ensures FieldCount(Bedrooms, ArrayWithProperties) == 0
    ensures FieldCount(Bedrooms, WithEnum) == 0
  {
    MasterCounts();
  }

  lemma BedroomsDepth()
    ensures FieldDepth(Bedrooms) == 3
  {
    MasterDepth();
  }

  lemma BathroomsCounts()
    ensures FieldCount(Bathrooms, Irregular) == 0
    ensures FieldCount(Bathrooms, ArrayWithProperties) == 0
    ensures FieldCount(Bathrooms, WithEnum) == 0
  {
  }

  lemma BathroomsDepth()
    ensures FieldDepth(Bathrooms) == 1
  {
  }

  lemma UnitsCounts()
    ensures FieldCount(Units, Irregular) == 0
    ensures FieldCount(Units, ArrayWithProperties) == 0
    ensures FieldCount(Units, WithEnum) == 1
  {
  }

  lemma UnitsDepth()
    ensures FieldDepth(Units) == 0
  {
  }

  lemma AreaCounts()
    ensures FieldCount(Area, Irregular) == 0
    ensures FieldCount(Area, ArrayWithProperties) == 0
    ensures FieldCount(Area, WithEnum) == 1
  {
    UnitsCounts();
  }

  lemma AreaDepth()
    ensures FieldDepth(Area) == 1
  {
    UnitsDepth();
  }

  lemma HistoryCounts()
    ensures FieldCount(History, Irregular) == 0
    ensures FieldCount(History, ArrayWithProperties) == 1
    ensures FieldCount(History, WithEnum) == 0
  {
  }

  lemma HistoryDepth()
    ensures FieldDepth(History) == 1
  {
  }

  lemma PriceCounts()
    ensures FieldCount(Price, Irregular) == 0
    ensures FieldCount(Price, ArrayWithProperties) == 1
    ensures FieldCount(Price, WithEnum) == 0
  {
    HistoryCounts();
  }

  lemma PriceDepth()
    ensures FieldDepth(Price) == 2
  {
    HistoryDepth();
  }

  lemma CoordinatesCounts()
    ensures FieldCount(Coordinates, Irregular) == 0
    ensures FieldCount(Coordinates, ArrayWithProperties) == 0
    ensures FieldCount(Coordinates, WithEnum) == 0
  {
  }

  lemma CoordinatesDepth()
    ensures FieldDepth(Coordinates) == 1
  {
  }

  lemma LocationCounts()
    ensures FieldCount(Location, Irregular) == 0
    ensures FieldCount(Location, ArrayWithProperties) == 0
    ensures FieldCount(Location, WithEnum) == 0
  {
    CoordinatesCounts();
  }

  lemma LocationDepth()
    ensures FieldDepth(Location) == 2
  {
    CoordinatesDepth();
  }

  lemma AmenitiesCounts()
    ensures FieldCount(Amenities, Irregular) == 0
    ensures FieldCount(Amenities, ArrayWithProperties) == 0
    ensures FieldCount(Amenities, WithEnum) == 0
  {
  }

  lemma AmenitiesDepth()
    ensures FieldDepth(Amenities) == 1
  {
  }

  lemma HeatingCounts()
    ensures FieldCount(Heating, Irregular) == 0
    ensures FieldCount(Heating, ArrayWithProperties) == 0
    ensures FieldCount(Heating, WithEnum) == 0
  {
  }

  lemma HeatingDepth()
    ensures FieldDepth(Heating) == 1
  {
  }

  lemma CoolingCounts()
    ensures FieldCount(Cooling, Irregular) == 0
    ensures FieldCount(Cooling, ArrayWithProperties) == 0
    ensures FieldCount(Cooling, WithEnum) == 0
  {
  }

  lemma CoolingDepth()
    ensures FieldDepth(Cooling) == 1
  {
  }

  lemma InternetCounts()
    ensures FieldCount(Internet, Irregular) == 0
    ensures FieldCount(Internet, ArrayWithProperties) == 0
    ensures FieldCount(Internet, WithEnum) == 0
  {
  }

  lemma InternetDepth()
    ensures FieldDepth(Internet) == 1
  {
  }

  lemma UtilitiesCounts()
    ensures FieldCount(Utilities, Irregular) == 0
    ensures FieldCount(Utilities, ArrayWithProperties) == 0
    ensures FieldCount(Utilities, WithEnum) == 0
  {
    HeatingCounts();
    CoolingCounts();
    InternetCounts();
  }

  lemma UtilitiesDepth()
    ensures FieldDepth(Utilities) == 2
  {
    HeatingDepth();
    CoolingDepth();
    InternetDepth();
  }

  /** No field of the schema is irregular. */
  lemma HomeIsRegular()
    ensures Count(HomeTypeStructure, Irregular) == 0
  {
    BedroomsCounts();
    BathroomsCounts();
    AreaCounts();
    PriceCounts();
    LocationCounts();
    AmenitiesCounts();
    UtilitiesCounts();
  }

  /** Exactly one field is an array that also lists `properties`. */
  lemma HomeHasOneArrayWithProperties()
    ensures Count(HomeTypeStructure, ArrayWithProperties) == 1
  {
    BedroomsCounts();
    BathroomsCounts();
    AreaCounts();
    PriceCounts();
    LocationCounts();
    AmenitiesCounts();
    UtilitiesCounts();
  }

  /** Exactly one field carries an `enum`. */
  lemma HomeHasOneEnum()
    ensures Count(HomeTypeStructure, WithEnum) == 1
  {
    BedroomsCounts();
    BathroomsCounts();
    AreaCounts();
    PriceCounts();
    LocationCounts();
    AmenitiesCounts();
    UtilitiesCounts();
  }

  /** Literals nest three deep: home, bedrooms, master, dimensions. */
  lemma HomeDepth()
    ensures Depth(HomeTypeStructure) == 3
  {
    BedroomsDepth();
    BathroomsDepth();
    AreaDepth();
    PriceDepth();
    LocationDepth();
    AmenitiesDepth();
    UtilitiesDepth();
  }
}
