/** The shape of the housing catalogue in src/lib/api.ts (`cityHousingData`
    and `workLocationToDistricts`). The catalogue is a parameter of the
    operations that read it, not a transcription of the price tables. */
module Housing {

  /** The unit kinds the catalogue prices (apartment, villa, duplex). */
  datatype PropertyType = Apartment | Villa | Duplex

  /** A price per square metre and the unit sizes on offer, in square metres. */
  datatype PriceEntry = PriceEntry(pricePerMeter: real, availableSizes: seq<int>)

  /** The price of a unit of `size` square metres. */
  function UnitPrice(entry: PriceEntry, size: int): real {
    entry.pricePerMeter * size as real
  }

  /** At a non-negative price per metre, a larger unit never costs less. */
  lemma UnitPriceMonotone(entry: PriceEntry, size: int, larger: int)
    requires entry.pricePerMeter >= 0.0 && size <= larger
    ensures UnitPrice(entry, size) <= UnitPrice(entry, larger)
  {
    assert entry.pricePerMeter * (larger - size) as real >= 0.0;
  }

  /** A district of a city, with its demand and growth scores (1-10) and the
      unit kinds it offers. A map, so that a kind may be missing. */
  datatype District = District(
    name: string,
    area: string,
    priceMultiplier: real,
    demandScore: real,
    futureGrowthPotential: real,
    propertyTypes: map<PropertyType, PriceEntry>)

  datatype CityHousing = CityHousing(
    avgPrice: real,
    description: string,
    inflationRate: real,
    districts: seq<District>)

  /** Cities by name, and for each work location the districts near it. */
  datatype Catalogue = Catalogue(
    cityHousingData: map<string, CityHousing>,
    workLocationToDistricts: map<string, seq<string>>)

  /** No price per square metre in the catalogue is negative. */
  ghost predicate NonNegativePrices(catalogue: Catalogue) {
    forall city, i, t ::
      city in catalogue.cityHousingData && 0 <= i < |catalogue.cityHousingData[city].districts|
      && t in catalogue.cityHousingData[city].districts[i].propertyTypes
      ==> catalogue.cityHousingData[city].districts[i].propertyTypes[t].pricePerMeter >= 0.0
  }
}
