/**
 * The desktop filter bar (src/components/FilterBar.tsx). Every control
 * hands `setFilterState` an updater that copies the previous state and
 * replaces one field, or both price fields; the mobile filters modal uses
 * the same updaters on its draft.
 */
module FilterBar {
  import opened Listing

  /** The price dropdown's `onChange`: both bounds, as given. */
  function WithPrice(f: FilterState, minPrice: int, maxPrice: int): (r: FilterState)
    ensures r.minPrice == minPrice && r.maxPrice == maxPrice
    ensures r.forRent == f.forRent && r.propertyType == f.propertyType
    ensures r.beds == f.beds && r.baths == f.baths
  {
    f.(minPrice := minPrice, maxPrice := maxPrice)
  }

  /** The value the sale/rent select shows. */
  function ListingTypeValue(f: FilterState): (v: string)
    ensures v == "rent" <==> f.forRent
    ensures v == "sale" <==> !f.forRent
  {
    if f.forRent then "rent" else "sale"
  }

  /** The sale/rent select's change: only "rent" means for rent. */
  function WithListingType(f: FilterState, value: string): (r: FilterState)
    ensures r.forRent <==> value == "rent"
    ensures r.minPrice == f.minPrice && r.maxPrice == f.maxPrice
    ensures r.propertyType == f.propertyType && r.beds == f.beds && r.baths == f.baths
  {
    f.(forRent := value == "rent")
  }

  function WithPropertyType(f: FilterState, propertyType: string): (r: FilterState)
    ensures r.propertyType == propertyType
    ensures r.forRent == f.forRent && r.minPrice == f.minPrice && r.maxPrice == f.maxPrice
    ensures r.beds == f.beds && r.baths == f.baths
  {
    f.(propertyType := propertyType)
  }

  function WithBeds(f: FilterState, beds: int): (r: FilterState)
    ensures r.beds == beds
    ensures r.forRent == f.forRent && r.minPrice == f.minPrice && r.maxPrice == f.maxPrice
    ensures r.propertyType == f.propertyType && r.baths == f.baths
  {
    f.(beds := beds)
  }

  function WithBaths(f: FilterState, baths: int): (r: FilterState)
    ensures r.baths == baths
    ensures r.forRent == f.forRent && r.minPrice == f.minPrice && r.maxPrice == f.maxPrice
    ensures r.propertyType == f.propertyType && r.beds == f.beds
  {
    f.(baths := baths)
  }

  /** Choosing the value the select already shows changes nothing. */
  lemma ListingTypeRoundTrip(f: FilterState)
    ensures WithListingType(f, ListingTypeValue(f)) == f
  {
  }

  /** A place chosen in the bar's search box is forwarded as a coordinate
      only; the filter state is not touched. */
  function OnPlaceSelected(f: FilterState, lat: real, lng: real, address: string): (r: (FilterState, LatLng))
    ensures r.0 == f && r.1 == LatLng(lat, lng)
  {
    (f, LatLng(lat, lng))
  }
}
