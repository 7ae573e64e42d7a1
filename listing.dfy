/**
 * The records shared by the listing browser's components: a listing
 * (`Property`), the eleven fields the add/edit form sends, the sort keys
 * offered by the "Sort By" select, and the filter state edited by the
 * filter bar and the mobile filters modal.
 */
module Listing {

  /** A listing as the properties hook hands it to the page. Prices, counts
      and timestamps are integers; coordinates are only compared and copied. */
  datatype Property = Property(
    id: string,
    title: string,
    description: string,
    price: int,
    bedrooms: int,
    bathrooms: int,
    squareFeet: int,
    propertyType: string,
    forRent: bool,
    lat: real,
    lng: real,
    imageUrl: string,
    createdAt: int,
    address: string)

  /** The eleven fields the add/edit form edits and sends to the store. */
  datatype ListingFields = ListingFields(
    title: string,
    description: string,
    price: int,
    bedrooms: int,
    bathrooms: int,
    squareFeet: int,
    propertyType: string,
    lat: real,
    lng: real,
    imageUrl: string,
    forRent: bool)

  /** The editable fields of a stored listing. */
  function FieldsOf(p: Property): ListingFields
  {
    ListingFields(p.title, p.description, p.price, p.bedrooms, p.bathrooms,
                  p.squareFeet, p.propertyType, p.lat, p.lng, p.imageUrl, p.forRent)
  }

  /** The five orderings offered by the "Sort By" select. */
  datatype SortOption = Newest | Oldest | PriceDesc | PriceAsc | SquareFeet

  /** The page's initial ordering. */
  const DefaultSortOption: SortOption := Newest

  /** The price filter's "no maximum" sentinel. */
  const NoMaxPrice: int := 999999999

  /** The browsing filter; `propertyType == ""` means every type, and
      `beds`/`baths` of 0 mean any count. */
  datatype FilterState = FilterState(
    forRent: bool,
    minPrice: int,
    maxPrice: int,
    propertyType: string,
    beds: int,
    baths: int)

  /** The filter the mobile modal's Reset button restores. */
  const DefaultFilterState: FilterState :=
    FilterState(false, 0, NoMaxPrice, "", 0, 0)

  /** A map position. */
  datatype LatLng = LatLng(lat: real, lng: real)
}
