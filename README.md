# Listing browser core, in Dafny

This project models the deterministic rules of a map-centred real-estate
listing browser (a Next.js single-page application backed by a realtime
document store). The application is mostly presentation; its logic is a
handful of rules spread across components, and each becomes one module:

- `SortEngine` and `HomePage` (`src/app/page.tsx`): the page copies the
  listings it receives and sorts the copy in place by one of five sort
  options. The sort is stable, so listings with equal keys keep their input
  order. The page also holds the selection that opens the details modal.
  The page calls `Array.prototype.sort`, whose algorithm ECMA-262 leaves to
  the engine. The model sorts by insertion, driven by the page's own
  comparators, and proves that array sort equal to `SortedBy`, a
  functional stable sort. `SortedBy` is proved to order the chosen field,
  to permute its input, and to keep every key's listings in input order.
  `OrderedStableUnique` proves that only one sequence does all three, so
  every stable sort yields the same list and the engine's algorithm does
  not matter.
- `PropertyForm` (`src/components/AddEditPropertyModal.tsx`): the add/edit
  form. Opening the form resets it (add mode) or prefills it from the
  listing (edit mode). Saving runs nine checks in a fixed order, and the
  first failing check alone sets the error message. When every check
  passes, the form sends the eleven fields to the store, as an add or as an
  update of the existing id.
- `PriceRange` (`src/components/PriceRangeDropdown.tsx`): the price button's
  label, the min/max input parsing and display around the 999999999 "no
  maximum" sentinel, and the draft that Reset and Apply act on.
- `FilterBar` (`src/components/FilterBar.tsx`): the record updaters that
  change exactly one filter field, or both price fields.
- `MobileFilters` (`src/components/MobileFiltersModal.tsx`): a draft copy of
  the filter state. Edits change only the draft, Apply commits it, and
  Reset restores the defaults.
- `PropertiesHook` (`src/hooks/useProperties.ts`): each snapshot's documents
  are normalised into listings, with `createdAt` defaulting to 0 and
  `address` to `""`. Each snapshot replaces the whole list. A listener error
  only ends loading. New listings are stamped with the current time.
- `MapView` (`src/components/MapView.tsx`): one marker per listing. Once the
  map has loaded, selecting a listing pans the viewport to it at zoom 15.
- `AddressDisplay` (`src/components/AddressDisplay.tsx`): when the lookup is
  skipped, the first geocoding result that is adopted, and the fallback
  text that is rendered.

The shared records are in `Listing`: `Property`, the eleven `ListingFields`,
`SortOption`, `FilterState` and its defaults. `Option` is in `Wrappers`.

Points where the code does less than its surroundings suggest:

- No shown file has a filter predicate, a polygon geofence or a
  filter → sort pipeline. The page shows the sorted list unfiltered
  (`src/app/page.tsx:57`), and no shown file tests a listing against the
  filter state.
- The page's place-selection handler only logs
  (`src/app/page.tsx:61-65`), so `HomePage.Page.HandlePlaceSelected`
  changes nothing; the map is not recentred on a searched place.
- `FilterBar.tsx` and `MobileFiltersModal.tsx` import `FilterState` from
  `src/app/page.tsx`, which does not declare it. Its fields are taken from
  the reset value at `src/components/MobileFiltersModal.tsx:143-150`.
- `Property` in `src/utils/types.ts` has no `address` field. The hook adds
  one (`src/hooks/useProperties.ts:46`), so the model's `Property` has it.

Modelling choices:

- Prices, counts and timestamps are `int`. Coordinates are `real`, because
  they are only compared and copied.
- A number input's value is `Option<int>`, where `None` is the empty value.
  A browser reports an empty value for text that is not a number.
- `!s.trim()` is `PropertyForm.IsBlank`: every character is an ECMAScript
  WhiteSpace or LineTerminator code point. `PropertyForm.Trim`'s contract
  ties `IsBlank` to trimming.
- The form's inputs assign the `PropertyFormModal` fields directly, like
  their `onChange` setters.
- The store, the clock, the geocoding request and the maps library are
  inputs. A snapshot is a sequence of documents, `addProperty`'s time is a
  parameter, a store call's result is a `StoreOutcome`, and a lookup's
  response is a `GeocodeResponse`.

## Model

| member | source | states |
|---|---|---|
| SortEngine.Compare | src/app/page.tsx:46-56 | each option's comparator is negative, zero or positive exactly as the option's ascending key (descending options negate the field) is smaller, equal or larger |
| SortEngine.Key | src/app/page.tsx:47-55 | the ascending key each comparator orders by: createdAt negated for newest, createdAt for oldest, price negated for price_desc, price for price_asc, squareFeet negated for square_feet |
| SortEngine.SortedBy | src/app/page.tsx:44-58 | the displayed ordering: the stable sort of the received listings by the option's key; its meaning is given by `SortedByOrdered`, `SortedByPermutes`, `SortedByStable` and `SortedByIsStableSort` |
| SortEngine.SortInPlace | src/app/page.tsx:47-55 | the in-place sort leaves the array holding the stable sort of its old contents |
| SortEngine.InsertAt | src/app/page.tsx:47-55 | one pass of the sort shifts the larger-keyed elements of the sorted prefix right by one and drops the new element after the last element whose key is at most its own; cells past it keep their values |
| SortEngine.InsertSplit | src/app/page.tsx:47-55 | inserting a listing into a list places it after exactly the elements up to the last one whose key is at most its own, so equal keys keep input order |
| SortEngine.SortedCopy | src/app/page.tsx:44-58 | the sort effect's copy-then-sort yields the stable sort of the listings; the input sequence is a value and is not changed |
| SortEngine.SortedByOrdered | src/app/page.tsx:46-55 | the sorted list's keys never decrease |
| SortEngine.SortedByPermutes | src/app/page.tsx:45-57 | the sorted list has the same listings, with the same multiplicities, as the input |
| SortEngine.SortedByStable | src/app/page.tsx:47-55 | for every key, the listings with that key appear in the same order as in the input, as ECMA-262 requires of a stable sort |
| SortEngine.SortedByIsStableSort | src/app/page.tsx:44-58 | a list equals the page's ordering if and only if it is ordered by the key and keeps every key's listings in input order |
| SortEngine.OrderedStableUnique | src/app/page.tsx:47-55 | two ordered lists with the same per-key subsequences are equal, so the stable sort is unique |
| SortEngine.SortOptionOrdersField | src/app/page.tsx:46-55 | newest gives non-increasing createdAt, oldest non-decreasing createdAt, price_desc non-increasing price, price_asc non-decreasing price, square_feet non-increasing squareFeet |
| HomePage.Page.constructor | src/app/page.tsx:24-30 | starts with no listings, no selection, details hidden, add modal closed and sort option newest |
| HomePage.Page.RunSortEffect | src/app/page.tsx:44-58 | afterwards the displayed list is the sorted copy of the current listings |
| HomePage.Page.ReceiveProperties | src/app/page.tsx:44-58 | a new list from the hook is stored and the displayed list becomes its sorted copy |
| HomePage.Page.SetSortOption | src/app/page.tsx:44-58 | a new sort option is stored and the displayed list is re-sorted by it |
| HomePage.Page.HandlePropertySelect | src/app/page.tsx:33-36 | selecting a listing sets it as the selection and opens the details |
| HomePage.Page.HandleCloseModal | src/app/page.tsx:38-41 | closing hides the details and clears the selection |
| HomePage.Page.HandlePlaceSelected | src/app/page.tsx:61-65 | a place selection changes no state |
| HomePage.Page.SetAddModalOpen | src/app/page.tsx:110-113 | the add modal's open flag is set as requested |
| HomePage.SortChangeScenario | src/app/page.tsx:44-58 | after listings arrive and the sort option changes, the shown list is a permutation of the listings and their stable sort by the option |
| PropertyForm.Trim | src/components/AddEditPropertyModal.tsx:83-110 | the trimmed text is the input with a whitespace-only prefix and a whitespace-only suffix removed; it is empty exactly when the text is blank, and otherwise starts and ends with a character that trimming keeps |
| PropertyForm.IsBlank | src/components/AddEditPropertyModal.tsx:83-110 | `!s.trim()`: every character of the text is ECMAScript whitespace or a line terminator; `Trim`'s contract proves this is exactly an empty trim |
| PropertyForm.TrimStart | src/components/AddEditPropertyModal.tsx:83-110 | the result is a suffix of the input, every dropped character is whitespace, and the result does not start with whitespace |
| PropertyForm.TrimEnd | src/components/AddEditPropertyModal.tsx:83-110 | the result is a prefix of the input, every dropped character is whitespace, and the result does not end with whitespace |
| PropertyForm.CheckLatLng | src/components/AddEditPropertyModal.tsx:69-79 | passes iff -90 <= lat <= 90 and -180 <= lng <= 180 (inclusive); the latitude error is reported whenever latitude is out of range, and the longitude error only when latitude is in range |
| PropertyForm.Fails | src/components/AddEditPropertyModal.tsx:70-111 | the failure condition of each of the nine checks: a blank title, image URL or description; price, bedrooms, bathrooms or square feet at most 0; latitude outside [-90, 90]; longitude outside [-180, 180] |
| PropertyForm.Message | src/components/AddEditPropertyModal.tsx:71-108 | each check's error text; none is empty, so an error is never mistaken for a cleared one, and none is the save-failure text |
| PropertyForm.MessageNamesCheck | src/components/AddEditPropertyModal.tsx:71-108 | two checks with the same message are the same check, so the shown error identifies the failing check |
| PropertyForm.Validate | src/components/AddEditPropertyModal.tsx:81-113 | no error iff no check fails; a reported error's check does fail |
| PropertyForm.ValidateReportsFirstFailure | src/components/AddEditPropertyModal.tsx:83-113 | whichever check fails, the reported error comes no later in the fixed order title, image URL, price, bedrooms, bathrooms, square feet, description, latitude, longitude |
| PropertyForm.BlankTextRejected | src/components/AddEditPropertyModal.tsx:83-110 | a title that trims to empty is the reported error; a blank image URL or description is rejected, by its own check or an earlier one |
| PropertyForm.Position | src/components/AddEditPropertyModal.tsx:83-113 | each check has one place in the fixed check order |
| PropertyForm.RequestFor | src/components/AddEditPropertyModal.tsx:118-147 | edit mode sends an update for the existing id and add mode sends an add, either way carrying exactly the form's eleven fields |
| PropertyForm.DefaultFieldsRejected | src/components/AddEditPropertyModal.tsx:52-86 | saving a freshly reset add form stops at the title check |
| PropertyForm.PropertyFormModal.constructor | src/components/AddEditPropertyModal.tsx:21-35 | the form starts closed, with the default fields and no error |
| PropertyForm.PropertyFormModal.Load | src/components/AddEditPropertyModal.tsx:41-51 | after the eleven setters run, the form fields read back exactly as the given listing fields |
| PropertyForm.PropertyFormModal.Open | src/components/AddEditPropertyModal.tsx:38-67 | opening resets the fields to "", 0, "Residential", 34.0, -118.7 and false in add mode, copies every field of the listing in edit mode, and clears the error |
| PropertyForm.PropertyFormModal.Close | src/components/AddEditPropertyModal.tsx:155 | the parent hides the modal; the fields are kept |
| PropertyForm.PropertyFormModal.ValidateLatLng | src/components/AddEditPropertyModal.tsx:69-79 | returns whether both coordinates are in range; on failure it sets the first out-of-range coordinate's message, and on success it leaves the error as it was |
| PropertyForm.PropertyFormModal.HandleSubmit | src/components/AddEditPropertyModal.tsx:81-153 | a failing check sets its message and sends nothing; otherwise the fields are sent as an add or an update, a successful save asks to close with the error cleared, and a rejected save shows the failure message and stays open |
| PriceRange.DigitsRoundTrip | src/components/PriceRangeDropdown.tsx:26-27 | reading back the digits a template string shows for a price gives the price |
| PriceRange.Digits | src/components/PriceRangeDropdown.tsx:26-27 | a rendered amount is a non-empty string of decimal digits with a leading zero only for 0 |
| PriceRange.NumberText | src/components/PriceRangeDropdown.tsx:26-27 | a price interpolated into the label is a canonical integer numeral, with a minus sign exactly for a negative price, that reads back as the price |
| PriceRange.MinLabel | src/components/PriceRangeDropdown.tsx:26 | the min part is "No min" iff minPrice == 0; otherwise it is "$" followed by a numeral reading back as minPrice: its digits for a positive price, "-" and the digits of the magnitude for a negative one |
| PriceRange.MaxLabel | src/components/PriceRangeDropdown.tsx:27 | the max part is "No max" iff maxPrice >= 999999999; otherwise it is "$" followed by a numeral reading back as maxPrice: its digits when it is not negative, "-" and the digits of the magnitude when it is |
| PriceRange.Label | src/components/PriceRangeDropdown.tsx:22-29 | the label is "Any price" iff minPrice <= 0 and maxPrice >= 999999999; every other label is the min part, " - ", and the max part, so through `MinLabel` and `MaxLabel` it shows both prices |
| PriceRange.RangeLabelIsNotAnyPrice | src/components/PriceRangeDropdown.tsx:28 | a "min - max" label never reads "Any price" |
| PriceRange.NegativeMinimumLabels | src/components/PriceRangeDropdown.tsx:23-26 | a negative minimum with no maximum reads "Any price", and a negative minimum with a maximum is shown as an amount |
| PriceRange.ParseMin | src/components/PriceRangeDropdown.tsx:55 | an empty min input gives 0, and a number gives itself |
| PriceRange.ParseMax | src/components/PriceRangeDropdown.tsx:66 | an empty max input gives 999999999, and a number gives itself |
| PriceRange.MinFieldValue | src/components/PriceRangeDropdown.tsx:54 | the min field is empty iff the draft is 0, and parsing what it shows gives the draft back |
| PriceRange.MaxFieldValue | src/components/PriceRangeDropdown.tsx:64 | the max field is empty iff the draft is >= 999999999, and parsing what it shows gives the draft, or the sentinel for any draft at or above it |
| PriceRange.PriceRangeDropdown.constructor | src/components/PriceRangeDropdown.tsx:16-20 | the panel starts closed; the drafts start as the props, with a max of 0 becoming 999999999 |
| PriceRange.PriceRangeDropdown.ReceiveProps | src/components/PriceRangeDropdown.tsx:19-20 | new props change the label's inputs but not the drafts |
| PriceRange.PriceRangeDropdown.Toggle | src/components/PriceRangeDropdown.tsx:40 | the button flips the panel open or closed |
| PriceRange.PriceRangeDropdown.EditMin | src/components/PriceRangeDropdown.tsx:55 | the min draft becomes the parsed input |
| PriceRange.PriceRangeDropdown.EditMax | src/components/PriceRangeDropdown.tsx:65-67 | the max draft becomes the parsed input |
| PriceRange.PriceRangeDropdown.Reset | src/components/PriceRangeDropdown.tsx:73-76 | the drafts become (0, 999999999), both fields show empty, and nothing is reported |
| PriceRange.PriceRangeDropdown.Apply | src/components/PriceRangeDropdown.tsx:31-34 | onChange receives exactly the drafts, with no min <= max check, and the panel closes |
| FilterBar.WithPrice | src/components/FilterBar.tsx:21-27 | minPrice and maxPrice take the given values and the other four fields are unchanged |
| FilterBar.ListingTypeValue | src/components/FilterBar.tsx:45 | the select shows "rent" iff forRent, and "sale" otherwise |
| FilterBar.WithListingType | src/components/FilterBar.tsx:46-48 | forRent becomes (value == "rent") and nothing else changes |
| FilterBar.ListingTypeRoundTrip | src/components/FilterBar.tsx:45-47 | choosing the value the select shows reproduces the same state |
| FilterBar.WithPropertyType | src/components/FilterBar.tsx:65 | propertyType becomes the chosen string ("" = all types) and nothing else changes |
| FilterBar.WithBeds | src/components/FilterBar.tsx:78 | beds becomes the chosen count and nothing else changes |
| FilterBar.WithBaths | src/components/FilterBar.tsx:92 | baths becomes the chosen count and nothing else changes |
| FilterBar.OnPlaceSelected | src/components/FilterBar.tsx:33-37 | a place selection forwards only its coordinate and leaves the filter state as it was |
| MobileFilters.MobileFiltersModal.constructor | src/components/MobileFiltersModal.tsx:23 | the draft starts as a copy of the committed filter state |
| MobileFilters.MobileFiltersModal.ReceiveFilterState | src/components/MobileFiltersModal.tsx:23 | a later change of the committed state does not refresh the draft |
| MobileFilters.MobileFiltersModal.Open | src/components/MobileFiltersModal.tsx:25 | the parent opens the modal and both filter states are kept |
| MobileFilters.MobileFiltersModal.EditListingType | src/components/MobileFiltersModal.tsx:66-69 | the draft's forRent is updated as in the filter bar and the committed state is untouched |
| MobileFilters.MobileFiltersModal.HandlePriceChange | src/components/MobileFiltersModal.tsx:33-39 | only the draft's minPrice and maxPrice change |
| MobileFilters.MobileFiltersModal.EditPropertyType | src/components/MobileFiltersModal.tsx:92 | only the draft's propertyType changes |
| MobileFilters.MobileFiltersModal.EditBeds | src/components/MobileFiltersModal.tsx:108 | only the draft's beds changes |
| MobileFilters.MobileFiltersModal.EditBaths | src/components/MobileFiltersModal.tsx:125 | only the draft's baths changes |
| MobileFilters.MobileFiltersModal.Reset | src/components/MobileFiltersModal.tsx:141-151 | the draft becomes the defaults, without committing or closing |
| MobileFilters.MobileFiltersModal.HandleApply | src/components/MobileFiltersModal.tsx:27-31 | the committed state becomes exactly the draft and the modal closes |
| MobileFilters.MobileFiltersModal.Close | src/components/MobileFiltersModal.tsx:46 | the close button closes without committing the draft |
| MobileFilters.MobileFiltersModal.HandlePlaceSelected | src/components/MobileFiltersModal.tsx:54-57 | a place selection forwards only its coordinate and changes neither filter state |
| MobileFilters.DraftScenario | src/components/MobileFiltersModal.tsx:23-39 | edits leave the committed state alone; applying commits exactly the edited draft, and closing keeps the old committed state |
| PropertiesHook.TimestampOrZero | src/hooks/useProperties.ts:45 | createdAt is the stored value when present, else 0 |
| PropertiesHook.AddressOrEmpty | src/hooks/useProperties.ts:46 | address is the stored value when present, else "" |
| PropertiesHook.ToProperty | src/hooks/useProperties.ts:31-47 | a document becomes a listing with the document's id, its fields verbatim, and the two defaults |
| PropertiesHook.Normalize | src/hooks/useProperties.ts:30-48 | the list has the snapshot's length and order, with each listing's id and fields from the document at the same position |
| PropertiesHook.NormalizeAt | src/hooks/useProperties.ts:30-48 | the listing at each position is the normalisation of the document at that position |
| PropertiesHook.AddDocument | src/hooks/useProperties.ts:61-67 | addProperty writes the given fields plus createdAt set to the current time |
| PropertiesHook.UpdateDocument | src/hooks/useProperties.ts:69-71 | updateProperty replaces the given fields and keeps createdAt and address |
| PropertiesHook.AddedListingReadsBack | src/hooks/useProperties.ts:61-67 | an added listing comes back with its id, the form's fields, the stamped time and an empty address |
| PropertiesHook.UpdatedListingReadsBack | src/hooks/useProperties.ts:69-71 | an edited listing comes back with the new fields and its old id, timestamp and address |
| PropertiesHook.PropertiesState.constructor | src/hooks/useProperties.ts:17-18 | the list starts empty and loading starts true |
| PropertiesHook.PropertiesState.OnSnapshot | src/hooks/useProperties.ts:29-51 | a snapshot replaces the whole list with its normalisation and sets loading to false |
| PropertiesHook.PropertiesState.OnError | src/hooks/useProperties.ts:52-55 | a listener error sets loading to false and leaves the list unchanged |
| PropertiesHook.LatestSnapshotWins | src/hooks/useProperties.ts:27-56 | after any earlier snapshot or error, the state is the latest snapshot's normalisation with loading false |
| MapView.Markers | src/components/MapView.tsx:42-48 | exactly one marker per listing, in order, keyed by its id, placed at its coordinate, and forwarding that listing when clicked |
| MapView.GoogleMapState.constructor | src/components/MapView.tsx:18 | before the map loads there is no map to move |
| MapView.GoogleMapState.OnLoad | src/components/MapView.tsx:20-39 | the loaded map starts at centre (34.03356615, -118.7542039) and zoom 12 |
| MapView.GoogleMapState.OnSelectionChange | src/components/MapView.tsx:26-31 | when a listing is selected and the map has loaded, the map pans to the listing's coordinate at zoom 15; when the selection is cleared or the map has not loaded, the viewport is unchanged |
| MapView.SelectThenClear | src/components/MapView.tsx:26-47 | clicking a listing's marker centres the loaded map on that listing at zoom 15, and clearing the selection leaves the viewport there |
| AddressDisplay.InitialAddress | src/components/AddressDisplay.tsx:16 | the address starts as existingAddress when present, and "" otherwise |
| AddressDisplay.SkipsLookup | src/components/AddressDisplay.tsx:20 | the effect returns early when an address is known or either coordinate is 0 |
| AddressDisplay.LookupSent | src/components/AddressDisplay.tsx:20-25 | a request goes out only when the lookup is not skipped and an API key is configured |
| AddressDisplay.Adopt | src/components/AddressDisplay.tsx:29-31 | a response with results gives the first result's formatted address; no result or a failure leaves the address unchanged |
| AddressDisplay.Rendered | src/components/AddressDisplay.tsx:40-45 | renders "Unknown Location" when lat and lng are 0 and there is no address; otherwise the address if non-empty, else the coordinate pair |
| AddressDisplay.AddressLine.constructor | src/components/AddressDisplay.tsx:16 | the address state starts as the initial address |
| AddressDisplay.AddressLine.ReceiveProps | src/components/AddressDisplay.tsx:11-15 | new props keep the address state |
| AddressDisplay.AddressLine.RunLookupEffect | src/components/AddressDisplay.tsx:18-38 | with an existing address, lat 0, lng 0 or no API key, nothing is looked up; otherwise the response's first result, if any, is adopted |
| AddressDisplay.StoredAddressShown | src/components/AddressDisplay.tsx:16-45 | a stored address is shown whatever the coordinates, key or lookup response |
| AddressDisplay.CoordinatesFallback | src/components/AddressDisplay.tsx:16-45 | with no stored address, a coordinate that is not (0, 0) and no usable response, the coordinate pair is shown |

## Left out

- Filter matching and polygon geofencing: no shown file has either, so neither is modelled.
- JavaScript numbers: fractional amounts, `Number()` producing NaN, the float and exponent renderings of large or fractional numbers, and `toLocaleString`. These are host-library formatting, so amounts are unbounded integers rendered in plain decimal.
- PropertyForm.Validate: it does not model a NaN field. NaN passes `price <= 0` and the coordinate range tests in the source, because every comparison with NaN is false.
- Store plumbing: the `onSnapshot` subscription and unsubscribe, the `orderBy("createdAt", "desc")` query, and the network behind `addDoc`/`updateDoc` are a third-party store. A snapshot's document order is an input.
- PropertiesHook.ToProperty: it does not model missing document fields other than `createdAt` and `address`. The source copies an absent field as `undefined`.
- `fetchProperties`, which the page destructures from the hook: the hook does not return it, so it is not modelled.
- Google Maps rendering, the `GoogleMap` component's own handling of its `center`/`zoom` props after load, and Places autocomplete (`src/components/SearchBar.tsx`): these are foreign library objects. The map is reduced to its viewport.
- The reverse-geocoding request (URL construction, `fetch`, JSON decoding): this is network I/O. Its outcome is a `GeocodeResponse` input.
- Asynchrony: a geocoding response or store outcome is paired with the props of the call that made it. A late response that arrives after the props change is not modelled.
- React scheduling: effects run when their dependencies change, and each effect is modelled as a method the caller invokes after the change. A selection effect does not rerun for the same object.
- The loading screen (`if (loading)`) and `if (!open) return null` are rendering. The modal handlers require `open`, because their controls exist only while the modal is open.
- `src/hooks/useIsMobile.ts` (browser resize events) and the presentational components (`PropertyList`, `Sidebar`, `PropertyCard`, `PropertyDetailsModal`, `Navbar`, `TopBar`, `layout.tsx`, `next.config.ts`): they hold markup, CSS and configuration.
