/**
 * The mobile filters modal (src/components/MobileFiltersModal.tsx): a
 * draft copy of the filter state, taken once on first render, edited by
 * the same updaters as the filter bar, and committed to the parent's state
 * only by "See Properties".
 */
module MobileFilters {
  import opened Listing
  import FilterBar

  class MobileFiltersModal {
    var open: bool
    /** The parent's committed filter state. */
    var filterState: FilterState
    /** The draft the controls edit. */
    var tempFilter: FilterState

    /** First render: the draft is a copy of the committed state. */
    constructor (open: bool, filterState: FilterState)
      ensures this.open == open && this.filterState == filterState
      ensures tempFilter == filterState
    {
      this.open := open;
      this.filterState := filterState;
      tempFilter := filterState;
    }

    /** The parent's state changes elsewhere: the draft is not refreshed. */
    method ReceiveFilterState(f: FilterState)
      modifies this`filterState
      ensures filterState == f
    {
      filterState := f;
    }

    /** The parent opens the modal. */
    method Open()
      modifies this`open
      ensures open
    {
      open := true;
    }

    method EditListingType(value: string)
      requires open
      modifies this`tempFilter
      ensures tempFilter == FilterBar.WithListingType(old(tempFilter), value)
    {
      tempFilter := FilterBar.WithListingType(tempFilter, value);
    }

    /** The price dropdown's `onChange` writes both bounds of the draft. */
    method HandlePriceChange(minPrice: int, maxPrice: int)
      requires open
      modifies this`tempFilter
      ensures tempFilter == FilterBar.WithPrice(old(tempFilter), minPrice, maxPrice)
    {
      tempFilter := FilterBar.WithPrice(tempFilter, minPrice, maxPrice);
    }

    method EditPropertyType(propertyType: string)
      requires open
      modifies this`tempFilter
      ensures tempFilter == FilterBar.WithPropertyType(old(tempFilter), propertyType)
    {
      tempFilter := FilterBar.WithPropertyType(tempFilter, propertyType);
    }

    method EditBeds(beds: int)
      requires open
      modifies this`tempFilter
      ensures tempFilter == FilterBar.WithBeds(old(tempFilter), beds)
    {
      tempFilter := FilterBar.WithBeds(tempFilter, beds);
    }

    method EditBaths(baths: int)
      requires open
      modifies this`tempFilter
      ensures tempFilter == FilterBar.WithBaths(old(tempFilter), baths)
    {
      tempFilter := FilterBar.WithBaths(tempFilter, baths);
    }

    /** Reset restores the default draft; nothing is committed or closed. */
    method Reset()
      requires open
      modifies this`tempFilter
      ensures tempFilter == DefaultFilterState
    {
      tempFilter := FilterState(false, 0, NoMaxPrice, "", 0, 0);
    }

    /** "See Properties" commits the draft exactly, then closes. */
    method HandleApply()
      requires open
      modifies this`filterState, this`open
      ensures filterState == tempFilter && !open
    {
      filterState := tempFilter;
      open := false;
    }

    /** The close button: the draft is dropped from view, not committed. */
    method Close()
      requires open
      modifies this`open
      ensures !open
    {
      open := false;
    }

    /** A place chosen in the modal's search box is forwarded as a
        coordinate; neither filter state changes. */
    method HandlePlaceSelected(lat: real, lng: real, address: string) returns (forwarded: LatLng)
      requires open
      ensures forwarded == LatLng(lat, lng)
    {
      forwarded := LatLng(lat, lng);
    }
  }

  /** Edits are isolated in the draft: after any sequence of edits the
      committed state is what it was, and "See Properties" makes it the
      draft, while the close button leaves it as it was. */
  method DraftScenario(committed: FilterState, beds: int, minPrice: int, maxPrice: int, apply: bool)
    returns (before: FilterState, after: FilterState)
    ensures before == committed
    ensures apply ==> after == committed.(beds := beds, minPrice := minPrice, maxPrice := maxPrice)
    ensures !apply ==> after == committed
  {
    var modal := new MobileFiltersModal(true, committed);
    modal.EditBeds(beds);
    modal.HandlePriceChange(minPrice, maxPrice);
    before := modal.filterState;
    if apply {
      modal.HandleApply();
    } else {
      modal.Close();
    }
    after := modal.filterState;
  }
}
