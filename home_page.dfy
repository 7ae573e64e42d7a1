/**
 * The home page's state (src/app/page.tsx): the listings received from the
 * properties hook, the chosen sort option, the displayed list, and the
 * selection that drives the details modal. The displayed list is always the
 * stable sort of the current listings by the current option: the sort
 * effect reruns whenever either of them changes, and no filter is applied.
 */
module HomePage {
  import opened Wrappers
  import opened Listing
  import opened SortEngine

  class Page {
    var properties: seq<Property>
    var sortOption: SortOption
    var filteredProps: seq<Property>
    var selectedProperty: Option<Property>
    var showDetailsModal: bool
    var addModalOpen: bool

    /** The displayed list is the sorted copy of the current listings. */
    ghost predicate Valid()
      reads this
    {
      filteredProps == SortedBy(properties, sortOption)
    }

    /** The page's initial state: nothing loaded, nothing selected, newest first. */
    constructor ()
      ensures Valid()
      ensures properties == [] && filteredProps == []
      ensures sortOption == DefaultSortOption
      ensures selectedProperty == None && !showDetailsModal && !addModalOpen
    {
      properties := [];
      sortOption := DefaultSortOption;
      filteredProps := [];
      selectedProperty := None;
      showDetailsModal := false;
      addModalOpen := false;
    }

    /** The sort effect: copies the listings, sorts the copy and shows it. */
    method RunSortEffect()
      modifies this`filteredProps
      ensures Valid()
    {
      filteredProps := SortedCopy(properties, sortOption);
    }

    /** A new list from the properties hook; the sort effect follows. */
    method ReceiveProperties(ps: seq<Property>)
      modifies this`properties, this`filteredProps
      ensures Valid() && properties == ps
    {
      properties := ps;
      RunSortEffect();
    }

    /** The "Sort By" select; the sort effect follows. */
    method SetSortOption(option: SortOption)
      modifies this`sortOption, this`filteredProps
      ensures Valid() && sortOption == option
    {
      sortOption := option;
      RunSortEffect();
    }

    /** A marker or sidebar item was clicked: select it and open its details. */
    method HandlePropertySelect(prop: Property)
      modifies this`selectedProperty, this`showDetailsModal
      ensures selectedProperty == Some(prop) && showDetailsModal
    {
      selectedProperty := Some(prop);
      showDetailsModal := true;
    }

    /** The details modal was closed: hide it and clear the selection. */
    method HandleCloseModal()
      modifies this`selectedProperty, this`showDetailsModal
      ensures selectedProperty == None && !showDetailsModal
    {
      showDetailsModal := false;
      selectedProperty := None;
    }

    /** A place picked in the search bar is only logged: no state changes. */
    method HandlePlaceSelected(lat: real, lng: real, address: string)
      ensures unchanged(this)
    {
    }

    /** The "Add Property" button and the add modal's close callback. */
    method SetAddModalOpen(isOpen: bool)
      modifies this`addModalOpen
      ensures addModalOpen == isOpen
    {
      addModalOpen := isOpen;
    }
  }

  /** What the page displays after a sort change is a permutation of the
      listings, ordered by the new option, with ties in input order, and
      the listings themselves are left as they were. */
  method SortChangeScenario(ps: seq<Property>, option: SortOption)
    returns (shown: seq<Property>)
    ensures multiset(shown) == multiset(ps)
    ensures IsStableSortOf(shown, ps, option)
  {
    var page := new Page();
    page.ReceiveProperties(ps);
    page.SetSortOption(option);
    shown := page.filteredProps;
    SortedByPermutes(ps, option);
    SortedByIsStableSort(ps, shown, option);
  }
}
