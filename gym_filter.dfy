/**
 * The filter panel of the gym list: a local filter record edited field by
 * field. Search edits are reported to the page at once; price and sort edits
 * wait for their Apply buttons, which report the whole record.
 */
module GymFilter {
  import opened Common
  import opened Types
  import GymsList

  class FilterPanel {
    var filters: GymsList.FilterOptions
    /** The records handed to `onFilterChange`, oldest first. */
    var reported: seq<GymsList.FilterOptions>

    /** No handler touches the amenities or the category, so they keep their
        initial values in the local record and in every report. */
    ghost predicate Valid()
      reads this
    {
      filters.amenities == [] && filters.category == "" &&
      forall i :: 0 <= i < |reported| ==> reported[i].amenities == [] && reported[i].category == ""
    }

    constructor ()
      ensures Valid()
      ensures filters == GymsList.InitialFilters && reported == []
    {
      filters := GymsList.InitialFilters;
      reported := [];
    }

    /** Typing in the search box updates the record and reports it. */
    method HandleSearchChange(text: string)
      requires Valid()
      modifies this
      ensures Valid()
      ensures filters == old(filters).(search := text)
      ensures reported == old(reported) + [filters]
    {
      filters := filters.(search := text);
      reported := reported + [filters];
    }

    /** One of the two number inputs; `parsed` is the integer `parseInt`
        read from it. Only that bound changes and nothing is reported. */
    method HandlePriceRangeChange(index: int, parsed: int)
      requires Valid()
      requires index == 0 || index == 1
      modifies this
      ensures Valid()
      ensures index == 0 ==> filters.priceRange == (parsed as real, old(filters).priceRange.1)
      ensures index == 1 ==> filters.priceRange == (old(filters).priceRange.0, parsed as real)
      ensures filters == old(filters).(priceRange := filters.priceRange)
      ensures reported == old(reported)
    {
      if index == 0 {
        filters := filters.(priceRange := (parsed as real, filters.priceRange.1));
      } else {
        filters := filters.(priceRange := (filters.priceRange.0, parsed as real));
      }
    }

    /** "Apply Price Range" reports the record as it stands. */
    method ApplyPriceRange()
      requires Valid()
      modifies this
      ensures Valid()
      ensures filters == old(filters) && reported == old(reported) + [filters]
    {
      reported := reported + [filters];
    }

    /** Choosing a sort order changes only `sortBy` and reports nothing. */
    method HandleSortChange(value: string)
      requires Valid()
      modifies this
      ensures Valid()
      ensures filters == old(filters).(sortBy := value) && reported == old(reported)
    {
      filters := filters.(sortBy := value);
    }

    /** "Apply Sort" reports the record as it stands. */
    method ApplySort()
      requires Valid()
      modifies this
      ensures Valid()
      ensures filters == old(filters) && reported == old(reported) + [filters]
    {
      reported := reported + [filters];
    }
  }

  /** Only the search and the price range of a reported record decide which
      gyms the list keeps. */
  lemma ReportedRecordFiltersBySearchAndPrice(f: GymsList.FilterOptions, gyms: seq<Gym>, g: Gym)
    requires f.amenities == [] && f.category == ""
    ensures g in GymsList.Pipeline(gyms, f) <==>
      g in gyms && (f.search == "" || GymsList.MatchesSearch(g, f.search)) &&
      f.priceRange.0 <= g.price <= f.priceRange.1
  {
    GymsList.PipelineMembership(gyms, f, g);
  }

  /** A pending sort choice travels with "Apply Price Range", and a pending
      price edit with "Apply Sort": each Apply reports both. */
  method PendingEditsTravelTogether(lo: int, sortBy: string) returns (first: GymsList.FilterOptions, second: GymsList.FilterOptions)
    ensures first.sortBy == sortBy && first.priceRange == (lo as real, 200.0)
    ensures second == first
  {
    var panel := new FilterPanel();
    panel.HandleSortChange(sortBy);
    panel.HandlePriceRangeChange(0, lo);
    panel.ApplyPriceRange();
    first := panel.reported[0];
    panel.ApplySort();
    second := panel.reported[1];
  }
}
