/** The state of the orders screen (`OrdersManagementClient`): the page, the search term, the
    status filter and the sort. Sorting and filtering go back to the first page. Order statuses
    are database enum values, kept here as strings. */
module OrdersManagementClient {
  import opened Common

  /** `SortableFields` */
  datatype SortField = OrderNumber | UpdatedAt

  datatype SortOrder = Asc | Desc

  /** `handleSort` without the page reset: the current field toggles its order; another field
      is sorted ascending. The CSV preview has its own handler of the same shape over its own
      columns (`CsvPreview.NextSort`); the two components do not share code. */
  function NextSort(field: SortField, order: SortOrder, clicked: SortField): (r: (SortField, SortOrder))
    ensures r.0 == clicked
    ensures clicked == field ==> r.1 != order
    ensures clicked != field ==> r.1 == Asc
  {
    if clicked == field then (field, if order == Asc then Desc else Asc) else (clicked, Asc)
  }

  /** Sorting by the current field twice restores the sort; sorting by another field twice
      leaves it descending. */
  lemma SortTwice(field: SortField, order: SortOrder, clicked: SortField)
    ensures var once := NextSort(field, order, clicked);
      NextSort(once.0, once.1, clicked) == (clicked, if clicked == field then order else Desc)
  {
  }

  class Screen {
    var page: int
    var searchTerm: string
    var statusFilter: Option<string>
    var sortBy: SortField
    var sortOrder: SortOrder

    /** The first page, newest order numbers first. */
    constructor()
      ensures page == 1 && searchTerm == "" && statusFilter.None? && sortBy == OrderNumber && sortOrder == Desc
    {
      page := 1;
      searchTerm := "";
      statusFilter := None;
      sortBy := OrderNumber;
      sortOrder := Desc;
    }

    /** `handleSort` */
    method HandleSort(clicked: SortField)
      modifies this
      ensures (sortBy, sortOrder) == NextSort(old(sortBy), old(sortOrder), clicked)
      ensures page == 1 && searchTerm == old(searchTerm) && statusFilter == old(statusFilter)
    {
      if clicked == sortBy {
        sortOrder := if sortOrder == Asc then Desc else Asc;
      } else {
        sortBy := clicked;
        sortOrder := Asc;
      }
      page := 1;
    }

    /** `onSearchChange` */
    method SearchChanged(term: string)
      modifies this
      ensures searchTerm == term && page == 1
      ensures statusFilter == old(statusFilter) && sortBy == old(sortBy) && sortOrder == old(sortOrder)
    {
      searchTerm := term;
      page := 1;
    }

    /** `onStatusFilterChange` */
    method StatusFilterChanged(status: Option<string>)
      modifies this
      ensures statusFilter == status && page == 1
      ensures searchTerm == old(searchTerm) && sortBy == old(sortBy) && sortOrder == old(sortOrder)
    {
      statusFilter := status;
      page := 1;
    }

    /** `onPageChange`: the page the table asks for, as it is. */
    method PageChanged(p: int)
      modifies this
      ensures page == p
      ensures searchTerm == old(searchTerm) && statusFilter == old(statusFilter)
      ensures sortBy == old(sortBy) && sortOrder == old(sortOrder)
    {
      page := p;
    }
  }
}
