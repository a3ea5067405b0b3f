/** The global filter and pagination store behind the property list. */
module FilterState {
  import opened JsObjects

  datatype Pagination = Pagination(pageNumber: int, pageSize: int)

  /** Three by three cards per page. */
  const GridPageSize: int := 9

  const InitialFilters: JsObject :=
    [("name", Str("")), ("address", Str("")), ("minPrice", Undefined), ("maxPrice", Undefined)]

  const InitialPagination: Pagination := Pagination(1, GridPageSize)

  class FilterStore {
    var filters: JsObject
    var pagination: Pagination

    /** No action ever changes the page size. */
    ghost predicate Valid()
      reads this
    {
      WellFormed(filters) && pagination.pageSize == GridPageSize
    }

    constructor ()
      ensures Valid()
      ensures filters == InitialFilters && pagination == InitialPagination
    {
      filters, pagination := InitialFilters, InitialPagination;
    }

    /** `setFilters`: the supplied keys are overwritten, the rest kept, and the
        list goes back to page 1. */
    method SetFilters(newFilters: JsObject)
      requires Valid() && WellFormed(newFilters)
      modifies this
      ensures Valid()
      ensures filters == Spread(old(filters), newFilters)
      ensures forall k :: Get(filters, k) == if Has(newFilters, k) then Get(newFilters, k) else Get(old(filters), k)
      ensures pagination == Pagination(1, old(pagination.pageSize))
    {
      forall k ensures Get(Spread(filters, newFilters), k) ==
        if Has(newFilters, k) then Get(newFilters, k) else Get(filters, k)
      {
        SpreadGet(filters, newFilters, k);
      }
      SpreadKeys(filters, newFilters, "");
      filters := Spread(filters, newFilters);
      pagination := pagination.(pageNumber := 1);
    }

    /** `setPageNumber`: only the page number moves. */
    method SetPageNumber(page: int)
      requires Valid()
      modifies this
      ensures Valid()
      ensures filters == old(filters)
      ensures pagination == Pagination(page, old(pagination.pageSize))
    {
      pagination := pagination.(pageNumber := page);
    }

    /** `clearFilters`: back to the initial state, whatever the state was, so
        clearing twice is clearing once. */
    method ClearFilters()
      modifies this
      ensures Valid()
      ensures filters == InitialFilters && pagination == InitialPagination
    {
      filters := InitialFilters;
      pagination := InitialPagination.(pageNumber := 1);
    }

    /** `{ ...filters, ...pagination }`, the object the list hands to
        `getProperties`: the filters followed by the two paging keys. */
    function Query(): (q: JsObject)
      reads this
      ensures Get(q, "pageNumber") == Num(pagination.pageNumber)
      ensures Get(q, "pageSize") == Num(pagination.pageSize)
      ensures forall k :: k != "pageNumber" && k != "pageSize" ==> Get(q, k) == Get(filters, k)
      ensures |q| >= |filters| && forall i :: 0 <= i < |filters| ==> q[i].0 == filters[i].0
    {
      var paging := [("pageNumber", Num(pagination.pageNumber)), ("pageSize", Num(pagination.pageSize))];
      assert paging[0].0 == "pageNumber" && paging[1].0 == "pageSize";
      forall k ensures Get(Spread(filters, paging), k) == if Has(paging, k) then Get(paging, k) else Get(filters, k) {
        SpreadGet(filters, paging, k);
      }
      Spread(filters, paging)
    }
  }
}
