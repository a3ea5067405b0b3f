/** `PagedResponse<T>`: one page of data with the paging figures the list
    endpoint reports. */
module Paging {
  import opened Common

  datatype PagedResponse<T> = PagedResponse(
    pageNumber: Int32,
    pageSize: Int32,
    totalPages: int,
    totalRecords: int,
    data: seq<T>)

  /** The least number of pages of size `size` that hold `records` records. For
      integers of `int` range the double division in the source is exact
      enough that `Math.Ceiling` of it is this value. */
  function CeilDiv(records: nat, size: nat): (pages: nat)
    requires size > 0
    ensures pages * size >= records
    ensures pages > 0 ==> (pages - 1) * size < records
    ensures records == 0 <==> pages == 0
  {
    if records == 0 then 0 else (records - 1) / size + 1
  }

  /** `CeilDiv` is the ceiling: no other page count satisfies both bounds. */
  lemma CeilDivUnique(records: nat, size: nat, pages: nat)
    requires size > 0
    requires pages * size >= records
    requires pages > 0 ==> (pages - 1) * size < records
    ensures pages == CeilDiv(records, size)
  {
    var c := CeilDiv(records, size);
    if pages < c {
      assert c - 1 >= pages;
      MultiplyMonotone(pages, c - 1, size);
    } else if pages > c {
      assert pages - 1 >= c;
      MultiplyMonotone(c, pages - 1, size);
    }
  }

  lemma MultiplyMonotone(a: nat, b: nat, size: nat)
    requires a <= b
    ensures a * size <= b * size
  {
  }

  /** The constructor: the four given values are stored as they are and the
      page count is the ceiling of records over page size. */
  function NewPagedResponse<T>(data: seq<T>, pageNumber: Int32, pageSize: Int32, totalRecords: nat): (r: PagedResponse<T>)
    requires pageSize > 0
    ensures r.data == data && r.pageNumber == pageNumber && r.pageSize == pageSize
    ensures r.totalRecords == totalRecords
    ensures r.totalPages * pageSize >= totalRecords
    ensures r.totalPages > 0 ==> (r.totalPages - 1) * pageSize < totalRecords
    ensures totalRecords == 0 ==> r.totalPages == 0
  {
    PagedResponse(pageNumber, pageSize, CeilDiv(totalRecords, pageSize), totalRecords, data)
  }
}
