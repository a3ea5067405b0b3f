/** The filter bar: a local copy of the filters that the inputs edit, pushed to
    the global store only by Search. */
module FilterBarState {
  import opened JsObjects
  import opened FilterState

  /** What Clear leaves in the local state: every field explicitly undefined. */
  const ClearedLocalFilters: JsObject :=
    [("name", Undefined), ("address", Undefined), ("minPrice", Undefined), ("maxPrice", Undefined)]

  /** An input's new value: an empty input is `undefined`. */
  function InputValue(value: string): (v: JsValue)
    ensures value == "" <==> v == Undefined
    ensures value != "" ==> v == Str(value)
  {
    if value == "" then Undefined else Str(value)
  }

  class FilterBar {
    const store: FilterStore
    var localFilters: JsObject

    ghost predicate Valid()
      reads this, store
    {
      store.Valid() && WellFormed(localFilters)
    }

    /** `useState(globalFilters)`. */
    constructor (store: FilterStore)
      requires store.Valid()
      ensures this.store == store && Valid()
      ensures localFilters == store.filters
    {
      this.store := store;
      localFilters := store.filters;
    }

    /** The effect on `[globalFilters]`: the local copy is replaced. */
    method OnGlobalFiltersChanged()
      requires Valid()
      modifies this
      ensures Valid()
      ensures localFilters == store.filters
    {
      localFilters := store.filters;
    }

    /** `handleInputChange`: only the named local field changes; the store is
        left alone. */
    method HandleInputChange(name: string, value: string)
      requires Valid()
      modifies this
      ensures Valid()
      ensures localFilters == Assign(old(localFilters), name, InputValue(value))
      ensures forall k :: Get(localFilters, k) == if k == name then InputValue(value) else Get(old(localFilters), k)
      ensures store.filters == old(store.filters) && store.pagination == old(store.pagination)
    {
      forall k ensures Get(Assign(localFilters, name, InputValue(value)), k) ==
        if k == name then InputValue(value) else Get(localFilters, k)
      {
        AssignGet(localFilters, name, InputValue(value), k);
      }
      AssignWellFormed(localFilters, name, InputValue(value));
      localFilters := Assign(localFilters, name, InputValue(value));
    }

    /** `handleSearch`: the local filters go to `setFilters`. */
    method HandleSearch()
      requires Valid()
      modifies store
      ensures Valid()
      ensures store.filters == Spread(old(store.filters), localFilters)
      ensures store.pagination == Pagination(1, GridPageSize)
      ensures localFilters == old(localFilters)
    {
      store.SetFilters(localFilters);
    }

    /** `handleClear`: the store is cleared and the four local fields become
        undefined. */
    method HandleClear()
      requires Valid()
      modifies this, store
      ensures Valid()
      ensures store.filters == InitialFilters && store.pagination == InitialPagination
      ensures localFilters == ClearedLocalFilters
    {
      store.ClearFilters();
      localFilters := ClearedLocalFilters;
    }
  }
}
