/** `PropertyRepository`: the search query, and find, replace, cascade delete
    and insert over the Properties collection. */
module PropertyStore {
  import opened Common
  import opened Entities
  import opened Documents
  import opened Persistence
  import opened PropertySearch

  /** The id generator of the `IdProperty` mapping fills an empty id on insert. */
  function PropertyWithId(property: Property, generatedId: Guid): (p: Property)
    ensures property.idProperty != EmptyGuid ==> p == property
    ensures property.idProperty == EmptyGuid ==> p == property.(idProperty := generatedId)
  {
    if property.idProperty == EmptyGuid then property.(idProperty := generatedId) else property
  }

  class PropertyRepository {
    const context: MillionDbContext

    constructor (context: MillionDbContext)
      ensures this.context == context
    {
      this.context := context;
    }

    /** The filtered, counted, paged and joined query over the current
        collections. */
    method GetPropertiesAsync(name: Option<string>, address: Option<string>,
                              minPrice: Option<Decimal>, maxPrice: Option<Decimal>,
                              pageNumber: Int32, pageSize: Int32, propertyId: Option<Guid>)
      returns (r: Result<SearchResult, Exception>)
      ensures r == Search(context.properties, context.owners, context.propertyImages,
                          Criteria(name, address, minPrice, maxPrice, propertyId), pageNumber, pageSize)
    {
      r := Search(context.properties, context.owners, context.propertyImages,
                  Criteria(name, address, minPrice, maxPrice, propertyId), pageNumber, pageSize);
    }

    /** The stored property with that id, or null; no join is made. */
    method GetByIdAsync(id: Guid) returns (r: Option<Property>)
      ensures r.Some? ==> r.value in context.properties && r.value.idProperty == id
      ensures r.None? <==> forall p :: p in context.properties ==> p.idProperty != id
    {
      r := FindFirst(context.properties, PropertyKey, id);
    }

    /** `ReplaceOne` by `IdProperty`: only the document with the same id becomes
        `property`; without one nothing changes. */
    method UpdateAsync(property: Property)
      requires context.Valid()
      modifies context
      ensures context.Valid()
      ensures |context.properties| == |old(context.properties)|
      ensures forall k :: 0 <= k < |context.properties| ==>
        context.properties[k] ==
          if old(context.properties)[k].idProperty == property.idProperty then property else old(context.properties)[k]
      ensures context.owners == old(context.owners)
      ensures context.propertyImages == old(context.propertyImages)
      ensures context.propertyTraces == old(context.propertyTraces)
    {
      ReplaceOneUnique(context.properties, PropertyKey, property);
      context.properties := ReplaceOne(context.properties, PropertyKey, property.idProperty, property);
    }

    /** Every image of the property goes, then the property itself; traces,
        owners and other properties' images stay. */
    method DeleteAsync(id: Guid)
      requires context.Valid()
      modifies context
      ensures context.Valid()
      ensures context.propertyImages == DeleteMany(old(context.propertyImages), ImagePropertyKey, id)
      ensures context.properties == DeleteMany(old(context.properties), PropertyKey, id)
      ensures context.owners == old(context.owners)
      ensures context.propertyTraces == old(context.propertyTraces)
    {
      WhereKeepsUnique(context.propertyImages, ImageKey, KeyIsNot(ImagePropertyKey, id));
      context.propertyImages := DeleteMany(context.propertyImages, ImagePropertyKey, id);
      DeleteKeepsUnique(context.properties, PropertyKey, id);
      DeleteOneUnique(context.properties, PropertyKey, id);
      context.properties := DeleteOne(context.properties, PropertyKey, id);
    }

    /** `InsertOne`, then the same property back. */
    method AddAsync(property: Property, generatedId: Guid) returns (r: Result<Property, Exception>)
      requires context.Valid()
      modifies context
      ensures context.Valid()
      ensures var stored := PropertyWithId(property, generatedId);
        if HasKey(old(context.properties), PropertyKey, stored.idProperty)
        then r == Failure(DuplicateKeyError()) && context.properties == old(context.properties)
        else r == Success(stored) && context.properties == old(context.properties) + [stored]
      ensures context.owners == old(context.owners)
      ensures context.propertyImages == old(context.propertyImages)
      ensures context.propertyTraces == old(context.propertyTraces)
    {
      var stored := PropertyWithId(property, generatedId);
      if HasKey(context.properties, PropertyKey, stored.idProperty) {
        r := Failure(DuplicateKeyError());
      } else {
        InsertKeepsUnique(context.properties, PropertyKey, stored);
        context.properties := context.properties + [stored];
        r := Success(stored);
      }
    }
  }
}
