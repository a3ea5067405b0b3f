/** The document store: the four collections of `MillionDbContext`, each a
    sequence in natural order. Every entity's id is mapped to the collection's
    `_id`, which the store keeps unique. */
module Persistence {
  import opened Common
  import opened Entities
  import opened Documents

  /** What the store answers when an insert reuses an existing `_id`. */
  const DuplicateKeyMessage: string := "E11000 duplicate key error"

  function DuplicateKeyError(): Exception {
    OtherException(DuplicateKeyMessage)
  }

  class MillionDbContext {
    var owners: seq<Owner>
    var properties: seq<Property>
    var propertyImages: seq<PropertyImage>
    var propertyTraces: seq<PropertyTrace>

    /** No two documents of one collection share an `_id`. */
    ghost predicate Valid()
      reads this
    {
      && UniqueKeys(owners, OwnerKey)
      && UniqueKeys(properties, PropertyKey)
      && UniqueKeys(propertyImages, ImageKey)
      && UniqueKeys(propertyTraces, TraceKey)
    }

    constructor ()
      ensures Valid()
      ensures owners == [] && properties == [] && propertyImages == [] && propertyTraces == []
    {
      owners, properties, propertyImages, propertyTraces := [], [], [], [];
    }
  }
}
