/** The four stored entities (Owner, Property, PropertyImage, PropertyTrace) and
    the keys the store looks them up by. */
module Entities {
  import opened Common

  /** A `System.Guid`, as an opaque number; `EmptyGuid` is `Guid.Empty`. */
  type Guid = nat
  const EmptyGuid: Guid := 0

  /** C# `decimal` prices, modelled as integers (for instance, in cents). */
  type Decimal = int

  /** A `DateTime`, as a tick count. */
  type Timestamp = int

  datatype Owner = Owner(
    idOwner: Guid,
    name: string,
    address: string,
    photo: string,
    birthday: Timestamp)

  datatype PropertyImage = PropertyImage(
    idPropertyImage: Guid,
    idProperty: Guid,
    file: string,
    publicId: string,
    enabled: bool)

  datatype PropertyTrace = PropertyTrace(
    idPropertyTrace: Guid,
    dateSale: Timestamp,
    name: string,
    value: Decimal,
    tax: Decimal,
    idProperty: Guid)

  /** A property document. `owner` and `propertyImages` are filled in by the
      search query's joins; a document read back by id carries whatever was
      stored in them. */
  datatype Property = Property(
    idProperty: Guid,
    name: string,
    address: string,
    price: Decimal,
    codeInternal: string,
    year: int,
    idOwner: Guid,
    owner: Option<Owner>,
    propertyImages: seq<PropertyImage>)

  // The fields the store's filters compare against.

  function OwnerKey(o: Owner): Guid { o.idOwner }
  function PropertyKey(p: Property): Guid { p.idProperty }
  function ImageKey(i: PropertyImage): Guid { i.idPropertyImage }
  function ImagePropertyKey(i: PropertyImage): Guid { i.idProperty }
  function TraceKey(t: PropertyTrace): Guid { t.idPropertyTrace }
  function TracePropertyKey(t: PropertyTrace): Guid { t.idProperty }
}
