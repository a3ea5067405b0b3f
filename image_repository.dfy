/** `PropertyImageRepository`: insert, list by property, find and delete over
    the PropertyImages collection. */
module ImageStore {
  import opened Common
  import opened Entities
  import opened Documents
  import opened Persistence

  /** The id generator of the `IdPropertyImage` mapping fills an empty id on insert. */
  function ImageWithId(image: PropertyImage, generatedId: Guid): (i: PropertyImage)
    ensures image.idPropertyImage != EmptyGuid ==> i == image
    ensures image.idPropertyImage == EmptyGuid ==> i == image.(idPropertyImage := generatedId)
  {
    if image.idPropertyImage == EmptyGuid then image.(idPropertyImage := generatedId) else image
  }

  class PropertyImageRepository {
    const context: MillionDbContext

    constructor (context: MillionDbContext)
      ensures this.context == context
    {
      this.context := context;
    }

    /** `InsertOne`, then the same image back (with its id filled in). */
    method AddAsync(image: PropertyImage, generatedId: Guid) returns (r: Result<PropertyImage, Exception>)
      requires context.Valid()
      modifies context
      ensures context.Valid()
      ensures var stored := ImageWithId(image, generatedId);
        if HasKey(old(context.propertyImages), ImageKey, stored.idPropertyImage)
        then r == Failure(DuplicateKeyError()) && context.propertyImages == old(context.propertyImages)
        else r == Success(stored) && context.propertyImages == old(context.propertyImages) + [stored]
      ensures context.owners == old(context.owners)
      ensures context.properties == old(context.properties)
      ensures context.propertyTraces == old(context.propertyTraces)
    {
      var stored := ImageWithId(image, generatedId);
      if HasKey(context.propertyImages, ImageKey, stored.idPropertyImage) {
        r := Failure(DuplicateKeyError());
      } else {
        InsertKeepsUnique(context.propertyImages, ImageKey, stored);
        context.propertyImages := context.propertyImages + [stored];
        r := Success(stored);
      }
    }

    /** Exactly the images whose IdProperty is `propertyId`, in store order. */
    method GetByPropertyIdAsync(propertyId: Guid) returns (r: seq<PropertyImage>)
      ensures r == FindAll(context.propertyImages, ImagePropertyKey, propertyId)
      ensures forall i :: i in r <==> i in context.propertyImages && i.idProperty == propertyId
    {
      r := FindAll(context.propertyImages, ImagePropertyKey, propertyId);
    }

    /** The image with that IdPropertyImage, or null. */
    method GetByIdAsync(imageId: Guid) returns (r: Option<PropertyImage>)
      ensures r.Some? ==> r.value in context.propertyImages && r.value.idPropertyImage == imageId
      ensures r.None? <==> forall i :: i in context.propertyImages ==> i.idPropertyImage != imageId
    {
      r := FindFirst(context.propertyImages, ImageKey, imageId);
    }

    /** `DeleteOne` by IdPropertyImage: exactly that image goes; an absent id
        changes nothing. */
    method DeleteAsync(imageId: Guid)
      requires context.Valid()
      modifies context
      ensures context.Valid()
      ensures context.propertyImages == DeleteMany(old(context.propertyImages), ImageKey, imageId)
      ensures (forall i :: i in old(context.propertyImages) ==> i.idPropertyImage != imageId)
              ==> context.propertyImages == old(context.propertyImages)
      ensures context.owners == old(context.owners)
      ensures context.properties == old(context.properties)
      ensures context.propertyTraces == old(context.propertyTraces)
    {
      DeleteKeepsUnique(context.propertyImages, ImageKey, imageId);
      DeleteOneUnique(context.propertyImages, ImageKey, imageId);
      context.propertyImages := DeleteOne(context.propertyImages, ImageKey, imageId);
    }
  }
}
