/** `PropertiesController`: the property endpoints over the four repositories,
    their NotFound/BadRequest guards, the list DTO projection, the price update
    with its trace, and the image endpoints. */
module PropertiesApi {
  import opened Common
  import opened Entities
  import opened Documents
  import opened Persistence
  import opened PropertySearch
  import opened PropertyStore
  import opened ImageStore
  import opened TraceStore
  import opened OwnerStore
  import opened Paging
  import opened Actions

  datatype PropertyDto = PropertyDto(
    idProperty: Guid,
    idOwner: Guid,
    ownerName: string,
    ownerPhoto: string,
    name: string,
    address: string,
    price: Decimal,
    year: int,
    image: string)

  datatype CreatePropertyDto = CreatePropertyDto(
    name: string,
    address: string,
    price: Decimal,
    year: int,
    idOwner: Guid)

  datatype AddImageRequestDto = AddImageRequestDto(imageUrl: string, publicId: string)

  datatype PropertyImageDto = PropertyImageDto(id: Guid, url: string)

  /** The anonymous `{ imageId }` body of `AddImageToProperty`. */
  datatype ImageCreated = ImageCreated(imageId: Guid)

  const DefaultPageNumber: Int32 := 1
  const DefaultPageSize: Int32 := 10
  const OwnerNotFound: string := "Owner not found."
  const PropertyNotFound: string := "Property not found"
  const PriceUpdate: string := "Price Update"

  /** `FirstOrDefault(pi => pi.Enabled)`. */
  function FirstEnabled(images: seq<PropertyImage>): (r: Option<PropertyImage>)
    ensures r.Some? ==> exists k :: 0 <= k < |images| && images[k] == r.value && r.value.enabled
                                  && forall j :: 0 <= j < k ==> !images[j].enabled
    ensures r.None? <==> forall k :: 0 <= k < |images| ==> !images[k].enabled
  {
    if images == [] then None
    else if images[0].enabled then Some(images[0])
    else
      assert forall k :: 0 <= k < |images| - 1 ==> images[1..][k] == images[k + 1];
      FirstEnabled(images[1..])
  }

  /** The list and by-id projection. Owner name and photo fall back to "" for a
      null owner, and the image is the file of the first enabled image, or "". */
  function ToDto(p: Property): (d: PropertyDto)
    ensures d.idProperty == p.idProperty && d.idOwner == p.idOwner
    ensures d.name == p.name && d.address == p.address && d.price == p.price && d.year == p.year
    ensures p.owner.None? ==> d.ownerName == "" && d.ownerPhoto == ""
    ensures p.owner.Some? ==> d.ownerName == p.owner.value.name && d.ownerPhoto == p.owner.value.photo
    ensures (forall k :: 0 <= k < |p.propertyImages| ==> !p.propertyImages[k].enabled) ==> d.image == ""
    ensures (exists k :: 0 <= k < |p.propertyImages| && p.propertyImages[k].enabled) ==>
      exists k :: 0 <= k < |p.propertyImages| && p.propertyImages[k].enabled
                  && p.propertyImages[k].file == d.image
                  && forall j :: 0 <= j < k ==> !p.propertyImages[j].enabled
  {
    PropertyDto(
      p.idProperty,
      p.idOwner,
      match p.owner case Some(o) => o.name case None => "",
      match p.owner case Some(o) => o.photo case None => "",
      p.name,
      p.address,
      p.price,
      p.year,
      match FirstEnabled(p.propertyImages) case Some(i) => i.file case None => "")
  }

  /** One DTO per result, in result order. */
  function ToDtos(ps: seq<Property>): (r: seq<PropertyDto>)
    ensures |r| == |ps|
    ensures forall k :: 0 <= k < |ps| ==> r[k] == ToDto(ps[k])
  {
    seq(|ps|, k requires 0 <= k < |ps| => ToDto(ps[k]))
  }

  /** The images endpoint's projection: id and URL of each image, in order. */
  function ToImageDtos(images: seq<PropertyImage>): (r: seq<PropertyImageDto>)
    ensures |r| == |images|
    ensures forall k :: 0 <= k < |images| ==>
      r[k].id == images[k].idPropertyImage && r[k].url == images[k].file
  {
    seq(|images|, k requires 0 <= k < |images| => PropertyImageDto(images[k].idPropertyImage, images[k].file))
  }

  /** The property `CreateProperty` builds: the DTO's five fields, and defaults
      (empty id and code, null owner, no images) for the rest. */
  function NewProperty(dto: CreatePropertyDto): (p: Property)
    ensures p.name == dto.name && p.address == dto.address && p.price == dto.price
    ensures p.year == dto.year && p.idOwner == dto.idOwner
    ensures p.idProperty == EmptyGuid && p.owner.None? && p.propertyImages == []
  {
    Property(EmptyGuid, dto.name, dto.address, dto.price, "", dto.year, dto.idOwner, None, [])
  }

  /** The image `AddImageToProperty` builds, before the store gives it an id. */
  function NewImage(propertyId: Guid, request: AddImageRequestDto): (i: PropertyImage)
    ensures i.idProperty == propertyId && i.file == request.imageUrl
    ensures i.publicId == request.publicId && i.enabled
    ensures i.idPropertyImage == EmptyGuid
  {
    PropertyImage(EmptyGuid, propertyId, request.imageUrl, request.publicId, true)
  }

  /** The trace a price update appends. */
  function PriceTrace(propertyId: Guid, now: Timestamp, newPrice: Decimal, oldPrice: Decimal): (t: PropertyTrace)
    ensures t.idProperty == propertyId && t.dateSale == now && t.name == PriceUpdate
    ensures t.value == newPrice && t.tax == oldPrice && t.idPropertyTrace == EmptyGuid
  {
    PropertyTrace(EmptyGuid, now, PriceUpdate, newPrice, oldPrice, propertyId)
  }

  class PropertiesController {
    const properties: PropertyRepository
    const images: PropertyImageRepository
    const traces: PropertyTraceRepository
    const owners: OwnerRepository
    /** The one store all four repositories share. */
    ghost const db: MillionDbContext

    ghost predicate Valid()
      reads db
    {
      && properties.context == db && images.context == db
      && traces.context == db && owners.context == db
      && db.Valid()
    }

    constructor (properties: PropertyRepository, images: PropertyImageRepository,
                 traces: PropertyTraceRepository, owners: OwnerRepository)
      requires images.context == properties.context && traces.context == properties.context
      requires owners.context == properties.context
      ensures this.properties == properties && this.images == images
      ensures this.traces == traces && this.owners == owners
      ensures db == properties.context
    {
      this.properties, this.images, this.traces, this.owners := properties, images, traces, owners;
      db := properties.context;
    }

    /** `GET /api/properties`: the search with no id, one DTO per result in
        order, wrapped with the requested page figures and the total. Missing
        paging arguments default to page 1 of 10. */
    method GetProperties(name: Option<string>, address: Option<string>,
                         minPrice: Option<Decimal>, maxPrice: Option<Decimal>,
                         pageNumber: Option<Int32>, pageSize: Option<Int32>)
      returns (r: ActionResult<PagedResponse<PropertyDto>>)
      requires Valid()
      ensures var pn := pageNumber.GetOr(DefaultPageNumber);
        var ps := pageSize.GetOr(DefaultPageSize);
        match Search(db.properties, db.owners, db.propertyImages,
                     Criteria(name, address, minPrice, maxPrice, None), pn, ps)
        case Failure(e) => r == Thrown(e)
        case Success(s) =>
          && ps > 0
          && r.Ok?
          && r.body.data == ToDtos(s.properties)
          && r.body.pageNumber == pn && r.body.pageSize == ps
          && r.body.totalRecords == s.totalRecords
          && r.body.totalPages == CeilDiv(s.totalRecords, ps)
    {
      var pn := pageNumber.GetOr(DefaultPageNumber);
      var ps := pageSize.GetOr(DefaultPageSize);
      var result := properties.GetPropertiesAsync(name, address, minPrice, maxPrice, pn, ps, None);
      match result {
        case Failure(e) => r := Thrown(e);
        case Success(s) =>
          r := Ok(NewPagedResponse(ToDtos(s.properties), pn, ps, s.totalRecords));
      }
    }

    /** `GET /api/properties/{id}`: NotFound without a stored property, else
        its DTO (from the stored document, without a join). */
    method GetPropertyById(id: Guid) returns (r: ActionResult<PropertyDto>)
      requires Valid()
      ensures (forall p :: p in db.properties ==> p.idProperty != id) ==> r == NotFound(None)
      ensures (exists p :: p in db.properties && p.idProperty == id) ==>
        exists p :: p in db.properties && p.idProperty == id && r == Ok(ToDto(p))
    {
      var property := properties.GetByIdAsync(id);
      if property.None? {
        r := NotFound(None);
      } else {
        r := Ok(ToDto(property.value));
      }
    }

    /** `POST /api/properties`: BadRequest and no write when the owner does not
        exist; otherwise the DTO's fields are stored as a new property and
        returned whole. */
    method CreateProperty(dto: CreatePropertyDto, generatedId: Guid) returns (r: ActionResult<Property>)
      requires Valid()
      modifies db
      ensures Valid()
      ensures !HasKey(old(db.owners), OwnerKey, dto.idOwner) ==>
        r == BadRequest(OwnerNotFound) && db.properties == old(db.properties)
      ensures HasKey(old(db.owners), OwnerKey, dto.idOwner) ==>
        var stored := PropertyWithId(NewProperty(dto), generatedId);
        if HasKey(old(db.properties), PropertyKey, stored.idProperty)
        then r == Thrown(DuplicateKeyError()) && db.properties == old(db.properties)
        else r == Created(stored.idProperty, stored) && db.properties == old(db.properties) + [stored]
      ensures db.owners == old(db.owners) && db.propertyImages == old(db.propertyImages)
      ensures db.propertyTraces == old(db.propertyTraces)
    {
      var owner := owners.GetByIdAsync(dto.idOwner);
      if owner.None? {
        r := BadRequest(OwnerNotFound);
        return;
      }
      var added := properties.AddAsync(NewProperty(dto), generatedId);
      match added {
        case Failure(e) => r := Thrown(e);
        case Success(p) => r := Created(p.idProperty, p);
      }
    }

    /** `PUT /api/properties/{id}`: NotFound and no write without the property;
        otherwise only its Price changes, to the new one, and exactly one trace is
        appended with the new price as Value and the old one as Tax. */
    method UpdateProperty(id: Guid, price: Decimal, now: Timestamp, traceId: Guid)
      returns (r: ActionResult<()>)
      requires Valid()
      modifies db
      ensures Valid()
      ensures (forall p :: p in old(db.properties) ==> p.idProperty != id) ==>
        && r == NotFound(None)
        && db.properties == old(db.properties)
        && db.propertyTraces == old(db.propertyTraces)
      ensures (exists p :: p in old(db.properties) && p.idProperty == id) ==>
        && |db.properties| == |old(db.properties)|
        && (forall k :: 0 <= k < |db.properties| ==>
              db.properties[k] == if old(db.properties)[k].idProperty == id
                                  then old(db.properties)[k].(price := price)
                                  else old(db.properties)[k])
        && exists k :: 0 <= k < |old(db.properties)| && old(db.properties)[k].idProperty == id
             && var trace := TraceWithId(PriceTrace(id, now, price, old(db.properties)[k].price), traceId);
                if HasKey(old(db.propertyTraces), TraceKey, trace.idPropertyTrace)
                then r == Thrown(DuplicateKeyError()) && db.propertyTraces == old(db.propertyTraces)
                else r == NoContent && db.propertyTraces == old(db.propertyTraces) + [trace]
      ensures db.owners == old(db.owners) && db.propertyImages == old(db.propertyImages)
    {
      var property := properties.GetByIdAsync(id);
      if property.None? {
        r := NotFound(None);
        return;
      }
      var p := property.value;
      ghost var k :| 0 <= k < |db.properties| && db.properties[k] == p;
      ghost var before := db.properties;
      var oldPrice := p.price;
      properties.UpdateAsync(p.(price := price));
      forall j | 0 <= j < |before| && before[j].idProperty == id ensures before[j] == p {
        assert j == k;
      }
      var added := traces.AddAsync(PriceTrace(p.idProperty, now, price, oldPrice), traceId);
      match added {
        case Failure(e) => r := Thrown(e);
        case Success(_) => r := NoContent;
      }
    }

    /** `GET /api/properties/{id}/images`: id and URL of exactly that property's
        images. */
    method GetPropertyImages(id: Guid) returns (r: ActionResult<seq<PropertyImageDto>>)
      requires Valid()
      ensures r == Ok(ToImageDtos(FindAll(db.propertyImages, ImagePropertyKey, id)))
    {
      var found := images.GetByPropertyIdAsync(id);
      r := Ok(ToImageDtos(found));
    }

    /** `DELETE /api/properties/{id}/images/{imageId}`: NotFound and no write
        when the image is missing or belongs to another property; otherwise
        exactly that image goes. */
    method DeletePropertyImage(id: Guid, imageId: Guid) returns (r: ActionResult<()>)
      requires Valid()
      modifies db
      ensures Valid()
      ensures (forall i :: i in old(db.propertyImages) && i.idPropertyImage == imageId ==> i.idProperty != id) ==>
        r == NotFound(None) && db.propertyImages == old(db.propertyImages)
      ensures (exists i :: i in old(db.propertyImages) && i.idPropertyImage == imageId && i.idProperty == id) ==>
        r == NoContent && db.propertyImages == DeleteMany(old(db.propertyImages), ImageKey, imageId)
      ensures db.owners == old(db.owners) && db.properties == old(db.properties)
      ensures db.propertyTraces == old(db.propertyTraces)
    {
      var image := images.GetByIdAsync(imageId);
      if image.None? || image.value.idProperty != id {
        forall i | i in db.propertyImages && i.idPropertyImage == imageId ensures i.idProperty != id {
          if image.Some? {
            FindFirstUnique(db.propertyImages, ImageKey, i);
          }
        }
        r := NotFound(None);
        return;
      }
      images.DeleteAsync(imageId);
      r := NoContent;
    }

    /** `POST /api/properties/{id}/images`: NotFound and no write without the
        property; otherwise one enabled image of that property with the given
        URL and public id is stored, and its id is returned. */
    method AddImageToProperty(id: Guid, request: AddImageRequestDto, generatedId: Guid)
      returns (r: ActionResult<ImageCreated>)
      requires Valid()
      modifies db
      ensures Valid()
      ensures (forall p :: p in old(db.properties) ==> p.idProperty != id) ==>
        r == NotFound(Some(PropertyNotFound)) && db.propertyImages == old(db.propertyImages)
      ensures (exists p :: p in old(db.properties) && p.idProperty == id) ==>
        var stored := ImageWithId(NewImage(id, request), generatedId);
        if HasKey(old(db.propertyImages), ImageKey, stored.idPropertyImage)
        then r == Thrown(DuplicateKeyError()) && db.propertyImages == old(db.propertyImages)
        else r == Ok(ImageCreated(stored.idPropertyImage)) && db.propertyImages == old(db.propertyImages) + [stored]
      ensures db.owners == old(db.owners) && db.properties == old(db.properties)
      ensures db.propertyTraces == old(db.propertyTraces)
    {
      var property := properties.GetByIdAsync(id);
      if property.None? {
        r := NotFound(Some(PropertyNotFound));
        return;
      }
      var added := images.AddAsync(NewImage(id, request), generatedId);
      match added {
        case Failure(e) => r := Thrown(e);
        case Success(i) => r := Ok(ImageCreated(i.idPropertyImage));
      }
    }

    /** `GET /api/properties/{id}/traces`: exactly that property's traces. */
    method GetPropertyTraces(id: Guid) returns (r: ActionResult<seq<PropertyTrace>>)
      requires Valid()
      ensures r == Ok(FindAll(db.propertyTraces, TracePropertyKey, id))
      ensures forall t :: t in r.body <==> t in db.propertyTraces && t.idProperty == id
    {
      var found := traces.GetByPropertyIdAsync(id);
      r := Ok(found);
    }

    /** `DELETE /api/properties/{id}`: NotFound and no write without the
        property; otherwise the property and its images go, and its traces
        stay. */
    method DeleteProperty(id: Guid) returns (r: ActionResult<()>)
      requires Valid()
      modifies db
      ensures Valid()
      ensures (forall p :: p in old(db.properties) ==> p.idProperty != id) ==>
        r == NotFound(None) && db.properties == old(db.properties)
        && db.propertyImages == old(db.propertyImages)
      ensures (exists p :: p in old(db.properties) && p.idProperty == id) ==>
        && r == NoContent
        && db.properties == DeleteMany(old(db.properties), PropertyKey, id)
        && db.propertyImages == DeleteMany(old(db.propertyImages), ImagePropertyKey, id)
      ensures db.owners == old(db.owners) && db.propertyTraces == old(db.propertyTraces)
    {
      var property := properties.GetByIdAsync(id);
      if property.None? {
        r := NotFound(None);
        return;
      }
      properties.DeleteAsync(id);
      r := NoContent;
    }
  }
}
