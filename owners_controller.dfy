/** `OwnersController`: list, create, rename/readdress and delete owners. */
module OwnersApi {
  import opened Common
  import opened Entities
  import opened Documents
  import opened Persistence
  import opened OwnerStore
  import opened Actions

  datatype OwnerDto = OwnerDto(idOwner: Guid, name: string)

  datatype CreateOwnerDto = CreateOwnerDto(name: string, address: string, photo: string, birthday: Timestamp)

  datatype UpdateOwnerDto = UpdateOwnerDto(name: string, address: string)

  /** The list projection: id and name of each owner, in store order. */
  function ToOwnerDtos(owners: seq<Owner>): (r: seq<OwnerDto>)
    ensures |r| == |owners|
    ensures forall k :: 0 <= k < |owners| ==> r[k] == OwnerDto(owners[k].idOwner, owners[k].name)
  {
    seq(|owners|, k requires 0 <= k < |owners| => OwnerDto(owners[k].idOwner, owners[k].name))
  }

  /** The owner `CreateOwner` builds around a fresh id. */
  function NewOwner(id: Guid, dto: CreateOwnerDto): (o: Owner)
    ensures o.idOwner == id && o.name == dto.name && o.address == dto.address
    ensures o.photo == dto.photo && o.birthday == dto.birthday
  {
    Owner(id, dto.name, dto.address, dto.photo, dto.birthday)
  }

  /** `UpdateOwner`'s edit: Name and Address from the DTO, the rest as stored. */
  function Edited(o: Owner, dto: UpdateOwnerDto): (e: Owner)
    ensures e.name == dto.name && e.address == dto.address
    ensures e.idOwner == o.idOwner && e.photo == o.photo && e.birthday == o.birthday
  {
    o.(name := dto.name, address := dto.address)
  }

  class OwnersController {
    const owners: OwnerRepository

    constructor (owners: OwnerRepository)
      ensures this.owners == owners
    {
      this.owners := owners;
    }

    ghost predicate Valid()
      reads owners.context
    {
      owners.context.Valid()
    }

    /** `GET /api/owners`: one (IdOwner, Name) pair per stored owner, in order. */
    method GetOwners() returns (r: ActionResult<seq<OwnerDto>>)
      ensures r == Ok(ToOwnerDtos(owners.context.owners))
    {
      var all := owners.GetAllAsync();
      r := Ok(ToOwnerDtos(all));
    }

    /** `POST /api/owners`: the DTO's fields under the fresh id `newId`
        (`Guid.NewGuid()`, never `Guid.Empty`), stored and answered with the id. */
    method CreateOwner(dto: CreateOwnerDto, newId: Guid) returns (r: ActionResult<Guid>)
      requires Valid()
      requires newId != EmptyGuid
      modifies owners.context
      ensures Valid()
      ensures if HasKey(old(owners.context.owners), OwnerKey, newId)
        then r == Thrown(DuplicateKeyError()) && owners.context.owners == old(owners.context.owners)
        else r == Created(newId, newId) && owners.context.owners == old(owners.context.owners) + [NewOwner(newId, dto)]
      ensures owners.context.properties == old(owners.context.properties)
      ensures owners.context.propertyImages == old(owners.context.propertyImages)
      ensures owners.context.propertyTraces == old(owners.context.propertyTraces)
    {
      var owner := NewOwner(newId, dto);
      var added := owners.AddAsync(owner, newId);
      match added {
        case Failure(e) => r := Thrown(e);
        case Success(_) => r := Created(owner.idOwner, owner.idOwner);
      }
    }

    /** `PUT /api/owners/{id}`: NotFound and no write without the owner;
        otherwise only its Name and Address change. */
    method UpdateOwner(id: Guid, dto: UpdateOwnerDto) returns (r: ActionResult<()>)
      requires Valid()
      modifies owners.context
      ensures Valid()
      ensures (forall o :: o in old(owners.context.owners) ==> o.idOwner != id) ==>
        r == NotFound(None) && owners.context.owners == old(owners.context.owners)
      ensures (exists o :: o in old(owners.context.owners) && o.idOwner == id) ==>
        && r == NoContent
        && |owners.context.owners| == |old(owners.context.owners)|
        && forall k :: 0 <= k < |owners.context.owners| ==>
             owners.context.owners[k] == if old(owners.context.owners)[k].idOwner == id
                                         then Edited(old(owners.context.owners)[k], dto)
                                         else old(owners.context.owners)[k]
      ensures owners.context.properties == old(owners.context.properties)
      ensures owners.context.propertyImages == old(owners.context.propertyImages)
      ensures owners.context.propertyTraces == old(owners.context.propertyTraces)
    {
      var owner := owners.GetByIdAsync(id);
      if owner.None? {
        r := NotFound(None);
        return;
      }
      var o := owner.value;
      ghost var before := owners.context.owners;
      ghost var k :| 0 <= k < |before| && before[k] == o;
      owners.UpdateAsync(Edited(o, dto));
      forall j | 0 <= j < |before| && before[j].idOwner == id ensures before[j] == o {
        assert j == k;
      }
      r := NoContent;
    }

    /** `DELETE /api/owners/{id}`: NotFound and no write without the owner;
        otherwise exactly that owner goes, and properties are not touched. */
    method DeleteOwner(id: Guid) returns (r: ActionResult<()>)
      requires Valid()
      modifies owners.context
      ensures Valid()
      ensures (forall o :: o in old(owners.context.owners) ==> o.idOwner != id) ==>
        r == NotFound(None) && owners.context.owners == old(owners.context.owners)
      ensures (exists o :: o in old(owners.context.owners) && o.idOwner == id) ==>
        r == NoContent && owners.context.owners == DeleteMany(old(owners.context.owners), OwnerKey, id)
      ensures owners.context.properties == old(owners.context.properties)
      ensures owners.context.propertyImages == old(owners.context.propertyImages)
      ensures owners.context.propertyTraces == old(owners.context.propertyTraces)
    {
      var owner := owners.GetByIdAsync(id);
      if owner.None? {
        r := NotFound(None);
        return;
      }
      owners.DeleteAsync(id);
      r := NoContent;
    }
  }
}
