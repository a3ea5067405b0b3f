/** `OwnerRepository`: insert, list, find, replace and delete over the Owners
    collection. */
module OwnerStore {
  import opened Common
  import opened Entities
  import opened Documents
  import opened Persistence

  /** The id generator of the `IdOwner` mapping fills an empty id on insert. */
  function OwnerWithId(owner: Owner, generatedId: Guid): (o: Owner)
    ensures owner.idOwner != EmptyGuid ==> o == owner
    ensures owner.idOwner == EmptyGuid ==> o == owner.(idOwner := generatedId)
  {
    if owner.idOwner == EmptyGuid then owner.(idOwner := generatedId) else owner
  }

  class OwnerRepository {
    const context: MillionDbContext

    constructor (context: MillionDbContext)
      ensures this.context == context
    {
      this.context := context;
    }

    /** `InsertOne`, then the same owner back; an `_id` already present is a
        duplicate-key error and stores nothing. */
    method AddAsync(owner: Owner, generatedId: Guid) returns (r: Result<Owner, Exception>)
      requires context.Valid()
      modifies context
      ensures context.Valid()
      ensures var stored := OwnerWithId(owner, generatedId);
        if HasKey(old(context.owners), OwnerKey, stored.idOwner)
        then r == Failure(DuplicateKeyError()) && context.owners == old(context.owners)
        else r == Success(stored) && context.owners == old(context.owners) + [stored]
      ensures context.properties == old(context.properties)
      ensures context.propertyImages == old(context.propertyImages)
      ensures context.propertyTraces == old(context.propertyTraces)
    {
      var stored := OwnerWithId(owner, generatedId);
      if HasKey(context.owners, OwnerKey, stored.idOwner) {
        r := Failure(DuplicateKeyError());
      } else {
        InsertKeepsUnique(context.owners, OwnerKey, stored);
        context.owners := context.owners + [stored];
        r := Success(stored);
      }
    }

    /** `Find(_ => true)`: every owner, in store order. */
    method GetAllAsync() returns (r: seq<Owner>)
      ensures r == context.owners
    {
      r := context.owners;
    }

    /** The owner with that id, or null. */
    method GetByIdAsync(id: Guid) returns (r: Option<Owner>)
      ensures r.Some? ==> r.value in context.owners && r.value.idOwner == id
      ensures r.None? <==> forall o :: o in context.owners ==> o.idOwner != id
    {
      r := FindFirst(context.owners, OwnerKey, id);
    }

    /** `ReplaceOne` by `IdOwner`: the stored owner with that id becomes `owner`;
        without one nothing changes. */
    method UpdateAsync(owner: Owner)
      requires context.Valid()
      modifies context
      ensures context.Valid()
      ensures |context.owners| == |old(context.owners)|
      ensures forall k :: 0 <= k < |context.owners| ==>
        context.owners[k] == if old(context.owners)[k].idOwner == owner.idOwner then owner else old(context.owners)[k]
      ensures context.properties == old(context.properties)
      ensures context.propertyImages == old(context.propertyImages)
      ensures context.propertyTraces == old(context.propertyTraces)
    {
      ReplaceOneUnique(context.owners, OwnerKey, owner);
      context.owners := ReplaceOne(context.owners, OwnerKey, owner.idOwner, owner);
    }

    /** `DeleteOne` by `IdOwner`: exactly the owner with that id goes. */
    method DeleteAsync(id: Guid)
      requires context.Valid()
      modifies context
      ensures context.Valid()
      ensures context.owners == DeleteMany(old(context.owners), OwnerKey, id)
      ensures context.properties == old(context.properties)
      ensures context.propertyImages == old(context.propertyImages)
      ensures context.propertyTraces == old(context.propertyTraces)
    {
      DeleteKeepsUnique(context.owners, OwnerKey, id);
      DeleteOneUnique(context.owners, OwnerKey, id);
      context.owners := DeleteOne(context.owners, OwnerKey, id);
    }
  }
}
