/** `PropertyTraceRepository`: append and list by property over the
    PropertyTraces collection. */
module TraceStore {
  import opened Common
  import opened Entities
  import opened Documents
  import opened Persistence

  /** The id generator of the `IdPropertyTrace` mapping fills an empty id on insert. */
  function TraceWithId(trace: PropertyTrace, generatedId: Guid): (t: PropertyTrace)
    ensures trace.idPropertyTrace != EmptyGuid ==> t == trace
    ensures trace.idPropertyTrace == EmptyGuid ==> t == trace.(idPropertyTrace := generatedId)
  {
    if trace.idPropertyTrace == EmptyGuid then trace.(idPropertyTrace := generatedId) else trace
  }

  /** A trace appended to a collection is among that property's traces
      afterwards, and every trace listed before still is. */
  lemma {:induction false} AppendedTraceIsListed(traces: seq<PropertyTrace>, t: PropertyTrace)
    ensures t in FindAll(traces + [t], TracePropertyKey, t.idProperty)
    ensures forall u :: u in FindAll(traces, TracePropertyKey, t.idProperty) ==>
      u in FindAll(traces + [t], TracePropertyKey, t.idProperty)
  {
    assert t in traces + [t];
    forall u | u in FindAll(traces, TracePropertyKey, t.idProperty)
      ensures u in FindAll(traces + [t], TracePropertyKey, t.idProperty)
    {
      assert u in traces + [t];
    }
  }

  class PropertyTraceRepository {
    const context: MillionDbContext

    constructor (context: MillionDbContext)
      ensures this.context == context
    {
      this.context := context;
    }

    /** `InsertOne`, then the same trace back; earlier traces are left as they
        were. */
    method AddAsync(trace: PropertyTrace, generatedId: Guid) returns (r: Result<PropertyTrace, Exception>)
      requires context.Valid()
      modifies context
      ensures context.Valid()
      ensures var stored := TraceWithId(trace, generatedId);
        if HasKey(old(context.propertyTraces), TraceKey, stored.idPropertyTrace)
        then r == Failure(DuplicateKeyError()) && context.propertyTraces == old(context.propertyTraces)
        else r == Success(stored) && context.propertyTraces == old(context.propertyTraces) + [stored]
      ensures context.owners == old(context.owners)
      ensures context.properties == old(context.properties)
      ensures context.propertyImages == old(context.propertyImages)
    {
      var stored := TraceWithId(trace, generatedId);
      if HasKey(context.propertyTraces, TraceKey, stored.idPropertyTrace) {
        r := Failure(DuplicateKeyError());
      } else {
        InsertKeepsUnique(context.propertyTraces, TraceKey, stored);
        context.propertyTraces := context.propertyTraces + [stored];
        r := Success(stored);
      }
    }

    /** Exactly the traces whose IdProperty is `propertyId`, in store order. */
    method GetByPropertyIdAsync(propertyId: Guid) returns (r: seq<PropertyTrace>)
      ensures r == FindAll(context.propertyTraces, TracePropertyKey, propertyId)
      ensures forall t :: t in r <==> t in context.propertyTraces && t.idProperty == propertyId
    {
      r := FindAll(context.propertyTraces, TracePropertyKey, propertyId);
    }
  }
}
