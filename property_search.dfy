/** The read query of `PropertyRepository.GetPropertiesAsync`: an AND filter
    built from optional criteria, a count of everything that matches, one page
    taken with `$skip`/`$limit`, and the owner and image joins of the data
    pipeline (`$lookup` twice, `$unwind` of the owner keeping empty joins,
    `$project` back onto the property's fields). */
module PropertySearch {
  import opened Common
  import opened Strings
  import opened Entities
  import opened Documents

  /** One clause of the AND filter. */
  datatype Condition =
    | NameRegex(pattern: string)
    | AddressRegex(pattern: string)
    | PriceGte(bound: Decimal)
    | PriceLte(bound: Decimal)
    | IdEq(id: Guid)

  /** The optional arguments of `GetPropertiesAsync`. */
  datatype Criteria = Criteria(
    name: Option<string>,
    address: Option<string>,
    minPrice: Option<Decimal>,
    maxPrice: Option<Decimal>,
    propertyId: Option<Guid>)

  /** `string.IsNullOrEmpty`. */
  predicate IsNullOrEmpty(s: Option<string>) {
    s.None? || s.value == ""
  }

  /** The clauses the criteria add, in the order the code adds them: a null or
      empty text argument and an absent bound or id add nothing. */
  function BuildFilter(c: Criteria): (f: seq<Condition>)
    ensures |f| <= 5
    ensures forall cond :: cond in f <==>
      || (!IsNullOrEmpty(c.name) && cond == NameRegex(c.name.value))
      || (!IsNullOrEmpty(c.address) && cond == AddressRegex(c.address.value))
      || (c.minPrice.Some? && cond == PriceGte(c.minPrice.value))
      || (c.maxPrice.Some? && cond == PriceLte(c.maxPrice.value))
      || (c.propertyId.Some? && cond == IdEq(c.propertyId.value))
  {
    (if IsNullOrEmpty(c.name) then [] else [NameRegex(c.name.value)])
    + (if IsNullOrEmpty(c.address) then [] else [AddressRegex(c.address.value)])
    + (if c.minPrice.None? then [] else [PriceGte(c.minPrice.value)])
    + (if c.maxPrice.None? then [] else [PriceLte(c.maxPrice.value)])
    + (if c.propertyId.None? then [] else [IdEq(c.propertyId.value)])
  }

  /** A regex with option "i", with the argument taken as a literal: the lower-cased
      pattern occurs somewhere in the lower-cased field. */
  predicate ContainsIgnoringCase(field: string, pattern: string) {
    Contains(Lower(field), Lower(pattern))
  }

  predicate Holds(cond: Condition, p: Property) {
    match cond
    case NameRegex(pattern) => ContainsIgnoringCase(p.name, pattern)
    case AddressRegex(pattern) => ContainsIgnoringCase(p.address, pattern)
    case PriceGte(bound) => p.price >= bound
    case PriceLte(bound) => p.price <= bound
    case IdEq(id) => p.idProperty == id
  }

  /** `filter &= ...` from `Filter.Empty`: every clause holds. */
  predicate Satisfies(f: seq<Condition>, p: Property) {
    forall k :: 0 <= k < |f| ==> Holds(f[k], p)
  }

  function Keep(f: seq<Condition>): Property -> bool {
    (p: Property) => Satisfies(f, p)
  }

  /** Reference meaning of the criteria, argument by argument. */
  predicate MeetsCriteria(c: Criteria, p: Property) {
    && (IsNullOrEmpty(c.name) || ContainsIgnoringCase(p.name, c.name.value))
    && (IsNullOrEmpty(c.address) || ContainsIgnoringCase(p.address, c.address.value))
    && (c.minPrice.None? || p.price >= c.minPrice.value)
    && (c.maxPrice.None? || p.price <= c.maxPrice.value)
    && (c.propertyId.None? || p.idProperty == c.propertyId.value)
  }

  /** The built filter accepts a property exactly when it meets every supplied
      criterion: the clauses are ANDed, and the bounds are inclusive. */
  lemma BuildFilterMeaning(c: Criteria, p: Property)
    ensures Satisfies(BuildFilter(c), p) <==> MeetsCriteria(c, p)
  {
    var f := BuildFilter(c);
    if MeetsCriteria(c, p) {
      forall k | 0 <= k < |f| ensures Holds(f[k], p) {
        assert f[k] in f;
      }
    } else {
      if !IsNullOrEmpty(c.name) && !ContainsIgnoringCase(p.name, c.name.value) {
        assert NameRegex(c.name.value) in f;
      } else if !IsNullOrEmpty(c.address) && !ContainsIgnoringCase(p.address, c.address.value) {
        assert AddressRegex(c.address.value) in f;
      } else if c.minPrice.Some? && p.price < c.minPrice.value {
        assert PriceGte(c.minPrice.value) in f;
      } else if c.maxPrice.Some? && p.price > c.maxPrice.value {
        assert PriceLte(c.maxPrice.value) in f;
      } else {
        assert IdEq(c.propertyId.value) in f;
      }
    }
  }

  /** `Match(filter)`: the matching properties, in store order. */
  function Matching(props: seq<Property>, f: seq<Condition>): (r: seq<Property>)
    ensures |r| <= |props|
    ensures forall p :: multiset(r)[p] == if Satisfies(f, p) then multiset(props)[p] else 0
    ensures forall p :: p in r <==> p in props && Satisfies(f, p)
  {
    assert forall p :: Keep(f)(p) == Satisfies(f, p);
    Where(props, Keep(f))
  }

  /** Reference count: how many stored properties meet the criteria. */
  function CountMeeting(props: seq<Property>, c: Criteria): (n: nat)
    ensures n <= |props|
    ensures n == 0 <==> forall k :: 0 <= k < |props| ==> !MeetsCriteria(c, props[k])
  {
    if props == [] then 0
    else (if MeetsCriteria(c, props[0]) then 1 else 0) + CountMeeting(props[1..], c)
  }

  /** The count pipeline counts exactly the properties meeting the criteria. */
  lemma {:induction false} MatchingCount(props: seq<Property>, c: Criteria)
    ensures |Matching(props, BuildFilter(c))| == CountMeeting(props, c)
  {
    if props != [] {
      var f := BuildFilter(c);
      BuildFilterMeaning(c, props[0]);
      assert Matching(props, f) ==
        (if Keep(f)(props[0]) then [props[0]] else []) + Matching(props[1..], f);
      MatchingCount(props[1..], c);
    }
  }

  /** `(pageNumber - 1) * pageSize` in unchecked C# `int` arithmetic. */
  function SkipOf(pageNumber: Int32, pageSize: Int32): Int32 {
    Wrap32(Wrap32(pageNumber - 1) * pageSize)
  }

  /** Without overflow the skip is the plain product; a positive page size and
      page number 1 skip nothing. */
  lemma SkipOfInRange(pageNumber: Int32, pageSize: Int32)
    requires 1 <= pageNumber && 0 <= pageSize
    requires (pageNumber - 1) * pageSize <= Int32Max
    ensures SkipOf(pageNumber, pageSize) == (pageNumber - 1) * pageSize
    ensures pageNumber == 1 ==> SkipOf(pageNumber, pageSize) == 0
  {
    var before := pageNumber - 1;
    assert Wrap32(before) == before;
    NonNegativeProduct(before, pageSize);
    assert Wrap32(before * pageSize) == before * pageSize;
  }

  lemma NonNegativeProduct(a: int, b: int)
    requires 0 <= a && 0 <= b
    ensures 0 <= a * b
  {
  }

  /** A page number large enough for the product to pass `int.MaxValue` wraps
      to a negative skip. */
  lemma SkipOfOverflow()
    ensures SkipOf(0x4000_0001, 2) == Int32Min
  {
  }

  /** `$skip(skip)` followed by `$limit(limit)`. */
  function Page<T>(s: seq<T>, skip: nat, limit: nat): (r: seq<T>)
    ensures |r| <= limit
    ensures skip >= |s| ==> r == []
    ensures skip < |s| ==> |r| == if skip + limit <= |s| then limit else |s| - skip
    ensures forall k :: 0 <= k < |r| ==> skip + k < |s| && r[k] == s[skip + k]
  {
    if skip >= |s| then []
    else if skip + limit <= |s| then s[skip..skip + limit]
    else s[skip..]
  }

  // Document fields by their stored names; a name the document does not have
  // reads as null.

  function PropertyField(name: string, p: Property): Option<Guid> {
    if name == "IdProperty" then Some(p.idProperty)
    else if name == "IdOwner" then Some(p.idOwner)
    else None
  }

  function OwnerField(name: string): Owner -> Option<Guid> {
    (o: Owner) => if name == "IdOwner" then Some(o.idOwner) else None
  }

  function ImageField(name: string): PropertyImage -> Option<Guid> {
    (i: PropertyImage) =>
      if name == "IdPropertyImage" then Some(i.idPropertyImage)
      else if name == "IdProperty" then Some(i.idProperty)
      else None
  }

  /** `Lookup("Owners", "IdOwner", "IdOwner", "OwnerInfo")`. */
  function OwnersOf(p: Property, owners: seq<Owner>): (r: seq<Owner>)
    ensures forall o :: o in r <==> o in owners && o.idOwner == p.idOwner
  {
    Lookup(owners, OwnerField("IdOwner"), PropertyField("IdOwner", p))
  }

  /** `Lookup("PropertyImages", "idProperty", "idProperty", "PropertyImages")` as
      written: neither collection has a field spelled `idProperty`, so both sides
      read as null and the join condition holds for every image. */
  function ImagesOfAsWritten(p: Property, images: seq<PropertyImage>): seq<PropertyImage> {
    Lookup(images, ImageField("idProperty"), PropertyField("idProperty", p))
  }

  /** The image join as intended, on the stored `IdProperty` field of both. */
  function ImagesOf(p: Property, images: seq<PropertyImage>): (r: seq<PropertyImage>)
    ensures forall i :: i in r <==> i in images && i.idProperty == p.idProperty
  {
    Lookup(images, ImageField("IdProperty"), PropertyField("IdProperty", p))
  }

  /** As written, every property is joined with the whole image collection. */
  lemma ImagesOfAsWrittenIsEverything(p: Property, images: seq<PropertyImage>)
    ensures ImagesOfAsWritten(p, images) == images
  {
    var keep := FieldIs(ImageField("idProperty"), PropertyField("idProperty", p));
    assert forall i :: keep(i);
    WhereAll(images, keep);
  }

  /** A concrete witness: an image of property 2 shows up among the images of
      property 1 as written, and not under the intended join. */
  lemma ImageJoinAsWrittenMismatch()
    ensures var p := Property(1, "House", "Main St 1", 100, "C-1", 2000, 7, None, []);
            var img := PropertyImage(9, 2, "https://res.cloudinary.com/x.png", "x", true);
            && img in ImagesOfAsWritten(p, [img])
            && img !in ImagesOf(p, [img])
  {
    var p := Property(1, "House", "Main St 1", 100, "C-1", 2000, 7, None, []);
    var img := PropertyImage(9, 2, "https://res.cloudinary.com/x.png", "x", true);
    ImagesOfAsWrittenIsEverything(p, [img]);
  }

  /** The intended image join is the image repository's by-property filter. */
  lemma ImagesOfIsFindAll(p: Property, images: seq<PropertyImage>)
    ensures ImagesOf(p, images) == FindAll(images, ImagePropertyKey, p.idProperty)
  {
    WhereExtensional(images, FieldIs(ImageField("IdProperty"), PropertyField("IdProperty", p)),
                     KeyIs(ImagePropertyKey, p.idProperty));
  }

  /** The owner join is the owner repository's by-id filter. */
  lemma OwnersOfIsFindAll(p: Property, owners: seq<Owner>)
    ensures OwnersOf(p, owners) == FindAll(owners, OwnerKey, p.idOwner)
  {
    WhereExtensional(owners, FieldIs(OwnerField("IdOwner"), PropertyField("IdOwner", p)),
                     KeyIs(OwnerKey, p.idOwner));
  }

  /** `$unwind` of OwnerInfo with `PreserveNullAndEmptyArrays`, then `$project`
      onto the property fields: one document per joined owner, and one with a
      null Owner when no owner joined. */
  function Unwind(p: Property, infos: seq<Owner>): (r: seq<Property>)
    ensures |r| == if infos == [] then 1 else |infos|
    ensures infos == [] ==> r == [p.(owner := None)]
    ensures forall k :: 0 <= k < |infos| ==> r[k] == p.(owner := Some(infos[k]))
  {
    if infos == [] then [p.(owner := None)]
    else seq(|infos|, k requires 0 <= k < |infos| => p.(owner := Some(infos[k])))
  }

  /** One page document after both joins. */
  function JoinOne(p: Property, owners: seq<Owner>, images: seq<PropertyImage>): (r: seq<Property>)
    ensures |r| >= 1
    ensures forall q :: q in r ==>
      && q.(owner := p.owner, propertyImages := p.propertyImages) == p
      && q.propertyImages == ImagesOf(p, images)
      && (q.owner.Some? ==> q.owner.value in owners && q.owner.value.idOwner == p.idOwner)
  {
    Unwind(p.(propertyImages := ImagesOf(p, images)), OwnersOf(p, owners))
  }

  /** The joins over a whole page: never shorter than the page, since a property
      without an owner stays in with a null Owner. */
  function JoinPage(page: seq<Property>, owners: seq<Owner>, images: seq<PropertyImage>): (r: seq<Property>)
    ensures |r| >= |page|
  {
    if page == [] then []
    else JoinOne(page[0], owners, images) + JoinPage(page[1..], owners, images)
  }

  /** With unique owner ids a property joins at most one owner, so it stays one
      document, carrying that owner or null. */
  lemma JoinOneUnique(p: Property, owners: seq<Owner>, images: seq<PropertyImage>)
    requires UniqueKeys(owners, OwnerKey)
    ensures JoinOne(p, owners, images) ==
      [p.(owner := FindFirst(owners, OwnerKey, p.idOwner), propertyImages := ImagesOf(p, images))]
  {
    OwnersOfIsFindAll(p, owners);
    FindAllUnique(owners, OwnerKey, p.idOwner);
  }

  /** With unique owner ids the join is a left join: one document per page entry,
      in page order, carrying its owner (or null) and its images. */
  lemma {:induction false} JoinPageLeftJoin(page: seq<Property>, owners: seq<Owner>, images: seq<PropertyImage>)
    requires UniqueKeys(owners, OwnerKey)
    ensures var r := JoinPage(page, owners, images);
      && |r| == |page|
      && forall k :: 0 <= k < |page| ==>
           r[k] == page[k].(owner := FindFirst(owners, OwnerKey, page[k].idOwner),
                            propertyImages := ImagesOf(page[k], images))
  {
    if page != [] {
      JoinOneUnique(page[0], owners, images);
      JoinPageLeftJoin(page[1..], owners, images);
      var r := JoinPage(page, owners, images);
      var rest := JoinPage(page[1..], owners, images);
      forall k | 0 < k < |page|
        ensures r[k] == page[k].(owner := FindFirst(owners, OwnerKey, page[k].idOwner),
                                 propertyImages := ImagesOf(page[k], images))
      {
        assert r[k] == rest[k - 1];
        assert page[1..][k - 1] == page[k];
      }
    }
  }

  /** The joins change only Owner and PropertyImages, so every joined document
      still meets the criteria its page entry met. */
  lemma {:induction false} JoinPageKeepsCriteria(page: seq<Property>, owners: seq<Owner>, images: seq<PropertyImage>, c: Criteria)
    requires forall p :: p in page ==> MeetsCriteria(c, p)
    ensures forall q :: q in JoinPage(page, owners, images) ==> MeetsCriteria(c, q)
  {
    if page != [] {
      JoinPageKeepsCriteria(page[1..], owners, images, c);
      var p := page[0];
      assert MeetsCriteria(c, p);
      forall q | q in JoinOne(p, owners, images) ensures MeetsCriteria(c, q) {
        var back := q.(owner := p.owner, propertyImages := p.propertyImages);
        assert back == p;
        assert back.name == q.name && back.address == q.address;
        assert back.price == q.price && back.idProperty == q.idProperty;
      }
    }
  }

  /** Every property on a page of the matches meets the criteria. */
  lemma PageMeetsCriteria(props: seq<Property>, c: Criteria, skip: nat, limit: nat)
    ensures forall p :: p in Page(Matching(props, BuildFilter(c)), skip, limit) ==> MeetsCriteria(c, p)
  {
    var m := Matching(props, BuildFilter(c));
    var page := Page(m, skip, limit);
    forall p | p in page ensures MeetsCriteria(c, p) {
      var k :| 0 <= k < |page| && page[k] == p;
      assert m[skip + k] == p;
      BuildFilterMeaning(c, p);
    }
  }

  /** What `GetPropertiesAsync` returns. */
  datatype SearchResult = SearchResult(properties: seq<Property>, totalRecords: int)

  /** The server's refusal of the `$skip` and `$limit` stages. */
  const SkipStageError := OtherException("invalid argument to $skip stage: expected a non-negative number")
  const LimitStageError := OtherException("the limit must be positive")

  /** The whole query. A negative skip or a page size below 1 makes the store
      reject the data pipeline, so the call throws. */
  function Search(props: seq<Property>, owners: seq<Owner>, images: seq<PropertyImage>,
                  c: Criteria, pageNumber: Int32, pageSize: Int32): (r: Result<SearchResult, Exception>)
    ensures r.Success? <==> SkipOf(pageNumber, pageSize) >= 0 && pageSize > 0
    ensures r.Failure? ==> r.error == if SkipOf(pageNumber, pageSize) < 0 then SkipStageError else LimitStageError
    ensures r.Success? ==> r.value.totalRecords == CountMeeting(props, c)
    ensures r.Success? ==> forall q :: q in r.value.properties ==> MeetsCriteria(c, q)
  {
    var skip := SkipOf(pageNumber, pageSize);
    if skip < 0 then Failure(SkipStageError)
    else if pageSize <= 0 then Failure(LimitStageError)
    else
      var m := Matching(props, BuildFilter(c));
      MatchingCount(props, c);
      var page := Page(m, skip, pageSize);
      PageMeetsCriteria(props, c, skip, pageSize);
      JoinPageKeepsCriteria(page, owners, images, c);
      Success(SearchResult(JoinPage(page, owners, images), |m|))
  }

  /** One page of the matches, element by element: entry `k` is match
      `skip + k` with its owner (or null) and its images; at most `pageSize`
      entries, as many as remain, and none past the end. */
  lemma SearchPage(props: seq<Property>, owners: seq<Owner>, images: seq<PropertyImage>,
                   c: Criteria, pageNumber: Int32, pageSize: Int32)
    requires UniqueKeys(owners, OwnerKey)
    requires Search(props, owners, images, c, pageNumber, pageSize).Success?
    ensures var r := Search(props, owners, images, c, pageNumber, pageSize).value.properties;
      var m := Matching(props, BuildFilter(c));
      var skip := SkipOf(pageNumber, pageSize);
      && |r| <= pageSize
      && (skip >= |m| ==> r == [])
      && (skip < |m| ==> |r| == if skip + pageSize <= |m| then pageSize else |m| - skip)
      && forall k :: 0 <= k < |r| ==>
           && skip + k < |m|
           && r[k] == m[skip + k].(owner := FindFirst(owners, OwnerKey, m[skip + k].idOwner),
                                   propertyImages := ImagesOf(m[skip + k], images))
  {
    var m := Matching(props, BuildFilter(c));
    JoinPageLeftJoin(Page(m, SkipOf(pageNumber, pageSize), pageSize), owners, images);
  }

  /** When nothing meets the criteria the count is 0 and the page is empty,
      whatever page is asked for. */
  lemma SearchNoMatch(props: seq<Property>, owners: seq<Owner>, images: seq<PropertyImage>,
                      c: Criteria, pageNumber: Int32, pageSize: Int32)
    requires forall k :: 0 <= k < |props| ==> !MeetsCriteria(c, props[k])
    requires Search(props, owners, images, c, pageNumber, pageSize).Success?
    ensures Search(props, owners, images, c, pageNumber, pageSize).value == SearchResult([], 0)
  {
    MatchingCount(props, c);
  }

  /** The count does not depend on which page is asked for. */
  lemma TotalRecordsIgnoresPaging(props: seq<Property>, owners: seq<Owner>, images: seq<PropertyImage>,
                                  c: Criteria, pageNumber1: Int32, pageSize1: Int32,
                                  pageNumber2: Int32, pageSize2: Int32)
    requires Search(props, owners, images, c, pageNumber1, pageSize1).Success?
    requires Search(props, owners, images, c, pageNumber2, pageSize2).Success?
    ensures Search(props, owners, images, c, pageNumber1, pageSize1).value.totalRecords
         == Search(props, owners, images, c, pageNumber2, pageSize2).value.totalRecords
  {
  }
}
