# project-million core, modelled in Dafny

project-million is a real-estate catalogue. An ASP.NET Core backend keeps owners, properties, property images and property price traces in a MongoDB database. A Next.js client lists, filters, creates and edits them.

This project models the parts of both halves that carry rules:

- **Backend**
  - the property search query of `PropertyRepository`: an AND filter from optional criteria, a count before paging, one page taken with `$skip`/`$limit`, and the owner and image joins;
  - the four repositories, as classes over one shared `MillionDbContext` whose collections are sequences; each method states its whole new store;
  - `PropertiesController` and `OwnersController`: their NotFound and BadRequest guards, the DTO projections, the price update with its trace, and the image and cascade deletes;
  - the page count of `PagedResponse`;
  - the exception-to-status decision of `ErrorHandlerMiddleware`, and the response it writes.
- **Client**
  - the zustand filter store and the filter bar's local copy of the filters, as classes;
  - the three modal stores, as classes;
  - the query string `getProperties` builds: the entries it drops, its `URLSearchParams` encoding, and a parser proved to read the parameters back;
  - the id `createProperty` hands back;
  - the `OptimizedImage` rules: the placeholder, the default sizes and the Cloudinary URL rewrite;
  - the property form's create and edit schemas and its default values;
  - the owner form's schema, its default birthday and its submit payload.

Modelling assumptions:

- Guids are natural numbers, with `Guid.Empty` as 0. Prices (`decimal`) are integers.
- Every entity id is the collection's `_id` (Program.cs:24-46). The store therefore keeps ids unique, and an insert that reuses one fails with a duplicate-key error.
- The id generator fills an empty id on insert. The generated id is a parameter.
- `DateTime.UtcNow` is a timestamp parameter.
- Documents carry the C# property names. BSON mapping and deserialisation are not modelled.
- `Property.cs` is not part of this model. The defaults a `new Property { ... }` gets for its other fields are assumed: an empty id and code, a null owner and no images.
- Regex arguments of the search are literal text, matched case-insensitively. Lower-casing is ASCII only, both there and in the middleware.
- The zod UUID check, `Number()`, `Date.parse` and `toISOString` are parameters. They are functions `isUuid`, `toNumber`, `dateParses` and `toIso`.
- Where the repository's own tests expect otherwise, the model follows the code:
  - OwnerForm.test.tsx:42-47 expects a submitted owner without a `photo` key. owner-form.tsx:56 adds `photo: ''`, as `OwnerFormRules.Submit` states.
  - PropertyForm.test.tsx:87-95 expects a create submission with idOwner 'owner-1'. The UUID rule of property-form.tsx:44 flags that id, which `PropertyFormRules.OwnerIssues` states.
- JavaScript objects are ordered lists of entries with distinct keys. Assigning an existing key keeps its place; a new key goes last. Object spread assigns the second object's entries in order.

## Model

| member | source | states |
|---|---|---|
| Common.Wrap32 | million-backend/Million.Infrastructure/Repositories/PropertyRepository.cs:59 | C# unchecked `int` arithmetic: the result is congruent to the exact value modulo 2^32 and lies in `int` range, and a value already in range is kept |
| Strings.Lower | million-backend/Million.Api/Middleware/ErrorHandlerMiddleware.cs:34 | `ToLower()`: the same length, and each character maps through ASCII lower-casing |
| Strings.IndexOf | million-front/src/components/ui/optimized-image.tsx:45-48 | the first occurrence of the pattern: it occurs there and nowhere earlier, and there is none exactly when it occurs nowhere |
| Strings.IndexOfFrom | million-front/src/components/ui/optimized-image.tsx:45-48 | the first occurrence at or after a start index, or none at or after it |
| Strings.IndexOfIsFirstOccurrence | million-front/src/components/ui/optimized-image.tsx:45-48 | an occurrence with none before it is the one `IndexOf` finds |
| Strings.Contains | million-front/src/components/ui/optimized-image.tsx:41 | `includes` / `Contains` holds exactly when the text occurs at some index |
| Strings.ReplaceFirstSpec | million-front/src/components/ui/optimized-image.tsx:45-48 | `replace` with a string pattern leaves a string without the pattern unchanged, and on `a + pattern + b`, where no earlier match exists, gives `a + replacement + b` (only the first match changes) |
| Strings.BeforeFirst | million-front/src/components/feature/owner-form.tsx:48 | `split('T')[0]`: a prefix of the string with no separator in it, followed in the string by the separator when shorter |
| Strings.BeforeFirstSplits | million-front/src/components/feature/owner-form.tsx:48 | on `a + 'T' + b`, with no `T` in `a`, the result is `a` |
| Strings.NatToString | million-front/src/lib/api/properties.ts:19 | `String(n)` for a natural: non-empty decimal digits without a leading zero |
| Strings.NatToStringRoundTrip | million-front/src/lib/api/properties.ts:19 | reading the digits back gives the number |
| Strings.IntToString | million-front/src/lib/api/properties.ts:19 | `String(n)` for an integer: a minus sign exactly for negatives, then the digits of the magnitude |
| Documents.Where | million-backend/Million.Infrastructure/Repositories/OwnerRepository.cs:25 | a `Find(filter).ToList()`: the documents passing the filter, with their multiplicities, and nothing else |
| Documents.FindAll | million-backend/Million.Infrastructure/Repositories/PropertyImageRepository.cs:25 | `Find(d => key(d) == id)`: exactly the documents with that key, with their multiplicities |
| Documents.DeleteMany | million-backend/Million.Infrastructure/Repositories/PropertyRepository.cs:95 | `DeleteMany(d => key(d) == id)`: exactly the documents with another key remain |
| Documents.Lookup | million-backend/Million.Infrastructure/Repositories/PropertyRepository.cs:61-62 | a `$lookup` join: the foreign documents whose field equals the local one, a missing field reading as null on either side |
| Documents.FindFirst | million-backend/Million.Infrastructure/Repositories/OwnerRepository.cs:30 | `FirstOrDefault`: a stored document with that key, or null exactly when none has it |
| Documents.DeleteOne | million-backend/Million.Infrastructure/Repositories/OwnerRepository.cs:40 | `DeleteOne`: removes one document when one matches, none otherwise; documents with another key all stay |
| Documents.ReplaceOne | million-backend/Million.Infrastructure/Repositories/OwnerRepository.cs:35 | `ReplaceOne`: same length; every position keeps its document or held a match and now holds the replacement; without a match nothing changes |
| Documents.FindFirstUnique | million-backend/Million.Infrastructure/Repositories/PropertyImageRepository.cs:30 | with unique `_id`s, a stored document is found by its own id |
| Documents.WhereKeepsUnique | million-backend/Million.Infrastructure/Repositories/PropertyRepository.cs:95 | removing documents keeps ids unique |
| Documents.DeleteOneUnique | million-backend/Million.Infrastructure/Repositories/PropertyImageRepository.cs:35 | with unique ids, `DeleteOne` by id removes exactly what `DeleteMany` would |
| Documents.DeleteKeepsUnique | million-backend/Million.Infrastructure/Repositories/OwnerRepository.cs:40 | both deletes keep ids unique |
| Documents.ReplaceOneUnique | million-backend/Million.Infrastructure/Repositories/PropertyRepository.cs:90 | replacing by a document's own id puts it exactly where that id was, everything else in place, ids still unique |
| Documents.InsertKeepsUnique | million-backend/Million.Infrastructure/Repositories/PropertyTraceRepository.cs:19 | appending a document with a new id keeps ids unique |
| Documents.FindAllUnique | million-backend/Million.Infrastructure/Repositories/PropertyRepository.cs:61 | with unique ids, the documents with an id are the one `FirstOrDefault` finds, or none |
| Documents.PrependKeepsUnique | million-backend/Million.Infrastructure/Repositories/PropertyRepository.cs:95 | a document put before a collection holding none of its key keeps keys unique |
| Documents.WhereAll | million-backend/Million.Infrastructure/Repositories/PropertyRepository.cs:95 | a filter every document passes keeps the whole collection |
| Documents.WhereNone | million-backend/Million.Infrastructure/Repositories/PropertyImageRepository.cs:25 | a filter no document passes keeps nothing |
| Documents.WhereExtensional | million-backend/Million.Infrastructure/Repositories/PropertyRepository.cs:51 | filters that agree on every document keep the same documents |
| Persistence.MillionDbContext.constructor | million-backend/Million.Infrastructure/Persistence/MillionDbContext.cs:20-23 | the four collections start empty, with unique ids |
| PropertySearch.BuildFilter | million-backend/Million.Infrastructure/Repositories/PropertyRepository.cs:22-48 | the AND filter holds a name or address clause exactly when that argument is neither null nor empty, and a bound or id clause exactly when it is given, each carrying the argument |
| PropertySearch.BuildFilterMeaning | million-backend/Million.Infrastructure/Repositories/PropertyRepository.cs:25-48 | a property passes the filter exactly when it contains the name and the address case-insensitively, has price ≥ minPrice and ≤ maxPrice (inclusive), and has the id, each only when given |
| PropertySearch.Matching | million-backend/Million.Infrastructure/Repositories/PropertyRepository.cs:51 | `Match(filter)`: exactly the stored properties passing the filter, with their multiplicities |
| PropertySearch.CountMeeting | million-backend/Million.Infrastructure/Repositories/PropertyRepository.cs:50-55 | the reference count of properties meeting the criteria: at most the collection's size, and 0 exactly when none meets them |
| PropertySearch.MatchingCount | million-backend/Million.Infrastructure/Repositories/PropertyRepository.cs:50-55 | the count pipeline counts exactly the properties meeting the criteria |
| PropertySearch.SkipOfInRange | million-backend/Million.Infrastructure/Repositories/PropertyRepository.cs:59 | without overflow the skip is `(pageNumber - 1) * pageSize`, and page 1 skips nothing |
| PropertySearch.SkipOfOverflow | million-backend/Million.Infrastructure/Repositories/PropertyRepository.cs:59 | page 0x40000001 of size 2 wraps to the skip `int.MinValue` |
| PropertySearch.Page | million-backend/Million.Infrastructure/Repositories/PropertyRepository.cs:59-60 | `$skip` then `$limit`: at most `limit` entries, the entries from `skip` onward in order, as many as remain, and none past the end |
| PropertySearch.OwnersOf | million-backend/Million.Infrastructure/Repositories/PropertyRepository.cs:61 | the owner join yields exactly the stored owners with the property's IdOwner |
| PropertySearch.ImagesOf | million-backend/Million.Infrastructure/Repositories/PropertyRepository.cs:62 | the intended image join yields exactly the images whose IdProperty is the property's |
| PropertySearch.ImagesOfAsWrittenIsEverything | million-backend/Million.Infrastructure/Repositories/PropertyRepository.cs:62 | the join on `idProperty` as written yields the whole image collection for every property |
| PropertySearch.ImageJoinAsWrittenMismatch | million-backend/Million.Infrastructure/Repositories/PropertyRepository.cs:62 | an image of property 2 is joined to property 1 as written, and not under the intended join |
| PropertySearch.ImagesOfIsFindAll | million-backend/Million.Infrastructure/Repositories/PropertyImageRepository.cs:23-26 | the intended image join is `GetByPropertyIdAsync`'s filter |
| PropertySearch.OwnersOfIsFindAll | million-backend/Million.Infrastructure/Repositories/OwnerRepository.cs:28-31 | the owner join is `GetByIdAsync`'s filter |
| PropertySearch.Unwind | million-backend/Million.Infrastructure/Repositories/PropertyRepository.cs:63-75 | `$unwind` keeping empty joins, then `$project`: one document per joined owner, or one with a null Owner when none joined |
| PropertySearch.JoinOne | million-backend/Million.Infrastructure/Repositories/PropertyRepository.cs:61-75 | each joined document is the property with only Owner and PropertyImages changed; the images are its own, and the owner, if any, is a stored owner with its IdOwner; never zero documents |
| PropertySearch.JoinPage | million-backend/Million.Infrastructure/Repositories/PropertyRepository.cs:61-75 | the joined page is never shorter than the page |
| PropertySearch.JoinOneUnique | million-backend/Million.Infrastructure/Repositories/PropertyRepository.cs:61-63 | with unique owner ids a property stays one document, carrying its owner or null |
| PropertySearch.JoinPageLeftJoin | million-backend/Million.Infrastructure/Repositories/PropertyRepository.cs:61-75 | with unique owner ids the joins are a left join: entry k is page entry k with its owner (or null) and its images |
| PropertySearch.JoinPageKeepsCriteria | million-backend/Million.Infrastructure/Repositories/PropertyRepository.cs:57-75 | the joins keep every document meeting the criteria |
| PropertySearch.PageMeetsCriteria | million-backend/Million.Infrastructure/Repositories/PropertyRepository.cs:57-60 | every property on a page of the matches meets the criteria |
| PropertySearch.Search | million-backend/Million.Infrastructure/Repositories/PropertyRepository.cs:20-81 | the query succeeds exactly when the skip is non-negative and the page size positive; otherwise the store's `$skip` or `$limit` error is thrown. On success the total is the count of properties meeting the criteria, and every returned property meets them |
| PropertySearch.SearchPage | million-backend/Million.Infrastructure/Repositories/PropertyRepository.cs:57-75 | the returned page: at most pageSize entries; entry k is match `skip + k` with its owner (or null) and images; as many as remain; empty past the end |
| PropertySearch.SearchNoMatch | million-backend/Million.Infrastructure/Repositories/PropertyRepository.cs:50-80 | when nothing meets the criteria, the total is 0 and the page empty |
| PropertySearch.TotalRecordsIgnoresPaging | million-backend/Million.Infrastructure/Repositories/PropertyRepository.cs:50-55 | the total does not depend on pageNumber or pageSize |
| PropertyStore.PropertyWithId | million-backend/Million.Api/Program.cs:33 | the id generator replaces an empty IdProperty and keeps any other |
| PropertyStore.PropertyRepository.constructor | million-backend/Million.Infrastructure/Repositories/PropertyRepository.cs:15-18 | the repository works on the given context |
| PropertyStore.PropertyRepository.GetPropertiesAsync | million-backend/Million.Infrastructure/Repositories/PropertyRepository.cs:20-81 | the method answers the search over the current collections |
| PropertyStore.PropertyRepository.GetByIdAsync | million-backend/Million.Infrastructure/Repositories/PropertyRepository.cs:83-86 | a stored property with that id, or null exactly when none has it |
| PropertyStore.PropertyRepository.UpdateAsync | million-backend/Million.Infrastructure/Repositories/PropertyRepository.cs:88-91 | only the property with the same IdProperty is replaced, each other stays in place; no match changes nothing; the other collections are unchanged |
| PropertyStore.PropertyRepository.DeleteAsync | million-backend/Million.Infrastructure/Repositories/PropertyRepository.cs:93-97 | exactly the images of that property go, then exactly that property; owners and traces are unchanged |
| PropertyStore.PropertyRepository.AddAsync | million-backend/Million.Infrastructure/Repositories/PropertyRepository.cs:99-103 | the property (id filled in) is appended and returned as stored; a reused id throws and stores nothing; the other collections are unchanged |
| OwnerStore.OwnerWithId | million-backend/Million.Api/Program.cs:27 | the id generator replaces an empty IdOwner and keeps any other |
| OwnerStore.OwnerRepository.constructor | million-backend/Million.Infrastructure/Repositories/OwnerRepository.cs:12-15 | the repository works on the given context |
| OwnerStore.OwnerRepository.AddAsync | million-backend/Million.Infrastructure/Repositories/OwnerRepository.cs:17-21 | the owner is appended and returned; a reused id throws and stores nothing; the other collections are unchanged |
| OwnerStore.OwnerRepository.GetAllAsync | million-backend/Million.Infrastructure/Repositories/OwnerRepository.cs:23-26 | every stored owner, in store order |
| OwnerStore.OwnerRepository.GetByIdAsync | million-backend/Million.Infrastructure/Repositories/OwnerRepository.cs:28-31 | a stored owner with that id, or null exactly when none has it |
| OwnerStore.OwnerRepository.UpdateAsync | million-backend/Million.Infrastructure/Repositories/OwnerRepository.cs:33-36 | the owner with a matching IdOwner is replaced, each other stays in place; no match changes nothing |
| OwnerStore.OwnerRepository.DeleteAsync | million-backend/Million.Infrastructure/Repositories/OwnerRepository.cs:38-41 | exactly the owner with that id goes; the other collections are unchanged |
| ImageStore.ImageWithId | million-backend/Million.Api/Program.cs:39 | the id generator replaces an empty IdPropertyImage and keeps any other |
| ImageStore.PropertyImageRepository.constructor | million-backend/Million.Infrastructure/Repositories/PropertyImageRepository.cs:12-15 | the repository works on the given context |
| ImageStore.PropertyImageRepository.AddAsync | million-backend/Million.Infrastructure/Repositories/PropertyImageRepository.cs:17-21 | the image is appended and returned as stored; a reused id throws and stores nothing |
| ImageStore.PropertyImageRepository.GetByPropertyIdAsync | million-backend/Million.Infrastructure/Repositories/PropertyImageRepository.cs:23-26 | exactly the images whose IdProperty is the argument, in store order |
| ImageStore.PropertyImageRepository.GetByIdAsync | million-backend/Million.Infrastructure/Repositories/PropertyImageRepository.cs:28-31 | a stored image with that id, or null exactly when none has it |
| ImageStore.PropertyImageRepository.DeleteAsync | million-backend/Million.Infrastructure/Repositories/PropertyImageRepository.cs:33-36 | exactly the image with that id goes, an absent id changes nothing, and the other collections are unchanged |
| TraceStore.TraceWithId | million-backend/Million.Api/Program.cs:45 | the id generator replaces an empty IdPropertyTrace and keeps any other |
| TraceStore.AppendedTraceIsListed | million-backend/Million.Infrastructure/Repositories/PropertyTraceRepository.cs:17-26 | after appending a trace, it is among its property's traces, and every trace listed before still is |
| TraceStore.PropertyTraceRepository.constructor | million-backend/Million.Infrastructure/Repositories/PropertyTraceRepository.cs:12-15 | the repository works on the given context |
| TraceStore.PropertyTraceRepository.AddAsync | million-backend/Million.Infrastructure/Repositories/PropertyTraceRepository.cs:17-21 | the trace is appended and returned, earlier traces unchanged; a reused id throws and stores nothing |
| TraceStore.PropertyTraceRepository.GetByPropertyIdAsync | million-backend/Million.Infrastructure/Repositories/PropertyTraceRepository.cs:23-26 | exactly the traces whose IdProperty is the argument, in store order |
| Paging.CeilDiv | million-backend/Million.Application/Wrappers/PagedResponse.cs:16 | the page count covers the records, one page fewer would not, and it is 0 exactly when there are no records |
| Paging.CeilDivUnique | million-backend/Million.Application/Wrappers/PagedResponse.cs:16 | no other page count meets both bounds, so the count is the ceiling of records over page size |
| Paging.NewPagedResponse | million-backend/Million.Application/Wrappers/PagedResponse.cs:11-18 | data, page number, page size and total are stored unchanged; TotalPages·pageSize ≥ totalRecords, (TotalPages − 1)·pageSize < totalRecords when positive, and 0 for no records |
| PropertiesApi.FirstEnabled | million-backend/Million.Api/Controllers/PropertiesController.cs:55 | `FirstOrDefault(pi => pi.Enabled)`: an enabled image with no enabled one before it, or null exactly when none is enabled |
| PropertiesApi.ToDto | million-backend/Million.Api/Controllers/PropertiesController.cs:45-56 | ids, name, address, price and year are copied. OwnerName and OwnerPhoto are the owner's, or "" for a null owner. Image is the File of the first enabled image, or "" when none is enabled |
| PropertiesApi.ToDtos | million-backend/Million.Api/Controllers/PropertiesController.cs:45-56 | one DTO per result, in result order |
| PropertiesApi.ToImageDtos | million-backend/Million.Api/Controllers/PropertiesController.cs:138 | one DTO per image, in order, carrying its id and File |
| PropertiesApi.NewProperty | million-backend/Million.Api/Controllers/PropertiesController.cs:95-102 | Name, Address, Price, Year and IdOwner come from the DTO; the id is empty, the owner null, no images |
| PropertiesApi.NewImage | million-backend/Million.Api/Controllers/PropertiesController.cs:167-173 | IdProperty is the route id, File the ImageUrl, PublicId the given one, Enabled true, the id empty |
| PropertiesApi.PriceTrace | million-backend/Million.Api/Controllers/PropertiesController.cs:122-129 | the trace has IdProperty = id, the given time, Name "Price Update", Value = new price, Tax = old price |
| PropertiesApi.PropertiesController.constructor | million-backend/Million.Api/Controllers/PropertiesController.cs:21-31 | the controller holds the four repositories, all over one database |
| PropertiesApi.PropertiesController.GetProperties | million-backend/Million.Api/Controllers/PropertiesController.cs:33-60 | the search runs with a null propertyId and the request's page figures (default page 1 of 10). The answer is one DTO per result in order, the request's pageNumber and pageSize, the repository's total and its page count; a thrown store error escapes |
| PropertiesApi.PropertiesController.GetPropertyById | million-backend/Million.Api/Controllers/PropertiesController.cs:62-84 | NotFound when no property has the id; otherwise the DTO of the stored property with that id |
| PropertiesApi.PropertiesController.CreateProperty | million-backend/Million.Api/Controllers/PropertiesController.cs:86-106 | an unknown IdOwner answers BadRequest "Owner not found." and stores nothing. Otherwise the new property from the DTO is appended and answered Created with its id and the whole property, unless its id is already stored, in which case the store's duplicate-key error escapes and nothing is stored. Owners, images and traces are unchanged |
| PropertiesApi.PropertiesController.UpdateProperty | million-backend/Million.Api/Controllers/PropertiesController.cs:108-132 | an unknown id answers NotFound and writes neither property nor trace. Otherwise only that property's Price changes, and exactly one trace is appended, with Value = new price and Tax = old price. The answer is NoContent; a reused trace id makes the duplicate-key error escape after the price is written |
| PropertiesApi.PropertiesController.GetPropertyImages | million-backend/Million.Api/Controllers/PropertiesController.cs:134-139 | Ok with the id and URL of exactly that property's images |
| PropertiesApi.PropertiesController.DeletePropertyImage | million-backend/Million.Api/Controllers/PropertiesController.cs:143-154 | NotFound and no write when no stored image with that id belongs to the route's property; otherwise exactly that image is removed, and nothing else changes |
| PropertiesApi.PropertiesController.AddImageToProperty | million-backend/Million.Api/Controllers/PropertiesController.cs:156-178 | an unknown property answers NotFound "Property not found" and stores nothing. Otherwise one enabled image of that property is appended, with the URL and public id given, and its id is answered; a reused image id makes the duplicate-key error escape and stores nothing |
| PropertiesApi.PropertiesController.GetPropertyTraces | million-backend/Million.Api/Controllers/PropertiesController.cs:180-185 | Ok with the repository's list unchanged: exactly the traces of that property, in store order |
| PropertiesApi.PropertiesController.DeleteProperty | million-backend/Million.Api/Controllers/PropertiesController.cs:187-197 | an unknown id answers NotFound and removes nothing. Otherwise the property and exactly its images go, and traces and owners stay |
| OwnersApi.ToOwnerDtos | million-backend/Million.Api/Controllers/OwnersController.cs:26-30 | one (IdOwner, Name) pair per owner, in order |
| OwnersApi.NewOwner | million-backend/Million.Api/Controllers/OwnersController.cs:37-44 | the fresh id, and Name, Address, Photo and Birthday from the DTO |
| OwnersApi.Edited | million-backend/Million.Api/Controllers/OwnersController.cs:60-61 | Name and Address from the DTO; IdOwner, Photo and Birthday kept |
| OwnersApi.OwnersController.constructor | million-backend/Million.Api/Controllers/OwnersController.cs:17-20 | the controller holds the owner repository |
| OwnersApi.OwnersController.GetOwners | million-backend/Million.Api/Controllers/OwnersController.cs:22-32 | Ok with one (IdOwner, Name) pair per stored owner, in store order |
| OwnersApi.OwnersController.CreateOwner | million-backend/Million.Api/Controllers/OwnersController.cs:34-49 | the owner under the fresh id is appended and answered Created with the id; a reused id throws and stores nothing |
| OwnersApi.OwnersController.UpdateOwner | million-backend/Million.Api/Controllers/OwnersController.cs:51-65 | an unknown id answers NotFound and writes nothing; otherwise only that owner's Name and Address change, and the answer is NoContent |
| OwnersApi.OwnersController.DeleteOwner | million-backend/Million.Api/Controllers/OwnersController.cs:67-77 | an unknown id answers NotFound and removes nothing; otherwise exactly that owner goes, and properties are untouched |
| ErrorHandling.StatusCodeFor | million-backend/Million.Api/Middleware/ErrorHandlerMiddleware.cs:29-41 | 400 exactly for a ValidationException; 404 exactly for another exception whose lower-cased message contains "not found"; 500 exactly for the rest |
| ErrorHandling.ValidationBeforeNotFound | million-backend/Million.Api/Middleware/ErrorHandlerMiddleware.cs:31-36 | a validation message mentioning "not found" still gives 400, while the same message on another exception gives 404 |
| ErrorHandling.HttpResponse.constructor | million-backend/Million.Api/Middleware/ErrorHandlerMiddleware.cs:26 | a response with the status and content type given and no body written yet |
| ErrorHandling.Invoke | million-backend/Million.Api/Middleware/ErrorHandlerMiddleware.cs:18-46 | without an exception the response is left as it was; with one, the content type is application/json, the status is the one classified, and exactly the body with its message is written |
| JsObjects.ToJsString | million-front/src/lib/api/properties.ts:19 | `String(value)`: a string as is, a number's digits, "undefined", "null", and "[object Object]" for an object |
| JsObjects.Get | million-front/src/lib/hooks/useFilterStore.ts:32 | a property read: undefined for a missing key, else the value of some entry with that key |
| JsObjects.Assign | million-front/src/components/feature/filter-bar.tsx:22-25 | a new key is appended; an existing one keeps its place; every old key keeps its position |
| JsObjects.AssignKeys | million-front/src/components/feature/filter-bar.tsx:22-25 | after assignment the keys are the old ones plus the assigned one |
| JsObjects.AssignGet | million-front/src/components/feature/filter-bar.tsx:22-25 | the assigned key reads the new value, and every other key reads as before |
| JsObjects.AssignWellFormed | million-front/src/components/feature/filter-bar.tsx:22-25 | assignment never duplicates a key |
| JsObjects.Spread | million-front/src/lib/hooks/useFilterStore.ts:32 | `{ ...a, ...b }` keeps a's keys as its prefix |
| JsObjects.SpreadKeys | million-front/src/lib/hooks/useFilterStore.ts:32 | a spread has exactly the keys of either object, and none twice |
| JsObjects.SpreadGet | million-front/src/lib/hooks/useFilterStore.ts:32 | after a spread a key reads from b when b has it (an explicit undefined included), and from a otherwise |
| FilterState.FilterStore.constructor | million-front/src/lib/hooks/useFilterStore.ts:15-29 | initial filters name '' and address '', bounds undefined; page 1 of 9 |
| FilterState.FilterStore.SetFilters | million-front/src/lib/hooks/useFilterStore.ts:30-34 | the supplied keys are overwritten, the rest kept; pageNumber goes back to 1 and pageSize is kept |
| FilterState.FilterStore.SetPageNumber | million-front/src/lib/hooks/useFilterStore.ts:35-37 | only pageNumber changes, to the argument |
| FilterState.FilterStore.ClearFilters | million-front/src/lib/hooks/useFilterStore.ts:38 | back to the initial filters and page 1 of 9 from any state, so clearing twice is clearing once |
| FilterState.FilterStore.Query | million-front/src/components/feature/property-list.tsx:26 | `{ ...filters, ...pagination }` reads the page number and size from the pagination and every other key from the filters, which keep their order at the front |
| FilterBarState.InputValue | million-front/src/components/feature/filter-bar.tsx:24 | an empty input becomes undefined, and any other input itself |
| FilterBarState.FilterBar.constructor | million-front/src/components/feature/filter-bar.tsx:14 | the local filters start as the store's |
| FilterBarState.FilterBar.OnGlobalFiltersChanged | million-front/src/components/feature/filter-bar.tsx:16-18 | the local filters become the store's |
| FilterBarState.FilterBar.HandleInputChange | million-front/src/components/feature/filter-bar.tsx:20-26 | only the named local field changes, to the typed string or undefined; the store is untouched |
| FilterBarState.FilterBar.HandleSearch | million-front/src/components/feature/filter-bar.tsx:28-30 | the store's filters become the spread of the local ones over them, at page 1 of 9 |
| FilterBarState.FilterBar.HandleClear | million-front/src/components/feature/filter-bar.tsx:32-40 | the store is cleared, and the four local fields are undefined |
| ModalStores.PropertyModalStore.constructor | million-front/src/lib/hooks/usePropertyModalStore.ts:13-15 | closed, create mode, no property |
| ModalStores.PropertyModalStore.OpenModal | million-front/src/lib/hooks/usePropertyModalStore.ts:16 | open, with the given mode and property (none when omitted) |
| ModalStores.PropertyModalStore.CloseModal | million-front/src/lib/hooks/usePropertyModalStore.ts:17 | closed and no property left behind; the mode is kept |
| ModalStores.TraceModalStore.constructor | million-front/src/lib/hooks/usePropertyTraceModalStore.ts:11-12 | closed, no property info |
| ModalStores.TraceModalStore.OpenModal | million-front/src/lib/hooks/usePropertyTraceModalStore.ts:13 | open with exactly the given id and name, whatever was shown before |
| ModalStores.TraceModalStore.CloseModal | million-front/src/lib/hooks/usePropertyTraceModalStore.ts:14 | closed, no property info |
| ModalStores.OwnerModalStore.constructor | million-front/src/lib/hooks/useOwnerModalStore.ts:10 | closed |
| ModalStores.OwnerModalStore.OpenModal | million-front/src/lib/hooks/useOwnerModalStore.ts:11 | open, from any state, so idempotent |
| ModalStores.OwnerModalStore.CloseModal | million-front/src/lib/hooks/useOwnerModalStore.ts:12 | closed, from any state, so idempotent |
| FormUrlEncoding.HexDigit | million-front/src/lib/api/properties.ts:23 | a hex digit character |
| FormUrlEncoding.HexValue | million-front/src/lib/api/properties.ts:23 | the value of a hex digit, below 16 |
| FormUrlEncoding.PercentByte | million-front/src/lib/api/properties.ts:23 | `%XY` for a byte, whose two hex digits read back as the byte |
| FormUrlEncoding.Utf8Bytes | million-front/src/lib/api/properties.ts:23 | one to four bytes; an ASCII character is its own byte, any other only bytes ≥ 0x80 |
| FormUrlEncoding.PercentBytes | million-front/src/lib/api/properties.ts:23 | percent-encoded bytes contain no `&` or `=` |
| FormUrlEncoding.EncodeChar | million-front/src/lib/api/properties.ts:23 | an unreserved character stays, and no encoded character contains `&` or `=` |
| FormUrlEncoding.Encode | million-front/src/lib/api/properties.ts:23 | an encoded name or value contains no separator, and text of unreserved characters is unchanged |
| FormUrlEncoding.DecodeEncodeChar | million-front/src/lib/api/properties.ts:23 | decoding undoes the encoding of one ASCII character |
| FormUrlEncoding.DecodeEncode | million-front/src/lib/api/properties.ts:23 | decoding undoes the encoding of ASCII text |
| FormUrlEncoding.Split | million-front/src/lib/api/properties.ts:23 | splitting gives at least one piece |
| FormUrlEncoding.SplitPlain | million-front/src/lib/api/properties.ts:23 | text without the separator is one piece |
| FormUrlEncoding.SplitFirst | million-front/src/lib/api/properties.ts:23 | a piece without the separator, then the separator, splits off first |
| FormUrlEncoding.SplitJoin | million-front/src/lib/api/properties.ts:23 | splitting undoes joining pieces that hold no separator |
| FormUrlEncoding.AfterFirstSplits | million-front/src/lib/api/properties.ts:23 | the text after the first `=` of `a + "=" + b`, with no `=` in `a`, is `b` |
| FormUrlEncoding.EncodePair | million-front/src/lib/api/properties.ts:23 | an encoded pair contains no `&` |
| FormUrlEncoding.EncodePairs | million-front/src/lib/api/properties.ts:23 | one encoded pair per parameter, in order |
| FormUrlEncoding.DecodeEncodedPieces | million-front/src/lib/api/properties.ts:23 | the decoded pieces are the ASCII pairs that were encoded |
| FormUrlEncoding.ParseSerialize | million-front/src/lib/api/properties.ts:23 | a serialized query of ASCII names and values parses back to the same pairs, in order |
| PropertiesClient.KeptParams | million-front/src/lib/api/properties.ts:17-21 | no more parameters than entries |
| PropertiesClient.KeptParamsMembers | million-front/src/lib/api/properties.ts:17-21 | a parameter is present exactly when some entry whose value is not undefined, null or '' gives it as (key, String(value)) |
| PropertiesClient.KeptParamsConcat | million-front/src/lib/api/properties.ts:17-21 | the filtering commutes with concatenation, so the parameters keep the entries' order |
| PropertiesClient.ZeroIsKept | million-front/src/lib/api/properties.ts:18 | a value of 0 is sent, as "0" |
| PropertiesClient.GetProperties | million-front/src/lib/api/properties.ts:12-24 | the loop over the entries builds the path 'properties?' followed by the serialized kept parameters |
| PropertiesClient.QueryParsesToKeptParams | million-front/src/lib/api/properties.ts:15-23 | with ASCII names and values, the server reads back exactly the kept parameters, in order |
| PropertiesClient.CreatePropertyAsWritten | million-front/src/lib/api/properties.ts:34-36 | as written, `idProperty` holds the whole response body |
| PropertiesClient.CreateProperty | million-front/src/lib/api/properties.ts:30-37 | as intended, `idProperty` is the created property's own `idProperty` |
| PropertiesClient.CreatedImagesPathAsWritten | million-front/src/components/feature/property-modal.tsx:57-58 | as written, the image of a new property is posted to "properties/[object Object]/images", whatever the property |
| PropertiesClient.CreatedImagesPath | million-front/src/components/feature/property-modal.tsx:57-58 | as intended, the image path carries the created property's id |
| PropertiesClient.CreatedImagesPathMismatch | million-front/src/lib/api/properties.ts:34-36 | for a created property with an actual id, the two paths differ |
| ImageOptimization.OrDefault | million-front/src/components/ui/optimized-image.tsx:28 | `n \|\| d`: n when it is given and non-zero, else d |
| ImageOptimization.OptimizedSrc | million-front/src/components/ui/optimized-image.tsx:43-49 | a source not containing 'res.cloudinary.com', or without '/upload/', is returned unchanged |
| ImageOptimization.CloudinaryRewrite | million-front/src/components/ui/optimized-image.tsx:41-49 | on a Cloudinary URL the first '/upload/' becomes '/upload/q_auto,f_auto,w_W' + (',h_H,c_limit' when H is truthy) + '/', and the rest is kept |
| ImageOptimization.Render | million-front/src/components/ui/optimized-image.tsx:15-77 | an empty src renders the placeholder, in fill layout or at width\|\|100 × height\|\|100. Otherwise loading defaults to lazy: fill mode optimises with width\|\|800 and no height, and fixed mode shows width\|\|100 × height\|\|100 but optimises with width\|\|100 and the raw height |
| ImageOptimization.OtherHostsUnchanged | million-front/src/components/ui/optimized-image.tsx:44 | a non-Cloudinary source is rendered as given |
| ImageOptimization.FixedWithoutHeight | million-front/src/components/ui/optimized-image.tsx:57-61 | a fixed Cloudinary image without a height is shown 100 high but requested by width alone, loading lazily |
| ImageOptimization.FillDefaultWidth | million-front/src/components/ui/optimized-image.tsx:51-56 | a fill-mode Cloudinary image without a width requests 'w_800' |
| ImageOptimization.DefaultFillWidthText | million-front/src/components/ui/optimized-image.tsx:55 | the default fill width is written "800" |
| FormRules.IssuePaths | million-front/src/components/feature/property-form.tsx:30-52 | the set of fields with an issue is empty exactly when there are no issues |
| FormRules.IssuePathsMembers | million-front/src/components/feature/property-form.tsx:30-52 | a field is among the paths exactly when some issue is about it |
| FormRules.IssuePathsConcat | million-front/src/components/feature/property-form.tsx:30-52 | the fields of two issue lists joined are the fields of either |
| FormRules.MinLengthIssues | million-front/src/components/feature/property-form.tsx:31-32 | `min(n)` flags its field exactly when the text is shorter than n |
| FormRules.FileIssues | million-front/src/components/feature/property-form.tsx:44-51 | an optional file flags its field exactly when one is given with a type not in the accepted list |
| PropertyFormRules.Coerce | million-front/src/components/feature/property-form.tsx:33-38 | `Number(val)` of a numeric default is that number |
| PropertyFormRules.PriceIssues | million-front/src/components/feature/property-form.tsx:33-36 | the price is flagged exactly when it is not a positive number |
| PropertyFormRules.YearIssues | million-front/src/components/feature/property-form.tsx:37-43 | the year is flagged exactly when it is not a number in [1800, current year]; below 1800 gives the 'válido' message and after the current year the 'futuro' one |
| PropertyFormRules.OwnerIssues | million-front/src/components/feature/property-form.tsx:44 | the owner is flagged exactly when it is not a UUID |
| PropertyFormRules.Failures | million-front/src/components/feature/property-form.tsx:30-52 | each field is named exactly when its rule fails, and none exactly when every rule holds |
| PropertyFormRules.CreateIssuesPaths | million-front/src/components/feature/property-form.tsx:30-52 | the fields with an issue from the create schema are the fields whose rule fails |
| PropertyFormRules.CreateIssuesFields | million-front/src/components/feature/property-form.tsx:30-52 | for each of the six fields: an issue exactly when its rule fails; and no issues exactly when every rule holds |
| PropertyFormRules.ParseForm | million-front/src/components/feature/property-form.tsx:54-75 | edit mode with `updateSchema` passes exactly for a positive price, submits only the price, and otherwise flags only the price. Create mode with `createSchema` passes exactly when every rule holds, submits the coerced values, and otherwise gives the create schema's issues |
| PropertyFormRules.DefaultValues | million-front/src/components/feature/property-form.tsx:76-83 | without initial data: '', '', 0, the current year, '' and no file; with it, the edited property's fields, and the current year for a year of 0 |
| PropertyFormRules.BlankCreateSubmission | million-front/src/components/feature/__tests__/PropertyForm.test.tsx:58-64 | submitting the blank create form flags name, address, price and owner, and nothing else |
| OwnerFormRules.BirthdayIssues | million-front/src/components/feature/owner-form.tsx:24-26 | the birthday is flagged exactly when `Date.parse` gives NaN |
| OwnerFormRules.OwnerFailures | million-front/src/components/feature/owner-form.tsx:21-34 | each field is named exactly when its rule fails, and none exactly when every rule holds |
| OwnerFormRules.OwnerIssuesPaths | million-front/src/components/feature/owner-form.tsx:21-34 | the fields with an issue are the fields whose rule fails |
| OwnerFormRules.OwnerIssuesFields | million-front/src/components/feature/owner-form.tsx:21-34 | name under 3, address under 5, an unparsable birthday and a photo of another type are each flagged exactly when they occur; no issues exactly when every rule holds |
| OwnerFormRules.ValuesObject | million-front/src/components/feature/owner-form.tsx:56 | the parsed values have distinct keys and no `photo` key |
| OwnerFormRules.Submit | million-front/src/components/feature/owner-form.tsx:56 | something is submitted exactly when the schema passes; then it is the values followed by `photo: ''`, with every other key unchanged |
| OwnerFormRules.DefaultValues | million-front/src/components/feature/owner-form.tsx:45-50 | without initial data everything is ''. With it: name and address copied, and the birthday is the ISO text before 'T'; there is no form when the date is invalid |
| OwnerFormRules.DefaultBirthdayIsDate | million-front/src/components/feature/owner-form.tsx:48 | an ISO text `date + 'T' + time` gives the default birthday `date` |
| OwnerFormRules.DefaultBirthdayExample | million-front/src/components/feature/__tests__/OwnerForm.test.tsx:52-63 | the stored birthday '1985-10-20T00:00:00Z' gives the default '1985-10-20' |

## Left out

- Paging.NewPagedResponse: requires pageSize > 0. For pageSize 0 the source divides by zero in double arithmetic, and the `(int)` cast of infinity or NaN is not modelled. The search throws before that point for such a page size anyway.
- The `(int)` cast of the 64-bit count at PropertyRepository.cs:55 is not modelled: counts are unbounded naturals.
- Paging.CeilDiv: the ceiling is exact. The double rounding of `Math.Ceiling(totalRecords / (double)pageSize)` does not matter for `int` operands.
- Async, concurrency and transactions are not modelled. Each handler is one sequential step, so the race between the owner check and the insert in `CreateProperty` is not visible.
- BSON mapping, deserialisation and regex metacharacters are not modelled. Documents carry the C# field names, and a regex argument is literal text.
- Culture-sensitive `ToLower` and JavaScript character semantics are not modelled: lower-casing is ASCII, and strings are sequences of characters.
- The JSON encoding of the middleware's `{ message }` body is not modelled; the body is kept as a record. The error log call writes nothing the model tracks.
- FormUrlEncoding.ParseSerialize: the round trip is proved for ASCII names and values. The decoder reads each byte as a character, which is exact only for ASCII.
- FormRules.MinLengthIssues: lengths count characters, not UTF-16 code units as zod does. The two differ outside the Basic Multilingual Plane.
- Fractional, NaN and Infinity values for `width`, `height`, price and year are not modelled. Widths and heights are integers; `Number()` gives NaN or a finite real.
- Zod's default message for a value that is not a number is kept as a kind of issue, `NotANumber`, without its text.
- The `instanceof File` rule with the message 'Por favor, suba una imagen.' cannot fail for a typed file value, so it adds no issue.
- The filter bar's effect after `handleClear` is not modelled. React then re-runs the effect, and the local filters become the store's initial ones; `OnGlobalFiltersChanged` is that step, taken on its own.
- Seeding is not modelled: DatabaseSeeder.cs, SeedController.cs and seed-mongodb.js.
- Configuration is not modelled: DI, CORS, Swagger and Serilog.
- The UI's rendering is not modelled.
- React-query caching and invalidation are not modelled.
- The fetch wrappers client.ts and owners.ts are not modelled; they hold no rule beyond an id guard.
- The Cloudinary upload is not modelled.
- Guid generation, `DateTime.UtcNow` and the current year are parameters.
- PropertySearch.OwnersOf: the owner join is modelled as intended, matching a property's IdOwner to the owner's IdOwner. The code names the foreign field `IdOwner` (PropertyRepository.cs:61). Program.cs:27 stores `Owner.IdOwner` as `_id`, so the owner documents may not carry that field. If they do not, no owner joins a property with an IdOwner, and every listed DTO has an empty OwnerName and OwnerPhoto. The stored field names (BSON mapping) are outside the model, so the model cannot decide this.
- The `onError` fallback of `OptimizedImage` is a browser event and is not modelled.

## Findings

| source | as written | input that shows it | evidently intended | confidence | as-written member | corrected member |
|---|---|---|---|---|---|---|
| million-backend/Million.Infrastructure/Repositories/PropertyRepository.cs:62 | the image `$lookup` joins the local field `idProperty` to the foreign field `idProperty`. That case-sensitive name is in neither collection: property documents keep their id as `_id`, and image documents carry `IdProperty`. Both sides read as null, and null equals null, so every property gets every image | property 1 and one image whose IdProperty is 2: the image is joined to property 1 | join on `IdProperty`, giving each property its own images | high, not executed | PropertySearch.ImagesOfAsWritten | PropertySearch.ImagesOf |
| million-front/src/lib/api/properties.ts:34-36 | `createProperty` wraps the response as `{ idProperty: id }`, but the backend answers 201 with the whole created property (PropertiesController.cs:105). `idProperty` is then an object, and property-modal.tsx:58 posts the new image to `properties/[object Object]/images` | any create with an image, for instance a created property whose idProperty is "6f1c" | take `idProperty` from the returned property | high, not executed | PropertiesClient.CreatePropertyAsWritten | PropertiesClient.CreateProperty |

The model uses the corrected members. `PropertySearch.ImagesOfAsWrittenIsEverything` and `PropertySearch.ImageJoinAsWrittenMismatch` exhibit the first finding. `PropertiesClient.CreatedImagesPathAsWritten` and `PropertiesClient.CreatedImagesPathMismatch` exhibit the second. The corrected properties are `PropertySearch.ImagesOfIsFindAll` and `PropertiesClient.CreatedImagesPath`.
