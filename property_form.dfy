/** The property form: the create schema, the price-only edit schema chosen in
    edit mode, and the default values. */
module PropertyFormRules {
  import opened Common
  import opened ClientTypes
  import opened FormRules
  import opened ModalStores

  const PriceMessage: string := "El precio debe ser un número positivo."
  const YearMinMessage: string := "El año debe ser válido."
  const YearMaxMessage: string := "El año no puede ser en el futuro."
  const OwnerMessage: string := "Debe seleccionar un propietario válido."
  const MinYear: int := 1800

  /** The fields of the form. */
  datatype PropertyField = NameField | AddressField | PriceField | YearField | IdOwnerField | ImageFileField

  /** The result of `Number(value)`. */
  datatype Numeric = NaN | Number(value: real)

  /** A number field as the form holds it: a number (the default) or the text
      typed into the input. */
  datatype FieldValue = Numeral(n: int) | Typed(text: string)

  /** The schema's `z.preprocess(val => Number(val), ...)`; the conversion of
      typed text is `toNumber`. */
  function Coerce(v: FieldValue, toNumber: string -> Numeric): (r: Numeric)
    ensures v.Numeral? ==> r == Number(v.n as real)
  {
    match v
    case Numeral(n) => Number(n as real)
    case Typed(t) => toNumber(t)
  }

  datatype PropertyFormValues = PropertyFormValues(
    name: string, address: string, price: FieldValue, year: FieldValue,
    idOwner: string, imageFile: Option<FileRef>)

  predicate PositivePrice(price: Numeric) {
    price.Number? && price.value > 0.0
  }

  predicate YearInRange(year: Numeric, currentYear: int) {
    year.Number? && MinYear as real <= year.value <= currentYear as real
  }

  /** `z.number().positive(...)`: a non-number fails the type test alone. */
  function PriceIssues(price: Numeric): (r: seq<Issue<PropertyField>>)
    ensures IssuePaths(r) == Flag(!PositivePrice(price), PriceField)
  {
    match price
    case NaN => [Issue(PriceField, NotANumber)]
    case Number(p) => if p > 0.0 then [] else [Issue(PriceField, Custom(PriceMessage))]
  }

  /** `z.number().min(1800, ...).max(currentYear, ...)`: each bound that fails
      gives its own issue. */
  function YearIssues(year: Numeric, currentYear: int): (r: seq<Issue<PropertyField>>)
    ensures IssuePaths(r) == Flag(!YearInRange(year, currentYear), YearField)
    ensures year.Number? && year.value < MinYear as real ==> Issue(YearField, Custom(YearMinMessage)) in r
    ensures year.Number? && year.value > currentYear as real ==> Issue(YearField, Custom(YearMaxMessage)) in r
  {
    match year
    case NaN => [Issue(YearField, NotANumber)]
    case Number(y) =>
      var low := if y < MinYear as real then [Issue(YearField, Custom(YearMinMessage))] else [];
      var high := if y > currentYear as real then [Issue(YearField, Custom(YearMaxMessage))] else [];
      IssuePathsConcat(low, high);
      low + high
  }

  function OwnerIssues(idOwner: string, isUuid: string -> bool): (r: seq<Issue<PropertyField>>)
    ensures IssuePaths(r) == Flag(!isUuid(idOwner), IdOwnerField)
  {
    if isUuid(idOwner) then [] else [Issue(IdOwnerField, Custom(OwnerMessage))]
  }

  /** Every rule of `createSchema` holds. */
  predicate ValidCreate(v: PropertyFormValues, currentYear: int, toNumber: string -> Numeric, isUuid: string -> bool) {
    && |v.name| >= NameMinLength
    && |v.address| >= AddressMinLength
    && PositivePrice(Coerce(v.price, toNumber))
    && YearInRange(Coerce(v.year, toNumber), currentYear)
    && isUuid(v.idOwner)
    && (v.imageFile.None? || v.imageFile.value.mimeType in AcceptedImageTypes)
  }

  /** `createSchema`'s issues, field by field in declaration order. */
  function CreateIssues(v: PropertyFormValues, currentYear: int, toNumber: string -> Numeric, isUuid: string -> bool)
    : seq<Issue<PropertyField>>
  {
    MinLengthIssues(NameField, v.name, NameMinLength, NameMessage)
    + (MinLengthIssues(AddressField, v.address, AddressMinLength, AddressMessage)
    + (PriceIssues(Coerce(v.price, toNumber))
    + (YearIssues(Coerce(v.year, toNumber), currentYear)
    + (OwnerIssues(v.idOwner, isUuid)
    + FileIssues(ImageFileField, v.imageFile)))))
  }

  /** The fields named by six rule outcomes. */
  function Failures(name: bool, address: bool, price: bool, year: bool, owner: bool, file: bool): (r: set<PropertyField>)
    ensures NameField in r <==> name
    ensures AddressField in r <==> address
    ensures PriceField in r <==> price
    ensures YearField in r <==> year
    ensures IdOwnerField in r <==> owner
    ensures ImageFileField in r <==> file
    ensures r == {} <==> !(name || address || price || year || owner || file)
  {
    Flag(name, NameField) + (Flag(address, AddressField) + (Flag(price, PriceField)
    + (Flag(year, YearField) + (Flag(owner, IdOwnerField) + Flag(file, ImageFileField)))))
  }

  /** The fields with an issue are the fields whose rule fails. */
  lemma CreateIssuesPaths(v: PropertyFormValues, currentYear: int, toNumber: string -> Numeric, isUuid: string -> bool)
    ensures IssuePaths(CreateIssues(v, currentYear, toNumber, isUuid)) ==
      Failures(|v.name| < NameMinLength, |v.address| < AddressMinLength,
               !PositivePrice(Coerce(v.price, toNumber)), !YearInRange(Coerce(v.year, toNumber), currentYear),
               !isUuid(v.idOwner), v.imageFile.Some? && v.imageFile.value.mimeType !in AcceptedImageTypes)
  {
    var a := MinLengthIssues(NameField, v.name, NameMinLength, NameMessage);
    var b := MinLengthIssues(AddressField, v.address, AddressMinLength, AddressMessage);
    var c := PriceIssues(Coerce(v.price, toNumber));
    var d := YearIssues(Coerce(v.year, toNumber), currentYear);
    var e := OwnerIssues(v.idOwner, isUuid);
    var f := FileIssues(ImageFileField, v.imageFile);
    IssuePathsConcat(e, f);
    IssuePathsConcat(d, e + f);
    IssuePathsConcat(c, d + (e + f));
    IssuePathsConcat(b, c + (d + (e + f)));
    IssuePathsConcat(a, b + (c + (d + (e + f))));
  }

  /** A field has an issue exactly when its rule fails, and the form passes
      exactly when every rule holds. */
  lemma CreateIssuesFields(v: PropertyFormValues, currentYear: int, toNumber: string -> Numeric, isUuid: string -> bool)
    ensures var paths := IssuePaths(CreateIssues(v, currentYear, toNumber, isUuid));
      && (NameField in paths <==> |v.name| < NameMinLength)
      && (AddressField in paths <==> |v.address| < AddressMinLength)
      && (PriceField in paths <==> !PositivePrice(Coerce(v.price, toNumber)))
      && (YearField in paths <==> !YearInRange(Coerce(v.year, toNumber), currentYear))
      && (IdOwnerField in paths <==> !isUuid(v.idOwner))
      && (ImageFileField in paths <==> v.imageFile.Some? && v.imageFile.value.mimeType !in AcceptedImageTypes)
    ensures CreateIssues(v, currentYear, toNumber, isUuid) == [] <==> ValidCreate(v, currentYear, toNumber, isUuid)
  {
    CreateIssuesPaths(v, currentYear, toNumber, isUuid);
  }

  /** What a successful parse hands to `onSubmit`. The edit schema keeps only
      `price`. */
  datatype Submission =
    | CreateSubmission(name: string, address: string, price: real, year: real, idOwner: string, imageFile: Option<FileRef>)
    | PriceSubmission(newPrice: real)

  /** `isEditMode ? updateSchema : createSchema`, parsed. */
  function ParseForm(mode: ModalMode, v: PropertyFormValues, currentYear: int,
                     toNumber: string -> Numeric, isUuid: string -> bool): (r: Result<Submission, seq<Issue<PropertyField>>>)
    ensures mode == EditMode ==>
      (r.Success? <==> PositivePrice(Coerce(v.price, toNumber)))
      && (r.Success? ==> r.value == PriceSubmission(Coerce(v.price, toNumber).value))
      && (r.Failure? ==> IssuePaths(r.error) == {PriceField})
    ensures mode == CreateMode ==>
      (r.Success? <==> ValidCreate(v, currentYear, toNumber, isUuid))
      && (r.Success? ==> r.value == CreateSubmission(v.name, v.address, Coerce(v.price, toNumber).value,
                                                       Coerce(v.year, toNumber).value, v.idOwner, v.imageFile))
      && (r.Failure? ==> r.error == CreateIssues(v, currentYear, toNumber, isUuid))
  {
    if mode == EditMode then
      var issues := PriceIssues(Coerce(v.price, toNumber));
      if issues == [] then
        assert PriceField !in IssuePaths(issues);
        Success(PriceSubmission(Coerce(v.price, toNumber).value))
      else
        assert issues[0].path in IssuePaths(issues);
        Failure(issues)
    else
      var issues := CreateIssues(v, currentYear, toNumber, isUuid);
      CreateIssuesFields(v, currentYear, toNumber, isUuid);
      if issues == [] then
        Success(CreateSubmission(v.name, v.address, Coerce(v.price, toNumber).value,
                                 Coerce(v.year, toNumber).value, v.idOwner, v.imageFile))
      else Failure(issues)
  }

  /** `defaultValues`: each field from the property being edited, falling back
      (`||`) on '', 0, the current year and ''; no file. */
  function DefaultValues(initial: Option<ClientProperty>, currentYear: int): (v: PropertyFormValues)
    ensures initial.None? ==> v == PropertyFormValues("", "", Numeral(0), Numeral(currentYear), "", None)
    ensures initial.Some? ==>
      && v.name == initial.value.name && v.address == initial.value.address
      && v.price == Numeral(initial.value.price) && v.idOwner == initial.value.idOwner
      && v.year == Numeral(if initial.value.year == 0 then currentYear else initial.value.year)
      && v.imageFile == None
  {
    match initial
    case None => PropertyFormValues("", "", Numeral(0), Numeral(currentYear), "", None)
    case Some(p) =>
      // `x || ''` and `x || 0` give `x` back, so only the year's fallback shows.
      PropertyFormValues(p.name, p.address, Numeral(p.price),
                         Numeral(if p.year != 0 then p.year else currentYear), p.idOwner, None)
  }

  /** Submitting the blank create form flags name, address, price (the default
      0 is not positive) and owner, and nothing else. */
  lemma BlankCreateSubmission(currentYear: int, toNumber: string -> Numeric, isUuid: string -> bool)
    requires MinYear <= currentYear
    requires !isUuid("")
    ensures IssuePaths(CreateIssues(DefaultValues(None, currentYear), currentYear, toNumber, isUuid))
      == {NameField, AddressField, PriceField, IdOwnerField}
  {
    var v := DefaultValues(None, currentYear);
    assert YearInRange(Coerce(v.year, toNumber), currentYear);
    CreateIssuesPaths(v, currentYear, toNumber, isUuid);
    assert Failures(true, true, true, false, true, false) == {NameField, AddressField, PriceField, IdOwnerField};
  }
}
