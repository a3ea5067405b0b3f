/** The owner form: its schema, its default values and the payload it submits. */
module OwnerFormRules {
  import opened Common
  import opened Strings
  import opened JsObjects
  import opened ClientTypes
  import opened FormRules

  const DateMessage: string := "Por favor, ingrese una fecha válida."

  /** The fields of the form. */
  datatype OwnerField = OwnerNameField | OwnerAddressField | BirthdayField | PhotoFileField

  datatype OwnerFormValues = OwnerFormValues(name: string, address: string, birthday: string, photoFile: Option<FileRef>)

  /** `z.string().refine(val => !isNaN(Date.parse(val)), ...)`; whether
      `Date.parse` gives a number is `dateParses`. */
  function BirthdayIssues(birthday: string, dateParses: string -> bool): (r: seq<Issue<OwnerField>>)
    ensures IssuePaths(r) == Flag(!dateParses(birthday), BirthdayField)
  {
    if dateParses(birthday) then [] else [Issue(BirthdayField, Custom(DateMessage))]
  }

  /** `ownerSchema`'s issues, field by field in declaration order. */
  function OwnerIssues(v: OwnerFormValues, dateParses: string -> bool): seq<Issue<OwnerField>> {
    MinLengthIssues(OwnerNameField, v.name, NameMinLength, NameMessage)
    + (MinLengthIssues(OwnerAddressField, v.address, AddressMinLength, AddressMessage)
    + (BirthdayIssues(v.birthday, dateParses)
    + FileIssues(PhotoFileField, v.photoFile)))
  }

  /** Every rule of `ownerSchema` holds. */
  predicate ValidOwner(v: OwnerFormValues, dateParses: string -> bool) {
    && |v.name| >= NameMinLength
    && |v.address| >= AddressMinLength
    && dateParses(v.birthday)
    && (v.photoFile.None? || v.photoFile.value.mimeType in AcceptedImageTypes)
  }

  /** The fields named by four rule outcomes. */
  function OwnerFailures(name: bool, address: bool, birthday: bool, photo: bool): (r: set<OwnerField>)
    ensures OwnerNameField in r <==> name
    ensures OwnerAddressField in r <==> address
    ensures BirthdayField in r <==> birthday
    ensures PhotoFileField in r <==> photo
    ensures r == {} <==> !(name || address || birthday || photo)
  {
    Flag(name, OwnerNameField) + (Flag(address, OwnerAddressField) + (Flag(birthday, BirthdayField) + Flag(photo, PhotoFileField)))
  }

  /** The fields with an issue are the fields whose rule fails. */
  lemma OwnerIssuesPaths(v: OwnerFormValues, dateParses: string -> bool)
    ensures IssuePaths(OwnerIssues(v, dateParses)) ==
      OwnerFailures(|v.name| < NameMinLength, |v.address| < AddressMinLength, !dateParses(v.birthday),
                    v.photoFile.Some? && v.photoFile.value.mimeType !in AcceptedImageTypes)
  {
    var a := MinLengthIssues(OwnerNameField, v.name, NameMinLength, NameMessage);
    var b := MinLengthIssues(OwnerAddressField, v.address, AddressMinLength, AddressMessage);
    var c := BirthdayIssues(v.birthday, dateParses);
    var d := FileIssues(PhotoFileField, v.photoFile);
    IssuePathsConcat(c, d);
    IssuePathsConcat(b, c + d);
    IssuePathsConcat(a, b + (c + d));
  }

  /** A field has an issue exactly when its rule fails, and the form passes
      exactly when every rule holds. */
  lemma OwnerIssuesFields(v: OwnerFormValues, dateParses: string -> bool)
    ensures var paths := IssuePaths(OwnerIssues(v, dateParses));
      && (OwnerNameField in paths <==> |v.name| < NameMinLength)
      && (OwnerAddressField in paths <==> |v.address| < AddressMinLength)
      && (BirthdayField in paths <==> !dateParses(v.birthday))
      && (PhotoFileField in paths <==> v.photoFile.Some? && v.photoFile.value.mimeType !in AcceptedImageTypes)
    ensures OwnerIssues(v, dateParses) == [] <==> ValidOwner(v, dateParses)
  {
    OwnerIssuesPaths(v, dateParses);
  }

  /** A chosen file as a JavaScript value. */
  function FileValue(file: Option<FileRef>): JsValue {
    match file
    case None => Undefined
    case Some(f) => Obj([("type", Str(f.mimeType))])
  }

  /** The parsed form values as the object the schema hands back. */
  function ValuesObject(v: OwnerFormValues): (o: JsObject)
    ensures WellFormed(o)
    ensures !Has(o, PhotoKey)
  {
    [("name", Str(v.name)), ("address", Str(v.address)), ("birthday", Str(v.birthday)), ("photoFile", FileValue(v.photoFile))]
  }

  const PhotoKey: string := "photo"

  /** `handleSubmit(formValues => onSubmit({ ...formValues, photo: '' }))`:
      nothing is submitted unless the schema passes; then the values go out
      unchanged with an empty `photo` added last. */
  function Submit(v: OwnerFormValues, dateParses: string -> bool): (r: Option<JsObject>)
    ensures r.Some? <==> ValidOwner(v, dateParses)
    ensures r.Some? ==>
      && r.value == ValuesObject(v) + [(PhotoKey, Str(""))]
      && Get(r.value, PhotoKey) == Str("")
      && forall k :: k != PhotoKey ==> Get(r.value, k) == Get(ValuesObject(v), k)
  {
    OwnerIssuesFields(v, dateParses);
    if OwnerIssues(v, dateParses) == [] then
      var payload := Spread(ValuesObject(v), [(PhotoKey, Str(""))]);
      assert [(PhotoKey, Str(""))][1..] == [];
      var withPhoto := Assign(ValuesObject(v), PhotoKey, Str(""));
      assert Spread(withPhoto, []) == withPhoto;
      assert payload == Assign(ValuesObject(v), PhotoKey, Str(""));
      forall k ensures Get(payload, k) == if k == PhotoKey then Str("") else Get(ValuesObject(v), k) {
        AssignGet(ValuesObject(v), PhotoKey, Str(""), k);
      }
      Some(payload)
    else None
  }

  /** `defaultValues`. The birthday is the date part of
      `new Date(birthday).toISOString()`, whose result is `toIso`; `None` is
      an invalid date, for which `toISOString` throws and nothing renders. */
  function DefaultValues(initial: Option<ClientOwner>, toIso: string -> Option<string>): (r: Option<OwnerFormValues>)
    ensures initial.None? ==> r == Some(OwnerFormValues("", "", "", None))
    ensures initial.Some? ==> (r.None? <==> toIso(initial.value.birthday).None?)
    ensures initial.Some? && r.Some? ==>
      r.value == OwnerFormValues(initial.value.name, initial.value.address,
                                 BeforeFirst(toIso(initial.value.birthday).value, 'T'), None)
  {
    match initial
    case None => Some(OwnerFormValues("", "", "", None))
    case Some(o) =>
      match toIso(o.birthday)
      case None => None
      case Some(iso) =>
        // `name || ''` and `address || ''` are the fields themselves.
        Some(OwnerFormValues(o.name, o.address, BeforeFirst(iso, 'T'), None))
  }

  /** The default birthday is the date before the `T` of the ISO form. */
  lemma DefaultBirthdayIsDate(initial: ClientOwner, toIso: string -> Option<string>, date: string, time: string)
    requires toIso(initial.birthday) == Some(date + "T" + time)
    requires 'T' !in date
    ensures DefaultValues(Some(initial), toIso) == Some(OwnerFormValues(initial.name, initial.address, date, None))
  {
    BeforeFirstSplits(date, 'T', time);
  }

  /** A stored birthday of 1985-10-20 at midnight UTC gives "1985-10-20". */
  lemma DefaultBirthdayExample(toIso: string -> Option<string>)
    requires toIso("1985-10-20T00:00:00Z") == Some("1985-10-20T00:00:00.000Z")
    ensures DefaultValues(Some(ClientOwner("owner-1", "Jane Doe", "456 Oak Ave", "https://example.com/photo.jpg",
                                           "1985-10-20T00:00:00Z")), toIso)
      == Some(OwnerFormValues("Jane Doe", "456 Oak Ave", "1985-10-20", None))
  {
    var initial := ClientOwner("owner-1", "Jane Doe", "456 Oak Ave", "https://example.com/photo.jpg", "1985-10-20T00:00:00Z");
    assert "1985-10-20T00:00:00.000Z" == "1985-10-20" + "T" + "00:00:00.000Z";
    DefaultBirthdayIsDate(initial, toIso, "1985-10-20", "00:00:00.000Z");
  }
}
