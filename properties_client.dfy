/** The property API client: the list query built from a filter object, and
    the id handed back after a create. */
module PropertiesClient {
  import opened JsObjects
  import opened FormUrlEncoding

  /** The values `getProperties` leaves out of the query. */
  predicate Dropped(v: JsValue) {
    v == Undefined || v == Null || v == Str("")
  }

  /** The parameters the filter entries produce, in entry order: the entries
      that are not dropped become `(key, String(value))`. */
  function KeptParams(entries: JsObject): (r: seq<(string, string)>)
    ensures |r| <= |entries|
  {
    if entries == [] then []
    else
      var last := entries[|entries| - 1];
      KeptParams(entries[..|entries| - 1]) + (if Dropped(last.1) then [] else [(last.0, ToJsString(last.1))])
  }

  /** A parameter is present exactly when some entry that is not dropped gives it. */
  lemma {:induction false} KeptParamsMembers(entries: JsObject, p: (string, string))
    ensures p in KeptParams(entries) <==>
      exists i :: 0 <= i < |entries| && !Dropped(entries[i].1) && p == (entries[i].0, ToJsString(entries[i].1))
  {
    if entries != [] {
      var init := entries[..|entries| - 1];
      KeptParamsMembers(init, p);
      assert forall i :: 0 <= i < |init| ==> init[i] == entries[i];
    }
  }

  /** The filtering commutes with concatenation, so it keeps the entries' order. */
  lemma {:induction false} KeptParamsConcat(a: JsObject, b: JsObject)
    ensures KeptParams(a + b) == KeptParams(a) + KeptParams(b)
    decreases |b|
  {
    if b == [] {
      assert a + b == a;
    } else {
      var init := b[..|b| - 1];
      assert (a + b)[..|a + b| - 1] == a + init;
      KeptParamsConcat(a, init);
    }
  }

  /** Only the three excluded values are dropped: 0 is sent. */
  lemma ZeroIsKept(key: string)
    ensures KeptParams([(key, Num(0))]) == [(key, "0")]
  {
    assert [(key, Num(0))][..0] == [];
  }

  const PropertiesEndpoint: string := "properties"

  /** `getProperties`: one pass over `Object.entries(filters)` appending the
      kept entries, then the request path. */
  method GetProperties(filters: JsObject) returns (path: string)
    ensures path == PropertiesEndpoint + "?" + Serialize(KeptParams(filters))
  {
    var params: seq<(string, string)> := [];
    var i := 0;
    while i < |filters|
      invariant 0 <= i <= |filters|
      invariant params == KeptParams(filters[..i])
    {
      var (key, value) := filters[i];
      if value != Undefined && value != Null && value != Str("") {
        params := params + [(key, ToJsString(value))];
      }
      assert filters[..i + 1][..i] == filters[..i];
      i := i + 1;
    }
    assert filters[..|filters|] == filters;
    path := PropertiesEndpoint + "?" + Serialize(params);
  }

  /** What the server reads back from the query: the kept parameters, in
      order, whenever names and values are ASCII. */
  lemma QueryParsesToKeptParams(filters: JsObject)
    requires forall i :: 0 <= i < |KeptParams(filters)| ==>
      Ascii(KeptParams(filters)[i].0) && Ascii(KeptParams(filters)[i].1)
    ensures Parse(Serialize(KeptParams(filters))) == KeptParams(filters)
  {
    ParseSerialize(KeptParams(filters));
  }

  /** `createProperty` as written: the decoded response body (the created
      property, an object) is wrapped as `{ idProperty: body }`. */
  function CreatePropertyAsWritten(body: JsValue): (r: JsObject)
    ensures Get(r, "idProperty") == body
  {
    [("idProperty", body)]
  }

  /** `createProperty` as intended: `idProperty` is the created property's own id. */
  function CreateProperty(body: JsObject): (r: JsObject)
    ensures Get(r, "idProperty") == Get(body, "idProperty")
  {
    [("idProperty", Get(body, "idProperty"))]
  }

  /** The path `addImageToProperty` posts to for the id the create returned. */
  function ImagesPath(created: JsObject): string {
    PropertiesEndpoint + "/" + ToJsString(Get(created, "idProperty")) + "/images"
  }

  /** As written, the image of a new property goes to a path with no id in it,
      whatever the created property is. */
  lemma CreatedImagesPathAsWritten(body: JsObject)
    ensures ImagesPath(CreatePropertyAsWritten(Obj(body))) == "properties/[object Object]/images"
  {
  }

  /** As intended, the path carries the created property's id. */
  lemma CreatedImagesPath(body: JsObject, id: string)
    requires Get(body, "idProperty") == Str(id)
    ensures ImagesPath(CreateProperty(body)) == PropertiesEndpoint + "/" + id + "/images"
  {
  }

  /** The two differ for an actual id. */
  lemma CreatedImagesPathMismatch()
    ensures var body := [("idProperty", Str("6f1c"))];
      ImagesPath(CreatePropertyAsWritten(Obj(body))) != ImagesPath(CreateProperty(body))
  {
    var body := [("idProperty", Str("6f1c"))];
    CreatedImagesPath(body, "6f1c");
    assert ImagesPath(CreateProperty(body))[11] == '6';
  }
}
