/** `OptimizedImage`: a placeholder for a missing source, and Cloudinary URLs
    rewritten to ask for a resized, automatically compressed image. */
module ImageOptimization {
  import opened Common
  import opened Strings

  const PlaceholderSrc: string := "/images/placeholder-image.png"
  const PlaceholderAlt: string := "Placeholder"
  const CloudinaryHost: string := "res.cloudinary.com"
  const UploadSegment: string := "/upload/"
  const DefaultSize: int := 100
  const DefaultFillWidth: int := 800

  datatype Loading = Lazy | Eager

  /** The component's props; an absent optional prop is `None`. */
  datatype ImageProps = ImageProps(
    src: string, alt: string, width: Option<int>, height: Option<int>,
    loading: Option<Loading>, fill: Option<bool>)

  /** Fill the parent box, or a fixed width and height. */
  datatype Layout = FillLayout | Fixed(width: int, height: int)

  /** The props handed to the rendered `Image`; `loading` is `None` when none is passed. */
  datatype RenderedImage = RenderedImage(src: string, alt: string, layout: Layout, loading: Option<Loading>)

  /** A number prop in a condition: absent and 0 are false. */
  predicate Truthy(n: Option<int>) {
    n.Some? && n.value != 0
  }

  /** `n || d`. */
  function OrDefault(n: Option<int>, d: int): (r: int)
    ensures Truthy(n) ==> r == n.value
    ensures !Truthy(n) ==> r == d
  {
    if Truthy(n) then n.value else d
  }

  predicate IsCloudinary(src: string) {
    Contains(src, CloudinaryHost)
  }

  /** The segment that replaces `/upload/`: quality and format chosen
      automatically, the width, and the height with a limiting crop only when
      a height is given. */
  function Transformation(w: int, h: Option<int>): string {
    "/upload/q_auto,f_auto,w_" + IntToString(w) + (if Truthy(h) then ",h_" + IntToString(h.value) + ",c_limit" else "") + "/"
  }

  /** `getOptimizedSrc(w, h)`. */
  function OptimizedSrc(src: string, w: int, h: Option<int>): (r: string)
    ensures !IsCloudinary(src) ==> r == src
    ensures !Contains(src, UploadSegment) ==> r == src
  {
    if !IsCloudinary(src) then src
    else
      ReplaceFirstSpec(src, UploadSegment, Transformation(w, h), [], []);
      ReplaceFirst(src, UploadSegment, Transformation(w, h))
  }

  /** On a Cloudinary URL the first `/upload/` and only that one gets the
      transformation. */
  lemma CloudinaryRewrite(a: string, b: string, w: int, h: Option<int>)
    requires IsCloudinary(a + UploadSegment + b)
    requires forall j :: 0 <= j < |a| ==> !OccursAt(a + UploadSegment + b, UploadSegment, j)
    ensures OptimizedSrc(a + UploadSegment + b, w, h) == a + Transformation(w, h) + b
  {
    ReplaceFirstSpec(a + UploadSegment + b, UploadSegment, Transformation(w, h), a, b);
  }

  /** What the component renders for its props. */
  function Render(props: ImageProps): (r: RenderedImage)
    ensures props.src == "" ==>
      && r.src == PlaceholderSrc && r.alt == PlaceholderAlt && r.loading == None
      && r.layout == if props.fill == Some(true) then FillLayout
                     else Fixed(OrDefault(props.width, DefaultSize), OrDefault(props.height, DefaultSize))
    ensures props.src != "" ==> r.alt == props.alt && r.loading == Some(props.loading.GetOr(Lazy))
    ensures props.src != "" && props.fill == Some(true) ==>
      r.layout == FillLayout && r.src == OptimizedSrc(props.src, OrDefault(props.width, DefaultFillWidth), None)
    ensures props.src != "" && props.fill != Some(true) ==>
      && r.layout == Fixed(OrDefault(props.width, DefaultSize), OrDefault(props.height, DefaultSize))
      && r.src == OptimizedSrc(props.src, OrDefault(props.width, DefaultSize), props.height)
  {
    var fill := props.fill.GetOr(false);
    if props.src == "" then
      RenderedImage(PlaceholderSrc, PlaceholderAlt,
        if fill then FillLayout else Fixed(OrDefault(props.width, DefaultSize), OrDefault(props.height, DefaultSize)),
        None)
    else
      var loading := props.loading.GetOr(Lazy);
      if fill then
        RenderedImage(OptimizedSrc(props.src, OrDefault(props.width, DefaultFillWidth), None), props.alt, FillLayout, Some(loading))
      else
        RenderedImage(OptimizedSrc(props.src, OrDefault(props.width, DefaultSize), props.height), props.alt,
          Fixed(OrDefault(props.width, DefaultSize), OrDefault(props.height, DefaultSize)), Some(loading))
  }

  /** A source that is not on Cloudinary is rendered as given. */
  lemma OtherHostsUnchanged(props: ImageProps)
    requires props.src != "" && !IsCloudinary(props.src)
    ensures Render(props).src == props.src
  {
  }

  /** A fixed-size Cloudinary image without a height is displayed 100 high but
      requested by width alone. */
  lemma FixedWithoutHeight(a: string, b: string, alt: string, width: Option<int>)
    requires IsCloudinary(a + UploadSegment + b)
    requires forall j :: 0 <= j < |a| ==> !OccursAt(a + UploadSegment + b, UploadSegment, j)
    ensures var r := Render(ImageProps(a + UploadSegment + b, alt, width, None, None, None));
      && r.layout == Fixed(OrDefault(width, DefaultSize), DefaultSize)
      && r.src == a + "/upload/q_auto,f_auto,w_" + IntToString(OrDefault(width, DefaultSize)) + "/" + b
      && r.loading == Some(Lazy)
  {
    CloudinaryRewrite(a, b, OrDefault(width, DefaultSize), None);
  }

  /** A fill-mode Cloudinary image without a width asks for 800 pixels. */
  lemma FillDefaultWidth(a: string, b: string, alt: string)
    requires IsCloudinary(a + UploadSegment + b)
    requires forall j :: 0 <= j < |a| ==> !OccursAt(a + UploadSegment + b, UploadSegment, j)
    ensures Render(ImageProps(a + UploadSegment + b, alt, None, None, None, Some(true))).src
      == a + "/upload/q_auto,f_auto,w_800/" + b
  {
    CloudinaryRewrite(a, b, DefaultFillWidth, None);
    DefaultFillWidthText();
    assert Transformation(DefaultFillWidth, None) == "/upload/q_auto,f_auto,w_800/";
  }

  lemma DefaultFillWidthText()
    ensures IntToString(DefaultFillWidth) == "800"
  {
    assert DigitChar(8) == '8' && DigitChar(0) == '0';
    assert NatToString(8) == "8";
    assert NatToString(80) == "80";
  }
}
