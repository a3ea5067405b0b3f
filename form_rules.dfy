/** What the client's zod schemas share: the issue list a failed parse gives,
    the length rules, and the image type rule. */
module FormRules {
  import opened Common

  /** An issue is attached to one field of the form (`F` lists the fields); its
      message is the schema's own text, or the library's default one for a
      value that is not a number. */
  datatype IssueKind = Custom(message: string) | NotANumber
  datatype Issue<F> = Issue(path: F, kind: IssueKind)

  /** The fields some issue is about. */
  function IssuePaths<F(!new)>(issues: seq<Issue<F>>): (r: set<F>)
    ensures r == {} <==> issues == []
  {
    if issues == [] then {}
    else
      assert issues[0].path in {issues[0].path} + IssuePaths(issues[1..]);
      {issues[0].path} + IssuePaths(issues[1..])
  }

  /** A field is among the paths exactly when some issue is about it. */
  lemma {:induction false} IssuePathsMembers<F(!new)>(issues: seq<Issue<F>>, p: F)
    ensures p in IssuePaths(issues) <==> exists i :: 0 <= i < |issues| && issues[i].path == p
  {
    if issues != [] {
      IssuePathsMembers(issues[1..], p);
      assert forall i :: 1 <= i < |issues| ==> issues[1..][i - 1] == issues[i];
    }
  }

  /** The paths of a concatenation are those of either part. */
  lemma {:induction false} IssuePathsConcat<F(!new)>(a: seq<Issue<F>>, b: seq<Issue<F>>)
    ensures IssuePaths(a + b) == IssuePaths(a) + IssuePaths(b)
  {
    if a == [] {
      assert a + b == b;
    } else {
      assert (a + b)[1..] == a[1..] + b;
      IssuePathsConcat(a[1..], b);
    }
  }

  const NameMinLength: nat := 3
  const AddressMinLength: nat := 5
  const NameMessage: string := "El nombre debe tener al menos 3 caracteres."
  const AddressMessage: string := "La dirección debe tener al menos 5 caracteres."
  const ImageTypeMessage: string := "Solo se aceptan formatos .jpg, .jpeg, .png y .webp."
  const AcceptedImageTypes: seq<string> := ["image/jpeg", "image/jpg", "image/png", "image/webp"]

  /** A chosen file, by its MIME type. */
  datatype FileRef = FileRef(mimeType: string)

  /** `{f}` when the rule on `f` fails, else nothing. */
  function Flag<F>(fails: bool, f: F): set<F> {
    if fails then {f} else {}
  }

  /** `z.string().min(n, message)` on one field. */
  function MinLengthIssues<F(!new)>(path: F, value: string, n: nat, message: string): (r: seq<Issue<F>>)
    ensures IssuePaths(r) == Flag(|value| < n, path)
  {
    if |value| < n then [Issue(path, Custom(message))] else []
  }

  /** The optional image: absent, or of an accepted type. */
  function FileIssues<F(!new)>(path: F, file: Option<FileRef>): (r: seq<Issue<F>>)
    ensures IssuePaths(r) == Flag(file.Some? && file.value.mimeType !in AcceptedImageTypes, path)
  {
    if file.Some? && file.value.mimeType !in AcceptedImageTypes then [Issue(path, Custom(ImageTypeMessage))] else []
  }
}
