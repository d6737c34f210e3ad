/** Shaping a request body: a JSON body from a field map, a multipart body from
    a file map, or a multipart body holding both. Gson's serialisation and the
    files' bytes are not interpreted. */
module BodyExtensions {
  import opened LinkedMaps
  import opened HttpEnums

  /** A `java.io.File`, reduced to its `name` (the last component of its path). */
  datatype File = File(name: string)

  /** A value of a `Map<String, Any>` body field. */
  datatype Value = Text(s: string) | Int(n: int) | Bool(b: bool) | Object(repr: string)

  function Digit(d: nat): (c: char)
    requires d < 10
    ensures '0' <= c <= '9'
  {
    "0123456789"[d]
  }

  /** The decimal digits of a natural number, most significant first. */
  function NatToString(n: nat): (s: string)
    ensures |s| >= 1
    ensures forall i :: 0 <= i < |s| ==> '0' <= s[i] <= '9'
    ensures n >= 10 ==> s[0] != '0'
    decreases n
  {
    if n < 10 then [Digit(n)] else NatToString(n / 10) + [Digit(n % 10)]
  }

  /** The number a string of decimal digits denotes, most significant first. */
  function DecimalValue(s: string): nat
    requires forall i :: 0 <= i < |s| ==> '0' <= s[i] <= '9'
    decreases |s|
  {
    if s == [] then 0 else DecimalValue(s[..|s| - 1]) * 10 + (s[|s| - 1] as int - '0' as int)
  }

  /** Each digit character stands for its own value. */
  lemma DigitValue(d: nat)
    requires d < 10
    ensures Digit(d) as int - '0' as int == d
  {
    assert "0123456789"[d] as int == '0' as int + d;
  }

  /** The decimal form of `n` reads back as `n`. */
  lemma {:induction false} NatToStringReadsBack(n: nat)
    ensures DecimalValue(NatToString(n)) == n
    decreases n
  {
    var s := NatToString(n);
    if n < 10 {
      DigitValue(n);
      assert s[..0] == [];
    } else {
      NatToStringReadsBack(n / 10);
      DigitValue(n % 10);
      assert s[..|s| - 1] == NatToString(n / 10);
    }
  }

  /** `Any.toString()`: a string is itself, an `Int` its decimal form, a
      `Boolean` `true`/`false`; for any other object the text its own `toString`
      gives. */
  function ValueToString(v: Value): string {
    match v
    case Text(s) => s
    case Int(n) => if n < 0 then "-" + NatToString(-n) else NatToString(n)
    case Bool(b) => if b then "true" else "false"
    case Object(repr) => repr
  }

  /** `gson.toJson(fields)`: the JSON text Gson produces for a field map, kept
      symbolic. */
  datatype JsonText = GsonJson(fields: seq<(string, Value)>)

  /** One part of a multipart body: a plain form field, or a file part named by
      its key with the file's name as its filename. */
  datatype Part = FormField(name: string, value: string) | FormFile(name: string, filename: string)

  /** `MultipartBody.FORM`, the multipart subtype both builders set. */
  const MULTIPART_FORM := "multipart/form-data"

  datatype RequestBody =
    | JsonBody(content: JsonText, mediaType: string)
    | MultipartBody(formType: string, parts: seq<Part>)

  /** `toJsonRequestBody`: the Gson text tagged with the content type's media
      type, whichever content type that is. */
  function ToJsonRequestBody(body: LinkedMap<string, Value>, contentType: ContentType): (r: RequestBody)
    ensures r.JsonBody? && r.mediaType == MediaType(contentType)
    ensures r.content.fields == body
  {
    JsonBody(GsonJson(body), MediaType(contentType))
  }

  /** The JSON payload does not depend on the content type: a FORM or MULTIPART
      content type still carries Gson's JSON text, only the tag differs. */
  lemma JsonPayloadIgnoresContentType(body: LinkedMap<string, Value>, a: ContentType, b: ContentType)
    ensures ToJsonRequestBody(body, a).content == ToJsonRequestBody(body, b).content
    ensures ToJsonRequestBody(body, a) == ToJsonRequestBody(body, b) <==> a == b
  {
  }

  /** One file part per entry of `files`, in the map's order. */
  function FileParts(files: seq<(string, File)>): (r: seq<Part>)
    ensures |r| == |files|
    decreases |files|
  {
    if files == [] then []
    else
      var n := |files| - 1;
      FileParts(files[..n]) + [FormFile(files[n].0, files[n].1.name)]
  }

  /** The `i`-th file part is the file part of the `i`-th entry. */
  lemma {:induction false} FilePartsAt(files: seq<(string, File)>, i: nat)
    requires i < |files|
    ensures FileParts(files)[i] == FormFile(files[i].0, files[i].1.name)
    decreases |files|
  {
    var n := |files| - 1;
    if i < n {
      FilePartsAt(files[..n], i);
    }
  }

  /** One string part per entry of `body`, in the map's order, holding the
      value's `toString()`. */
  function FieldParts(body: seq<(string, Value)>): (r: seq<Part>)
    ensures |r| == |body|
    decreases |body|
  {
    if body == [] then []
    else
      var n := |body| - 1;
      FieldParts(body[..n]) + [FormField(body[n].0, ValueToString(body[n].1))]
  }

  /** The `i`-th field part is the string part of the `i`-th entry. */
  lemma {:induction false} FieldPartsAt(body: seq<(string, Value)>, i: nat)
    requires i < |body|
    ensures FieldParts(body)[i] == FormField(body[i].0, ValueToString(body[i].1))
    decreases |body|
  {
    var n := |body| - 1;
    if i < n {
      FieldPartsAt(body[..n], i);
    }
  }

  /** The parts of the combined body: all scalar fields, then all files. */
  function CombinedParts(files: LinkedMap<string, File>, body: LinkedMap<string, Value>): (r: seq<Part>)
    ensures |r| == |body| + |files|
  {
    FieldParts(body) + FileParts(files)
  }

  /** The combined body holds one string part per field, in order, then one
      file part per file, in order: every string part comes before every file
      part. */
  lemma CombinedPartsLayout(files: LinkedMap<string, File>, body: LinkedMap<string, Value>)
    ensures var r := CombinedParts(files, body);
      && (forall i :: 0 <= i < |body| ==> r[i] == FormField(body[i].0, ValueToString(body[i].1)))
      && (forall j :: 0 <= j < |files| ==> r[|body| + j] == FormFile(files[j].0, files[j].1.name))
      && (forall i, j :: 0 <= i < |r| && 0 <= j < |r| && r[i].FormField? && r[j].FormFile? ==> i < j)
  {
    var r := CombinedParts(files, body);
    forall i | 0 <= i < |body|
      ensures r[i] == FormField(body[i].0, ValueToString(body[i].1))
    {
      FieldPartsAt(body, i);
    }
    forall j | 0 <= j < |files|
      ensures r[|body| + j] == FormFile(files[j].0, files[j].1.name)
    {
      FilePartsAt(files, j);
    }
    forall i | |body| <= i < |r|
      ensures r[i].FormFile?
    {
      FilePartsAt(files, i - |body|);
    }
  }

  /** `toMultipartRequestBody`: a FORM multipart body of the file parts. */
  method ToMultipartRequestBody(files: LinkedMap<string, File>) returns (r: RequestBody)
    ensures r == MultipartBody(MULTIPART_FORM, FileParts(files))
  {
    var parts: seq<Part> := [];
    for i := 0 to |files|
      invariant parts == FileParts(files[..i])
    {
      assert files[..i + 1][..i] == files[..i];
      parts := parts + [FormFile(files[i].0, files[i].1.name)];
    }
    assert files[..|files|] == files;
    r := MultipartBody(MULTIPART_FORM, parts);
  }

  /** `combineFilesAndBody`: a FORM multipart body of the string fields, then
      the file parts. */
  method CombineFilesAndBody(files: LinkedMap<string, File>, body: LinkedMap<string, Value>) returns (r: RequestBody)
    ensures r == MultipartBody(MULTIPART_FORM, CombinedParts(files, body))
  {
    var parts: seq<Part> := [];
    for i := 0 to |body|
      invariant parts == FieldParts(body[..i])
    {
      assert body[..i + 1][..i] == body[..i];
      parts := parts + [FormField(body[i].0, ValueToString(body[i].1))];
    }
    assert body[..|body|] == body;
    ghost var fields := parts;
    for j := 0 to |files|
      invariant parts == fields + FileParts(files[..j])
    {
      assert files[..j + 1][..j] == files[..j];
      parts := parts + [FormFile(files[j].0, files[j].1.name)];
    }
    assert files[..|files|] == files;
    r := MultipartBody(MULTIPART_FORM, parts);
  }
}
