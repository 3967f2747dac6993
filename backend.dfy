/**
 * The Flask back end (backend/app.py): the request guards of the parse and
 * extract endpoints and the replies they produce. The call to the remote
 * parsing service is a parameter: a function from the form that would be
 * posted to the outcome of posting it.
 */
module Backend {
  import opened Wrappers
  import opened JsValues

  /** An uploaded multipart file part. */
  datatype UploadedFile = UploadedFile(filename: string)

  /** A reply body: `{'error': …}` or the remote service's JSON passed through. */
  datatype Body = ErrorBody(message: string) | Passthrough(json: JsValue)

  /** `(jsonify(body), status)`. */
  datatype Reply = Reply(body: Body, status: int)

  /** What posting to the remote service came to. */
  datatype Upstream =
    | Answered(json: JsValue)        // a 2xx response and its JSON body
    | RequestFailed(detail: string)  // a `requests` exception; `detail` is its text
    | OtherFailure(detail: string)   // any other exception; `detail` is its text

  /** The multipart form posted to the parse API. */
  datatype ParseForm = ParseForm(document: UploadedFile, model: string)

  /** The schema form field: a dict is sent as its JSON text, anything else as it is. */
  datatype SchemaField = Serialized(schema: map<string, JsValue>) | AsGiven(value: JsValue)

  /** The multipart form posted to the extract API. */
  datatype ExtractForm = ExtractForm(markdown: string, schema: SchemaField, model: string)

  const ParseModel: string := "dpt-2-latest"
  const ExtractModel: string := "extract-latest"

  /** `str.lower()` on ASCII letters. */
  function LowerChar(c: char): char {
    if 'A' <= c <= 'Z' then (c as int + 32) as char else c
  }

  function Lower(s: string): (r: string)
    ensures |r| == |s| && forall i :: 0 <= i < |s| ==> r[i] == LowerChar(s[i])
    decreases |s|
  {
    if s == [] then [] else [LowerChar(s[0])] + Lower(s[1..])
  }

  predicate EndsWith(s: string, suffix: string) {
    |suffix| <= |s| && s[|s| - |suffix|..] == suffix
  }

  /** The file-name test: lower-cased, it ends in `.pdf`. */
  predicate IsPdfName(filename: string) {
    EndsWith(Lower(filename), ".pdf")
  }

  /**
   * The upload guards of `parse_pdf`, in order: a `file` part, a non-empty
   * file name, a `.pdf` suffix in any case. The first that fails decides.
   */
  function CheckUpload(files: map<string, UploadedFile>): (r: Result<UploadedFile, string>)
    ensures r.Ok? <==> "file" in files && files["file"].filename != "" && IsPdfName(files["file"].filename)
    ensures r.Ok? ==> r.value == files["file"]
    ensures "file" !in files ==> r == Err("No file provided")
    ensures "file" in files && files["file"].filename == "" ==> r == Err("Empty filename")
    ensures "file" in files && files["file"].filename != "" && !IsPdfName(files["file"].filename) ==>
      r == Err("File must be a PDF")
  {
    if "file" !in files then Err("No file provided")
    else if files["file"].filename == "" then Err("Empty filename")
    else if !IsPdfName(files["file"].filename) then Err("File must be a PDF")
    else Ok(files["file"])
  }

  /** The reply to a call of the remote service: its JSON, or a 500 naming the failure. */
  function UpstreamReply(u: Upstream): (r: Reply)
    ensures r.status == 200 <==> u.Answered?
    ensures u.Answered? ==> r.body == Passthrough(u.json)
    ensures u.RequestFailed? ==> r == Reply(ErrorBody("Landing AI API error: " + u.detail), 500)
    ensures u.OtherFailure? ==> r == Reply(ErrorBody("Server error: " + u.detail), 500)
  {
    match u
    case Answered(json) => Reply(Passthrough(json), 200)
    case RequestFailed(detail) => Reply(ErrorBody("Landing AI API error: " + detail), 500)
    case OtherFailure(detail) => Reply(ErrorBody("Server error: " + detail), 500)
  }

  /** `parse_pdf`: the guards, then the remote parse of the file. */
  function ParsePdf(files: map<string, UploadedFile>, upstream: ParseForm -> Upstream): (r: Reply)
    ensures r.status == 400 <==> CheckUpload(files).Err?
    ensures r.status in {200, 400, 500}
  {
    match CheckUpload(files)
    case Err(message) => Reply(ErrorBody(message), 400)
    case Ok(file) => UpstreamReply(upstream(ParseForm(file, ParseModel)))
  }

  /** A rejected upload never reaches the remote service: the reply does not depend on it. */
  lemma RejectedUploadSkipsUpstream(files: map<string, UploadedFile>, u1: ParseForm -> Upstream, u2: ParseForm -> Upstream)
    requires CheckUpload(files).Err?
    ensures ParsePdf(files, u1) == ParsePdf(files, u2) == Reply(ErrorBody(CheckUpload(files).error), 400)
  {
  }

  /** An accepted upload is forwarded as it came, with the parse model. */
  lemma AcceptedUploadIsForwarded(files: map<string, UploadedFile>, upstream: ParseForm -> Upstream)
    requires CheckUpload(files).Ok?
    ensures ParsePdf(files, upstream) == UpstreamReply(upstream(ParseForm(files["file"], "dpt-2-latest")))
  {
  }

  /** The suffix test ignores case: `X.PDF` passes, `X.txt` does not. */
  lemma PdfSuffixIgnoresCase(upper: string, other: string)
    requires upper == "X.PDF" && other == "X.txt"
    ensures IsPdfName(upper) && !IsPdfName(other)
  {
    assert Lower(upper)[1..] == ".pdf";
    assert Lower(other)[1] == '.' && Lower(other)[2] == 't';
  }

  /** The Python type name in the error that `.encode` on a non-string raises. */
  function PyTypeName(v: JsValue): (name: string)
    ensures name == "str" <==> v.Str?
    ensures name == "dict" <==> v.Obj?
    ensures name == "NoneType" <==> v.Undefined? || v.Null?
  {
    match v
    case Undefined => "NoneType"
    case Null => "NoneType"
    case Bool(_) => "bool"
    case Num(_) => "int"
    case Str(_) => "str"
    case Obj(_) => "dict"
  }

  /** `json.dumps(schema) if isinstance(schema, dict) else schema`. */
  function SchemaFormValue(schema: JsValue): (f: SchemaField)
    ensures f.Serialized? <==> schema.Obj?
    ensures f.AsGiven? ==> f.value == schema
    ensures f.Serialized? ==> Obj(f.schema) == schema
  {
    if schema.Obj? then Serialized(schema.props) else AsGiven(schema)
  }

  /** The extract body's guard: present, non-empty, with both `markdown` and `schema`. */
  predicate HasExtractFields(body: Option<map<string, JsValue>>) {
    body.Some? && |body.value| > 0 && "markdown" in body.value && "schema" in body.value
  }

  /**
   * `extract_data`: the body guard, then the markdown's UTF-8 encoding
   * (which fails on a non-string), then the remote extraction.
   */
  function ExtractData(body: Option<map<string, JsValue>>, upstream: ExtractForm -> Upstream): (r: Reply)
    ensures r.status == 400 <==> !HasExtractFields(body)
    ensures !HasExtractFields(body) ==> r == Reply(ErrorBody("Missing required fields: markdown and schema"), 400)
    ensures r.status in {200, 400, 500}
  {
    if !HasExtractFields(body) then Reply(ErrorBody("Missing required fields: markdown and schema"), 400)
    else
      var markdown := body.value["markdown"];
      if !markdown.Str? then
        Reply(ErrorBody("Server error: '" + PyTypeName(markdown) + "' object has no attribute 'encode'"), 500)
      else
        UpstreamReply(upstream(ExtractForm(markdown.s, SchemaFormValue(body.value["schema"]), ExtractModel)))
  }

  /** A body without both fields never reaches the remote service. */
  lemma MissingFieldsSkipUpstream(body: Option<map<string, JsValue>>, u1: ExtractForm -> Upstream, u2: ExtractForm -> Upstream)
    requires !HasExtractFields(body)
    ensures ExtractData(body, u1) == ExtractData(body, u2)
  {
  }

  /** Markdown that is not a string fails with a 500 before any remote call. */
  lemma NonStringMarkdownFails(body: Option<map<string, JsValue>>, upstream: ExtractForm -> Upstream)
    requires HasExtractFields(body) && !body.value["markdown"].Str?
    ensures ExtractData(body, upstream).status == 500
    ensures ExtractData(body, upstream).body.ErrorBody?
  {
  }

  /**
   * A body with both fields and string markdown is forwarded: the markdown,
   * the schema (serialised when it is a dict) and the extraction model.
   */
  lemma ExtractRequestIsForwarded(body: Option<map<string, JsValue>>, upstream: ExtractForm -> Upstream)
    requires HasExtractFields(body) && body.value["markdown"].Str?
    ensures ExtractData(body, upstream) ==
      UpstreamReply(upstream(ExtractForm(body.value["markdown"].s, SchemaFormValue(body.value["schema"]), "extract-latest")))
  {
  }

  /** A remote `requests` failure during extraction is a 500 prefixed `Landing AI API error: `. */
  lemma ExtractRequestFailureReply(body: Option<map<string, JsValue>>, upstream: ExtractForm -> Upstream, detail: string)
    requires HasExtractFields(body) && body.value["markdown"].Str?
    requires upstream(ExtractForm(body.value["markdown"].s, SchemaFormValue(body.value["schema"]), ExtractModel)) ==
      RequestFailed(detail)
    ensures ExtractData(body, upstream) == Reply(ErrorBody("Landing AI API error: " + detail), 500)
  {
  }

  /** A remote `requests` failure during parsing is a 500 prefixed `Landing AI API error: `. */
  lemma RequestFailureReply(files: map<string, UploadedFile>, upstream: ParseForm -> Upstream, detail: string)
    requires CheckUpload(files).Ok?
    requires upstream(ParseForm(files["file"], ParseModel)) == RequestFailed(detail)
    ensures ParsePdf(files, upstream) == Reply(ErrorBody("Landing AI API error: " + detail), 500)
  {
  }
}
