/**
 * The single-file extraction page (frontend/app/page.tsx) as an object
 * whose fields are the component's state. The two network calls are
 * abstracted: each handler receives the outcome of the call it would make.
 */
module Page {
  import opened Wrappers
  import opened JsValues
  import opened Fields
  import opened Schema

  /** A file chosen in the upload input: its name and MIME type. */
  datatype File = File(name: string, mimeType: string)

  /** Something thrown: an `Error` with its message, or any other value. */
  datatype Thrown = ErrorObject(message: string) | OtherThrown

  /** The outcome of `await fetch(...)` followed by `await response.json()`. */
  datatype FetchOutcome<T> =
    | NotOk                   // the response arrived with `ok` false
    | Rejected(thrown: Thrown) // fetch or the body read threw
    | Received(body: T)        // `ok` and the JSON body

  /** A parse response body and its `JSON.stringify` text. */
  datatype ParseBody = ParseBody(json: map<string, JsValue>, serialized: string)

  /** The JSON body sent to the extraction endpoint. */
  datatype ExtractRequest = ExtractRequest(markdown: JsValue, schema: JsonSchema)

  /** `err instanceof Error ? err.message : 'An error occurred'`. */
  function Message(t: Thrown): (m: string)
    ensures t.ErrorObject? ==> m == t.message
    ensures t.OtherThrown? ==> m == "An error occurred"
  {
    match t
    case ErrorObject(m) => m
    case OtherThrown => "An error occurred"
  }

  /** The page's initial field list. */
  const InitialFields: seq<FieldDefinition> := [
    FieldDefinition("invoice_number", "Invoice or receipt number", "string"),
    FieldDefinition("date", "Transaction date", "string"),
    FieldDefinition("total", "Total amount", "number")
  ]

  class Home {
    var pdfFile: Option<File>
    var pdfUrl: Option<string>
    var parsedText: JsValue
    var fields: seq<FieldDefinition>
    var extractedData: JsValue
    var loading: bool
    var error: string
    var isConfigOpen: bool

    constructor ()
      ensures pdfFile == None && pdfUrl == None && parsedText == Str("")
      ensures fields == InitialFields && extractedData == Obj(map[])
      ensures !loading && error == "" && !isConfigOpen
    {
      pdfFile := None;
      pdfUrl := None;
      parsedText := Str("");
      fields := InitialFields;
      extractedData := Obj(map[]);
      loading := false;
      error := "";
      isConfigOpen := false;
    }

    /** The parse button's `disabled={!pdfFile || loading}`. */
    predicate ParseDisabled(): (disabled: bool)
      reads this
      ensures !disabled ==> pdfFile.Some? && !loading
      ensures loading ==> disabled
    {
      pdfFile.None? || loading
    }

    /**
     * `handleFileSelect`: the first chosen file is accepted only when its
     * type is `application/pdf`; `objectUrl` stands for the URL the browser
     * creates for it.
     */
    method HandleFileSelect(file: Option<File>, objectUrl: string) returns (accepted: bool)
      modifies this
      ensures accepted <==> file.Some? && file.value.mimeType == "application/pdf"
      ensures accepted ==>
        pdfFile == file && pdfUrl == Some(objectUrl) && error == "" &&
        extractedData == Obj(map[]) && parsedText == Str("")
      ensures !accepted ==>
        error == "Please select a valid PDF file" && pdfFile == old(pdfFile) && pdfUrl == old(pdfUrl) &&
        extractedData == old(extractedData) && parsedText == old(parsedText)
      ensures fields == old(fields) && loading == old(loading) && isConfigOpen == old(isConfigOpen)
      // an accepted file enables the parse button unless a parse is under way
      ensures accepted ==> ParseDisabled() == old(loading)
      ensures !accepted ==> ParseDisabled() == old(ParseDisabled())
    {
      accepted := file.Some? && file.value.mimeType == "application/pdf";
      if accepted {
        pdfFile := file;
        pdfUrl := Some(objectUrl);
        error := "";
        extractedData := Obj(map[]);
        parsedText := Str("");
      } else {
        error := "Please select a valid PDF file";
      }
    }

    /**
     * `handleParse`, run to completion: parse the file, keep the text,
     * build the schema from the current fields, extract, keep the data.
     * `parse` and `extract` are the outcomes of the two calls; `sent` is the
     * extraction request, when one is made.
     */
    method HandleParse(parse: FetchOutcome<ParseBody>, extract: FetchOutcome<map<string, JsValue>>)
      returns (sent: Option<ExtractRequest>)
      modifies this
      ensures pdfFile == old(pdfFile) && pdfUrl == old(pdfUrl) && fields == old(fields)
      ensures isConfigOpen == old(isConfigOpen)
      // no file: only the error changes
      ensures old(pdfFile).None? ==>
        error == "Please select a PDF file first" && sent == None && loading == old(loading) &&
        parsedText == old(parsedText) && extractedData == old(extractedData)
      ensures old(pdfFile).Some? ==> !loading && !ParseDisabled()
      // the parse call failed: nothing is parsed or extracted
      ensures old(pdfFile).Some? && !parse.Received? ==>
        sent == None && parsedText == old(parsedText) && extractedData == old(extractedData) &&
        error == (if parse.NotOk? then "Failed to parse PDF" else Message(parse.thrown))
      // the parse call succeeded: the text is kept whatever extraction does
      ensures old(pdfFile).Some? && parse.Received? ==>
        parsedText == ParsedText(parse.body.json, parse.body.serialized) &&
        sent == Some(ExtractRequest(parsedText, BuildSchema(old(fields))))
      ensures old(pdfFile).Some? && parse.Received? && !extract.Received? ==>
        extractedData == old(extractedData) &&
        error == (if extract.NotOk? then "Failed to extract data" else Message(extract.thrown))
      ensures old(pdfFile).Some? && parse.Received? && extract.Received? ==>
        extractedData == ExtractedData(extract.body) && error == ""
    {
      if pdfFile.None? {
        error := "Please select a PDF file first";
        return None;
      }
      loading := true;
      error := "";
      sent := None;
      match parse {
        case NotOk =>
          error := "Failed to parse PDF";
        case Rejected(t) =>
          error := Message(t);
        case Received(body) =>
          var text := ParsedText(body.json, body.serialized);
          parsedText := text;
          sent := Some(ExtractRequest(text, BuildSchema(fields)));
          match extract {
            case NotOk =>
              error := "Failed to extract data";
            case Rejected(t) =>
              error := Message(t);
            case Received(response) =>
              extractedData := ExtractedData(response);
          }
      }
      loading := false;
    }

    /** The field list as the field-configuration panel sets it. */
    method SetFields(newFields: seq<FieldDefinition>)
      modifies this
      ensures fields == newFields
      ensures pdfFile == old(pdfFile) && pdfUrl == old(pdfUrl) && parsedText == old(parsedText)
      ensures extractedData == old(extractedData) && loading == old(loading) && error == old(error)
      ensures isConfigOpen == old(isConfigOpen)
    {
      fields := newFields;
    }

    /** The extracted values as the results editor sets them. */
    method SetExtractedData(data: JsValue)
      modifies this
      ensures extractedData == data
      ensures pdfFile == old(pdfFile) && pdfUrl == old(pdfUrl) && parsedText == old(parsedText)
      ensures fields == old(fields) && loading == old(loading) && error == old(error)
      ensures isConfigOpen == old(isConfigOpen)
    {
      extractedData := data;
    }
  }

  /**
   * Selecting a PDF and then parsing it with both calls succeeding leaves
   * the page idle, error-free, showing the extracted values.
   */
  method SelectThenParse(file: File, url: string, body: ParseBody, response: map<string, JsValue>)
    returns (page: Home)
    requires file.mimeType == "application/pdf"
    ensures !page.loading && page.error == "" && page.pdfFile == Some(file)
    ensures page.parsedText == ParsedText(body.json, body.serialized)
    ensures page.extractedData == ExtractedData(response)
    ensures Truthy(page.extractedData)
  {
    page := new Home();
    var accepted := page.HandleFileSelect(Some(file), url);
    assert !page.ParseDisabled();
    var sent := page.HandleParse(Received(body), Received(response));
  }
}
