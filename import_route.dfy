/**
 * The import endpoint (`action` and its helpers): it checks the request,
 * looks the project up in the remote service, lists its documents, fetches
 * every document's content from blob storage and answers with the project
 * name and the files, or with an error status and message.
 *
 * The remote service is a given function from URL to reply; the base URL
 * the code reads from the environment is a parameter.
 */
module AutopilotImportRoute {
  import opened Outcomes
  import opened JsStrings
  import opened JsValues

  /** What `fetch(url)` settles to: a rejection, or a response with its status, text and parsed JSON. */
  datatype Fetched =
    | NetworkFailure(error: Thrown)
    | Reply(status: nat, text: string, json: Result<Json, Thrown>)

  /** The remote service as seen by the endpoint: the reply to each URL. */
  type Upstream = string -> Fetched

  /** `response.ok`. */
  predicate IsOk(status: nat)
  {
    200 <= status <= 299
  }

  /** One entry of the answer: `name` may be `undefined` when a document has no `file_name`. */
  datatype ProjectFile = ProjectFile(name: JsValue, content: string)

  datatype ImportResponse = ImportResponse(projectName: JsValue, files: seq<ProjectFile>)

  /** The JSON body of an answer. */
  datatype ResponseBody =
    | ErrorBody(error: JsValue)
    | ImportBody(response: ImportResponse)

  datatype HttpResponse = HttpResponse(status: nat, contentType: string, body: ResponseBody)

  /** An answer, or a rejection of the handler itself (for a body that is not JSON, or is `null`). */
  datatype ActionOutcome = Responded(response: HttpResponse) | Rejected(error: Thrown)

  datatype Request = Request(httpMethod: string, body: Result<Json, Thrown>)

  const JsonContentType := "application/json"

  function ProjectsUrl(baseUrl: string, projectHex: string): string
  {
    baseUrl + "/database/get_projects?project_hex=" + projectHex
  }

  function DocumentsUrl(baseUrl: string, projectHex: string): string
  {
    baseUrl + "/database/retrieve_raw_html_files/" + projectHex
  }

  function BlobUrl(baseUrl: string, blobDir: string): string
  {
    baseUrl + "/azure_storage/get_blob/" + blobDir
  }

  function HttpErrorMessage(status: nat): string
  {
    "HTTP error! status: " + Decimal(status)
  }

  const NonEmptyListMessage := "Unexpected response format: Expected a non-empty list"

  /**
   * `fetchJSON`: the parsed body of a successful reply. A reply whose status
   * is outside 200-299 fails with a message naming the status, before its
   * body is looked at.
   */
  function FetchJson(upstream: Upstream, url: string): (r: Result<Json, Thrown>)
    ensures upstream(url).NetworkFailure? ==> r == Failure(upstream(url).error)
    ensures upstream(url).Reply? && !IsOk(upstream(url).status) ==>
      r == Failure(Error(HttpErrorMessage(upstream(url).status)))
    ensures upstream(url).Reply? && IsOk(upstream(url).status) ==> r == upstream(url).json
  {
    match upstream(url)
    case NetworkFailure(e) => Failure(e)
    case Reply(status, _, json) =>
      if !IsOk(status) then Failure(Error(HttpErrorMessage(status))) else json
  }

  /** The status named in a `fetchJSON` failure reads back as the reply's status. */
  lemma HttpErrorNamesStatus(upstream: Upstream, url: string)
    requires upstream(url).Reply? && !IsOk(upstream(url).status)
    ensures var r := FetchJson(upstream, url);
      && r.Failure? && r.error.Error?
      && StartsWith(r.error.message, "HTTP error! status: ")
      && var digits := r.error.message[|"HTTP error! status: "|..];
         IsDigits(digits) && DecimalValue(digits) == upstream(url).status
  {
    var status := upstream(url).status;
    DecimalRoundTrip(status);
    var m := HttpErrorMessage(status);
    assert m[..|"HTTP error! status: "|] == "HTTP error! status: ";
    assert m[|"HTTP error! status: "|..] == Decimal(status);
  }

  /**
   * `handleProjectDetails`: the first record of the project lookup, which
   * must be a non-empty list.
   */
  function HandleProjectDetails(baseUrl: string, upstream: Upstream, projectHex: string): (r: Result<Json, Thrown>)
    ensures var data := FetchJson(upstream, ProjectsUrl(baseUrl, projectHex));
      && (data.Failure? ==> r == Failure(data.error))
      && (data.Success? ==>
            if data.value.JArr? && |data.value.items| > 0
            then r == Success(data.value.items[0])
            else r == Failure(Error(NonEmptyListMessage)))
  {
    var projectData :- FetchJson(upstream, ProjectsUrl(baseUrl, projectHex));
    if !projectData.JArr? || |projectData.items| == 0 then
      Failure(Error(NonEmptyListMessage))
    else
      Success(projectData.items[0])
  }

  /** The blob URL of one document, read from its `blob_dir` (which renders `undefined` when absent). */
  function DocumentBlobUrl(baseUrl: string, document: Json): string
    requires !document.JNull?
  {
    BlobUrl(baseUrl, ToString(Get(document, "blob_dir")))
  }

  /**
   * The `documentList.map` callback: fetch the blob and pair its text with
   * the document's `file_name`. The reply's status is not looked at.
   */
  function FetchDocument(baseUrl: string, upstream: Upstream, document: Json): (r: Result<ProjectFile, Thrown>)
    ensures document.JNull? ==> r == Failure(CannotRead("null", "blob_dir"))
    ensures !document.JNull? ==>
      var reply := upstream(DocumentBlobUrl(baseUrl, document));
      && (reply.NetworkFailure? ==> r == Failure(reply.error))
      && (reply.Reply? ==> r == Success(ProjectFile(Get(document, "file_name"), reply.text)))
  {
    if document.JNull? then Failure(CannotRead("null", "blob_dir"))
    else
      match upstream(DocumentBlobUrl(baseUrl, document))
      case NetworkFailure(e) => Failure(e)
      case Reply(_, text, _) => Success(ProjectFile(Get(document, "file_name"), text))
  }

  /**
   * A blob reply's status never matters: two services that give the same
   * text for a document's blob (whatever their statuses) give the same entry.
   */
  lemma BlobStatusIgnored(baseUrl: string, upstream1: Upstream, upstream2: Upstream, document: Json)
    requires !document.JNull?
    requires upstream1(DocumentBlobUrl(baseUrl, document)).Reply?
    requires upstream2(DocumentBlobUrl(baseUrl, document)).Reply?
    requires upstream1(DocumentBlobUrl(baseUrl, document)).text == upstream2(DocumentBlobUrl(baseUrl, document)).text
    ensures FetchDocument(baseUrl, upstream1, document) == FetchDocument(baseUrl, upstream2, document)
    ensures FetchDocument(baseUrl, upstream1, document).Success?
  {
  }

  /** `documentList.map(...)` on whatever the document listing parsed to. */
  function MapDocuments(baseUrl: string, upstream: Upstream, documentList: Json): Result<seq<ProjectFile>, Thrown>
  {
    match documentList
    case JNull => Failure(CannotRead("null", "map"))
    case JArr(documents) => All(documents, document => FetchDocument(baseUrl, upstream, document))
    case _ => Failure(TypeError("documentList.map is not a function"))
  }

  /**
   * `handleFileRead`: one entry per listed document, in listing order, each
   * named by the document's `file_name` and holding the text fetched from
   * its blob URL; fails when the listing fails or is not a list, or when a
   * document's entry fails.
   */
  function HandleFileRead(baseUrl: string, upstream: Upstream, projectHex: string): (r: Result<seq<ProjectFile>, Thrown>)
    ensures var listing := FetchJson(upstream, DocumentsUrl(baseUrl, projectHex));
      && (listing.Failure? ==> r == Failure(listing.error))
      && (listing.Success? && !listing.value.JArr? ==> r.Failure? && r.error.TypeError?)
      && (listing.Success? && listing.value.JArr? ==>
            var documents := listing.value.items;
            && (r.Success? <==> forall i :: 0 <= i < |documents| ==> FetchDocument(baseUrl, upstream, documents[i]).Success?)
            && (r.Success? ==> |r.value| == |documents|)
            && (r.Success? ==> forall i :: 0 <= i < |documents| ==>
                  r.value[i] == ProjectFile(Get(documents[i], "file_name"),
                                            upstream(DocumentBlobUrl(baseUrl, documents[i])).text))
            && (r.Failure? ==> exists i ::
                  && 0 <= i < |documents|
                  && FetchDocument(baseUrl, upstream, documents[i]) == Failure(r.error)))
  {
    var documentList :- FetchJson(upstream, DocumentsUrl(baseUrl, projectHex));
    MapDocuments(baseUrl, upstream, documentList)
  }

  /**
   * `importProject`: the project lookup first, then the files, then the
   * name read from the project record (reading it from a `null` record throws).
   */
  function ImportProject(baseUrl: string, upstream: Upstream, projectHex: string): (r: Result<ImportResponse, Thrown>)
    ensures HandleProjectDetails(baseUrl, upstream, projectHex).Failure? ==>
      r == Failure(HandleProjectDetails(baseUrl, upstream, projectHex).error)
    ensures r.Success? ==>
      && HandleProjectDetails(baseUrl, upstream, projectHex).Success?
      && HandleFileRead(baseUrl, upstream, projectHex) == Success(r.value.files)
      && var details := HandleProjectDetails(baseUrl, upstream, projectHex).value;
         !details.JNull? && r.value.projectName == Get(details, "project_name")
    ensures HandleProjectDetails(baseUrl, upstream, projectHex).Success? ==>
      var details := HandleProjectDetails(baseUrl, upstream, projectHex).value;
      match HandleFileRead(baseUrl, upstream, projectHex)
      case Failure(e) => r == Failure(e)
      case Success(files) =>
        r == if details.JNull? then Failure(CannotRead("null", "project_name"))
             else Success(ImportResponse(Get(details, "project_name"), files))
  {
    var details :- HandleProjectDetails(baseUrl, upstream, projectHex);
    var files :- HandleFileRead(baseUrl, upstream, projectHex);
    if details.JNull? then Failure(CannotRead("null", "project_name"))
    else Success(ImportResponse(Get(details, "project_name"), files))
  }

  /**
   * When the project lookup fails, nothing else the service would answer
   * matters: the files are never fetched.
   */
  lemma DetailsFailureStopsImport(baseUrl: string, upstream1: Upstream, upstream2: Upstream, projectHex: string)
    requires upstream1(ProjectsUrl(baseUrl, projectHex)) == upstream2(ProjectsUrl(baseUrl, projectHex))
    requires HandleProjectDetails(baseUrl, upstream1, projectHex).Failure?
    ensures ImportProject(baseUrl, upstream1, projectHex) == ImportProject(baseUrl, upstream2, projectHex)
  {
  }

  function Respond(status: nat, body: ResponseBody): ActionOutcome
  {
    Responded(HttpResponse(status, JsonContentType, body))
  }

  const MethodNotAllowed := Respond(405, ErrorBody(Value(JStr("Method Not Allowed"))))
  const MissingProjectHex := Respond(400, ErrorBody(Value(JStr("Missing projectHex parameter"))))

  /**
   * The endpoint: 405 for any method but POST (decided before the body is
   * read), 400 when `projectHex` is missing or falsy, 200 with the project
   * name and files when the import succeeds and 500 with the failure's
   * message when it does not. Every answer is JSON.
   */
  function Action(request: Request, baseUrl: string, upstream: Upstream): (r: ActionOutcome)
    ensures request.httpMethod != "POST" ==> r == MethodNotAllowed
    ensures r.Responded? ==> r.response.contentType == JsonContentType
    ensures r.Responded? ==> r.response.status in {200, 400, 405, 500}
    ensures r.Rejected? ==> request.httpMethod == "POST" && (request.body.Failure? || request.body.value.JNull?)
    ensures request.httpMethod == "POST" && request.body.Failure? ==> r == Rejected(request.body.error)
    ensures request.httpMethod == "POST" && request.body.Success? && request.body.value.JNull? ==>
      r.Rejected? && r.error.TypeError?
    ensures request.httpMethod == "POST" && request.body.Success? && !request.body.value.JNull? ==>
      var projectHex := Get(request.body.value, "projectHex");
      && (!Truthy(projectHex) ==> r == MissingProjectHex)
      && (Truthy(projectHex) ==>
            match ImportProject(baseUrl, upstream, ToString(projectHex))
            case Success(response) => r == Respond(200, ImportBody(response))
            case Failure(e) => r == Respond(500, ErrorBody(MessageOf(e))))
  {
    if request.httpMethod != "POST" then MethodNotAllowed
    else
      match request.body
      case Failure(e) => Rejected(e)
      case Success(body) =>
        if body.JNull? then
          Rejected(TypeError("Cannot destructure property 'projectHex' of '(intermediate value)' as it is null."))
        else
          var projectHex := Get(body, "projectHex");
          if !Truthy(projectHex) then MissingProjectHex
          else
            match ImportProject(baseUrl, upstream, ToString(projectHex))
            case Success(response) => Respond(200, ImportBody(response))
            case Failure(e) => Respond(500, ErrorBody(MessageOf(e)))
  }

  /** A POST whose body has no `projectHex`, such as `{}`, gets 400 whatever the service would say. */
  lemma EmptyBodyIsBadRequest(baseUrl: string, upstream: Upstream)
    ensures Action(Request("POST", Success(JObj(map[]))), baseUrl, upstream) == MissingProjectHex
  {
  }

  /** `JSON.stringify` of an answer, as `response.json()` reads it back: `undefined` members are dropped. */
  function EncodeBody(body: ResponseBody): (data: Json)
    ensures data.JObj?
    ensures body.ErrorBody? ==> data.fields.Keys <= {"error"} && Get(data, "error") == body.error
    ensures body.ImportBody? ==>
      && data.fields.Keys <= {"files", "project_name"}
      && Get(data, "files") == Value(JArr(EncodeFiles(body.response.files)))
      && Get(data, "project_name") == body.response.projectName
  {
    match body
    case ErrorBody(error) => JObj(WithMember(map[], "error", error))
    case ImportBody(ImportResponse(projectName, files)) =>
      JObj(WithMember(map["files" := JArr(EncodeFiles(files))], "project_name", projectName))
  }

  function WithMember(fields: map<string, Json>, key: string, value: JsValue): map<string, Json>
  {
    if value.Value? then fields[key := value.json] else fields
  }

  function EncodeFiles(files: seq<ProjectFile>): (items: seq<Json>)
    ensures |items| == |files|
    ensures forall i :: 0 <= i < |files| ==>
      && items[i].JObj?
      && items[i].fields.Keys <= {"content", "name"}
      && Get(items[i], "content") == Value(JStr(files[i].content))
      && Get(items[i], "name") == files[i].name
  {
    seq(|files|, i requires 0 <= i < |files| =>
      JObj(WithMember(map["content" := JStr(files[i].content)], "name", files[i].name)))
  }
}
