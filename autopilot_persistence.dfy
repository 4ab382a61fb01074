/**
 * `importAutopilotProject`: posts the project id to the import endpoint,
 * turns the returned files into `File`s, reuses the folder assembler with
 * no binary files, and wraps the messages in a chat history item whose id
 * and url id are the project id.
 *
 * The answer of the endpoint (after `fetch` and `response.json()`) and the
 * current time are parameters; the answer's status is never looked at.
 */
module AutopilotPersistence {
  import opened Outcomes
  import opened JsStrings
  import opened JsValues
  import opened FolderImport
  import opened ArtifactDecode
  import AutopilotImportRoute

  /** The importable session; `description` is whatever `project_name` held. */
  datatype ChatHistoryItem = ChatHistoryItem(
    id: string,
    urlId: string,
    description: JsValue,
    messages: seq<Message>,
    timestamp: string)

  const ByteOrderMark: char := '\U{FEFF}'

  /**
   * The text a `FileReader` gives back for a `File` made from the string
   * `s`: UTF-8 decoding drops a leading byte order mark.
   */
  function DecodedText(s: string): (t: string)
    ensures s == t || s == [ByteOrderMark] + t
    ensures t == s <==> !StartsWith(s, [ByteOrderMark])
  {
    if |s| > 0 && s[0] == ByteOrderMark then s[1..] else s
  }

  /** What destructuring `{ name, content }` from a `null` entry throws. */
  const NullEntry := TypeError("Cannot destructure property 'name' of 'object null' as it is null.")

  /**
   * The `filesArray.map` callback: destructure `{ name, content }` and build
   * a `File` with that name from a text blob of that content. Such a `File`
   * has an empty `webkitRelativePath` and always reads successfully.
   */
  function ToFile(entry: Json): (r: Result<File, Thrown>)
    ensures entry.JNull? <==> r.Failure?
    ensures r.Failure? ==> r.error == NullEntry
    ensures r.Success? ==>
      r.value == File(ToString(Get(entry, "name")), "", Some(DecodedText(ToString(Get(entry, "content")))))
  {
    if entry.JNull? then
      Failure(NullEntry)
    else
      Success(File(ToString(Get(entry, "name")), "", Some(DecodedText(ToString(Get(entry, "content"))))))
  }

  /**
   * `data.files` mapped to `File`s: one per entry, in the same order. A
   * `null` answer, an answer without `files`, a `null` or non-list `files`
   * and a `null` entry each make the import throw.
   */
  function FilesFromResponse(data: Json): (r: Result<seq<File>, Thrown>)
    ensures r.Success? ==> data.JObj? && "files" in data.fields && data.fields["files"].JArr?
    ensures r.Success? ==>
      var entries := data.fields["files"].items;
      && |r.value| == |entries|
      && forall i :: 0 <= i < |entries| ==> ToFile(entries[i]) == Success(r.value[i])
    ensures data.JNull? ==> r == Failure(CannotRead("null", "files"))
    ensures !data.JNull? && !(data.JObj? && "files" in data.fields) ==> r == Failure(CannotRead("undefined", "map"))
    ensures data.JObj? && "files" in data.fields ==>
      match data.fields["files"]
      case JNull => r == Failure(CannotRead("null", "map"))
      case JArr(entries) =>
        && (r.Success? <==> forall i :: 0 <= i < |entries| ==> !entries[i].JNull?)
        && (r.Failure? ==> r.error == NullEntry)
      case _ => r == Failure(TypeError("filesArray.map is not a function"))
  {
    if data.JNull? then Failure(CannotRead("null", "files"))
    else
      match Get(data, "files")
      case Undefined => Failure(CannotRead("undefined", "map"))
      case Value(JNull) => Failure(CannotRead("null", "map"))
      case Value(JArr(entries)) => All(entries, ToFile)
      case Value(_) => Failure(TypeError("filesArray.map is not a function"))
  }

  /**
   * `importAutopilotProject` given what `fetch` and `response.json()`
   * settled to: any failure along the way is rethrown unchanged; on success
   * the item is keyed by the project id and describes the project name.
   */
  function ImportAutopilotProject(projectHex: string, response: Result<Json, Thrown>,
                                  collaborators: Collaborators, generated: Generated, now: string): (r: Result<ChatHistoryItem, Thrown>)
    ensures response.Failure? ==> r == Failure(response.error)
    ensures response.Success? && FilesFromResponse(response.value).Failure? ==>
      r == Failure(FilesFromResponse(response.value).error)
    ensures r.Success? <==> response.Success? && FilesFromResponse(response.value).Success?
    ensures r.Success? ==>
      && r.value.id == projectHex
      && r.value.urlId == projectHex
      && r.value.description == Get(response.value, "project_name")
      && r.value.timestamp == now
  {
    var data :- response;
    var files :- FilesFromResponse(data);
    var projectName := Get(data, "project_name");
    match ChatFromFolder(files, [], ToString(projectName), collaborators, generated)
    case Failure(e) => Failure(e)
    case Success(messages) => Success(ChatHistoryItem(projectHex, projectHex, projectName, messages, now))
  }

  /** A `File` built from a name gets exactly that name as its path in the artifact. */
  lemma BuiltFilePathIsName(name: string, text: Option<string>)
    ensures ArtifactPath(File(name, "", text)) == name
  {
  }

  /**
   * A successful remote import holds exactly what the folder assembler
   * gives for the built files, no binary files and the project name: two
   * messages, or four with a commands message, and a files message with no
   * binary summary between its opening sentence and the artifact.
   */
  lemma RemoteImportMessages(projectHex: string, data: Json,
                             collaborators: Collaborators, generated: Generated, now: string)
    requires FilesFromResponse(data).Success?
    ensures var r := ImportAutopilotProject(projectHex, Success(data), collaborators, generated, now);
      var files := FilesFromResponse(data).value;
      var projectName := ToString(Get(data, "project_name"));
      && r.Success?
      && r.value.messages == ChatFromFolder(files, [], projectName, collaborators, generated).value
      && |r.value.messages| in {2, 4}
      && r.value.messages[0].content == ImportRequestText(projectName)
      && r.value.messages[1].content ==
           ImportedText(projectName) + "\n\n" + ArtifactText(EscapedBlocks(ReadAll(files).value, collaborators.escapeBoltTags))
  {
    var files := FilesFromResponse(data).value;
    var entries := data.fields["files"].items;
    forall i | 0 <= i < |files| ensures files[i].readResult.Some? {
      assert ToFile(entries[i]) == Success(files[i]);
    }
    assert BinaryFilesMessage([]) == "";
  }

  /**
   * The endpoint's error answer (which has no `files`) makes the remote
   * import throw instead of producing an item.
   */
  lemma ErrorAnswerThrows(projectHex: string, error: JsValue,
                          collaborators: Collaborators, generated: Generated, now: string)
    ensures var data := AutopilotImportRoute.EncodeBody(AutopilotImportRoute.ErrorBody(error));
      ImportAutopilotProject(projectHex, Success(data), collaborators, generated, now) ==
        Failure(CannotRead("undefined", "map"))
  {
    var data := AutopilotImportRoute.EncodeBody(AutopilotImportRoute.ErrorBody(error));
    assert "files" !in data.fields;
  }

  /** The files the client builds from the endpoint's success answer: one per answered file, in order. */
  lemma FilesOfSuccessAnswer(answer: AutopilotImportRoute.ImportResponse)
    ensures var data := AutopilotImportRoute.EncodeBody(AutopilotImportRoute.ImportBody(answer));
      && data.JObj?
      && Get(data, "project_name") == answer.projectName
      && FilesFromResponse(data) ==
           Success(seq(|answer.files|, i requires 0 <= i < |answer.files| =>
                     File(ToString(answer.files[i].name), "", Some(DecodedText(answer.files[i].content)))))
  {
    var data := AutopilotImportRoute.EncodeBody(AutopilotImportRoute.ImportBody(answer));
    var entries := AutopilotImportRoute.EncodeFiles(answer.files);
    assert data.fields["files"] == JArr(entries);
    var expected := seq(|answer.files|, i requires 0 <= i < |answer.files| =>
                      File(ToString(answer.files[i].name), "", Some(DecodedText(answer.files[i].content))));
    forall i | 0 <= i < |entries| ensures ToFile(entries[i]) == Success(expected[i]) {
      assert Get(entries[i], "name") == answer.files[i].name;
      assert Get(entries[i], "content") == Value(JStr(answer.files[i].content));
    }
    var r := FilesFromResponse(data);
    assert r.Success?;
    assert r.value == expected;
  }

  /**
   * End to end: for the endpoint's success answer, the item describes the
   * answer's project name, and its files message reads back as one block
   * per answered file, in the answer's order, under the file's name with
   * its (decoded, escaped) content.
   */
  lemma SuccessAnswerCarriesEveryFile(projectHex: string, answer: AutopilotImportRoute.ImportResponse,
                                      collaborators: Collaborators, generated: Generated, now: string)
    requires forall i :: 0 <= i < |answer.files| ==>
      Delimited(Block(ToString(answer.files[i].name),
                      collaborators.escapeBoltTags(DecodedText(answer.files[i].content))))
    ensures var data := AutopilotImportRoute.EncodeBody(AutopilotImportRoute.ImportBody(answer));
      var r := ImportAutopilotProject(projectHex, Success(data), collaborators, generated, now);
      var prefix := ImportedText(ToString(answer.projectName)) + "\n\n";
      && r.Success?
      && r.value.description == answer.projectName
      && StartsWith(r.value.messages[1].content, prefix)
      && ParseArtifact(r.value.messages[1].content[|prefix|..]) ==
           Some(seq(|answer.files|, i requires 0 <= i < |answer.files| =>
                  Block(ToString(answer.files[i].name),
                        collaborators.escapeBoltTags(DecodedText(answer.files[i].content)))))
  {
    var data := AutopilotImportRoute.EncodeBody(AutopilotImportRoute.ImportBody(answer));
    FilesOfSuccessAnswer(answer);
    var files := FilesFromResponse(data).value;
    var projectName := ToString(answer.projectName);
    var blocks := seq(|answer.files|, i requires 0 <= i < |answer.files| =>
                    Block(ToString(answer.files[i].name),
                          collaborators.escapeBoltTags(DecodedText(answer.files[i].content))));
    var fileBlocks := seq(|files|, i requires 0 <= i < |files| =>
                        Block(ArtifactPath(files[i]), collaborators.escapeBoltTags(files[i].readResult.value)));
    forall i | 0 <= i < |files| ensures fileBlocks[i] == blocks[i] {
      BuiltFilePathIsName(ToString(answer.files[i].name), files[i].readResult);
    }
    assert fileBlocks == blocks;
    FilesMessageCarriesEveryFile(files, [], projectName, collaborators, generated);
    RemoteImportMessages(projectHex, data, collaborators, generated, now);
    var r := ImportAutopilotProject(projectHex, Success(data), collaborators, generated, now);
    assert r.value.messages[1] == ChatFromFolder(files, [], projectName, collaborators, generated).value[1];
  }

  /**
   * The whole remote path for a project id: the endpoint answers 200 or
   * 500, and the client turns a 200 answer into an item keyed by the id
   * and a 500 answer into a thrown error.
   */
  lemma RemoteImportEndToEnd(projectHex: string, baseUrl: string, upstream: AutopilotImportRoute.Upstream,
                             collaborators: Collaborators, generated: Generated, now: string)
    requires projectHex != ""
    ensures var outcome := AutopilotImportRoute.Action(
        AutopilotImportRoute.Request("POST", Success(JObj(map["projectHex" := JStr(projectHex)]))), baseUrl, upstream);
      var imported := AutopilotImportRoute.ImportProject(baseUrl, upstream, projectHex);
      && outcome.Responded?
      && outcome.response.status == (if imported.Success? then 200 else 500)
      && var r := ImportAutopilotProject(projectHex, Success(AutopilotImportRoute.EncodeBody(outcome.response.body)),
                                          collaborators, generated, now);
         && (imported.Success? ==> r.Success? && r.value.id == projectHex && r.value.description == imported.value.projectName)
         && (imported.Failure? ==> r.Failure?)
  {
  }
}
