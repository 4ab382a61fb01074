/**
 * `createChatFromFolder`: reads the picked files as text, derives each
 * file's path inside the project, and assembles the replayable history:
 * the user's import request, the assistant message carrying every file
 * in one `boltArtifact`, and, when the project has start commands, a
 * request to start it followed by the commands message.
 */
module FolderImport {
  import opened Outcomes
  import opened JsStrings
  import opened JsValues

  /** Milliseconds since the epoch, as a `Date` holds them. */
  type Timestamp = nat

  datatype Role = User | Assistant

  /** A chat message; `createdAt` is absent on the "Start the application" request. */
  datatype Message = Message(role: Role, id: string, content: string, createdAt: Option<Timestamp>)

  /**
   * A picked `File` together with the outcome of reading it with a
   * `FileReader`: `Some(text)` when its load event fired, `None` when its
   * error event fired.
   */
  datatype File = File(name: string, webkitRelativePath: string, readResult: Option<string>)

  /** A file after reading: its text and its path inside the project. */
  datatype FileArtifact = FileArtifact(content: string, path: string)

  /**
   * The collaborators whose code is not part of this model:
   * `escapeBoltTags`, and `createCommandsMessage(detectProjectCommands(files))`,
   * which gives the commands message or nothing.
   */
  datatype Collaborators = Collaborators(
    escapeBoltTags: string -> string,
    commandsMessage: seq<FileArtifact> -> Option<Message>)

  /** The values of the three `generateId()` calls and the two `new Date()` calls. */
  datatype Generated = Generated(
    filesMessageId: string,
    userMessageId: string,
    startMessageId: string,
    filesCreatedAt: Timestamp,
    userCreatedAt: Timestamp)

  /** `webkitRelativePath.split('/').slice(1).join('/')`. */
  function RelativePath(webkitRelativePath: string): string
  {
    Join(Split(webkitRelativePath, '/')[1..], "/")
  }

  /** Everything after the first `c` in `s`, or `""` when `s` has no `c`. */
  function AfterFirst(s: string, c: char): string
  {
    if s == [] then [] else if s[0] == c then s[1..] else AfterFirst(s[1..], c)
  }

  lemma {:induction false} AfterFirstAtIndex(s: string, c: char)
    ensures var i := IndexOf(s, [c]); AfterFirst(s, c) == if i < 0 then "" else s[i + 1..]
  {
    var i := IndexOf(s, [c]);
    OccursAtChar(s, c, 0);
    if s != [] && s[0] != c {
      AfterFirstAtIndex(s[1..], c);
      OccursAtChar(s[1..], c, i - 1);
      forall j | j >= 0 ensures OccursAt(s, [c], j + 1) <==> OccursAt(s[1..], [c], j) {
        OccursAtShift(s, [c], j);
      }
      var k := IndexOf(s[1..], [c]);
      if k >= 0 {
        assert OccursAt(s, [c], k + 1);
      }
      if i >= 1 {
        assert OccursAt(s[1..], [c], i - 1);
      }
    }
  }

  /**
   * Dropping the first `/`-separated segment and re-joining the rest with
   * `/` leaves exactly the text after the first `/` (nothing when there is
   * no `/`).
   */
  lemma {:induction false} RelativePathIsAfterFirstSlash(webkitRelativePath: string)
    ensures RelativePath(webkitRelativePath) == AfterFirst(webkitRelativePath, '/')
  {
    var w := webkitRelativePath;
    var i := IndexOf(w, "/");
    AfterFirstAtIndex(w, '/');
    if i >= 0 {
      assert Split(w, '/')[1..] == Split(w[i + 1..], '/');
    }
  }

  /**
   * The path a file is embedded under: its relative path with the picked
   * root directory removed, or its bare name when that leaves nothing.
   */
  function ArtifactPath(f: File): (path: string)
    ensures var rest := AfterFirst(f.webkitRelativePath, '/');
      path == if rest != "" then rest else f.name
    ensures f.name != "" ==> path != ""
  {
    RelativePathIsAfterFirstSlash(f.webkitRelativePath);
    var relativePath := RelativePath(f.webkitRelativePath);
    if relativePath != "" then relativePath else f.name
  }

  /** The `FileReader` step for one file: rejects with its error event when reading fails. */
  function ReadFile(f: File): (r: Result<FileArtifact, Thrown>)
    ensures r.Success? <==> f.readResult.Some?
    ensures r.Failure? ==> r.error == ReadErrorEvent(f.name)
    ensures r.Success? ==> r.value.content == f.readResult.value && r.value.path == ArtifactPath(f)
  {
    match f.readResult
    case None => Failure(ReadErrorEvent(f.name))
    case Some(text) => Success(FileArtifact(text, ArtifactPath(f)))
  }

  /**
   * `Promise.all` over the files: one artifact per file, in input order,
   * or the rejection of a file whose read failed.
   */
  function ReadAll(files: seq<File>): (r: Result<seq<FileArtifact>, Thrown>)
    ensures r.Success? <==> forall i :: 0 <= i < |files| ==> files[i].readResult.Some?
    ensures r.Success? ==> |r.value| == |files|
    ensures r.Success? ==> forall i :: 0 <= i < |files| ==>
      r.value[i] == FileArtifact(files[i].readResult.value, ArtifactPath(files[i]))
    ensures r.Failure? ==>
      exists i :: 0 <= i < |files| && files[i].readResult.None? && r.error == ReadErrorEvent(files[i].name)
  {
    var r := All(files, ReadFile);
    assert r.Failure? ==> exists i :: 0 <= i < |files| && ReadFile(files[i]) == Failure(r.error);
    r
  }

  /** `"- f"` for each skipped file, in input order. */
  function Bullets(binaryFiles: seq<string>): (lines: seq<string>)
    ensures |lines| == |binaryFiles|
    ensures forall i :: 0 <= i < |binaryFiles| ==>
      StartsWith(lines[i], "- ") && lines[i][2..] == binaryFiles[i]
  {
    seq(|binaryFiles|, i requires 0 <= i < |binaryFiles| => "- " + binaryFiles[i])
  }

  const SkippedHeader := "\n\nSkipped "
  const SkippedTail := " binary files:\n"

  /** The optional summary of the binary files that were left out. */
  function BinaryFilesMessage(binaryFiles: seq<string>): (summary: string)
    ensures summary == "" <==> |binaryFiles| == 0
  {
    if |binaryFiles| > 0 then
      SkippedHeader + Decimal(|binaryFiles|) + SkippedTail + Join(Bullets(binaryFiles), "\n")
    else
      ""
  }

  /**
   * A non-empty summary starts with the header line, names the count in
   * decimal digits that read back as the number of skipped files, and then
   * lists one bullet per file in input order.
   */
  lemma BinaryFilesMessageCount(binaryFiles: seq<string>)
    requires |binaryFiles| > 0
    ensures exists digits ::
      && IsDigits(digits)
      && DecimalValue(digits) == |binaryFiles|
      && BinaryFilesMessage(binaryFiles) == SkippedHeader + digits + SkippedTail + Join(Bullets(binaryFiles), "\n")
  {
    DecimalRoundTrip(|binaryFiles|);
    var digits := Decimal(|binaryFiles|);
    assert IsDigits(digits) && DecimalValue(digits) == |binaryFiles|;
  }

  /** One embedded file: its path and its already escaped content. */
  datatype Block = Block(path: string, body: string)

  const ArtifactOpen := "<boltArtifact id=\"imported-files\" title=\"Imported Files\" type=\"bundled\" >\n"
  const ArtifactClose := "\n</boltArtifact>"
  const ActionOpen := "<boltAction type=\"file\" filePath=\""
  /** What follows the path: the closing quote of the attribute, the end of the tag and a newline. */
  const ActionPathEnd := "\">\n"
  const ActionClose := "</boltAction>"
  /** What follows the content: a newline and the closing tag. */
  const ActionEnd := "\n" + ActionClose

  /** The `boltAction` text of one file. */
  function ActionBlock(b: Block): string
  {
    ActionOpen + b.path + ActionPathEnd + b.body + ActionEnd
  }

  function ActionBlocks(blocks: seq<Block>): (texts: seq<string>)
    ensures |texts| == |blocks|
    ensures forall i :: 0 <= i < |blocks| ==> texts[i] == ActionBlock(blocks[i])
  {
    seq(|blocks|, i requires 0 <= i < |blocks| => ActionBlock(blocks[i]))
  }

  /** The `boltArtifact` envelope around the action blocks, separated by blank lines. */
  function ArtifactText(blocks: seq<Block>): string
  {
    ArtifactOpen + Join(ActionBlocks(blocks), "\n\n") + ArtifactClose
  }

  /** Each file's path with its content passed through `escapeBoltTags`, in input order. */
  function EscapedBlocks(artifacts: seq<FileArtifact>, escape: string -> string): (blocks: seq<Block>)
    ensures |blocks| == |artifacts|
    ensures forall i :: 0 <= i < |artifacts| ==>
      blocks[i] == Block(artifacts[i].path, escape(artifacts[i].content))
  {
    seq(|artifacts|, i requires 0 <= i < |artifacts| => Block(artifacts[i].path, escape(artifacts[i].content)))
  }

  function ImportRequestText(folderName: string): string
  {
    "Import the \"" + folderName + "\" project"
  }

  function ImportedText(folderName: string): string
  {
    "I've imported the contents of the \"" + folderName + "\" project."
  }

  const StartRequestText := "Start the application"

  /** The body of the assistant message that carries the files. */
  function FilesMessageText(folderName: string, binaryFiles: seq<string>,
                            artifacts: seq<FileArtifact>, escape: string -> string): string
  {
    ImportedText(folderName) + BinaryFilesMessage(binaryFiles) + "\n\n" + ArtifactText(EscapedBlocks(artifacts, escape))
  }

  /**
   * What `createChatFromFolder` resolves to, or what it rejects with.
   * The history is the import request, the files message, and, exactly
   * when the collaborators produce a commands message, the start request
   * followed by that message unchanged.
   */
  function ChatFromFolder(files: seq<File>, binaryFiles: seq<string>, folderName: string,
                          collaborators: Collaborators, generated: Generated): (r: Result<seq<Message>, Thrown>)
    ensures r.Success? <==> forall i :: 0 <= i < |files| ==> files[i].readResult.Some?
    ensures r.Failure? ==>
      exists i :: 0 <= i < |files| && files[i].readResult.None? && r.error == ReadErrorEvent(files[i].name)
    ensures r.Success? ==>
      var artifacts := ReadAll(files).value;
      var commands := collaborators.commandsMessage(artifacts);
      && |r.value| == (if commands.Some? then 4 else 2)
      && r.value[0] == Message(User, generated.userMessageId, ImportRequestText(folderName), Some(generated.userCreatedAt))
      && r.value[1] == Message(Assistant, generated.filesMessageId,
                               FilesMessageText(folderName, binaryFiles, artifacts, collaborators.escapeBoltTags),
                               Some(generated.filesCreatedAt))
      && (commands.Some? ==>
            r.value[2] == Message(User, generated.startMessageId, StartRequestText, None) &&
            r.value[3] == commands.value)
  {
    match ReadAll(files)
    case Failure(e) => Failure(e)
    case Success(artifacts) =>
      var filesMessage := Message(Assistant, generated.filesMessageId,
                                  FilesMessageText(folderName, binaryFiles, artifacts, collaborators.escapeBoltTags),
                                  Some(generated.filesCreatedAt));
      var userMessage := Message(User, generated.userMessageId, ImportRequestText(folderName), Some(generated.userCreatedAt));
      match collaborators.commandsMessage(artifacts)
      case None => Success([userMessage, filesMessage])
      case Some(commandsMessage) =>
        Success([userMessage, filesMessage, Message(User, generated.startMessageId, StartRequestText, None), commandsMessage])
  }

  /**
   * `createChatFromFolder` as the source runs it: the files are read, the
   * two fixed messages are put in a list, and the start request and the
   * commands message are pushed onto it only when there is a commands message.
   */
  method CreateChatFromFolder(files: seq<File>, binaryFiles: seq<string>, folderName: string,
                              collaborators: Collaborators, generated: Generated) returns (r: Result<seq<Message>, Thrown>)
    ensures r == ChatFromFolder(files, binaryFiles, folderName, collaborators, generated)
  {
    var read := ReadAll(files);
    if read.Failure? {
      return Failure(read.error);
    }
    var fileArtifacts := read.value;
    var commandsMessage := collaborators.commandsMessage(fileArtifacts);
    var filesMessage := Message(Assistant, generated.filesMessageId,
      FilesMessageText(folderName, binaryFiles, fileArtifacts, collaborators.escapeBoltTags),
      Some(generated.filesCreatedAt));
    var userMessage := Message(User, generated.userMessageId, ImportRequestText(folderName), Some(generated.userCreatedAt));
    var messages := [userMessage, filesMessage];
    if commandsMessage.Some? {
      messages := messages + [Message(User, generated.startMessageId, StartRequestText, None)];
      messages := messages + [commandsMessage.value];
      assert messages == [userMessage, filesMessage, Message(User, generated.startMessageId, StartRequestText, None), commandsMessage.value];
    }
    return Success(messages);
  }
}
