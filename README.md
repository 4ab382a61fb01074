# Project import into a replayable chat history

This project models, in Dafny, how the bolt.diy fork turns a software
project into a synthetic chat history that a coding assistant can replay.
There are two sources and one shared assembler:

- **Folder import** (`createChatFromFolder`): each picked file is read as
  text. Its path inside the project is its `webkitRelativePath` without the
  first segment, or its bare name when that leaves nothing. The history is
  the user's import request, then an assistant message carrying every file
  in one `boltArtifact` envelope (with an optional "Skipped N binary files"
  summary), then, only when the project has start commands, a "Start the
  application" request followed by the commands message.
- **Import endpoint** (`action` in the import route): 405 for any method but
  POST, 400 for a missing or falsy `projectHex`, and otherwise a project
  lookup that must return a non-empty list. Then a document listing, one blob
  fetch per document and a 200 answer with `{project_name, files}`. Any
  failure on the way gives a 500 whose body is the failure's message.
- **Remote import** (`importAutopilotProject`): the endpoint's answer
  becomes one `File` per answered file, in order. The folder assembler runs
  with no binary files. The result is a chat history item whose id and url
  id are the project id and whose description is the project name.

The remote service is a function from URL to reply (`AutopilotImportRoute.Upstream`).
The base URL, the current time, the generated ids, `escapeBoltTags` and the
command detector are parameters. Each `FileReader` outcome is given per file.
`Promise.all` is an order-preserving map that fails as a whole
(`JsValues.All`).

Modules: `Outcomes` (Option, Result), `JsStrings` (indexOf, split, join,
decimal rendering), `JsValues` (parsed JSON, thrown values, property reads,
truthiness, `String(v)`, `Promise.all`), `FolderImport`, `ArtifactDecode`
(a reference reader for the artifact text, the partner of the encoder),
`AutopilotImportRoute` and `AutopilotPersistence`.

Some behaviour of the code worth knowing:
- The blob fetch does not check the reply's status. A blob reply with an
  error status still yields its body text as the file's content, and the
  import goes on.
- Every failure the code raises itself is an `Error` with a fixed message,
  such as `HTTP error! status: 404` or
  `Unexpected response format: Expected a non-empty list`. The 500 answer
  carries that message.
- A failed local read rejects with the reader's error event, which has no
  `message`.
- `escapeBoltTags` is not shown, so no escaping round trip is claimed.

## Model

| member | source | states |
|---|---|---|
| `JsStrings.Split` | app/utils/folderImport.ts:31 | `split('/')` gives at least one piece. No piece contains the separator. Joining the pieces with it gives the input back. |
| `JsStrings.DecimalRoundTrip` | app/routes/api.autopilot.import.ts:47 | The decimal digits a template literal writes for a status or count read back as that number. |
| `JsValues.All` | app/routes/api.autopilot.import.ts:75-82 | `Promise.all` over a map succeeds exactly when every element succeeds. It then holds one result per element, in input order. Otherwise it rejects with the error of some failing element. |
| `JsValues.MessageOf` | app/routes/api.autopilot.import.ts:108 | `error.message` of an `Error`, `TypeError` or `SyntaxError` is that error's own message. It is undefined exactly for a FileReader error event, which is not an `Error`. |
| `FolderImport.RelativePathIsAfterFirstSlash` | app/utils/folderImport.ts:31 | Splitting on `/`, dropping the first piece and rejoining with `/` gives exactly the text after the first `/`, or `""` when there is none. |
| `FolderImport.RelativePath` | app/utils/folderImport.ts:31 | Its contract is its definition: split on `/`, drop the first piece, rejoin with `/`. Its partner `RelativePathIsAfterFirstSlash` proves that this is the text after the first `/`. |
| `FolderImport.ArtifactPath` | app/utils/folderImport.ts:31-35 | A file's path is the text after the first `/` of its relative path, or its name when that is empty. It is never empty when the name is not. |
| `FolderImport.ReadFile` | app/utils/folderImport.ts:26-39 | One file's read succeeds exactly when the reader loads it. It then resolves with the loaded text and `ArtifactPath` of the file. Otherwise it rejects with that file's error event. |
| `FolderImport.ReadAll` | app/utils/folderImport.ts:24-41 | Reading succeeds exactly when every file's read succeeds. It then gives one `{content, path}` per file, in input order. Otherwise it rejects with the error event of a file whose read failed. |
| `FolderImport.BinaryFilesMessage` | app/utils/folderImport.ts:46-49 | The binary summary is empty exactly when there are no binary files. |
| `FolderImport.BinaryFilesMessageCount` | app/utils/folderImport.ts:48 | A non-empty summary is `\n\nSkipped N binary files:\n` with N's digits reading back as the count, then the `- f` bullets joined by newlines. |
| `FolderImport.Bullets` | app/utils/folderImport.ts:48 | One line per binary file, in input order. Each line is `- ` followed by exactly that file's name. |
| `FolderImport.ActionBlock` | app/utils/folderImport.ts:58-60 | Its contract is its definition: the `boltAction` text of one file. Its partner `ArtifactDecode.ParseActionBlock` reads it back as the path and the escaped content. |
| `FolderImport.ActionBlocks` | app/utils/folderImport.ts:56-61 | Its contract is its definition: one `boltAction` text per block, in order. Its partner `ArtifactDecode.ParseJoinedBlocks` reads the joined texts back. |
| `FolderImport.ArtifactText` | app/utils/folderImport.ts:55-63 | Its contract is its definition: the `imported-files` envelope around the action blocks joined by blank lines. Its partner `ArtifactDecode.ArtifactRoundTrip` reads it back as exactly the blocks. |
| `FolderImport.EscapedBlocks` | app/utils/folderImport.ts:56-59 | Its contract is its definition: one block per file artifact, in order, with the artifact's path and its content passed through `escapeBoltTags`. Its partner `ArtifactDecode.FilesMessageCarriesEveryFile` reads these blocks back from the files message. |
| `FolderImport.FilesMessageText` | app/utils/folderImport.ts:53-63 | Its contract is its definition: the opening sentence, the binary summary, a blank line and the artifact. Its partner `ArtifactDecode.FilesMessageCarriesEveryFile` reads every file back from it. |
| `FolderImport.ChatFromFolder` | app/utils/folderImport.ts:19-87 | Succeeds exactly when every read succeeds, and otherwise rejects with a failing file's error event. On success it holds 2 messages without a commands message and 4 with one. The order is: the import request (user), the files message (assistant), and with commands the start request (user) followed by the commands message unchanged. |
| `FolderImport.CreateChatFromFolder` | app/utils/folderImport.ts:75-86 | Building the two-message list and pushing the start request and commands message only when there is a commands message gives exactly `ChatFromFolder`. |
| `ArtifactDecode.ParseActionBlock` | app/utils/folderImport.ts:58-60 | One `boltAction` block reads back as its path and escaped content, leaving what follows. This holds when the path has no `"` and the content has no `</boltAction>`. |
| `ArtifactDecode.ParseJoinedBlocks` | app/utils/folderImport.ts:56-63 | A non-empty list of blocks, each with no `"` in its path and no `</boltAction>` in its content, joined by `\n\n` and closed by `\n</boltArtifact>`, reads back as the same blocks in the same order. |
| `ArtifactDecode.ArtifactRoundTrip` | app/utils/folderImport.ts:55-63 | The `imported-files` envelope of any delimited blocks, including none, reads back as exactly those blocks. |
| `ArtifactDecode.FilesMessageCarriesEveryFile` | app/utils/folderImport.ts:53-63 | After the opening sentence, the binary summary and a blank line, the files message holds an artifact with exactly one block per input file, in input order. Each block has the file's path and escaped content. This holds when no path contains `"` and no escaped content contains `</boltAction>`. |
| `AutopilotImportRoute.FetchJson` | app/routes/api.autopilot.import.ts:43-51 | A network failure is rethrown. A status outside 200-299 fails with `HTTP error! status: <status>`. Otherwise the result is the parsed body. |
| `AutopilotImportRoute.HttpErrorNamesStatus` | app/routes/api.autopilot.import.ts:46-48 | The status in the `HTTP error!` message reads back as the reply's status. |
| `AutopilotImportRoute.HandleProjectDetails` | app/routes/api.autopilot.import.ts:60-69 | A lookup failure is passed on. A reply that is not a non-empty list fails with the non-empty-list message. Otherwise the result is element 0. |
| `AutopilotImportRoute.FetchDocument` | app/routes/api.autopilot.import.ts:76-81 | A document fetches the blob at `…/azure_storage/get_blob/<blob_dir>`. The entry is named by `file_name` and holds the reply's text whatever its status. A `null` document throws. |
| `AutopilotImportRoute.MapDocuments` | app/routes/api.autopilot.import.ts:75-82 | Its contract is its definition: `documentList.map` with `Promise.all` over `FetchDocument`, and a TypeError for a `null` or non-list listing. What it gives is stated on `HandleFileRead`. |
| `AutopilotImportRoute.BlobStatusIgnored` | app/routes/api.autopilot.import.ts:78 | Two blob replies with the same text and any statuses give the same successful entry. |
| `AutopilotImportRoute.HandleFileRead` | app/routes/api.autopilot.import.ts:71-85 | A listing failure is passed on, and a listing that is not a list throws a TypeError. Otherwise the result succeeds exactly when every document's entry does. It then holds one entry per document, in listing order, with that document's `file_name` and blob text. |
| `AutopilotImportRoute.ImportProject` | app/routes/api.autopilot.import.ts:53-58 | A details failure is the result, and a listing or blob failure after a successful lookup is the result. When both succeed, the result is `{project_name, files}` with the record's `project_name` and `handleFileRead`'s files. A `null` record throws reading `project_name`. |
| `AutopilotImportRoute.DetailsFailureStopsImport` | app/routes/api.autopilot.import.ts:53-55 | When the project lookup fails, the result depends on no other reply of the service. |
| `AutopilotImportRoute.Action` | app/routes/api.autopilot.import.ts:87-113 | A non-POST method gets 405 `Method Not Allowed` whatever the body is. A POST whose body fails to parse rejects with that parse error. A `null` body rejects with a TypeError. A falsy `projectHex` gets 400 `Missing projectHex parameter`. A successful import gets 200 with the import response, and a failed one gets 500 with the failure's message. Every answer is JSON. |
| `AutopilotImportRoute.EmptyBodyIsBadRequest` | app/routes/api.autopilot.import.ts:95-102 | `POST` with body `{}` gets the 400 answer. |
| `AutopilotImportRoute.EncodeFiles` | app/routes/api.autopilot.import.ts:106 | The JSON of the answer holds one `{content, name}` object per file, in order. The name is dropped when it is undefined. |
| `AutopilotImportRoute.EncodeBody` | app/routes/api.autopilot.import.ts:106-108 | The JSON of an answer, as read back, is an object. An error answer has only an `error` member, holding the message, and drops it when the message is undefined. An import answer has only `files` and `project_name`. Its partners are `AutopilotPersistence.FilesOfSuccessAnswer` and `ErrorAnswerThrows`. |
| `AutopilotPersistence.DecodedText` | app/lib/persistence/autopilot.ts:25-26 | Text read back from a `File` made of a string is that string, less a leading byte order mark. |
| `AutopilotPersistence.ToFile` | app/lib/persistence/autopilot.ts:23-27 | An entry becomes a `File` with the entry's name, an empty relative path and its content as text. A `null` entry throws the destructuring TypeError. |
| `AutopilotPersistence.FilesFromResponse` | app/lib/persistence/autopilot.ts:19-27 | A `files` list succeeds exactly when it has no `null` entry, and then gives one `File` per entry, in order. A `null` entry throws the destructuring TypeError. A `null` answer throws reading `files`. An answer without `files` throws reading `map` of undefined. A `null` `files` throws reading `map` of null, and a non-list one throws `filesArray.map is not a function`. |
| `AutopilotPersistence.ImportAutopilotProject` | app/lib/persistence/autopilot.ts:9-43 | Fetch and parse failures and file-building failures are rethrown unchanged. On success, `id == urlId == projectHex`, the description is the answer's `project_name`, and the timestamp is the current time. |
| `AutopilotPersistence.BuiltFilePathIsName` | app/lib/persistence/autopilot.ts:26 | A `File` built from a name is embedded under exactly that name. |
| `AutopilotPersistence.RemoteImportMessages` | app/lib/persistence/autopilot.ts:31 | The item's messages are exactly the folder assembler's for the built files, no binary files and the project name. They number 2 or 4, and the files message has no binary summary. |
| `AutopilotPersistence.ErrorAnswerThrows` | app/lib/persistence/autopilot.ts:19-23 | The endpoint's error answer, which has no `files`, makes the import throw instead of returning an item. |
| `AutopilotPersistence.FilesOfSuccessAnswer` | app/lib/persistence/autopilot.ts:23-29 | For the endpoint's success answer, the client builds one `File` per answered file, in order, and reads back the same project name. |
| `AutopilotPersistence.SuccessAnswerCarriesEveryFile` | app/lib/persistence/autopilot.ts:23-36 | For the endpoint's success answer, the item describes the answered project name. Its files message reads back as one block per answered file, in the answer's order, under the file's name. This holds when no answered name contains `"` and no escaped content contains `</boltAction>`. |
| `AutopilotPersistence.RemoteImportEndToEnd` | app/lib/persistence/autopilot.ts:11-39 | For a non-empty project id the endpoint answers 200 or 500. A 200 answer becomes an item keyed by the id and described by the project name. A 500 answer makes the client throw. |

## Left out

- Network calls, `FileReader`, `Blob`/`File` construction and JSON parsing are given inputs, not performed. The service is a function from URL to reply, so the same URL always gets the same reply.
- `JSON.stringify` is modelled only as the value `response.json()` reads back (`AutopilotImportRoute.EncodeBody`). Key order and the exact text are not modelled.
- `JsValues.All`: when several elements fail, the source rejects with whichever failure settles first. The model picks the first by index, so its contract promises only "some failing element".
- `escapeBoltTags`, `detectProjectCommands` and `createCommandsMessage` are not shown, so they are parameters. A rejection by the detector is not modelled.
- `generateId`, `new Date()` and `toISOString()` are parameters. `process.env.AUTOPILOT_AI_URL` is the `baseUrl` parameter.
- Engine `TypeError` messages use V8's wording. Nothing else depends on them.
- JSON numbers are integers. How `String(v)` renders fractions and exponents is not modelled.
- Dafny characters are Unicode scalar values, so lone surrogates cannot occur. Their replacement by U+FFFD in a `Blob` is not modelled.
- JsValues.ToString: `String(v)` and template literals are total in the model. A parsed object with its own `toString` or `valueOf` member renders as `[object Object]`. In JavaScript that member is not callable, so the conversion throws `TypeError: Cannot convert object to primitive value`. The model misses that throw in four places: `projectHex` in the lookup URL (api.autopilot.import.ts:61, where the import would answer 500), `blob_dir` in the blob URL (api.autopilot.import.ts:77), `name` and `content` when the `Blob` and `File` are built (autopilot.ts:25-26), and `project_name` in the message texts (folderImport.ts:53 and :71).
- Property reads on parsed JSON see own data properties only. The keys read here are never an array index, `length` or an inherited member.
- The request method is taken as the handler receives it, after the platform's normalisation.
- Only the content type is modelled among the response headers.
- What the framework does with a rejected handler (`Rejected`) is not modelled.
- A blob body whose `text()` fails is not modelled: every reply has a text.
- `ArtifactDecode.ArtifactRoundTrip`: the read-back holds only when no path contains `"` and no escaped content contains `</boltAction>`. The source does not escape paths, and what `escapeBoltTags` guarantees is not shown.
- `indexRedirectionCode` in folderImport.ts and `delay` in the import route are never called.
- The prompt templates, the chat rendering components and the import page are not part of this model.
