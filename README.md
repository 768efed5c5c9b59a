# OpenCML language server — verified model

A Dafny model of the core of the OpenCML language server
(`server/src/server.ts`), the process that sits between the editor and the
`camel` compiler:

- **Diagnostic translation** (`Validation`). `validateCode` pipes a document's
  text to `camel --syntax-only --error-format json`. Once the process closes,
  a non-zero exit code rejects the promise. Otherwise standard output is split
  on `'\n'`, empty lines are skipped, each other line is decoded as a JSON
  record `{filename, line, column, message}`, lines that fail to decode are
  dropped, and every record becomes a zero-width Error diagnostic at
  `(line - 1, column - 1)` with source `OpenCML`. The pull handler for
  `textDocument/diagnostic` answers a full report: empty for an unknown URI,
  the translation of the current text otherwise. The loop is a method proved
  against a functional specification (`DecodeLines`, `Translate`), and the
  properties of the specification are lemmas. JavaScript's `split` and
  `join` are modelled in `Lines`, with both round trips proved.
- **Capability negotiation** (`Capabilities`). The three `has*Capability` flags
  follow JavaScript truthiness over optional fields. The `InitializeResult` is
  built from them.
- **Server state** (`Server.ServerState`). A class holds the module-level
  flags, `globalSettings`, the per-URI `documentSettings` cache and a count of
  diagnostics-refresh requests. `getDocumentSettings`, the configuration-change
  handler and the close handler are methods that state the whole new state.
  The invariant `Valid` says that each cached entry is the configuration
  request made for its own URI.
- **Completion** (`Completion`). There is a fixed two-item list. Resolve
  updates the item object in place, keyed on its `data`.

External inputs become parameters:

- `JSON.parse` plus the field reads is a decoder `string -> Option<ErrorInfo>`.
- The compiler run is a `ToolRun(stdout, exitCode)`. Its exit code is `None`
  when Node reports `null`, that is, a process ended by a signal.
- The document store is a map from URI to current text.
- The editor's answer to `workspace/configuration` is an opaque ticket.

Behaviour worth noting, as the code has it:

- No clamping to zero of the 0-based positions (`server/src/server.ts:222-223`).
  A record with `line = 0` gives line `-1`.
- No filtering of lines that do not start with `{`. Every non-empty line goes
  to the decoder.
- A non-zero exit rejects with no partial diagnostics
  (`server/src/server.ts:187-190`), and `validateCode` rethrows
  (`server/src/server.ts:230-233`).
- The pull handler catches nothing and applies no file-extension filter.
- The compiler is always `camel` with fixed arguments. It is not read from the
  settings.
- `maxNumberOfProblems` is never used to cap the diagnostics.

## Model

| member | source | states |
|---|---|---|
| Lines.Split | server/src/server.ts:202 | `stdout.split('\n')`: at least one piece, and no piece contains the separator |
| Lines.JoinSplit | server/src/server.ts:202 | joining the pieces of a split with the separator gives back the original output |
| Lines.SplitJoin | server/src/server.ts:202 | splitting a join of separator-free pieces gives back exactly those pieces |
| Lines.SplitConcat | server/src/server.ts:202 | the split of `a + '\n' + b` is the split of `a` followed by the split of `b` |
| Validation.DecodeLines | server/src/server.ts:200-217 | the error list the loop builds has at most one record per line |
| Validation.DecodableIndices | server/src/server.ts:202-213 | the positions of the kept lines: exactly the non-empty lines that decode, strictly increasing |
| Validation.DecodeLinesByIndex | server/src/server.ts:202-213 | the j-th record kept is the decoding of the j-th kept line; the count of records equals the count of decodable non-empty lines |
| Validation.DecodeLinesAppend | server/src/server.ts:202-217 | the records of two blocks of lines are the records of the first followed by those of the second; no line affects the others |
| Validation.CollectErrors | server/src/server.ts:200-217 | the `for` loop with `continue` on empty lines and `try`/`catch` around the decode yields exactly `DecodeLines` of the split output |
| Validation.ToDiagnostics | server/src/server.ts:219-227 | one diagnostic per record, in order; each has a zero-width range starting at (line - 1, column - 1) with no clamping, severity Error, the record's message unchanged and source `OpenCML` |
| Validation.TranslateByLine | server/src/server.ts:200-229 | the diagnostics correspond one to one, in order, to the decodable non-empty lines of stdout, each reporting that line's record |
| Validation.TranslateConcat | server/src/server.ts:202-227 | output printed in two newline-separated blocks is translated block by block |
| Validation.SkippedLineDropped | server/src/server.ts:203-216 | an empty or undecodable line contributes no diagnostic and does not stop the lines after it from being translated |
| Validation.SingleRecord | server/src/server.ts:207-227 | a single decodable line, with or without a trailing newline, yields exactly its one diagnostic |
| Validation.ValidateCode | server/src/server.ts:187-233 | rejects with the exit code iff the compiler did not exit with 0; otherwise resolves with the translation of stdout |
| Validation.PullDiagnostics | server/src/server.ts:133-148 | an unknown URI gets a Full report with no items; a known one gets a Full report of its current text's translation, or is rejected with `validateCode`'s own error `ProcessExited(exit code)` |
| Capabilities.NegotiateFlags | server/src/server.ts:39-49 | each flag is true iff every object on its path is present and the leaf is true |
| Capabilities.InitializeResultFor | server/src/server.ts:51-71 | incremental sync, completion with resolve, diagnostics without inter-file or workspace diagnostics; `workspace.workspaceFolders.supported = true` present iff the workspace-folder flag is set |
| Capabilities.WorkspaceFoldersAdvertised | server/src/server.ts:42-44 | workspace folders are advertised iff the client's `workspace.workspaceFolders` is true, and no other client capability changes the result |
| Server.ServerState.constructor | server/src/server.ts:30-32 | all flags false, `globalSettings` the defaults `{maxNumberOfProblems: 1000}`, an empty cache |
| Server.ServerState.OnInitialize | server/src/server.ts:34-72 | stores the negotiated flags, returns the initialize result for them, and leaves the settings untouched |
| Server.ServerState.OnDidChangeConfiguration | server/src/server.ts:100-111 | with the configuration capability the cache is cleared; without it `globalSettings` becomes the payload's `languageServerExample` or the defaults; exactly one refresh request either way |
| Server.ServerState.GetDocumentSettings | server/src/server.ts:113-126 | without the capability, the global settings and an unchanged cache; with it, the cached entry if any (cache unchanged), else a new request for that URI and section, which is inserted |
| Server.ServerState.OnDidClose | server/src/server.ts:128-131 | removes the closed URI's entry and keeps every other entry as it was |
| Server.RepeatedLookupIsCached | server/src/server.ts:117-125 | with the capability, a second lookup returns the same promise as the first, whatever the editor would answer |
| Server.CloseThenLookupRequestsAgain | server/src/server.ts:117-131 | after a close, the next lookup makes a new request |
| Completion.ResolvedText | server/src/server.ts:263-269 | TypeScript texts for data 1, JavaScript texts for data 2, nothing for any other data |
| Completion.OnCompletion | server/src/server.ts:242-258 | always the same two fresh items: TypeScript/Text/1 and JavaScript/Text/2 |
| Completion.OnCompletionResolve | server/src/server.ts:262-271 | returns the same object; sets detail and documentation for data 1 or 2; leaves the item unchanged otherwise |
| Completion.CompleteThenResolve | server/src/server.ts:246-271 | resolving each listed item gives it its language's detail and documentation |

## Left out

- Spawning `camel`, writing stdin, and accumulating the `data` chunks of stdout and stderr (`server/src/server.ts:168-198`) are OS process I/O and event ordering. The model starts from the finished `(stdout, exitCode)`. A failed spawn is not modelled because the source installs no `error` handler.
- `JSON.parse` is an external library. It is the decoder parameter, and a record is assumed to carry integer `line` and `column`. JavaScript `NaN` or `undefined` fields from records missing those keys are not modelled.
- Connection wiring is LSP transport: `createConnection`, `documents.listen`, `connection.listen`, and `onInitialized`'s `client.register` and workspace-folder listener. The diagnostics refresh is only counted.
- The `TextDocuments` store and its incremental edits belong to an external library. The model takes a map from URI to current text.
- `connection.workspace.getConfiguration` is the editor's answer. It is an opaque ticket, and the settings it eventually resolves to are not modelled.
- `onDidChangeContent`, `onDidChangeWatchedFiles` and all `console` output are logging or no-ops.
- Server.ServerState.OnDidChangeConfiguration: the payload is `Option<Settings>`. A falsy non-object `languageServerExample` is treated like an absent one. A missing `change.settings`, which throws in JavaScript, is not modelled.
- Completion.OnCompletionResolve: `data` is `Option<int>`. Data that is not a number can never equal 1 or 2, so it is modelled as `None`.
- `hasDiagnosticRelatedInformationCapability` is computed and stored but never read by the source.
- The server source has no formatting, hover or signature-help handlers, so none is modelled.
- `client/src/extension.ts`, `client/src/common/api.ts`, `publish.js` and the `vite.config.ts` files are the editor client shell, webview UI, packaging and build configuration. They are not part of this model.
