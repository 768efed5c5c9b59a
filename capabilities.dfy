/**
 * `onInitialize`: the three capability flags the server derives from the
 * editor's client capabilities, and the `InitializeResult` it answers with.
 * An optional boolean of the protocol is `Option<bool>`; JavaScript's `!!`
 * makes it true only when it is present and `true`.
 */
module Capabilities {
  import opened Wrappers

  datatype WorkspaceClientCapabilities = WorkspaceClientCapabilities(
    configuration: Option<bool>,
    workspaceFolders: Option<bool>)

  datatype PublishDiagnosticsClientCapabilities = PublishDiagnosticsClientCapabilities(
    relatedInformation: Option<bool>)

  datatype TextDocumentClientCapabilities = TextDocumentClientCapabilities(
    publishDiagnostics: Option<PublishDiagnosticsClientCapabilities>)

  datatype ClientCapabilities = ClientCapabilities(
    workspace: Option<WorkspaceClientCapabilities>,
    textDocument: Option<TextDocumentClientCapabilities>)

  /** The module-level `has*Capability` flags. */
  datatype CapabilityFlags = CapabilityFlags(
    configuration: bool,
    workspaceFolders: bool,
    diagnosticRelatedInformation: bool)

  datatype TextDocumentSyncKind = NoSync | FullSync | IncrementalSync
  datatype CompletionOptions = CompletionOptions(resolveProvider: bool)
  datatype DiagnosticOptions = DiagnosticOptions(interFileDependencies: bool, workspaceDiagnostics: bool)
  datatype WorkspaceFoldersServerCapabilities = WorkspaceFoldersServerCapabilities(supported: bool)
  datatype WorkspaceServerCapabilities = WorkspaceServerCapabilities(workspaceFolders: WorkspaceFoldersServerCapabilities)

  datatype ServerCapabilities = ServerCapabilities(
    textDocumentSync: TextDocumentSyncKind,
    completionProvider: CompletionOptions,
    diagnosticProvider: DiagnosticOptions,
    workspace: Option<WorkspaceServerCapabilities>)

  datatype InitializeResult = InitializeResult(capabilities: ServerCapabilities)

  /** `!!b` for an optional boolean. */
  function Truthy(b: Option<bool>): bool
  {
    b.GetOr(false)
  }

  /** The three flags of `onInitialize`, each true exactly when every object on its path is present and the leaf is `true`. */
  function NegotiateFlags(caps: ClientCapabilities): (flags: CapabilityFlags)
    ensures flags.configuration <==>
      caps.workspace.Some? && caps.workspace.value.configuration == Some(true)
    ensures flags.workspaceFolders <==>
      caps.workspace.Some? && caps.workspace.value.workspaceFolders == Some(true)
    ensures flags.diagnosticRelatedInformation <==>
      && caps.textDocument.Some?
      && caps.textDocument.value.publishDiagnostics.Some?
      && caps.textDocument.value.publishDiagnostics.value.relatedInformation == Some(true)
  {
    var workspace := match caps.workspace
      case Some(w) => (Truthy(w.configuration), Truthy(w.workspaceFolders))
      case None => (false, false);
    var related := match caps.textDocument
      case Some(td) => (match td.publishDiagnostics
        case Some(pd) => Truthy(pd.relatedInformation)
        case None => false)
      case None => false;
    CapabilityFlags(workspace.0, workspace.1, related)
  }

  /**
   * The answer to `initialize`: incremental sync, completion with resolve,
   * pull diagnostics without inter-file or workspace diagnostics, and
   * workspace-folder support declared exactly when the editor has it.
   */
  function InitializeResultFor(flags: CapabilityFlags): (r: InitializeResult)
    ensures r.capabilities.textDocumentSync == IncrementalSync
    ensures r.capabilities.completionProvider.resolveProvider
    ensures !r.capabilities.diagnosticProvider.interFileDependencies
    ensures !r.capabilities.diagnosticProvider.workspaceDiagnostics
    ensures r.capabilities.workspace.Some? <==> flags.workspaceFolders
    ensures r.capabilities.workspace.Some? ==> r.capabilities.workspace.value.workspaceFolders.supported
  {
    var base := ServerCapabilities(
      IncrementalSync,
      CompletionOptions(true),
      DiagnosticOptions(false, false),
      None);
    if flags.workspaceFolders then
      InitializeResult(base.(workspace := Some(WorkspaceServerCapabilities(WorkspaceFoldersServerCapabilities(true)))))
    else
      InitializeResult(base)
  }

  /**
   * The result the editor receives advertises workspace folders exactly
   * when its own capabilities carry a true `workspace.workspaceFolders`, and
   * nothing else in the client capabilities changes it.
   */
  lemma WorkspaceFoldersAdvertised(caps: ClientCapabilities, other: ClientCapabilities)
    ensures var r := InitializeResultFor(NegotiateFlags(caps));
      r.capabilities.workspace == Some(WorkspaceServerCapabilities(WorkspaceFoldersServerCapabilities(true)))
      <==> caps.workspace.Some? && caps.workspace.value.workspaceFolders == Some(true)
    ensures NegotiateFlags(caps).workspaceFolders == NegotiateFlags(other).workspaceFolders ==>
      InitializeResultFor(NegotiateFlags(caps)) == InitializeResultFor(NegotiateFlags(other))
  {
  }
}
