/**
 * The module-level state of the language server: the capability flags set
 * by `onInitialize`, the global settings used when the editor cannot answer
 * `workspace/configuration`, and the per-document settings cache.
 */
module Server {
  import opened Wrappers
  import Capabilities

  datatype Settings = Settings(maxNumberOfProblems: int)

  /** `defaultSettings`. */
  const DefaultSettings: Settings := Settings(1000)

  /** The configuration section the server asks the editor for. */
  const Section: string := "opencmlLanguageServer"

  /**
   * A `Thenable<Settings>`: either already resolved (`Promise.resolve`) or
   * the pending answer to a `workspace/configuration` request. Each request
   * the editor answers is a distinct promise; `ticket` is the identity the
   * editor gives it and is otherwise opaque.
   */
  datatype SettingsThenable =
    | Resolved(settings: Settings)
    | Requested(scopeUri: string, section: string, ticket: nat)

  class ServerState {
    var hasConfigurationCapability: bool
    var hasWorkspaceFolderCapability: bool
    var hasDiagnosticRelatedInformationCapability: bool
    var globalSettings: Settings
    /** `documentSettings`: the cached settings promise of each document. */
    var documentSettings: map<string, SettingsThenable>
    /** How many `diagnostics.refresh()` requests the server has sent to the editor. */
    var refreshRequests: nat

    /** Every cached entry is the configuration request made for its own URI. */
    ghost predicate Valid()
      reads this
    {
      forall uri :: uri in documentSettings ==>
        && documentSettings[uri].Requested?
        && documentSettings[uri].scopeUri == uri
        && documentSettings[uri].section == Section
    }

    constructor ()
      ensures Valid()
      ensures !hasConfigurationCapability && !hasWorkspaceFolderCapability
      ensures !hasDiagnosticRelatedInformationCapability
      ensures globalSettings == DefaultSettings
      ensures documentSettings == map[]
      ensures refreshRequests == 0
    {
      hasConfigurationCapability := false;
      hasWorkspaceFolderCapability := false;
      hasDiagnosticRelatedInformationCapability := false;
      globalSettings := DefaultSettings;
      documentSettings := map[];
      refreshRequests := 0;
    }

    /** `onInitialize`: record the negotiated flags and answer with the server's capabilities. */
    method OnInitialize(caps: Capabilities.ClientCapabilities) returns (result: Capabilities.InitializeResult)
      requires Valid()
      modifies this
      ensures Valid()
      ensures var flags := Capabilities.NegotiateFlags(caps);
        && hasConfigurationCapability == flags.configuration
        && hasWorkspaceFolderCapability == flags.workspaceFolders
        && hasDiagnosticRelatedInformationCapability == flags.diagnosticRelatedInformation
        && result == Capabilities.InitializeResultFor(flags)
      ensures globalSettings == old(globalSettings)
      ensures documentSettings == old(documentSettings)
      ensures refreshRequests == old(refreshRequests)
    {
      var flags := Capabilities.NegotiateFlags(caps);
      hasConfigurationCapability := flags.configuration;
      hasWorkspaceFolderCapability := flags.workspaceFolders;
      hasDiagnosticRelatedInformationCapability := flags.diagnosticRelatedInformation;
      result := Capabilities.InitializeResultFor(flags);
    }

    /**
     * `onDidChangeConfiguration`: with the configuration capability, drop
     * every cached entry; without it, replace the global settings by the
     * payload's `languageServerExample` or the defaults. Either way, ask the
     * editor once to refresh its diagnostics.
     */
    method OnDidChangeConfiguration(languageServerExample: Option<Settings>)
      requires Valid()
      modifies this`documentSettings, this`globalSettings, this`refreshRequests
      ensures Valid()
      ensures old(hasConfigurationCapability) ==>
        documentSettings == map[] && globalSettings == old(globalSettings)
      ensures !old(hasConfigurationCapability) ==>
        && documentSettings == old(documentSettings)
        && globalSettings == languageServerExample.GetOr(DefaultSettings)
      ensures refreshRequests == old(refreshRequests) + 1
    {
      if hasConfigurationCapability {
        documentSettings := map[];
      } else {
        globalSettings := languageServerExample.GetOr(DefaultSettings);
      }
      refreshRequests := refreshRequests + 1;
    }

    /**
     * `getDocumentSettings`: without the configuration capability, the global
     * settings; with it, the cached promise for `resource`, or else a new
     * configuration request (the editor's promise `ticket`) that is cached.
     */
    method GetDocumentSettings(resource: string, ticket: nat) returns (r: SettingsThenable)
      requires Valid()
      modifies this`documentSettings
      ensures Valid()
      ensures !hasConfigurationCapability ==>
        r == Resolved(globalSettings) && documentSettings == old(documentSettings)
      ensures hasConfigurationCapability && resource in old(documentSettings) ==>
        r == old(documentSettings)[resource] && documentSettings == old(documentSettings)
      ensures hasConfigurationCapability && resource !in old(documentSettings) ==>
        r == Requested(resource, Section, ticket) && documentSettings == old(documentSettings)[resource := r]
    {
      if !hasConfigurationCapability {
        return Resolved(globalSettings);
      }
      if resource in documentSettings {
        r := documentSettings[resource];
      } else {
        r := Requested(resource, Section, ticket);
        documentSettings := documentSettings[resource := r];
      }
    }

    /** `documents.onDidClose`: forget the closed document's settings and no other. */
    method OnDidClose(uri: string)
      requires Valid()
      modifies this`documentSettings
      ensures Valid()
      ensures uri !in documentSettings
      ensures forall other :: other != uri ==>
        (other in documentSettings <==> other in old(documentSettings))
      ensures forall other :: other != uri && other in documentSettings ==>
        documentSettings[other] == old(documentSettings)[other]
    {
      documentSettings := documentSettings - {uri};
    }
  }

  /**
   * With the configuration capability, a second lookup of the same document
   * returns the promise the first one cached, whatever the editor would
   * have answered to a new request.
   */
  method RepeatedLookupIsCached(s: ServerState, uri: string, first: nat, second: nat)
    returns (r1: SettingsThenable, r2: SettingsThenable)
    requires s.Valid() && s.hasConfigurationCapability
    modifies s
    ensures r1 == r2
    ensures r1.Requested? && r1.scopeUri == uri && r1.section == Section
    ensures uri !in old(s.documentSettings) ==> r1.ticket == first
  {
    r1 := s.GetDocumentSettings(uri, first);
    r2 := s.GetDocumentSettings(uri, second);
  }

  /**
   * After a document is closed, the next lookup for it with the configuration
   * capability issues a new request instead of the stale cached one.
   */
  method CloseThenLookupRequestsAgain(s: ServerState, uri: string, ticket: nat)
    returns (r: SettingsThenable)
    requires s.Valid() && s.hasConfigurationCapability
    modifies s
    ensures r == Requested(uri, Section, ticket)
  {
    s.OnDidClose(uri);
    r := s.GetDocumentSettings(uri, ticket);
  }
}
