/**
 * The `github_action_configuration` block of the App Service source-control
 * resource, and its codec to and from the Web API's GitHub Action record
 * (azurerm/internal/services/appservice/sourcecontrol/schema.go).
 *
 * The schema side uses lists capped at one element (`MaxItems: 1`); the API
 * side uses nil-able pointers, modelled as `Option`s.
 */
module SourceControlSchema {
  import opened Wrappers

  // ---------------------------------------------------------------------------
  // Schema model (what the configuration holds)
  // ---------------------------------------------------------------------------

  datatype CodeConfig = CodeConfig(runtimeStack: string, runtimeVersion: string)

  datatype ContainerConfig = ContainerConfig(
    registryUrl: string,
    imageName: string,
    registryUsername: string,
    registryPassword: string)

  datatype ActionConfig = ActionConfig(
    codeConfig: seq<CodeConfig>,
    containerConfig: seq<ContainerConfig>,
    usesLinux: bool,
    generateWorkflowFile: bool)

  /** What `MaxItems: 1` on both nested blocks guarantees of a decoded configuration. */
  predicate WithinMaxItems(c: ActionConfig) {
    |c.codeConfig| <= 1 && |c.containerConfig| <= 1
  }

  // ---------------------------------------------------------------------------
  // API record (web.GitHubActionConfiguration and its parts)
  // ---------------------------------------------------------------------------

  datatype ApiCodeConfiguration = ApiCodeConfiguration(
    runtimeStack: Option<string>,
    runtimeVersion: Option<string>)

  datatype ApiContainerConfiguration = ApiContainerConfiguration(
    serverUrl: Option<string>,
    imageName: Option<string>,
    username: Option<string>,
    password: Option<string>)

  datatype ApiActionConfiguration = ApiActionConfiguration(
    codeConfiguration: Option<ApiCodeConfiguration>,
    containerConfiguration: Option<ApiContainerConfiguration>,
    isLinux: Option<bool>,
    generateWorkflowFile: Option<bool>)

  /** Flatten dereferences `IsLinux` and `GenerateWorkflowFile`; a nil in either is a panic. */
  predicate Flattenable(input: Option<ApiActionConfiguration>) {
    input.Some? ==> input.value.isLinux.Some? && input.value.generateWorkflowFile.Some?
  }

  /** Every pointer of the record is set, as `expandGithubActionConfig` always produces. */
  predicate FullyPopulated(a: ApiActionConfiguration) {
    && a.isLinux.Some?
    && a.generateWorkflowFile.Some?
    && (a.codeConfiguration.Some? ==>
          a.codeConfiguration.value.runtimeStack.Some? && a.codeConfiguration.value.runtimeVersion.Some?)
    && (a.containerConfiguration.Some? ==>
          && a.containerConfiguration.value.serverUrl.Some?
          && a.containerConfiguration.value.imageName.Some?
          && a.containerConfiguration.value.username.Some?
          && a.containerConfiguration.value.password.Some?)
  }

  // ---------------------------------------------------------------------------
  // Expand (schema -> API)
  // ---------------------------------------------------------------------------

  function ExpandCodeConfig(c: CodeConfig): (r: ApiCodeConfiguration)
    ensures r.runtimeStack == Some(c.runtimeStack)
    ensures r.runtimeVersion == Some(c.runtimeVersion)
  {
    ApiCodeConfiguration(Some(c.runtimeStack), Some(c.runtimeVersion))
  }

  /** RegistryURL -> ServerURL, ImageName -> ImageName, RegistryUsername -> Username,
      RegistryPassword -> Password, each as a set pointer. */
  function ExpandContainerConfig(c: ContainerConfig): (r: ApiContainerConfiguration)
    ensures r.serverUrl == Some(c.registryUrl)
    ensures r.imageName == Some(c.imageName)
    ensures r.username == Some(c.registryUsername)
    ensures r.password == Some(c.registryPassword)
  {
    ApiContainerConfiguration(
      Some(c.registryUrl), Some(c.imageName), Some(c.registryUsername), Some(c.registryPassword))
  }

  /**
   * `expandGithubActionConfig`: a nil list gives a nil record; otherwise only the
   * first configuration, and only the first element of each nested list, is read.
   * A non-nil empty list would panic on `input[0]`; the only caller never passes one.
   */
  function ExpandGithubActionConfig(input: Option<seq<ActionConfig>>): (r: Option<ApiActionConfiguration>)
    requires input.Some? ==> |input.value| > 0
    ensures input.None? <==> r.None?
    ensures r.Some? ==> FullyPopulated(r.value)
    ensures r.Some? ==>
      var c := input.value[0];
      && r.value.isLinux == Some(c.usesLinux)
      && r.value.generateWorkflowFile == Some(c.generateWorkflowFile)
      && (r.value.codeConfiguration.Some? <==> |c.codeConfig| != 0)
      && (r.value.containerConfiguration.Some? <==> |c.containerConfig| != 0)
      && (|c.codeConfig| != 0 ==> r.value.codeConfiguration == Some(ExpandCodeConfig(c.codeConfig[0])))
      && (|c.containerConfig| != 0 ==>
            r.value.containerConfiguration == Some(ExpandContainerConfig(c.containerConfig[0])))
  {
    match input
    case None => None
    case Some(configs) =>
      var c := configs[0];
      var code := if |c.codeConfig| != 0 then Some(ExpandCodeConfig(c.codeConfig[0])) else None;
      var container :=
        if |c.containerConfig| != 0 then Some(ExpandContainerConfig(c.containerConfig[0])) else None;
      Some(ApiActionConfiguration(code, container, Some(c.usesLinux), Some(c.generateWorkflowFile)))
  }

  // ---------------------------------------------------------------------------
  // Flatten (API -> schema)
  // ---------------------------------------------------------------------------

  function FlattenCodeConfig(c: ApiCodeConfiguration): (r: CodeConfig)
    ensures r.runtimeStack == NormalizeNilableString(c.runtimeStack)
    ensures r.runtimeVersion == NormalizeNilableString(c.runtimeVersion)
  {
    CodeConfig(NormalizeNilableString(c.runtimeStack), NormalizeNilableString(c.runtimeVersion))
  }

  /** ServerURL -> RegistryURL, ImageName -> ImageName, Username -> RegistryUsername,
      Password -> RegistryPassword, a nil pointer becoming "". */
  function FlattenContainerConfig(c: ApiContainerConfiguration): (r: ContainerConfig)
    ensures r.registryUrl == NormalizeNilableString(c.serverUrl)
    ensures r.imageName == NormalizeNilableString(c.imageName)
    ensures r.registryUsername == NormalizeNilableString(c.username)
    ensures r.registryPassword == NormalizeNilableString(c.password)
  {
    ContainerConfig(
      NormalizeNilableString(c.serverUrl),
      NormalizeNilableString(c.imageName),
      NormalizeNilableString(c.username),
      NormalizeNilableString(c.password))
  }

  /**
   * `flattenGitHubActionConfiguration`: a nil record gives the empty list, any other
   * record a list of exactly one configuration whose nested lists hold one element
   * when the matching pointer is set and none otherwise.
   */
  function FlattenGitHubActionConfiguration(input: Option<ApiActionConfiguration>): (r: seq<ActionConfig>)
    requires Flattenable(input)
    ensures input.None? <==> r == []
    ensures input.Some? ==> |r| == 1 && WithinMaxItems(r[0])
    ensures input.Some? ==>
      && r[0].usesLinux == input.value.isLinux.value
      && r[0].generateWorkflowFile == input.value.generateWorkflowFile.value
      && (|r[0].codeConfig| == 1 <==> input.value.codeConfiguration.Some?)
      && (|r[0].containerConfig| == 1 <==> input.value.containerConfiguration.Some?)
      && (input.value.codeConfiguration.Some? ==>
            r[0].codeConfig[0] == FlattenCodeConfig(input.value.codeConfiguration.value))
      && (input.value.containerConfiguration.Some? ==>
            r[0].containerConfig[0] == FlattenContainerConfig(input.value.containerConfiguration.value))
  {
    match input
    case None => []
    case Some(a) =>
      var code := match a.codeConfiguration
        case None => []
        case Some(cc) => [FlattenCodeConfig(cc)];
      var container := match a.containerConfiguration
        case None => []
        case Some(cc) => [FlattenContainerConfig(cc)];
      [ActionConfig(code, container, a.isLinux.value, a.generateWorkflowFile.value)]
  }

  // ---------------------------------------------------------------------------
  // Properties
  // ---------------------------------------------------------------------------

  /** The parts of a configuration list that expand reads. */
  predicate SameLeadingElements(a: seq<ActionConfig>, b: seq<ActionConfig>)
    requires |a| > 0 && |b| > 0
  {
    && a[0].usesLinux == b[0].usesLinux
    && a[0].generateWorkflowFile == b[0].generateWorkflowFile
    && (|a[0].codeConfig| == 0 <==> |b[0].codeConfig| == 0)
    && (|a[0].codeConfig| != 0 && |b[0].codeConfig| != 0 ==> a[0].codeConfig[0] == b[0].codeConfig[0])
    && (|a[0].containerConfig| == 0 <==> |b[0].containerConfig| == 0)
    && (|a[0].containerConfig| != 0 && |b[0].containerConfig| != 0 ==>
          a[0].containerConfig[0] == b[0].containerConfig[0])
  }

  /** Elements after `input[0]`, `CodeConfig[0]` and `ContainerConfig[0]` have no effect on expand. */
  lemma ExpandReadsOnlyLeadingElements(a: seq<ActionConfig>, b: seq<ActionConfig>)
    requires |a| > 0 && |b| > 0
    requires SameLeadingElements(a, b)
    ensures ExpandGithubActionConfig(Some(a)) == ExpandGithubActionConfig(Some(b))
  {
  }

  lemma CodeConfigRoundTrip(c: CodeConfig)
    ensures FlattenCodeConfig(ExpandCodeConfig(c)) == c
  {
  }

  lemma ContainerConfigRoundTrip(c: ContainerConfig)
    ensures FlattenContainerConfig(ExpandContainerConfig(c)) == c
  {
  }

  /** A list of at most one element is determined by its head. */
  lemma SingletonOrEmpty<T>(s: seq<T>)
    requires |s| <= 1
    ensures |s| == 1 ==> s == [s[0]]
    ensures |s| == 0 ==> s == []
  {
  }

  /**
   * Round trip schema -> API -> schema: a configuration the schema admits
   * (each nested list at most one element) survives `flatten(expand([c]))`.
   */
  lemma {:induction false} ExpandThenFlatten(c: ActionConfig)
    requires WithinMaxItems(c)
    ensures FlattenGitHubActionConfiguration(ExpandGithubActionConfig(Some([c]))) == [c]
  {
    var e := ExpandGithubActionConfig(Some([c]));
    var r := FlattenGitHubActionConfiguration(e);
    SingletonOrEmpty(c.codeConfig);
    SingletonOrEmpty(c.containerConfig);
    SingletonOrEmpty(r[0].codeConfig);
    SingletonOrEmpty(r[0].containerConfig);
    if |c.codeConfig| == 1 {
      CodeConfigRoundTrip(c.codeConfig[0]);
    }
    if |c.containerConfig| == 1 {
      ContainerConfigRoundTrip(c.containerConfig[0]);
    }
  }

  /**
   * Round trip API -> schema -> API: a record whose pointers are all set
   * (as the service returns what expand sent) survives `expand(flatten(a))`.
   */
  lemma FlattenThenExpand(a: ApiActionConfiguration)
    requires FullyPopulated(a)
    ensures ExpandGithubActionConfig(Some(FlattenGitHubActionConfiguration(Some(a)))) == Some(a)
  {
  }
}
