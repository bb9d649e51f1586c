/**
 * The `azurerm_app_service_source_control` resource
 * (azurerm/internal/services/appservice/sourcecontrol/source_control_resource.go):
 * the guard rails and request building of Create, the state mapping of Read and
 * the no-op Update.
 *
 * The Web API client is not modelled: each call's outcome is an input, and the
 * calls Create issues are recorded, in order, in its outcome.
 */
module SourceControlResource {
  import opened Wrappers
  import opened SourceControlSchema

  /** `web.ScmTypeNone` and `web.ScmTypeLocalGit`. */
  const ScmTypeNone: string := "None"
  const ScmTypeLocalGit: string := "LocalGit"

  /** The decoded resource configuration (`AppServiceSourceControlModel`). */
  datatype SourceControlModel = SourceControlModel(
    appId: string,
    scmType: string,
    repoUrl: string,
    branch: string,
    manualIntegration: bool,
    useMercurial: bool,
    rollbackEnabled: bool,
    usesGithubAction: bool,
    githubActionConfiguration: seq<ActionConfig>)

  /** What the schema's `MaxItems: 1` on `github_action_configuration` and its blocks guarantees. */
  predicate SchemaAdmits(m: SourceControlModel) {
    |m.githubActionConfiguration| <= 1 &&
    (|m.githubActionConfiguration| == 1 ==> WithinMaxItems(m.githubActionConfiguration[0]))
  }

  /** `web.SiteSourceControlProperties`, the body of the source-control update request. */
  datatype SourceControlProperties = SourceControlProperties(
    repoUrl: Option<string>,
    branch: Option<string>,
    isManualIntegration: Option<bool>,
    isGitHubAction: Option<bool>,
    deploymentRollbackEnabled: Option<bool>,
    isMercurial: Option<bool>,
    gitHubActionConfiguration: Option<ApiActionConfiguration>)

  /** `web.SitePatchResource`, reduced to the one field Create sets: the site config's SCM type. */
  datatype SitePatch = SitePatch(scmType: string)

  /** The Web API calls Create can issue, in the order it issues them. */
  datatype ApiCall =
    | UpdateSite(patch: SitePatch)
    | UpdateSourceControl(request: SourceControlProperties)

  /** The result of `GetConfiguration`: a transport error, a response without a site config, or the config's SCM type. */
  datatype ConfigurationLookup =
    | ConfigurationFailed
    | SiteConfigMissing
    | SiteConfigFound(scmType: string)

  datatype ResourceError =
    | ExistingCheckFailed      // "checking for existing Source Control configuration"
    | RequiresImport           // the site already has source control
    | LocalGitWithExtras       // "cannot set any additional configuration when `scm_type` is `LocalGit`"
    | MissingRepoUrl           // "`repo_url` must be set unless `scm_type` is `LocalGit`"
    | SiteUpdateFailed         // "setting App Source Control Type"
    | SourceControlUpdateFailed // "creating Source Control configuration"

  /** What an operation did: the calls it issued, in order, and the error it returned, if any. */
  datatype Outcome = Outcome(calls: seq<ApiCall>, err: Option<ResourceError>)

  // ---------------------------------------------------------------------------
  // Create
  // ---------------------------------------------------------------------------

  /** Any setting besides the repository that LocalGit does not accept. */
  predicate HasAdditionalConfiguration(m: SourceControlModel) {
    m.useMercurial || m.rollbackEnabled || m.manualIntegration || m.usesGithubAction
    || |m.githubActionConfiguration| != 0
  }

  /** All checks before the first update call pass: the site has no source control yet,
      LocalGit carries nothing extra, and any other SCM type (including an unset one) has a repository. */
  predicate PassesGuardRails(m: SourceControlModel, lookup: ConfigurationLookup) {
    && lookup == SiteConfigFound(ScmTypeNone)
    && !(m.scmType == ScmTypeLocalGit && HasAdditionalConfiguration(m))
    && (m.repoUrl == "" ==> m.scmType == ScmTypeLocalGit)
  }

  /**
   * The source-control request: the four flags always copied, the repository and
   * branch only when non-empty, the GitHub Action block only when its list is non-empty.
   */
  function SourceControlRequest(m: SourceControlModel): (r: SourceControlProperties)
    ensures r.isManualIntegration == Some(m.manualIntegration)
    ensures r.isGitHubAction == Some(m.usesGithubAction)
    ensures r.deploymentRollbackEnabled == Some(m.rollbackEnabled)
    ensures r.isMercurial == Some(m.useMercurial)
    ensures r.repoUrl.Some? <==> m.repoUrl != ""
    ensures r.repoUrl.Some? ==> r.repoUrl.value == m.repoUrl
    ensures r.branch.Some? <==> m.branch != ""
    ensures r.branch.Some? ==> r.branch.value == m.branch
    ensures r.gitHubActionConfiguration.Some? <==> |m.githubActionConfiguration| != 0
    ensures r.gitHubActionConfiguration.Some? ==>
              r.gitHubActionConfiguration == ExpandGithubActionConfig(Some(m.githubActionConfiguration))
  {
    SourceControlProperties(
      repoUrl := if m.repoUrl != "" then Some(m.repoUrl) else None,
      branch := if m.branch != "" then Some(m.branch) else None,
      isManualIntegration := Some(m.manualIntegration),
      isGitHubAction := Some(m.usesGithubAction),
      deploymentRollbackEnabled := Some(m.rollbackEnabled),
      isMercurial := Some(m.useMercurial),
      gitHubActionConfiguration :=
        if |m.githubActionConfiguration| != 0 then ExpandGithubActionConfig(Some(m.githubActionConfiguration))
        else None)
  }

  /**
   * The calls Create makes once the guard rails pass: the site patch, which always
   * sets the SCM type to LocalGit, and then, for every type other than LocalGit,
   * the source-control update.
   */
  function Plan(m: SourceControlModel): (p: seq<ApiCall>)
    ensures |p| > 0 && p[0] == UpdateSite(SitePatch(ScmTypeLocalGit))
    ensures |p| == if m.scmType == ScmTypeLocalGit then 1 else 2
    ensures |p| == 2 ==> p[1] == UpdateSourceControl(SourceControlRequest(m))
  {
    var patch := [UpdateSite(SitePatch(ScmTypeLocalGit))];
    if m.scmType == ScmTypeLocalGit then patch
    else patch + [UpdateSourceControl(SourceControlRequest(m))]
  }

  /**
   * Create. `lookup` is what `GetConfiguration` returned; `siteUpdateOk` and
   * `sourceControlUpdateOk` are the outcomes of `Update` and `UpdateSourceControl`
   * should they be called.
   */
  method Create(m: SourceControlModel, lookup: ConfigurationLookup, siteUpdateOk: bool, sourceControlUpdateOk: bool)
    returns (o: Outcome)
    // the existence check comes first, and blocks everything else
    ensures !lookup.SiteConfigFound? ==> o == Outcome([], Some(ExistingCheckFailed))
    ensures lookup.SiteConfigFound? && lookup.scmType != ScmTypeNone ==> o == Outcome([], Some(RequiresImport))
    // the guard rails, checked before any call
    ensures (lookup == SiteConfigFound(ScmTypeNone) && m.scmType == ScmTypeLocalGit && HasAdditionalConfiguration(m))
              ==> o == Outcome([], Some(LocalGitWithExtras))
    ensures (lookup == SiteConfigFound(ScmTypeNone) && m.repoUrl == "" && m.scmType != ScmTypeLocalGit)
              ==> o == Outcome([], Some(MissingRepoUrl))
    // a call is made iff every check passes, and the calls made are a prefix of the plan
    ensures o.calls != [] <==> PassesGuardRails(m, lookup)
    ensures PassesGuardRails(m, lookup) ==> o.calls <= Plan(m) && o.calls[0] == Plan(m)[0]
    // a failed site patch stops Create before the source-control update
    ensures PassesGuardRails(m, lookup) && !siteUpdateOk ==> o == Outcome(Plan(m)[..1], Some(SiteUpdateFailed))
    ensures (PassesGuardRails(m, lookup) && siteUpdateOk && m.scmType != ScmTypeLocalGit && !sourceControlUpdateOk)
              ==> o == Outcome(Plan(m), Some(SourceControlUpdateFailed))
    // success: the whole plan was issued
    ensures o.err.None? <==>
              PassesGuardRails(m, lookup) && siteUpdateOk && (m.scmType == ScmTypeLocalGit || sourceControlUpdateOk)
    ensures o.err.None? ==> o.calls == Plan(m)
  {
    if !lookup.SiteConfigFound? {
      return Outcome([], Some(ExistingCheckFailed));
    }
    if lookup.scmType != ScmTypeNone {
      return Outcome([], Some(RequiresImport));
    }

    // Guard rails...
    if m.scmType == ScmTypeLocalGit
       && (m.useMercurial || m.rollbackEnabled || m.manualIntegration || m.usesGithubAction
           || |m.githubActionConfiguration| != 0)
    {
      return Outcome([], Some(LocalGitWithExtras));
    }

    var sourceControl := SourceControlProperties(
      repoUrl := None,
      branch := None,
      isManualIntegration := Some(m.manualIntegration),
      isGitHubAction := Some(m.usesGithubAction),
      deploymentRollbackEnabled := Some(m.rollbackEnabled),
      isMercurial := Some(m.useMercurial),
      gitHubActionConfiguration := None);
    var sitePatch := SitePatch(ScmTypeLocalGit);

    if m.repoUrl != "" {
      sourceControl := sourceControl.(repoUrl := Some(m.repoUrl));
    } else if m.scmType != ScmTypeLocalGit {
      return Outcome([], Some(MissingRepoUrl));
    }
    if m.branch != "" {
      sourceControl := sourceControl.(branch := Some(m.branch));
    }
    if |m.githubActionConfiguration| != 0 {
      sourceControl := sourceControl.(
        gitHubActionConfiguration := ExpandGithubActionConfig(Some(m.githubActionConfiguration)));
    }

    var calls := [UpdateSite(sitePatch)];
    if m.scmType == ScmTypeLocalGit {
      if !siteUpdateOk {
        return Outcome(calls, Some(SiteUpdateFailed));
      }
    } else {
      if !siteUpdateOk {
        return Outcome(calls, Some(SiteUpdateFailed));
      }
      calls := calls + [UpdateSourceControl(sourceControl)];
      if !sourceControlUpdateOk {
        return Outcome(calls, Some(SourceControlUpdateFailed));
      }
    }
    return Outcome(calls, None);
  }

  // ---------------------------------------------------------------------------
  // Read
  // ---------------------------------------------------------------------------

  /** The result of `GetSourceControl`: not found, another error, or a response whose properties may be nil. */
  datatype SourceControlLookup =
    | SourceControlNotFound
    | SourceControlFailed
    | SourceControlFound(props: Option<SourceControlProperties>)

  datatype ReadOutcome =
    | MarkedAsGone
    | ReadFailed
    | ReadState(state: SourceControlModel)

  /** Read dereferences the four flags and flattens the GitHub Action block; a nil flag is a panic. */
  predicate Readable(p: SourceControlProperties) {
    && p.isManualIntegration.Some?
    && p.isMercurial.Some?
    && p.deploymentRollbackEnabled.Some?
    && p.isGitHubAction.Some?
    && Flattenable(p.gitHubActionConfiguration)
  }

  /** The state Read records: SCM type from the site config, nil repository or branch as "", flags copied. */
  function StateFromProperties(appId: string, p: SourceControlProperties, siteScmType: string): (s: SourceControlModel)
    requires Readable(p)
    ensures s.appId == appId && s.scmType == siteScmType
    ensures s.repoUrl == NormalizeNilableString(p.repoUrl)
    ensures s.branch == NormalizeNilableString(p.branch)
    ensures s.manualIntegration == p.isManualIntegration.value
    ensures s.useMercurial == p.isMercurial.value
    ensures s.rollbackEnabled == p.deploymentRollbackEnabled.value
    ensures s.usesGithubAction == p.isGitHubAction.value
    ensures s.githubActionConfiguration == FlattenGitHubActionConfiguration(p.gitHubActionConfiguration)
    ensures SchemaAdmits(s)
  {
    SourceControlModel(
      appId := appId,
      scmType := siteScmType,
      repoUrl := NormalizeNilableString(p.repoUrl),
      branch := NormalizeNilableString(p.branch),
      manualIntegration := p.isManualIntegration.value,
      useMercurial := p.isMercurial.value,
      rollbackEnabled := p.deploymentRollbackEnabled.value,
      usesGithubAction := p.isGitHubAction.value,
      githubActionConfiguration := FlattenGitHubActionConfiguration(p.gitHubActionConfiguration))
  }

  /**
   * Read: a missing source control marks the resource gone; any other failure of
   * either lookup, or a response without properties, is an error.
   */
  function Read(appId: string, sourceControl: SourceControlLookup, config: ConfigurationLookup): (r: ReadOutcome)
    requires sourceControl.SourceControlFound? && sourceControl.props.Some? && !config.ConfigurationFailed? ==>
               Readable(sourceControl.props.value) && config.SiteConfigFound?
    ensures r.MarkedAsGone? <==> sourceControl.SourceControlNotFound?
    ensures r.ReadState? <==>
              sourceControl.SourceControlFound? && sourceControl.props.Some? && config.SiteConfigFound?
    ensures r.ReadState? ==>
              r.state == StateFromProperties(appId, sourceControl.props.value, config.scmType)
  {
    match sourceControl
    case SourceControlNotFound => MarkedAsGone
    case SourceControlFailed => ReadFailed
    case SourceControlFound(None) => ReadFailed
    case SourceControlFound(Some(p)) =>
      match config
      case ConfigurationFailed => ReadFailed
      case SiteConfigFound(scm) => ReadState(StateFromProperties(appId, p, scm))
  }

  /**
   * Create then Read: when the service stores the request Create sent and
   * reports the SCM type that was asked for, Read gives back the configuration.
   */
  lemma {:induction false} ReadAfterCreate(m: SourceControlModel)
    requires SchemaAdmits(m)
    requires m.scmType != ScmTypeLocalGit && m.repoUrl != ""
    ensures Readable(SourceControlRequest(m))
    ensures StateFromProperties(m.appId, SourceControlRequest(m), m.scmType) == m
  {
    var r := SourceControlRequest(m);
    var gh := m.githubActionConfiguration;
    if |gh| == 1 {
      ExpandThenFlatten(gh[0]);
      assert gh == [gh[0]];
    }
  }

  // ---------------------------------------------------------------------------
  // Update
  // ---------------------------------------------------------------------------

  /** Update changes nothing: it issues no call and always succeeds. */
  function Update(prior: SourceControlModel, planned: SourceControlModel): (o: Outcome)
    ensures o.calls == [] && o.err.None?
  {
    Outcome([], None)
  }
}
