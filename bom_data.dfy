/** The shapes of a BOM snapshot (`IBomData`) and of a flattened grid row (`IBomRowData`).
    The snapshot's per-repository scanner records are loosely typed in the source; here each
    record the generator reads has its own datatype, with every property it reads as an
    Option, so that each optional-chaining step becomes an explicit presence check.
    Field names are the JSON keys of the snapshot and the row. */
module BomData {
  import opened JsValues

  /** A JavaScript `Date`: what `new Date(text)` yields, valid or not. */
  datatype Date = InvalidDate | ValidDate(epochMs: int)

  /** Host-library operations the generator calls but does not define. */
  datatype Host = Host(
    /** `new Date(text)`; None stands for `new Date(undefined)`. */
    parseDate: Option<string> -> Date,
    /** `(x * 1).toPrecision(4)`. */
    toPrecision4: real -> string)

  // Scanner `manifest`, sub-record `github`

  datatype MasterStatus = MasterStatus(
    commit_status_time: Option<string>,
    commit_time: Option<string>,
    commit_status_state: Option<string>)

  datatype Github = Github(
    open_pr_count: Option<int>,
    total_pr_count: Option<int>,
    master_status: Option<MasterStatus>,
    has_main_branch_protection: Option<bool>,
    main_branch_min_approvals: Option<int>,
    main_branch_req_status_checks: Option<bool>,
    main_branch_allow_force: Option<bool>)

  // Scanner `manifest`, sub-records `dockerfile` and `manifest`

  datatype Technology = Technology(name: Option<string>, version: Option<string>)

  datatype Dockerfile = Dockerfile(
    base_image: Option<string>,
    base_version: Option<string>,
    technologies: seq<Technology>)

  datatype ServiceDocker = ServiceDocker(base_image: Option<string>)

  datatype Dtcom = Dtcom(ci_id: Option<string>)

  datatype Configurations = Configurations(dtcom: Option<Dtcom>)

  /** One service declared in a repository's manifest. */
  datatype Service = Service(
    project_name: Option<string>,
    veracode_app: Option<string>,
    configurations: Option<Configurations>,
    docker: Option<ServiceDocker>,
    technologies: seq<Technology>)

  datatype Manifest = Manifest(
    project_name: Option<string>,
    maintainer_email: Option<string>,
    manifests: Option<seq<Service>>)

  datatype ManifestScan = ManifestScan(
    manifest: Option<Manifest>,
    github: Option<Github>,
    dockerfile: Option<Dockerfile>)

  // Scanner `jenkins`

  datatype Jenkins = Jenkins(
    test_results_available: Option<bool>,
    test_total_count: Option<int>,
    test_skip_count: Option<int>,
    test_fail_count: Option<int>,
    sonar_available: Option<bool>,
    sonar_skipped: Option<bool>,
    coverage_percent: Option<real>,
    coverage_lines_analyzed: Option<int>)

  // Scanners `veracode` and `veracode_sca`

  datatype VeracodeComponent = VeracodeComponent(
    component_name: Option<string>,
    veracode_app_name: Option<string>,
    veracode_app_name_actual: Option<string>,
    veracode_status: Option<string>,
    veracode_app_profile_url: Option<string>,
    last_static_scan_result: Option<string>,
    last_static_scan_date: Option<string>)

  datatype Veracode = Veracode(components: Option<seq<VeracodeComponent>>)

  datatype ScaComponent = ScaComponent(
    component_name: Option<string>,
    status: Option<string>,
    last_scan_date: Option<string>,
    vulnerability_issue_count: Option<int>,
    profile_url: Option<string>)

  datatype VeracodeSca = VeracodeSca(components: Option<seq<ScaComponent>>)

  /** The scanner records of one repository; scanners the generator does not read are omitted. */
  datatype RepoData = RepoData(
    manifest: Option<ManifestScan>,
    jenkins: Option<Jenkins>,
    veracode: Option<Veracode>,
    veracode_sca: Option<VeracodeSca>)

  /** A snapshot document; `repos` lists the entries of the repository map in iteration order. */
  datatype Bom = Bom(
    scan_date: string,
    scan_start_utc_time: int,
    scan_elapsed_ms: int,
    orgs: seq<string>,
    repo_whitelist: seq<string>,
    scanners: seq<string>,
    repos: seq<(string, RepoData)>)

  /** One grid row. Every property but `id` and `repo` may be absent. */
  datatype Row = Row(
    id: string,
    repo: string,
    service_name: Option<string> := None,
    maintainer_email: Option<string> := None,
    ci_id: Option<string> := None,

    open_pr_count: Option<int> := None,
    total_pr_count: Option<int> := None,
    last_master_commit_ci_time: Option<Date> := None,
    last_master_commit_ci_status: Option<string> := None,
    min_approvers: Option<int> := None,
    req_status_checks: Option<string> := None,
    allow_force: Option<bool> := None,

    docker_base_image: Option<string> := None,
    technologies: Option<string> := None,

    unit_test_result: Option<string> := None,
    sonar_status: Option<string> := None,
    coverage_result: Option<string> := None,
    coverage_total_lines: Option<int> := None,

    veracode_app: Option<string> := None,
    veracode_status: Option<string> := None,
    veracode_last_static_scan_date: Option<Date> := None,
    veracode_last_static_scan_result: Option<string> := None,
    veracode_app_profile_url: Option<string> := None,

    veracode_sca_status: Option<string> := None,
    veracode_sca_last_scan_date: Option<Date> := None,
    veracode_sca_vulnerablility_count: Option<int> := None,
    veracode_sca_profile_url: Option<string> := None)

  // Optional-chaining accessors

  /** `data?.manifest?.manifest` */
  function ManifestOf(data: RepoData): Option<Manifest> {
    if data.manifest.Some? then data.manifest.value.manifest else None
  }

  /** `data?.manifest?.github` */
  function GithubOf(data: RepoData): Option<Github> {
    if data.manifest.Some? then data.manifest.value.github else None
  }

  /** `data?.manifest?.dockerfile` */
  function DockerfileOf(data: RepoData): Option<Dockerfile> {
    if data.manifest.Some? then data.manifest.value.dockerfile else None
  }

  /** The record with every property absent, which `{}` reads as. */
  const NoJenkins := Jenkins(None, None, None, None, None, None, None, None)

  /** `data?.jenkins || {}` */
  function JenkinsOf(data: RepoData): Jenkins {
    if data.jenkins.Some? then data.jenkins.value else NoJenkins
  }

  /** `data?.veracode?.components`, an absent list read as an empty one (`find` on it yields nothing). */
  function VeracodeComponents(data: RepoData): seq<VeracodeComponent> {
    if data.veracode.Some? && data.veracode.value.components.Some?
    then data.veracode.value.components.value else []
  }

  /** `data?.veracode_sca?.components`, an absent list read as an empty one. */
  function ScaComponents(data: RepoData): seq<ScaComponent> {
    if data.veracode_sca.Some? && data.veracode_sca.value.components.Some?
    then data.veracode_sca.value.components.value else []
  }

  /** `service.configurations?.dtcom?.ci_id` */
  function CiId(service: Service): Option<string> {
    if service.configurations.Some? && service.configurations.value.dtcom.Some?
    then service.configurations.value.dtcom.value.ci_id else None
  }

  /** `service.docker?.base_image` */
  function ServiceImage(service: Service): Option<string> {
    if service.docker.Some? then service.docker.value.base_image else None
  }
}
