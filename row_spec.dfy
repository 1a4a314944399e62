/** Reference definition of the flattened table: what `generateBomRowData` yields for a
    snapshot, stated field by field for each row. */
module RowSpec {
  import opened JsValues
  import opened BomData

  /** The repository that holds organisation tooling and is never listed. */
  const GITHUB_REPO := ".github"

  /** The registry placeholder stripped from a Dockerfile's base image. */
  const BUILD_REGISTRY := "${BUILD_REGISTRY}"

  /** A usable manifest: a truthy project name and a non-empty service list. */
  predicate HasServices(m: Option<Manifest>) {
    m.Some? && TruthyString(m.value.project_name)
    && m.value.manifests.Some? && |m.value.manifests.value| > 0
  }

  /** The services of a usable manifest. */
  function ServicesOf(m: Option<Manifest>): seq<Service>
    requires HasServices(m)
  {
    m.value.manifests.value
  }

  /** The Dockerfile declares a truthy base image. */
  predicate HasImage(df: Option<Dockerfile>) {
    df.Some? && TruthyString(df.value.base_image)
  }

  /** The text handed to `new Date`: `commit_status_time || commit_time`. */
  function CommitTimeText(gh: Option<Github>): Option<string> {
    if gh.None? || gh.value.master_status.None? then None
    else
      var st := gh.value.master_status.value;
      if TruthyString(st.commit_status_time) then st.commit_status_time else st.commit_time
  }

  /** `has_main_branch_protection && main_branch_min_approvals || 0` */
  function MinApprovers(gh: Option<Github>): int {
    if gh.Some? && TruthyBool(gh.value.has_main_branch_protection) && TruthyInt(gh.value.main_branch_min_approvals)
    then gh.value.main_branch_min_approvals.value else 0
  }

  /** `main_branch_req_status_checks && 'Required' || 'None'` */
  function ReqStatusChecks(gh: Option<Github>): string {
    if gh.Some? && TruthyBool(gh.value.main_branch_req_status_checks) then "Required" else "None"
  }

  /** `${base_image.replace('${BUILD_REGISTRY}', '')}:${base_version}` */
  function DockerImage(df: Dockerfile): string {
    ReplaceFirst(Text(df.base_image), BUILD_REGISTRY, "") + ":" + Text(df.base_version)
  }

  /** `${t.name}@${t.version}` */
  function TechEntry(t: Technology): string {
    Text(t.name) + "@" + Text(t.version)
  }

  /** The technology entries of a list, in order. */
  function TechEntries(ts: seq<Technology>): seq<string> {
    seq(|ts|, i requires 0 <= i < |ts| => TechEntry(ts[i]))
  }

  /** `ts.map(t => `${t.name}@${t.version}`).join('\n')` */
  function TechList(ts: seq<Technology>): string {
    Join(TechEntries(ts), "\n")
  }

  /** `test_results_available ? `${total} / ${skip} / ${fail}` : 'None'` */
  function UnitTestResult(j: Jenkins): string {
    if TruthyBool(j.test_results_available)
    then IntText(j.test_total_count) + " / " + IntText(j.test_skip_count) + " / " + IntText(j.test_fail_count)
    else "None"
  }

  /** Sonar state: an explicit skip wins over availability. */
  function SonarStatus(j: Jenkins): string {
    if TruthyBool(j.sonar_skipped) then "Skipped"
    else if TruthyBool(j.sonar_available) then "Enabled"
    else "None"
  }

  /** The Veracode app name shown for a matched component: the actual name, falling back to
      the declared one, flagged with " (!)" when a declared name differs from the actual one. */
  function VeracodeAppName(c: VeracodeComponent): Option<string> {
    var app := if TruthyString(c.veracode_app_name_actual) then c.veracode_app_name_actual else c.veracode_app_name;
    if TruthyString(c.veracode_app_name) && c.veracode_app_name != c.veracode_app_name_actual
    then Some(Text(app) + " (!)")
    else app
  }

  /** The name a component is matched by. */
  function VeracodeName(c: VeracodeComponent): Option<string> { c.component_name }

  /** The name an SCA component is matched by. */
  function ScaName(c: ScaComponent): Option<string> { c.component_name }

  /** The row every repository starts from: identity and source-control fields, and the
      Dockerfile's image and technologies when it declares a base image. */
  function BaseRow(repo: string, data: RepoData, host: Host): Row {
    var gh := GithubOf(data);
    var df := DockerfileOf(data);
    var st := if gh.Some? then gh.value.master_status else None;
    Row(
      id := repo,
      repo := repo,
      open_pr_count := if gh.Some? then gh.value.open_pr_count else None,
      total_pr_count := if gh.Some? then gh.value.total_pr_count else None,
      last_master_commit_ci_time := Some(host.parseDate(CommitTimeText(gh))),
      last_master_commit_ci_status := if st.Some? then st.value.commit_status_state else None,
      min_approvers := Some(MinApprovers(gh)),
      req_status_checks := Some(ReqStatusChecks(gh)),
      allow_force := if gh.Some? then gh.value.main_branch_allow_force else None,
      docker_base_image := if HasImage(df) then Some(DockerImage(df.value)) else None,
      technologies := if HasImage(df) then Some(TechList(df.value.technologies)) else None)
  }

  /** The row of one declared service: a copy of the base row overlaid with the service's
      identity, its own technologies (and image where the base row has none), the Jenkins
      results, and the first static-analysis and composition-analysis components named after
      the service ("Missing" where there is none). */
  function ServiceRow(base: Row, repo: string, manifest: Manifest, service: Service, data: RepoData, host: Host): Row {
    var j := JenkinsOf(data);
    var covered := TruthyReal(j.coverage_percent);
    var vcs := VeracodeComponents(data);
    var vi := FindIndex(vcs, VeracodeName, service.project_name);
    var scas := ScaComponents(data);
    var si := FindIndex(scas, ScaName, service.project_name);
    base.(
      id := repo + " - " + Text(service.project_name),
      service_name := Some(Text(manifest.project_name) + " - " + Text(service.project_name)),
      maintainer_email := manifest.maintainer_email,
      ci_id := CiId(service),
      docker_base_image := if base.docker_base_image.Some? then base.docker_base_image else ServiceImage(service),
      technologies := Some(TechList(service.technologies)),
      unit_test_result := Some(UnitTestResult(j)),
      sonar_status := Some(SonarStatus(j)),
      coverage_result := Some(if covered then host.toPrecision4(j.coverage_percent.value) else "None"),
      coverage_total_lines := if covered then j.coverage_lines_analyzed else base.coverage_total_lines,
      veracode_app := if vi.Some? then VeracodeAppName(vcs[vi.value]) else service.veracode_app,
      veracode_status := if vi.Some? then vcs[vi.value].veracode_status else Some("Missing"),
      veracode_app_profile_url :=
        if vi.Some? then vcs[vi.value].veracode_app_profile_url else base.veracode_app_profile_url,
      veracode_last_static_scan_result :=
        if vi.Some? then vcs[vi.value].last_static_scan_result else base.veracode_last_static_scan_result,
      veracode_last_static_scan_date :=
        if vi.Some? && TruthyString(vcs[vi.value].last_static_scan_date)
        then Some(host.parseDate(vcs[vi.value].last_static_scan_date))
        else base.veracode_last_static_scan_date,
      veracode_sca_status := if si.Some? then scas[si.value].status else Some("Missing"),
      veracode_sca_last_scan_date :=
        if si.Some? then Some(host.parseDate(scas[si.value].last_scan_date)) else base.veracode_sca_last_scan_date,
      veracode_sca_vulnerablility_count :=
        if si.Some? then scas[si.value].vulnerability_issue_count else base.veracode_sca_vulnerablility_count,
      veracode_sca_profile_url :=
        if si.Some? then scas[si.value].profile_url else base.veracode_sca_profile_url)
  }
  /** One row per declared service, in declaration order. */
  function ServiceRows(base: Row, repo: string, manifest: Manifest, services: seq<Service>, data: RepoData, host: Host): seq<Row> {
    seq(|services|, k requires 0 <= k < |services| => ServiceRow(base, repo, manifest, services[k], data, host))
  }

  /** The rows one repository contributes, in service declaration order. */
  function RepoRows(repo: string, data: RepoData, host: Host): seq<Row> {
    if repo == GITHUB_REPO then []
    else
      var base := BaseRow(repo, data, host);
      var m := ManifestOf(data);
      if !HasServices(m) then [base]
      else
        ServiceRows(base, repo, m.value, ServicesOf(m), data, host)
  }

  /** The rows of a whole snapshot: each repository's rows, repositories in map order. */
  function BomRows(repos: seq<(string, RepoData)>, host: Host): seq<Row> {
    if repos == [] then []
    else BomRows(repos[..|repos| - 1], host) + RepoRows(repos[|repos| - 1].0, repos[|repos| - 1].1, host)
  }
}
