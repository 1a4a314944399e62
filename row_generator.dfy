/** `generateBomRowData`: the loop over the snapshot's repositories that builds each base
    row, overlays it per declared service and pushes the rows onto one growing table. */
module RowGenerator {
  import opened JsValues
  import opened BomData
  import opened RowSpec

  /** Builds the row a repository starts from: the GitHub fields, then the Dockerfile image
      and technologies when a base image is declared. */
  method BuildBaseRow(repo: string, data: RepoData, host: Host) returns (baseRow: Row)
    ensures baseRow == BaseRow(repo, data, host)
  {
    var github := GithubOf(data);
    var dockerfile := DockerfileOf(data);
    var status := if github.Some? then github.value.master_status else None;

    baseRow := Row(
      id := repo,
      repo := repo,
      open_pr_count := if github.Some? then github.value.open_pr_count else None,
      total_pr_count := if github.Some? then github.value.total_pr_count else None,
      last_master_commit_ci_time := Some(host.parseDate(CommitTimeText(github))),
      last_master_commit_ci_status := if status.Some? then status.value.commit_status_state else None,
      min_approvers := Some(MinApprovers(github)),
      req_status_checks := Some(ReqStatusChecks(github)),
      allow_force := if github.Some? then github.value.main_branch_allow_force else None);

    if dockerfile.Some? && TruthyString(dockerfile.value.base_image) {
      var filteredBaseImage := ReplaceFirst(dockerfile.value.base_image.value, BUILD_REGISTRY, "");
      baseRow := baseRow.(docker_base_image := Some(filteredBaseImage + ":" + Text(dockerfile.value.base_version)));
      baseRow := baseRow.(technologies := Some(TechList(dockerfile.value.technologies)));
    }
  }

  /** Overlays the service's identity on a copy of the base row. */
  method OverlayIdentity(baseRow: Row, repo: string, manifest: Manifest, service: Service) returns (serviceRow: Row)
    ensures serviceRow == baseRow.(
      id := repo + " - " + Text(service.project_name),
      service_name := Some(Text(manifest.project_name) + " - " + Text(service.project_name)),
      maintainer_email := manifest.maintainer_email,
      ci_id := CiId(service),
      veracode_app := service.veracode_app,
      docker_base_image := if baseRow.docker_base_image.Some? then baseRow.docker_base_image else ServiceImage(service),
      technologies := Some(TechList(service.technologies)))
  {
    serviceRow := baseRow;
    serviceRow := serviceRow.(id := repo + " - " + Text(service.project_name));
    serviceRow := serviceRow.(service_name := Some(Text(manifest.project_name) + " - " + Text(service.project_name)));
    serviceRow := serviceRow.(maintainer_email := manifest.maintainer_email);
    serviceRow := serviceRow.(ci_id := CiId(service));
    serviceRow := serviceRow.(veracode_app := service.veracode_app);
    // ??= : fill in only when unset
    if serviceRow.docker_base_image.None? {
      serviceRow := serviceRow.(docker_base_image := ServiceImage(service));
    }
    serviceRow := serviceRow.(technologies := Some(TechList(service.technologies)));
  }

  /** The Jenkins block: test summary, then Sonar state set in order None, Enabled, Skipped,
      then coverage when a non-zero percentage is reported. */
  method OverlayJenkins(row: Row, jenkins: Jenkins, host: Host) returns (serviceRow: Row)
    ensures var covered := TruthyReal(jenkins.coverage_percent);
      serviceRow == row.(
        unit_test_result := Some(UnitTestResult(jenkins)),
        sonar_status := Some(SonarStatus(jenkins)),
        coverage_result := Some(if covered then host.toPrecision4(jenkins.coverage_percent.value) else "None"),
        coverage_total_lines := if covered then jenkins.coverage_lines_analyzed else row.coverage_total_lines)
  {
    serviceRow := row.(unit_test_result := Some(UnitTestResult(jenkins)));
    serviceRow := serviceRow.(sonar_status := Some("None"));
    serviceRow := serviceRow.(coverage_result := Some("None"));
    if TruthyBool(jenkins.sonar_available) {
      serviceRow := serviceRow.(sonar_status := Some("Enabled"));
    }
    if TruthyBool(jenkins.sonar_skipped) {
      serviceRow := serviceRow.(sonar_status := Some("Skipped"));
    }
    if TruthyReal(jenkins.coverage_percent) {
      serviceRow := serviceRow.(coverage_result := Some(host.toPrecision4(jenkins.coverage_percent.value)));
      serviceRow := serviceRow.(coverage_total_lines := jenkins.coverage_lines_analyzed);
    }
  }

  /** The static-analysis block for the component named after the service. */
  method OverlayVeracode(row: Row, vcs: seq<VeracodeComponent>, key: Option<string>, host: Host) returns (serviceRow: Row)
    ensures match FindIndex(vcs, VeracodeName, key)
      case None => serviceRow == row.(veracode_status := Some("Missing"))
      case Some(i) =>
        serviceRow == row.(
          veracode_app := VeracodeAppName(vcs[i]),
          veracode_status := vcs[i].veracode_status,
          veracode_app_profile_url := vcs[i].veracode_app_profile_url,
          veracode_last_static_scan_result := vcs[i].last_static_scan_result,
          veracode_last_static_scan_date :=
            if TruthyString(vcs[i].last_static_scan_date) then Some(host.parseDate(vcs[i].last_static_scan_date))
            else row.veracode_last_static_scan_date)
  {
    var found := FindIndex(vcs, VeracodeName, key);
    serviceRow := row.(veracode_status := Some("Missing"));
    if found.Some? {
      var vc := vcs[found.value];
      serviceRow := serviceRow.(veracode_app :=
        if TruthyString(vc.veracode_app_name_actual) then vc.veracode_app_name_actual else vc.veracode_app_name);
      serviceRow := serviceRow.(veracode_status := vc.veracode_status);
      serviceRow := serviceRow.(veracode_app_profile_url := vc.veracode_app_profile_url);
      serviceRow := serviceRow.(veracode_last_static_scan_result := vc.last_static_scan_result);
      if TruthyString(vc.last_static_scan_date) {
        serviceRow := serviceRow.(veracode_last_static_scan_date := Some(host.parseDate(vc.last_static_scan_date)));
      }
      // += on a possibly undefined string
      if TruthyString(vc.veracode_app_name) && vc.veracode_app_name != vc.veracode_app_name_actual {
        serviceRow := serviceRow.(veracode_app := Some(Text(serviceRow.veracode_app) + " (!)"));
      }
    }
  }

  /** The software-composition-analysis block for the component named after the service. */
  method OverlaySca(row: Row, scas: seq<ScaComponent>, key: Option<string>, host: Host) returns (serviceRow: Row)
    ensures match FindIndex(scas, ScaName, key)
      case None => serviceRow == row.(veracode_sca_status := Some("Missing"))
      case Some(i) =>
        serviceRow == row.(
          veracode_sca_status := scas[i].status,
          veracode_sca_last_scan_date := Some(host.parseDate(scas[i].last_scan_date)),
          veracode_sca_vulnerablility_count := scas[i].vulnerability_issue_count,
          veracode_sca_profile_url := scas[i].profile_url)
  {
    var found := FindIndex(scas, ScaName, key);
    serviceRow := row.(veracode_sca_status := Some("Missing"));
    if found.Some? {
      var sca := scas[found.value];
      serviceRow := serviceRow.(veracode_sca_status := sca.status);
      serviceRow := serviceRow.(veracode_sca_last_scan_date := Some(host.parseDate(sca.last_scan_date)));
      serviceRow := serviceRow.(veracode_sca_vulnerablility_count := sca.vulnerability_issue_count);
      serviceRow := serviceRow.(veracode_sca_profile_url := sca.profile_url);
    }
  }

  /** Builds one service's row from a copy of the base row. */
  method BuildServiceRow(baseRow: Row, repo: string, manifest: Manifest, service: Service, data: RepoData, host: Host)
    returns (serviceRow: Row)
    ensures serviceRow == ServiceRow(baseRow, repo, manifest, service, data, host)
  {
    serviceRow := OverlayIdentity(baseRow, repo, manifest, service);
    serviceRow := OverlayJenkins(serviceRow, JenkinsOf(data), host);
    serviceRow := OverlayVeracode(serviceRow, VeracodeComponents(data), service.project_name, host);
    serviceRow := OverlaySca(serviceRow, ScaComponents(data), service.project_name, host);
  }

  /** Pushes one row per declared service, in declaration order, after the rows so far. */
  method PushServiceRows(rows: seq<Row>, baseRow: Row, repo: string, manifest: Manifest, services: seq<Service>,
                         data: RepoData, host: Host)
    returns (rows': seq<Row>)
    ensures rows' == rows + ServiceRows(baseRow, repo, manifest, services, data, host)
  {
    ghost var expected := ServiceRows(baseRow, repo, manifest, services, data, host);
    rows' := rows;
    for k := 0 to |services|
      invariant rows' == rows + expected[..k]
    {
      var serviceRow := BuildServiceRow(baseRow, repo, manifest, services[k], data, host);
      rows' := rows' + [serviceRow];
      assert expected[..k + 1] == expected[..k] + [serviceRow];
    }
    assert expected[..|services|] == expected;
  }

  /** Flattens a snapshot into grid rows: repositories in map order, `.github` skipped, one
      row for a repository without a usable manifest, else one row per declared service. */
  method GenerateBomRowData(bom: Bom, host: Host) returns (rows: seq<Row>)
    ensures rows == BomRows(bom.repos, host)
  {
    rows := [];
    var i := 0;
    while i < |bom.repos|
      invariant 0 <= i <= |bom.repos|
      invariant rows == BomRows(bom.repos[..i], host)
    {
      var (repo, data) := bom.repos[i];
      i := i + 1;
      assert bom.repos[..i][..i - 1] == bom.repos[..i - 1];

      // Always skip .github
      if repo == GITHUB_REPO {
        continue;
      }

      var baseRow := BuildBaseRow(repo, data, host);
      var manifest := ManifestOf(data);

      if !HasServices(manifest) {
        // This is all that can be rendered without manifest data
        rows := rows + [baseRow];
        continue;
      }

      // One row for each service in the manifest
      rows := PushServiceRows(rows, baseRow, repo, manifest.value, manifest.value.manifests.value, data, host);
    }
    assert bom.repos[..i] == bom.repos;
  }
}
