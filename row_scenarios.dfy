/** Concrete snapshots and the rows they flatten to. */
module RowScenarios {
  import opened JsValues
  import opened BomData
  import opened RowSpec
  import opened RowProperties

  /** A repository with no scanner data at all. */
  const NoScanners := RepoData(None, None, None, None)

  /** A service with only a project name. */
  function NamedService(name: string): Service {
    Service(Some(name), None, None, None, [])
  }

  /** A repository whose manifest has project `project` and the given services. */
  function WithManifest(project: string, email: Option<string>, services: seq<Service>): RepoData {
    RepoData(Some(ManifestScan(Some(Manifest(Some(project), email, Some(services))), None, None)), None, None, None)
  }

  /** One repository "A" declaring service "svc1": one row "A - svc1" with the manifest's
      maintainer and both compliance scans "Missing". */
  lemma OneServiceScenario(host: Host)
    ensures var rows := BomRows([("A", WithManifest("A", Some("x@y.com"), [NamedService("svc1")]))], host);
      |rows| == 1 && rows[0].id == "A - svc1" && rows[0].repo == "A"
      && rows[0].service_name == Some("A - svc1")
      && rows[0].maintainer_email == Some("x@y.com")
      && rows[0].veracode_status == Some("Missing")
      && rows[0].veracode_sca_status == Some("Missing")
  {
  }

  /** A snapshot holding only `.github` yields no rows. */
  lemma OnlyGithubScenario(data: RepoData, host: Host)
    ensures BomRows([(".github", data)], host) == []
  {
  }

  /** A repository without any scanner data yields one row carrying its name and the
      defaults: no PR counts, 0 approvers, "None" status checks, an unparsed commit time. */
  lemma NoManifestScenario(host: Host)
    ensures var rows := BomRows([("B", NoScanners)], host);
      |rows| == 1 && rows[0].id == "B" && rows[0].repo == "B"
      && rows[0].service_name.None? && rows[0].open_pr_count.None?
      && rows[0].min_approvers == Some(0) && rows[0].req_status_checks == Some("None")
      && rows[0].last_master_commit_ci_time == Some(host.parseDate(None))
      && rows[0].docker_base_image.None? && rows[0].technologies.None?
  {
    BomRowsSingle("B", NoScanners, host);
  }

  /** A reported coverage of 0 reads as no coverage. */
  lemma ZeroCoverageScenario(host: Host)
    ensures var jenkins := NoJenkins.(coverage_percent := Some(0.0), coverage_lines_analyzed := Some(120));
      var data := WithManifest("C", None, [NamedService("api")]).(jenkins := Some(jenkins));
      var rows := BomRows([("C", data)], host);
      |rows| == 1 && rows[0].coverage_result == Some("None") && rows[0].coverage_total_lines.None?
  {
  }

  /** A repository named "E - x" without a manifest collides with service "x" of
      repository "E": distinct map keys alone do not keep ids unique. */
  lemma CrossRepositoryScenario(host: Host)
    ensures var rows := BomRows([("E", WithManifest("E", None, [NamedService("x")])), ("E - x", NoScanners)], host);
      |rows| == 2 && rows[0].id == rows[1].id == "E - x"
  {
    var data := WithManifest("E", None, [NamedService("x")]);
    var first := RepoRows("E", data, host);
    var second := RepoRows("E - x", NoScanners, host);
    ServiceRowIdentity("E", data, host, 0);
    assert "E" + " - " + "x" == "E - x";
    assert |first| == 1 && first[0].id == "E - x";
    BareRepoRow("E - x", NoScanners, host);
    assert |second| == 1 && second[0].id == "E - x";
    BomRowsAppend([("E", data)], [("E - x", NoScanners)], host);
    assert [("E", data)] + [("E - x", NoScanners)] == [("E", data), ("E - x", NoScanners)];
    BomRowsSingle("E", data, host);
    BomRowsSingle("E - x", NoScanners, host);
  }

  /** A component whose declared app name differs from the actual one shows the actual name
      flagged with " (!)". */
  lemma MismatchedAppScenario(host: Host)
    ensures var vc := VeracodeComponent(Some("web"), Some("web-app"), Some("web-app-prod"), Some("Compliant"), None, None, None);
      var data := WithManifest("F", None, [NamedService("web")]).(veracode := Some(Veracode(Some([vc]))));
      var rows := BomRows([("F", data)], host);
      |rows| == 1 && rows[0].veracode_app == Some("web-app-prod (!)") && rows[0].veracode_status == Some("Compliant")
  {
    var vc := VeracodeComponent(Some("web"), Some("web-app"), Some("web-app-prod"), Some("Compliant"), None, None, None);
    var data := WithManifest("F", None, [NamedService("web")]).(veracode := Some(Veracode(Some([vc]))));
    BomRowsSingle("F", data, host);
    VeracodeColumns("F", data, host, 0);
    assert FirstNamed(VeracodeComponents(data), VeracodeName, Some("web"), 0);
    assert "web-app-prod" + " (!)" == "web-app-prod (!)";
  }
}
