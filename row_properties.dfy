/** What the flattened table promises: which repositories contribute rows and how many,
    in what order, and how each column of a row is derived from the snapshot. */
module RowProperties {
  import opened JsValues
  import opened BomData
  import opened RowSpec

  // ---------------------------------------------------------------------------
  // Fields a service row copies from its base row

  /** The repository-level columns: identity of the repository and source-control data. */
  predicate SameRepoFields(a: Row, b: Row) {
    a.repo == b.repo
    && a.open_pr_count == b.open_pr_count
    && a.total_pr_count == b.total_pr_count
    && a.last_master_commit_ci_time == b.last_master_commit_ci_time
    && a.last_master_commit_ci_status == b.last_master_commit_ci_status
    && a.min_approvers == b.min_approvers
    && a.req_status_checks == b.req_status_checks
    && a.allow_force == b.allow_force
  }

  /** A service row keeps every repository-level column of the base row it copies, and
      takes its identity from the repository, the manifest and the service. */
  lemma ServiceRowOverlay(base: Row, repo: string, manifest: Manifest, service: Service, data: RepoData, host: Host)
    ensures var r := ServiceRow(base, repo, manifest, service, data, host);
      SameRepoFields(r, base)
      && r.id == repo + " - " + Text(service.project_name)
      && r.service_name == Some(Text(manifest.project_name) + " - " + Text(service.project_name))
      && r.maintainer_email == manifest.maintainer_email
      && r.ci_id == CiId(service)
      && r.technologies == Some(TechList(service.technologies))
      && r.docker_base_image == (if base.docker_base_image.Some? then base.docker_base_image else ServiceImage(service))
  {
  }

  // ---------------------------------------------------------------------------
  // Which repositories contribute rows, how many, and in what order

  /** The snapshot's rows are the rows of its repositories in map order: the rows of a
      concatenation of entries are the concatenation of their rows, so later repositories
      never alter rows already produced. */
  lemma {:induction false} BomRowsAppend(a: seq<(string, RepoData)>, b: seq<(string, RepoData)>, host: Host)
    ensures BomRows(a + b, host) == BomRows(a, host) + BomRows(b, host)
    decreases |b|
  {
    if b == [] {
      assert a + b == a;
    } else {
      var n := |b| - 1;
      assert (a + b)[..|a + b| - 1] == a + b[..n];
      assert (a + b)[|a + b| - 1] == b[n];
      BomRowsAppend(a, b[..n], host);
      AppendAssociates(BomRows(a, host), BomRows(b[..n], host), RepoRows(b[n].0, b[n].1, host));
    }
  }

  /** Concatenation regrouped; stated as a lemma so the step of `BomRowsAppend` stays cheap. */
  lemma AppendAssociates<T>(x: seq<T>, y: seq<T>, z: seq<T>)
    ensures (x + y) + z == x + (y + z)
  {
  }

  /** One entry alone yields that repository's rows. */
  lemma BomRowsSingle(repo: string, data: RepoData, host: Host)
    ensures BomRows([(repo, data)], host) == RepoRows(repo, data, host)
  {
  }

  /** A repository named `.github` contributes nothing, whatever its content and wherever it
      sits in the map. */
  lemma GithubRepoSkipped(pre: seq<(string, RepoData)>, data: RepoData, post: seq<(string, RepoData)>, host: Host)
    ensures BomRows(pre + [(GITHUB_REPO, data)] + post, host) == BomRows(pre + post, host)
  {
    BomRowsAppend(pre + [(GITHUB_REPO, data)], post, host);
    BomRowsAppend(pre, [(GITHUB_REPO, data)], host);
    BomRowsAppend(pre, post, host);
    BomRowsSingle(GITHUB_REPO, data, host);
  }

  /** How many rows a repository contributes: none for `.github`, one without a usable
      manifest, otherwise one per declared service. */
  function ExpectedRowCount(repo: string, data: RepoData): nat {
    if repo == GITHUB_REPO then 0
    else if HasServices(ManifestOf(data)) then |ServicesOf(ManifestOf(data))|
    else 1
  }

  function TotalRowCount(repos: seq<(string, RepoData)>): nat {
    if repos == [] then 0
    else TotalRowCount(repos[..|repos| - 1]) + ExpectedRowCount(repos[|repos| - 1].0, repos[|repos| - 1].1)
  }

  lemma RepoRowCount(repo: string, data: RepoData, host: Host)
    ensures |RepoRows(repo, data, host)| == ExpectedRowCount(repo, data)
  {
  }

  /** The table has exactly the sum of the per-repository counts. */
  lemma {:induction false} BomRowCount(repos: seq<(string, RepoData)>, host: Host)
    ensures |BomRows(repos, host)| == TotalRowCount(repos)
  {
    if repos != [] {
      BomRowCount(repos[..|repos| - 1], host);
      RepoRowCount(repos[|repos| - 1].0, repos[|repos| - 1].1, host);
    }
  }

  /** Every row of a repository names that repository, and that repository is not `.github`. */
  lemma RepoRowsNameRepo(repo: string, data: RepoData, host: Host)
    ensures forall k :: 0 <= k < |RepoRows(repo, data, host)| ==>
      RepoRows(repo, data, host)[k].repo == repo && repo != GITHUB_REPO
  {
    if repo != GITHUB_REPO && HasServices(ManifestOf(data)) {
      var base := BaseRow(repo, data, host);
      var m := ManifestOf(data).value;
      var services := ServicesOf(ManifestOf(data));
      forall k | 0 <= k < |services|
        ensures ServiceRow(base, repo, m, services[k], data, host).repo == repo
      {
        ServiceRowOverlay(base, repo, m, services[k], data, host);
      }
    }
  }

  /** Every row of the table is a row of one entry of the map. */
  lemma {:induction false} RowOrigin(repos: seq<(string, RepoData)>, host: Host, k: nat) returns (i: nat, k': nat)
    requires k < |BomRows(repos, host)|
    ensures i < |repos| && k' < |RepoRows(repos[i].0, repos[i].1, host)|
    ensures BomRows(repos, host)[k] == RepoRows(repos[i].0, repos[i].1, host)[k']
  {
    var n := |repos| - 1;
    var prior := BomRows(repos[..n], host);
    if k < |prior| {
      i, k' := RowOrigin(repos[..n], host, k);
      assert repos[..n][i] == repos[i];
    } else {
      i, k' := n, k - |prior|;
    }
  }

  /** No row of the table belongs to `.github`, and every row names a repository of the map. */
  lemma NoGithubRows(repos: seq<(string, RepoData)>, host: Host)
    ensures forall k :: 0 <= k < |BomRows(repos, host)| ==>
      BomRows(repos, host)[k].repo != GITHUB_REPO
      && exists i :: 0 <= i < |repos| && repos[i].0 == BomRows(repos, host)[k].repo
  {
    forall k | 0 <= k < |BomRows(repos, host)|
      ensures BomRows(repos, host)[k].repo != GITHUB_REPO
      ensures exists i :: 0 <= i < |repos| && repos[i].0 == BomRows(repos, host)[k].repo
    {
      var i, k' := RowOrigin(repos, host, k);
      RepoRowsNameRepo(repos[i].0, repos[i].1, host);
    }
  }

  // ---------------------------------------------------------------------------
  // The row of a repository without a usable manifest

  /** Without a truthy project name and a non-empty service list the repository yields its
      base row alone, identified by the repository name and carrying no service columns. */
  lemma BareRepoRow(repo: string, data: RepoData, host: Host)
    requires repo != GITHUB_REPO && !HasServices(ManifestOf(data))
    ensures RepoRows(repo, data, host) == [BaseRow(repo, data, host)]
    ensures var r := BaseRow(repo, data, host);
      r.id == repo && r.repo == repo
      && r.service_name.None? && r.maintainer_email.None? && r.ci_id.None?
      && r.unit_test_result.None? && r.sonar_status.None? && r.coverage_result.None?
      && r.veracode_app.None? && r.veracode_status.None? && r.veracode_sca_status.None?
  {
  }

  // ---------------------------------------------------------------------------
  // Service rows

  /** The k-th row of a repository with a usable manifest belongs to the k-th declared
      service: its id and service name join the names with " - ", its maintainer is the
      manifest's, and its repository-level columns are those of the base row. */
  lemma ServiceRowIdentity(repo: string, data: RepoData, host: Host, k: nat)
    requires repo != GITHUB_REPO && HasServices(ManifestOf(data))
    requires k < |ServicesOf(ManifestOf(data))|
    ensures |RepoRows(repo, data, host)| == |ServicesOf(ManifestOf(data))|
    ensures var m := ManifestOf(data).value;
      var s := ServicesOf(ManifestOf(data))[k];
      var r := RepoRows(repo, data, host)[k];
      r.id == repo + " - " + Text(s.project_name)
      && r.service_name == Some(m.project_name.value + " - " + Text(s.project_name))
      && r.maintainer_email == m.maintainer_email
      && r.ci_id == CiId(s)
      && SameRepoFields(r, BaseRow(repo, data, host))
  {
  }

  /** Two services of one repository whose project names interpolate alike get the same id:
      the generator does not keep ids unique by itself. */
  lemma SameProjectNameCollides(repo: string, data: RepoData, host: Host, i: nat, j: nat)
    requires repo != GITHUB_REPO && HasServices(ManifestOf(data))
    requires i < |ServicesOf(ManifestOf(data))| && j < |ServicesOf(ManifestOf(data))|
    requires Text(ServicesOf(ManifestOf(data))[i].project_name) == Text(ServicesOf(ManifestOf(data))[j].project_name)
    ensures RepoRows(repo, data, host)[i].id == RepoRows(repo, data, host)[j].id
  {
  }

  // ---------------------------------------------------------------------------
  // Source-control columns

  /** Every row of a repository carries the same source-control columns: the minimum number
      of approvers is the configured count when branch protection is on and the count is
      non-zero, else 0; status checks read "Required" exactly when configured, else "None";
      the PR counts, the commit status state and allow-force are copied. */
  lemma GithubColumns(repo: string, data: RepoData, host: Host)
    ensures forall r :: r in RepoRows(repo, data, host) ==> SameRepoFields(r, BaseRow(repo, data, host))
    ensures var b := BaseRow(repo, data, host);
      var gh := GithubOf(data);
      var guarded := gh.Some? && TruthyBool(gh.value.has_main_branch_protection)
        && TruthyInt(gh.value.main_branch_min_approvals);
      (guarded ==> b.min_approvers == gh.value.main_branch_min_approvals)
      && (!guarded ==> b.min_approvers == Some(0))
      && (b.req_status_checks == Some("Required") <==> gh.Some? && TruthyBool(gh.value.main_branch_req_status_checks))
      && (b.req_status_checks == Some("Required") || b.req_status_checks == Some("None"))
      && b.open_pr_count == (if gh.Some? then gh.value.open_pr_count else None)
      && b.total_pr_count == (if gh.Some? then gh.value.total_pr_count else None)
      && b.last_master_commit_ci_status ==
           (if gh.Some? && gh.value.master_status.Some? then gh.value.master_status.value.commit_status_state else None)
      && b.allow_force == (if gh.Some? then gh.value.main_branch_allow_force else None)
  {
  }

  /** The commit time is parsed from `commit_status_time` when it is truthy, otherwise from
      `commit_time`, and from nothing (an invalid date) without GitHub status data. */
  lemma CommitTimeChoice(repo: string, data: RepoData, host: Host)
    ensures var gh := GithubOf(data);
      var t := BaseRow(repo, data, host).last_master_commit_ci_time;
      (gh.None? || gh.value.master_status.None? ==> t == Some(host.parseDate(None)))
      && (gh.Some? && gh.value.master_status.Some? ==>
            var st := gh.value.master_status.value;
            t == Some(host.parseDate(if TruthyString(st.commit_status_time) then st.commit_status_time else st.commit_time)))
  {
  }

  // ---------------------------------------------------------------------------
  // Docker base image

  /** Replacing by nothing removes the first occurrence, wherever it is. */
  lemma StripFirstAt(s: string, pat: string, i: nat)
    requires OccursAt(s, pat, i)
    requires forall j :: 0 <= j < i ==> !OccursAt(s, pat, j)
    ensures ReplaceFirst(s, pat, "") == s[..i] + s[i + |pat|..]
  {
    assert s[..i] + "" == s[..i];
  }

  /** Stripping the placeholder: an image written as `p${BUILD_REGISTRY}q`, where no
      occurrence of the placeholder starts inside `p`, loses exactly that placeholder. */
  lemma PlaceholderStripped(p: string, q: string)
    requires forall j :: 0 <= j < |p| ==> !OccursAt(p + BUILD_REGISTRY + q, BUILD_REGISTRY, j)
    ensures ReplaceFirst(p + BUILD_REGISTRY + q, BUILD_REGISTRY, "") == p + q
  {
    var s := p + BUILD_REGISTRY + q;
    assert OccursAt(s, BUILD_REGISTRY, |p|) by {
      assert s[|p|..|p| + |BUILD_REGISTRY|] == BUILD_REGISTRY;
    }
    StripFirstAt(s, BUILD_REGISTRY, |p|);
    assert s[..|p|] == p;
    assert s[|p| + |BUILD_REGISTRY|..] == q;
  }

  /** In particular when `p` holds no `$`, the placeholder's first character. */
  lemma PlaceholderStrippedDollarFree(p: string, q: string)
    requires '$' !in p
    ensures ReplaceFirst(p + BUILD_REGISTRY + q, BUILD_REGISTRY, "") == p + q
  {
    var s := p + BUILD_REGISTRY + q;
    forall j | 0 <= j < |p|
      ensures !OccursAt(s, BUILD_REGISTRY, j)
    {
      assert s[j] == p[j] != '$' == BUILD_REGISTRY[0];
    }
    PlaceholderStripped(p, q);
  }

  /** An image without the placeholder is kept as written. */
  lemma NoPlaceholderKept(image: string)
    requires forall j :: !OccursAt(image, BUILD_REGISTRY, j)
    ensures ReplaceFirst(image, BUILD_REGISTRY, "") == image
  {
  }

  /** With a truthy Dockerfile base image every row of the repository shows that image,
      placeholder stripped, then ":" and the base version; otherwise a service row shows its
      own declared image and the bare row none. */
  lemma DockerImageColumn(repo: string, data: RepoData, host: Host)
    requires repo != GITHUB_REPO
    ensures var df := DockerfileOf(data);
      HasImage(df) ==> forall r :: r in RepoRows(repo, data, host) ==>
        r.docker_base_image == Some(ReplaceFirst(df.value.base_image.value, BUILD_REGISTRY, "") + ":" + Text(df.value.base_version))
    ensures !HasImage(DockerfileOf(data)) && !HasServices(ManifestOf(data)) ==>
      RepoRows(repo, data, host)[0].docker_base_image.None?
    ensures !HasImage(DockerfileOf(data)) && HasServices(ManifestOf(data)) ==>
      forall k :: 0 <= k < |ServicesOf(ManifestOf(data))| ==>
        RepoRows(repo, data, host)[k].docker_base_image == ServiceImage(ServicesOf(ManifestOf(data))[k])
  {
  }

  // ---------------------------------------------------------------------------
  // Technologies

  /** A service row lists exactly its own service's technologies, whatever the Dockerfile
      declares; a bare row lists the Dockerfile's when it has a base image. */
  lemma TechnologiesColumn(repo: string, data: RepoData, host: Host)
    requires repo != GITHUB_REPO
    ensures HasServices(ManifestOf(data)) ==>
      forall k :: 0 <= k < |ServicesOf(ManifestOf(data))| ==>
        RepoRows(repo, data, host)[k].technologies == Some(TechList(ServicesOf(ManifestOf(data))[k].technologies))
    ensures !HasServices(ManifestOf(data)) ==>
      RepoRows(repo, data, host)[0].technologies ==
        if HasImage(DockerfileOf(data)) then Some(TechList(DockerfileOf(data).value.technologies)) else None
  {
  }

  /** The grid shows the technologies column one line per entry: splitting it on line breaks
      gives back each `name@version` in order, provided there is at least one and none holds
      a line break. */
  lemma TechnologiesRoundTrip(ts: seq<Technology>)
    requires |ts| > 0
    requires forall i :: 0 <= i < |ts| ==> '\n' !in TechEntry(ts[i])
    ensures |SplitLines(TechList(ts))| == |ts|
    ensures forall i :: 0 <= i < |ts| ==> SplitLines(TechList(ts))[i] == Text(ts[i].name) + "@" + Text(ts[i].version)
  {
    SplitJoinLines(TechEntries(ts));
  }

  /** An empty technologies list joins to the empty string, which the grid shows as one
      empty line. */
  lemma NoTechnologiesOneEmptyLine()
    ensures TechList([]) == ""
    ensures SplitLines(TechList([])) == [""]
  {
  }

  // ---------------------------------------------------------------------------
  // Jenkins columns

  /** A service row summarises unit tests as "total / skip / fail" when results are
      available, else "None"; Sonar reads "Skipped" exactly when skipped, "Enabled" exactly
      when available and not skipped, "None" otherwise; coverage is the formatted percentage
      with the analysed line count when the percentage is non-zero, else "None" and no count. */
  lemma JenkinsColumns(repo: string, data: RepoData, host: Host, k: nat)
    requires repo != GITHUB_REPO && HasServices(ManifestOf(data))
    requires k < |ServicesOf(ManifestOf(data))|
    ensures |RepoRows(repo, data, host)| == |ServicesOf(ManifestOf(data))|
    ensures var j := JenkinsOf(data);
      var r := RepoRows(repo, data, host)[k];
      (TruthyBool(j.test_results_available) ==>
         r.unit_test_result ==
           Some(IntText(j.test_total_count) + " / " + IntText(j.test_skip_count) + " / " + IntText(j.test_fail_count)))
      && (!TruthyBool(j.test_results_available) ==> r.unit_test_result == Some("None"))
      && (r.sonar_status == Some("Skipped") <==> TruthyBool(j.sonar_skipped))
      && (r.sonar_status == Some("Enabled") <==> !TruthyBool(j.sonar_skipped) && TruthyBool(j.sonar_available))
      && (r.sonar_status == Some("None") <==> !TruthyBool(j.sonar_skipped) && !TruthyBool(j.sonar_available))
      && (TruthyReal(j.coverage_percent) ==>
            r.coverage_result == Some(host.toPrecision4(j.coverage_percent.value))
            && r.coverage_total_lines == j.coverage_lines_analyzed)
      && (!TruthyReal(j.coverage_percent) ==> r.coverage_result == Some("None") && r.coverage_total_lines.None?)
  {
  }

  // ---------------------------------------------------------------------------
  // Veracode static analysis and software composition analysis

  /** Index `i` holds the first component named `key`. */
  predicate FirstNamed<C>(cs: seq<C>, nameOf: C -> Option<string>, key: Option<string>, i: int) {
    0 <= i < |cs| && nameOf(cs[i]) == key && forall j :: 0 <= j < i ==> nameOf(cs[j]) != key
  }

  /** `FindIndex` finds exactly the first component named `key`. */
  lemma FindIndexFirst<C>(cs: seq<C>, nameOf: C -> Option<string>, key: Option<string>, i: int)
    requires FirstNamed(cs, nameOf, key, i)
    ensures FindIndex(cs, nameOf, key) == Some(i)
  {
  }

  /** The app name shown for a matched component: the actual name when truthy, else the
      declared one; flagged with " (!)" exactly when the declared name is truthy and differs
      from the actual one, so a missing actual name is flagged too. */
  lemma VeracodeAppFlag(c: VeracodeComponent)
    ensures var actual := c.veracode_app_name_actual;
      var declared := c.veracode_app_name;
      var shown := VeracodeAppName(c);
      (TruthyString(actual) && TruthyString(declared) && declared != actual ==> shown == Some(actual.value + " (!)"))
      && (TruthyString(actual) && (declared == actual || !TruthyString(declared)) ==> shown == actual)
      && (!TruthyString(actual) && TruthyString(declared) ==> shown == Some(declared.value + " (!)"))
      && (!TruthyString(actual) && !TruthyString(declared) ==> shown == declared)
  {
  }

  /** A flagged name ends with the marker. */
  lemma FlaggedNameEndsWithMarker(c: VeracodeComponent)
    requires TruthyString(c.veracode_app_name) && c.veracode_app_name != c.veracode_app_name_actual
    ensures var shown := VeracodeAppName(c);
      shown.Some? && |shown.value| >= 4 && shown.value[|shown.value| - 4..] == " (!)"
  {
  }

  /** With no component named after the service its Veracode status is "Missing" and its app
      is the one the service declares; otherwise the first such component supplies status,
      app name, profile url, scan result and, when present, the parsed scan date. */
  lemma VeracodeColumns(repo: string, data: RepoData, host: Host, k: nat)
    requires repo != GITHUB_REPO && HasServices(ManifestOf(data))
    requires k < |ServicesOf(ManifestOf(data))|
    ensures |RepoRows(repo, data, host)| == |ServicesOf(ManifestOf(data))|
    ensures var vcs := VeracodeComponents(data);
      var s := ServicesOf(ManifestOf(data))[k];
      var r := RepoRows(repo, data, host)[k];
      (forall i :: 0 <= i < |vcs| ==> vcs[i].component_name != s.project_name) ==>
        r.veracode_status == Some("Missing") && r.veracode_app == s.veracode_app
        && r.veracode_app_profile_url.None? && r.veracode_last_static_scan_result.None?
        && r.veracode_last_static_scan_date.None?
    ensures var vcs := VeracodeComponents(data);
      var s := ServicesOf(ManifestOf(data))[k];
      var r := RepoRows(repo, data, host)[k];
      forall i :: FirstNamed(vcs, VeracodeName, s.project_name, i) ==>
        r.veracode_status == vcs[i].veracode_status
        && r.veracode_app == VeracodeAppName(vcs[i])
        && r.veracode_app_profile_url == vcs[i].veracode_app_profile_url
        && r.veracode_last_static_scan_result == vcs[i].last_static_scan_result
        && r.veracode_last_static_scan_date ==
             (if TruthyString(vcs[i].last_static_scan_date) then Some(host.parseDate(vcs[i].last_static_scan_date)) else None)
  {
    var vcs := VeracodeComponents(data);
    var s := ServicesOf(ManifestOf(data))[k];
    forall i | FirstNamed(vcs, VeracodeName, s.project_name, i)
      ensures FindIndex(vcs, VeracodeName, s.project_name) == Some(i)
    {
      FindIndexFirst(vcs, VeracodeName, s.project_name, i);
    }
  }

  /** With no SCA component named after the service its SCA status is "Missing"; otherwise
      the first such component supplies status, issue count and profile url, and its scan
      date is parsed whether present or not. */
  lemma ScaColumns(repo: string, data: RepoData, host: Host, k: nat)
    requires repo != GITHUB_REPO && HasServices(ManifestOf(data))
    requires k < |ServicesOf(ManifestOf(data))|
    ensures |RepoRows(repo, data, host)| == |ServicesOf(ManifestOf(data))|
    ensures var scas := ScaComponents(data);
      var s := ServicesOf(ManifestOf(data))[k];
      var r := RepoRows(repo, data, host)[k];
      (forall i :: 0 <= i < |scas| ==> scas[i].component_name != s.project_name) ==>
        r.veracode_sca_status == Some("Missing") && r.veracode_sca_last_scan_date.None?
        && r.veracode_sca_vulnerablility_count.None? && r.veracode_sca_profile_url.None?
    ensures var scas := ScaComponents(data);
      var s := ServicesOf(ManifestOf(data))[k];
      var r := RepoRows(repo, data, host)[k];
      forall i :: FirstNamed(scas, ScaName, s.project_name, i) ==>
        r.veracode_sca_status == scas[i].status
        && r.veracode_sca_last_scan_date == Some(host.parseDate(scas[i].last_scan_date))
        && r.veracode_sca_vulnerablility_count == scas[i].vulnerability_issue_count
        && r.veracode_sca_profile_url == scas[i].profile_url
  {
    var scas := ScaComponents(data);
    var s := ServicesOf(ManifestOf(data))[k];
    forall i | FirstNamed(scas, ScaName, s.project_name, i)
      ensures FindIndex(scas, ScaName, s.project_name) == Some(i)
    {
      FindIndexFirst(scas, ScaName, s.project_name, i);
    }
  }

  // ---------------------------------------------------------------------------
  // Row ids

  /** The part of an id before its first space. */
  function IdRepo(id: string): string {
    if id == "" || id[0] == ' ' then "" else [id[0]] + IdRepo(id[1..])
  }

  lemma {:induction false} IdRepoPrefix(name: string, rest: string)
    requires ' ' !in name
    requires rest == "" || rest[0] == ' '
    ensures IdRepo(name + rest) == name
  {
    if name != "" {
      assert (name + rest)[1..] == name[1..] + rest;
      IdRepoPrefix(name[1..], rest);
      assert [name[0]] + name[1..] == name;
    } else {
      assert name + rest == rest;
    }
  }

  /** Without spaces in the repository name, every id of the repository's rows starts with
      that name followed by a space or the end of the id. */
  lemma RepoIdsNameRepo(repo: string, data: RepoData, host: Host)
    requires ' ' !in repo
    ensures forall k :: 0 <= k < |RepoRows(repo, data, host)| ==>
      IdRepo(RepoRows(repo, data, host)[k].id) == repo && RepoRows(repo, data, host)[k].repo == repo
  {
    if repo == GITHUB_REPO {
    } else if !HasServices(ManifestOf(data)) {
      IdRepoPrefix(repo, "");
      assert repo + "" == repo;
    } else {
      forall k | 0 <= k < |RepoRows(repo, data, host)|
        ensures IdRepo(RepoRows(repo, data, host)[k].id) == repo && RepoRows(repo, data, host)[k].repo == repo
      {
        ServiceIdNamesRepo(repo, data, host, k);
      }
    }
  }

  /** The id of the k-th service row starts with the repository name and a space. */
  lemma ServiceIdNamesRepo(repo: string, data: RepoData, host: Host, k: nat)
    requires ' ' !in repo && repo != GITHUB_REPO && HasServices(ManifestOf(data))
    requires k < |RepoRows(repo, data, host)|
    ensures IdRepo(RepoRows(repo, data, host)[k].id) == repo && RepoRows(repo, data, host)[k].repo == repo
    ensures repo + " " <= RepoRows(repo, data, host)[k].id
  {
    ServiceRowIdentity(repo, data, host, k);
    assert (repo + " - " + Text(ServicesOf(ManifestOf(data))[k].project_name))[..|repo| + 1] == repo + " ";
    var rest := " - " + Text(ServicesOf(ManifestOf(data))[k].project_name);
    IdRepoPrefix(repo, rest);
    assert repo + " - " + Text(ServicesOf(ManifestOf(data))[k].project_name) == repo + rest;
  }

  /** The services of a usable manifest interpolate to pairwise different project names. */
  predicate DistinctServiceNames(data: RepoData) {
    HasServices(ManifestOf(data)) ==>
      forall i, j :: 0 <= i < j < |ServicesOf(ManifestOf(data))| ==>
        Text(ServicesOf(ManifestOf(data))[i].project_name) != Text(ServicesOf(ManifestOf(data))[j].project_name)
  }

  predicate UniqueIds(rows: seq<Row>) {
    forall a, b :: 0 <= a < b < |rows| ==> rows[a].id != rows[b].id
  }

  lemma RepoIdsUnique(repo: string, data: RepoData, host: Host)
    requires DistinctServiceNames(data)
    ensures UniqueIds(RepoRows(repo, data, host))
  {
    if repo != GITHUB_REPO && HasServices(ManifestOf(data)) {
      var rows := RepoRows(repo, data, host);
      var services := ServicesOf(ManifestOf(data));
      forall a, b | 0 <= a < b < |rows|
        ensures rows[a].id != rows[b].id
      {
        ServiceRowIdentity(repo, data, host, a);
        ServiceRowIdentity(repo, data, host, b);
        var prefix := repo + " - ";
        var x, y := Text(services[a].project_name), Text(services[b].project_name);
        assert (prefix + x)[|prefix|..] == x;
        assert (prefix + y)[|prefix|..] == y;
      }
    }
  }

  /** Conditions under which ids are unique: repository names are distinct (as map keys are)
      and hold no space (as GitHub repository names do not), and the services of each
      repository have distinct project names. */
  predicate UniqueIdPremises(repos: seq<(string, RepoData)>) {
    (forall i, j :: 0 <= i < j < |repos| ==> repos[i].0 != repos[j].0)
    && (forall i :: 0 <= i < |repos| ==> ' ' !in repos[i].0 && DistinctServiceNames(repos[i].1))
  }

  /** Under those conditions no two rows of the table share an id. */
  lemma {:induction false} IdsUnique(repos: seq<(string, RepoData)>, host: Host)
    requires UniqueIdPremises(repos)
    ensures UniqueIds(BomRows(repos, host))
  {
    if repos != [] {
      var n := |repos| - 1;
      var init := repos[..n];
      assert forall i :: 0 <= i < n ==> init[i] == repos[i];
      IdsUnique(init, host);
      var prior := BomRows(init, host);
      var last := RepoRows(repos[n].0, repos[n].1, host);
      RepoIdsUnique(repos[n].0, repos[n].1, host);
      RepoIdsNameRepo(repos[n].0, repos[n].1, host);
      var rows := BomRows(repos, host);
      assert rows == prior + last;
      forall a, b | 0 <= a < b < |rows|
        ensures rows[a].id != rows[b].id
      {
        if b < |prior| {
          assert rows[a] == prior[a] && rows[b] == prior[b];
        } else if a >= |prior| {
          assert rows[a] == last[a - |prior|] && rows[b] == last[b - |prior|];
        } else {
          var i, k := RowOrigin(init, host, a);
          RepoIdsNameRepo(init[i].0, init[i].1, host);
          assert rows[a] == prior[a] && rows[b] == last[b - |prior|];
          assert IdRepo(rows[a].id) == init[i].0;
          assert IdRepo(rows[b].id) == repos[n].0;
        }
      }
    }
  }
}
