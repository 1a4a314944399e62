# sbom-report row generator, modelled in Dafny

sbom-report shows a bill-of-materials snapshot as a grid. A snapshot (`IBomData`) maps each
repository name to the records that the scanners (`manifest`, `jenkins`, `veracode`,
`veracode_sca`, ...) produced for it. `generateBomRowData` flattens one snapshot into grid rows
(`IBomRowData`):

- `.github` is skipped.
- Every other repository gets a base row holding its GitHub and Dockerfile data.
- A repository without a usable manifest contributes that base row alone.
- Otherwise the repository contributes one copy of the base row per service declared in its
  manifest. Each copy is overlaid with:
  - the service's identity and technologies;
  - the Jenkins test, Sonar and coverage results;
  - the first Veracode static-analysis component named after the service;
  - the first software-composition-analysis (SCA) component named after the service.

The project has the following modules.

- `JsValues` (`js_values.dfy`) covers the JavaScript semantics the generator relies on:
  - `undefined`, as `Option`;
  - truthiness;
  - template interpolation (an absent value prints "undefined");
  - `String.replace` with a string pattern (first occurrence only);
  - `Array.find`, `join`, and the grid's `split('\n')`.
- `BomData` (`bom_data.dfy`) holds the snapshot and row shapes.
  - Every property the generator reads through optional chaining is an `Option`.
  - The host's `new Date(...)` and `toPrecision(4)` are the two fields of a `Host` value passed
    in.
- `RowSpec` (`row_spec.dfy`) is the reference definition of the table: `BaseRow`, `ServiceRow`,
  `RepoRows` and `BomRows`.
- `RowGenerator` (`row_generator.dfy`) is the generator itself, as imperative code:
  - a `while` loop over the repositories, with `continue` for `.github` and for repositories
    without a manifest;
  - an inner `for` loop pushing one row per service;
  - a stepwise field-by-field overlay of each row, as the source writes it.

  Each method is proved equal to its `RowSpec` counterpart.
- `RowProperties` (`row_properties.dfy`) proves what the table promises:
  - how many rows there are, and in what order;
  - `.github` never appears;
  - which columns come from where, and the rule for every column;
  - the image placeholder stripping;
  - the technologies round trip through the grid's line splitting;
  - when row ids are unique, and how they collide otherwise.
- `RowScenarios` (`row_scenarios.dfy`) works through concrete snapshots.

Where the documented contract of the generator and its code differ, the model follows the code:

- The unit-test summary is written `total / skip / fail`, with spaces around the slashes.
- A service row's id is `repo - project` whenever the manifest declares services, even a single
  service.
- Row ids are not unique in general. Two services with the same project name collide
  (`RowProperties.SameProjectNameCollides`). So do a repository named `E - x` without a manifest
  and service `x` of repository `E` (`RowScenarios.CrossRepositoryScenario`). Uniqueness is
  proved under explicit premises (`RowProperties.IdsUnique`).
- The Veracode app name is flagged with " (!)" only when the declared name is truthy and differs
  from the actual name. A component with a declared name but no actual name is flagged too, and
  shows the declared name.

## Model

| member | source | states |
|---|---|---|
| JsValues.FirstOccurrenceFrom | src/util/bom-data.ts:85 | the result is the least index at or after `k` where the pattern occurs; None means it occurs nowhere from `k` on |
| JsValues.FirstOccurrence | src/util/bom-data.ts:85 | the least index where the pattern occurs, with no earlier occurrence; None means no occurrence at all |
| JsValues.FindFrom | src/util/bom-data.ts:138 | the least index at or after `k` whose element is named `key`; None means no element from `k` on is named `key` |
| JsValues.FindIndex | src/util/bom-data.ts:126 | `find` by name: the first element whose name strictly equals the key, and None exactly when no element has that name |
| JsValues.ReplaceFirst | src/util/bom-data.ts:85 | `replace` with a string pattern: a string without an occurrence comes back unchanged, and otherwise the least index where the pattern occurs is replaced and nothing else changes; proved from `FirstOccurrence`'s contract |
| JsValues.Join | src/util/bom-data.ts:110 | definition of `.join(sep)` (used at lines 88 and 110); its properties are `JoinShape`, and its round trip through the grid's split is `SplitJoinLines` |
| JsValues.JoinShape | src/util/bom-data.ts:88 | joining no parts gives ""; otherwise its length is the parts' total length plus one separator between each pair of neighbours, and it starts with the first part and ends with the last |
| JsValues.Text | src/util/bom-data.ts:101-102 | definition of template interpolation of a string property (also lines 86, 88, 110): a present string as itself, an absent one as "undefined"; no lemma |
| JsValues.IntText | src/util/bom-data.ts:113 | definition of template interpolation of a count: a sign, then `NatText`'s digits, or "undefined" when absent; the digits are characterised by `NatText`'s contract and `NatTextValue` |
| JsValues.NatText | src/util/bom-data.ts:113 | the decimal text of a natural number is non-empty, all digits, and starts with '0' exactly when the number is 0 |
| JsValues.NatTextValue | src/util/bom-data.ts:113 | the decimal text of `n`, read back digit by digit, denotes exactly `n` |
| JsValues.SplitLines | src/BomTable.tsx:9 | splitting a string on line breaks always yields at least one piece |
| JsValues.SplitLinesNoBreak | src/BomTable.tsx:9 | a string without a line break splits into itself alone |
| JsValues.SplitLinesAfterBreak | src/BomTable.tsx:9 | splitting `a + "\n" + b`, where `a` has no line break, gives `a` followed by the pieces of `b` |
| JsValues.SplitJoinLines | src/BomTable.tsx:7-11 | splitting a newline-joined non-empty list of break-free strings gives the list back |
| RowGenerator.BuildBaseRow | src/util/bom-data.ts:68-89 | the base row built field by field, with the Dockerfile image and technologies set only for a truthy base image, equals `RowSpec.BaseRow` |
| RowGenerator.OverlayIdentity | src/util/bom-data.ts:99-110 | the copy gets the service's id, service name, maintainer, CI id, declared app and own technologies; the image is filled in only when the base row has none (`??=`); every other field is the base row's |
| RowGenerator.OverlayJenkins | src/util/bom-data.ts:113-123 | the test summary is set; Sonar resolves to Skipped over Enabled over None; coverage is formatted and the line count copied only for a non-zero percentage; every other field is kept |
| RowGenerator.OverlayVeracode | src/util/bom-data.ts:126-135 | with no component of the service's name only the status changes, to "Missing"; otherwise the first such component supplies the flagged app name, status, url, scan result, and the scan date when truthy |
| RowGenerator.OverlaySca | src/util/bom-data.ts:138-145 | with no SCA component of the service's name only the status changes, to "Missing"; otherwise the first such component supplies status, parsed date, issue count and url |
| RowGenerator.BuildServiceRow | src/util/bom-data.ts:99-145 | the four overlays in sequence equal `RowSpec.ServiceRow` |
| RowGenerator.PushServiceRows | src/util/bom-data.ts:98-148 | the inner loop appends exactly the service rows, in declaration order, after the rows already produced |
| RowGenerator.GenerateBomRowData | src/util/bom-data.ts:55-152 | the loop over the map's entries returns exactly `RowSpec.BomRows` of the snapshot's repositories |
| RowProperties.ServiceRowOverlay | src/util/bom-data.ts:99-110 | a service row keeps all repository-level columns of its base row, and takes its id, service name, maintainer, CI id, technologies and (`??=`) image as the source assigns them |
| RowProperties.BomRowsAppend | src/util/bom-data.ts:58 | the rows of concatenated entries are the concatenated rows: repositories contribute in map order, and later ones never alter earlier rows |
| RowProperties.BomRowsSingle | src/util/bom-data.ts:58-149 | a single entry yields that repository's rows |
| RowProperties.GithubRepoSkipped | src/util/bom-data.ts:65 | inserting a `.github` entry anywhere, with any content, leaves the table unchanged |
| RowProperties.RepoRowCount | src/util/bom-data.ts:91-98 | a repository contributes 0 rows for `.github`, one per declared service with a usable manifest, and 1 otherwise |
| RowProperties.BomRowCount | src/util/bom-data.ts:56-151 | the table's length is the sum of the per-repository counts |
| RowProperties.RepoRowsNameRepo | src/util/bom-data.ts:69-70 | every row of a repository carries that repository's name, and that repository is not `.github` |
| RowProperties.RowOrigin | src/util/bom-data.ts:58-148 | every row of the table is a row of some entry of the map |
| RowProperties.NoGithubRows | src/util/bom-data.ts:65-70 | no row belongs to `.github`, and every row names a repository of the map |
| RowProperties.BareRepoRow | src/util/bom-data.ts:91-95 | without a truthy project name and a non-empty service list the repository yields its base row alone: id and repo are the name, and there are no service, Jenkins or compliance columns |
| RowProperties.ServiceRowIdentity | src/util/bom-data.ts:99-104 | the k-th row of a repository with services belongs to the k-th service: id `repo - project`, service name `manifest project - project`, the manifest's maintainer, the service's CI id, and the base row's repository columns |
| RowProperties.SameProjectNameCollides | src/util/bom-data.ts:101 | two services of one repository whose project names interpolate alike get the same id |
| RowProperties.GithubColumns | src/util/bom-data.ts:74-80 | all rows of a repository share its source-control columns. Approvers is the configured count only under branch protection with a non-zero count, else 0. Status checks read "Required" exactly when configured, else "None". Both PR counts, the commit status state and allow-force are copied |
| RowProperties.CommitTimeChoice | src/util/bom-data.ts:76 | the commit time is parsed from the status time when truthy, else from the commit time, and from `undefined` without status data |
| RowProperties.StripFirstAt | src/util/bom-data.ts:85 | replacing the pattern by nothing removes exactly its first occurrence |
| RowProperties.PlaceholderStripped | src/util/bom-data.ts:85 | an image `p${BUILD_REGISTRY}q`, where no placeholder occurrence starts inside `p`, becomes `pq` |
| RowProperties.PlaceholderStrippedDollarFree | src/util/bom-data.ts:85 | in particular, when `p` holds no `$`, `p${BUILD_REGISTRY}q` becomes `pq` |
| RowProperties.NoPlaceholderKept | src/util/bom-data.ts:85 | an image without the placeholder is left as written |
| RowProperties.DockerImageColumn | src/util/bom-data.ts:84-107 | with a truthy Dockerfile image every row shows it, stripped and suffixed with `:version`; otherwise service rows show their own declared image and the bare row shows none |
| RowProperties.TechnologiesColumn | src/util/bom-data.ts:109-110 | a service row lists exactly its own service's `name@version` entries, never the Dockerfile's; a bare row lists the Dockerfile's when it has a base image |
| RowProperties.TechnologiesRoundTrip | src/BomTable.tsx:7-11 | the grid's line splitting of the technologies column gives back one `name@version` per technology, in order |
| RowProperties.NoTechnologiesOneEmptyLine | src/util/bom-data.ts:109-110 | an empty technologies list joins to "", which the grid's split shows as one empty line |
| RowProperties.JenkinsColumns | src/util/bom-data.ts:113-123 | the test summary is `total / skip / fail` when available, else "None". Sonar is Skipped iff skipped, Enabled iff available and not skipped, None otherwise. Coverage and its line count are set iff the percentage is non-zero |
| RowProperties.FindIndexFirst | src/util/bom-data.ts:126 | when index `i` holds the first component of the name, `find` returns exactly it |
| RowProperties.VeracodeAppFlag | src/util/bom-data.ts:129-134 | the four cases of the shown app name: the actual name if truthy, else the declared one, suffixed " (!)" exactly when the declared name is truthy and differs from the actual one |
| RowProperties.FlaggedNameEndsWithMarker | src/util/bom-data.ts:134 | a truthy declared name differing from the actual one yields a shown name ending in " (!)" |
| RowProperties.VeracodeColumns | src/util/bom-data.ts:126-135 | with no component of the service's name: "Missing", the service's own app, and no url, result or date; otherwise the first match supplies every static-analysis column, and the date only when truthy |
| RowProperties.ScaColumns | src/util/bom-data.ts:138-145 | with no SCA component of the service's name: "Missing" and no other SCA columns; otherwise the first match supplies status, issue count and url, and its date is parsed unconditionally |
| RowProperties.RepoIdsNameRepo | src/util/bom-data.ts:101 | for a repository name without spaces, every row id starts with that name, followed by a space or the end of the id |
| RowProperties.ServiceIdNamesRepo | src/util/bom-data.ts:101 | the id of each service row of a repository whose name has no space begins with that name followed by a space |
| RowProperties.RepoIdsUnique | src/util/bom-data.ts:101 | the rows of one repository have distinct ids when its services' project names interpolate distinctly |
| RowProperties.IdsUnique | src/util/bom-data.ts:18 | with distinct repository names without spaces, and distinct service names per repository, no two rows of the table share an id |
| RowScenarios.OneServiceScenario | src/util/bom-data.ts:98-147 | repository A with service svc1 yields one row `A - svc1` with the manifest's maintainer and both compliance statuses "Missing" |
| RowScenarios.OnlyGithubScenario | src/util/bom-data.ts:65 | a snapshot holding only `.github` yields no rows |
| RowScenarios.NoManifestScenario | src/util/bom-data.ts:68-95 | a repository with no scanner data yields one row with 0 approvers, "None" status checks, and a commit time parsed from `undefined` |
| RowScenarios.ZeroCoverageScenario | src/util/bom-data.ts:120-123 | a coverage percentage of 0 reads as no coverage: "None", and no line count |
| RowScenarios.CrossRepositoryScenario | src/util/bom-data.ts:69-101 | repository `E - x` without a manifest and service `x` of repository `E` produce two rows with the same id |
| RowScenarios.MismatchedAppScenario | src/util/bom-data.ts:129-134 | declared `web-app` against actual `web-app-prod` shows `web-app-prod (!)` |

## Left out

- The host's `new Date(text)` and `Number.prototype.toPrecision(4)` are parameters (`Host`). The model fixes which text each is applied to and when, not what they return.
- JSON `null` and a missing property are both read as absent (`None`). So where the source interpolates a `null` (a project name, a technology's name or version, a base version, a test count), it shows "null", but the model shows "undefined". Likewise the source's `find` (`===`) does not match a `null` component name against a missing project name, but `FindIndex` treats the two as equal.
- Number formatting (`IntText`) writes integers in decimal. Numbers beyond the safe-integer range and fractional counts are not modelled.
- The two technologies lists are required sequences. The source's `.map` on an absent list throws, and the model has no such exception path.
- `Object.entries` ordering: the map is given as the sequence of its entries in iteration order. JavaScript's rule that integer-like keys come first is not modelled.
- A repository whose scanner mapping is itself `null` is read only through optional chaining, so it behaves as a mapping with no scanner records. The model covers it as `RepoData(None, None, None, None)`, which yields one bare row.
- The row properties `messages` and `veracode_last_compliance_check` are declared in `IBomRowData`, but the generator never sets them. They are not part of `Row`.
- Scanner records the generator does not read are not modelled. The snapshot's `scan_date`, `scan_start_utc_time`, `scan_elapsed_ms`, `orgs`, `repo_whitelist` and `scanners` are carried in `Bom`, but the generator never reads them.
- The grid UI (src/BomTable.tsx) is not part of this model: columns, visibility, filters, the footer's `Math.ceil` of elapsed seconds, and fetching the snapshot. The line splitting of its multi-line renderer is modelled as the partner of the technologies join.
- The data loader and app shell (src/App.tsx) and the build-time file listing (.github/workflows/list-boms.js) are not part of this model.
- Rows are values. In the source, a service row is a shallow copy (`{...baseRow}`), so all service rows of a repository share the one `Date` object built for the commit time. Nothing mutates that object afterwards, so modelling rows as values loses no behaviour.
