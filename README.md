# Jenkins job and maven resources, modelled in Dafny

This project models the resource layer of a typed Rust client for the Jenkins
REST API. The layer covers:

- **Jobs.** A job is a tagged family. Seven known variants are selected by the
  server's `_class` discriminator, and all of them embed one record of common
  fields. Any other discriminator, or none, decodes to the `Unknown` catch-all,
  which keeps the discriminator.
- **Field accessors.** `url`, `name`, `buildable`, `last_build`, `builds` and
  `health_report` return the field for every known variant. On `Unknown` they
  fail with `InvalidObjectType`, which names the field and the captured
  discriminator.
- **Smaller families.** `SCM`, `Property` and `Browser` are tagged families of
  the same kind. `BallColor` is a closed enumeration decoded from fixed names.
- **Kind-checked navigation.** Resolving a `ShortJob` to a `Job` and a
  `ShortMavenArtifactRecord` to a `MavenArtifactRecord` works the same way. So
  do the job actions enable, disable, add to view, remove from view and poll
  SCM. Each classifies the resource URL into a typed `Path`. If the path is
  the expected kind, it issues exactly one GET or POST. If not, it fails with
  `InvalidUrl` and issues nothing. The exception is a job of the `Unknown`
  variant: its actions classify nothing and fail with the `url` accessor's
  `InvalidObjectType`.
- **Defaults** of `BallColor`, `SCM`, `Browser` and `ShortMavenArtifactRecord`.

Everything in the core is pure case analysis, so the model uses datatypes,
functions and lemmas. The modules are:

- `Client` (client.dfy): the client module the core uses. It holds names,
  typed paths, errors, and the client as a collaborator.
  - `Jenkins` has two opaque function fields: `urlToPath` (the URL codec) and
    `transport` (answers one request).
  - Every navigation call returns a `Call`: its result plus the list of
    requests it issued. This is how "no request" and "exactly this request"
    are stated.
- `Tagged` (tagged.dfy): the dispatch shared by all tagged families. A family
  is a table of (discriminator, variant) pairs, looked up by the first entry
  that matches.
- `Links` (links.dfy): the short build and queue-item links a job holds.
- `Jobs` (job.dfy): models src/job.rs.
- `Maven` (maven.dfy): models src/action/maven.rs.

JSON is not parsed here. The JSON codec is a parameter `json` of the fetching
operations. It turns a response body into a payload: the discriminator (absent
or present) plus the fields it has already decoded. The tagged decoders
(`DecodeJob`, `DecodeSCM`, `DecodeProperty`, `DecodeBrowser`) map such a
payload to a variant.

Two details of the error paths:

- The accessors fail with `InvalidObjectType`, which carries the object type,
  the action `GetField(<field>)` and the variant name.
- The job actions accept only `Path::Job` with no nested configuration.

## Model

| member | source | states |
|---|---|---|
| `Tagged.Lookup` | src/job.rs:78-80 | Returns the variant of the first table entry whose discriminator equals the key. Returns none exactly when no entry carries the key. |
| `Tagged.LookupEntry` | src/job.rs:133-209 | When the discriminators of a family are distinct, each entry is found under its own discriminator, so dispatch by `_class` is deterministic. |
| `Tagged.Classify` | src/job.rs:78-80 | A payload selects a known variant exactly when it has a discriminator and that discriminator is in the family's table. A missing discriminator never selects one. |
| `Jobs.DecodeBallColor` | src/job.rs:12-45 | A decoded colour has the given wire name. Decoding fails exactly when no colour has that name, so there is no fallback colour. |
| `Jobs.BallColorNamesDistinct` | src/job.rs:12-45 | The fourteen wire names of the colours are pairwise distinct. |
| `Jobs.BallColorRoundTrip` | src/job.rs:13-44 | Decoding the wire name of any colour gives back that colour, including the renamed `notbuilt` and `notbuilt_anime`. |
| `Jobs.DefaultBallColor` | src/job.rs:46-50 | The default colour is the one whose wire name is `notbuilt`, that is, the never-built colour. |
| `Jobs.DecodeBrowser` | src/job.rs:489-495 | Browser decoding is total and keeps the discriminator it was given. It yields the catch-all exactly when the discriminator is not GithubWeb's. |
| `Jobs.BrowserRoundTrip` | src/job.rs:489-495 | Every browser that decoding can produce is decoded back from its own discriminator. |
| `Jobs.DefaultBrowser` | src/job.rs:497-501 | The default browser is the catch-all with no discriminator, which is exactly what an object without `_class` decodes to. |
| `Jobs.DecodeSCM` | src/job.rs:451-467 | SCM decoding is total and keeps the discriminator. The null and git variants keep the browser given with them, whatever its own variant, and the git variant keeps its merge options. |
| `Jobs.SCMRoundTrip` | src/job.rs:451-467 | Every SCM that decoding can produce is decoded back from its own payload. |
| `Jobs.DefaultSCM` | src/job.rs:469-475 | The default SCM is the null SCM with no browser, which is what `hudson.scm.NullSCM` without a browser decodes to. |
| `Jobs.DecodeProperty` | src/job.rs:477-487 | Property decoding is total and keeps the discriminator. It yields the catch-all exactly when the discriminator is none of the three known ones. |
| `Jobs.PropertyRoundTrip` | src/job.rs:477-487 | Every property that decoding can produce is decoded back from its own discriminator. |
| `Jobs.JobClassesDistinct` | src/job.rs:133-209 | The seven job discriminators are pairwise distinct, and each job kind has its own discriminator. |
| `Jobs.SmallFamiliesDistinct` | src/job.rs:451-495 | The discriminators of the SCM, property and browser families are pairwise distinct. |
| `Jobs.DecodeJob` | src/job.rs:78-211 | Job decoding is total and keeps the discriminator exactly. It yields a known variant exactly when the discriminator is one of the seven. That variant embeds the payload's common fields and takes exactly the variant fields it declares from the payload, the others being reset to their defaults. Otherwise it yields the catch-all. |
| `Jobs.JobOfKind` | src/job.rs:133-209 | The variant built for a kind is of that kind, embeds the given common fields, and holds exactly the given variant fields that the kind declares. |
| `Jobs.UndeclaredFieldsIgnored` | src/job.rs:133-209 | Two payloads of the same known kind that agree on the fields that kind declares decode to the same job, whatever they carry in the other variant fields. |
| `Jobs.JobOfKindOfJob` | src/job.rs:133-209 | Every known job is rebuilt from its kind, its common fields and its variant fields. |
| `Jobs.JobRoundTrip` | src/job.rs:78-211 | Every job that decoding can produce, of any of the eight variants, is decoded back from its own discriminator, common fields and variant fields. |
| `Jobs.Job.Url` | src/job.rs:213-229 | Gives `Ok(url)` exactly for the seven known variants. On the catch-all it gives `InvalidObjectType` with object type Job, action `GetField("url")` and the job's discriminator. |
| `Jobs.Job.Name` | src/job.rs:274-277 | Gives `Ok(name)` exactly for the known variants. Otherwise it gives `InvalidObjectType` with `GetField("name")` and the discriminator. |
| `Jobs.Job.Buildable` | src/job.rs:278-281 | Gives `Ok(buildable)` exactly for the known variants. Otherwise it gives `InvalidObjectType` with `GetField("buildable")` and the discriminator. |
| `Jobs.Job.LastBuild` | src/job.rs:282-285 | Gives `Ok(last_build)` exactly for the known variants. Otherwise it gives `InvalidObjectType` with `GetField("last_build")` and the discriminator. |
| `Jobs.Job.Builds` | src/job.rs:286-289 | Gives `Ok(builds)` exactly for the known variants. Otherwise it gives `InvalidObjectType` with `GetField("builds")` and the discriminator. |
| `Jobs.Job.HealthReport` | src/job.rs:290-293 | Gives `Ok(health_report)` exactly for the known variants. Otherwise it gives `InvalidObjectType` with `GetField("health_report")` and the discriminator. |
| `Jobs.DecodedAccessors` | src/job.rs:213-293 | For a payload with any of the seven discriminators, all six accessors of the decoded job give the payload's common fields. For any other discriminator, each fails naming its own field and the captured discriminator. |
| `Jobs.ShortJob.GetFullJob` | src/job.rs:65-75 | Issues a request if and only if the URL classifies as a job path, and then only one GET, of that very path. A success is the decoded body of that GET. Any other path gives `InvalidUrl` carrying the short job's URL and Job, with no request. |
| `Jobs.FetchJob` | src/job.rs:68 | One GET of the path. It succeeds exactly when the transport and the codec both succeed, and then yields the job decoded from the codec's payload. A transport failure and a codec failure are each passed through unchanged. |
| `Jobs.FullJobOnlyFromParsedPath` | src/job.rs:65-75 | Two clients that classify the URL alike and answer that path alike give the same resolution, whatever else they do. |
| `Jobs.Job.Perform` | src/job.rs:296-311 | When the job is known and its URL is a job path without a configuration, it is exactly one POST to the action's path for the parsed name. Otherwise it is the refusal, with no request: the accessor's error for the catch-all, `InvalidUrl`/Job for any other URL. |
| `Jobs.Job.Enable` | src/job.rs:295-311 | Under the same acceptance, exactly one POST, to `JobEnable` with the parsed name. Otherwise the refusal, with no request. |
| `Jobs.Job.Disable` | src/job.rs:313-329 | Under the same acceptance, exactly one POST, to `JobDisable` with the parsed name. Otherwise the refusal, with no request. |
| `Jobs.Job.AddToView` | src/job.rs:331-350 | Under the same acceptance, exactly one POST, to `AddJobToView` with the parsed job name and the plain view name. Otherwise the refusal, with no request. |
| `Jobs.Job.RemoveFromView` | src/job.rs:352-371 | Under the same acceptance, exactly one POST, to `RemoveJobFromView` with the parsed job name and the plain view name. Otherwise the refusal, with no request. |
| `Jobs.Job.PollScm` | src/job.rs:386-402 | Under the same acceptance, exactly one POST, to `PollSCMJob` with the parsed name. Otherwise the refusal, with no request. |
| `Jobs.UnknownJobActionsIgnoreClient` | src/job.rs:297-297 | On the catch-all, every job action fails with the URL accessor's error and no request, whatever the client's codec and transport do, so the URL is never classified. |
| `Jobs.GetJob` | src/job.rs:406-413 | Exactly one GET, of the top-level job path for the plain name. When the GET and the codec succeed, the result is the job decoded from the codec's payload. A transport failure and a codec failure are each passed through unchanged. |
| `Jobs.PollScmJob` | src/job.rs:428-434 | Exactly one POST, to `PollSCMJob` with the plain name. It succeeds exactly when that POST does, and a failed POST's error is returned unchanged. |
| `Jobs.PollScmThroughJob` | src/job.rs:387-434 | Polling through a known job whose URL names the top-level job `n` is polling the job named `n` directly. |
| `Jobs.FullJobThroughShortJob` | src/job.rs:65-75 | Resolving a short job whose URL names the top-level job `n` is getting the job named `n`. |
| `Maven.ShortMavenArtifactRecord.GetFullArtifactRecord` | src/action/maven.rs:52-65 | Issues a request if and only if the URL classifies as a maven artifact record path, and then only one GET, of that path. When the GET succeeds the result is the codec's outcome on its body, and a transport failure is passed through unchanged. Any other path gives `InvalidUrl` with the record's URL unchanged and MavenArtifactRecord, with no request. |
| `Maven.DefaultShortMavenArtifactRecord` | src/action/maven.rs:43-49 | The default short record has an empty URL. |
| `Maven.ArtifactRecordOnlyFromParsedPath` | src/action/maven.rs:56-58 | Two clients that classify the URL alike and answer that path alike give the same record or error. The result never comes from another path. |

## Left out

- The URL-to-path codec and the rendering of paths. They live in the client module, which is not part of this model. `urlToPath` is an opaque function, and the `Path` variants that the core does not inspect are only a stand-in for that module's.
- How names are encoded inside paths. It also lives in the client module, which is not part of this model.
- The HTTP transport, status-code errors and request headers. `transport` is an opaque function from a request to a response or an error.
- JSON parsing. The codec is a parameter that yields a discriminator and already-decoded fields. A serde failure on a missing field of a known variant is therefore not modelled.
- The body of the macro that declares the tagged families is not part of this model. Only the mapping from discriminator to variant that its declarations imply is modelled.
- `variant_name()` is generated by the tagged-family macro, which is not modelled. The error carries the captured discriminator, and a payload without a discriminator gives `None`.
- The `actions` field of the common job fields. It holds values of the action family, whose module is not part of this model other than its maven part.
- Short builds and queue items keep only their URL (and a build number). Their modules are not part of this model.
- `Job::build`, `Job::builder`, `Jenkins::build_job` and `Jenkins::job_builder`. They hand over to a job builder module that is not part of this model.
- `Artifact::default`, which panics unconditionally.
- `HealthReport`, `MergeOptions` and `Artifact` are kept as plain records with no behaviour. The default merge options, all empty, are used only to fill absent fields.
- The integration tests against a live server, with their timing and logger setup.
