/**
 Jenkins jobs: the ball colour of a job, the short job of listings and its
 resolution to a full job, the tagged job family with its common fields and
 field accessors, the actions that post to a job, and the smaller tagged
 families a job refers to (SCM, job property, repository browser).

 A tagged family decodes from a payload made of the `_class` discriminator
 (absent or present) and the fields the JSON codec already decoded; parsing
 JSON itself is the codec's business and is not modelled.
 */
module Jobs {
  import opened Client
  import opened Tagged
  import opened Links

  type u16 = x: int | 0 <= x < 0x1_0000
  type u32 = x: int | 0 <= x < 0x1_0000_0000

  // ---------------------------------------------------------------- ball colour

  /** Ball colour of a job, corresponding to the status of its last build. */
  datatype BallColor =
    | Blue | BlueAnime
    | Yellow | YellowAnime
    | Red | RedAnime
    | Grey | GreyAnime
    | Disabled | DisabledAnime
    | Aborted | AbortedAnime
    | NotBuilt | NotBuiltAnime

  /** The name of a colour on the wire: snake case, except `notbuilt` and `notbuilt_anime`. */
  function BallColorName(c: BallColor): string
  {
    match c
    case Blue => "blue"
    case BlueAnime => "blue_anime"
    case Yellow => "yellow"
    case YellowAnime => "yellow_anime"
    case Red => "red"
    case RedAnime => "red_anime"
    case Grey => "grey"
    case GreyAnime => "grey_anime"
    case Disabled => "disabled"
    case DisabledAnime => "disabled_anime"
    case Aborted => "aborted"
    case AbortedAnime => "aborted_anime"
    case NotBuilt => "notbuilt"
    case NotBuiltAnime => "notbuilt_anime"
  }

  const BallColorTable: Table<BallColor> := [
    (BallColorName(Blue), Blue), (BallColorName(BlueAnime), BlueAnime),
    (BallColorName(Yellow), Yellow), (BallColorName(YellowAnime), YellowAnime),
    (BallColorName(Red), Red), (BallColorName(RedAnime), RedAnime),
    (BallColorName(Grey), Grey), (BallColorName(GreyAnime), GreyAnime),
    (BallColorName(Disabled), Disabled), (BallColorName(DisabledAnime), DisabledAnime),
    (BallColorName(Aborted), Aborted), (BallColorName(AbortedAnime), AbortedAnime),
    (BallColorName(NotBuilt), NotBuilt), (BallColorName(NotBuiltAnime), NotBuiltAnime)
  ]

  /** Position of each colour in the table. */
  function BallColorIndex(c: BallColor): (i: nat)
    ensures i < |BallColorTable| && BallColorTable[i] == (BallColorName(c), c)
  {
    match c
    case Blue => 0
    case BlueAnime => 1
    case Yellow => 2
    case YellowAnime => 3
    case Red => 4
    case RedAnime => 5
    case Grey => 6
    case GreyAnime => 7
    case Disabled => 8
    case DisabledAnime => 9
    case Aborted => 10
    case AbortedAnime => 11
    case NotBuilt => 12
    case NotBuiltAnime => 13
  }

  lemma BallColorNamesDistinct()
    ensures DistinctKeys(BallColorTable)
  {
    // No two wire names agree in both their length and their first letter.
    forall i, j | 0 <= i < j < |BallColorTable| ensures BallColorTable[i].0 != BallColorTable[j].0 {
      assert |BallColorTable[i].0| != |BallColorTable[j].0| || BallColorTable[i].0[0] != BallColorTable[j].0[0];
    }
  }

  /**
   Decoding a colour from its wire name.  The enumeration is closed: a name
   outside the fourteen is a decode failure, not a fallback colour.
   */
  function DecodeBallColor(s: string): (r: Option<BallColor>)
    ensures r.Some? ==> BallColorName(r.value) == s
    ensures r.None? <==> forall c :: BallColorName(c) != s
  {
    var r := Lookup(BallColorTable, s);
    BallColorTableNames();
    forall c | r.None? ensures BallColorName(c) != s {
      BallColorAbsent(c, s);
    }
    r
  }

  /** Every entry of the colour table is filed under that colour's wire name. */
  lemma BallColorTableNames()
    ensures forall i :: 0 <= i < |BallColorTable| ==> BallColorTable[i].0 == BallColorName(BallColorTable[i].1)
  {
    forall i | 0 <= i < |BallColorTable|
      ensures BallColorTable[i].0 == BallColorName(BallColorTable[i].1)
    {
    }
  }

  /** A name missing from the table is the name of no colour. */
  lemma BallColorAbsent(c: BallColor, s: string)
    requires !HasKey(BallColorTable, s)
    ensures BallColorName(c) != s
  {
    var i := BallColorIndex(c);
    assert BallColorTable[i].0 == BallColorName(c);
  }

  lemma BallColorRoundTrip(c: BallColor)
    ensures DecodeBallColor(BallColorName(c)) == Some(c)
  {
    BallColorNamesDistinct();
    LookupEntry(BallColorTable, BallColorIndex(c));
  }

  /** The colour of a job that was never built. */
  function DefaultBallColor(): (c: BallColor)
    ensures BallColorName(c) == "notbuilt"
    ensures DecodeBallColor("notbuilt") == Some(c)
  {
    BallColorRoundTrip(NotBuilt);
    NotBuilt
  }

  // ---------------------------------------------------------------- browser

  /** A repository browser: one known variant and the catch-all. */
  datatype Browser = GithubWeb | Unknown(discriminator: Option<string>)
  {
    /** The discriminator this browser carries on the wire, if any. */
    function Class(): Option<string>
    {
      match this
      case GithubWeb => Some("hudson.plugins.git.browser.GithubWeb")
      case Unknown(d) => d
    }
  }

  const BrowserTable: Table<Browser> := [(GithubWeb.Class().value, GithubWeb)]

  /** A browser that decoding can produce: an unknown one never carries a known discriminator. */
  ghost predicate BrowserWellFormed(b: Browser)
  {
    b.Unknown? ==> !IsKnownClass(BrowserTable, b.discriminator)
  }

  /** Decoding a browser never fails; it keeps the discriminator it was given. */
  function DecodeBrowser(discriminator: Option<string>): (b: Browser)
    ensures b.Class() == discriminator
    ensures b.Unknown? <==> !IsKnownClass(BrowserTable, discriminator)
    ensures BrowserWellFormed(b)
  {
    match Classify(BrowserTable, discriminator)
    case Some(known) => known
    case None => Browser.Unknown(discriminator)
  }

  lemma BrowserRoundTrip(b: Browser)
    requires BrowserWellFormed(b)
    ensures DecodeBrowser(b.Class()) == b
  {
    if b.GithubWeb? {
      LookupEntry(BrowserTable, 0);
    }
  }

  /** The default browser is what an object without a discriminator decodes to. */
  function DefaultBrowser(): (b: Browser)
    ensures b == DecodeBrowser(None)
    ensures b.Unknown? && b.Class().None?
  {
    Browser.Unknown(None)
  }

  // ---------------------------------------------------------------- SCM

  /** Merge options of a git SCM; a plain record whose default is all empty. */
  datatype MergeOptions = MergeOptions(
    mergeStrategy: string,
    fastForwardMode: string,
    mergeTarget: Option<string>,
    remoteBranchName: Option<string>)

  const DefaultMergeOptions := MergeOptions("", "", None, None)

  datatype SCMKind = NullSCMKind | GitSCMKind

  function SCMClass(k: SCMKind): string
  {
    match k
    case NullSCMKind => "hudson.scm.NullSCM"
    case GitSCMKind => "hudson.plugins.git.GitSCM"
  }

  const SCMTable: Table<SCMKind> := [
    (SCMClass(NullSCMKind), NullSCMKind),
    (SCMClass(GitSCMKind), GitSCMKind)
  ]

  /** The SCM configured for a job. */
  datatype SCM =
    | NullSCM(browser: Option<Browser>)
    | GitSCM(browser: Option<Browser>, mergeOptions: MergeOptions)
    | Unknown(discriminator: Option<string>)
  {
    function Kind(): Option<SCMKind>
    {
      match this
      case NullSCM(_) => Some(NullSCMKind)
      case GitSCM(_, _) => Some(GitSCMKind)
      case Unknown(_) => None
    }

    function Class(): Option<string>
    {
      match this
      case Unknown(d) => d
      case _ => Some(SCMClass(Kind().value))
    }
  }

  ghost predicate SCMWellFormed(s: SCM)
  {
    s.Unknown? ==> !IsKnownClass(SCMTable, s.discriminator)
  }

  /** An SCM object as the codec hands it over: discriminator plus decoded fields. */
  datatype SCMPayload = SCMPayload(
    discriminator: Option<string>,
    browser: Option<Browser>,
    mergeOptions: MergeOptions)

  /**
   Decoding an SCM never fails and keeps its discriminator; a browser nested
   in a known SCM is kept whatever its own variant is.
   */
  function DecodeSCM(p: SCMPayload): (s: SCM)
    ensures s.Class() == p.discriminator
    ensures s.Unknown? <==> !IsKnownClass(SCMTable, p.discriminator)
    ensures !s.Unknown? ==> s.browser == p.browser
    ensures s.GitSCM? ==> s.mergeOptions == p.mergeOptions
    ensures SCMWellFormed(s)
  {
    assert forall i :: 0 <= i < |SCMTable| ==> SCMTable[i].0 == SCMClass(SCMTable[i].1);
    var kind: Option<SCMKind> := Classify(SCMTable, p.discriminator);
    match kind
    case Some(NullSCMKind) => NullSCM(p.browser)
    case Some(GitSCMKind) => GitSCM(p.browser, p.mergeOptions)
    case None => SCM.Unknown(p.discriminator)
  }

  /** The payload an SCM decodes from; fields its variant lacks take their defaults. */
  function EncodeSCM(s: SCM): SCMPayload
  {
    match s
    case NullSCM(b) => SCMPayload(s.Class(), b, DefaultMergeOptions)
    case GitSCM(b, m) => SCMPayload(s.Class(), b, m)
    case Unknown(d) => SCMPayload(d, None, DefaultMergeOptions)
  }

  lemma SCMRoundTrip(s: SCM)
    requires SCMWellFormed(s)
    ensures DecodeSCM(EncodeSCM(s)) == s
  {
    match s
    case NullSCM(_) => LookupEntry(SCMTable, 0);
    case GitSCM(_, _) => LookupEntry(SCMTable, 1);
    case Unknown(_) =>
  }

  /** A job without source control: the null SCM with no browser. */
  function DefaultSCM(): (s: SCM)
    ensures s.Kind() == Some(NullSCMKind) && s.Class() == Some("hudson.scm.NullSCM")
    ensures s.browser.None?
    ensures s == DecodeSCM(SCMPayload(Some("hudson.scm.NullSCM"), None, DefaultMergeOptions))
  {
    LookupEntry(SCMTable, 0);
    NullSCM(None)
  }

  // ---------------------------------------------------------------- job property

  /** A property of a job: three known variants without fields, and the catch-all. */
  datatype Property =
    | GithubProjectProperty
    | RateLimitBranchProperty
    | BuildDiscarderProperty
    | Unknown(discriminator: Option<string>)
  {
    function Class(): Option<string>
    {
      match this
      case GithubProjectProperty => Some("com.coravy.hudson.plugins.github.GithubProjectProperty")
      case RateLimitBranchProperty => Some("jenkins.branch.RateLimitBranchProperty$JobPropertyImpl")
      case BuildDiscarderProperty => Some("jenkins.model.BuildDiscarderProperty")
      case Unknown(d) => d
    }
  }

  const PropertyTable: Table<Property> := [
    (GithubProjectProperty.Class().value, GithubProjectProperty),
    (RateLimitBranchProperty.Class().value, RateLimitBranchProperty),
    (BuildDiscarderProperty.Class().value, BuildDiscarderProperty)
  ]

  ghost predicate PropertyWellFormed(p: Property)
  {
    p.Unknown? ==> !IsKnownClass(PropertyTable, p.discriminator)
  }

  function DecodeProperty(discriminator: Option<string>): (p: Property)
    ensures p.Class() == discriminator
    ensures p.Unknown? <==> !IsKnownClass(PropertyTable, discriminator)
    ensures PropertyWellFormed(p)
  {
    match Classify(PropertyTable, discriminator)
    case Some(known) => known
    case None => Property.Unknown(discriminator)
  }

  lemma PropertyRoundTrip(p: Property)
    requires PropertyWellFormed(p)
    ensures DecodeProperty(p.Class()) == p
  {
    match p
    case GithubProjectProperty => LookupEntry(PropertyTable, 0);
    case RateLimitBranchProperty => LookupEntry(PropertyTable, 1);
    case BuildDiscarderProperty => LookupEntry(PropertyTable, 2);
    case Unknown(_) =>
  }

  // ---------------------------------------------------------------- jobs

  /** Health report of a job. */
  datatype HealthReport = HealthReport(
    description: string,
    iconClassName: string,
    iconUrl: string,
    score: u16)

  /** The fields every known variant of a job carries. */
  datatype CommonFields = CommonFields(
    name: string,
    displayName: string,
    fullDisplayName: string,
    fullName: string,
    displayNameOrNull: Option<string>,
    description: string,
    url: string,
    color: BallColor,
    buildable: bool,
    keepDependencies: bool,
    nextBuildNumber: u32,
    inQueue: bool,
    lastBuild: Option<ShortBuild>,
    firstBuild: Option<ShortBuild>,
    lastStableBuild: Option<ShortBuild>,
    lastUnstableBuild: Option<ShortBuild>,
    lastSuccessfulBuild: Option<ShortBuild>,
    lastUnsuccessfulBuild: Option<ShortBuild>,
    lastCompletedBuild: Option<ShortBuild>,
    lastFailedBuild: Option<ShortBuild>,
    builds: seq<ShortBuild>,
    healthReport: seq<HealthReport>,
    queueItem: Option<ShortQueueItem>,
    property: seq<Property>)

  datatype JobKind =
    | FreeStyleProjectKind
    | WorkflowJobKind
    | MatrixProjectKind
    | MatrixConfigurationKind
    | ExternalJobKind
    | MavenModuleSetKind
    | MavenModuleKind

  function JobClass(k: JobKind): string
  {
    match k
    case FreeStyleProjectKind => "hudson.model.FreeStyleProject"
    case WorkflowJobKind => "org.jenkinsci.plugins.workflow.job.WorkflowJob"
    case MatrixProjectKind => "hudson.matrix.MatrixProject"
    case MatrixConfigurationKind => "hudson.matrix.MatrixConfiguration"
    case ExternalJobKind => "hudson.model.ExternalJob"
    case MavenModuleSetKind => "hudson.maven.MavenModuleSet"
    case MavenModuleKind => "hudson.maven.MavenModule"
  }

  const JobTable: Table<JobKind> := [
    (JobClass(FreeStyleProjectKind), FreeStyleProjectKind),
    (JobClass(WorkflowJobKind), WorkflowJobKind),
    (JobClass(MatrixProjectKind), MatrixProjectKind),
    (JobClass(MatrixConfigurationKind), MatrixConfigurationKind),
    (JobClass(ExternalJobKind), ExternalJobKind),
    (JobClass(MavenModuleSetKind), MavenModuleSetKind),
    (JobClass(MavenModuleKind), MavenModuleKind)
  ]

  function JobKindIndex(k: JobKind): (i: nat)
    ensures i < |JobTable| && JobTable[i] == (JobClass(k), k)
  {
    match k
    case FreeStyleProjectKind => 0
    case WorkflowJobKind => 1
    case MatrixProjectKind => 2
    case MatrixConfigurationKind => 3
    case ExternalJobKind => 4
    case MavenModuleSetKind => 5
    case MavenModuleKind => 6
  }

  /** The seven job discriminators are pairwise distinct, so decoding by `_class` is deterministic. */
  lemma JobClassesDistinct()
    ensures DistinctKeys(JobTable)
    ensures forall k1, k2 :: JobClass(k1) == JobClass(k2) ==> k1 == k2
  {
  }

  /** The discriminators of the SCM, property and browser families are pairwise distinct. */
  lemma SmallFamiliesDistinct()
    ensures DistinctKeys(SCMTable)
    ensures DistinctKeys(PropertyTable)
    ensures DistinctKeys(BrowserTable)
  {
  }

  /** Short job, as found in listings and in the links of other resources. */
  datatype ShortJob = ShortJob(name: string, url: string, color: BallColor)
  {
    /**
     The full job behind this short job.  The URL must classify as a job
     path; then that very path is fetched once and its body decoded as a job.
     Any other classification fails without a request.
     */
    function GetFullJob(c: Jenkins, json: Response -> Result<JobPayload>): (r: Call<Job>)
      ensures r.requests == [] <==> !c.urlToPath(url).Job?
      ensures c.urlToPath(url).Job? ==> r.requests == [Get(c.urlToPath(url))]
      ensures !c.urlToPath(url).Job? ==> r == Call(Err(InvalidUrl(url, ExpectedType.Job)), [])
      ensures r.result.Ok? ==> c.urlToPath(url).Job? && JobFetched(c, c.urlToPath(url), json, r.result.value)
      ensures c.urlToPath(url).Job? ==> r == FetchJob(c, c.urlToPath(url), json)
    {
      var path := c.urlToPath(url);
      if path.Job? then FetchJob(c, path, json)
      else Call(Err(InvalidUrl(url, ExpectedType.Job)), [])
    }
  }

  /** A job object as the codec hands it over. */
  datatype JobPayload = JobPayload(discriminator: Option<string>, common: CommonFields, extras: JobExtras)

  /** The variant-specific fields of a job object; each variant takes the ones it declares. */
  datatype JobExtras = JobExtras(
    concurrentBuild: bool,
    scm: SCM,
    activeConfigurations: seq<ShortJob>,
    modules: seq<ShortJob>,
    upstreamProjects: seq<ShortJob>,
    downstreamProjects: seq<ShortJob>,
    labelExpression: Option<string>)

  /** The variant-specific fields a job object may carry. */
  datatype JobField =
    | ConcurrentBuildField | SCMField | ActiveConfigurationsField | ModulesField
    | UpstreamProjectsField | DownstreamProjectsField | LabelExpressionField

  /** Whether variant `k` declares field `f`; the fields it does not declare are ignored when decoding. */
  predicate Declares(k: JobKind, f: JobField)
  {
    match f
    case ConcurrentBuildField => k != ExternalJobKind
    case ActiveConfigurationsField => k == MatrixProjectKind
    case ModulesField => k == MavenModuleSetKind
    case SCMField | UpstreamProjectsField | DownstreamProjectsField | LabelExpressionField =>
      k != WorkflowJobKind && k != ExternalJobKind
  }

  /** The variant fields with their default values, standing for "not declared". */
  const NoExtras := JobExtras(false, DefaultSCM(), [], [], [], [], None)

  /** The fields of `e` that variant `k` declares; the others are reset to their defaults. */
  function Declared(k: JobKind, e: JobExtras): JobExtras
  {
    JobExtras(
      if Declares(k, ConcurrentBuildField) then e.concurrentBuild else NoExtras.concurrentBuild,
      if Declares(k, SCMField) then e.scm else NoExtras.scm,
      if Declares(k, ActiveConfigurationsField) then e.activeConfigurations else NoExtras.activeConfigurations,
      if Declares(k, ModulesField) then e.modules else NoExtras.modules,
      if Declares(k, UpstreamProjectsField) then e.upstreamProjects else NoExtras.upstreamProjects,
      if Declares(k, DownstreamProjectsField) then e.downstreamProjects else NoExtras.downstreamProjects,
      if Declares(k, LabelExpressionField) then e.labelExpression else NoExtras.labelExpression)
  }

  /** A Jenkins job: seven known variants sharing the common fields, and the catch-all. */
  datatype Job =
    | FreeStyleProject(
        common: CommonFields, concurrentBuild: bool, scm: SCM,
        upstreamProjects: seq<ShortJob>, downstreamProjects: seq<ShortJob>, labelExpression: Option<string>)
    | WorkflowJob(common: CommonFields, concurrentBuild: bool)
    | MatrixProject(
        common: CommonFields, concurrentBuild: bool, scm: SCM, activeConfigurations: seq<ShortJob>,
        upstreamProjects: seq<ShortJob>, downstreamProjects: seq<ShortJob>, labelExpression: Option<string>)
    | MatrixConfiguration(
        common: CommonFields, concurrentBuild: bool, scm: SCM,
        upstreamProjects: seq<ShortJob>, downstreamProjects: seq<ShortJob>, labelExpression: Option<string>)
    | ExternalJob(common: CommonFields)
    | MavenModuleSet(
        common: CommonFields, concurrentBuild: bool, scm: SCM, modules: seq<ShortJob>,
        upstreamProjects: seq<ShortJob>, downstreamProjects: seq<ShortJob>, labelExpression: Option<string>)
    | MavenModule(
        common: CommonFields, concurrentBuild: bool, scm: SCM,
        upstreamProjects: seq<ShortJob>, downstreamProjects: seq<ShortJob>, labelExpression: Option<string>)
    | Unknown(discriminator: Option<string>)
  {
    function Kind(): Option<JobKind>
    {
      match this
      case FreeStyleProject(_, _, _, _, _, _) => Some(FreeStyleProjectKind)
      case WorkflowJob(_, _) => Some(WorkflowJobKind)
      case MatrixProject(_, _, _, _, _, _, _) => Some(MatrixProjectKind)
      case MatrixConfiguration(_, _, _, _, _, _) => Some(MatrixConfigurationKind)
      case ExternalJob(_) => Some(ExternalJobKind)
      case MavenModuleSet(_, _, _, _, _, _, _) => Some(MavenModuleSetKind)
      case MavenModule(_, _, _, _, _, _) => Some(MavenModuleKind)
      case Unknown(_) => None
    }

    /** The discriminator this job carries on the wire, if any. */
    function Class(): Option<string>
    {
      match Kind()
      case Some(k) => Some(JobClass(k))
      case None => discriminator
    }

    /** The error every accessor reports for this job when it is of an unknown variant. */
    function FieldError(field: string): Error
    {
      InvalidObjectType(ExpectedType.Job, GetField(field), Class())
    }

    /** URL of the job. */
    function Url(): (r: Result<string>)
      ensures r.Ok? <==> Kind().Some?
      ensures r.Ok? ==> r.value == common.url
      ensures r.Err? ==> r.error == InvalidObjectType(ExpectedType.Job, GetField("url"), Class())
    {
      if Unknown? then Err(FieldError("url")) else Ok(common.url)
    }

    /** Name of the job. */
    function Name(): (r: Result<string>)
      ensures r.Ok? <==> Kind().Some?
      ensures r.Ok? ==> r.value == common.name
      ensures r.Err? ==> r.error == InvalidObjectType(ExpectedType.Job, GetField("name"), Class())
    {
      if Unknown? then Err(FieldError("name")) else Ok(common.name)
    }

    /** Whether the job is buildable. */
    function Buildable(): (r: Result<bool>)
      ensures r.Ok? <==> Kind().Some?
      ensures r.Ok? ==> r.value == common.buildable
      ensures r.Err? ==> r.error == InvalidObjectType(ExpectedType.Job, GetField("buildable"), Class())
    {
      if Unknown? then Err(FieldError("buildable")) else Ok(common.buildable)
    }

    /** Link to the last build. */
    function LastBuild(): (r: Result<Option<ShortBuild>>)
      ensures r.Ok? <==> Kind().Some?
      ensures r.Ok? ==> r.value == common.lastBuild
      ensures r.Err? ==> r.error == InvalidObjectType(ExpectedType.Job, GetField("last_build"), Class())
    {
      if Unknown? then Err(FieldError("last_build")) else Ok(common.lastBuild)
    }

    /** The builds of the job. */
    function Builds(): (r: Result<seq<ShortBuild>>)
      ensures r.Ok? <==> Kind().Some?
      ensures r.Ok? ==> r.value == common.builds
      ensures r.Err? ==> r.error == InvalidObjectType(ExpectedType.Job, GetField("builds"), Class())
    {
      if Unknown? then Err(FieldError("builds")) else Ok(common.builds)
    }

    /** Health report of the job. */
    function HealthReport(): (r: Result<seq<HealthReport>>)
      ensures r.Ok? <==> Kind().Some?
      ensures r.Ok? ==> r.value == common.healthReport
      ensures r.Err? ==> r.error == InvalidObjectType(ExpectedType.Job, GetField("health_report"), Class())
    {
      if Unknown? then Err(FieldError("health_report")) else Ok(common.healthReport)
    }

    /** A job action may go ahead: known variant, URL naming a top-level job. */
    predicate AcceptsActions(c: Jenkins)
    {
      !Unknown? && c.urlToPath(common.url).Job? && c.urlToPath(common.url).configuration.None?
    }

    /** The job name the URL parsed to. */
    function ParsedName(c: Jenkins): Client.Name
      requires AcceptsActions(c)
    {
      c.urlToPath(common.url).name
    }

    /** Why a job action is refused: the URL accessor's error, or a URL that is not a top-level job. */
    function Rejection(c: Jenkins): Error
    {
      if Unknown? then FieldError("url") else InvalidUrl(common.url, ExpectedType.Job)
    }

    /** Posts the action to the path derived from the parsed job name, or refuses without posting. */
    function Perform(c: Jenkins, a: JobAction): (r: Call<()>)
      ensures AcceptsActions(c) ==> r == SendPost(c, ActionPath(a, ParsedName(c)))
      ensures !AcceptsActions(c) ==> r == Call(Err(Rejection(c)), [])
    {
      match Url()
      case Err(e) => Call(Err(e), [])
      case Ok(u) =>
        match c.urlToPath(u)
        case Job(name, None) => SendPost(c, ActionPath(a, name))
        case _ => Call(Err(InvalidUrl(u, ExpectedType.Job)), [])
    }

    /** Enable the job. */
    function Enable(c: Jenkins): (r: Call<()>)
      ensures AcceptsActions(c) ==> r == SendPost(c, JobEnable(ParsedName(c)))
      ensures !AcceptsActions(c) ==> r == Call(Err(Rejection(c)), [])
    {
      Perform(c, EnableJob)
    }

    /** Disable the job. */
    function Disable(c: Jenkins): (r: Call<()>)
      ensures AcceptsActions(c) ==> r == SendPost(c, JobDisable(ParsedName(c)))
      ensures !AcceptsActions(c) ==> r == Call(Err(Rejection(c)), [])
    {
      Perform(c, DisableJob)
    }

    /** Add the job to the view `viewName`. */
    function AddToView(c: Jenkins, viewName: string): (r: Call<()>)
      ensures AcceptsActions(c) ==>
        r == SendPost(c, AddJobToView(ParsedName(c), Client.Name.Name(viewName)))
      ensures !AcceptsActions(c) ==> r == Call(Err(Rejection(c)), [])
    {
      Perform(c, AddToViewNamed(viewName))
    }

    /** Remove the job from the view `viewName`. */
    function RemoveFromView(c: Jenkins, viewName: string): (r: Call<()>)
      ensures AcceptsActions(c) ==>
        r == SendPost(c, RemoveJobFromView(ParsedName(c), Client.Name.Name(viewName)))
      ensures !AcceptsActions(c) ==> r == Call(Err(Rejection(c)), [])
    {
      Perform(c, RemoveFromViewNamed(viewName))
    }

    /** Ask the job to poll its SCM for changes. */
    function PollScm(c: Jenkins): (r: Call<()>)
      ensures AcceptsActions(c) ==> r == SendPost(c, PollSCMJob(ParsedName(c)))
      ensures !AcceptsActions(c) ==> r == Call(Err(Rejection(c)), [])
    {
      Perform(c, PollScmJobAction)
    }
  }

  /** The five actions that post to a job. */
  datatype JobAction =
    | EnableJob
    | DisableJob
    | AddToViewNamed(viewName: string)
    | RemoveFromViewNamed(viewName: string)
    | PollScmJobAction

  /** The path an action posts to, for the job called `name`. */
  function ActionPath(a: JobAction, name: Client.Name): Path
  {
    match a
    case EnableJob => JobEnable(name)
    case DisableJob => JobDisable(name)
    case AddToViewNamed(v) => AddJobToView(name, Client.Name.Name(v))
    case RemoveFromViewNamed(v) => RemoveJobFromView(name, Client.Name.Name(v))
    case PollScmJobAction => PollSCMJob(name)
  }

  /** A job that decoding can produce: an unknown one never carries a known discriminator. */
  ghost predicate JobWellFormed(j: Job)
  {
    j.Unknown? ==> !IsKnownClass(JobTable, j.discriminator)
  }

  /**
   Decoding a job never fails: a known discriminator selects its variant,
   which embeds the common fields; anything else, including no
   discriminator at all, is the catch-all keeping the discriminator.
   */
  function DecodeJob(p: JobPayload): (j: Job)
    ensures j.Class() == p.discriminator
    ensures j.Unknown? <==> !IsKnownClass(JobTable, p.discriminator)
    ensures !j.Unknown? ==> j.common == p.common
    ensures !j.Unknown? ==> ExtrasOf(j) == Declared(j.Kind().value, p.extras)
    ensures JobWellFormed(j)
  {
    assert forall i :: 0 <= i < |JobTable| ==> JobTable[i].0 == JobClass(JobTable[i].1);
    var kind: Option<JobKind> := Classify(JobTable, p.discriminator);
    match kind
    case Some(k) => JobOfKind(k, p.common, p.extras)
    case None => Job.Unknown(p.discriminator)
  }

  /** The known variant of kind `k`, built from the common fields and the fields it declares. */
  function JobOfKind(k: JobKind, common: CommonFields, e: JobExtras): (j: Job)
    ensures j.Kind() == Some(k) && j.common == common
    ensures ExtrasOf(j) == Declared(k, e)
  {
    match k
    case FreeStyleProjectKind =>
      FreeStyleProject(common, e.concurrentBuild, e.scm, e.upstreamProjects, e.downstreamProjects, e.labelExpression)
    case WorkflowJobKind =>
      WorkflowJob(common, e.concurrentBuild)
    case MatrixProjectKind =>
      MatrixProject(common, e.concurrentBuild, e.scm, e.activeConfigurations,
                    e.upstreamProjects, e.downstreamProjects, e.labelExpression)
    case MatrixConfigurationKind =>
      MatrixConfiguration(common, e.concurrentBuild, e.scm, e.upstreamProjects, e.downstreamProjects, e.labelExpression)
    case ExternalJobKind =>
      ExternalJob(common)
    case MavenModuleSetKind =>
      MavenModuleSet(common, e.concurrentBuild, e.scm, e.modules,
                     e.upstreamProjects, e.downstreamProjects, e.labelExpression)
    case MavenModuleKind =>
      MavenModule(common, e.concurrentBuild, e.scm, e.upstreamProjects, e.downstreamProjects, e.labelExpression)
  }

  /** A known job is rebuilt from its kind, its common fields and its variant fields. */
  lemma JobOfKindOfJob(j: Job)
    requires !j.Unknown?
    ensures JobOfKind(j.Kind().value, j.common, ExtrasOf(j)) == j
  {
  }

  /** The variant-specific fields of a job; those its variant lacks take their defaults. */
  function ExtrasOf(j: Job): JobExtras
  {
    var none := NoExtras;
    match j
    case FreeStyleProject(_, cb, scm, up, down, labelExpr) =>
      none.(concurrentBuild := cb, scm := scm, upstreamProjects := up, downstreamProjects := down, labelExpression := labelExpr)
    case WorkflowJob(_, cb) =>
      none.(concurrentBuild := cb)
    case MatrixProject(_, cb, scm, active, up, down, labelExpr) =>
      none.(concurrentBuild := cb, scm := scm, activeConfigurations := active,
            upstreamProjects := up, downstreamProjects := down, labelExpression := labelExpr)
    case MatrixConfiguration(_, cb, scm, up, down, labelExpr) =>
      none.(concurrentBuild := cb, scm := scm, upstreamProjects := up, downstreamProjects := down, labelExpression := labelExpr)
    case ExternalJob(_) =>
      none
    case MavenModuleSet(_, cb, scm, modules, up, down, labelExpr) =>
      none.(concurrentBuild := cb, scm := scm, modules := modules,
            upstreamProjects := up, downstreamProjects := down, labelExpression := labelExpr)
    case MavenModule(_, cb, scm, up, down, labelExpr) =>
      none.(concurrentBuild := cb, scm := scm, upstreamProjects := up, downstreamProjects := down, labelExpression := labelExpr)
    case Unknown(_) =>
      none
  }

  /**
   A known variant takes only the fields it declares: two payloads of the
   same kind that agree on those fields decode to the same job, whatever
   they carry in the fields the variant does not declare.
   */
  lemma UndeclaredFieldsIgnored(p: JobPayload, e: JobExtras, k: JobKind)
    requires p.discriminator == Some(JobClass(k))
    requires Declared(k, e) == Declared(k, p.extras)
    ensures DecodeJob(p.(extras := e)) == DecodeJob(p)
  {
    var j1, j2 := DecodeJob(p.(extras := e)), DecodeJob(p);
    JobClassesDistinct();
    LookupEntry(JobTable, JobKindIndex(k));
    JobOfKindOfJob(j1);
    JobOfKindOfJob(j2);
  }

  /**
   Every job that decoding can produce is decoded back from its own
   discriminator, common fields and variant fields.  The common fields of
   the payload are ignored for the catch-all.
   */
  lemma JobRoundTrip(j: Job, common: CommonFields)
    requires JobWellFormed(j)
    requires !j.Unknown? ==> common == j.common
    ensures DecodeJob(JobPayload(j.Class(), common, ExtrasOf(j))) == j
  {
    if !j.Unknown? {
      var k := j.Kind().value;
      JobClassesDistinct();
      LookupEntry(JobTable, JobKindIndex(k));
      JobOfKindOfJob(j);
    }
  }


  /**
   The accessors of a decoded job: for each of the seven discriminators every
   accessor yields the decoded common field; for any other discriminator every
   accessor fails naming its field and the captured discriminator.
   */
  lemma DecodedAccessors(p: JobPayload)
    ensures IsKnownClass(JobTable, p.discriminator) ==>
      var j := DecodeJob(p);
      && j.Url() == Ok(p.common.url)
      && j.Name() == Ok(p.common.name)
      && j.Buildable() == Ok(p.common.buildable)
      && j.LastBuild() == Ok(p.common.lastBuild)
      && j.Builds() == Ok(p.common.builds)
      && j.HealthReport() == Ok(p.common.healthReport)
    ensures !IsKnownClass(JobTable, p.discriminator) ==>
      var j := DecodeJob(p);
      && j.Url() == Err(InvalidObjectType(ExpectedType.Job, GetField("url"), p.discriminator))
      && j.Name() == Err(InvalidObjectType(ExpectedType.Job, GetField("name"), p.discriminator))
      && j.Buildable() == Err(InvalidObjectType(ExpectedType.Job, GetField("buildable"), p.discriminator))
      && j.LastBuild() == Err(InvalidObjectType(ExpectedType.Job, GetField("last_build"), p.discriminator))
      && j.Builds() == Err(InvalidObjectType(ExpectedType.Job, GetField("builds"), p.discriminator))
      && j.HealthReport() == Err(InvalidObjectType(ExpectedType.Job, GetField("health_report"), p.discriminator))
  {
  }

  /** The job `json` decodes from the body the server returns to a GET of `p`. */
  ghost predicate JobFetched(c: Jenkins, p: Path, json: Response -> Result<JobPayload>, j: Job)
  {
    exists payload :: Fetched(c, p, json, payload) && j == DecodeJob(payload)
  }

  /** One GET of `p`, decoded as a job; transport and codec failures propagate. */
  function FetchJob(c: Jenkins, p: Path, json: Response -> Result<JobPayload>): (r: Call<Job>)
    ensures r.requests == [Get(p)]
    ensures r.result.Ok? <==> c.transport(Get(p)).Ok? && json(c.transport(Get(p)).value).Ok?
    ensures r.result.Ok? ==> JobFetched(c, p, json, r.result.value)
    ensures c.transport(Get(p)).Err? ==> r.result == Err(c.transport(Get(p)).error)
    ensures c.transport(Get(p)).Ok? && json(c.transport(Get(p)).value).Ok? ==>
      r.result == Ok(DecodeJob(json(c.transport(Get(p)).value).value))
    ensures c.transport(Get(p)).Ok? && json(c.transport(Get(p)).value).Err? ==>
      r.result == Err(json(c.transport(Get(p)).value).error)
  {
    var call := SendGet(c, p, json);
    match call.result
    case Err(e) => Call(Err(e), call.requests)
    case Ok(payload) =>
      assert Fetched(c, p, json, payload);
      Call(Ok(DecodeJob(payload)), call.requests)
  }

  /** The job called `jobName`: one GET of the top-level job path for that plain name. */
  function GetJob(c: Jenkins, jobName: string, json: Response -> Result<JobPayload>): (r: Call<Job>)
    ensures r.requests == [Get(Path.Job(Client.Name.Name(jobName), None))]
    ensures r.result.Ok? ==> JobFetched(c, Path.Job(Client.Name.Name(jobName), None), json, r.result.value)
    ensures c.transport(Get(Path.Job(Client.Name.Name(jobName), None))).Err? ==>
      r.result == Err(c.transport(Get(Path.Job(Client.Name.Name(jobName), None))).error)
    ensures var answer := c.transport(Get(Path.Job(Client.Name.Name(jobName), None)));
      answer.Ok? && json(answer.value).Ok? ==> r.result == Ok(DecodeJob(json(answer.value).value))
    ensures var answer := c.transport(Get(Path.Job(Client.Name.Name(jobName), None)));
      answer.Ok? && json(answer.value).Err? ==> r.result == Err(json(answer.value).error)
  {
    FetchJob(c, Path.Job(Client.Name.Name(jobName), None), json)
  }

  /** Ask the job called `jobName` to poll its SCM: one POST, to the poll path for that plain name. */
  function PollScmJob(c: Jenkins, jobName: string): (r: Call<()>)
    ensures r.requests == [Post(PollSCMJob(Client.Name.Name(jobName)))]
    ensures r.result.Ok? <==> c.transport(Post(PollSCMJob(Client.Name.Name(jobName)))).Ok?
    ensures r.result.Err? ==> r.result.error == c.transport(Post(PollSCMJob(Client.Name.Name(jobName)))).error
  {
    SendPost(c, PollSCMJob(Client.Name.Name(jobName)))
  }

  /** Polling through a job is polling by name, when the job's URL names that top-level job. */
  lemma PollScmThroughJob(j: Job, c: Jenkins, jobName: string)
    requires !j.Unknown?
    requires c.urlToPath(j.common.url) == Path.Job(Client.Name.Name(jobName), None)
    ensures j.PollScm(c) == PollScmJob(c, jobName)
  {
  }

  /** Resolving a short job whose URL names a top-level job is fetching that job by name. */
  lemma FullJobThroughShortJob(s: ShortJob, c: Jenkins, jobName: string, json: Response -> Result<JobPayload>)
    requires c.urlToPath(s.url) == Path.Job(Client.Name.Name(jobName), None)
    ensures s.GetFullJob(c, json) == GetJob(c, jobName, json)
  {
  }

  /**
   A job action on a job of an unknown variant fails with the URL accessor's
   error before its URL is classified: the outcome is the same whatever the
   client's codec and transport do.
   */
  lemma UnknownJobActionsIgnoreClient(j: Job, c1: Jenkins, c2: Jenkins, a: JobAction)
    requires j.Unknown?
    ensures j.Perform(c1, a) == j.Perform(c2, a)
    ensures j.Perform(c1, a) == Call(Err(InvalidObjectType(ExpectedType.Job, GetField("url"), j.discriminator)), [])
  {
  }

  /**
   What a short job resolves to depends only on how its URL classifies and on
   the server's answer at that path.
   */
  lemma FullJobOnlyFromParsedPath(
    s: ShortJob, c1: Jenkins, c2: Jenkins, json: Response -> Result<JobPayload>)
    requires c1.urlToPath(s.url) == c2.urlToPath(s.url)
    requires c1.transport(Get(c1.urlToPath(s.url))) == c2.transport(Get(c2.urlToPath(s.url)))
    ensures s.GetFullJob(c1, json) == s.GetFullJob(c2, json)
  {
  }
}
