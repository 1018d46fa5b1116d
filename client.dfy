/**
 The part of the client module that the job and maven resources depend on:
 resource names and typed paths, the structured errors, and the client
 itself as a collaborator.  The URL codec and the HTTP transport are not
 part of this model; the client carries them as two opaque functions, and
 every call into the core hands back the requests it issued, so that "no
 request" and "exactly this request" can be stated about it.
 */
module Client {

  datatype Option<T> = None | Some(value: T)

  /** A resource name inside a path: either as the user wrote it, or already URL-encoded. */
  datatype Name = Name(s: string) | UrlEncodedName(s: string)

  /** Selector of a build inside a job: a number or a symbolic alias. */
  datatype BuildNumber =
    | Number(n: nat)
    | LastBuild | LastStableBuild | LastSuccessfulBuild | LastFailedBuild
    | LastUnstableBuild | LastUnsuccessfulBuild | LastCompletedBuild | FirstBuild

  /**
   A typed path on the server.  `Raw` stands for the paths the modelled
   operations do not inspect.  Only `Job`, `JobEnable`, `JobDisable`,
   `AddJobToView`, `RemoveJobFromView`, `PollSCMJob` and `MavenArtifactRecord`
   are produced or inspected by the modelled core.
   */
  datatype Path =
    | Home
    | View(name: Name)
    | AddJobToView(jobName: Name, viewName: Name)
    | RemoveJobFromView(jobName: Name, viewName: Name)
    | Job(name: Name, configuration: Option<Name>)
    | BuildJob(name: Name)
    | PollSCMJob(name: Name)
    | JobEnable(name: Name)
    | JobDisable(name: Name)
    | Build(jobName: Name, number: BuildNumber, configuration: Option<Name>)
    | ConsoleText(jobName: Name, number: BuildNumber, configuration: Option<Name>)
    | Queue
    | QueueItem(id: nat)
    | MavenArtifactRecord(jobName: Name, number: BuildNumber, configuration: Option<Name>)
    | Raw(path: string)

  /** The kind of resource a URL was expected to point at, or an object was expected to be. */
  datatype ExpectedType = Build | Job | QueueItem | View | MavenArtifactRecord

  /** What was being attempted on an object of an unknown variant. */
  datatype Action = GetField(field: string)

  /**
   Errors of the client.  `variantName` is the discriminator that the
   unknown variant captured (none when the payload had none).  Transport
   and decode failures come from the collaborators and are passed through
   unchanged.
   */
  datatype Error =
    | InvalidUrl(url: string, expected: ExpectedType)
    | InvalidObjectType(objectType: ExpectedType, action: Action, variantName: Option<string>)
    | TransportError(detail: string)
    | DecodeError(detail: string)

  datatype Result<T> = Ok(value: T) | Err(error: Error)

  datatype Request = Get(path: Path) | Post(path: Path)

  /** The raw body of a server response; its JSON decoding is a collaborator. */
  datatype Response = Response(body: seq<bv8>)

  /**
   A configured client: `urlToPath` is the URL codec (relative to the base
   URL it was configured with), `transport` answers one request.
   */
  datatype Jenkins = Jenkins(urlToPath: string -> Path, transport: Request -> Result<Response>)

  /** The outcome of a call into the core, together with every request it issued, in order. */
  datatype Call<T> = Call(result: Result<T>, requests: seq<Request>)

  /** The value `json` decodes from the body the server returns to a GET of `p`. */
  ghost predicate Fetched<T>(c: Jenkins, p: Path, json: Response -> Result<T>, v: T)
  {
    c.transport(Get(p)).Ok? && json(c.transport(Get(p)).value) == Ok(v)
  }

  /** One GET of `p`, its body decoded by `json`; both failures propagate. */
  function SendGet<T>(c: Jenkins, p: Path, json: Response -> Result<T>): (r: Call<T>)
    ensures r.requests == [Get(p)]
    ensures c.transport(Get(p)).Err? ==> r.result == Err(c.transport(Get(p)).error)
    ensures c.transport(Get(p)).Ok? ==> r.result == json(c.transport(Get(p)).value)
  {
    match c.transport(Get(p))
    case Err(e) => Call(Err(e), [Get(p)])
    case Ok(response) => Call(json(response), [Get(p)])
  }

  /** One POST to `p`; the body of the answer is discarded. */
  function SendPost(c: Jenkins, p: Path): (r: Call<()>)
    ensures r.requests == [Post(p)]
    ensures r.result.Ok? <==> c.transport(Post(p)).Ok?
    ensures r.result.Err? ==> r.result.error == c.transport(Post(p)).error
  {
    match c.transport(Post(p))
    case Err(e) => Call(Err(e), [Post(p)])
    case Ok(_) => Call(Ok(()), [Post(p)])
  }
}
