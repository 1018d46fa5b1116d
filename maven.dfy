/**
 Maven artifact records of a build, and the resolution of a short record to
 the full one.  Records are plain structs, not a tagged family: the codec
 decodes them directly.
 */
module Maven {
  import opened Client
  import opened Links

  /** An artifact produced by a build. */
  datatype Artifact = Artifact(
    artifactId: string,
    canonicalName: string,
    classifier: Option<string>,
    fileName: string,
    groupId: string,
    md5sum: string,
    artifactType: string,
    version: string)

  /** The artifacts produced by a build. */
  datatype MavenArtifactRecord = MavenArtifactRecord(
    url: string,
    attachedArtifacts: seq<Artifact>,
    mainArtifact: Artifact,
    parent: ShortBuild,
    pomArtifact: Artifact)

  /** Short artifact record, as returned with a maven build. */
  datatype ShortMavenArtifactRecord = ShortMavenArtifactRecord(url: string)
  {
    /**
     The full record behind this short one.  The URL must classify as a
     maven artifact record path; then that very path is fetched once and its
     body decoded.  Any other classification fails without a request.
     */
    function GetFullArtifactRecord(c: Jenkins, json: Response -> Result<MavenArtifactRecord>)
      : (r: Call<MavenArtifactRecord>)
      ensures r.requests == [] <==> !c.urlToPath(url).MavenArtifactRecord?
      ensures c.urlToPath(url).MavenArtifactRecord? ==> r.requests == [Get(c.urlToPath(url))]
      ensures !c.urlToPath(url).MavenArtifactRecord? ==>
        r.result == Err(InvalidUrl(url, ExpectedType.MavenArtifactRecord))
      ensures r.result.Ok? ==>
        c.urlToPath(url).MavenArtifactRecord? && Fetched(c, c.urlToPath(url), json, r.result.value)
      ensures c.urlToPath(url).MavenArtifactRecord? && c.transport(Get(c.urlToPath(url))).Err? ==>
        r.result == Err(c.transport(Get(c.urlToPath(url))).error)
      ensures c.urlToPath(url).MavenArtifactRecord? && c.transport(Get(c.urlToPath(url))).Ok? ==>
        r.result == json(c.transport(Get(c.urlToPath(url))).value)
    {
      var path := c.urlToPath(url);
      if path.MavenArtifactRecord? then SendGet(c, path, json)
      else Call(Err(InvalidUrl(url, ExpectedType.MavenArtifactRecord)), [])
    }
  }

  /** The default short record points nowhere: its URL is empty. */
  function DefaultShortMavenArtifactRecord(): (r: ShortMavenArtifactRecord)
    ensures |r.url| == 0
  {
    ShortMavenArtifactRecord("")
  }

  /**
   What a short record resolves to depends only on how its URL classifies
   and on the server's answer at that path: two clients that agree there
   give the same outcome, whatever they answer elsewhere.
   */
  lemma ArtifactRecordOnlyFromParsedPath(
    s: ShortMavenArtifactRecord, c1: Jenkins, c2: Jenkins, json: Response -> Result<MavenArtifactRecord>)
    requires c1.urlToPath(s.url) == c2.urlToPath(s.url)
    requires c1.transport(Get(c1.urlToPath(s.url))) == c2.transport(Get(c2.urlToPath(s.url)))
    ensures s.GetFullArtifactRecord(c1, json) == s.GetFullArtifactRecord(c2, json)
  {
  }
}
