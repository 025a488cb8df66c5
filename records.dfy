/** The persisted rows the services read and write (scripts, the two render-job
    tables, uploaded assets), the errors the services raise, and the database
    as one object holding a map per table. */
module Records {
  import opened Common

  /** Script.status */
  datatype ScriptStatus = DRAFT | PUBLISHED | ARCHIVED

  /** RenderedVideo.status: the four-state vocabulary of the legacy table. */
  datatype VideoStatus = PENDING | PROCESSING | COMPLETED | FAILED

  function StatusName(s: VideoStatus): string {
    match s
    case PENDING => "PENDING"
    case PROCESSING => "PROCESSING"
    case COMPLETED => "COMPLETED"
    case FAILED => "FAILED"
  }

  /** One element of Script.scenes: either a scene object (only its spoken
      `text` is read by the render path) or, for templated scripts, a bare
      voice-text string. */
  datatype SceneItem = SceneObject(text: Option<string>) | VoiceLine(line: string)

  datatype Script = Script(
    id: string,
    courseId: string,
    scenes: Option<seq<SceneItem>>,
    originalScenes: Option<seq<SceneItem>>,
    status: ScriptStatus,
    isTemplated: bool,
    templateId: Option<string>,
    templateData: Option<map<string, string>>)

  /** What was submitted to the template-rendering provider (`requestPayload`). */
  datatype Payload =
    | EmptyPayload
    | TemplatePayload(test: bool, templateId: string, templateData: map<string, string>,
                      title: string, description: Option<string>)

  /** A row of the legacy RenderedVideo table. */
  datatype RenderedVideo = RenderedVideo(
    id: string,
    scriptId: string,
    externalId: Option<string>,
    status: VideoStatus,
    provider: Option<string>,
    downloadUrl: Option<string>,
    requestPayload: Option<Payload>)

  /** A row of the SynthesiaRenderedVideo table; its status is a free string and
      its provider id is whatever the provider's reply carried, possibly nothing. */
  datatype SynthesiaVideo = SynthesiaVideo(
    id: string,
    synthesiaId: Option<string>,
    status: string,
    scriptId: Option<string>,
    downloadUrl: Option<string>)

  datatype AssetType = IMAGE | VIDEO | AUDIO

  datatype Asset = Asset(
    id: string,
    originalName: string,
    mimeType: string,
    minioObjectKey: string,
    synthesiaId: string,
    assetType: AssetType,
    title: string)

  /** The exceptions the services raise. */
  datatype Error =
    | NotFound(what: string)
    | InvalidFormat(code: int)           // provider body was not JSON
    | ApiFailure(code: int)              // provider answered with a non-2xx status
    | MissingApiKey
    | MissingExternalId                  // provider reply carried no job id
    | NotSynthesiaVideo(videoId: string)
    | NoExternalId(videoId: string)      // stored row has no provider job id
    | StorageFailure
    | UploadFailure
    | GenerationFailure                  // empty completion from the language model
    | InvalidJson                        // completion that does not parse
    | VariablesNotArray                  // template variables are not a list
    | TypeError                          // a property read on null or undefined

  datatype Result<T> = Ok(value: T) | Err(error: Error)

  /** One HTTP exchange as the services see it: a body that did not parse as
      JSON, or a parsed body with its status code. */
  datatype Http<T> = NonJson(code: int) | Reply(code: int, body: T)

  /** `res.ok` */
  predicate Is2xx(code: int) {
    200 <= code <= 299
  }

  /** How both providers' fetch helpers read a reply: the body is parsed
      first, so a body that is not JSON is an error whatever the status; a JSON
      body with a non-2xx status is an error; otherwise the parsed body is
      returned. */
  function Classify<T>(r: Http<T>): (res: Result<T>)
    ensures res.Ok? <==> r.Reply? && Is2xx(r.code)
    ensures res.Ok? ==> res.value == r.body
    ensures r.NonJson? ==> res == Err(InvalidFormat(r.code))
    ensures r.Reply? && !Is2xx(r.code) ==> res == Err(ApiFailure(r.code))
  {
    match r
    case NonJson(code) => Err(InvalidFormat(code))
    case Reply(code, body) => if Is2xx(code) then Ok(body) else Err(ApiFailure(code))
  }

  /** The database: one map per table, keyed by row id. */
  class Database {
    var scripts: map<string, Script>
    var renderedVideos: map<string, RenderedVideo>
    var synthesiaVideos: map<string, SynthesiaVideo>
    var assets: map<string, Asset>

    /** Every row is stored under its own id. */
    ghost predicate Valid()
      reads this
    {
      && (forall k :: k in scripts ==> scripts[k].id == k)
      && (forall k :: k in renderedVideos ==> renderedVideos[k].id == k)
      && (forall k :: k in synthesiaVideos ==> synthesiaVideos[k].id == k)
      && (forall k :: k in assets ==> assets[k].id == k)
    }

    constructor ()
      ensures Valid()
      ensures scripts == map[] && renderedVideos == map[] && synthesiaVideos == map[] && assets == map[]
    {
      scripts, renderedVideos, synthesiaVideos, assets := map[], map[], map[], map[];
    }
  }
}
