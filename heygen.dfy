/** The HeyGen render-job service: resolving avatar and voice, building the
    one-scene generation payload, submitting it, and reconciling the legacy
    render-job table with the status HeyGen reports. The HTTP API is a function
    argument `api`; the configured API key is an argument `apiKey`. */
module HeyGen {
  import opened Common
  import opened Records

  datatype AvatarEntry = AvatarEntry(avatarId: string)
  datatype VoiceEntry = VoiceEntry(voiceId: string, language: Option<string>, locale: Option<string>)

  /** One element of `video_inputs`: the avatar, the voice reading the text,
      and a solid background colour. */
  datatype VideoInput = VideoInput(avatarId: string, avatarStyle: string, voiceId: string,
                                   inputText: Option<string>, background: string)

  datatype GeneratePayload = GeneratePayload(videoInputs: seq<VideoInput>, width: int, height: int)

  /** The calls the service makes. */
  datatype Request = ListAvatars | ListVoices | Generate(payload: GeneratePayload) | StatusOf(externalId: string)

  /** The fields of a reply's `data` object the service reads; all absent
      when the reply has no `data`. */
  datatype Data = Data(avatars: Option<seq<AvatarEntry>>, voices: Option<seq<VoiceEntry>>,
                       videoId: Option<string>, status: Option<string>, videoUrl: Option<string>)

  type Api = Request -> Http<Data>

  /** What `generateVideo` returns to the caller. */
  datatype Started = Started(videoId: string, externalId: string, status: string)

  /** What `checkStatus` returns to the caller. */
  datatype StatusReport = StatusReport(videoId: string, status: string, downloadUrl: Option<string>)

  const FallbackAvatar := "Anna_public_3_20240108"
  const FallbackVoice := "2d5b0e6cf361460aa9853f191196152a"

  /** `fetchFromHeyGen`: refuses to call out without an API key, then reads
      the reply as both providers do. */
  function Fetch(apiKey: Option<string>, req: Request, api: Api): (r: Result<Data>)
    ensures !Truthy(apiKey) ==> r == Err(MissingApiKey)
    ensures Truthy(apiKey) ==> (r.Ok? <==> api(req).Reply? && Is2xx(api(req).code))
    ensures r.Ok? ==> r.value == api(req).body
  {
    if !Truthy(apiKey) then Err(MissingApiKey) else Classify(api(req))
  }

  /** `getAvatars` / `getVoices`: a missing list reads as empty. */
  function AvatarList(d: Data): seq<AvatarEntry> {
    if d.avatars.Some? then d.avatars.value else []
  }

  function VoiceList(d: Data): seq<VoiceEntry> {
    if d.voices.Some? then d.voices.value else []
  }

  // ---------------------------------------------------------------------------
  // Defaults

  /** The first avatar of the catalog, or the built-in one when it is empty. */
  function DefaultAvatar(avatars: seq<AvatarEntry>): (id: string)
    ensures avatars != [] ==> id == avatars[0].avatarId
    ensures avatars == [] ==> id == FallbackAvatar
  {
    if |avatars| > 0 then avatars[0].avatarId else FallbackAvatar
  }

  predicate IsEnglish(v: VoiceEntry) {
    v.language == Some("English") || v.locale == Some("en-US")
  }


  /** The first English voice, else the first voice, else the built-in one. */
  function DefaultVoice(voices: seq<VoiceEntry>): (id: string)
    ensures (exists i :: 0 <= i < |voices| && IsEnglish(voices[i]) &&
               (forall j :: 0 <= j < i ==> !IsEnglish(voices[j])) && id == voices[i].voiceId)
         || ((forall j :: 0 <= j < |voices| ==> !IsEnglish(voices[j])) &&
             id == (if voices == [] then FallbackVoice else voices[0].voiceId))
  {
    match Find(voices, IsEnglish)
    case Some(i) => voices[i].voiceId
    case None => if |voices| > 0 then voices[0].voiceId else FallbackVoice
  }

  /** The avatar and voice `generateVideo` uses: the ones given, and for a
      missing one the catalog default; both catalogs are fetched, avatars
      first, only when at least one is missing. */
  function ResolveIds(apiKey: Option<string>, avatarId: Option<string>, voiceId: Option<string>, api: Api)
    : (r: Result<(string, string)>)
    ensures Truthy(avatarId) && Truthy(voiceId) ==> r == Ok((avatarId.value, voiceId.value))
    ensures !(Truthy(avatarId) && Truthy(voiceId)) ==>
      (r.Ok? <==> Fetch(apiKey, ListAvatars, api).Ok? && Fetch(apiKey, ListVoices, api).Ok?)
    ensures r.Ok? ==> r.value.0 == (if Truthy(avatarId) then avatarId.value
                                    else DefaultAvatar(AvatarList(Fetch(apiKey, ListAvatars, api).value)))
    ensures r.Ok? ==> r.value.1 == (if Truthy(voiceId) then voiceId.value
                                    else DefaultVoice(VoiceList(Fetch(apiKey, ListVoices, api).value)))
  {
    if Truthy(avatarId) && Truthy(voiceId) then Ok((avatarId.value, voiceId.value))
    else match Fetch(apiKey, ListAvatars, api)
      case Err(e) => Err(e)
      case Ok(a) =>
        match Fetch(apiKey, ListVoices, api)
        case Err(e) => Err(e)
        case Ok(v) =>
          Ok((if Truthy(avatarId) then avatarId.value else DefaultAvatar(AvatarList(a)),
              if Truthy(voiceId) then voiceId.value else DefaultVoice(VoiceList(v))))
  }

  /** Given both ids, the catalog is never consulted: the outcome is the same
      whatever the API would answer and whether or not a key is configured. */
  lemma GivenIdsNeedNoCatalog(k1: Option<string>, k2: Option<string>, a: string, v: string, api1: Api, api2: Api)
    requires a != "" && v != ""
    ensures ResolveIds(k1, Some(a), Some(v), api1) == ResolveIds(k2, Some(a), Some(v), api2) == Ok((a, v))
  {
  }

  // ---------------------------------------------------------------------------
  // Payload

  /** `scene.text`; a bare string scene has no `text`. */
  function SceneText(s: SceneItem): Option<string> {
    if s.SceneObject? then s.text else None
  }

  /** `video_inputs`: only the first scene is rendered, with the chosen avatar
      in normal style, the chosen voice reading the scene text, on white. */
  function VideoInputs(scenes: seq<SceneItem>, avatarId: string, voiceId: string): (r: seq<VideoInput>)
    ensures |r| <= 1 && (|r| == 1 <==> scenes != [])
    ensures scenes != [] ==> r[0] == VideoInput(avatarId, "normal", voiceId, SceneText(scenes[0]), "#ffffff")
  {
    seq(if |scenes| < 1 then |scenes| else 1,
        i requires 0 <= i < |scenes| => VideoInput(avatarId, "normal", voiceId, SceneText(scenes[i]), "#ffffff"))
  }

  function PayloadFor(scenes: seq<SceneItem>, avatarId: string, voiceId: string): (p: GeneratePayload)
    ensures p.width == 1280 && p.height == 720
    ensures p.videoInputs == VideoInputs(scenes, avatarId, voiceId)
  {
    GeneratePayload(VideoInputs(scenes, avatarId, voiceId), 1280, 720)
  }

  /** The outcome of the provider calls in `generateVideo`, before anything is
      stored: the payload sent and the job id returned. */
  function Submission(scripts: map<string, Script>, scriptId: string, apiKey: Option<string>,
                      avatarId: Option<string>, voiceId: Option<string>, api: Api)
    : (r: Result<(GeneratePayload, string)>)
    ensures scriptId !in scripts ==> r == Err(NotFound(scriptId))
    ensures scriptId in scripts && ResolveIds(apiKey, avatarId, voiceId, api).Err? ==>
      r == Err(ResolveIds(apiKey, avatarId, voiceId, api).error)
    ensures scriptId in scripts && ResolveIds(apiKey, avatarId, voiceId, api).Ok? && scripts[scriptId].scenes.None? ==>
      r == Err(TypeError)
    ensures scriptId in scripts && ResolveIds(apiKey, avatarId, voiceId, api).Ok? && scripts[scriptId].scenes.Some? ==>
      var ids := ResolveIds(apiKey, avatarId, voiceId, api).value;
      var p := PayloadFor(scripts[scriptId].scenes.value, ids.0, ids.1);
      var f := Fetch(apiKey, Generate(p), api);
      (f.Err? ==> r == Err(f.error)) &&
      (f.Ok? && !Truthy(f.value.videoId) ==> r == Err(MissingExternalId)) &&
      (f.Ok? && Truthy(f.value.videoId) ==> r == Ok((p, f.value.videoId.value)))
    ensures r.Ok? ==> (scriptId in scripts && scripts[scriptId].scenes.Some? &&
      ResolveIds(apiKey, avatarId, voiceId, api).Ok? && r.value.1 != "" &&
      var ids := ResolveIds(apiKey, avatarId, voiceId, api).value;
      r.value.0 == PayloadFor(scripts[scriptId].scenes.value, ids.0, ids.1) &&
      Fetch(apiKey, Generate(r.value.0), api).Ok? &&
      Fetch(apiKey, Generate(r.value.0), api).value.videoId == Some(r.value.1))
  {
    if scriptId !in scripts then Err(NotFound(scriptId))
    else match ResolveIds(apiKey, avatarId, voiceId, api)
      case Err(e) => Err(e)
      case Ok(ids) =>
        if scripts[scriptId].scenes.None? then Err(TypeError)
        else
          var payload := PayloadFor(scripts[scriptId].scenes.value, ids.0, ids.1);
          match Fetch(apiKey, Generate(payload), api)
          case Err(e) => Err(e)
          case Ok(d) => if Truthy(d.videoId) then Ok((payload, d.videoId.value)) else Err(MissingExternalId)
  }

  /** `generateVideo`: a new PENDING legacy row, with no provider recorded, is
      created exactly when the submission succeeds. */
  method GenerateVideo(db: Database, scriptId: string, apiKey: Option<string>,
                       avatarId: Option<string>, voiceId: Option<string>, api: Api, newId: string)
    returns (r: Result<Started>)
    requires db.Valid() && newId !in db.renderedVideos
    modifies db
    ensures db.Valid()
    ensures db.scripts == old(db.scripts) && db.synthesiaVideos == old(db.synthesiaVideos) && db.assets == old(db.assets)
    ensures r.Ok? <==> Submission(old(db.scripts), scriptId, apiKey, avatarId, voiceId, api).Ok?
    ensures r.Err? ==> (db.renderedVideos == old(db.renderedVideos) &&
      r.error == Submission(old(db.scripts), scriptId, apiKey, avatarId, voiceId, api).error)
    ensures r.Ok? ==>
      var externalId := Submission(old(db.scripts), scriptId, apiKey, avatarId, voiceId, api).value.1;
      r.value == Started(newId, externalId, "PENDING") &&
      db.renderedVideos == old(db.renderedVideos)[newId :=
        RenderedVideo(newId, scriptId, Some(externalId), PENDING, None, None, None)]
  {
    if scriptId !in db.scripts {
      return Err(NotFound(scriptId));
    }
    var script := db.scripts[scriptId];
    var avatar := avatarId;
    var voice := voiceId;
    if !Truthy(avatar) || !Truthy(voice) {
      var avatars := Fetch(apiKey, ListAvatars, api);
      if avatars.Err? {
        return Err(avatars.error);
      }
      var voices := Fetch(apiKey, ListVoices, api);
      if voices.Err? {
        return Err(voices.error);
      }
      if !Truthy(avatar) {
        avatar := Some(DefaultAvatar(AvatarList(avatars.value)));
      }
      if !Truthy(voice) {
        voice := Some(DefaultVoice(VoiceList(voices.value)));
      }
    }
    if script.scenes.None? {
      return Err(TypeError);
    }
    var payload := PayloadFor(script.scenes.value, avatar.value, voice.value);
    var response := Fetch(apiKey, Generate(payload), api);
    if response.Err? {
      return Err(response.error);
    }
    var externalId := response.value.videoId;
    if !Truthy(externalId) {
      return Err(MissingExternalId);
    }
    db.renderedVideos := db.renderedVideos[newId := RenderedVideo(newId, script.id, externalId, PENDING, None, None, None)];
    r := Ok(Started(newId, externalId.value, "PENDING"));
  }

  // ---------------------------------------------------------------------------
  // Status reconciliation

  /** HeyGen's status vocabulary mapped onto the legacy table's. */
  function HeyGenStatus(vendor: Option<string>, stored: VideoStatus): (r: VideoStatus)
    ensures vendor == Some("completed") ==> r == COMPLETED
    ensures vendor == Some("failed") ==> r == FAILED
    ensures vendor == Some("processing") ==> r == PROCESSING
    ensures vendor == Some("pending") ==> r == PENDING
    ensures vendor.None? || vendor.value !in {"completed", "failed", "processing", "pending"} ==> r == stored
  {
    if vendor == Some("completed") then COMPLETED
    else if vendor == Some("failed") then FAILED
    else if vendor == Some("processing") || vendor == Some("pending") then
      (if vendor == Some("processing") then PROCESSING else PENDING)
    else stored
  }

  /** The row `checkStatus` writes back: the new status, and the reported
      video URL only on completion (an absent URL leaves the stored one). */
  function Reconcile(v: RenderedVideo, d: Data): (r: RenderedVideo)
    ensures r.id == v.id && r.scriptId == v.scriptId && r.externalId == v.externalId
    ensures r.provider == v.provider && r.requestPayload == v.requestPayload
    ensures r.status == HeyGenStatus(d.status, v.status)
    ensures r.downloadUrl != v.downloadUrl ==> d.status == Some("completed") && r.downloadUrl == d.videoUrl
    ensures d.status == Some("completed") && d.videoUrl.Some? ==> r.downloadUrl == d.videoUrl
    ensures d.videoUrl.None? ==> r.downloadUrl == v.downloadUrl
  {
    var url := if d.status == Some("completed") && d.videoUrl.Some? then d.videoUrl else v.downloadUrl;
    v.(status := HeyGenStatus(d.status, v.status), downloadUrl := url)
  }

  /** Polling twice with the same answer stores what polling once does. */
  lemma ReconcileIdempotent(v: RenderedVideo, d: Data)
    ensures Reconcile(Reconcile(v, d), d) == Reconcile(v, d)
  {
  }

  /** `checkStatus`: the row must exist and carry an external id; it is not
      required to belong to HeyGen. A failed call changes nothing; otherwise
      exactly that row is rewritten. */
  method CheckStatus(db: Database, videoId: string, apiKey: Option<string>, api: Api) returns (r: Result<StatusReport>)
    requires db.Valid()
    modifies db
    ensures db.Valid()
    ensures db.scripts == old(db.scripts) && db.synthesiaVideos == old(db.synthesiaVideos) && db.assets == old(db.assets)
    ensures videoId !in old(db.renderedVideos) ==> r == Err(NotFound(videoId)) && db.renderedVideos == old(db.renderedVideos)
    ensures videoId in old(db.renderedVideos) ==>
      var row := old(db.renderedVideos)[videoId];
      if !Truthy(row.externalId) then
        r == Err(NoExternalId(videoId)) && db.renderedVideos == old(db.renderedVideos)
      else
        var reply := Fetch(apiKey, StatusOf(row.externalId.value), api);
        (reply.Err? ==> r == Err(reply.error) && db.renderedVideos == old(db.renderedVideos)) &&
        (reply.Ok? ==>
          var updated := Reconcile(row, reply.value);
          db.renderedVideos == old(db.renderedVideos)[videoId := updated] &&
          r == Ok(StatusReport(videoId, StatusName(updated.status), updated.downloadUrl)))
  {
    if videoId !in db.renderedVideos {
      return Err(NotFound(videoId));
    }
    var video := db.renderedVideos[videoId];
    if !Truthy(video.externalId) {
      return Err(NoExternalId(videoId));
    }
    var response := Fetch(apiKey, StatusOf(video.externalId.value), api);
    if response.Err? {
      return Err(response.error);
    }
    var status := response.value.status;
    var newStatus := video.status;
    var downloadUrl := video.downloadUrl;
    if status == Some("completed") {
      newStatus := COMPLETED;
      if response.value.videoUrl.Some? {
        downloadUrl := response.value.videoUrl;
      }
    } else if status == Some("failed") {
      newStatus := FAILED;
    } else if status == Some("processing") || status == Some("pending") {
      newStatus := if status == Some("processing") then PROCESSING else PENDING;
    }
    var updated := video.(status := newStatus, downloadUrl := downloadUrl);
    db.renderedVideos := db.renderedVideos[videoId := updated];
    r := Ok(StatusReport(videoId, StatusName(newStatus), downloadUrl));
  }
}
