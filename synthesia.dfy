/** The Synthesia render-job service: choosing the endpoint and payload for a
    script, submitting it, and reconciling the two render-job tables with the
    status Synthesia reports. The HTTP API is a function argument `api`. */
module Synthesia {
  import opened Common
  import opened Records

  /** The fields of a Synthesia video object the service reads. */
  datatype VideoBody = VideoBody(id: Option<string>, status: Option<string>, download: Option<string>)

  /** The body of a "video from scratch" request; the service reads only the
      script it belongs to and forwards the rest unchanged. */
  datatype ScratchDto = ScratchDto(title: string, scriptId: Option<string>)

  /** The calls the service makes. */
  datatype Request =
    | Get(path: string)
    | PostRender(path: string, payload: Payload)
    | PostScratch(path: string, dto: ScratchDto)

  type Api = Request -> Http<VideoBody>

  /** CreateSynthesiaVideoDto, the fields `generateVideo` reads. */
  datatype VideoDto = VideoDto(
    title: Option<string>,
    description: Option<string>,
    test: Option<bool>,
    templateId: Option<string>,
    templateData: Option<map<string, string>>)

  /** What `generateVideo` returns to the caller. */
  datatype Started = Started(videoId: string, externalId: string, status: string)

  /** What `checkStatus` returns to the caller. */
  datatype StatusReport = StatusReport(videoId: string, status: string, downloadUrl: Option<string>)

  // ---------------------------------------------------------------------------
  // Payload selection

  /** The stored template data overridden key by key by the request's. */
  function MergeTemplateData(stored: map<string, string>, overrides: Option<map<string, string>>)
    : (r: map<string, string>)
    ensures overrides.None? ==> r == stored
    ensures overrides.Some? ==> r.Keys == stored.Keys + overrides.value.Keys
    ensures overrides.Some? ==> forall k :: k in overrides.value ==> r[k] == overrides.value[k]
    ensures forall k :: k in stored && (overrides.None? || k !in overrides.value) ==> r[k] == stored[k]
  {
    if overrides.Some? then stored + overrides.value else stored
  }

  function TestFlag(dto: VideoDto): bool {
    if dto.test.Some? then dto.test.value else true
  }

  function VideoTitle(dto: VideoDto, scriptId: string): string {
    OrElse(dto.title, "Script " + scriptId)
  }

  /** Endpoint and payload `generateVideo` sends for a script: template mode
      for a templated script that names its template, otherwise template mode
      when the request names a template, otherwise the bare `/videos` call with
      an empty payload. */
  function RequestFor(script: Script, dto: VideoDto, scriptId: string): (r: (string, Payload))
    ensures script.isTemplated && Truthy(script.templateId) ==>
      r.0 == "/videos/fromTemplate" && r.1.TemplatePayload? &&
      r.1.templateId == script.templateId.value &&
      r.1.templateData == MergeTemplateData(if script.templateData.Some? then script.templateData.value else map[], dto.templateData)
    ensures !(script.isTemplated && Truthy(script.templateId)) && Truthy(dto.templateId) ==>
      r.0 == "/videos/fromTemplate" && r.1.TemplatePayload? &&
      r.1.templateId == dto.templateId.value &&
      r.1.templateData == (if dto.templateData.Some? then dto.templateData.value else map[])
    ensures r.1.TemplatePayload? ==>
      r.1.test == (dto.test != Some(false)) &&
      r.1.title == (if Truthy(dto.title) then dto.title.value else "Script " + scriptId) &&
      r.1.description == dto.description
    ensures !(script.isTemplated && Truthy(script.templateId)) && !Truthy(dto.templateId) ==>
      r == ("/videos", EmptyPayload)
  {
    if script.isTemplated && Truthy(script.templateId) then
      var stored := if script.templateData.Some? then script.templateData.value else map[];
      ("/videos/fromTemplate",
       TemplatePayload(TestFlag(dto), script.templateId.value, MergeTemplateData(stored, dto.templateData),
                       VideoTitle(dto, scriptId), dto.description))
    else if Truthy(dto.templateId) then
      ("/videos/fromTemplate",
       TemplatePayload(TestFlag(dto), dto.templateId.value,
                       if dto.templateData.Some? then dto.templateData.value else map[],
                       VideoTitle(dto, scriptId), dto.description))
    else ("/videos", EmptyPayload)
  }

  /** The step-by-step construction in `generateVideo`: start from `/videos`
      and `{}` and overwrite them in the template branches. */
  method BuildRequest(script: Script, dto: VideoDto, scriptId: string) returns (endpoint: string, payload: Payload)
    ensures (endpoint, payload) == RequestFor(script, dto, scriptId)
  {
    var test := if dto.test.Some? then dto.test.value else true;
    endpoint := "/videos";
    payload := EmptyPayload;
    if script.isTemplated && Truthy(script.templateId) {
      endpoint := "/videos/fromTemplate";
      var templateData := if script.templateData.Some? then script.templateData.value else map[];
      if dto.templateData.Some? {
        templateData := templateData + dto.templateData.value;
      }
      payload := TemplatePayload(test, script.templateId.value, templateData,
                                 VideoTitle(dto, scriptId), dto.description);
    } else if Truthy(dto.templateId) {
      endpoint := "/videos/fromTemplate";
      payload := TemplatePayload(test, dto.templateId.value,
                                 if dto.templateData.Some? then dto.templateData.value else map[],
                                 VideoTitle(dto, scriptId), dto.description);
    }
  }

  /** A templated script that names its template always goes to template mode
      with its own template id, whatever template the request names. */
  lemma TemplatedScriptIgnoresRequestTemplate(script: Script, dto: VideoDto, other: Option<string>, scriptId: string)
    requires script.isTemplated && Truthy(script.templateId)
    ensures RequestFor(script, dto, scriptId) == RequestFor(script, dto.(templateId := other), scriptId)
    ensures RequestFor(script, dto, scriptId).1.templateId == script.templateId.value
  {
  }

  // ---------------------------------------------------------------------------
  // Submission

  /** The outcome of the provider call in `generateVideo`, before anything is
      stored: the payload sent and the job id the provider returned. */
  function Submission(scripts: map<string, Script>, scriptId: string, dto: VideoDto, api: Api)
    : (r: Result<(Payload, string)>)
    ensures scriptId !in scripts ==> r == Err(NotFound(scriptId))
    ensures r.Ok? ==> (scriptId in scripts && r.value.1 != "" &&
      r.value.0 == RequestFor(scripts[scriptId], dto, scriptId).1)
    ensures scriptId in scripts ==>
      var (endpoint, payload) := RequestFor(scripts[scriptId], dto, scriptId);
      var reply := api(PostRender(endpoint, payload));
      (r.Ok? <==> reply.Reply? && Is2xx(reply.code) && Truthy(reply.body.id)) &&
      (r.Ok? ==> reply.body.id == Some(r.value.1)) &&
      (reply.NonJson? ==> r == Err(InvalidFormat(reply.code))) &&
      (reply.Reply? && !Is2xx(reply.code) ==> r == Err(ApiFailure(reply.code))) &&
      (reply.Reply? && Is2xx(reply.code) && !Truthy(reply.body.id) ==> r == Err(MissingExternalId))
  {
    if scriptId !in scripts then Err(NotFound(scriptId))
    else
      var (endpoint, payload) := RequestFor(scripts[scriptId], dto, scriptId);
      match Classify(api(PostRender(endpoint, payload)))
      case Err(e) => Err(e)
      case Ok(body) =>
        if Truthy(body.id) then Ok((payload, body.id.value)) else Err(MissingExternalId)
  }

  /** `generateVideo`: a new legacy row is created exactly when the script
      exists and the provider returned a job id; it is PENDING, belongs to
      SYNTHESIA and records the payload that was sent. */
  method GenerateVideo(db: Database, scriptId: string, dto: VideoDto, api: Api, newId: string)
    returns (r: Result<Started>)
    requires db.Valid() && newId !in db.renderedVideos
    modifies db
    ensures db.Valid()
    ensures db.scripts == old(db.scripts) && db.synthesiaVideos == old(db.synthesiaVideos) && db.assets == old(db.assets)
    ensures r.Ok? <==> Submission(old(db.scripts), scriptId, dto, api).Ok?
    ensures r.Err? ==> (db.renderedVideos == old(db.renderedVideos) &&
      r.error == Submission(old(db.scripts), scriptId, dto, api).error)
    ensures r.Ok? ==>
      var (payload, externalId) := Submission(old(db.scripts), scriptId, dto, api).value;
      r.value == Started(newId, externalId, "PENDING") &&
      db.renderedVideos == old(db.renderedVideos)[newId :=
        RenderedVideo(newId, scriptId, Some(externalId), PENDING, Some("SYNTHESIA"), None, Some(payload))]
  {
    if scriptId !in db.scripts {
      return Err(NotFound(scriptId));
    }
    var script := db.scripts[scriptId];
    var endpoint, payload := BuildRequest(script, dto, scriptId);
    var response := Classify(api(PostRender(endpoint, payload)));
    if response.Err? {
      return Err(response.error);
    }
    var externalId := response.value.id;
    if !Truthy(externalId) {
      return Err(MissingExternalId);
    }
    db.renderedVideos := db.renderedVideos[newId :=
      RenderedVideo(newId, script.id, externalId, PENDING, Some("SYNTHESIA"), None, Some(payload))];
    r := Ok(Started(newId, externalId.value, "PENDING"));
  }

  /** `createVideoFromScratch`: forwards the request to `/videos` and, when the
      provider accepts it, records a `processing` row in the new table. */
  method CreateVideoFromScratch(db: Database, dto: ScratchDto, api: Api, newId: string)
    returns (r: Result<(string, Option<string>)>)
    requires db.Valid() && newId !in db.synthesiaVideos
    modifies db
    ensures db.Valid()
    ensures db.scripts == old(db.scripts) && db.renderedVideos == old(db.renderedVideos) && db.assets == old(db.assets)
    ensures r.Ok? <==> Classify(api(PostScratch("/videos", dto))).Ok?
    ensures r.Err? ==> (db.synthesiaVideos == old(db.synthesiaVideos) &&
      r.error == Classify(api(PostScratch("/videos", dto))).error)
    ensures r.Ok? ==>
      var body := api(PostScratch("/videos", dto)).body;
      r.value == (newId, body.id) &&
      db.synthesiaVideos == old(db.synthesiaVideos)[newId :=
        SynthesiaVideo(newId, body.id, "processing", if Truthy(dto.scriptId) then dto.scriptId else None, None)]
  {
    var response := Classify(api(PostScratch("/videos", dto)));
    if response.Err? {
      return Err(response.error);
    }
    var scriptId := if Truthy(dto.scriptId) then dto.scriptId else None;
    db.synthesiaVideos := db.synthesiaVideos[newId :=
      SynthesiaVideo(newId, response.value.id, "processing", scriptId, None)];
    r := Ok((newId, response.value.id));
  }

  // ---------------------------------------------------------------------------
  // Status reconciliation

  /** `downloadUrl || stored`: a new URL replaces the stored one only when it
      is a non-empty string. */
  function KeepUrl(incoming: Option<string>, stored: Option<string>): (r: Option<string>)
    ensures r == incoming || r == stored
    ensures r != stored ==> Truthy(incoming) && r == incoming
    ensures Truthy(incoming) ==> r == incoming
  {
    if Truthy(incoming) then incoming else stored
  }

  /** Legacy-table mapping of a Synthesia status (`checkStatus`). */
  function LegacyStatus(vendor: Option<string>, stored: VideoStatus): (r: VideoStatus)
    ensures vendor == Some("complete") ==> r == COMPLETED
    ensures vendor == Some("created") || vendor == Some("queued") ==> r == PENDING
    ensures vendor == Some("in_progress") ==> r == PROCESSING
    ensures (vendor.Some? && vendor.value !in {"complete", "created", "queued", "in_progress"} &&
             (Includes(vendor.value, "fail") || vendor.value == "error")) ==> r == FAILED
    ensures vendor.None? ==> r == stored
    ensures (vendor.Some? && vendor.value !in {"complete", "created", "queued", "in_progress"} &&
             !Includes(vendor.value, "fail") && vendor.value != "error") ==> r == stored
  {
    if vendor == Some("complete") then COMPLETED
    else if vendor == Some("created") || vendor == Some("queued") then PENDING
    else if vendor == Some("in_progress") then PROCESSING
    else if vendor.Some? && (Includes(vendor.value, "fail") || vendor.value == "error") then FAILED
    else stored
  }

  /** New-table mapping of a Synthesia status (`checkStatusNew`). */
  function NewTableStatus(vendor: Option<string>, stored: string): (r: string)
    ensures vendor == Some("complete") ==> r == "completed"
    ensures vendor == Some("in_progress") || vendor == Some("created") || vendor == Some("queued") ==> r == "processing"
    ensures vendor == Some("failed") || vendor == Some("error") ==> r == "failed"
    ensures vendor.None? || vendor.value !in {"complete", "in_progress", "created", "queued", "failed", "error"} ==>
            r == stored
  {
    if vendor == Some("complete") then "completed"
    else if vendor == Some("in_progress") then "processing"
    else if vendor == Some("created") || vendor == Some("queued") then "processing"
    else if vendor == Some("failed") || vendor == Some("error") then "failed"
    else stored
  }

  /** The row `checkStatus` writes back to the legacy table. */
  function ReconcileLegacy(v: RenderedVideo, body: VideoBody): (r: RenderedVideo)
    ensures r.id == v.id && r.scriptId == v.scriptId && r.externalId == v.externalId
    ensures r.provider == v.provider && r.requestPayload == v.requestPayload
    ensures r.status == LegacyStatus(body.status, v.status)
    ensures r.downloadUrl == KeepUrl(body.download, v.downloadUrl)
  {
    v.(status := LegacyStatus(body.status, v.status), downloadUrl := KeepUrl(body.download, v.downloadUrl))
  }

  /** The row `checkStatusNew` writes back to the new table. */
  function ReconcileNew(v: SynthesiaVideo, body: VideoBody): (r: SynthesiaVideo)
    ensures r.id == v.id && r.synthesiaId == v.synthesiaId && r.scriptId == v.scriptId
    ensures r.status == NewTableStatus(body.status, v.status)
    ensures r.downloadUrl == KeepUrl(body.download, v.downloadUrl)
  {
    v.(status := NewTableStatus(body.status, v.status), downloadUrl := KeepUrl(body.download, v.downloadUrl))
  }

  /** Polling twice with the same provider answer stores what polling once does. */
  lemma ReconcileIdempotent(v: RenderedVideo, w: SynthesiaVideo, body: VideoBody)
    ensures ReconcileLegacy(ReconcileLegacy(v, body), body) == ReconcileLegacy(v, body)
    ensures ReconcileNew(ReconcileNew(w, body), body) == ReconcileNew(w, body)
  {
  }

  /** A completed legacy row is moved back to PROCESSING by a later
      `in_progress` answer: nothing protects a terminal status. */
  lemma TerminalStatusIsOverwritten(v: RenderedVideo)
    requires v.status == COMPLETED
    ensures ReconcileLegacy(v, VideoBody(None, Some("in_progress"), None)).status == PROCESSING
  {
  }

  /** The two tables disagree: `queued` is PENDING in the legacy table but
      `processing` in the new one, and a status such as `payment_failed` is a
      failure only in the legacy table. */
  lemma MappingsDisagree(stored: VideoStatus, storedNew: string)
    ensures LegacyStatus(Some("queued"), stored) == PENDING && NewTableStatus(Some("queued"), storedNew) == "processing"
    ensures LegacyStatus(Some("payment_failed"), stored) == FAILED
    ensures NewTableStatus(Some("payment_failed"), storedNew) == storedNew
  {
    assert "payment_failed"[8..][..4] == "fail";
    assert StartsWith("payment_failed"[8..], "fail");
  }

  /** `/videos/${id}` for an id read back from the table, where an absent id is `null`. */
  function VideoPath(id: Option<string>): string {
    "/videos/" + (if id.Some? then id.value else "null")
  }

  /** `checkStatus`: the new table is consulted first and the legacy table
      only for ids absent from it; a legacy row must belong to SYNTHESIA and
      carry an external id before the provider is asked; a failed provider
      call changes nothing; otherwise exactly the looked-up row is rewritten. */
  method CheckStatus(db: Database, videoId: string, api: Api) returns (r: Result<StatusReport>)
    requires db.Valid()
    modifies db
    ensures db.Valid()
    ensures db.scripts == old(db.scripts) && db.assets == old(db.assets)
    ensures videoId in old(db.synthesiaVideos) ==>
      var row := old(db.synthesiaVideos)[videoId];
      var reply := Classify(api(Get(VideoPath(row.synthesiaId))));
      db.renderedVideos == old(db.renderedVideos) &&
      (reply.Err? ==> r == Err(reply.error) && db.synthesiaVideos == old(db.synthesiaVideos)) &&
      (reply.Ok? ==>
        var updated := ReconcileNew(row, reply.value);
        db.synthesiaVideos == old(db.synthesiaVideos)[videoId := updated] &&
        r == Ok(StatusReport(videoId, updated.status, updated.downloadUrl)))
    ensures videoId !in old(db.synthesiaVideos) ==> db.synthesiaVideos == old(db.synthesiaVideos)
    ensures videoId !in old(db.synthesiaVideos) && videoId !in old(db.renderedVideos) ==>
      r == Err(NotFound(videoId)) && db.renderedVideos == old(db.renderedVideos)
    ensures videoId !in old(db.synthesiaVideos) && videoId in old(db.renderedVideos) ==>
      var row := old(db.renderedVideos)[videoId];
      if row.provider != Some("SYNTHESIA") then
        r == Err(NotSynthesiaVideo(videoId)) && db.renderedVideos == old(db.renderedVideos)
      else if !Truthy(row.externalId) then
        r == Err(NoExternalId(videoId)) && db.renderedVideos == old(db.renderedVideos)
      else
        var reply := Classify(api(Get("/videos/" + row.externalId.value)));
        (reply.Err? ==> r == Err(reply.error) && db.renderedVideos == old(db.renderedVideos)) &&
        (reply.Ok? ==>
          var updated := ReconcileLegacy(row, reply.value);
          db.renderedVideos == old(db.renderedVideos)[videoId := updated] &&
          r == Ok(StatusReport(videoId, StatusName(updated.status), updated.downloadUrl)))
  {
    if videoId in db.synthesiaVideos {
      r := CheckStatusNew(db, db.synthesiaVideos[videoId], api);
      return;
    }
    if videoId !in db.renderedVideos {
      return Err(NotFound(videoId));
    }
    var video := db.renderedVideos[videoId];
    if video.provider != Some("SYNTHESIA") {
      return Err(NotSynthesiaVideo(videoId));
    }
    if !Truthy(video.externalId) {
      return Err(NoExternalId(videoId));
    }
    var response := Classify(api(Get("/videos/" + video.externalId.value)));
    if response.Err? {
      return Err(response.error);
    }
    var status := response.value.status;
    var newStatus := video.status;
    if status == Some("complete") {
      newStatus := COMPLETED;
    } else if status == Some("created") || status == Some("queued") {
      newStatus := PENDING;
    } else if status == Some("in_progress") {
      newStatus := PROCESSING;
    } else if status.Some? && (Includes(status.value, "fail") || status.value == "error") {
      newStatus := FAILED;
    }
    var updated := video.(status := newStatus, downloadUrl := KeepUrl(response.value.download, video.downloadUrl));
    db.renderedVideos := db.renderedVideos[videoId := updated];
    r := Ok(StatusReport(videoId, StatusName(newStatus), updated.downloadUrl));
  }

  /** `checkStatusNew` for a row of the new table. */
  method CheckStatusNew(db: Database, video: SynthesiaVideo, api: Api) returns (r: Result<StatusReport>)
    requires db.Valid() && video.id in db.synthesiaVideos && db.synthesiaVideos[video.id] == video
    modifies db
    ensures db.Valid()
    ensures db.scripts == old(db.scripts) && db.assets == old(db.assets) && db.renderedVideos == old(db.renderedVideos)
    ensures var reply := Classify(api(Get(VideoPath(video.synthesiaId))));
      (reply.Err? ==> r == Err(reply.error) && db.synthesiaVideos == old(db.synthesiaVideos)) &&
      (reply.Ok? ==>
        var updated := ReconcileNew(video, reply.value);
        db.synthesiaVideos == old(db.synthesiaVideos)[video.id := updated] &&
        r == Ok(StatusReport(video.id, updated.status, updated.downloadUrl)))
  {
    var response := Classify(api(Get(VideoPath(video.synthesiaId))));
    if response.Err? {
      return Err(response.error);
    }
    var status := response.value.status;
    var newStatus := video.status;
    if status == Some("complete") {
      newStatus := "completed";
    } else if status == Some("in_progress") {
      newStatus := "processing";
    } else if status == Some("created") || status == Some("queued") {
      newStatus := "processing";
    } else if status == Some("failed") || status == Some("error") {
      newStatus := "failed";
    }
    var updated := video.(status := newStatus, downloadUrl := KeepUrl(response.value.download, video.downloadUrl));
    db.synthesiaVideos := db.synthesiaVideos[video.id := updated];
    r := Ok(StatusReport(video.id, newStatus, updated.downloadUrl));
  }
}
