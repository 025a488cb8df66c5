/** The asset service: storing an uploaded file in object storage, forwarding
    it to Synthesia when a key is configured, recording it, and asking
    Synthesia whether it knows an asset. The environment, the clock, object
    storage and the HTTP API are arguments. */
module Assets {
  import opened Common
  import opened Records

  /** The environment variables the service reads. */
  datatype Env = Env(minioEndpoint: Option<string>, minioBucket: Option<string>, synthesiaApiKey: Option<string>)

  /** The uploaded file, as the service reads it. */
  datatype Upload = Upload(originalName: string, mimeType: string)

  /** What `checkAssetStatus` reports. */
  datatype AssetStatus<T> = Found(data: T) | NotFoundOnSynthesia | StatusError(code: Option<int>) | Unknown

  function BucketName(env: Env): (b: string)
    ensures b != ""
    ensures Truthy(env.minioBucket) ==> b == env.minioBucket.value
  {
    OrElse(env.minioBucket, "synthesia-assets")
  }

  /** The key a status check authenticates with: the configured one or a
      placeholder, so never empty. */
  function StatusApiKey(env: Env): (k: string)
    ensures k != ""
  {
    OrElse(env.synthesiaApiKey, "dummy_key")
  }

  /** `${Date.now()}-${originalname}` */
  function ObjectKey(now: nat, originalName: string): (k: string)
    ensures StartsWith(k, NatToString(now) + "-")
    ensures |k| > |originalName| && k[|k| - |originalName|..] == originalName
  {
    NatToString(now) + "-" + originalName
  }

  /** `${MINIO_ENDPOINT}/${bucket}/${key}`, the URL returned by both upload
      and listing; an unset endpoint prints as `undefined`. */
  function AssetUrl(env: Env, key: string): string {
    Shown(env.minioEndpoint) + "/" + BucketName(env) + "/" + key
  }

  /** The key is the part of the URL after the last `/` when the name has no
      `/` of its own. */
  lemma UrlEndsWithKey(env: Env, now: nat, name: string)
    ensures var url := AssetUrl(env, ObjectKey(now, name));
      |url| >= |name| && url[|url| - |name|..] == name
  {
    var url := AssetUrl(env, ObjectKey(now, name));
    assert url[|url| - |name|..] == ObjectKey(now, name)[|ObjectKey(now, name)| - |name|..];
  }

  /** Mime type to asset type and upload endpoint: video and anything else
      go to `/assets`, audio to `/scriptAudio`. */
  function UploadKind(mimeType: string): (r: (AssetType, string))
    ensures StartsWith(mimeType, "video/") ==> r == (VIDEO, "/assets")
    ensures !StartsWith(mimeType, "video/") && StartsWith(mimeType, "audio/") ==> r == (AUDIO, "/scriptAudio")
    ensures !StartsWith(mimeType, "video/") && !StartsWith(mimeType, "audio/") ==> r == (IMAGE, "/assets")
    ensures r.1 == "/scriptAudio" <==> r.0 == AUDIO
  {
    if StartsWith(mimeType, "video/") then (VIDEO, "/assets")
    else if StartsWith(mimeType, "audio/") then (AUDIO, "/scriptAudio")
    else (IMAGE, "/assets")
  }

  /** The step-by-step classification in `uploadAsset`. */
  method ClassifyUpload(mimeType: string) returns (assetType: AssetType, endpoint: string)
    ensures (assetType, endpoint) == UploadKind(mimeType)
  {
    assetType := IMAGE;
    endpoint := "/assets";
    if StartsWith(mimeType, "video/") {
      assetType := VIDEO;
      endpoint := "/assets";
    } else if StartsWith(mimeType, "audio/") {
      assetType := AUDIO;
      endpoint := "/scriptAudio";
    }
  }

  /** The Synthesia upload: its reply is accepted only with a 2xx status and
      a JSON body, whose id replaces the mock one; every other outcome is an
      upload failure. */
  function SynthesiaAssetId(reply: Http<string>): (r: Result<string>)
    ensures r.Ok? <==> reply.Reply? && Is2xx(reply.code)
    ensures r.Ok? ==> r.value == reply.body
    ensures r.Err? ==> r.error == UploadFailure
  {
    if reply.Reply? && Is2xx(reply.code) then Ok(reply.body) else Err(UploadFailure)
  }

  /** `uploadAsset`: a failed store is an error; with a Synthesia key the
      upload's id is recorded (a failed upload is an error), without one the
      mock id; the new row's title is the file name. `keyTime` and
      `mockTime` are the two clock readings. */
  method UploadAsset(db: Database, file: Upload, env: Env, keyTime: nat, mockTime: nat, stored: bool,
                     upload: string -> Http<string>, newId: string)
    returns (r: Result<(Asset, string)>)
    requires db.Valid() && newId !in db.assets
    modifies db
    ensures db.Valid()
    ensures db.scripts == old(db.scripts) && db.renderedVideos == old(db.renderedVideos)
    ensures db.synthesiaVideos == old(db.synthesiaVideos)
    ensures !stored ==> r == Err(StorageFailure)
    ensures stored && Truthy(env.synthesiaApiKey) && SynthesiaAssetId(upload(UploadKind(file.mimeType).1)).Err? ==>
      r == Err(UploadFailure)
    ensures r.Err? ==> db.assets == old(db.assets)
    ensures r.Ok? ==>
      var key := ObjectKey(keyTime, file.originalName);
      var synthesiaId := if Truthy(env.synthesiaApiKey)
                         then SynthesiaAssetId(upload(UploadKind(file.mimeType).1)).value
                         else "mock_synthesia_id_" + NatToString(mockTime);
      r.value.0 == Asset(newId, file.originalName, file.mimeType, key, synthesiaId,
                         UploadKind(file.mimeType).0, file.originalName) &&
      r.value.1 == AssetUrl(env, key) &&
      db.assets == old(db.assets)[newId := r.value.0]
    ensures stored && !Truthy(env.synthesiaApiKey) ==> r.Ok?
    ensures stored && Truthy(env.synthesiaApiKey) && SynthesiaAssetId(upload(UploadKind(file.mimeType).1)).Ok? ==> r.Ok?
  {
    var key := ObjectKey(keyTime, file.originalName);
    if !stored {
      return Err(StorageFailure);
    }
    var url := AssetUrl(env, key);
    var synthesiaId := "mock_synthesia_id_" + NatToString(mockTime);
    var assetType, endpoint := ClassifyUpload(file.mimeType);
    if Truthy(env.synthesiaApiKey) {
      var reply := SynthesiaAssetId(upload(endpoint));
      if reply.Err? {
        return Err(UploadFailure);
      }
      synthesiaId := reply.value;
    }
    var asset := Asset(newId, file.originalName, file.mimeType, key, synthesiaId, assetType, file.originalName);
    db.assets := db.assets[newId := asset];
    r := Ok((asset, url));
  }

  /** `findAll`'s URLs, one per asset, in the given order. */
  function ListingUrls(env: Env, assets: seq<Asset>): (urls: seq<string>)
    ensures |urls| == |assets|
    ensures forall i :: 0 <= i < |assets| ==> urls[i] == AssetUrl(env, assets[i].minioObjectKey)
  {
    seq(|assets|, i requires 0 <= i < |assets| => AssetUrl(env, assets[i].minioObjectKey))
  }

  /** The id sent to the status check: the first `user.` removed. */
  function StatusPath(synthesiaId: string): string {
    "/assets/" + ReplaceFirst(synthesiaId, "user.", "")
  }

  lemma StatusPathStripsUserPrefix(id: string)
    ensures StartsWith(id, "user.") ==> StatusPath(id) == "/assets/" + id[5..]
    ensures !Includes(id, "user.") ==> StatusPath(id) == "/assets/" + id
  {
    if StartsWith(id, "user.") {
      ReplaceFirstOfPrefix(id, "user.");
    }
  }

  /** Only the first occurrence goes: `user.user.x` is asked for as `user.x`. */
  lemma StatusPathRemovesOnlyFirst()
    ensures StatusPath("user.user.x") == "/assets/user.x"
  {
    ReplaceFirstOfPrefix("user.user.x", "user.");
    assert "user.user.x"[5..] == "user.x";
  }

  /** The reply classification: 404 is "not found on Synthesia", any other
      non-2xx an error with its code, a 2xx JSON body "found", and a body
      that fails to parse or a call that throws (None) an error. */
  function StatusOf<T>(reply: Option<Http<T>>): (s: AssetStatus<T>)
    ensures reply.None? ==> s == StatusError(None)
    ensures reply.Some? && reply.value.code == 404 ==> s == NotFoundOnSynthesia
    ensures reply.Some? && reply.value.code != 404 && !Is2xx(reply.value.code) ==> s == StatusError(Some(reply.value.code))
    ensures reply.Some? && reply.value.Reply? && Is2xx(reply.value.code) ==> s == Found(reply.value.body)
    ensures reply.Some? && reply.value.NonJson? && Is2xx(reply.value.code) ==> s == StatusError(None)
    ensures s != Unknown
  {
    match reply
    case None => StatusError(None)
    case Some(h) =>
      if h.code == 404 then NotFoundOnSynthesia
      else if !Is2xx(h.code) then StatusError(Some(h.code))
      else if h.NonJson? then StatusError(None)
      else Found(h.body)
  }

  /** `checkAssetStatus`: unknown assets are NotFound; the "no API key"
      answer can never be given, because the key falls back to a
      placeholder. */
  method CheckAssetStatus<T>(db: Database, id: string, env: Env, api: string -> Option<Http<T>>)
    returns (r: Result<AssetStatus<T>>)
    ensures id !in db.assets ==> r == Err(NotFound(id))
    ensures id in db.assets ==> r == Ok(StatusOf(api(StatusPath(db.assets[id].synthesiaId))))
    ensures r.Ok? ==> r.value != Unknown
  {
    if id !in db.assets {
      return Err(NotFound(id));
    }
    var asset := db.assets[id];
    if StatusApiKey(env) == "" {
      return Ok(Unknown);
    }
    r := Ok(StatusOf(api(StatusPath(asset.synthesiaId))));
  }
}
