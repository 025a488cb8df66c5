/** The video-from-scratch page: the form of scenes sent to the provider's
    `/videos/create` path, its cleanup before submission, and the mapping of
    a stored script into the form. */
module VideoFromScratch {
  import opened Common
  import opened SceneJson

  /** `avatarSettings`; the numeric `scale` is not part of this model. */
  datatype AvatarSettings = AvatarSettings(
    voice: Option<string>,
    horizontalAlign: Option<string>,
    style: Option<string>,
    seamless: Option<bool>)

  const NoAvatarSettings := AvatarSettings(None, None, None, None)

  /** `backgroundSettings.videoSettings` */
  datatype BackgroundSettings = BackgroundSettings(shortMatchMode: string, longMatchMode: string)

  /** One scene as the form holds it; `inputType` is form-only state. */
  datatype SceneInput = SceneInput(
    inputType: Option<string>,
    scriptText: Option<string>,
    scriptAudio: Option<string>,
    scriptLanguage: Option<string>,
    avatar: string,
    background: string,
    avatarSettings: Option<AvatarSettings>,
    backgroundSettings: Option<BackgroundSettings>)

  /** One scene as submitted: no `inputType`, settings always present. */
  datatype SceneRequest = SceneRequest(
    scriptText: Option<string>,
    scriptAudio: Option<string>,
    scriptLanguage: Option<string>,
    avatar: string,
    background: string,
    avatarSettings: AvatarSettings,
    backgroundSettings: Option<BackgroundSettings>)

  /** `ctaSettings`: the button's `label` (a reserved word in Dafny, hence `labelText`) and its link. */
  datatype CtaSettings = CtaSettings(labelText: string, url: string)

  datatype VideoForm = VideoForm(
    title: string,
    description: Option<string>,
    visibility: string,
    aspectRatio: string,
    test: bool,
    soundtrack: Option<string>,
    callbackId: Option<string>,
    ctaSettings: Option<CtaSettings>,
    input: seq<SceneInput>)

  datatype VideoRequest = VideoRequest(
    title: string,
    description: Option<string>,
    visibility: string,
    aspectRatio: string,
    test: bool,
    soundtrack: Option<string>,
    callbackId: Option<string>,
    ctaSettings: Option<CtaSettings>,
    input: seq<SceneRequest>,
    scriptId: Option<string>)

  /** `value || undefined` */
  function TruthyOrAbsent(s: Option<string>): (r: Option<string>)
    ensures r.Some? <==> Truthy(s)
    ensures r.Some? ==> r == s
  {
    if Truthy(s) then s else None
  }

  /** The cleanup of one scene: the spoken input is either the text or the
      audio, never both; the voice and, for audio, the language are trimmed
      with blank dropped. */
  function SubmitScene(scene: SceneInput): (r: SceneRequest)
    ensures r.scriptText.None? || r.scriptAudio.None?
    ensures scene.inputType == Some("text") ==>
      r.scriptText == scene.scriptText && r.scriptAudio.None? && r.scriptLanguage.None?
    ensures scene.inputType != Some("text") ==>
      r.scriptText.None? && r.scriptAudio == scene.scriptAudio && r.scriptLanguage == TrimmedOrAbsent(scene.scriptLanguage)
    ensures r.avatarSettings.voice == TrimmedOrAbsent(if scene.avatarSettings.Some? then scene.avatarSettings.value.voice else None)
    ensures scene.avatarSettings.Some? ==> r.avatarSettings.(voice := None) == scene.avatarSettings.value.(voice := None)
    ensures r.avatar == scene.avatar && r.background == scene.background
    ensures r.backgroundSettings == scene.backgroundSettings
  {
    var settings := if scene.avatarSettings.Some? then scene.avatarSettings.value else NoAvatarSettings;
    var base := SceneRequest(scene.scriptText, scene.scriptAudio, scene.scriptLanguage, scene.avatar, scene.background,
                             settings.(voice := TrimmedOrAbsent(settings.voice)), scene.backgroundSettings);
    if scene.inputType == Some("text") then
      base.(scriptAudio := None, scriptLanguage := None, scriptText := scene.scriptText)
    else
      base.(scriptText := None, scriptAudio := scene.scriptAudio, scriptLanguage := TrimmedOrAbsent(scene.scriptLanguage))
  }

  /** `onSubmit`'s payload: one cleaned scene per form scene in order, the
      optional texts trimmed with blank dropped, the call to action only when
      both its label and its url are set, and the script id only when the
      page was opened with one. */
  function SubmitRequest(form: VideoForm, scriptId: Option<string>): (r: VideoRequest)
    ensures |r.input| == |form.input|
    ensures forall i :: 0 <= i < |form.input| ==> r.input[i] == SubmitScene(form.input[i])
    ensures r.title == form.title && r.test == form.test
    ensures r.callbackId == TrimmedOrAbsent(form.callbackId) && r.description == TrimmedOrAbsent(form.description)
    ensures r.soundtrack.Some? <==> Truthy(form.soundtrack)
    ensures r.soundtrack.Some? ==> r.soundtrack == form.soundtrack
    ensures r.visibility == form.visibility && r.aspectRatio == form.aspectRatio
    ensures r.ctaSettings.Some? <==> form.ctaSettings.Some? && form.ctaSettings.value.labelText != "" && form.ctaSettings.value.url != ""
    ensures r.ctaSettings.Some? ==> r.ctaSettings == form.ctaSettings
    ensures r.scriptId.Some? <==> Truthy(scriptId)
    ensures r.scriptId.Some? ==> r.scriptId == scriptId
  {
    var cta := form.ctaSettings;
    VideoRequest(form.title, TrimmedOrAbsent(form.description), form.visibility, form.aspectRatio, form.test,
                 TruthyOrAbsent(form.soundtrack), TrimmedOrAbsent(form.callbackId),
                 if cta.Some? && cta.value.labelText != "" && cta.value.url != "" then cta else None,
                 seq(|form.input|, i requires 0 <= i < |form.input| => SubmitScene(form.input[i])),
                 TruthyOrAbsent(scriptId))
  }

  /** The fixed visual defaults of a loaded scene. */
  const DefaultAvatar := "anna_costume1_cameraA"
  const DefaultBackground := "green_screen"

  /** A stored scene becomes a text scene with its text and default visuals. */
  function LoadScene(s: StoredScene): (r: SceneInput)
    ensures r.inputType == Some("text") && r.scriptText == s.scriptText
    ensures r.scriptAudio.None? && r.scriptLanguage.None?
    ensures r.avatar == DefaultAvatar && r.background == DefaultBackground
  {
    SceneInput(Some("text"), s.scriptText, None, None, DefaultAvatar, DefaultBackground,
               Some(AvatarSettings(None, Some("center"), Some("rectangular"), Some(false))),
               Some(BackgroundSettings("freeze", "trim")))
  }

  /** `fetchScript`'s reset: one text scene per stored scene, the title or
      `AI Generated Video`, a private 16:9 non-test video. */
  function Load(data: StoredScript): (r: VideoForm)
    ensures r.title == OrElse(data.title, "AI Generated Video") && r.title != ""
    ensures |r.input| == (if data.scenes.Some? then |data.scenes.value| else 0)
    ensures data.scenes.Some? ==> forall i :: 0 <= i < |r.input| ==> r.input[i] == LoadScene(data.scenes.value[i])
    ensures r.visibility == "private" && r.aspectRatio == "16:9" && !r.test
  {
    var stored := if data.scenes.Some? then data.scenes.value else [];
    VideoForm(OrElse(data.title, "AI Generated Video"), Some(""), "private", "16:9", false, None, None, None,
              seq(|stored|, i requires 0 <= i < |stored| => LoadScene(stored[i])))
  }

  /** Submitting a freshly loaded script sends each stored scene's text, in
      order, with no audio and no description. */
  lemma LoadThenSubmit(data: StoredScript, scriptId: Option<string>)
    requires data.scenes.Some?
    ensures |SubmitRequest(Load(data), scriptId).input| == |data.scenes.value|
    ensures forall i :: 0 <= i < |data.scenes.value| ==>
      SubmitRequest(Load(data), scriptId).input[i].scriptText == data.scenes.value[i].scriptText &&
      SubmitRequest(Load(data), scriptId).input[i].scriptAudio.None?
    ensures SubmitRequest(Load(data), scriptId).description.None?
  {
    var form := Load(data);
    assert Trim("") == "";
    forall i | 0 <= i < |data.scenes.value|
      ensures SubmitRequest(form, scriptId).input[i] == SubmitScene(LoadScene(data.scenes.value[i]))
    {
    }
  }

  /** Cleaning is idempotent on a scene's spoken input: a cleaned scene fed
      back as a form scene of the same kind comes out the same. */
  lemma SubmitSceneStable(scene: SceneInput)
    ensures var r := SubmitScene(scene);
      SubmitScene(SceneInput(scene.inputType, r.scriptText, r.scriptAudio, r.scriptLanguage, r.avatar, r.background,
                             Some(r.avatarSettings), r.backgroundSettings)) == r
  {
    var r := SubmitScene(scene);
    var v := if scene.avatarSettings.Some? then scene.avatarSettings.value.voice else None;
    TrimmedOrAbsentIdempotent(v);
    TrimmedOrAbsentIdempotent(scene.scriptLanguage);
  }

  lemma TrimmedOrAbsentIdempotent(s: Option<string>)
    ensures TrimmedOrAbsent(TrimmedOrAbsent(s)) == TrimmedOrAbsent(s)
  {
    if s.Some? {
      TrimIdempotent(s.value);
    }
  }
}
