/** The smart-scripting page: it asks the back end to fill a template's
    variables, lets the user edit them, and saves them as a templated script
    whose scenes are the `scene_voice_text_` values in numeric order. */
module SmartScripting {
  import opened Common
  import opened Records
  import opened TemplateData
  import Scripts
  import ScriptEditor

  /** The prefix the page reads scene texts from. It differs from the one
      the voice editor shows (`script_voice_text_`). */
  const ScenePrefix := "scene_voice_text_"

  datatype AnalyzeRequest = AnalyzeRequest(templateId: string, topic: string, sourceText: string)

  /** `handleAnalyze`: nothing is sent unless a template is selected and
      both the topic and the source text are non-empty. */
  function AnalyzeRequestOf(template: Option<string>, topic: string, sourceText: string): (r: Option<AnalyzeRequest>)
    ensures r.Some? <==> template.Some? && topic != "" && sourceText != ""
    ensures r.Some? ==> r.value == AnalyzeRequest(template.value, topic, sourceText)
  {
    if template.None? || topic == "" || sourceText == "" then None
    else Some(AnalyzeRequest(template.value, topic, sourceText))
  }

  /** The scene keys, ordered by numeric suffix. */
  function SceneKeys(e: Entries): seq<string> {
    SortedKeysWithPrefix(e, ScenePrefix)
  }

  /** `sceneKeys.map(key => updatedVisuals[key])`: one scene per scene key,
      holding that key's value. */
  function ScenesOf(e: Entries): (r: seq<string>)
    ensures |r| == |KeysWithPrefix(Keys(e), ScenePrefix)|
    ensures forall i :: 0 <= i < |r| ==> Some(r[i]) == Get(e, SceneKeys(e)[i])
  {
    SortedKeysMembers(e, ScenePrefix);
    ValuesAt(e, SceneKeys(e))
  }

  /** The scenes the page saves are the values of the `scene_voice_text_`
      keys, each key taken once, in the order the keys are sorted in. */
  lemma ScenesAreSceneValues(e: Entries)
    ensures multiset(SceneKeys(e)) == multiset(KeysWithPrefix(Keys(e), ScenePrefix))
    ensures forall i :: 0 <= i < |ScenesOf(e)| ==>
      SceneKeys(e)[i] in Keys(e) && StartsWith(SceneKeys(e)[i], ScenePrefix) &&
      Get(e, SceneKeys(e)[i]) == Some(ScenesOf(e)[i])
  {
    SortedKeysMembers(e, ScenePrefix);
    var ks := SceneKeys(e);
    forall i | 0 <= i < |ScenesOf(e)|
      ensures ks[i] in Keys(e) && StartsWith(ks[i], ScenePrefix)
    {
      assert ks[i] in ks;
    }
  }

  /** Variables named as the voice editor names them yield no scene at all. */
  lemma EditorKeysGiveNoScenes(e: Entries)
    requires forall k :: k in Keys(e) ==> StartsWith(k, ScriptEditor.VoicePrefix)
    ensures ScenesOf(e) == []
  {
    var ks := KeysWithPrefix(Keys(e), ScenePrefix);
    if ks != [] {
      ScriptEditor.PrefixesExclusive(ks[0]);
    }
  }

  datatype CourseRequest = CourseRequest(topic: string, content: string)

  /** The course created to hold the script. */
  function CourseRequestOf(topic: string, sourceText: string): (r: CourseRequest)
    ensures r.topic == (if topic == "" then "Untitled Smart Script" else topic)
    ensures r.content == (if sourceText == "" then "Smart Script Content" else sourceText)
    ensures r.topic != "" && r.content != ""
  {
    CourseRequest(StrOr(topic, "Untitled Smart Script"), StrOr(sourceText, "Smart Script Content"))
  }

  /** `handleSave`: nothing without a selected template; otherwise a templated
      script in the new course carrying the edited variables unchanged and
      the reconstructed scenes. */
  function SaveRequest(template: Option<string>, e: Entries, courseId: string): (r: Option<Scripts.CreateScriptDto>)
    ensures r.None? <==> template.None?
    ensures r.Some? ==> r.value.courseId == courseId && r.value.isTemplated == Some(true)
    ensures r.Some? ==> r.value.templateId == template && r.value.templateData == Some(ToMap(e))
    ensures r.Some? ==> r.value.scenes.Some? && |r.value.scenes.value| == |ScenesOf(e)|
    ensures r.Some? ==> forall i :: 0 <= i < |ScenesOf(e)| ==> r.value.scenes.value[i] == VoiceLine(ScenesOf(e)[i])
  {
    if template.None? then None
    else
      var scenes := ScenesOf(e);
      Some(Scripts.CreateScriptDto(courseId, Some(seq(|scenes|, i requires 0 <= i < |scenes| => VoiceLine(scenes[i]))),
                                   Some(ToMap(e)), template, Some(true)))
  }
}
