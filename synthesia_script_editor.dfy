/** The script editor page for generated scripts: it loads the stored scenes
    into form rows with fallbacks and saves each row back as its text plus
    four metadata fields. */
module SynthesiaScriptEditor {
  import opened Common
  import opened SceneJson

  /** One form row. */
  datatype SceneForm = SceneForm(topic: string, duration: int, emotion: string, visualContext: string, scriptText: string)

  datatype FormValues = FormValues(title: Option<string>, scenes: seq<SceneForm>)

  /** The load mapping of one scene. */
  function LoadScene(s: StoredScene): (r: SceneForm)
    ensures r.topic == LoadedTopic(s) && r.duration == LoadedDuration(s)
    ensures r.emotion == LoadedEmotion(s) && r.visualContext == LoadedVisualContext(s)
    ensures r.scriptText == OrElse(s.scriptText, "")
    ensures r.duration != 0 && r.emotion != ""
  {
    SceneForm(LoadedTopic(s), LoadedDuration(s), LoadedEmotion(s), LoadedVisualContext(s), OrElse(s.scriptText, ""))
  }

  /** `fetchScript`: one row per stored scene, in order; a missing list loads
      as no rows; the title is taken as it is. */
  function Load(data: StoredScript): (r: FormValues)
    ensures r.title == data.title
    ensures data.scenes.None? ==> r.scenes == []
    ensures data.scenes.Some? ==> |r.scenes| == |data.scenes.value|
    ensures data.scenes.Some? ==> forall i :: 0 <= i < |r.scenes| ==> r.scenes[i] == LoadScene(data.scenes.value[i])
  {
    var stored := if data.scenes.Some? then data.scenes.value else [];
    FormValues(data.title, seq(|stored|, i requires 0 <= i < |stored| => LoadScene(stored[i])))
  }

  /** The save mapping of one row: its text and four metadata fields, nothing
      else. */
  function SaveScene(f: SceneForm): (r: StoredScene)
    ensures r.scriptText == Some(f.scriptText) && r.topic.None?
    ensures r.avatar.None? && r.background.None?
    ensures r.metadata == Some(Metadata(Some(f.topic), Some(f.duration), Some(f.emotion), Some(f.visualContext), None))
  {
    StoredScene(None, Some(f.scriptText), None, None,
                Some(Metadata(Some(f.topic), Some(f.duration), Some(f.emotion), Some(f.visualContext), None)))
  }

  /** `onSubmit`: the payload carries the title and one saved scene per row. */
  function Save(form: FormValues): (r: StoredScript)
    ensures r.title == form.title && r.sourceContent.None?
    ensures r.scenes.Some? && |r.scenes.value| == |form.scenes|
    ensures forall i :: 0 <= i < |form.scenes| ==> r.scenes.value[i] == SaveScene(form.scenes[i])
  {
    StoredScript(form.title, Some(seq(|form.scenes|, i requires 0 <= i < |form.scenes| => SaveScene(form.scenes[i]))), None)
  }

  /** A saved row loads back unchanged exactly when its emotion is non-empty
      and its duration non-zero: those two are the only fields whose falsy
      value the load replaces by something else. */
  lemma SaveThenLoadScene(f: SceneForm)
    ensures LoadScene(SaveScene(f)) == f <==> f.emotion != "" && f.duration != 0
  {
    var g := LoadScene(SaveScene(f));
    if f.emotion != "" && f.duration != 0 {
      assert g.topic == f.topic;
      assert g.visualContext == f.visualContext;
    }
  }

  /** The whole form survives a save and a reload when every row has an
      emotion and a non-zero duration. */
  lemma SaveThenLoad(form: FormValues)
    requires forall i :: 0 <= i < |form.scenes| ==> form.scenes[i].emotion != "" && form.scenes[i].duration != 0
    ensures Load(Save(form)) == form
  {
    var r := Load(Save(form));
    forall i | 0 <= i < |form.scenes|
      ensures r.scenes[i] == form.scenes[i]
    {
      SaveThenLoadScene(form.scenes[i]);
    }
  }

  /** Loading and saving a scene whose text and four metadata fields are all
      set (non-empty, non-zero) reproduces them; anything else it held is
      dropped. */
  lemma LoadThenSaveScene(s: StoredScene)
    requires Truthy(s.scriptText) && s.metadata.Some?
    requires Truthy(s.metadata.value.topic) && Truthy(s.metadata.value.emotion)
    requires Truthy(s.metadata.value.visualContext)
    requires s.metadata.value.durationSec.Some? && s.metadata.value.durationSec.value != 0
    ensures SaveScene(LoadScene(s)).scriptText == s.scriptText
    ensures SaveScene(LoadScene(s)).metadata == Some(s.metadata.value.(keywords := None))
  {
  }
}
