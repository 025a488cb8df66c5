/** A generated scene as the script editors read it back from the database:
    a JSON object whose fields may be missing, and the fallbacks both editor
    pages apply to it when they turn it into a form row. */
module SceneJson {
  import opened Common

  /** The `keywords` value: the form keeps a comma-separated string, the
      generator sends a list. */
  datatype Keywords = KeywordText(text: string) | KeywordList(items: seq<string>)

  /** JavaScript truthiness: the empty string is falsy, every array truthy. */
  predicate KeywordsTruthy(k: Keywords) {
    k.KeywordText? ==> k.text != ""
  }

  /** `scene.metadata` */
  datatype Metadata = Metadata(
    topic: Option<string>,
    durationSec: Option<int>,
    emotion: Option<string>,
    visualContext: Option<string>,
    keywords: Option<Keywords>)

  /** One element of a stored `scenes` array. */
  datatype StoredScene = StoredScene(
    topic: Option<string>,
    scriptText: Option<string>,
    avatar: Option<string>,
    background: Option<string>,
    metadata: Option<Metadata>)

  /** The reply of `/videos/synthesia-scripts/:id` as the pages read it: the
      title, the scenes and, when the script has one, its source content,
      whose `content` may itself be absent. */
  datatype StoredScript = StoredScript(
    title: Option<string>,
    scenes: Option<seq<StoredScene>>,
    sourceContent: Option<Option<string>>)

  /** `s.metadata?.topic || s.topic || ""` */
  function LoadedTopic(s: StoredScene): (r: string)
    ensures s.metadata.Some? && Truthy(s.metadata.value.topic) ==> r == s.metadata.value.topic.value
    ensures !(s.metadata.Some? && Truthy(s.metadata.value.topic)) ==> r == OrElse(s.topic, "")
  {
    if s.metadata.Some? && Truthy(s.metadata.value.topic) then s.metadata.value.topic.value
    else OrElse(s.topic, "")
  }

  /** `duration || fallback` for an optional number: absent and zero are falsy. */
  function DurationOr(d: Option<int>, fallback: int): (r: int)
    ensures r != 0 || fallback == 0
    ensures d.Some? && d.value != 0 ==> r == d.value
    ensures !(d.Some? && d.value != 0) ==> r == fallback
  {
    if d.Some? && d.value != 0 then d.value else fallback
  }

  /** `s.metadata?.duration_sec || 10` */
  function LoadedDuration(s: StoredScene): (r: int)
    ensures r != 0
    ensures s.metadata.Some? && s.metadata.value.durationSec.Some? && s.metadata.value.durationSec.value != 0
            ==> r == s.metadata.value.durationSec.value
    ensures !(s.metadata.Some? && s.metadata.value.durationSec.Some? && s.metadata.value.durationSec.value != 0)
            ==> r == 10
  {
    DurationOr(if s.metadata.Some? then s.metadata.value.durationSec else None, 10)
  }

  /** `s.metadata?.emotion || "neutral"` */
  function LoadedEmotion(s: StoredScene): (r: string)
    ensures r != ""
    ensures s.metadata.Some? && Truthy(s.metadata.value.emotion) ==> r == s.metadata.value.emotion.value
    ensures !(s.metadata.Some? && Truthy(s.metadata.value.emotion)) ==> r == "neutral"
  {
    OrElse(if s.metadata.Some? then s.metadata.value.emotion else None, "neutral")
  }

  /** `s.metadata?.visual_context || ""` */
  function LoadedVisualContext(s: StoredScene): (r: string)
    ensures s.metadata.Some? && s.metadata.value.visualContext.Some? ==> r == s.metadata.value.visualContext.value
    ensures s.metadata.None? || s.metadata.value.visualContext.None? ==> r == ""
  {
    OrElse(if s.metadata.Some? then s.metadata.value.visualContext else None, "")
  }
}
