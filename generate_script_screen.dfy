/** The script generator screen: a form of scene rows whose number follows
    the scene-count field in creation mode, the payloads sent to generate or
    update a script, the merge of a regenerated scene, and the mapping of a
    stored script into the form in edit mode. */
module GenerateScriptScreen {
  import opened Common
  import opened Records
  import opened SceneJson

  datatype Objective = HOOK | EDUCATIONAL | CALL_TO_ACTION | TRANSITION | JOKE
  datatype Complexity = CHILD | GENERAL | TECHNICAL | ACADEMIC
  datatype Pov = FIRST_PERSON | SECOND_PERSON | THIRD_PERSON

  /** One form row: the configuration the user types and what generation
      returned for it. */
  datatype SceneConfig = SceneConfig(
    topic: string,
    duration: int,
    emotion: string,
    visualContext: string,
    objective: Objective,
    complexity: Complexity,
    pov: Pov,
    keywords: Keywords,
    scriptText: Option<string>,
    avatar: Option<string>,
    background: Option<string>,
    metadata: Option<Metadata>)

  /** The row appended when the form grows. */
  const DefaultScene := SceneConfig("", 10, "neutral", "", EDUCATIONAL, GENERAL, SECOND_PERSON,
                                    KeywordText(""), None, None, None, None)

  // ---------------------------------------------------------------------------
  // Scene-count sync

  /** `parseInt(String(sceneCountValue)) || 0` */
  function RequestedCount(countText: string): int {
    match ParseIntAuto(countText)
    case None => 0
    case Some(n) => n
  }

  /** The rows after the sync effect: unchanged in edit mode or for a count
      that is not positive; otherwise exactly `count` rows, the existing ones
      first and default rows after them. */
  function Resized(scenes: seq<SceneConfig>, editMode: bool, countText: string): (r: seq<SceneConfig>)
    ensures editMode || RequestedCount(countText) <= 0 ==> r == scenes
    ensures !editMode && RequestedCount(countText) > 0 ==> |r| == RequestedCount(countText)
    ensures forall i :: 0 <= i < |r| ==> r[i] == if i < |scenes| then scenes[i] else DefaultScene
  {
    var count := RequestedCount(countText);
    if editMode || count <= 0 || count == |scenes| then scenes
    else if count > |scenes| then scenes + seq(count - |scenes|, _ => DefaultScene)
    else scenes[..count]
  }

  /** The field array of scene rows (`useFieldArray`). */
  class SceneFieldArray {
    var scenes: seq<SceneConfig>

    /** The creation-mode default: three default rows. */
    constructor ()
      ensures scenes == [DefaultScene, DefaultScene, DefaultScene]
    {
      scenes := [DefaultScene, DefaultScene, DefaultScene];
    }

    /** `append(row)` */
    method Append(row: SceneConfig)
      modifies this
      ensures scenes == old(scenes) + [row]
    {
      scenes := scenes + [row];
    }

    /** `remove(i)` */
    method Remove(i: nat)
      requires i < |scenes|
      modifies this
      ensures scenes == old(scenes)[..i] + old(scenes)[i + 1..]
    {
      scenes := scenes[..i] + scenes[i + 1..];
    }

    /** `update(i, row)` */
    method Update(i: nat, row: SceneConfig)
      requires i < |scenes|
      modifies this
      ensures scenes == old(scenes)[i := row]
    {
      scenes := scenes[i := row];
    }

    /** The sync effect: appends default rows one at a time, or removes rows
        from the last one down. */
    method SyncSceneCount(editMode: bool, countText: string)
      modifies this
      ensures scenes == Resized(old(scenes), editMode, countText)
    {
      if editMode {
        return;
      }
      var count := RequestedCount(countText);
      var length := |scenes|;
      if count > 0 && count != length {
        if count > length {
          var toAdd := count - length;
          var i := 0;
          while i < toAdd
            invariant 0 <= i <= toAdd
            invariant |scenes| == length + i
            invariant scenes[..length] == old(scenes)
            invariant forall j :: length <= j < |scenes| ==> scenes[j] == DefaultScene
          {
            Append(DefaultScene);
            i := i + 1;
          }
        } else {
          var i := length - 1;
          while i >= count
            invariant count - 1 <= i <= length - 1
            invariant scenes == old(scenes)[..i + 1]
          {
            Remove(i);
            i := i - 1;
          }
        }
      }
    }

    /** `handleRegenerateScene`: with a scene selected and a reply received,
        that scene becomes the merge of itself with the reply; every other
        row stays as it was. */
    method RegenerateScene(selected: Option<nat>, reply: Option<RegeneratedScene>)
      requires selected.Some? ==> selected.value < |scenes|
      modifies this
      ensures scenes == (if selected.Some? && reply.Some?
                         then old(scenes)[selected.value := Merged(old(scenes)[selected.value], reply.value)]
                         else old(scenes))
    {
      if selected.None? || reply.None? {
        return;
      }
      var current := scenes[selected.value];
      Update(selected.value, Merged(current, reply.value));
    }
  }

  /** Growing keeps every existing row and appends only default rows. */
  lemma GrowKeepsRows(scenes: seq<SceneConfig>, countText: string)
    requires RequestedCount(countText) >= |scenes|
    ensures |Resized(scenes, false, countText)| == RequestedCount(countText)
    ensures Resized(scenes, false, countText)[..|scenes|] == scenes
  {
    var r := Resized(scenes, false, countText);
    if scenes == [] {
      assert r[..0] == [];
    }
  }

  /** Shrinking keeps the first `count` rows and removes the rest. */
  lemma ShrinkKeepsPrefix(scenes: seq<SceneConfig>, countText: string)
    requires 0 < RequestedCount(countText) <= |scenes|
    ensures Resized(scenes, false, countText) == scenes[..RequestedCount(countText)]
  {
  }

  /** A count field that does not hold a number leaves the rows alone. */
  lemma NonNumericCountIgnored(scenes: seq<SceneConfig>, countText: string)
    requires ParseIntAuto(countText).None?
    ensures Resized(scenes, false, countText) == scenes
  {
  }

  /** Syncing twice with the same count changes nothing the second time. */
  lemma ResizeIdempotent(scenes: seq<SceneConfig>, editMode: bool, countText: string)
    ensures Resized(Resized(scenes, editMode, countText), editMode, countText) == Resized(scenes, editMode, countText)
  {
  }

  // ---------------------------------------------------------------------------
  // Payloads

  /** The keywords as the update payload sends them: a string is split on
      commas and each part trimmed, the empty string gives no keyword, a list
      is sent as it is. */
  function UpdateKeywords(k: Keywords): (r: seq<string>)
    ensures k == KeywordText("") ==> r == []
    ensures k.KeywordList? ==> r == k.items
    ensures k.KeywordText? && k.text != "" ==> |r| == multiset(k.text)[','] + 1
    ensures k.KeywordText? && k.text != "" ==>
      |r| == |Split(k.text, ',')| && forall i :: 0 <= i < |r| ==> r[i] == Trim(Split(k.text, ',')[i])
  {
    match k
    case KeywordList(items) => items
    case KeywordText(text) =>
      if text == "" then []
      else
        var parts := Split(text, ',');
        SplitCount(text, ',');
        seq(|parts|, i requires 0 <= i < |parts| => Trim(parts[i]))
  }

  /** The keywords as the create payload sends them: `split` is called on
      any truthy value, so a list raises a TypeError. */
  function CreateKeywords(k: Keywords): (r: Result<seq<string>>)
    ensures r.Ok? <==> k.KeywordText?
    ensures r.Ok? ==> r.value == UpdateKeywords(k)
    ensures k.KeywordList? ==> r == Err(TypeError)
  {
    match k
    case KeywordList(_) => Err(TypeError)
    case KeywordText(_) => Ok(UpdateKeywords(k))
  }

  /** Keywords typed as a comma-separated list of already-trimmed words are
      sent as exactly those words. */
  lemma KeywordsRoundTrip(words: seq<string>)
    requires |words| >= 1 && Join(words, ",") != ""
    requires forall i :: 0 <= i < |words| ==> ',' !in words[i] && Trim(words[i]) == words[i]
    ensures UpdateKeywords(KeywordText(Join(words, ","))) == words
  {
    SplitJoin(words, ',');
  }

  /** A row as sent: every field of the row, with the keywords replaced by
      the list. */
  datatype SceneRequest = SceneRequest(scene: SceneConfig, keywords: seq<string>)

  datatype GenerateRequest = GenerateRequest(title: string, sourceText: string, sceneCount: nat, scenes: seq<SceneRequest>)

  function CreateScenes(scenes: seq<SceneConfig>): (r: Result<seq<SceneRequest>>)
    ensures r.Ok? <==> forall i :: 0 <= i < |scenes| ==> scenes[i].keywords.KeywordText?
    ensures r.Ok? ==> |r.value| == |scenes|
    ensures r.Ok? ==> forall i :: 0 <= i < |scenes| ==>
      r.value[i] == SceneRequest(scenes[i], UpdateKeywords(scenes[i].keywords))
    ensures r.Err? ==> r.error == TypeError
  {
    if scenes == [] then Ok([])
    else
      match CreateKeywords(scenes[0].keywords)
      case Err(e) => Err(e)
      case Ok(k) =>
        match CreateScenes(scenes[1..])
        case Err(e) => Err(e)
        case Ok(rest) => Ok([SceneRequest(scenes[0], k)] + rest)
  }

  /** `handleCreateScript`: the scene count sent is the number of rows, not
      the count field. */
  function CreateRequest(title: string, sourceText: string, scenes: seq<SceneConfig>): (r: Result<GenerateRequest>)
    ensures r.Ok? <==> CreateScenes(scenes).Ok?
    ensures r.Ok? ==> r.value.sceneCount == |scenes| == |r.value.scenes|
    ensures r.Ok? ==> r.value.title == title && r.value.sourceText == sourceText
  {
    match CreateScenes(scenes)
    case Err(e) => Err(e)
    case Ok(rows) => Ok(GenerateRequest(title, sourceText, |scenes|, rows))
  }

  datatype UpdateRequest = UpdateRequest(title: string, scenes: seq<SceneRequest>)

  /** `handleUpdateScript`: nothing without a script id; otherwise every row
      with its keywords as a list. */
  function UpdateRequestOf(id: Option<string>, title: string, scenes: seq<SceneConfig>): (r: Option<UpdateRequest>)
    ensures r.None? <==> id.None?
    ensures r.Some? ==> r.value.title == title && |r.value.scenes| == |scenes|
    ensures r.Some? ==> forall i :: 0 <= i < |scenes| ==>
      r.value.scenes[i] == SceneRequest(scenes[i], UpdateKeywords(scenes[i].keywords))
  {
    if id.None? then None
    else Some(UpdateRequest(title, seq(|scenes|, i requires 0 <= i < |scenes| =>
                                         SceneRequest(scenes[i], UpdateKeywords(scenes[i].keywords)))))
  }

  /** Where both payloads accept a row, they send the same keywords. */
  lemma CreateAndUpdateAgree(title: string, sourceText: string, scenes: seq<SceneConfig>, id: string)
    requires CreateRequest(title, sourceText, scenes).Ok?
    ensures CreateRequest(title, sourceText, scenes).value.scenes == UpdateRequestOf(Some(id), title, scenes).value.scenes
  {
  }

  // ---------------------------------------------------------------------------
  // Regenerate merge

  /** The fields a regenerated scene may carry; a missing field leaves the
      row's value. */
  datatype RegeneratedScene = RegeneratedScene(
    scriptText: Option<string>,
    avatar: Option<string>,
    background: Option<string>,
    metadata: Option<Metadata>)

  /** `{ ...current, ...reply, topic: reply.metadata?.topic || current.topic,
      duration: reply.metadata?.duration_sec || current.duration }` */
  function Merged(current: SceneConfig, reply: RegeneratedScene): (r: SceneConfig)
    ensures r.topic == (if reply.metadata.Some? && Truthy(reply.metadata.value.topic)
                        then reply.metadata.value.topic.value else current.topic)
    ensures r.duration == (if reply.metadata.Some? then DurationOr(reply.metadata.value.durationSec, current.duration)
                           else current.duration)
    ensures r.scriptText == (if reply.scriptText.Some? then reply.scriptText else current.scriptText)
    ensures r.metadata == (if reply.metadata.Some? then reply.metadata else current.metadata)
    ensures r.avatar == (if reply.avatar.Some? then reply.avatar else current.avatar)
    ensures r.background == (if reply.background.Some? then reply.background else current.background)
    ensures r.emotion == current.emotion && r.visualContext == current.visualContext
    ensures r.objective == current.objective && r.complexity == current.complexity
    ensures r.pov == current.pov && r.keywords == current.keywords
  {
    var spread := current.(
      scriptText := if reply.scriptText.Some? then reply.scriptText else current.scriptText,
      avatar := if reply.avatar.Some? then reply.avatar else current.avatar,
      background := if reply.background.Some? then reply.background else current.background,
      metadata := if reply.metadata.Some? then reply.metadata else current.metadata);
    var md := reply.metadata;
    spread.(
      topic := if md.Some? && Truthy(md.value.topic) then md.value.topic.value else current.topic,
      duration := if md.Some? then DurationOr(md.value.durationSec, current.duration) else current.duration)
  }

  /** A reply that carries no metadata keeps the row's topic and duration. */
  lemma MergeWithoutMetadataKeepsConfig(current: SceneConfig, reply: RegeneratedScene)
    requires reply.metadata.None?
    ensures Merged(current, reply).topic == current.topic
    ensures Merged(current, reply).duration == current.duration
  {
  }

  // ---------------------------------------------------------------------------
  // Edit-mode load

  /** The form after a load; the title is the stored one as it is, possibly
      absent. */
  datatype FormValues = FormValues(title: Option<string>, sourceText: string, sceneCount: string, scenes: seq<SceneConfig>)

  /** The load mapping of one stored scene. */
  function LoadScene(s: StoredScene): (r: SceneConfig)
    ensures r.topic == LoadedTopic(s) && r.duration == LoadedDuration(s)
    ensures r.emotion == LoadedEmotion(s) && r.visualContext == LoadedVisualContext(s)
    ensures r.objective == EDUCATIONAL && r.complexity == GENERAL && r.pov == SECOND_PERSON
    ensures r.keywords == (if s.metadata.Some? && s.metadata.value.keywords.Some? && KeywordsTruthy(s.metadata.value.keywords.value)
                           then s.metadata.value.keywords.value else KeywordText(""))
    ensures r.scriptText == s.scriptText && r.avatar == s.avatar && r.background == s.background
    ensures r.metadata == s.metadata
  {
    var kw := if s.metadata.Some? then s.metadata.value.keywords else None;
    SceneConfig(LoadedTopic(s), LoadedDuration(s), LoadedEmotion(s), LoadedVisualContext(s),
                EDUCATIONAL, GENERAL, SECOND_PERSON,
                if kw.Some? && KeywordsTruthy(kw.value) then kw.value else KeywordText(""),
                s.scriptText, s.avatar, s.background, s.metadata)
  }

  /** `fetchScript`: one row per stored scene, the count field set to the
      number of rows, the source text from the script's source content. */
  function Load(data: StoredScript): (r: FormValues)
    ensures r.title == data.title
    ensures |r.scenes| == (if data.scenes.Some? then |data.scenes.value| else 0)
    ensures data.scenes.Some? ==> forall i :: 0 <= i < |r.scenes| ==> r.scenes[i] == LoadScene(data.scenes.value[i])
    ensures r.sourceText == (if data.sourceContent.Some? then OrElse(data.sourceContent.value, "") else "")
    ensures r.sceneCount == NatToString(|r.scenes|)
  {
    var stored := if data.scenes.Some? then data.scenes.value else [];
    var rows := seq(|stored|, i requires 0 <= i < |stored| => LoadScene(stored[i]));
    FormValues(data.title, if data.sourceContent.Some? then OrElse(data.sourceContent.value, "") else "",
               NatToString(|rows|), rows)
  }

  /** The count field a load fills in agrees with the rows: a sync with it,
      in either mode, changes nothing. */
  lemma LoadedCountMatchesRows(data: StoredScript, editMode: bool)
    ensures Resized(Load(data).scenes, editMode, Load(data).sceneCount) == Load(data).scenes
  {
    ParseAutoNatToString(|Load(data).scenes|);
  }
}
