/** The smart-scripting service: how many scenes a template has, and the
    DRAFT script row built from a create request. */
module Scripts {
  import opened Common
  import opened Records
  import Groq

  // ---------------------------------------------------------------------------
  // `(\d+)\s+scenes?\s+total`, case-insensitive, first match

  function LowerChar(c: char): char {
    if 'A' <= c <= 'Z' then (c as int + 32) as char else c
  }

  /** `w` (lower-case) spelled at the start of `t` in any letter case. */
  predicate WordPrefix(t: string, w: string) {
    |w| <= |t| && forall i :: 0 <= i < |w| ==> LowerChar(t[i]) == w[i]
  }

  /** Length of the run of whitespace (`\s`) at the start of `t`. */
  function SpaceRun(t: string): (n: nat)
    ensures n <= |t|
    ensures forall i :: 0 <= i < n ==> IsSpace(t[i])
    ensures n < |t| ==> !IsSpace(t[n])
  {
    if t != [] && IsSpace(t[0]) then 1 + SpaceRun(t[1..]) else 0
  }

  /** After `scene`: an optional `s`, at least one space, then `total`. */
  predicate TailMatches(w: string) {
    var w2 := if w != [] && LowerChar(w[0]) == 's' then w[1..] else w;
    var b := SpaceRun(w2);
    b > 0 && WordPrefix(w2[b..], "total")
  }

  /** What must follow the digits: spaces, `scene`, then the tail. */
  predicate AfterDigits(u: string) {
    var a := SpaceRun(u);
    a > 0 && WordPrefix(u[a..], "scene") && TailMatches(u[a..][5..])
  }

  /** The number the pattern captures when a match starts at the start of
      `t`; None when no match starts there. Greedy quantifiers never need to
      give characters back here: a digit run is followed by a space, `s` is
      not a space, and a space run by a letter. */
  function MatchHere(t: string): Option<nat> {
    var n := DigitRun(t, 10);
    if n > 0 && AfterDigits(t[n..]) then Some(DigitsValue(t[..n], 10)) else None
  }

  /** Where the first match starts: the regular expression is tried at each
      position from the left. */
  function MatchPos(s: string): (r: Option<nat>)
    ensures r.Some? ==> r.value <= |s| && MatchHere(s[r.value..]).Some?
    ensures r.Some? ==> forall q :: 0 <= q < r.value ==> MatchHere(s[q..]).None?
    ensures r.None? ==> forall q :: 0 <= q <= |s| ==> MatchHere(s[q..]).None?
  {
    var hits := seq(|s| + 1, q requires 0 <= q <= |s| => MatchHere(s[q..]).Some?);
    assert forall q :: 0 <= q <= |s| ==> hits[q] == MatchHere(s[q..]).Some?;
    FirstSet(hits, 0)
  }

  /** `description.match(...)`'s capture, converted with `parseInt(_, 10)`. */
  function FirstMatch(s: string): (r: Option<nat>)
    ensures r.Some? <==> exists p :: 0 <= p <= |s| && MatchHere(s[p..]).Some?
    ensures r.Some? ==> MatchHere(s[MatchPos(s).value..]) == r
  {
    match MatchPos(s)
    case None => None
    case Some(p) => MatchHere(s[p..])
  }

  lemma {:induction false} DigitRunStopsAtSpace(d: string, rest: string)
    requires forall i :: 0 <= i < |d| ==> '0' <= d[i] <= '9'
    requires rest != [] && rest[0] == ' '
    ensures DigitRun(d + rest, 10) == |d|
  {
    if d != [] {
      DigitRunStopsAtSpace(d[1..], rest);
      assert (d + rest)[1..] == d[1..] + rest;
    }
  }

  lemma ScenesTotalFollows()
    ensures AfterDigits(" scenes total")
  {
    var u := " scenes total";
    assert IsSpace(u[0]) && !IsSpace(u[1]);
    assert SpaceRun(u[1..]) == 0;
    assert SpaceRun(u) == 1;
    assert u[1..] == "scenes total";
    assert u[1..][5..] == "s total";
    var w2 := " total";
    assert "s total"[1..] == w2;
    assert SpaceRun(w2[1..]) == 0;
    assert SpaceRun(w2) == 1;
    assert w2[1..] == "total";
  }

  /** A number rendered in front of ` scenes total` is read back at the start. */
  lemma RenderedCountMatches(n: nat)
    ensures MatchHere(NatToString(n) + " scenes total") == Some(n)
  {
    var d := NatToString(n);
    var t := d + " scenes total";
    DigitRunStopsAtSpace(d, " scenes total");
    assert t[..|d|] == d;
    assert t[|d|..] == " scenes total";
    DigitsValueOfNatToString(n);
    ScenesTotalFollows();
  }

  // ---------------------------------------------------------------------------
  // Scene count

  /** How many variable ids contain `script_voice_text_`. */
  function VoiceVariableCount(ids: seq<string>): (n: nat)
    ensures n <= |ids|
    ensures n == 0 <==> forall i :: 0 <= i < |ids| ==> !Includes(ids[i], "script_voice_text_")
  {
    if ids == [] then 0
    else (if Includes(ids[0], "script_voice_text_") then 1 else 0) + VoiceVariableCount(ids[1..])
  }

  /** The count adds up over the variable list: each id containing
      `script_voice_text_` counts one and every other id none. */
  lemma {:induction false} VoiceVariableCountAppend(a: seq<string>, b: seq<string>)
    ensures VoiceVariableCount(a + b) == VoiceVariableCount(a) + VoiceVariableCount(b)
    ensures forall x :: VoiceVariableCount([x]) == (if Includes(x, "script_voice_text_") then 1 else 0)
    decreases |a|
  {
    if a == [] {
      assert a + b == b;
    } else {
      assert (a + b)[1..] == a[1..] + b;
      VoiceVariableCountAppend(a[1..], b);
    }
    forall x ensures VoiceVariableCount([x]) == (if Includes(x, "script_voice_text_") then 1 else 0) {
      assert [x][1..] == [];
    }
  }

  /** The scene count `analyzeAndMapScript` settles on: 3 with no
      description; with one, the count of voice-text variables when there
      are any, else the first `N scenes total`, else 3. Reading the
      variables of a template that has none throws. */
  function SceneCountOf(description: Option<string>, variableIds: Option<seq<string>>): (r: Result<nat>)
    ensures !Truthy(description) ==> r == Ok(3)
    ensures Truthy(description) && variableIds.None? ==> r == Err(VariablesNotArray)
    ensures Truthy(description) && variableIds.Some? && VoiceVariableCount(variableIds.value) > 0 ==>
      r == Ok(VoiceVariableCount(variableIds.value))
    ensures Truthy(description) && variableIds.Some? && VoiceVariableCount(variableIds.value) == 0 ==>
      r == Ok(if FirstMatch(description.value).Some? then FirstMatch(description.value).value else 3)
  {
    if !Truthy(description) then Ok(3)
    else if variableIds.None? then Err(VariablesNotArray)
    else if VoiceVariableCount(variableIds.value) > 0 then Ok(VoiceVariableCount(variableIds.value))
    else Ok(if FirstMatch(description.value).Some? then FirstMatch(description.value).value else 3)
  }

  /** The step-by-step computation: default, then the description's number,
      then the variable count overriding it. */
  method SceneCount(description: Option<string>, variableIds: Option<seq<string>>) returns (r: Result<nat>)
    ensures r == SceneCountOf(description, variableIds)
  {
    var sceneCount := 3;
    if Truthy(description) {
      var m := FirstMatch(description.value);
      if m.Some? {
        sceneCount := m.value;
      }
      if variableIds.None? {
        return Err(VariablesNotArray);
      }
      if VoiceVariableCount(variableIds.value) > 0 {
        sceneCount := VoiceVariableCount(variableIds.value);
      }
    }
    r := Ok(sceneCount);
  }

  /** Without a description the count stays 3 whatever the variables. */
  lemma NoDescriptionIgnoresVariables(ids: seq<string>)
    ensures SceneCountOf(None, Some(ids)) == SceneCountOf(Some(""), None) == Ok(3)
  {
  }

  /** `analyzeAndMapScript`: the scene count decides the prompt (`complete`
      maps it to the model's completion) and the parsed completion is
      returned as it is. */
  function AnalyzeAndMap(description: Option<string>, variableIds: Option<seq<string>>,
                         complete: nat -> Option<string>, parse: Groq.Parser): (r: Result<Groq.Json>)
    ensures SceneCountOf(description, variableIds).Err? ==> r == Err(VariablesNotArray)
    ensures SceneCountOf(description, variableIds).Ok? ==>
      r == Groq.ParseCompletion(complete(SceneCountOf(description, variableIds).value), parse)
  {
    match SceneCountOf(description, variableIds)
    case Err(e) => Err(e)
    case Ok(n) => Groq.ParseCompletion(complete(n), parse)
  }

  // ---------------------------------------------------------------------------
  // createScript

  /** CreateScriptDto */
  datatype CreateScriptDto = CreateScriptDto(
    courseId: string,
    scenes: Option<seq<SceneItem>>,
    templateData: Option<map<string, string>>,
    templateId: Option<string>,
    isTemplated: Option<bool>)

  /** The row `createScript` builds: a DRAFT whose original scenes are the
      scenes as given, templated only on request, carrying a template id
      and data only when given; a templated request without scenes stores
      an empty scene list. */
  method BuildScriptData(dto: CreateScriptDto, id: string) returns (s: Script)
    ensures s.id == id && s.courseId == dto.courseId && s.status == DRAFT
    ensures s.originalScenes == dto.scenes
    ensures s.isTemplated <==> dto.isTemplated == Some(true)
    ensures s.templateId == (if Truthy(dto.templateId) then dto.templateId else None)
    ensures s.templateData == dto.templateData
    ensures dto.scenes.Some? ==> s.scenes == dto.scenes
    ensures dto.scenes.None? ==> s.scenes == (if dto.isTemplated == Some(true) then Some([]) else None)
  {
    s := Script(id, dto.courseId, dto.scenes, dto.scenes, DRAFT, dto.isTemplated == Some(true), None, None);
    if Truthy(dto.templateId) {
      s := s.(templateId := dto.templateId);
    }
    if dto.templateData.Some? {
      s := s.(templateData := dto.templateData);
    }
    if dto.isTemplated == Some(true) {
      if s.scenes.None? {
        s := s.(scenes := Some([]));
      }
    }
  }

  /** `createScript`: stores the built row under a fresh id. */
  method CreateScript(db: Database, dto: CreateScriptDto, newId: string) returns (s: Script)
    requires db.Valid() && newId !in db.scripts
    modifies db
    ensures db.Valid()
    ensures s.id == newId && s.courseId == dto.courseId && s.status == DRAFT
    ensures s.originalScenes == dto.scenes
    ensures s.isTemplated <==> dto.isTemplated == Some(true)
    ensures s.templateId == (if Truthy(dto.templateId) then dto.templateId else None)
    ensures s.templateData == dto.templateData
    ensures dto.scenes.Some? ==> s.scenes == dto.scenes
    ensures dto.scenes.None? ==> s.scenes == (if dto.isTemplated == Some(true) then Some([]) else None)
    ensures db.scripts == old(db.scripts)[newId := s]
    ensures db.renderedVideos == old(db.renderedVideos) && db.synthesiaVideos == old(db.synthesiaVideos)
    ensures db.assets == old(db.assets)
  {
    s := BuildScriptData(dto, newId);
    db.scripts := db.scripts[newId := s];
  }
}
