/** The voice-text editor of the smart-scripting flow: it shows the template
    variables whose key starts with `script_voice_text_`, ordered by their
    numeric suffix, one text area per key. */
module ScriptEditor {
  import opened Common
  import opened TemplateData

  const VoicePrefix := "script_voice_text_"

  /** The keys the editor shows, in display order. */
  function SceneKeys(e: Entries): seq<string> {
    SortedKeysWithPrefix(e, VoicePrefix)
  }

  /** With a number after every voice prefix, the keys are shown in ascending
      numeric order. */
  lemma SceneKeysInNumericOrder(e: Entries)
    requires AllNumbered(SceneKeys(e), SuffixOf(VoicePrefix))
    ensures SortedBy(SceneKeys(e), SuffixOf(VoicePrefix))
  {
    var ks := KeysWithPrefix(Keys(e), VoicePrefix);
    var num := SuffixOf(VoicePrefix);
    SortIsPermutation(ks, num);
    forall i | 0 <= i < |ks|
      ensures num(ks[i]).Some?
    {
      assert ks[i] in multiset(SortBy(ks, num));
    }
    SortOrdersNumberedKeys(ks, num);
  }

  /** What the editor renders. */
  datatype View = Placeholder | Fields(keys: seq<string>)

  function ViewOf(e: Entries): (r: View)
    ensures r.Placeholder? <==> forall k :: k in Keys(e) ==> !StartsWith(k, VoicePrefix)
    ensures r.Fields? ==> r.keys == SceneKeys(e) && |r.keys| > 0
  {
    var ks := SceneKeys(e);
    SortedKeysMembers(e, VoicePrefix);
    if |ks| == 0 then Placeholder else Fields(ks)
  }

  /** `handleChange(key, val)`: the spread-update `{ ...data, [key]: val }`.
      Editing a field that is already there keeps the list of scene fields. */
  function HandleChange(e: Entries, key: string, val: string): (r: Entries)
    ensures ToMap(r) == ToMap(e)[key := val]
    ensures Get(r, key) == Some(val)
    ensures forall j :: j != key ==> Get(r, j) == Get(e, j)
    ensures key in Keys(e) ==> SceneKeys(r) == SceneKeys(e)
  {
    ToMapPut(e, key, val);
    PutKeys(e, key, val);
    Put(e, key, val)
  }

  /** No key carries both prefixes: they differ in their third letter. */
  lemma PrefixesExclusive(k: string)
    ensures !(StartsWith(k, "scene_voice_text_") && StartsWith(k, VoicePrefix))
  {
    if |k| >= |VoicePrefix| {
      assert k[..17][2] == k[2] == k[..|VoicePrefix|][2];
    }
  }

  /** The scene label removes `scene_voice_text_`, a prefix the keys shown
      here do not carry. */
  function Label(key: string): string {
    ReplaceFirst(key, "scene_voice_text_", "")
  }

  /** A voice key whose suffix holds no letter `s` (a number, for one) is
      labelled with the whole key: the removed prefix never occurs in it. */
  lemma VoiceKeyLabelIsWholeKey(suffix: string)
    requires 's' !in suffix
    ensures Label(VoicePrefix + suffix) == VoicePrefix + suffix
  {
    var key := VoicePrefix + suffix;
    var p := "scene_voice_text_";
    var rest := "cript_voice_text_";
    assert key == "s" + (rest + suffix);
    assert 's' !in rest + suffix;
    forall j | 0 <= j <= |key|
      ensures !StartsWith(key[j..], p)
    {
      if j + |p| <= |key| {
        assert key[j..][..|p|][0] == key[j];
        if j == 0 {
          assert key[..|p|][2] == key[2] == 'r';
        } else {
          assert key[j] == (rest + suffix)[j - 1];
        }
      }
    }
    IndexOfNone(key, p);
  }
}
