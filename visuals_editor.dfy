/** The visuals editor of the smart-scripting flow: one text field for every
    template variable that is not a voice text, in entry order. */
module VisualsEditor {
  import opened Common
  import opened TemplateData
  import ScriptEditor

  /** The entries the editor shows. */
  function VisibleEntries(e: Entries): (r: Entries)
    ensures forall i :: 0 <= i < |r| ==> !StartsWith(r[i].0, ScriptEditor.VoicePrefix) && r[i] in e
    ensures forall p :: p in e && !StartsWith(p.0, ScriptEditor.VoicePrefix) ==> p in r
  {
    EntriesWithoutPrefix(e, ScriptEditor.VoicePrefix)
  }

  /** The two editors split the variables between them: no key is shown by
      both, and together they show every key once. */
  lemma EditorsPartitionKeys(e: Entries)
    ensures multiset(ScriptEditor.SceneKeys(e)) + multiset(Keys(VisibleEntries(e))) == multiset(Keys(e))
    ensures forall k :: k in ScriptEditor.SceneKeys(e) ==> k !in Keys(VisibleEntries(e))
  {
    PrefixPartition(e, ScriptEditor.VoicePrefix);
    var vis := VisibleEntries(e);
    SortedKeysMembers(e, ScriptEditor.VoicePrefix);
    forall i | 0 <= i < |vis|
      ensures Keys(vis)[i] !in ScriptEditor.SceneKeys(e)
    {
      assert !StartsWith(vis[i].0, ScriptEditor.VoicePrefix);
    }
  }

  /** `handleChange(key, val)`: the same spread-update as the script
      editor's; an edited visual field is shown with its new value. */
  function HandleChange(e: Entries, key: string, val: string): (r: Entries)
    ensures ToMap(r) == ToMap(e)[key := val]
    ensures !StartsWith(key, ScriptEditor.VoicePrefix) ==> (key, val) in VisibleEntries(r)
  {
    ScriptEditor.HandleChange(e, key, val)
  }

  /** `key.replace(/_/g, ' ')` */
  function Label(key: string): (r: string)
    ensures |r| == |key| && '_' !in r
    ensures forall i :: 0 <= i < |key| ==> r[i] == (if key[i] == '_' then ' ' else key[i])
  {
    ReplaceAllChar(key, '_', ' ')
  }
}
