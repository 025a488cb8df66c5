/** The modal that picks an avatar and a voice before a render: defaults
    chosen from the fetched catalogs, and when its Generate button is
    enabled. */
module GenerationModal {
  import opened Common

  datatype Avatar = Avatar(avatarId: string, avatarName: Option<string>)
  datatype Voice = Voice(voiceId: string, name: Option<string>, language: Option<string>)

  /** `v.language?.includes('English') || v.language?.includes('en-US')` */
  predicate IsEnglish(v: Voice) {
    v.language.Some? && (Includes(v.language.value, "English") || Includes(v.language.value, "en-US"))
  }


  /** The modal's state. */
  datatype ModalState = ModalState(
    avatars: seq<Avatar>,
    voices: seq<Voice>,
    selectedAvatar: string,
    selectedVoice: string,
    loading: bool,
    error: Option<string>)

  /** Before the first fetch nothing is selected. */
  const Initial := ModalState([], [], "", "", false, None)

  const FetchError := "Could not load avatars and voices. Checking your API key might help."

  /** `fetchAssets` once both requests have settled: on failure the error is
      set and the selections stay; on success the lists are stored, the first
      avatar is selected, and the first English voice, else the first voice;
      an empty list leaves its selection as it was. */
  function AfterFetch(st: ModalState, catalogs: Option<(seq<Avatar>, seq<Voice>)>): (r: ModalState)
    ensures !r.loading
    ensures r.error.None? <==> catalogs.Some?
    ensures catalogs.None? ==> r.selectedAvatar == st.selectedAvatar && r.selectedVoice == st.selectedVoice
    ensures catalogs.Some? && catalogs.value.0 != [] ==> r.selectedAvatar == catalogs.value.0[0].avatarId
    ensures catalogs.Some? && catalogs.value.0 == [] ==> r.selectedAvatar == st.selectedAvatar
    ensures catalogs.Some? && catalogs.value.1 == [] ==> r.selectedVoice == st.selectedVoice
    ensures catalogs.Some? && catalogs.value.1 != [] ==>
      (exists i :: 0 <= i < |catalogs.value.1| && IsEnglish(catalogs.value.1[i])
                   && (forall j :: 0 <= j < i ==> !IsEnglish(catalogs.value.1[j]))
                   && r.selectedVoice == catalogs.value.1[i].voiceId)
      || ((forall j :: 0 <= j < |catalogs.value.1| ==> !IsEnglish(catalogs.value.1[j]))
          && r.selectedVoice == catalogs.value.1[0].voiceId)
  {
    match catalogs
    case None => st.(loading := false, error := Some(FetchError))
    case Some((avatars, voices)) =>
      var avatar := if |avatars| > 0 then avatars[0].avatarId else st.selectedAvatar;
      var voice :=
        if |voices| > 0 then
          match Find(voices, IsEnglish)
          case Some(i) => voices[i].voiceId
          case None => voices[0].voiceId
        else st.selectedVoice;
      ModalState(avatars, voices, avatar, voice, false, None)
  }

  /** `disabled={loading || !!error || !selectedAvatar || !selectedVoice}` */
  predicate GenerateDisabled(st: ModalState) {
    st.loading || st.error.Some? || st.selectedAvatar == "" || st.selectedVoice == ""
  }

  /** `handleGenerate`: the current selections, avatar first. */
  function Generate(st: ModalState): (r: (string, string))
    requires !GenerateDisabled(st)
    ensures r.0 != "" && r.1 != ""
    ensures r == (st.selectedAvatar, st.selectedVoice)
  {
    (st.selectedAvatar, st.selectedVoice)
  }

  /** A failed fetch always disables Generate. */
  lemma FailedFetchDisablesGenerate(st: ModalState)
    ensures GenerateDisabled(AfterFetch(st, None))
  {
  }

  /** Opened for the first time with an empty catalog, the modal cannot
      generate. */
  lemma EmptyCatalogDisablesGenerate(avatars: seq<Avatar>, voices: seq<Voice>)
    requires avatars == [] || voices == []
    ensures GenerateDisabled(AfterFetch(Initial, Some((avatars, voices))))
  {
  }

  /** A successful first fetch whose first avatar and chosen voice have ids
      enables Generate, which then passes the first avatar and an English
      voice when there is one. */
  lemma FetchedDefaultsAreGenerated(avatars: seq<Avatar>, voices: seq<Voice>, k: nat)
    requires avatars != [] && avatars[0].avatarId != ""
    requires k < |voices| && IsEnglish(voices[k]) && forall j :: 0 <= j < k ==> !IsEnglish(voices[j])
    requires voices[k].voiceId != ""
    ensures !GenerateDisabled(AfterFetch(Initial, Some((avatars, voices))))
    ensures Generate(AfterFetch(Initial, Some((avatars, voices)))) == (avatars[0].avatarId, voices[k].voiceId)
  {
    var r := Find(voices, IsEnglish);
    if r.Some? && r.value != k {
      assert false;
    }
  }
}
