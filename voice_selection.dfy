/**
 * `VoiceSelectionView`: the list of installed speech voices for the app
 * language, best quality first, with an automatic choice on top. Choosing a row
 * stores the preferred voice in the settings; the play button speaks a test
 * phrase in that voice, or stops the one playing. The synthesizer is modelled by
 * its `isSpeaking` flag and the utterances it was handed.
 */
module VoiceSelection {
  import opened Wrappers
  import opened Text
  import opened Lists
  import opened Settings

  // ---------------------------------------------------------------------------
  // Ranking and sorting
  // ---------------------------------------------------------------------------

  /** `qualityRank(_:)`: 3 for a premium identifier, 2 for an enhanced voice, 1 otherwise. */
  function QualityRank(v: SpeechVoice): (r: int)
    ensures 1 <= r <= 3
    ensures r == 3 <==> Contains(v.identifier, "premium")
    ensures r == 2 <==>
      !Contains(v.identifier, "premium") && (v.quality == Enhanced || Contains(v.identifier, "enhanced"))
  {
    if Contains(v.identifier, "premium") then 3
    else if v.quality == Enhanced || Contains(v.identifier, "enhanced") then 2
    else 1
  }

  /** The order of `sortedVoices`: higher rank first, by name within a rank. */
  predicate RankThenNameLt(v: SpeechVoice, w: SpeechVoice) {
    QualityRank(v) > QualityRank(w) || (QualityRank(v) == QualityRank(w) && StrLt(v.name, w.name))
  }

  function VoiceName(v: SpeechVoice): string {
    v.name
  }

  lemma RankThenNameIsOrder()
    ensures StrictWeakOrder(RankThenNameLt)
  {
    RankThenNameIsStrictWeakOrder(QualityRank, VoiceName, RankThenNameLt);
  }

  /** `sortedVoices`: the same voices, by nonincreasing rank, alphabetically within a rank. */
  function SortedVoices(voices: seq<SpeechVoice>): (r: seq<SpeechVoice>)
    ensures multiset(r) == multiset(voices) && |r| == |voices|
    ensures forall i, j :: 0 <= i < j < |r| ==> QualityRank(r[i]) >= QualityRank(r[j])
    ensures forall i, j :: 0 <= i < j < |r| && QualityRank(r[i]) == QualityRank(r[j]) ==>
      !StrLt(r[j].name, r[i].name)
  {
    RankThenNameIsOrder();
    SortPermutes(voices, RankThenNameLt);
    SortSorts(voices, RankThenNameLt);
    SortLength(voices, RankThenNameLt);
    SortBy(voices, RankThenNameLt)
  }

  // ---------------------------------------------------------------------------
  // Badge and description
  // ---------------------------------------------------------------------------

  /** `qualityBadge(for:)`: the badge text, absent for a standard voice. */
  function QualityBadge(v: SpeechVoice): (b: Option<string>)
    ensures b == Some("PREMIUM") <==> QualityRank(v) == 3
    ensures b == Some("ENHANCED") <==> QualityRank(v) == 2
    ensures b == None <==> QualityRank(v) == 1
  {
    var rank := QualityRank(v);
    if rank == 3 then Some("PREMIUM") else if rank == 2 then Some("ENHANCED") else None
  }

  function GenderLabel(g: VoiceGender): string {
    match g
    case Male => "Male"
    case Female => "Female"
    case Unspecified => "Neutral"
  }

  function QualityLabel(rank: int): string {
    if rank == 3 then "Premium Quality" else if rank == 2 then "High Quality" else "Standard"
  }

  /** `voiceDescription(for:)`: "<gender> · <quality>". */
  function VoiceDescription(v: SpeechVoice): string {
    GenderLabel(v.gender) + " · " + QualityLabel(QualityRank(v))
  }

  /** The separator in a description sits right after the gender label. */
  lemma SeparatorPosition(v: SpeechVoice)
    ensures var d := VoiceDescription(v); var n := |GenderLabel(v.gender)|;
      n + 3 <= |d| && d[..n] == GenderLabel(v.gender) && d[n + 1] == '·' && d[n + 3..] == QualityLabel(QualityRank(v))
  {
  }

  /** The description shows the gender label and the quality tier: equal descriptions, equal both. */
  lemma DescriptionShowsGenderAndRank(v: SpeechVoice, w: SpeechVoice)
    requires VoiceDescription(v) == VoiceDescription(w)
    ensures GenderLabel(v.gender) == GenderLabel(w.gender)
    ensures QualityRank(v) == QualityRank(w)
  {
    var d := VoiceDescription(v);
    var gv, gw := GenderLabel(v.gender), GenderLabel(w.gender);
    SeparatorPosition(v);
    SeparatorPosition(w);
    assert gv == gw;
    var qv, qw := QualityLabel(QualityRank(v)), QualityLabel(QualityRank(w));
    assert qv == d[|gv| + 3..] == qw;
    assert |qv| == |qw|;
  }

  // ---------------------------------------------------------------------------
  // The screen
  // ---------------------------------------------------------------------------

  /** An utterance handed to the synthesizer: the text and the identifier of its voice. */
  datatype Utterance = Utterance(text: string, voiceIdentifier: string)

  const GermanTestPhrase := "Los geht's! Nächste Übung: Bankdrücken. Drei Sätze, zehn Wiederholungen."
  const EnglishTestPhrase := "Let's go! Next exercise: Bench Press. Three sets, ten reps."

  class VoiceSelectionView {
    const settings: AppSettings
    /** The voice whose test is playing. */
    var playingVoiceId: Option<string>
    /** The synthesizer's `isSpeaking`. */
    var isSpeaking: bool
    /** Every utterance handed to the synthesizer, in order. */
    var spoken: seq<Utterance>
    /** `invalidateVoiceCache()` calls on the audio service. */
    var voiceCacheInvalidations: nat
    /** Light haptics fired. */
    var haptics: nat

    constructor (settings: AppSettings)
      ensures this.settings == settings
      ensures playingVoiceId == None && !isSpeaking && spoken == []
      ensures voiceCacheInvalidations == 0 && haptics == 0
    {
      this.settings := settings;
      playingVoiceId := None;
      isSpeaking := false;
      spoken := [];
      voiceCacheInvalidations := 0;
      haptics := 0;
    }

    /** The automatic row shows the check mark. */
    predicate AutoSelected()
      reads this, settings
    {
      settings.preferredVoiceIdentifier == None
    }

    /** The row of `v` shows the check mark. */
    predicate RowSelected(v: SpeechVoice)
      reads this, settings
    {
      settings.preferredVoiceIdentifier == Some(v.identifier)
    }

    /** The automatic row's button: forget the preferred voice. */
    method SelectAuto()
      modifies this, settings
      ensures settings.Current() == old(settings.Current()).(preferredVoiceIdentifier := None)
      ensures settings.defaults == old(settings.defaults) - {PreferredVoiceIdentifierKey}
      ensures settings.keychainApiKey == old(settings.keychainApiKey)
      ensures old(settings.InSync()) ==> settings.InSync()
      ensures AutoSelected() && forall v :: !RowSelected(v)
      ensures voiceCacheInvalidations == old(voiceCacheInvalidations) + 1 && haptics == old(haptics) + 1
      ensures playingVoiceId == old(playingVoiceId) && isSpeaking == old(isSpeaking) && spoken == old(spoken)
    {
      settings.SetPreferredVoiceIdentifier(None);
      voiceCacheInvalidations := voiceCacheInvalidations + 1;
      haptics := haptics + 1;
    }

    /** A voice row's button: prefer that voice. */
    method SelectVoice(v: SpeechVoice)
      modifies this, settings
      ensures settings.Current() == old(settings.Current()).(preferredVoiceIdentifier := Some(v.identifier))
      ensures settings.defaults == old(settings.defaults)[PreferredVoiceIdentifierKey := Str(v.identifier)]
      ensures settings.keychainApiKey == old(settings.keychainApiKey)
      ensures old(settings.InSync()) ==> settings.InSync()
      ensures !AutoSelected() && forall w :: RowSelected(w) <==> w.identifier == v.identifier
      ensures voiceCacheInvalidations == old(voiceCacheInvalidations) + 1 && haptics == old(haptics) + 1
      ensures playingVoiceId == old(playingVoiceId) && isSpeaking == old(isSpeaking) && spoken == old(spoken)
    {
      settings.SetPreferredVoiceIdentifier(Some(v.identifier));
      voiceCacheInvalidations := voiceCacheInvalidations + 1;
      haptics := haptics + 1;
    }

    /**
     * `testVoice(_:)`: while anything is speaking, stop it and clear the playing
     * voice, starting nothing; otherwise speak the test phrase of the app
     * language in `v` and mark `v` as playing.
     */
    method TestVoice(v: SpeechVoice)
      modifies this
      ensures old(isSpeaking) ==> !isSpeaking && playingVoiceId == None && spoken == old(spoken)
      ensures !old(isSpeaking) ==>
        && isSpeaking
        && playingVoiceId == Some(v.identifier)
        && spoken == old(spoken) + [Utterance(
             if settings.appLanguage == German then GermanTestPhrase else EnglishTestPhrase, v.identifier)]
      ensures voiceCacheInvalidations == old(voiceCacheInvalidations) && haptics == old(haptics)
    {
      if isSpeaking {
        isSpeaking := false;
        playingVoiceId := None;
        return;
      }
      var testPhrase := if settings.appLanguage == German then GermanTestPhrase else EnglishTestPhrase;
      playingVoiceId := Some(v.identifier);
      spoken := spoken + [Utterance(testPhrase, v.identifier)];
      isSpeaking := true;
    }

    /** The synthesizer has finished the utterance it was speaking. */
    method SpeechFinished()
      modifies this`isSpeaking
      ensures !isSpeaking
    {
      isSpeaking := false;
    }

    /** The reset scheduled five seconds after a test of `identifier`: clears it only if it is still playing. */
    method FireDeferredReset(identifier: string)
      modifies this`playingVoiceId
      ensures old(playingVoiceId) == Some(identifier) ==> playingVoiceId == None
      ensures old(playingVoiceId) != Some(identifier) ==> playingVoiceId == old(playingVoiceId)
    {
      if playingVoiceId == Some(identifier) {
        playingVoiceId := None;
      }
    }
  }
}
