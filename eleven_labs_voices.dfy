/**
 * The ElevenLabs voice catalogue (`ElevenLabsVoice`) and the picker that lists
 * it: ten voices identified by their ElevenLabs voice ids, recommended coach
 * voices first. Choosing a voice stores its id in the settings and empties the
 * audio cache, whose files were spoken in the previous voice.
 */
module ElevenLabsVoices {
  import opened Wrappers
  import opened Text
  import opened Lists
  import Settings
  import AudioCache

  datatype ElevenLabsVoice =
    | Rachel | Domi | Bella | Elli | Charlotte
    | Adam | Antoni | Josh | Arnold | Sam

  /** The raw value: the voice id ElevenLabs knows the voice by. */
  function RawValue(v: ElevenLabsVoice): string {
    match v
    case Rachel => "21m00Tcm4TlvDq8ikWAM"
    case Domi => "AZnzlk1XvdvUeBnXmlld"
    case Bella => "EXAVITQu4vr4xnSDxMaL"
    case Elli => "MF3mGyEYCl7XYWbV9V6O"
    case Charlotte => "XB0fDUnXU5powFXDhCwa"
    case Adam => "pNInz6obpgDQGcFmaJgB"
    case Antoni => "ErXwobaYiN019PkySvjV"
    case Josh => "TxGEqnHWrfWFTfGW9XjX"
    case Arnold => "VR6AewLTigWG4xSOukaG"
    case Sam => "yoZ06aMxZJJ28mfd3POQ"
  }

  /** `id` (`Identifiable`): the raw value. */
  function Id(v: ElevenLabsVoice): (id: string)
    ensures |id| == 20
    ensures id == RawValue(v)
  {
    RawValue(v)
  }

  /** No two voices share an id, so the id identifies the voice. */
  lemma IdsDistinct(v: ElevenLabsVoice, w: ElevenLabsVoice)
    requires Id(v) == Id(w)
    ensures v == w
  {
    assert Id(v)[0] == Id(w)[0] && Id(v)[1] == Id(w)[1];
  }

  /** `allCases`, in declaration order. */
  const AllCases: seq<ElevenLabsVoice> := [Rachel, Domi, Bella, Elli, Charlotte, Adam, Antoni, Josh, Arnold, Sam]

  /** Every voice is listed, exactly once. */
  lemma AllCasesEnumerates()
    ensures |AllCases| == 10
    ensures forall v: ElevenLabsVoice :: v in AllCases
    ensures forall i, j :: 0 <= i < j < |AllCases| ==> AllCases[i] != AllCases[j]
  {
    forall v: ElevenLabsVoice
      ensures v in AllCases
    {
      var k := match v
        case Rachel => 0 case Domi => 1 case Bella => 2 case Elli => 3 case Charlotte => 4
        case Adam => 5 case Antoni => 6 case Josh => 7 case Arnold => 8 case Sam => 9;
      assert AllCases[k] == v;
    }
  }

  function Name(v: ElevenLabsVoice): string {
    match v
    case Rachel => "Rachel"
    case Domi => "Domi"
    case Bella => "Bella"
    case Elli => "Elli"
    case Charlotte => "Charlotte"
    case Adam => "Adam"
    case Antoni => "Antoni"
    case Josh => "Josh"
    case Arnold => "Arnold"
    case Sam => "Sam"
  }

  function Description(v: ElevenLabsVoice): string {
    match v
    case Rachel => "Calm & Clear"
    case Domi => "Strong & Confident"
    case Bella => "Soft & Warm"
    case Elli => "Young & Energetic"
    case Charlotte => "Swedish Accent"
    case Adam => "Deep & Authoritative"
    case Antoni => "Warm & Friendly"
    case Josh => "Young & Dynamic"
    case Arnold => "Strong & Commanding"
    case Sam => "Raspy & Motivating"
  }

  /** `gender`: the first five cases are the female voices, the last five the male ones. */
  function Gender(v: ElevenLabsVoice): (g: string)
    ensures g == "Female" || g == "Male"
    ensures g == "Female" <==> v in {Rachel, Domi, Bella, Elli, Charlotte}
  {
    match v
    case Rachel | Domi | Bella | Elli | Charlotte => "Female"
    case Adam | Antoni | Josh | Arnold | Sam => "Male"
  }

  /** `icon`: both branches of the gender test give the same symbol. */
  function Icon(v: ElevenLabsVoice): (icon: string)
    ensures icon == "person.fill"
  {
    if Gender(v) == "Female" then "person.fill" else "person.fill"
  }

  /** `isRecommended`: the four voices marked COACH. */
  function IsRecommended(v: ElevenLabsVoice): (b: bool)
    ensures b <==> v in {Adam, Josh, Domi, Sam}
  {
    match v
    case Adam | Josh | Domi | Sam => true
    case _ => false
  }

  /** Recommended first, then by name. */
  predicate RecommendedThenNameLt(v: ElevenLabsVoice, w: ElevenLabsVoice) {
    Recommendation(v) > Recommendation(w) ||
    (Recommendation(v) == Recommendation(w) && StrLt(Name(v), Name(w)))
  }

  function Recommendation(v: ElevenLabsVoice): int {
    if IsRecommended(v) then 1 else 0
  }

  lemma RecommendedThenNameIsStrictWeakOrder()
    ensures StrictWeakOrder(RecommendedThenNameLt)
  {
    RankThenNameIsStrictWeakOrder(Recommendation, Name, RecommendedThenNameLt);
  }

  /** The voices `vs`, sorted by `RecommendedThenNameLt`. */
  function SortVoices(vs: seq<ElevenLabsVoice>): (r: seq<ElevenLabsVoice>)
    ensures multiset(r) == multiset(vs) && |r| == |vs|
    ensures forall i, j :: 0 <= i < j < |r| && IsRecommended(r[j]) ==> IsRecommended(r[i])
    ensures forall i, j :: 0 <= i < j < |r| && IsRecommended(r[i]) == IsRecommended(r[j]) ==>
      !StrLt(Name(r[j]), Name(r[i]))
  {
    RecommendedThenNameIsStrictWeakOrder();
    SortPermutes(vs, RecommendedThenNameLt);
    SortSorts(vs, RecommendedThenNameLt);
    SortLength(vs, RecommendedThenNameLt);
    SortBy(vs, RecommendedThenNameLt)
  }

  /**
   * `sortedVoices`: all ten voices, every recommended one before every other,
   * and by name within each group.
   */
  function SortedVoices(): (r: seq<ElevenLabsVoice>)
    ensures multiset(r) == multiset(AllCases) && |r| == 10
    ensures forall i, j :: 0 <= i < j < |r| && IsRecommended(r[j]) ==> IsRecommended(r[i])
    ensures forall i, j :: 0 <= i < j < |r| && IsRecommended(r[i]) == IsRecommended(r[j]) ==>
      !StrLt(Name(r[j]), Name(r[i]))
  {
    SortVoices(AllCases)
  }

  /** The default voice of the settings is Rachel. */
  lemma DefaultVoiceIsRachel()
    ensures Settings.DefaultElevenLabsVoiceId == Id(Rachel)
  {
  }

  /** The picker screen, over the shared settings and audio cache. */
  class ElevenLabsVoicePicker {
    const settings: Settings.AppSettings
    const cache: AudioCache.AudioCacheService
    /** Light haptics fired. */
    var haptics: nat

    constructor (settings: Settings.AppSettings, cache: AudioCache.AudioCacheService)
      ensures this.settings == settings && this.cache == cache && haptics == 0
    {
      this.settings := settings;
      this.cache := cache;
      haptics := 0;
    }

    /** The row of `v` shows the check mark. */
    predicate IsSelected(v: ElevenLabsVoice)
      reads this, settings
    {
      settings.elevenLabsVoiceId == Id(v)
    }

    /**
     * `selectVoice(_:)`: store the id (written back to user defaults), a light
     * haptic, then `clearCache()`, with that method's own failure modes.
     */
    method SelectVoice(v: ElevenLabsVoice, listingFails: bool, undeletable: set<string>)
      modifies this, settings, cache
      ensures settings.Current() == old(settings.Current()).(elevenLabsVoiceId := Id(v))
      ensures settings.defaults == old(settings.defaults)[Settings.ElevenLabsVoiceIdKey := Settings.Str(Id(v))]
      ensures forall w :: IsSelected(w) <==> w == v
      ensures haptics == old(haptics) + 1
      ensures settings.keychainApiKey == old(settings.keychainApiKey)
      ensures old(settings.InSync()) ==> settings.InSync()
      ensures cache.files.Keys <= old(cache.files).Keys
      ensures forall name :: name in cache.files ==> cache.files[name] == old(cache.files)[name]
      ensures listingFails ==> cache.files == old(cache.files)
      ensures !listingFails && old(cache.files).Keys !! undeletable ==> cache.files == map[]
      ensures old(cache.files).Keys * undeletable <= cache.files.Keys
    {
      settings.SetElevenLabsVoiceId(Id(v));
      haptics := haptics + 1;
      cache.ClearCache(listingFails, undeletable);
      forall w | IsSelected(w)
        ensures w == v
      {
        IdsDistinct(w, v);
      }
    }
  }
}
