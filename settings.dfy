/**
 * The app's preferences: three enumerations with their raw values, the
 * decoder that reads each preference from the user-defaults store with its
 * own fallback, the write-back of every change, and the API key kept in the
 * keychain. The user-defaults store is a map from keys to stored values, the
 * keychain entry an optional string, and the system language code a
 * parameter.
 */
module Settings {
  import opened Wrappers
  import opened Text
  import opened Lists

  // ---------------------------------------------------------------------------
  // Enumerations
  // ---------------------------------------------------------------------------

  datatype AppearanceMode = SystemAppearance | Light | Dark

  function AppearanceRaw(m: AppearanceMode): string {
    match m
    case SystemAppearance => "system"
    case Light => "light"
    case Dark => "dark"
  }

  /** `AppearanceMode(rawValue:)`. */
  function AppearanceFromRaw(s: string): (r: Option<AppearanceMode>)
    ensures forall m :: r == Some(m) <==> AppearanceRaw(m) == s
  {
    if s == "system" then Some(SystemAppearance)
    else if s == "light" then Some(Light)
    else if s == "dark" then Some(Dark)
    else None
  }

  function AppearanceDisplayName(m: AppearanceMode): string {
    match m
    case SystemAppearance => "System"
    case Light => "Light"
    case Dark => "Dark"
  }

  function AppearanceIconName(m: AppearanceMode): string {
    match m
    case SystemAppearance => "circle.lefthalf.filled"
    case Light => "sun.max.fill"
    case Dark => "moon.fill"
  }

  datatype AppLanguage = English | German

  function LanguageRaw(l: AppLanguage): string {
    match l
    case English => "en"
    case German => "de"
  }

  /** `AppLanguage(rawValue:)`. */
  function LanguageFromRaw(s: string): (r: Option<AppLanguage>)
    ensures forall l :: r == Some(l) <==> LanguageRaw(l) == s
  {
    if s == "en" then Some(English)
    else if s == "de" then Some(German)
    else None
  }

  function LanguageDisplayName(l: AppLanguage): string {
    match l
    case English => "English"
    case German => "Deutsch"
  }

  function LanguageFlag(l: AppLanguage): string {
    match l
    case English => "EN"
    case German => "DE"
  }

  datatype CoachVerbosity = Minimal | Normal | High

  function VerbosityRaw(v: CoachVerbosity): string {
    match v
    case Minimal => "minimal"
    case Normal => "normal"
    case High => "high"
  }

  /** `CoachVerbosity(rawValue:)`. */
  function VerbosityFromRaw(s: string): (r: Option<CoachVerbosity>)
    ensures forall v :: r == Some(v) <==> VerbosityRaw(v) == s
  {
    if s == "minimal" then Some(Minimal)
    else if s == "normal" then Some(Normal)
    else if s == "high" then Some(High)
    else None
  }

  function VerbosityDisplayName(v: CoachVerbosity): string {
    match v
    case Minimal => "Minimal"
    case Normal => "Normal"
    case High => "Detailed"
  }

  function VerbosityDescription(v: CoachVerbosity): string {
    match v
    case Minimal => "Essential cues only"
    case Normal => "Balanced feedback"
    case High => "Full coaching"
  }

  /** Each case of each enumeration has its own raw value, display name and (for the appearance) icon. */
  lemma EnumerationLabelsDistinct()
    ensures forall m, m' :: m != m' ==> AppearanceRaw(m) != AppearanceRaw(m')
    ensures forall m, m' :: m != m' ==> AppearanceDisplayName(m) != AppearanceDisplayName(m')
    ensures forall m, m' :: m != m' ==> AppearanceIconName(m) != AppearanceIconName(m')
    ensures forall l, l' :: l != l' ==> LanguageRaw(l) != LanguageRaw(l') && LanguageDisplayName(l) != LanguageDisplayName(l')
    ensures forall v, v' :: v != v' ==> VerbosityRaw(v) != VerbosityRaw(v')
    ensures forall v, v' :: v != v' ==> VerbosityDisplayName(v) != VerbosityDisplayName(v')
  {
  }

  // ---------------------------------------------------------------------------
  // The user-defaults store
  // ---------------------------------------------------------------------------

  datatype StoredValue = Str(s: string) | Flag(b: bool) | Number(n: int)

  type Defaults = map<string, StoredValue>

  const AppearanceModeKey := "appearanceMode"
  const IsVoiceEnabledKey := "isVoiceEnabled"
  const AppLanguageKey := "appLanguage"
  const CoachVerbosityKey := "coachVerbosity"
  const IsVoiceCountdownEnabledKey := "isVoiceCountdownEnabled"
  const PreferredVoiceIdentifierKey := "preferredVoiceIdentifier"
  const DefaultRestSecondsKey := "defaultRestSeconds"
  const UseElevenLabsKey := "useElevenLabs"
  const ElevenLabsApiKeyKey := "elevenLabsApiKey"
  const ElevenLabsVoiceIdKey := "elevenLabsVoiceId"

  /** The voice used when none was stored. */
  const DefaultElevenLabsVoiceId := "21m00Tcm4TlvDq8ikWAM"

  /** The text form Foundation gives a stored value: the text itself, a number's decimal digits, "1" or "0" for a flag. */
  function TextOf(v: StoredValue): string {
    match v
    case Str(s) => s
    case Number(n) => IntToString(n)
    case Flag(b) => if b then "1" else "0"
  }

  /** `string(forKey:)`: nil for a missing key; otherwise the stored value's text form. */
  function StringFor(d: Defaults, key: string): (r: Option<string>)
    ensures r.Some? <==> key in d
    ensures key in d && d[key].Str? ==> r == Some(d[key].s)
    ensures key in d && d[key].Number? ==> ParseInt(r.value) == Some(d[key].n)
    ensures key in d && d[key].Flag? ==> r == Some(if d[key].b then "1" else "0")
  {
    if key in d then
      IntToStringRoundTrip(if d[key].Number? then d[key].n else 0);
      Some(TextOf(d[key]))
    else None
  }

  /** A stored text read as a flag: a non-zero integer, or "true" or "yes" in any letter case. */
  predicate TextIsTrue(s: string) {
    if ParseInt(s).Some? then ParseInt(s).value != 0 else Lower(s) == "true" || Lower(s) == "yes"
  }

  /** `bool(forKey:)`: false for a missing key; a flag as stored; a number when non-zero; a text by `TextIsTrue`. */
  function BoolFor(d: Defaults, key: string): (b: bool)
    ensures key !in d ==> !b
    ensures key in d && d[key].Flag? ==> b == d[key].b
    ensures key in d && d[key].Number? ==> (b <==> d[key].n != 0)
    ensures key in d && d[key].Str? ==> (b <==> TextIsTrue(d[key].s))
  {
    if key !in d then false
    else match d[key]
      case Flag(b) => b
      case Number(n) => n != 0
      case Str(s) => TextIsTrue(s)
  }

  /** `integer(forKey:)`: 0 for a missing key; a number as stored; 1 or 0 for a flag; a text holding an integer, else 0. */
  function IntegerFor(d: Defaults, key: string): (n: int)
    ensures key !in d ==> n == 0
    ensures key in d && d[key].Number? ==> n == d[key].n
    ensures key in d && d[key].Flag? ==> n == (if d[key].b then 1 else 0)
    ensures key in d && d[key].Str? ==> n == ParseInt(d[key].s).GetOr(0)
  {
    if key !in d then 0
    else match d[key]
      case Number(n) => n
      case Flag(b) => if b then 1 else 0
      case Str(s) => ParseInt(s).GetOr(0)
  }

  /** Storing a flag or a number as its text form reads back the same flag and the same integer. */
  lemma TextFormReadsBack(d: Defaults, key: string)
    requires key in d
    ensures BoolFor(d[key := Str(StringFor(d, key).value)], key) == BoolFor(d, key)
    ensures IntegerFor(d[key := Str(StringFor(d, key).value)], key) == IntegerFor(d, key)
  {
    match d[key]
    case Str(_) =>
    case Number(n) =>
      IntToStringRoundTrip(n);
    case Flag(b) =>
      assert ParseInt("1") == Some(1) && ParseInt("0") == Some(0);
  }

  /** The usual spellings of a flag read as one. */
  lemma FlagSpellings()
    ensures TextIsTrue("1") && TextIsTrue("YES") && TextIsTrue("true") && TextIsTrue("Yes")
    ensures !TextIsTrue("0") && !TextIsTrue("NO") && !TextIsTrue("false") && !TextIsTrue("")
  {
    assert ParseInt("1") == Some(1) && ParseInt("0") == Some(0);
    assert ParseInt("YES").None? && ParseInt("true").None? && ParseInt("Yes").None?;
    assert ParseInt("NO").None? && ParseInt("false").None?;
    assert Lower("YES") == "yes" && Lower("Yes") == "yes" && Lower("true") == "true";
    assert Lower("NO") == "no" && Lower("false") == "false";
  }

  // ---------------------------------------------------------------------------
  // Decoding
  // ---------------------------------------------------------------------------

  /** The preferences the app keeps in memory. */
  datatype Preferences = Preferences(
    appearanceMode: AppearanceMode,
    isVoiceEnabled: bool,
    appLanguage: AppLanguage,
    coachVerbosity: CoachVerbosity,
    isVoiceCountdownEnabled: bool,
    preferredVoiceIdentifier: Option<string>,
    defaultRestSeconds: int,
    useElevenLabs: bool,
    elevenLabsVoiceId: string)

  /** A stored raw appearance, or `.system` when it is missing or unknown. */
  function DecodeAppearance(d: Defaults): (m: AppearanceMode)
    ensures m != SystemAppearance ==> StringFor(d, AppearanceModeKey) == Some(AppearanceRaw(m))
    ensures StringFor(d, AppearanceModeKey).Some? && AppearanceFromRaw(StringFor(d, AppearanceModeKey).value).Some? ==>
      AppearanceRaw(m) == StringFor(d, AppearanceModeKey).value
  {
    match StringFor(d, AppearanceModeKey)
    case Some(raw) => AppearanceFromRaw(raw).GetOr(SystemAppearance)
    case None => SystemAppearance
  }

  /** A switch that is on unless something is stored under its key. */
  function DecodeSwitch(d: Defaults, key: string): (b: bool)
    ensures key !in d ==> b
    ensures key in d ==> b == BoolFor(d, key)
  {
    if key in d then BoolFor(d, key) else true
  }

  /** The stored language if it is valid; otherwise German exactly when the system language code starts with "de". */
  function DecodeLanguage(d: Defaults, systemLanguage: Option<string>): (l: AppLanguage)
    ensures StringFor(d, AppLanguageKey).Some? && LanguageFromRaw(StringFor(d, AppLanguageKey).value).Some? ==>
      LanguageRaw(l) == StringFor(d, AppLanguageKey).value
    ensures (StringFor(d, AppLanguageKey).None? || LanguageFromRaw(StringFor(d, AppLanguageKey).value).None?) ==>
      (l == German <==> StartsWith(systemLanguage.GetOr("en"), "de"))
  {
    var stored := if StringFor(d, AppLanguageKey).Some? then LanguageFromRaw(StringFor(d, AppLanguageKey).value) else None;
    match stored
    case Some(l) => l
    case None => if StartsWith(systemLanguage.GetOr("en"), "de") then German else English
  }

  /** A stored raw verbosity, or `.normal`. */
  function DecodeVerbosity(d: Defaults): (v: CoachVerbosity)
    ensures v != Normal ==> StringFor(d, CoachVerbosityKey) == Some(VerbosityRaw(v))
    ensures StringFor(d, CoachVerbosityKey).Some? && VerbosityFromRaw(StringFor(d, CoachVerbosityKey).value).Some? ==>
      VerbosityRaw(v) == StringFor(d, CoachVerbosityKey).value
  {
    match StringFor(d, CoachVerbosityKey)
    case Some(raw) => VerbosityFromRaw(raw).GetOr(Normal)
    case None => Normal
  }

  /** The stored rest if it is positive, else 90 seconds. */
  function DecodeRestSeconds(d: Defaults): (n: int)
    ensures n > 0
    ensures IntegerFor(d, DefaultRestSecondsKey) > 0 <==> n == IntegerFor(d, DefaultRestSecondsKey)
    ensures IntegerFor(d, DefaultRestSecondsKey) <= 0 ==> n == 90
  {
    var stored := IntegerFor(d, DefaultRestSecondsKey);
    if stored > 0 then stored else 90
  }

  /** `AppSettings.init`'s reading of every preference. */
  function Decode(d: Defaults, systemLanguage: Option<string>): Preferences {
    Preferences(
      DecodeAppearance(d),
      DecodeSwitch(d, IsVoiceEnabledKey),
      DecodeLanguage(d, systemLanguage),
      DecodeVerbosity(d),
      DecodeSwitch(d, IsVoiceCountdownEnabledKey),
      StringFor(d, PreferredVoiceIdentifierKey),
      DecodeRestSeconds(d),
      DecodeSwitch(d, UseElevenLabsKey),
      StringFor(d, ElevenLabsVoiceIdKey).GetOr(DefaultElevenLabsVoiceId))
  }

  /** An empty store decodes to the defaults. */
  lemma DecodeEmpty(systemLanguage: Option<string>)
    ensures var p := Decode(map[], systemLanguage);
      && p.appearanceMode == SystemAppearance && p.isVoiceEnabled && p.coachVerbosity == Normal
      && p.isVoiceCountdownEnabled && p.preferredVoiceIdentifier == None && p.defaultRestSeconds == 90
      && p.useElevenLabs && p.elevenLabsVoiceId == DefaultElevenLabsVoiceId
      && (p.appLanguage == German <==> StartsWith(systemLanguage.GetOr("en"), "de"))
  {
  }

  /** The legacy API key under user defaults is read by nothing else. */
  lemma DecodeIgnoresLegacyApiKey(d: Defaults, systemLanguage: Option<string>)
    ensures Decode(d - {ElevenLabsApiKeyKey}, systemLanguage) == Decode(d, systemLanguage)
  {
    var e := d - {ElevenLabsApiKeyKey};
    assert StringFor(e, AppearanceModeKey) == StringFor(d, AppearanceModeKey);
    assert StringFor(e, AppLanguageKey) == StringFor(d, AppLanguageKey);
    assert StringFor(e, CoachVerbosityKey) == StringFor(d, CoachVerbosityKey);
  }

  /** Storing under one key leaves what every other key reads unchanged. */
  lemma StoreOther(d: Defaults, k: string, v: StoredValue, other: string)
    requires k != other
    ensures (other in d[k := v]) == (other in d)
    ensures StringFor(d[k := v], other) == StringFor(d, other)
    ensures BoolFor(d[k := v], other) == BoolFor(d, other)
    ensures IntegerFor(d[k := v], other) == IntegerFor(d, other)
  {
  }

  /** What the `appearanceMode` setter stores is read back as that preference, and nothing else changes. */
  lemma DecodeAfterSetAppearanceMode(d: Defaults, systemLanguage: Option<string>, m: AppearanceMode)
    ensures Decode(d[AppearanceModeKey := Str(AppearanceRaw(m))], systemLanguage) == Decode(d, systemLanguage).(appearanceMode := m)
  {
    StoreOther(d, AppearanceModeKey, Str(AppearanceRaw(m)), AppLanguageKey);
    StoreOther(d, AppearanceModeKey, Str(AppearanceRaw(m)), CoachVerbosityKey);
    StoreOther(d, AppearanceModeKey, Str(AppearanceRaw(m)), PreferredVoiceIdentifierKey);
    StoreOther(d, AppearanceModeKey, Str(AppearanceRaw(m)), ElevenLabsVoiceIdKey);
    StoreOther(d, AppearanceModeKey, Str(AppearanceRaw(m)), IsVoiceEnabledKey);
    StoreOther(d, AppearanceModeKey, Str(AppearanceRaw(m)), IsVoiceCountdownEnabledKey);
    StoreOther(d, AppearanceModeKey, Str(AppearanceRaw(m)), DefaultRestSecondsKey);
    StoreOther(d, AppearanceModeKey, Str(AppearanceRaw(m)), UseElevenLabsKey);
  }

  /** What the `voiceEnabled` setter stores is read back as that preference, and nothing else changes. */
  lemma DecodeAfterSetVoiceEnabled(d: Defaults, systemLanguage: Option<string>, b: bool)
    ensures Decode(d[IsVoiceEnabledKey := Flag(b)], systemLanguage) == Decode(d, systemLanguage).(isVoiceEnabled := b)
  {
    StoreOther(d, IsVoiceEnabledKey, Flag(b), AppearanceModeKey);
    StoreOther(d, IsVoiceEnabledKey, Flag(b), AppLanguageKey);
    StoreOther(d, IsVoiceEnabledKey, Flag(b), CoachVerbosityKey);
    StoreOther(d, IsVoiceEnabledKey, Flag(b), PreferredVoiceIdentifierKey);
    StoreOther(d, IsVoiceEnabledKey, Flag(b), ElevenLabsVoiceIdKey);
    StoreOther(d, IsVoiceEnabledKey, Flag(b), IsVoiceCountdownEnabledKey);
    StoreOther(d, IsVoiceEnabledKey, Flag(b), DefaultRestSecondsKey);
    StoreOther(d, IsVoiceEnabledKey, Flag(b), UseElevenLabsKey);
  }

  /** What the `appLanguage` setter stores is read back as that preference, and nothing else changes. */
  lemma DecodeAfterSetAppLanguage(d: Defaults, systemLanguage: Option<string>, l: AppLanguage)
    ensures Decode(d[AppLanguageKey := Str(LanguageRaw(l))], systemLanguage) == Decode(d, systemLanguage).(appLanguage := l)
  {
    StoreOther(d, AppLanguageKey, Str(LanguageRaw(l)), AppearanceModeKey);
    StoreOther(d, AppLanguageKey, Str(LanguageRaw(l)), CoachVerbosityKey);
    StoreOther(d, AppLanguageKey, Str(LanguageRaw(l)), PreferredVoiceIdentifierKey);
    StoreOther(d, AppLanguageKey, Str(LanguageRaw(l)), ElevenLabsVoiceIdKey);
    StoreOther(d, AppLanguageKey, Str(LanguageRaw(l)), IsVoiceEnabledKey);
    StoreOther(d, AppLanguageKey, Str(LanguageRaw(l)), IsVoiceCountdownEnabledKey);
    StoreOther(d, AppLanguageKey, Str(LanguageRaw(l)), DefaultRestSecondsKey);
    StoreOther(d, AppLanguageKey, Str(LanguageRaw(l)), UseElevenLabsKey);
  }

  /** What the `coachVerbosity` setter stores is read back as that preference, and nothing else changes. */
  lemma DecodeAfterSetCoachVerbosity(d: Defaults, systemLanguage: Option<string>, v: CoachVerbosity)
    ensures Decode(d[CoachVerbosityKey := Str(VerbosityRaw(v))], systemLanguage) == Decode(d, systemLanguage).(coachVerbosity := v)
  {
    StoreOther(d, CoachVerbosityKey, Str(VerbosityRaw(v)), AppearanceModeKey);
    StoreOther(d, CoachVerbosityKey, Str(VerbosityRaw(v)), AppLanguageKey);
    StoreOther(d, CoachVerbosityKey, Str(VerbosityRaw(v)), PreferredVoiceIdentifierKey);
    StoreOther(d, CoachVerbosityKey, Str(VerbosityRaw(v)), ElevenLabsVoiceIdKey);
    StoreOther(d, CoachVerbosityKey, Str(VerbosityRaw(v)), IsVoiceEnabledKey);
    StoreOther(d, CoachVerbosityKey, Str(VerbosityRaw(v)), IsVoiceCountdownEnabledKey);
    StoreOther(d, CoachVerbosityKey, Str(VerbosityRaw(v)), DefaultRestSecondsKey);
    StoreOther(d, CoachVerbosityKey, Str(VerbosityRaw(v)), UseElevenLabsKey);
  }

  /** What the `voiceCountdownEnabled` setter stores is read back as that preference, and nothing else changes. */
  lemma DecodeAfterSetVoiceCountdownEnabled(d: Defaults, systemLanguage: Option<string>, b: bool)
    ensures Decode(d[IsVoiceCountdownEnabledKey := Flag(b)], systemLanguage) == Decode(d, systemLanguage).(isVoiceCountdownEnabled := b)
  {
    StoreOther(d, IsVoiceCountdownEnabledKey, Flag(b), AppearanceModeKey);
    StoreOther(d, IsVoiceCountdownEnabledKey, Flag(b), AppLanguageKey);
    StoreOther(d, IsVoiceCountdownEnabledKey, Flag(b), CoachVerbosityKey);
    StoreOther(d, IsVoiceCountdownEnabledKey, Flag(b), PreferredVoiceIdentifierKey);
    StoreOther(d, IsVoiceCountdownEnabledKey, Flag(b), ElevenLabsVoiceIdKey);
    StoreOther(d, IsVoiceCountdownEnabledKey, Flag(b), IsVoiceEnabledKey);
    StoreOther(d, IsVoiceCountdownEnabledKey, Flag(b), DefaultRestSecondsKey);
    StoreOther(d, IsVoiceCountdownEnabledKey, Flag(b), UseElevenLabsKey);
  }

  /** What the `preferredVoiceIdentifier` setter stores is read back as that preference, and nothing else changes. */
  lemma DecodeAfterSetPreferredVoiceIdentifier(d: Defaults, systemLanguage: Option<string>, id: string)
    ensures Decode(d[PreferredVoiceIdentifierKey := Str(id)], systemLanguage) == Decode(d, systemLanguage).(preferredVoiceIdentifier := Some(id))
  {
    StoreOther(d, PreferredVoiceIdentifierKey, Str(id), AppearanceModeKey);
    StoreOther(d, PreferredVoiceIdentifierKey, Str(id), AppLanguageKey);
    StoreOther(d, PreferredVoiceIdentifierKey, Str(id), CoachVerbosityKey);
    StoreOther(d, PreferredVoiceIdentifierKey, Str(id), ElevenLabsVoiceIdKey);
    StoreOther(d, PreferredVoiceIdentifierKey, Str(id), IsVoiceEnabledKey);
    StoreOther(d, PreferredVoiceIdentifierKey, Str(id), IsVoiceCountdownEnabledKey);
    StoreOther(d, PreferredVoiceIdentifierKey, Str(id), DefaultRestSecondsKey);
    StoreOther(d, PreferredVoiceIdentifierKey, Str(id), UseElevenLabsKey);
  }

  /** What the `defaultRestSeconds` setter stores is read back as that preference, and nothing else changes. */
  lemma DecodeAfterSetDefaultRestSeconds(d: Defaults, systemLanguage: Option<string>, n: int)
    ensures Decode(d[DefaultRestSecondsKey := Number(n)], systemLanguage) == Decode(d, systemLanguage).(defaultRestSeconds := if n > 0 then n else 90)
  {
    StoreOther(d, DefaultRestSecondsKey, Number(n), AppearanceModeKey);
    StoreOther(d, DefaultRestSecondsKey, Number(n), AppLanguageKey);
    StoreOther(d, DefaultRestSecondsKey, Number(n), CoachVerbosityKey);
    StoreOther(d, DefaultRestSecondsKey, Number(n), PreferredVoiceIdentifierKey);
    StoreOther(d, DefaultRestSecondsKey, Number(n), ElevenLabsVoiceIdKey);
    StoreOther(d, DefaultRestSecondsKey, Number(n), IsVoiceEnabledKey);
    StoreOther(d, DefaultRestSecondsKey, Number(n), IsVoiceCountdownEnabledKey);
    StoreOther(d, DefaultRestSecondsKey, Number(n), UseElevenLabsKey);
  }

  /** What the `useElevenLabs` setter stores is read back as that preference, and nothing else changes. */
  lemma DecodeAfterSetUseElevenLabs(d: Defaults, systemLanguage: Option<string>, b: bool)
    ensures Decode(d[UseElevenLabsKey := Flag(b)], systemLanguage) == Decode(d, systemLanguage).(useElevenLabs := b)
  {
    StoreOther(d, UseElevenLabsKey, Flag(b), AppearanceModeKey);
    StoreOther(d, UseElevenLabsKey, Flag(b), AppLanguageKey);
    StoreOther(d, UseElevenLabsKey, Flag(b), CoachVerbosityKey);
    StoreOther(d, UseElevenLabsKey, Flag(b), PreferredVoiceIdentifierKey);
    StoreOther(d, UseElevenLabsKey, Flag(b), ElevenLabsVoiceIdKey);
    StoreOther(d, UseElevenLabsKey, Flag(b), IsVoiceEnabledKey);
    StoreOther(d, UseElevenLabsKey, Flag(b), IsVoiceCountdownEnabledKey);
    StoreOther(d, UseElevenLabsKey, Flag(b), DefaultRestSecondsKey);
  }

  /** What the `elevenLabsVoiceId` setter stores is read back as that preference, and nothing else changes. */
  lemma DecodeAfterSetElevenLabsVoiceId(d: Defaults, systemLanguage: Option<string>, id: string)
    ensures Decode(d[ElevenLabsVoiceIdKey := Str(id)], systemLanguage) == Decode(d, systemLanguage).(elevenLabsVoiceId := id)
  {
    StoreOther(d, ElevenLabsVoiceIdKey, Str(id), AppearanceModeKey);
    StoreOther(d, ElevenLabsVoiceIdKey, Str(id), AppLanguageKey);
    StoreOther(d, ElevenLabsVoiceIdKey, Str(id), CoachVerbosityKey);
    StoreOther(d, ElevenLabsVoiceIdKey, Str(id), PreferredVoiceIdentifierKey);
    StoreOther(d, ElevenLabsVoiceIdKey, Str(id), IsVoiceEnabledKey);
    StoreOther(d, ElevenLabsVoiceIdKey, Str(id), IsVoiceCountdownEnabledKey);
    StoreOther(d, ElevenLabsVoiceIdKey, Str(id), DefaultRestSecondsKey);
    StoreOther(d, ElevenLabsVoiceIdKey, Str(id), UseElevenLabsKey);
  }

  /** Removing the preferred voice from the store affects that preference only. */
  lemma DecodeWithoutPreferredVoice(d: Defaults, systemLanguage: Option<string>)
    ensures Decode(d - {PreferredVoiceIdentifierKey}, systemLanguage) ==
      Decode(d, systemLanguage).(preferredVoiceIdentifier := None)
  {
    var e := d - {PreferredVoiceIdentifierKey};
    assert StringFor(e, AppearanceModeKey) == StringFor(d, AppearanceModeKey);
    assert StringFor(e, AppLanguageKey) == StringFor(d, AppLanguageKey);
    assert StringFor(e, CoachVerbosityKey) == StringFor(d, CoachVerbosityKey);
    assert StringFor(e, ElevenLabsVoiceIdKey) == StringFor(d, ElevenLabsVoiceIdKey);
  }

  // ---------------------------------------------------------------------------
  // Voices
  // ---------------------------------------------------------------------------

  datatype VoiceQuality = DefaultQuality | Enhanced | Premium
  datatype VoiceGender = Unspecified | Male | Female

  /** An installed speech voice, as the system lists it. */
  datatype SpeechVoice = SpeechVoice(identifier: string, name: string, language: string, quality: VoiceQuality, gender: VoiceGender)

  predicate VoiceNameLt(a: SpeechVoice, b: SpeechVoice) {
    StrLt(a.name, b.name)
  }

  function SpeaksLanguage(language: AppLanguage): SpeechVoice -> bool {
    (v: SpeechVoice) => StartsWith(v.language, LanguageRaw(language))
  }

  /** `availableVoices`: the installed voices whose language starts with the app language's code, by name. */
  function AvailableVoices(installed: seq<SpeechVoice>, language: AppLanguage): (r: seq<SpeechVoice>)
    ensures multiset(r) == multiset(Filter(installed, SpeaksLanguage(language)))
    ensures forall v :: v in r <==> v in installed && StartsWith(v.language, LanguageRaw(language))
    ensures forall i, j :: 0 <= i < j < |r| ==> !StrLt(r[j].name, r[i].name)
  {
    var speaking := Filter(installed, SpeaksLanguage(language));
    FilterMembers(installed, SpeaksLanguage(language));
    StrLtIsStrictWeakOrder();
    assert StrictWeakOrder(VoiceNameLt);
    SortPermutes(speaking, VoiceNameLt);
    SortSorts(speaking, VoiceNameLt);
    var r := SortBy(speaking, VoiceNameLt);
    assert forall v :: v in r <==> v in multiset(speaking);
    r
  }

  // ---------------------------------------------------------------------------
  // The settings object
  // ---------------------------------------------------------------------------

  class AppSettings {
    var appearanceMode: AppearanceMode
    var isVoiceEnabled: bool
    var appLanguage: AppLanguage
    var coachVerbosity: CoachVerbosity
    var isVoiceCountdownEnabled: bool
    var preferredVoiceIdentifier: Option<string>
    var defaultRestSeconds: int
    var useElevenLabs: bool
    var elevenLabsVoiceId: string
    /** The user-defaults store. */
    var defaults: Defaults
    /** The keychain entry of the API key. */
    var keychainApiKey: Option<string>
    /** The system's language code at launch (nil when it has none). */
    const systemLanguage: Option<string>

    function Current(): Preferences
      reads this
    {
      Preferences(appearanceMode, isVoiceEnabled, appLanguage, coachVerbosity, isVoiceCountdownEnabled,
        preferredVoiceIdentifier, defaultRestSeconds, useElevenLabs, elevenLabsVoiceId)
    }

    /** The preferences in memory are those the store decodes to. */
    ghost predicate InSync()
      reads this
    {
      Current() == Decode(defaults, systemLanguage)
    }

    /**
     * `init`: each preference from the store with its fallback, then the
     * one-time move of a non-empty API key from user defaults to the keychain.
     */
    constructor (defaults: Defaults, keychainApiKey: Option<string>, systemLanguage: Option<string>)
      ensures Current() == Decode(defaults, systemLanguage)
      ensures this.systemLanguage == systemLanguage
      ensures StringFor(defaults, ElevenLabsApiKeyKey).Some? && StringFor(defaults, ElevenLabsApiKeyKey).value != "" ==>
        this.keychainApiKey == StringFor(defaults, ElevenLabsApiKeyKey) && this.defaults == defaults - {ElevenLabsApiKeyKey}
      ensures !(StringFor(defaults, ElevenLabsApiKeyKey).Some? && StringFor(defaults, ElevenLabsApiKeyKey).value != "") ==>
        this.keychainApiKey == keychainApiKey && this.defaults == defaults
      ensures InSync()
    {
      this.systemLanguage := systemLanguage;
      this.appearanceMode := DecodeAppearance(defaults);
      this.isVoiceEnabled := DecodeSwitch(defaults, IsVoiceEnabledKey);
      this.appLanguage := DecodeLanguage(defaults, systemLanguage);
      this.coachVerbosity := DecodeVerbosity(defaults);
      this.isVoiceCountdownEnabled := DecodeSwitch(defaults, IsVoiceCountdownEnabledKey);
      this.preferredVoiceIdentifier := StringFor(defaults, PreferredVoiceIdentifierKey);
      this.defaultRestSeconds := DecodeRestSeconds(defaults);
      this.useElevenLabs := DecodeSwitch(defaults, UseElevenLabsKey);
      var oldKey := StringFor(defaults, ElevenLabsApiKeyKey);
      if oldKey.Some? && oldKey.value != "" {
        this.keychainApiKey := oldKey;
        this.defaults := defaults - {ElevenLabsApiKeyKey};
      } else {
        this.keychainApiKey := keychainApiKey;
        this.defaults := defaults;
      }
      this.elevenLabsVoiceId := StringFor(defaults, ElevenLabsVoiceIdKey).GetOr(DefaultElevenLabsVoiceId);
      DecodeIgnoresLegacyApiKey(defaults, systemLanguage);
    }

    /** The `appearanceMode` setter and its `didSet`. */
    method SetAppearanceMode(m: AppearanceMode)
      modifies this
      ensures Current() == old(Current()).(appearanceMode := m)
      ensures defaults == old(defaults)[AppearanceModeKey := Str(AppearanceRaw(m))]
      ensures keychainApiKey == old(keychainApiKey)
      ensures old(InSync()) ==> InSync()
    {
      appearanceMode := m;
      DecodeAfterSetAppearanceMode(defaults, systemLanguage, m);
      defaults := defaults[AppearanceModeKey := Str(AppearanceRaw(m))];
    }

    /** The `isVoiceEnabled` setter and its `didSet`. */
    method SetVoiceEnabled(b: bool)
      modifies this
      ensures Current() == old(Current()).(isVoiceEnabled := b)
      ensures defaults == old(defaults)[IsVoiceEnabledKey := Flag(b)]
      ensures keychainApiKey == old(keychainApiKey)
      ensures old(InSync()) ==> InSync()
    {
      isVoiceEnabled := b;
      DecodeAfterSetVoiceEnabled(defaults, systemLanguage, b);
      defaults := defaults[IsVoiceEnabledKey := Flag(b)];
    }

    /** The `appLanguage` setter and its `didSet`. */
    method SetAppLanguage(l: AppLanguage)
      modifies this
      ensures Current() == old(Current()).(appLanguage := l)
      ensures defaults == old(defaults)[AppLanguageKey := Str(LanguageRaw(l))]
      ensures keychainApiKey == old(keychainApiKey)
      ensures old(InSync()) ==> InSync()
    {
      appLanguage := l;
      DecodeAfterSetAppLanguage(defaults, systemLanguage, l);
      defaults := defaults[AppLanguageKey := Str(LanguageRaw(l))];
    }

    /** The `coachVerbosity` setter and its `didSet`. */
    method SetCoachVerbosity(v: CoachVerbosity)
      modifies this
      ensures Current() == old(Current()).(coachVerbosity := v)
      ensures defaults == old(defaults)[CoachVerbosityKey := Str(VerbosityRaw(v))]
      ensures keychainApiKey == old(keychainApiKey)
      ensures old(InSync()) ==> InSync()
    {
      coachVerbosity := v;
      DecodeAfterSetCoachVerbosity(defaults, systemLanguage, v);
      defaults := defaults[CoachVerbosityKey := Str(VerbosityRaw(v))];
    }

    /** The `isVoiceCountdownEnabled` setter and its `didSet`. */
    method SetVoiceCountdownEnabled(b: bool)
      modifies this
      ensures Current() == old(Current()).(isVoiceCountdownEnabled := b)
      ensures defaults == old(defaults)[IsVoiceCountdownEnabledKey := Flag(b)]
      ensures keychainApiKey == old(keychainApiKey)
      ensures old(InSync()) ==> InSync()
    {
      isVoiceCountdownEnabled := b;
      DecodeAfterSetVoiceCountdownEnabled(defaults, systemLanguage, b);
      defaults := defaults[IsVoiceCountdownEnabledKey := Flag(b)];
    }

    /** The `preferredVoiceIdentifier` setter and its `didSet`; storing nil removes the key. */
    method SetPreferredVoiceIdentifier(id: Option<string>)
      modifies this
      ensures Current() == old(Current()).(preferredVoiceIdentifier := id)
      ensures id.Some? ==> defaults == old(defaults)[PreferredVoiceIdentifierKey := Str(id.value)]
      ensures id.None? ==> defaults == old(defaults) - {PreferredVoiceIdentifierKey}
      ensures keychainApiKey == old(keychainApiKey)
      ensures old(InSync()) ==> InSync()
    {
      preferredVoiceIdentifier := id;
      if id.Some? {
        DecodeAfterSetPreferredVoiceIdentifier(defaults, systemLanguage, id.value);
        defaults := defaults[PreferredVoiceIdentifierKey := Str(id.value)];
      } else {
        defaults := defaults - {PreferredVoiceIdentifierKey};
        DecodeWithoutPreferredVoice(old(defaults), systemLanguage);
      }
    }

    /**
     * The `defaultRestSeconds` setter and its `didSet`. The value is written
     * as it is, but only a positive one is read back: after storing 0 the
     * next launch starts with 90.
     */
    method SetDefaultRestSeconds(n: int)
      modifies this
      ensures Current() == old(Current()).(defaultRestSeconds := n)
      ensures defaults == old(defaults)[DefaultRestSecondsKey := Number(n)]
      ensures keychainApiKey == old(keychainApiKey)
      ensures old(InSync()) ==> (InSync() <==> n > 0)
      ensures Decode(defaults, systemLanguage).defaultRestSeconds == if n > 0 then n else 90
    {
      defaultRestSeconds := n;
      DecodeAfterSetDefaultRestSeconds(defaults, systemLanguage, n);
      defaults := defaults[DefaultRestSecondsKey := Number(n)];
    }

    /** The `useElevenLabs` setter and its `didSet`. */
    method SetUseElevenLabs(b: bool)
      modifies this
      ensures Current() == old(Current()).(useElevenLabs := b)
      ensures defaults == old(defaults)[UseElevenLabsKey := Flag(b)]
      ensures keychainApiKey == old(keychainApiKey)
      ensures old(InSync()) ==> InSync()
    {
      useElevenLabs := b;
      DecodeAfterSetUseElevenLabs(defaults, systemLanguage, b);
      defaults := defaults[UseElevenLabsKey := Flag(b)];
    }

    /** The `elevenLabsVoiceId` setter and its `didSet`. */
    method SetElevenLabsVoiceId(id: string)
      modifies this
      ensures Current() == old(Current()).(elevenLabsVoiceId := id)
      ensures defaults == old(defaults)[ElevenLabsVoiceIdKey := Str(id)]
      ensures keychainApiKey == old(keychainApiKey)
      ensures old(InSync()) ==> InSync()
    {
      elevenLabsVoiceId := id;
      DecodeAfterSetElevenLabsVoiceId(defaults, systemLanguage, id);
      defaults := defaults[ElevenLabsVoiceIdKey := Str(id)];
    }

    /** The `elevenLabsApiKey` getter: the keychain entry. */
    function ElevenLabsApiKey(): Option<string>
      reads this
    {
      keychainApiKey
    }

    /** The `elevenLabsApiKey` setter: a non-empty key is saved, nil or "" deletes the entry. */
    method SetElevenLabsApiKey(key: Option<string>)
      modifies this
      ensures key.Some? && key.value != "" ==> ElevenLabsApiKey() == key
      ensures key.None? || key.value == "" ==> ElevenLabsApiKey() == None
      ensures Current() == old(Current()) && defaults == old(defaults)
    {
      if key.Some? && key.value != "" {
        keychainApiKey := key;
      } else {
        keychainApiKey := None;
      }
    }
  }
}
