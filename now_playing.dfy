/**
 * `NowPlayingService`: the workout shown on the lock screen. The service keeps
 * an `isActive` flag guarding the registration of the remote commands, and
 * writes one now-playing dictionary at a time. The dictionary is modelled as a
 * record of its keys; the media-player and audio-session calls are recorded as
 * flags and counters, and their failures are parameters.
 */
module NowPlaying {
  import opened Wrappers
  import opened Text

  /** The lock-screen album line of every dictionary. */
  const AlbumTitle := "GymBuddy Workout"

  /**
   * The keys the service writes: title, artist, album, playback rate (0.0 or
   * 1.0, here 0 or 1), and the playback duration and elapsed time in seconds
   * when it sets them.
   */
  datatype NowPlayingInfo = NowPlayingInfo(
    title: string,
    artist: string,
    albumTitle: string,
    playbackRate: int,
    playbackDuration: Option<int>,
    elapsedPlaybackTime: Option<int>)

  /** `formatTime(_:)`: "m:ss" once there is a whole minute, "<s>s" otherwise (truncating `/` and `%`). */
  function FormatTime(seconds: int): (r: string)
    ensures 0 <= seconds < 60 ==> r == NatToString(seconds) + "s"
    ensures seconds >= 60 ==> r == MinutesSeconds(seconds / 60, seconds % 60)
  {
    var mins := Quot(seconds, 60);
    var secs := Rem(seconds, 60);
    if mins > 0 then MinutesSeconds(mins, secs) else IntToString(secs) + "s"
  }

  /**
   * Reads a lock-screen time back: digits and an `s` as seconds, "m:ss" as
   * minutes and seconds; None for any other text.
   */
  function ReadFormatTime(r: string): Option<nat> {
    if |r| >= 1 && r[|r| - 1] == 's' && AllDigits(r[..|r| - 1]) then Some(DigitsValue(r[..|r| - 1]))
    else if |r| >= 4 && r[|r| - 3] == ':' && AllDigits(r[..|r| - 3]) && AllDigits(r[|r| - 2..]) then
      Some(DigitsValue(r[..|r| - 3]) * 60 + DigitsValue(r[|r| - 2..]))
    else None
  }

  /** Every non-negative count reads back from its text. */
  lemma FormatTimeRoundTrip(seconds: nat)
    ensures ReadFormatTime(FormatTime(seconds)) == Some(seconds)
  {
    if seconds < 60 {
      ReadsSeconds(seconds);
      assert FormatTime(seconds) == NatToString(seconds) + "s";
    } else {
      var m, sec := seconds / 60, seconds % 60;
      ReadsMinutesSeconds(m, sec);
      assert FormatTime(seconds) == MinutesSeconds(m, sec);
    }
  }

  lemma ReadsSeconds(n: nat)
    ensures ReadFormatTime(NatToString(n) + "s") == Some(n)
  {
    var r := NatToString(n) + "s";
    assert r[..|r| - 1] == NatToString(n);
    NatToStringRoundTrip(n);
  }

  /** A text ending in a digit, with ':' before its last two digits, is read as "m:ss". */
  lemma ReadsColonForm(r: string)
    requires |r| >= 4 && r[|r| - 3] == ':' && IsDigit(r[|r| - 1])
    requires AllDigits(r[..|r| - 3]) && AllDigits(r[|r| - 2..])
    ensures ReadFormatTime(r) == Some(DigitsValue(r[..|r| - 3]) * 60 + DigitsValue(r[|r| - 2..]))
  {
    assert r[|r| - 1] != 's';
  }

  lemma ReadsMinutesSeconds(m: nat, sec: nat)
    requires sec < 60
    ensures ReadFormatTime(MinutesSeconds(m, sec)) == Some(m * 60 + sec)
  {
    MinutesSecondsReadsBack(m, sec);
    ReadsColonForm(MinutesSeconds(m, sec));
  }

  /** Different non-negative counts never show the same text. */
  lemma FormatTimeInjective(a: nat, b: nat)
    requires FormatTime(a) == FormatTime(b)
    ensures a == b
  {
    FormatTimeRoundTrip(a);
    FormatTimeRoundTrip(b);
  }

  /** `"SET \(currentSet) OF \(totalSets)"`. */
  function SetLine(currentSet: int, totalSets: int): string {
    "SET " + IntToString(currentSet) + " OF " + IntToString(totalSets)
  }

  /** The artist line of `updateNowPlaying`: "REST - t" for a rest with a known time, else the set line. */
  function ArtistLine(currentSet: int, totalSets: int, isResting: bool, restTimeRemaining: Option<int>): (artist: string)
    ensures StartsWith(artist, "REST - ") <==> isResting && restTimeRemaining.Some?
    ensures isResting && restTimeRemaining.Some? ==> artist[7..] == FormatTime(restTimeRemaining.value)
    ensures !(isResting && restTimeRemaining.Some?) ==> artist == SetLine(currentSet, totalSets)
  {
    if isResting && restTimeRemaining.Some? then
      "REST - " + FormatTime(restTimeRemaining.value)
    else
      var line := SetLine(currentSet, totalSets);
      assert line[0] == 'S';
      line
  }

  /**
   * The dictionary `updateNowPlaying` writes. The exercise name is the title,
   * upper-cased; a rest with a known remaining time shows "REST - t", stops the
   * playback rate and shows a duration five seconds longer than what remains;
   * anything else shows the set line and plays.
   */
  function NowPlayingFields(exerciseName: string, currentSet: int, totalSets: int,
                            isResting: bool, restTimeRemaining: Option<int>): (info: NowPlayingInfo)
    ensures info.title == Upper(exerciseName)
    ensures |info.title| == |exerciseName| + multiset(exerciseName)['\U{DF}'] && NoLowerCase(info.title)
    ensures info.albumTitle == AlbumTitle
    ensures StartsWith(info.artist, "REST - ") <==> isResting && restTimeRemaining.Some?
    ensures isResting && restTimeRemaining.Some? ==> info.artist[7..] == FormatTime(restTimeRemaining.value)
    ensures !(isResting && restTimeRemaining.Some?) ==> info.artist == SetLine(currentSet, totalSets)
    ensures info.playbackRate == (if isResting then 0 else 1)
    ensures info.playbackDuration.Some? <==> isResting && restTimeRemaining.Some?
    ensures info.elapsedPlaybackTime.Some? <==> isResting && restTimeRemaining.Some?
    ensures isResting && restTimeRemaining.Some? ==>
      info.playbackDuration.value == restTimeRemaining.value + 5 && info.elapsedPlaybackTime.value == 5
  {
    var title := Upper(exerciseName);
    var artist := ArtistLine(currentSet, totalSets, isResting, restTimeRemaining);
    var rate := if isResting then 0 else 1;
    if isResting && restTimeRemaining.Some? then
      var totalRest := restTimeRemaining.value + 5;
      NowPlayingInfo(title, artist, AlbumTitle, rate, Some(totalRest), Some(totalRest - restTimeRemaining.value))
    else
      NowPlayingInfo(title, artist, AlbumTitle, rate, None, None)
  }

  /**
   * The dictionary `updateRestTimer` writes: title "REST", the remaining time and
   * the next exercise as artist, rate 1, the whole rest as duration and the part
   * already over as elapsed time.
   */
  function RestTimerFields(exerciseName: string, currentSet: int, totalSets: int,
                           remaining: int, total: int): (info: NowPlayingInfo)
    ensures info.title == "REST" && info.albumTitle == AlbumTitle && info.playbackRate == 1
    ensures info.artist == FormatTime(remaining) + " - Next: " + exerciseName
    ensures info.playbackDuration == Some(total)
    ensures info.elapsedPlaybackTime.Some? && info.elapsedPlaybackTime.value + remaining == total
  {
    NowPlayingInfo("REST", FormatTime(remaining) + " - Next: " + exerciseName, AlbumTitle, 1,
      Some(total), Some(total - remaining))
  }

  class NowPlayingService {
    var isActive: bool
    /** The lock-screen dictionary; None once it is cleared. */
    var info: Option<NowPlayingInfo>
    /** Whether the remote-command targets are registered. */
    var commandsRegistered: bool
    /** Whether the app receives remote-control events. */
    var receivingRemoteEvents: bool
    /** How many times the remote commands have been set up. */
    var registrations: nat
    /** `setupAudioSession()` set the category to `.playback` with `.mixWithOthers`. */
    const playbackCategorySet: bool
    /** `setupAudioSession()` activated the audio session. */
    const audioSessionActive: bool

    /**
     * `init()` runs `setupAudioSession()`: the `.playback` category with
     * `.mixWithOthers`, then `setActive(true)`. A failing `setCategory` skips
     * the activation; either failure is only logged. Nothing is active or
     * shown yet.
     */
    constructor (setCategoryFails: bool, setActiveFails: bool)
      ensures playbackCategorySet <==> !setCategoryFails
      ensures audioSessionActive <==> !setCategoryFails && !setActiveFails
      ensures !isActive && info == None && !commandsRegistered && !receivingRemoteEvents && registrations == 0
    {
      playbackCategorySet := !setCategoryFails;
      audioSessionActive := !setCategoryFails && !setActiveFails;
      isActive := false;
      info := None;
      commandsRegistered := false;
      receivingRemoteEvents := false;
      registrations := 0;
    }

    /** `activate()`: registers the remote commands the first time only. */
    method Activate()
      modifies this
      ensures isActive
      ensures old(isActive) ==>
        && commandsRegistered == old(commandsRegistered)
        && receivingRemoteEvents == old(receivingRemoteEvents)
        && registrations == old(registrations)
      ensures !old(isActive) ==>
        commandsRegistered && receivingRemoteEvents && registrations == old(registrations) + 1
      ensures info == old(info)
    {
      if isActive {
        return;
      }
      isActive := true;
      commandsRegistered := true;
      registrations := registrations + 1;
      receivingRemoteEvents := true;
    }

    /** `deactivate()`: when active, removes the command targets and clears the lock screen. */
    method Deactivate()
      modifies this
      ensures !isActive
      ensures !old(isActive) ==>
        && info == old(info)
        && commandsRegistered == old(commandsRegistered)
        && receivingRemoteEvents == old(receivingRemoteEvents)
      ensures old(isActive) ==> info == None && !commandsRegistered && !receivingRemoteEvents
      ensures registrations == old(registrations)
    {
      if !isActive {
        return;
      }
      isActive := false;
      commandsRegistered := false;
      ClearNowPlayingInfo();
      receivingRemoteEvents := false;
    }

    /** `updateNowPlaying(...)`: replaces the dictionary. */
    method UpdateNowPlaying(exerciseName: string, currentSet: int, totalSets: int,
                            isResting: bool, restTimeRemaining: Option<int>)
      modifies this
      ensures info == Some(NowPlayingFields(exerciseName, currentSet, totalSets, isResting, restTimeRemaining))
      ensures isActive == old(isActive) && commandsRegistered == old(commandsRegistered)
      ensures receivingRemoteEvents == old(receivingRemoteEvents) && registrations == old(registrations)
    {
      info := Some(NowPlayingFields(exerciseName, currentSet, totalSets, isResting, restTimeRemaining));
    }

    /** `updateRestTimer(...)`: replaces the dictionary with the rest countdown. */
    method UpdateRestTimer(exerciseName: string, currentSet: int, totalSets: int, remaining: int, total: int)
      modifies this
      ensures info == Some(RestTimerFields(exerciseName, currentSet, totalSets, remaining, total))
      ensures isActive == old(isActive) && commandsRegistered == old(commandsRegistered)
      ensures receivingRemoteEvents == old(receivingRemoteEvents) && registrations == old(registrations)
    {
      info := Some(RestTimerFields(exerciseName, currentSet, totalSets, remaining, total));
    }

    /** `clearNowPlayingInfo()`. */
    method ClearNowPlayingInfo()
      modifies this`info
      ensures info == None
    {
      info := None;
    }
  }
}
