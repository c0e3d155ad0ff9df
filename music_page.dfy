// The music page: a track list read from the SD card's .wav files (or five
// demo titles), a cyclic track selection, a clamped seek, play/pause, and
// a playback clock advanced by the periodic update. The SD card listing,
// its availability and millis() are parameters; tones are left out.

module MusicPage {
  import opened Text
  import opened Clock
  import opened PageBase

  const MaxTracks: int := 10
  /** A stored file name holds at most 63 bytes before its terminator. */
  const NameCap: int := 63
  const DefaultDuration: int := 180
  const SeekStep: int := 10
  const TickInterval: nat := 1000

  const DemoTracks: seq<string> := ["Sunny Day", "Night Sky", "Ocean Waves", "Mountain View", "City Lights"]

  /** One entry of the directory listing. */
  datatype FileEntry = FileEntry(name: string, isDirectory: bool)

  predicate HasSuffix(s: string, t: string)
  {
    |t| <= |s| && s[|s| - |t|..] == t
  }

  /** The filter of loadMusicFiles: a file, not a directory, whose name is
    * longer than four bytes and ends in ".wav" in any letter case. */
  predicate IsWav(e: FileEntry)
  {
    !e.isDirectory && |e.name| > 4 && Lower(e.name[|e.name| - 4..]) == ".wav"
  }

  /** strncpy into a 64-byte slot followed by a terminator. */
  function Truncate(name: string): (r: string)
    ensures |r| <= NameCap && |r| <= |name| && r == name[..|r|]
    ensures |name| <= NameCap ==> r == name
  {
    if |name| <= NameCap then name else name[..NameCap]
  }

  /** The stored names of the accepted entries of `listing`, in listing order. */
  function WavNames(listing: seq<FileEntry>): (r: seq<string>)
    ensures |r| <= |listing|
  {
    if listing == [] then []
    else
      var last := listing[|listing| - 1];
      WavNames(listing[..|listing| - 1]) + (if IsWav(last) then [Truncate(last.name)] else [])
  }

  /** The accepted names of a prefix of the listing come first among those of
    * the whole listing. */
  lemma {:induction false} WavNamesPrefix(listing: seq<FileEntry>, i: nat)
    requires i <= |listing|
    ensures |WavNames(listing[..i])| <= |WavNames(listing)|
    ensures WavNames(listing[..i]) == WavNames(listing)[..|WavNames(listing[..i])|]
  {
    if i == |listing| {
      assert listing[..i] == listing;
    } else {
      var init := listing[..|listing| - 1];
      WavNamesPrefix(init, i);
      assert init[..i] == listing[..i];
    }
  }

  /** A name is stored exactly when its entry passes the filter. */
  lemma {:induction false} WavNamesMembers(listing: seq<FileEntry>)
    ensures forall n :: n in WavNames(listing) <==>
      exists k :: 0 <= k < |listing| && IsWav(listing[k]) && n == Truncate(listing[k].name)
  {
    if listing != [] {
      var init := listing[..|listing| - 1];
      WavNamesMembers(init);
      assert forall k :: 0 <= k < |init| ==> init[k] == listing[k];
    }
  }

  /** The position of the last '.' (strrchr). */
  function LastDot(s: string): (r: Option<nat>)
    ensures r.Some? ==> r.value < |s| && s[r.value] == '.'
    ensures r.Some? ==> forall j :: r.value < j < |s| ==> s[j] != '.'
    ensures r.None? ==> forall j :: 0 <= j < |s| ==> s[j] != '.'
  {
    if s == [] then None
    else if s[|s| - 1] == '.' then Some(|s| - 1)
    else LastDot(s[..|s| - 1])
  }

  /** The title shown for a stored name: with an SD card, a final ".wav" or
    * ".mp3" (matched from the last dot, letter case exact) is dropped. */
  function DisplayName(stored: string, sdCard: bool): (r: string)
    ensures sdCard && (HasSuffix(stored, ".wav") || HasSuffix(stored, ".mp3")) ==> r == stored[..|stored| - 4]
    ensures !(sdCard && (HasSuffix(stored, ".wav") || HasSuffix(stored, ".mp3"))) ==> r == stored
  {
    if !sdCard then stored
    else
      match LastDot(stored)
      case None =>
        if |stored| >= 4 then
          assert stored[|stored| - 4..][0] == stored[|stored| - 4];
          stored
        else
          stored
      case Some(d) =>
        if stored[d..] == ".wav" || stored[d..] == ".mp3" then
          assert |stored[d..]| == 4;
          stored[..d]
        else if |stored| >= 4 then
          assert stored[|stored| - 4..][0] == stored[|stored| - 4];
          stored
        else
          stored
  }

  /** updateProgress's bar value, in percent. */
  function ProgressPercent(current: int, total: int): (p: int)
    requires 0 <= current <= total && total > 0
    ensures 0 <= p <= 100
    ensures p == 100 <==> current == total
  {
    DivAtLeast(current * 100, total, 0);
    DivAtLeast(current * 100, total, 100);
    DivAtLeast(current * 100, total, 101);
    current * 100 / total
  }

  /** One "%d:%02d" field of the time label: the two parts read back as the
    * whole minutes and the seconds left over. */
  function TimeField(seconds: nat): (s: string)
    ensures |s| >= 4 && s[|s| - 3] == ':'
    ensures forall i :: 0 <= i < |s| - 3 ==> '0' <= s[i] <= '9'
    ensures forall i :: |s| - 2 <= i < |s| ==> '0' <= s[i] <= '9'
    ensures DecValue(s[..|s| - 3]) == seconds / 60
    ensures DecValue(s[|s| - 2..]) == seconds % 60 < 60
  {
    var m, sec := Dec(seconds / 60), ZeroPad2(seconds % 60);
    DecRoundTrip(seconds / 60);
    ColonJoin(m, sec);
    m + ":" + sec
  }

  class MusicPlayer {
    var isPlaying: bool
    var currentTrack: int
    var currentTime: int
    var totalTime: int
    var lastUpdateTime: Millis
    /** The 10 x 64 name buffer, one string per slot. */
    const musicFiles: array<string>
    var trackCount: int
    var sdCardAvailable: bool
    /** createMusicUI has run (the labels the update functions test exist). */
    var uiCreated: bool

    /** The bounds that hold between any two statements of the page. */
    ghost predicate Shape()
      reads this, musicFiles
    {
      && musicFiles.Length == MaxTracks
      && 0 <= trackCount <= MaxTracks
      && (forall i :: 0 <= i < trackCount ==> |musicFiles[i]| <= NameCap)
      && (uiCreated ==> 1 <= trackCount && 0 <= currentTrack < trackCount)
      && 0 <= currentTime <= totalTime
    }

    /** Between events, in addition: the duration is always three minutes,
      * because updateTrackInfo resets it after playCurrentTrack sets it. */
    ghost predicate Valid()
      reads this, musicFiles
    {
      Shape() && totalTime == DefaultDuration
    }

    constructor ()
      ensures Valid() && fresh(musicFiles)
      ensures !isPlaying && currentTrack == 0 && currentTime == 0 && lastUpdateTime == 0
      ensures trackCount == 0 && !sdCardAvailable && !uiCreated
    {
      isPlaying := false;
      currentTrack := 0;
      currentTime := 0;
      totalTime := DefaultDuration;
      lastUpdateTime := 0;
      musicFiles := new string[MaxTracks](_ => "");
      trackCount := 0;
      sdCardAvailable := false;
      uiCreated := false;
    }

    /** The scanning loop of loadMusicFiles: stores accepted names of
      * `listing` in order until the listing ends or ten are stored. */
    method ScanListing(listing: seq<FileEntry>) returns (count: int)
      requires musicFiles.Length == MaxTracks
      modifies musicFiles
      ensures count == (if |WavNames(listing)| < MaxTracks then |WavNames(listing)| else MaxTracks)
      ensures musicFiles[..count] == WavNames(listing)[..count]
      ensures forall k :: 0 <= k < count ==> |musicFiles[k]| <= NameCap
    {
      count := 0;
      var i := 0;
      while i < |listing| && count < MaxTracks
        invariant 0 <= i <= |listing| && 0 <= count <= MaxTracks
        invariant WavNames(listing[..i]) == musicFiles[..count]
        invariant forall k :: 0 <= k < count ==> |musicFiles[k]| <= NameCap
      {
        var e := listing[i];
        assert listing[..i + 1][..i] == listing[..i];
        assert WavNames(listing[..i + 1]) == WavNames(listing[..i]) + (if IsWav(e) then [Truncate(e.name)] else []);
        if !e.isDirectory {
          var len := |e.name|;
          if len > 4 {
            var ext := Lower(e.name[len - 4..]);
            if ext == ".wav" {
              musicFiles[count] := Truncate(e.name);
              count := count + 1;
            }
          }
        }
        i := i + 1;
      }
      WavNamesPrefix(listing, i);
      assert i == |listing| ==> listing[..i] == listing;
    }

    /** loadMusicFiles: with a card, the accepted entries of `listing` (the
      * /Music directory, else the root; empty when neither opens) are stored
      * in order until ten are found; with no card or nothing found, the five
      * demo titles are used and the card is marked unavailable. */
    method LoadMusicFiles(sdOk: bool, listing: seq<FileEntry>)
      requires Valid() && !uiCreated
      modifies this, musicFiles
      ensures Valid() && !uiCreated
      ensures 1 <= trackCount <= MaxTracks
      ensures var found := WavNames(listing);
        if sdOk && |found| > 0 then
          && sdCardAvailable
          && trackCount == (if |found| < MaxTracks then |found| else MaxTracks)
          && musicFiles[..trackCount] == found[..trackCount]
        else
          !sdCardAvailable && trackCount == |DemoTracks| && musicFiles[..trackCount] == DemoTracks
      ensures isPlaying == old(isPlaying) && currentTrack == old(currentTrack) && currentTime == old(currentTime)
      ensures lastUpdateTime == old(lastUpdateTime)
    {
      trackCount := 0;
      sdCardAvailable := false;
      if sdOk {
        sdCardAvailable := true;
        trackCount := ScanListing(listing);
      }
      if !sdCardAvailable || trackCount == 0 {
        FillDemoTracks();
        trackCount := 5;
        sdCardAvailable := false;
      }
    }

    /** The five demo titles of loadMusicFiles' fallback. */
    method FillDemoTracks()
      requires musicFiles.Length == MaxTracks
      modifies musicFiles
      ensures musicFiles[..|DemoTracks|] == DemoTracks
      ensures forall k :: 0 <= k < |DemoTracks| ==> |musicFiles[k]| <= NameCap
    {
      musicFiles[0] := "Sunny Day";
      musicFiles[1] := "Night Sky";
      musicFiles[2] := "Ocean Waves";
      musicFiles[3] := "Mountain View";
      musicFiles[4] := "City Lights";
    }

    /** onViewDidLoad: load the track list, then build the widgets. */
    method OnViewDidLoad(sdOk: bool, listing: seq<FileEntry>)
      requires Valid() && !uiCreated && currentTrack == 0
      modifies this, musicFiles
      ensures Valid() && uiCreated
      ensures isPlaying == old(isPlaying) && currentTrack == 0 && currentTime == old(currentTime)
    {
      LoadMusicFiles(sdOk, listing);
      uiCreated := true;
    }

    /** updateTrackInfo: the title of the current track is shown and the
      * duration goes back to three minutes. (Its guard, widgets present and
      * the track in range, always holds once the page is loaded.) */
    method UpdateTrackInfo() returns (title: string)
      requires Shape() && uiCreated && currentTime <= DefaultDuration
      modifies this
      ensures Valid() && uiCreated && totalTime == DefaultDuration
      ensures title == DisplayName(musicFiles[currentTrack], sdCardAvailable)
      ensures isPlaying == old(isPlaying) && currentTrack == old(currentTrack) && currentTime == old(currentTime)
      ensures lastUpdateTime == old(lastUpdateTime) && trackCount == old(trackCount)
      ensures sdCardAvailable == old(sdCardAvailable) && uiCreated
    {
      var stored := Truncate(musicFiles[currentTrack]);
      title := DisplayName(stored, sdCardAvailable);
      totalTime := DefaultDuration;
    }

    /** onViewWillAppear: refresh the title and the time. */
    method OnViewWillAppear() returns (title: string)
      requires Valid() && uiCreated
      modifies this
      ensures Valid() && uiCreated
      ensures title == DisplayName(musicFiles[currentTrack], sdCardAvailable)
      ensures isPlaying == old(isPlaying) && currentTrack == old(currentTrack) && currentTime == old(currentTime)
    {
      title := UpdateTrackInfo();
    }

    /** onKey: LEFT and RIGHT step to the previous or next track cyclically
      * and rewind it; TOP seeks ten seconds forward, stopping at the end;
      * BOTTOM ten seconds back, stopping at the start. */
    method OnKey(dir: Dir)
      requires Valid() && uiCreated
      modifies this
      ensures Valid() && uiCreated
      ensures dir == Left ==> currentTrack == Pred(old(currentTrack), old(trackCount)) && currentTime == 0
      ensures dir == Right ==> currentTrack == Succ(old(currentTrack), old(trackCount)) && currentTime == 0
      ensures dir == Top ==> currentTrack == old(currentTrack) && currentTime == Constrain(old(currentTime) + SeekStep, 0, DefaultDuration)
      ensures dir == Bottom ==> currentTrack == old(currentTrack) && currentTime == Constrain(old(currentTime) - SeekStep, 0, DefaultDuration)
      ensures dir == DirNone ==> currentTrack == old(currentTrack) && currentTime == old(currentTime)
      ensures isPlaying == old(isPlaying) && trackCount == old(trackCount) && lastUpdateTime == old(lastUpdateTime)
    {
      match dir
      case Left =>
        currentTrack := currentTrack - 1;
        if currentTrack < 0 {
          currentTrack := trackCount - 1;
        }
        currentTime := 0;
        totalTime := DefaultDuration;
        var _ := UpdateTrackInfo();
      case Right =>
        currentTrack := currentTrack + 1;
        if currentTrack >= trackCount {
          currentTrack := 0;
        }
        currentTime := 0;
        totalTime := DefaultDuration;
        var _ := UpdateTrackInfo();
      case Top =>
        currentTime := currentTime + SeekStep;
        if currentTime > totalTime {
          currentTime := totalTime;
        }
      case Bottom =>
        currentTime := currentTime - SeekStep;
        if currentTime < 0 {
          currentTime := 0;
        }
      case DirNone =>
    }

    /** playCurrentTrack: a playing track gets a duration of three minutes
      * plus half a minute per position and starts from zero. (Its guard,
      * the track in range, always holds once the page is loaded.) */
    method PlayCurrentTrack(now: Millis)
      requires Valid() && uiCreated
      modifies this
      ensures Shape()
      ensures isPlaying ==>
        totalTime == DefaultDuration + 30 * currentTrack && currentTime == 0 && lastUpdateTime == now
      ensures !isPlaying ==> totalTime == old(totalTime) && currentTime == old(currentTime) && lastUpdateTime == old(lastUpdateTime)
      ensures isPlaying == old(isPlaying) && currentTrack == old(currentTrack)
      ensures trackCount == old(trackCount) && sdCardAvailable == old(sdCardAvailable) && uiCreated == old(uiCreated)
    {
      if isPlaying {
        totalTime := DefaultDuration + currentTrack * 30;
        currentTime := 0;
        lastUpdateTime := now;
      }
    }

    /** onButton: a press toggles playback; starting restarts the track
      * from zero, and the duration ends at three minutes whichever track
      * plays. */
    method OnButton(pressed: bool, now: Millis)
      requires Valid() && uiCreated
      modifies this
      ensures Valid() && uiCreated
      ensures isPlaying == (old(isPlaying) != pressed)
      ensures pressed && isPlaying ==> currentTime == 0 && lastUpdateTime == now
      ensures !(pressed && isPlaying) ==> currentTime == old(currentTime) && lastUpdateTime == old(lastUpdateTime)
      ensures currentTrack == old(currentTrack) && trackCount == old(trackCount)
    {
      if !pressed {
        return;
      }
      isPlaying := !isPlaying;
      if isPlaying {
        PlayCurrentTrack(now);
      }
      var _ := UpdateTrackInfo();
    }

    /** updatePlaybackProgress: a playing track whose clock is a second old
      * advances one second; reaching the duration stops it there. */
    method UpdatePlaybackProgress(now: Millis)
      requires Valid()
      modifies this
      ensures Valid()
      ensures old(isPlaying) && Elapsed(now, old(lastUpdateTime)) >= TickInterval ==>
        && lastUpdateTime == now
        && currentTime == (if old(currentTime) + 1 >= totalTime then totalTime else old(currentTime) + 1)
        && (isPlaying <==> old(currentTime) + 1 < totalTime)
      ensures !(old(isPlaying) && Elapsed(now, old(lastUpdateTime)) >= TickInterval) ==>
        isPlaying == old(isPlaying) && currentTime == old(currentTime) && lastUpdateTime == old(lastUpdateTime)
      ensures currentTrack == old(currentTrack) && trackCount == old(trackCount) && uiCreated == old(uiCreated)
    {
      if isPlaying && totalTime > 0 {
        if Elapsed(now, lastUpdateTime) >= TickInterval {
          currentTime := currentTime + 1;
          lastUpdateTime := now;
          if currentTime >= totalTime {
            isPlaying := false;
            currentTime := totalTime;
          }
        }
      }
    }
  }
}
