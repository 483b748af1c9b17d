/**
 * The background music player: a fixed playlist, the selected song and
 * whether it plays. The audio element is outside the model; whether it
 * exists and whether its `play()` promise resolves are parameters, and
 * that promise is taken to settle before the next button press.
 */
module AudioPlayer {
  import opened Common

  datatype Song = Song(name: string, url: string)

  /** The playlist used when the configuration names no songs. */
  const DefaultSongs: seq<Song> := [
    Song("The Nights - Avicii", "/music/the-nights.mp3"),
    Song("Until I Found You - Stephen Sanchez", "/music/until-i-found-you.mp3"),
    Song("Demons - Imagine Dragons", "/music/demons.mp3")
  ]

  /** `playNext`'s new index: the first song from none or the last, else the following one. */
  function NextSongIndex(current: Option<nat>, n: nat): (r: nat)
    requires n > 0
    ensures r < n || (current.Some? && current.value >= n)
    ensures current.None? ==> r == 0
    ensures current.Some? && current.value + 1 < n ==> r == current.value + 1
    ensures current.Some? && current.value + 1 == n ==> r == 0
  {
    if current.None? || current.value == n - 1 then 0 else current.value + 1
  }

  /** `playPrevious`'s new index: the last song from none or the first, else the preceding one. */
  function PrevSongIndex(current: Option<nat>, n: nat): (r: nat)
    requires n > 0
    ensures current.None? ==> r == n - 1
    ensures current.Some? && current.value == 0 ==> r == n - 1
    ensures current.Some? && 0 < current.value <= n ==> r == current.value - 1 && r < n
  {
    if current.None? || current.value == 0 then n - 1 else current.value - 1
  }

  /** Previous undoes Next and Next undoes Previous on a selected song. */
  lemma PrevNextSongInverse(i: nat, n: nat)
    requires i < n
    ensures PrevSongIndex(Some(NextSongIndex(Some(i), n)), n) == i
    ensures NextSongIndex(Some(PrevSongIndex(Some(i), n)), n) == i
  {
  }

  /** The song selected after `k` presses of Next with nothing selected. */
  function NextPresses(k: nat, n: nat): nat
    requires n > 0
  {
    if k == 0 then 0 else NextSongIndex(Some(NextPresses(k - 1, n)), n)
  }

  /** The first press of Next selects the first song; each further press the following one, wrapping after the last. */
  lemma {:induction false} NextWalksPlaylist(k: nat, n: nat)
    requires 0 < k <= n
    ensures NextSongIndex(None, n) == 0
    ensures k < n ==> NextPresses(k, n) == k
    ensures k == n ==> NextPresses(k, n) == 0
  {
    if k > 1 {
      NextWalksPlaylist(k - 1, n);
    }
  }

  class Player {
    const songs: seq<Song>
    var currentSongIndex: Option<nat>
    var isPlaying: bool

    /** The selected song, if any, is on the playlist. */
    predicate Valid()
      reads this
    {
      currentSongIndex.Some? ==> currentSongIndex.value < |songs|
    }

    constructor (playlist: seq<Song>)
      ensures songs == playlist && currentSongIndex.None? && !isPlaying && Valid()
    {
      songs := playlist;
      currentSongIndex := None;
      isPlaying := false;
    }

    /**
     * `togglePlayPause`: nothing without a selected song; a playing song
     * pauses; otherwise the audio element, if there is one, is asked to
     * play and playing is what its promise says.
     */
    method TogglePlayPause(hasAudio: bool, playResolves: bool)
      modifies this`isPlaying
      ensures old(currentSongIndex).None? ==> isPlaying == old(isPlaying)
      ensures old(currentSongIndex).Some? && old(isPlaying) ==> !isPlaying
      ensures old(currentSongIndex).Some? && !old(isPlaying) ==> isPlaying == (hasAudio && playResolves)
    {
      if currentSongIndex.None? {
        return;
      }
      if isPlaying {
        isPlaying := false;
      } else if hasAudio {
        isPlaying := playResolves;
      }
    }

    /** `playSong`: the selected song toggles; another song is selected and plays. */
    method PlaySong(index: nat, hasAudio: bool, playResolves: bool)
      modifies this`currentSongIndex, this`isPlaying
      ensures old(currentSongIndex) == Some(index) ==>
                currentSongIndex == old(currentSongIndex) && isPlaying == (!old(isPlaying) && hasAudio && playResolves)
      ensures old(currentSongIndex) != Some(index) ==> currentSongIndex == Some(index) && isPlaying
      ensures Valid() && index < |songs| ==> Valid()
    {
      if currentSongIndex == Some(index) {
        TogglePlayPause(hasAudio, playResolves);
      } else {
        currentSongIndex := Some(index);
        isPlaying := true;
      }
    }

    /** `playNext`: nothing on an empty playlist; otherwise the next song plays. */
    method PlayNext()
      modifies this`currentSongIndex, this`isPlaying
      ensures |songs| == 0 ==> currentSongIndex == old(currentSongIndex) && isPlaying == old(isPlaying)
      ensures |songs| > 0 ==> currentSongIndex == Some(NextSongIndex(old(currentSongIndex), |songs|)) && isPlaying
      ensures old(Valid()) ==> Valid()
    {
      if |songs| == 0 {
        return;
      }
      currentSongIndex := Some(NextSongIndex(currentSongIndex, |songs|));
      isPlaying := true;
    }

    /** `playPrevious`: nothing on an empty playlist; otherwise the previous song plays. */
    method PlayPrevious()
      modifies this`currentSongIndex, this`isPlaying
      ensures |songs| == 0 ==> currentSongIndex == old(currentSongIndex) && isPlaying == old(isPlaying)
      ensures |songs| > 0 ==> currentSongIndex == Some(PrevSongIndex(old(currentSongIndex), |songs|)) && isPlaying
      ensures old(Valid()) ==> Valid()
    {
      if |songs| == 0 {
        return;
      }
      currentSongIndex := Some(PrevSongIndex(currentSongIndex, |songs|));
      isPlaying := true;
    }
  }
}
