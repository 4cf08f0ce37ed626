/**
 * The song selection screen (components/select-song/index.tsx): the list of
 * songs picked so far, fed by a search bar.
 */
module SelectSongComponent {
  import opened Strings
  import opened SongConfirm
  import opened SongSearchBarComponent

  /** The state of one song selection screen. */
  class SelectSong {
    /** The picked songs, in the order they were picked; duplicates are kept. */
    var selectedSongs: seq<string>

    constructor ()
      ensures selectedSongs == []
    {
      selectedSongs := [];
    }

    /**
     * `handleSongSelected(songName)`: appends the name to the list and passes
     * the new list, the one stored, to `onSongsChange` (`notified`).
     */
    method HandleSongSelected(songName: string) returns (notified: seq<string>)
      modifies this
      ensures selectedSongs == old(selectedSongs) + [songName]
      ensures |selectedSongs| == |old(selectedSongs)| + 1 && selectedSongs[..|old(selectedSongs)|] == old(selectedSongs)
      ensures notified == selectedSongs
    {
      var newSongs := selectedSongs + [songName];
      selectedSongs := newSongs;
      notified := newSongs;
    }

    /**
     * A confirm in the screen's search bar, wired to `handleSongSelected` and
     * calling the real song service: text that is not blank adds exactly one
     * entry, its trimmed form, and clears the bar; blank text changes nothing.
     * `onSongsChangeThrows` says whether `onSongsChange` throws: the entry is
     * still added, but the bar's `catch` skips clearing its text.
     */
    method ConfirmInSearchBar(bar: SongSearchBar, onSongsChangeThrows: bool)
      modifies this, bar
      ensures Blank(old(bar.songInput)) ==>
        selectedSongs == old(selectedSongs) && bar.songInput == old(bar.songInput) && bar.isLoading == old(bar.isLoading)
      ensures !Blank(old(bar.songInput)) ==>
        && selectedSongs == old(selectedSongs) + [Trim(old(bar.songInput))]
        && bar.songInput == (if onSongsChangeThrows then old(bar.songInput) else "")
        && !bar.isLoading
    {
      ServiceAcceptsTrimmedInput(bar.songInput);
      var _, selected := bar.HandleSongConfirm(SelectSongService, onSongsChangeThrows);
      if selected.Some? {
        var _ := HandleSongSelected(selected.value);
      }
    }

    /** Picking the same song twice lists it twice: the list is not a set. */
    method SelectTwice(songName: string)
      modifies this
      ensures selectedSongs == old(selectedSongs) + [songName, songName]
    {
      var _ := HandleSongSelected(songName);
      var _ := HandleSongSelected(songName);
    }
  }
}
