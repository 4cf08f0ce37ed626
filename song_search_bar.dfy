/**
 * The song search bar (components/select-song/molecules/song-search-bar.tsx):
 * a text box and a confirm button. Confirming sends the text to the song
 * service and hands an accepted name to the `onSongSelected` callback.
 */
module SongSearchBarComponent {
  import opened Wrappers
  import opened Strings
  import opened SongConfirm

  /** The state of one search bar. */
  class SongSearchBar {
    var songInput: string
    var isLoading: bool

    constructor ()
      ensures songInput == "" && !isLoading
    {
      songInput := "";
      isLoading := false;
    }

    /** The confirm button is disabled while loading and while the text is blank. */
    function ConfirmEnabled(): (enabled: bool)
      reads this
      ensures enabled <==> !isLoading && !Blank(songInput)
    {
      !(isLoading || Trim(songInput) == [])
    }

    /** Typing in the text box; the box ignores input while it is not editable. */
    method ChangeText(text: string)
      modifies this`songInput
      ensures songInput == if !old(isLoading) then text else old(songInput)
    {
      if !isLoading {
        songInput := text;
      }
    }

    /**
     * The synchronous part of `handleSongConfirm`, up to the `await`: blank
     * text returns at once, without entering the loading state; otherwise the
     * bar enters it, and accepts neither another confirm nor typing.
     */
    method BeginConfirm() returns (started: bool)
      modifies this`isLoading
      ensures started <==> !Blank(songInput)
      ensures isLoading == (started || old(isLoading))
      ensures started ==> !ConfirmEnabled() && isLoading
    {
      if Trim(songInput) == [] {
        return false;
      }
      isLoading := true;
      started := true;
    }

    /**
     * The part of `handleSongConfirm` after the `await`: an accepted name is
     * passed to `onSongSelected` (`selected`) and then the text is cleared; a
     * failed result or a thrown error calls nothing and keeps the text; loading
     * ends on every path. `callbackThrows` says whether `onSongSelected` throws:
     * the `catch` then skips the clearing, though the callback was called.
     */
    method FinishConfirm(awaited: Awaited, callbackThrows: bool) returns (selected: Option<string>)
      modifies this`songInput, this`isLoading
      ensures selected == AcceptedName(awaited)
      ensures songInput == if selected.Some? && !callbackThrows then "" else old(songInput)
      ensures !isLoading
    {
      selected := AcceptedName(awaited);
      if selected.Some? && !callbackThrows {
        songInput := "";
      }
      isLoading := false;
    }

    /**
     * `handleSongConfirm`, with the awaited call as one atomic step given by
     * `service`. `request` is the text the service was called with, if it was
     * called; `selected` is what `onSongSelected` was called with, if it was;
     * `callbackThrows` says whether that call throws.
     */
    method HandleSongConfirm(service: string -> Awaited, callbackThrows: bool)
      returns (request: Option<string>, selected: Option<string>)
      modifies this`songInput, this`isLoading
      ensures request == if Blank(old(songInput)) then None else Some(old(songInput))
      ensures request.None? ==>
        selected == None && songInput == old(songInput) && isLoading == old(isLoading)
      ensures request.Some? ==>
        && selected == AcceptedName(service(request.value))
        && songInput == (if selected.Some? && !callbackThrows then "" else old(songInput))
        && !isLoading
    {
      var started := BeginConfirm();
      if !started {
        return None, None;
      }
      request := Some(songInput);
      selected := FinishConfirm(service(songInput), callbackThrows);
    }
  }
}
