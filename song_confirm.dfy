/**
 * What the song-confirmation handlers of the two components share: the single
 * `await selectSong(songInput)` step, and the test `result.success && result.songName`
 * that decides whether the selection is applied.
 */
module SongConfirm {
  import opened Wrappers
  import opened Strings
  import opened Services

  /** How the awaited service call ended: it returned a result, or it threw. */
  datatype Awaited = Resolved(result: SongSelectionResult) | Rejected

  /**
   * The service as the components call it: it always returns a result (it
   * never throws), and that result succeeds exactly for text that is not blank.
   */
  function SelectSongService(songInput: string): (awaited: Awaited)
    ensures awaited.Resolved?
    ensures awaited.result.success <==> !Blank(songInput)
  {
    Resolved(SelectSong(songInput))
  }

  /**
   * The song name a handler applies, if any: only a returned result with
   * `success` set and a non-empty (truthy) `songName` is applied.
   */
  function AcceptedName(awaited: Awaited): (name: Option<string>)
    ensures name.Some? <==>
      awaited.Resolved? && awaited.result.success
      && awaited.result.songName.Some? && awaited.result.songName.value != ""
    ensures name.Some? ==> name == awaited.result.songName
  {
    match awaited
    case Rejected => None
    case Resolved(result) =>
      if result.success && result.songName.Some? && result.songName.value != "" then result.songName else None
  }

  /**
   * With the real service, text that is not blank is always accepted, as its
   * trimmed form; blank text is never accepted.
   */
  lemma ServiceAcceptsTrimmedInput(songInput: string)
    ensures AcceptedName(SelectSongService(songInput))
      == if Blank(songInput) then None else Some(Trim(songInput))
  {
  }
}
