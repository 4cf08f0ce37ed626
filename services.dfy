/**
 * The song selection service (services/index.ts). It stands in for a future
 * catalogue lookup: it validates the text the user typed and echoes it back,
 * trimmed, as both the song's id and its name.
 */
module Services {
  import opened Wrappers
  import opened Strings

  /** The `SongSelectionResult` record; an absent optional field is `None`. */
  datatype SongSelectionResult = SongSelectionResult(
    success: bool,
    songId: Option<string>,
    songName: Option<string>,
    error: Option<string>)

  const EmptyInputError: string := "Song input cannot be empty"

  /**
   * `selectSong(songInput)`: empty or whitespace-only text is refused with the
   * fixed error; any other text succeeds with its trimmed form as id and name.
   */
  function SelectSong(songInput: string): (r: SongSelectionResult)
    ensures r.success <==> !Blank(songInput)
    ensures !r.success ==> r.error == Some(EmptyInputError) && r.songId == None && r.songName == None
    ensures r.success ==> r.error == None && r.songId == r.songName == Some(Trim(songInput))
  {
    if songInput == [] || |Trim(songInput)| == 0 then
      SongSelectionResult(false, None, None, Some(EmptyInputError))
    else
      SongSelectionResult(true, Some(Trim(songInput)), Some(Trim(songInput)), None)
  }

  /** Every result either succeeds or carries an error, never neither. */
  lemma SuccessOrError(songInput: string)
    ensures SelectSong(songInput).success != SelectSong(songInput).error.Some?
  {
  }

  /**
   * A successful result names a non-empty song with no whitespace at either end,
   * and that name is the input with only its surrounding whitespace removed.
   */
  lemma SuccessNamesTrimmedInput(a: string, name: string, b: string)
    requires Blank(a) && Blank(b) && IsTrimmed(name) && name != []
    ensures SelectSong(a + name + b) == SongSelectionResult(true, Some(name), Some(name), None)
  {
    TrimSurrounded(a, name, b);
  }

  /** The name a successful selection returns is never empty and is already trimmed. */
  lemma SuccessfulNameIsTrimmed(songInput: string)
    requires !Blank(songInput)
    ensures var name := SelectSong(songInput).songName;
      name.Some? && name.value != [] && IsTrimmed(name.value) && Trim(name.value) == name.value
  {
    TrimIdempotent(songInput);
  }

  /** Trimming the input first changes nothing: the service trims it itself. */
  lemma SelectSongOfTrimmed(songInput: string)
    ensures SelectSong(Trim(songInput)) == SelectSong(songInput)
  {
    TrimIdempotent(songInput);
  }
}
