# songclock alarm screen — Dafny model

A model of the logic of songclock, a React Native prototype of an alarm
screen. The screen has a time display with a 12/24-hour switch, a handler for
the native time picker, and a song box. Whatever the user types into the song
box goes to a stub song service, which echoes it back as the chosen song.

The model covers the following:

- **Time formatting.** `ClockPickerComponent.FormatTime` models `formatTime` of
  `components/clock-picker.tsx`. `TimeDisplayPickerComponent.FormatTime` models
  the second formatter, in the time display molecule. That formatter has an
  `isEarly` shortcut, and its result is returned as pieces (hour text, minute
  text, optional AM/PM mark) instead of JSX. `Strings.Pad2` stands for
  `n.toString().padStart(2, '0')`, and is proved equal to `PadStart(ToDecimal(n), 2, '0')`.
- **The song service.** `Services.SelectSong` models `selectSong`, and the
  `SongSelectionResult` record is a datatype whose optional fields are `Option`s.
  `Strings.Trim` strips a fixed whitespace set from both ends.
- **The components' state.** Each component is a class whose fields are its
  `useState` variables:
  - `ClockPicker`
  - `TimeDisplayPicker`
  - `SongSearchBar`
  - `SelectSong`

  Callbacks passed in as props (`onTimeChange`, `onSongSelected`,
  `onSongsChange`) become out-parameters. Each says whether the callback was
  called and with what. `handleSongConfirm` is split at its single `await`:
  - `Begin…Confirm`: the blank pre-check and the loading state;
  - `Finish…Confirm`: apply or ignore the result, then the `finally`.

  `HandleSongConfirm` composes the two. The awaited call is one atomic step:
  a `service` parameter returns `Resolved(result)` or `Rejected` (a thrown
  error), so every branch of the handler can be reached. Methods such as
  `ConfirmWithSelectSong` and `ConfirmInSearchBar` then plug in the real
  service, `SongConfirm.SelectSongService`.

Inputs the model cannot see become parameters:
- the current time (`now`);
- the platform (`isAndroid`);
- the picker's change event (`date`);
- the service outcome.

Hours and minutes are the bounded naturals `Time.Hour` (below 24) and
`Time.Minute` (below 60), in place of `Date.getHours()` and `getMinutes()`.

In two places the model follows the code where a reader might expect otherwise:
- In `components/clock-picker.tsx` a confirmed song replaces the single
  `selectedSong`. It is not appended to a list. Only `components/select-song/index.tsx`
  keeps the append-only list.
- The time display molecule does not always respect the 12-hour mode (see
  "## Findings").

## Model

| member | source | states |
|---|---|---|
| `Strings.TrimStart` | services/index.ts:20 | the result is a suffix of the input; everything dropped is whitespace; the result is empty or starts with a non-whitespace character |
| `Strings.TrimEnd` | services/index.ts:20 | the result is a prefix of the input; everything dropped is whitespace; the result is empty or ends with a non-whitespace character |
| `Strings.Trim` | services/index.ts:20 | `trim()` leaves no whitespace at either end, and gives the empty string exactly when the input is whitespace only |
| `Strings.TrimSurrounded` | services/index.ts:33-34 | trimming any trimmed text wrapped in whitespace on both sides gives back exactly that text |
| `Strings.TrimIdempotent` | services/index.ts:20-34 | trimming twice is the same as trimming once |
| `Strings.ToDecimal` | components/clock-picker.tsx:41 | `toString()` of a natural gives decimal digits, with no leading zero, that read back as the number; it is one digit exactly below ten |
| `Strings.PadStart` | components/clock-picker.tsx:41 | `padStart(width, fill)` keeps the text as the suffix, fills only on the left, and has length max(width, length) |
| `Strings.Pad2` | components/clock-picker.tsx:41 | for n < 100 the result is two digits that read back as n, with a leading '0' exactly when n < 10 |
| `Strings.Pad2IsPaddedDecimal` | components/clock-picker.tsx:41 | Pad2(n) equals `padStart(toString(n), 2, '0')` |
| `Strings.Pad2Injective` | components/clock-picker.tsx:41 | two different numbers below 100 never pad to the same text |
| `Time.Hour12` | components/clock-picker.tsx:43 | `hours % 12 \|\| 12` lies in 1..12 and is congruent to the hour modulo 12 |
| `Time.Meridiem` | components/clock-picker.tsx:44 | the mark is "AM" or "PM", and it is "PM" exactly from hour 12 on (the same expression is at components/clock-picker/molecules/time-display-picker.tsx:34) |
| `Time.Hour12RoundTrip` | components/clock-picker.tsx:43-44 | the clock-face hour together with AM/PM determines the 24-hour hour |
| `ClockPickerComponent.FormatTime` | components/clock-picker.tsx:36-47 | 24-hour text is 5 characters `HH:MM`; 12-hour text is 8 characters `HH:MM AM/PM`; ':' at index 2; the digit fields read back as the hour (the clock-face hour in 12-hour mode) and the minute; the mark is "PM" iff hour >= 12 |
| `ClockPickerComponent.FormatTimeInjective` | components/clock-picker.tsx:36-47 | in either mode, two different times never format to the same text |
| `ClockPickerComponent.MidnightReadsTwelveAM` | components/clock-picker.tsx:43-45 | hour 0 in 12-hour mode shows "12:MM AM", so 0:00 shows "12:00 AM" |
| `ClockPickerComponent.NoonReadsTwelvePM` | components/clock-picker.tsx:43-45 | hour 12 in 12-hour mode shows "12:MM PM", so 12:00 shows "12:00 PM" |
| `ClockPickerComponent.LastMinuteOfDay` | components/clock-picker.tsx:40-45 | 23:59 shows "11:59 PM" in 12-hour mode and "23:59" in 24-hour mode |
| `ClockPickerComponent.ClockPicker.constructor` | components/clock-picker.tsx:14-19 | the initial state: the current time, picker hidden, 12-hour mode, empty text, no song, not loading |
| `ClockPickerComponent.ClockPicker.HandleTimeChange` | components/clock-picker.tsx:26-34 | on Android the picker closes; an event with a date replaces `selectedTime` and is passed to `onTimeChange`; an event without one leaves `selectedTime` alone and calls nothing |
| `ClockPickerComponent.ClockPicker.OpenPicker` | components/clock-picker.tsx:49-51 | the picker is shown |
| `ClockPickerComponent.ClockPicker.SetIs24Hour` | components/clock-picker.tsx:111-113 | the switch sets the display mode |
| `ClockPickerComponent.ClockPicker.ConfirmEnabled` | components/clock-picker.tsx:157 | the confirm button is enabled exactly when not loading and the text is not whitespace only |
| `ClockPickerComponent.ClockPicker.ChangeText` | components/clock-picker.tsx:149-152 | typing replaces the text, except while loading, when the field is not editable |
| `ClockPickerComponent.ClockPicker.BeginSongConfirm` | components/clock-picker.tsx:53-58 | blank text returns without touching `isLoading`; other text enters loading, where confirm is disabled and `ChangeText` ignores typing (components/clock-picker.tsx:152 and 157) |
| `ClockPickerComponent.ClockPicker.FinishSongConfirm` | components/clock-picker.tsx:59-72 | an accepted name becomes `selectedSong` and the text is cleared; a failure or thrown error leaves both alone; loading is off on every path |
| `ClockPickerComponent.ClockPicker.HandleSongConfirm` | components/clock-picker.tsx:53-73 | blank text is a no-op and the service is not called; otherwise the service is called with the text, and the state afterwards is exactly what FinishSongConfirm states |
| `ClockPickerComponent.ClockPicker.ConfirmWithSelectSong` | components/clock-picker.tsx:60-63 | with the real service, text that is not blank becomes `selectedSong` trimmed and the box is cleared; blank text changes nothing |
| `TimeDisplayPickerComponent.FormatTime` | components/clock-picker/molecules/time-display-picker.tsx:25-37 | when `use24Hour` is set or hour <= 12, the display is `pad2(h)`, `pad2(m)` with no mark; the mark appears iff 12-hour mode and hour in 13..23, where the hour shown is h - 12, in 1..11; the mark is always "PM", never "AM" |
| `TimeDisplayPickerComponent.FormatTimeCorrected` | components/clock-picker/molecules/time-display-picker.tsx:25-37 | the formatter with the `isEarly` shortcut removed: it has a mark iff 12-hour mode, and laid out it is exactly clock-picker.tsx's text |
| `TimeDisplayPickerComponent.FormatTimeAgreesExactlyWhen` | components/clock-picker/molecules/time-display-picker.tsx:28-31 | the written formatter equals the corrected one iff `use24Hour` is set or hour > 12 |
| `TimeDisplayPickerComponent.MidnightShowsZeroHour` | components/clock-picker/molecules/time-display-picker.tsx:28-31 | in 12-hour mode hour 0 shows "00:MM" and hour 12 shows "12:MM", both with no mark, where the corrected formatter shows "12:MM AM" |
| `TimeDisplayPickerComponent.TimeDisplayPicker.constructor` | components/clock-picker/molecules/time-display-picker.tsx:11-13 | the initial time is `initialTime` if given, otherwise the current time; picker hidden; 12-hour mode |
| `TimeDisplayPickerComponent.TimeDisplayPicker.HandleTimeChange` | components/clock-picker/molecules/time-display-picker.tsx:15-23 | on Android the picker closes; a date replaces `selectedTime` and is passed to `onTimeChange`; no date leaves it unchanged |
| `TimeDisplayPickerComponent.TimeDisplayPicker.OpenPicker` | components/clock-picker/molecules/time-display-picker.tsx:39-41 | the picker is shown |
| `TimeDisplayPickerComponent.TimeDisplayPicker.SetIs24Hour` | components/clock-picker/molecules/time-display-picker.tsx:67-69 | the switch sets the display mode |
| `Services.SelectSong` | services/index.ts:17-35 | success iff the input is not whitespace only; on failure the error is "Song input cannot be empty" and there is no id or name; on success there is no error and id == name == the trimmed input |
| `Services.SuccessOrError` | services/index.ts:20-35 | every result has `success` set or an error, never both and never neither |
| `Services.SuccessNamesTrimmedInput` | services/index.ts:31-35 | any non-empty trimmed name, surrounded by any whitespace, is selected with that exact name as id and name |
| `Services.SuccessfulNameIsTrimmed` | services/index.ts:20-34 | a successful name is non-empty and has no whitespace at either end |
| `Services.SelectSongOfTrimmed` | services/index.ts:20-34 | `selectSong(trim(s))` gives the same result as `selectSong(s)` |
| `SongConfirm.SelectSongService` | components/clock-picker.tsx:60 | the awaited `selectSong(songInput)` always returns a result and never throws, and the result succeeds exactly for text that is not whitespace only (the same call is at components/select-song/molecules/song-search-bar.tsx:20) |
| `SongConfirm.AcceptedName` | components/select-song/molecules/song-search-bar.tsx:20-21 | a name is applied iff the awaited call returned a result with `success` set and a non-empty `songName`, and the name applied is that `songName` |
| `SongConfirm.ServiceAcceptsTrimmedInput` | components/select-song/molecules/song-search-bar.tsx:20-22 | with the real service, blank text is never accepted and other text is accepted as its trimmed form |
| `SongSearchBarComponent.SongSearchBar.constructor` | components/select-song/molecules/song-search-bar.tsx:10-11 | the bar starts with empty text and not loading |
| `SongSearchBarComponent.SongSearchBar.ConfirmEnabled` | components/select-song/molecules/song-search-bar.tsx:50 | the confirm button is enabled exactly when not loading and the text is not whitespace only |
| `SongSearchBarComponent.SongSearchBar.ChangeText` | components/select-song/molecules/song-search-bar.tsx:42-45 | typing replaces the text, except while loading, when the box is not editable |
| `SongSearchBarComponent.SongSearchBar.BeginConfirm` | components/select-song/molecules/song-search-bar.tsx:13-18 | blank text returns without setting loading; other text sets loading, where confirm is disabled and `ChangeText` ignores typing (lines 45, 50) |
| `SongSearchBarComponent.SongSearchBar.FinishConfirm` | components/select-song/molecules/song-search-bar.tsx:19-32 | an accepted name is passed once to `onSongSelected` and then the text is cleared, unless that callback throws, when the `catch` keeps the text; on failure or a thrown error nothing is called and the text is kept; loading is off on every path |
| `SongSearchBarComponent.SongSearchBar.HandleSongConfirm` | components/select-song/molecules/song-search-bar.tsx:13-33 | blank text: the service and `onSongSelected` are not called and the state is unchanged; otherwise the service is called with the text and the outcome is exactly what FinishConfirm states |
| `SelectSongComponent.SelectSong.constructor` | components/select-song/index.tsx:11 | the list starts empty |
| `SelectSongComponent.SelectSong.HandleSongSelected` | components/select-song/index.tsx:13-17 | the list becomes `old + [songName]`: one entry longer, earlier entries unchanged; `onSongsChange` gets exactly the stored list |
| `SelectSongComponent.SelectSong.ConfirmInSearchBar` | components/select-song/index.tsx:26 | a confirm in the screen's search bar with the real service adds exactly one entry, the trimmed text, and clears the bar unless `onSongsChange` throws, when the bar keeps its text (components/select-song/molecules/song-search-bar.tsx:22-23, 28); blank text changes nothing |
| `SelectSongComponent.SelectSong.SelectTwice` | components/select-song/index.tsx:14 | picking the same name twice appends two equal entries; duplicates are kept |

## Left out

- Rendering, styling, theming and colours: `StyleSheet.create`, the JSX layout
  and the theme hooks are presentation only. The button and field states that
  rendering depends on are kept: `ConfirmEnabled` for the button, and
  `isLoading` as the text field's `editable` guard in `ChangeText`.
- The native `DateTimePicker` is treated as opaque. It appears only through the
  change events it delivers.
- The iOS "Done" button that hides the picker is left out: it is platform
  presentation.
- `Platform.OS` is the `isAndroid` parameter of `HandleTimeChange`.
- `Date`, time zones and local-time extraction: a time is its hour and minute,
  as bounded naturals.
- `console.log` and `console.error` are logging only and are not modelled.
- The asynchronous machinery: the one `await` in each confirm handler is a
  single atomic step. The model does not capture interleavings with other
  events while the call is in flight. The UI guards against those by disabling
  the button and the field (`BeginConfirm` sets `isLoading`, which turns both off).
- `Strings.IsWhitespace`: a fixed set of ten space and line-terminator
  characters, not ECMAScript's full WhiteSpace/LineTerminator table.
- The `catch` branch of `selectSong` (services/index.ts:36-40) is not modelled:
  nothing in its `try` block can throw. In the confirm handlers' `catch`
  branches, two throws are modelled: a rejected `await` (`Rejected`), and, in
  the search bar, an `onSongSelected` callback that throws (`callbackThrows`,
  `onSongsChangeThrows`), which skips `setSongInput('')`.
- `onTimeChange` is assumed to return normally. A throw from it would
  happen after the state update and would only propagate to the caller.
- `selectSong`'s `!songInput` test for `null` or `undefined` is not modelled:
  the parameter is typed `string`, so only the empty string reaches it, and the
  trim test covers that.
- The `onTimeChange` callback's effect in app/index.tsx (logging) and the
  wrapper components (components/clock-picker/index.tsx, app/modal.tsx,
  components/select-song/molecules/song-list.tsx) are left out: they only
  render or log.

## Findings

| source | as written | input that shows it | evidently intended | confidence | as-written member | corrected member |
|---|---|---|---|---|---|---|
| components/clock-picker/molecules/time-display-picker.tsx:28-30 | `isEarly = hours <= 12` sends every hour up to 12 to the 24-hour form, even in 12-hour mode | hour 0, minute 0, 12-hour mode: shows "00:00" with no AM/PM mark | "12:00 AM", as the same formatter in components/clock-picker.tsx:43-45 shows it | medium, not executed | `TimeDisplayPickerComponent.MidnightShowsZeroHour` | `TimeDisplayPickerComponent.FormatTimeCorrected` |
