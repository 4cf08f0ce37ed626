/**
 * The clock picker screen (components/clock-picker.tsx): a large time display
 * in 12- or 24-hour form, the handler for the native time picker's change
 * events, and a song box whose confirm handler calls the song service.
 */
module ClockPickerComponent {
  import opened Wrappers
  import opened Strings
  import opened Time
  import opened SongConfirm

  /**
   * `formatTime(date, use24Hour)`. The 24-hour form is `HH:MM` (5 characters);
   * the 12-hour form is `HH:MM AM` or `HH:MM PM` (8 characters), whose hour is
   * the clock-face hour. Both fields are two digits that read back as the
   * hour and the minute.
   */
  function FormatTime(t: TimeOfDay, use24Hour: bool): (r: string)
    ensures |r| == if use24Hour then 5 else 8
    ensures IsDigit(r[0]) && IsDigit(r[1]) && r[2] == ':' && IsDigit(r[3]) && IsDigit(r[4])
    ensures DecimalValue(r[..2]) == if use24Hour then t.hours else Hour12(t.hours)
    ensures DecimalValue(r[3..5]) == t.minutes
    ensures !use24Hour ==> r[5..] == " " + Meridiem(t.hours)
  {
    var hourText := Pad2(if use24Hour then t.hours else Hour12(t.hours));
    var minuteText := Pad2(t.minutes);
    var r := hourText + ":" + minuteText + (if use24Hour then "" else " " + Meridiem(t.hours));
    assert r[..2] == hourText && r[3..5] == minuteText;
    r
  }

  /** The display tells every time of day apart, in either mode. */
  lemma FormatTimeInjective(a: TimeOfDay, b: TimeOfDay, use24Hour: bool)
    requires FormatTime(a, use24Hour) == FormatTime(b, use24Hour)
    ensures a == b
  {
    var r := FormatTime(a, use24Hour);
    assert a.minutes == DecimalValue(r[3..5]) == b.minutes;
    if !use24Hour {
      assert Hour12(a.hours) == DecimalValue(r[..2]) == Hour12(b.hours);
      assert Meridiem(a.hours) == r[6..] == Meridiem(b.hours);
      Hour12RoundTrip(a.hours);
      Hour12RoundTrip(b.hours);
    }
  }

  /** Midnight reads 12 AM on the 12-hour display: "12:00 AM" at 0:00. */
  lemma MidnightReadsTwelveAM(m: Minute)
    ensures FormatTime(TimeOfDay(0, m), false) == "12:" + Pad2(m) + " AM"
    ensures FormatTime(TimeOfDay(0, 0), false) == "12:00 AM"
  {
    assert Pad2(12) == "12" && Hour12(0) == 12;
    assert "12" + ":" == "12:" && " " + "AM" == " AM";
    assert FormatTime(TimeOfDay(0, m), false) == "12" + ":" + Pad2(m) + (" " + "AM");
    assert Pad2(0) == "00";
  }

  /** Noon reads 12 PM on the 12-hour display: "12:00 PM" at 12:00. */
  lemma NoonReadsTwelvePM(m: Minute)
    ensures FormatTime(TimeOfDay(12, m), false) == "12:" + Pad2(m) + " PM"
    ensures FormatTime(TimeOfDay(12, 0), false) == "12:00 PM"
  {
    assert Pad2(12) == "12" && Hour12(12) == 12;
    assert "12" + ":" == "12:" && " " + "PM" == " PM";
    assert FormatTime(TimeOfDay(12, m), false) == "12" + ":" + Pad2(m) + (" " + "PM");
    assert Pad2(0) == "00";
  }

  /** The last minute of the day: "11:59 PM" in 12-hour mode, "23:59" in 24-hour mode. */
  lemma LastMinuteOfDay()
    ensures FormatTime(TimeOfDay(23, 59), false) == "11:59 PM"
    ensures FormatTime(TimeOfDay(23, 59), true) == "23:59"
  {
    assert Pad2(11) == "11" && Pad2(23) == "23" && Pad2(59) == "59";
    assert Hour12(23) == 11 && Meridiem(23) == "PM";
    assert FormatTime(TimeOfDay(23, 59), false) == "11" + ":" + "59" + (" " + "PM");
    assert FormatTime(TimeOfDay(23, 59), true) == "23" + ":" + "59" + "";
  }

  /** The state of one clock picker screen. */
  class ClockPicker {
    var selectedTime: TimeOfDay
    var showPicker: bool
    var is24Hour: bool
    var songInput: string
    var selectedSong: Option<string>
    var isLoading: bool

    /** The screen as first shown; `now` is the `new Date()` it starts from. */
    constructor (now: TimeOfDay)
      ensures selectedTime == now && !showPicker && !is24Hour
      ensures songInput == "" && selectedSong == None && !isLoading
    {
      selectedTime := now;
      showPicker := false;
      is24Hour := false;
      songInput := "";
      selectedSong := None;
      isLoading := false;
    }

    /** The confirm button is disabled while loading and while the text is blank. */
    function ConfirmEnabled(): (enabled: bool)
      reads this
      ensures enabled <==> !isLoading && !Blank(songInput)
    {
      !(isLoading || Trim(songInput) == [])
    }

    /**
     * `handleTimeChange(event, date)`: on Android the picker closes; a change
     * that carries a time replaces the selected time and is passed on to
     * `onTimeChange` (`notified`), one without a time leaves it alone.
     */
    method HandleTimeChange(isAndroid: bool, date: Option<TimeOfDay>) returns (notified: Option<TimeOfDay>)
      modifies this`showPicker, this`selectedTime
      ensures showPicker == (if isAndroid then false else old(showPicker))
      ensures selectedTime == (if date.Some? then date.value else old(selectedTime))
      ensures notified == date
    {
      if isAndroid {
        showPicker := false;
      }
      notified := None;
      if date.Some? {
        selectedTime := date.value;
        notified := date;
      }
    }

    /** `openPicker`: shows the native picker. */
    method OpenPicker()
      modifies this`showPicker
      ensures showPicker
    {
      showPicker := true;
    }

    /** The 12/24-hour switch. */
    method SetIs24Hour(value: bool)
      modifies this`is24Hour
      ensures is24Hour == value
    {
      is24Hour := value;
    }

    /** Typing in the song box; the field ignores input while it is not editable. */
    method ChangeText(text: string)
      modifies this`songInput
      ensures songInput == if !old(isLoading) then text else old(songInput)
    {
      if !isLoading {
        songInput := text;
      }
    }

    /**
     * The synchronous part of `handleSongConfirm`, up to the `await`: blank
     * text returns at once; otherwise the screen enters the loading state,
     * in which it accepts neither another confirm nor typing.
     */
    method BeginSongConfirm() returns (started: bool)
      modifies this`isLoading
      ensures started <==> !Blank(songInput)
      ensures isLoading == (started || old(isLoading))
      ensures started ==> !ConfirmEnabled() && isLoading
    {
      if Trim(songInput) == [] {
        return false;
      }
      isLoading := true;
      started := true;
    }

    /**
     * The part of `handleSongConfirm` after the `await`: an accepted result
     * becomes the selected song and clears the text; a failed result or a
     * thrown error leaves both alone; loading ends on every path.
     */
    method FinishSongConfirm(awaited: Awaited)
      modifies this`songInput, this`selectedSong, this`isLoading
      ensures var name := AcceptedName(awaited);
        && selectedSong == (if name.Some? then name else old(selectedSong))
        && songInput == (if name.Some? then "" else old(songInput))
      ensures !isLoading
    {
      var name := AcceptedName(awaited);
      if name.Some? {
        selectedSong := name;
        songInput := "";
      }
      isLoading := false;
    }

    /**
     * `handleSongConfirm`, with the awaited call as one atomic step given by
     * `service`. `request` is the text the service was called with, if it was
     * called at all.
     */
    method HandleSongConfirm(service: string -> Awaited) returns (request: Option<string>)
      modifies this`songInput, this`selectedSong, this`isLoading
      ensures request == if Blank(old(songInput)) then None else Some(old(songInput))
      ensures request.None? ==>
        songInput == old(songInput) && selectedSong == old(selectedSong) && isLoading == old(isLoading)
      ensures request.Some? ==>
        var name := AcceptedName(service(request.value));
        && selectedSong == (if name.Some? then name else old(selectedSong))
        && songInput == (if name.Some? then "" else old(songInput))
        && !isLoading
    {
      var started := BeginSongConfirm();
      if !started {
        return None;
      }
      request := Some(songInput);
      FinishSongConfirm(service(songInput));
    }

    /**
     * Confirming with the real song service: text that is not blank always
     * becomes the selected song, trimmed, and the box is cleared.
     */
    method ConfirmWithSelectSong()
      modifies this`songInput, this`selectedSong, this`isLoading
      ensures Blank(old(songInput)) ==>
        songInput == old(songInput) && selectedSong == old(selectedSong) && isLoading == old(isLoading)
      ensures !Blank(old(songInput)) ==>
        selectedSong == Some(Trim(old(songInput))) && songInput == "" && !isLoading
    {
      ServiceAcceptsTrimmedInput(songInput);
      var _ := HandleSongConfirm(SelectSongService);
    }
  }
}
