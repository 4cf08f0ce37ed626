/**
 * The time display of the clock picker molecule
 * (components/clock-picker/molecules/time-display-picker.tsx). Its formatter
 * returns either a plain `HH:MM` string or two text pieces, `HH:MM` and a
 * separately styled AM/PM mark; the model returns those pieces as a record.
 */
module TimeDisplayPickerComponent {
  import opened Wrappers
  import opened Strings
  import opened Time
  import ClockPickerComponent

  /** What the display shows: the hour digits, the minute digits and, in the 12-hour form, the AM/PM mark. */
  datatype TimeDisplay = TimeDisplay(hourText: string, minuteText: string, suffix: Option<string>)

  /** The display laid out as clock-picker.tsx lays it out: `HH:MM`, then a space and the mark if there is one. */
  function Joined(d: TimeDisplay): string {
    d.hourText + ":" + d.minuteText + (if d.suffix.Some? then " " + d.suffix.value else "")
  }

  /**
   * `formatTime(date, use24Hour)` as written: the 24-hour form is taken whenever
   * `use24Hour` is set or the hour is at most 12, whatever the mode; only the
   * hours 13 to 23 in 12-hour mode get the clock-face hour (1 to 11) and a mark,
   * and that mark is always PM.
   */
  function FormatTime(t: TimeOfDay, use24Hour: bool): (d: TimeDisplay)
    ensures d.minuteText == Pad2(t.minutes)
    ensures d.suffix.Some? <==> !use24Hour && t.hours > 12
    ensures d.suffix.None? ==> d.hourText == Pad2(t.hours)
    ensures d.suffix.Some? ==>
      && d.suffix == Some("PM")
      && 1 <= t.hours - 12 <= 11
      && d.hourText == Pad2(t.hours - 12)
    ensures d.suffix != Some("AM")
  {
    var isEarly := t.hours <= 12;
    assert !isEarly ==> Hour12(t.hours) == t.hours - 12 && Meridiem(t.hours) == "PM";
    if use24Hour || isEarly then
      TimeDisplay(Pad2(t.hours), Pad2(t.minutes), None)
    else
      TimeDisplay(Pad2(Hour12(t.hours)), Pad2(t.minutes), Some(Meridiem(t.hours)))
  }

  /**
   * The formatter as the mode switch means it: the 12-hour form for every hour
   * when `use24Hour` is off. Laid out, it is exactly clock-picker.tsx's text.
   */
  function FormatTimeCorrected(t: TimeOfDay, use24Hour: bool): (d: TimeDisplay)
    ensures d.suffix.Some? <==> !use24Hour
    ensures Joined(d) == ClockPickerComponent.FormatTime(t, use24Hour)
  {
    if use24Hour then
      TimeDisplay(Pad2(t.hours), Pad2(t.minutes), None)
    else
      TimeDisplay(Pad2(Hour12(t.hours)), Pad2(t.minutes), Some(Meridiem(t.hours)))
  }

  /**
   * Where the written formatter goes wrong: it agrees with the corrected one
   * exactly in 24-hour mode and for the afternoon and evening hours 13 to 23.
   */
  lemma FormatTimeAgreesExactlyWhen(t: TimeOfDay, use24Hour: bool)
    ensures FormatTime(t, use24Hour) == FormatTimeCorrected(t, use24Hour) <==> use24Hour || t.hours > 12
  {
  }

  /** In 12-hour mode, midnight shows "00:MM" and noon "12:MM", both with no mark. */
  lemma MidnightShowsZeroHour(m: Minute)
    ensures FormatTime(TimeOfDay(0, m), false) == TimeDisplay("00", Pad2(m), None)
    ensures FormatTime(TimeOfDay(12, m), false) == TimeDisplay("12", Pad2(m), None)
    ensures FormatTimeCorrected(TimeOfDay(0, m), false) == TimeDisplay("12", Pad2(m), Some("AM"))
  {
    assert Pad2(0) == "00" && Pad2(12) == "12";
  }

  /** The state of one time display picker. */
  class TimeDisplayPicker {
    var selectedTime: TimeOfDay
    var showPicker: bool
    var is24Hour: bool

    /** `initialTime || new Date()`: the given time if there is one, otherwise `now`. */
    constructor (initialTime: Option<TimeOfDay>, now: TimeOfDay)
      ensures selectedTime == (if initialTime.Some? then initialTime.value else now)
      ensures !showPicker && !is24Hour
    {
      selectedTime := if initialTime.Some? then initialTime.value else now;
      showPicker := false;
      is24Hour := false;
    }

    /**
     * `handleTimeChange(event, date)`: on Android the picker closes; a change
     * that carries a time replaces the selected time and is passed on to
     * `onTimeChange` (`notified`), one without a time leaves it alone.
     */
    method HandleTimeChange(isAndroid: bool, date: Option<TimeOfDay>) returns (notified: Option<TimeOfDay>)
      modifies this`showPicker, this`selectedTime
      ensures showPicker == (if isAndroid then false else old(showPicker))
      ensures selectedTime == (if date.Some? then date.value else old(selectedTime))
      ensures notified == date
    {
      if isAndroid {
        showPicker := false;
      }
      notified := None;
      if date.Some? {
        selectedTime := date.value;
        notified := date;
      }
    }

    /** `openPicker`: shows the native picker. */
    method OpenPicker()
      modifies this`showPicker
      ensures showPicker
    {
      showPicker := true;
    }

    /** The 12/24-hour switch. */
    method SetIs24Hour(value: bool)
      modifies this`is24Hour
      ensures is24Hour == value
    {
      is24Hour := value;
    }
  }
}
