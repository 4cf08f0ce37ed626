/**
 * The part of a JavaScript `Date` the components read: `getHours()` and
 * `getMinutes()` in local time, and the 12-hour clock face derived from them.
 */
module Time {

  type Hour = h: nat | h < 24
  type Minute = m: nat | m < 60

  /** A time of day, as `date.getHours()` and `date.getMinutes()` report it. */
  datatype TimeOfDay = TimeOfDay(hours: Hour, minutes: Minute)

  /**
   * `hours % 12 || 12`: the hour on a 12-hour clock face, where the hour that
   * is 0 modulo 12 reads 12.
   */
  function Hour12(h: Hour): (r: nat)
    ensures 1 <= r <= 12
    ensures r % 12 == h % 12
  {
    if h % 12 == 0 then 12 else h % 12
  }

  /** `hours >= 12 ? 'PM' : 'AM'`: one of the two marks, PM from noon on. */
  function Meridiem(h: Hour): (r: string)
    ensures r == "AM" || r == "PM"
    ensures r == "PM" <==> 12 <= h
  {
    if h >= 12 then "PM" else "AM"
  }

  /** The clock face value and the meridiem together give the hour back. */
  lemma Hour12RoundTrip(h: Hour)
    ensures (if Meridiem(h) == "PM" then 12 else 0) + Hour12(h) % 12 == h
  {
  }
}
