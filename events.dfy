/**
 * The event records the calendar page works on. Dates are calendar days,
 * counted as integers from 1970-01-01 (day 0); a start or end that does not
 * parse to a valid date is `None`.
 */
module Events {
  import opened Wrappers

  /** A calendar day: the number of days since 1970-01-01, negative before it. */
  type Day = int

  datatype CalendarEvent = CalendarEvent(category: Option<string>, start: Option<Day>, end: Option<Day>)

  /** The category uncategorised events are shown under. */
  const Other := "その他"

  /** `event.category || "その他"`: a missing or empty category counts as `その他`. */
  function CategoryOf(e: CalendarEvent): (c: string)
    ensures c != []
    ensures e.category.Some? && e.category.value != [] ==> c == e.category.value
    ensures e.category.None? || e.category.value == [] ==> c == Other
  {
    if e.category.Some? && e.category.value != [] then e.category.value else Other
  }
}
