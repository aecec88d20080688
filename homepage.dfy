/**
 * The home page: the selected day and category, and the list of events
 * shown for them. The list keeps the events whose range contains the
 * selected day and then, unless the category is `all`, the events of the
 * selected category.
 */
module Homepage {
  import opened Wrappers
  import opened Seqs
  import opened Events
  import opened CategoryFilter

  /** `selectedDay >= eventStartDay && selectedDay <= eventEndDay`; an invalid date compares false. */
  predicate OnDate(e: CalendarEvent, selected: Day)
  {
    e.start.Some? && e.end.Some? && e.start.value <= selected <= e.end.value
  }

  function EventsOnDate(events: seq<CalendarEvent>, selected: Day): seq<CalendarEvent>
  {
    Filter((e: CalendarEvent) => OnDate(e, selected), events)
  }

  // ------------------------------------------------------------ as written

  /** `event.category === selectedCategory` */
  predicate MatchesAsWritten(e: CalendarEvent, category: string)
  {
    e.category == Some(category)
  }

  /** `filteredEvents` as the page computes it. */
  function FilteredEventsAsWritten(events: seq<CalendarEvent>, selected: Day, category: string): seq<CalendarEvent>
  {
    var onDate := EventsOnDate(events, selected);
    if category == AllOption then onDate
    else Filter((e: CalendarEvent) => MatchesAsWritten(e, category), onDate)
  }

  /**
   * An event without a category is offered under `その他` by the filter,
   * yet choosing `その他` never lists it, even on its own day.
   */
  lemma {:induction false} UncategorisedHidden()
    ensures var e := CalendarEvent(None, Some(0), Some(0));
      OnDate(e, 0) && Other in Options([e]) && FilteredEventsAsWritten([e], 0, Other) == []
  {
    var e := CalendarEvent(None, Some(0), Some(0));
    OptionsOfOne(e);
    OnlyEventOfItsDay(e, 0);
    assert !MatchesAsWritten(e, Other);
    NoMatchAsWritten(e, Other);
  }

  /** The filter's options for a single event are `all` and that event's category. */
  lemma OptionsOfOne(e: CalendarEvent)
    ensures Options([e]) == [AllOption, CategoryOf(e)]
  {
    var list := CategoryList([e]);
    assert list == [CategoryOf(e)];
    assert list[..|list| - 1] == [];
    assert Distinct(list) == AppendNew(Distinct([]), CategoryOf(e));
  }

  /** A single event on its day is the whole list of that day. */
  lemma OnlyEventOfItsDay(e: CalendarEvent, d: Day)
    requires OnDate(e, d)
    ensures EventsOnDate([e], d) == [e]
  {
    assert [e][1..] == [];
    assert Filter((x: CalendarEvent) => OnDate(x, d), [e]) == [e] + Filter((x: CalendarEvent) => OnDate(x, d), []);
  }

  /** A single event of the day that does not match the chosen category leaves the page's list empty. */
  lemma NoMatchAsWritten(e: CalendarEvent, category: string)
    requires category != AllOption && EventsOnDate([e], 0) == [e] && !MatchesAsWritten(e, category)
    ensures FilteredEventsAsWritten([e], 0, category) == []
  {
    assert [e][1..] == [];
    assert Filter((x: CalendarEvent) => MatchesAsWritten(x, category), [e]) == Filter((x: CalendarEvent) => MatchesAsWritten(x, category), []);
  }

  /** The page's comparison agrees with the corrected one whenever every event has a non-empty category. */
  lemma {:induction false} AsWrittenAgreesWhenCategorised(events: seq<CalendarEvent>, selected: Day, category: string)
    requires forall i :: 0 <= i < |events| ==> events[i].category.Some? && events[i].category.value != []
    ensures FilteredEventsAsWritten(events, selected, category) == FilteredEvents(events, selected, category)
  {
    var onDate := EventsOnDate(events, selected);
    FilterMembers((e: CalendarEvent) => OnDate(e, selected), events);
    forall i | 0 <= i < |onDate|
      ensures MatchesAsWritten(onDate[i], category) == Matches(onDate[i], category)
    {
      assert onDate[i] in onDate;
      var k :| 0 <= k < |events| && events[k] == onDate[i];
    }
    FilterExt((e: CalendarEvent) => MatchesAsWritten(e, category), (e: CalendarEvent) => Matches(e, category), onDate);
  }

  /** The page lists an event exactly when it is on the selected day and the category is `all` or equal to the event's own field. */
  lemma {:induction false} FilteredMembersAsWritten(events: seq<CalendarEvent>, selected: Day, category: string)
    ensures forall e :: e in FilteredEventsAsWritten(events, selected, category) ==>
      e in events && OnDate(e, selected) && (category == AllOption || e.category == Some(category))
    ensures forall e :: e in events && OnDate(e, selected) && (category == AllOption || e.category == Some(category)) ==>
      e in FilteredEventsAsWritten(events, selected, category)
  {
    FilterMembers((e: CalendarEvent) => OnDate(e, selected), events);
    FilterMembers((e: CalendarEvent) => MatchesAsWritten(e, category), EventsOnDate(events, selected));
  }

  /** The page's list keeps the events' order; with `all` it is exactly the events of the day. */
  lemma {:induction false} FilteredOrderAsWritten(events: seq<CalendarEvent>, selected: Day, category: string)
    ensures IsSubsequence(FilteredEventsAsWritten(events, selected, category), events)
    ensures category == AllOption ==> FilteredEventsAsWritten(events, selected, category) == EventsOnDate(events, selected)
    ensures |FilteredEventsAsWritten(events, selected, category)| <= |events|
  {
    var onDate := EventsOnDate(events, selected);
    FilterIsSubsequence((e: CalendarEvent) => OnDate(e, selected), events);
    FilterLength((e: CalendarEvent) => OnDate(e, selected), events);
    if category != AllOption {
      var byCategory := Filter((e: CalendarEvent) => MatchesAsWritten(e, category), onDate);
      FilterIsSubsequence((e: CalendarEvent) => MatchesAsWritten(e, category), onDate);
      FilterLength((e: CalendarEvent) => MatchesAsWritten(e, category), onDate);
      SubsequenceTrans(byCategory, onDate, events);
    }
  }

  /** On the page, filtering by category first and by day second gives the same list. */
  lemma {:induction false} FiltersCommuteAsWritten(events: seq<CalendarEvent>, selected: Day, category: string)
    requires category != AllOption
    ensures FilteredEventsAsWritten(events, selected, category) ==
      EventsOnDate(Filter((e: CalendarEvent) => MatchesAsWritten(e, category), events), selected)
  {
    FilterCommute((e: CalendarEvent) => OnDate(e, selected), (e: CalendarEvent) => MatchesAsWritten(e, category), events);
  }

  // ------------------------------------------------------------ corrected

  /** The category an event is offered under in the filter is the one it matches. */
  predicate Matches(e: CalendarEvent, category: string)
  {
    CategoryOf(e) == category
  }

  function FilteredEvents(events: seq<CalendarEvent>, selected: Day, category: string): seq<CalendarEvent>
  {
    var onDate := EventsOnDate(events, selected);
    if category == AllOption then onDate
    else Filter((e: CalendarEvent) => Matches(e, category), onDate)
  }

  /** An event is listed exactly when it is on the selected day and the category is `all` or its own. */
  lemma {:induction false} FilteredMembers(events: seq<CalendarEvent>, selected: Day, category: string)
    ensures forall e :: e in FilteredEvents(events, selected, category) ==>
      e in events && OnDate(e, selected) && (category == AllOption || CategoryOf(e) == category)
    ensures forall e :: e in events && OnDate(e, selected) && (category == AllOption || CategoryOf(e) == category) ==>
      e in FilteredEvents(events, selected, category)
  {
    FilterMembers((e: CalendarEvent) => OnDate(e, selected), events);
    FilterMembers((e: CalendarEvent) => Matches(e, category), EventsOnDate(events, selected));
  }

  /** The list keeps the events' order: it is a subsequence of them; with `all` it is exactly the events of the day. */
  lemma {:induction false} FilteredOrder(events: seq<CalendarEvent>, selected: Day, category: string)
    ensures IsSubsequence(FilteredEvents(events, selected, category), events)
    ensures category == AllOption ==> FilteredEvents(events, selected, category) == EventsOnDate(events, selected)
    ensures |FilteredEvents(events, selected, category)| <= |events|
  {
    var onDate := EventsOnDate(events, selected);
    FilterIsSubsequence((e: CalendarEvent) => OnDate(e, selected), events);
    FilterLength((e: CalendarEvent) => OnDate(e, selected), events);
    if category != AllOption {
      var byCategory := Filter((e: CalendarEvent) => Matches(e, category), onDate);
      FilterIsSubsequence((e: CalendarEvent) => Matches(e, category), onDate);
      FilterLength((e: CalendarEvent) => Matches(e, category), onDate);
      SubsequenceTrans(byCategory, onDate, events);
    }
  }

  /** Filtering by category first and by day second gives the same list. */
  lemma {:induction false} FiltersCommute(events: seq<CalendarEvent>, selected: Day, category: string)
    requires category != AllOption
    ensures FilteredEvents(events, selected, category) ==
      EventsOnDate(Filter((e: CalendarEvent) => Matches(e, category), events), selected)
  {
    FilterCommute((e: CalendarEvent) => OnDate(e, selected), (e: CalendarEvent) => Matches(e, category), events);
  }

  /** Every option the filter offers lists, on any day, every event of that day shown under it. */
  lemma {:induction false} EveryOptionListsItsEvents(events: seq<CalendarEvent>, selected: Day, e: CalendarEvent)
    requires e in events && OnDate(e, selected)
    ensures CategoryOf(e) in Options(events)
    ensures e in FilteredEvents(events, selected, CategoryOf(e))
    ensures e in FilteredEvents(events, selected, AllOption)
  {
    CategoriesSpec(events);
    FilteredMembers(events, selected, CategoryOf(e));
    FilteredMembers(events, selected, AllOption);
    assert CategoryOf(e) in Options(events)[1..];
  }

  // ------------------------------------------------------------ page state

  /** The page's state: the selected day and the selected category. */
  class HomepageState {
    var selectedDate: Day
    var selectedCategory: string

    /** `useState(new Date())` and `useState("all")`; the current day is a parameter. */
    constructor (today: Day)
      ensures selectedDate == today && selectedCategory == AllOption
    {
      selectedDate := today;
      selectedCategory := AllOption;
    }

    /** `handleDateChange`, called with the day a calendar cell reports. */
    method HandleDateChange(date: Day)
      modifies this
      ensures selectedDate == date && selectedCategory == old(selectedCategory)
    {
      selectedDate := date;
    }

    /** `handleFilterChange`, called with the value of the chosen option, unchanged. */
    method HandleFilterChange(category: string)
      modifies this
      ensures selectedCategory == category && selectedDate == old(selectedDate)
    {
      selectedCategory := category;
    }

    /** The events listed below the calendar, as the page computes them. */
    function Filtered(events: seq<CalendarEvent>): (r: seq<CalendarEvent>)
      reads this
      ensures forall e :: e in r <==>
        e in events && OnDate(e, selectedDate) && (selectedCategory == AllOption || e.category == Some(selectedCategory))
    {
      FilteredMembersAsWritten(events, selectedDate, selectedCategory);
      FilteredEventsAsWritten(events, selectedDate, selectedCategory)
    }
  }
}
