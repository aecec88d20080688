/**
 * The category filter: the select shows `all` and then every category the
 * events use, each once, in the order events first use them.
 */
module CategoryFilter {
  import opened Seqs
  import opened Events

  /** The value of the first option, which shows every event. */
  const AllOption := "all"

  /** `allEvents.map(event => event.category || "その他")` */
  function CategoryList(events: seq<CalendarEvent>): (r: seq<string>)
    ensures |r| == |events|
  {
    seq(|events|, k requires 0 <= k < |events| => CategoryOf(events[k]))
  }

  /** `[...new Set(...)]`: a `Set` keeps first-insertion order and drops repeats. */
  function Categories(events: seq<CalendarEvent>): seq<string>
  {
    Distinct(CategoryList(events))
  }

  /**
   * Every event's category is listed, nothing else is, each at most once,
   * in the order the events first use them; there are at most as many
   * categories as events, and none is empty.
   */
  lemma {:induction false} CategoriesSpec(events: seq<CalendarEvent>)
    ensures forall e :: e in events ==> CategoryOf(e) in Categories(events)
    ensures forall c :: c in Categories(events) ==> exists e :: e in events && CategoryOf(e) == c
    ensures NoDup(Categories(events))
    ensures |Categories(events)| <= |events|
    ensures forall i, j :: 0 <= i < j < |Categories(events)| ==>
      Categories(events)[i] in CategoryList(events) && Categories(events)[j] in CategoryList(events) &&
      FirstIndex(CategoryList(events), Categories(events)[i]) < FirstIndex(CategoryList(events), Categories(events)[j])
    ensures forall c :: c in Categories(events) ==> c != []
  {
    var list := CategoryList(events);
    DistinctMembers(list);
    DistinctNoDup(list);
    DistinctLength(list);
    DistinctFirstSeenOrder(list);
    forall e | e in events ensures CategoryOf(e) in list {
      var k :| 0 <= k < |events| && events[k] == e;
      assert list[k] == CategoryOf(e);
    }
    forall c | c in Categories(events) ensures exists e :: e in events && CategoryOf(e) == c {
      var k :| 0 <= k < |list| && list[k] == c;
      assert events[k] in events;
    }
  }

  /** The option values of the select, in order. */
  function Options(events: seq<CalendarEvent>): (r: seq<string>)
    ensures |r| == |Categories(events)| + 1 && r[0] == AllOption && r[1..] == Categories(events)
  {
    [AllOption] + Categories(events)
  }
}
