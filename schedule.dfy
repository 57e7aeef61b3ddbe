/**
 * The schedule evaluator: whether a watering is due, and the "hoy"
 * (due), "proximos" (upcoming) and "todos" (all) views of the collection.
 */
module Schedule {
  import opened Wrappers
  import opened Plants

  /** `isDue(d)`: an absent date is never due; otherwise due once `now` reaches it. */
  predicate IsDue(d: Option<int>, now: int) {
    d.Some? && d.value <= now
  }

  /** Clock advancement alone can make a date due, and never makes it not due. */
  lemma DueStaysDue(d: Option<int>, now: int, later: int)
    requires now <= later
    ensures IsDue(d, now) ==> IsDue(d, later)
    ensures d.Some? ==> IsDue(d, d.value) && !IsDue(d, d.value - 1)
  {
  }

  predicate Due(p: Plant, now: int) {
    IsDue(p.nextWatering, now)
  }

  predicate Upcoming(p: Plant, now: int) {
    p.nextWatering.Some? && !IsDue(p.nextWatering, now)
  }

  /** `todayList`: the plants whose watering is due, in list order. */
  function DueList(plants: seq<Plant>, now: int): (r: seq<Plant>)
    ensures |r| <= |plants|
    ensures forall p :: p in r <==> p in plants && Due(p, now)
  {
    if plants == [] then []
    else (if Due(plants[0], now) then [plants[0]] else []) + DueList(plants[1..], now)
  }

  /** `upcomingList`: the plants with a watering date still in the future, in list order. */
  function UpcomingList(plants: seq<Plant>, now: int): (r: seq<Plant>)
    ensures |r| <= |plants|
    ensures forall p :: p in r <==> p in plants && Upcoming(p, now)
  {
    if plants == [] then []
    else (if Upcoming(plants[0], now) then [plants[0]] else []) + UpcomingList(plants[1..], now)
  }

  /** The plants that have a watering date at all. */
  function ScheduledList(plants: seq<Plant>): (r: seq<Plant>)
    ensures |r| <= |plants|
    ensures forall p :: p in r <==> p in plants && p.nextWatering.Some?
  {
    if plants == [] then []
    else (if plants[0].nextWatering.Some? then [plants[0]] else []) + ScheduledList(plants[1..])
  }

  /**
   * Due and upcoming split the scheduled plants: they never share a plant and
   * together they hold each scheduled plant exactly as often as the list does.
   */
  lemma {:induction false} PartitionScheduled(plants: seq<Plant>, now: int)
    ensures multiset(DueList(plants, now)) + multiset(UpcomingList(plants, now))
            == multiset(ScheduledList(plants))
    ensures |DueList(plants, now)| + |UpcomingList(plants, now)| == |ScheduledList(plants)|
    ensures forall p :: p in DueList(plants, now) ==> p !in UpcomingList(plants, now)
  {
    PartitionCounts(plants, now);
    var due, upcoming := DueList(plants, now), UpcomingList(plants, now);
    assert |multiset(due) + multiset(upcoming)| == |multiset(due)| + |multiset(upcoming)|;
  }

  lemma {:induction false} PartitionCounts(plants: seq<Plant>, now: int)
    ensures multiset(DueList(plants, now)) + multiset(UpcomingList(plants, now))
            == multiset(ScheduledList(plants))
  {
    if plants != [] {
      var p, rest := plants[0], plants[1..];
      PartitionCounts(rest, now);
      assert DueList(plants, now) == (if Due(p, now) then [p] else []) + DueList(rest, now);
      assert UpcomingList(plants, now) == (if Upcoming(p, now) then [p] else []) + UpcomingList(rest, now);
    }
  }

  /** The due filter keeps list order: filtering a concatenation concatenates the filtered parts. */
  lemma {:induction false} DueListAppend(a: seq<Plant>, b: seq<Plant>, now: int)
    ensures DueList(a + b, now) == DueList(a, now) + DueList(b, now)
  {
    if a != [] {
      assert (a + b)[1..] == a[1..] + b;
      DueListAppend(a[1..], b, now);
    } else {
      assert a + b == b;
    }
  }

  /** The upcoming filter keeps list order as well. */
  lemma {:induction false} UpcomingListAppend(a: seq<Plant>, b: seq<Plant>, now: int)
    ensures UpcomingList(a + b, now) == UpcomingList(a, now) + UpcomingList(b, now)
  {
    if a != [] {
      assert (a + b)[1..] == a[1..] + b;
      UpcomingListAppend(a[1..], b, now);
    } else {
      assert a + b == b;
    }
  }

  /** The filter a page starts on. */
  const InitialFilter: string := "hoy"

  /** `view`: "hoy" shows due plants, "proximos" upcoming ones, anything else every plant. */
  function View(filter: string, plants: seq<Plant>, now: int): (r: seq<Plant>)
    ensures filter == "hoy" ==> r == DueList(plants, now)
    ensures filter == "proximos" ==> r == UpcomingList(plants, now)
    ensures filter != "hoy" && filter != "proximos" ==> r == plants
  {
    if filter == "hoy" then DueList(plants, now)
    else if filter == "proximos" then UpcomingList(plants, now)
    else plants
  }

  /** Every view shows only plants of the collection, each at most as often as it occurs there. */
  lemma {:induction false} ViewWithinPlants(filter: string, plants: seq<Plant>, now: int)
    ensures multiset(View(filter, plants, now)) <= multiset(plants)
  {
    PartitionScheduled(plants, now);
    ScheduledWithin(plants);
  }

  lemma {:induction false} ScheduledWithin(plants: seq<Plant>)
    ensures multiset(ScheduledList(plants)) <= multiset(plants)
  {
    if plants != [] {
      ScheduledWithin(plants[1..]);
      assert plants == [plants[0]] + plants[1..];
    }
  }

  /** The due filter keeps every plant exactly when every plant is due. */
  lemma {:induction false} DueListFull(plants: seq<Plant>, now: int)
    ensures |DueList(plants, now)| == |plants| <==> forall i :: 0 <= i < |plants| ==> Due(plants[i], now)
  {
    if plants != [] {
      DueListFull(plants[1..], now);
      assert forall i :: 1 <= i < |plants| ==> plants[i] == plants[1..][i - 1];
    }
  }

  /** The text shown for a date (`fmtDate`, `formatDateShort`): a dash when it is absent. */
  const NoDate: string := "—"

  /** `d ? render(d) : "—"`, with the locale rendering left as a parameter. */
  function DateText(d: Option<int>, render: int -> string): (r: string)
    ensures d.None? ==> r == NoDate
    ensures d.Some? ==> r == render(d.value)
  {
    if d.Some? then render(d.value) else NoDate
  }
}
