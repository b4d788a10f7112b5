/** The figures on the dashboard (components/Dashboard.tsx): project count,
    gross revenue, outstanding payments, the next four shoots, and the
    greeting. Everything here is a pure function of the booking list and of
    the current time, which is a parameter. */
module Dashboard {
  import opened Types

  // ---------------------------------------------------------------------
  // Totals
  // ---------------------------------------------------------------------

  /** `bookings.reduce(step, init)`: a left fold. */
  function Reduce(bookings: seq<Booking>, step: (int, Booking) -> int, init: int): int
  {
    if bookings == [] then init else Reduce(bookings[1..], step, step(init, bookings[0]))
  }

  function AddAmount(sum: int, b: Booking): int
  {
    sum + b.totalAmount
  }

  function AddBalance(sum: int, b: Booking): int
  {
    sum + (b.totalAmount - b.advancePaid)
  }

  /** Reference definition: the sum of the agreed amounts. */
  function SumAmounts(bookings: seq<Booking>): int
  {
    if bookings == [] then 0 else bookings[0].totalAmount + SumAmounts(bookings[1..])
  }

  /** Reference definition: the sum of the advances received. */
  function SumAdvances(bookings: seq<Booking>): int
  {
    if bookings == [] then 0 else bookings[0].advancePaid + SumAdvances(bookings[1..])
  }

  lemma {:induction false} ReduceAmounts(bookings: seq<Booking>, init: int)
    ensures Reduce(bookings, AddAmount, init) == init + SumAmounts(bookings)
  {
    if bookings != [] {
      ReduceAmounts(bookings[1..], AddAmount(init, bookings[0]));
    }
  }

  lemma {:induction false} ReduceBalances(bookings: seq<Booking>, init: int)
    ensures Reduce(bookings, AddBalance, init) == init + SumAmounts(bookings) - SumAdvances(bookings)
  {
    if bookings != [] {
      ReduceBalances(bookings[1..], AddBalance(init, bookings[0]));
    }
  }

  /** The "Total Projects" figure: the length of the list, so every booking
      counts once, whatever its status, and duplicates count separately. */
  function TotalProjects(bookings: seq<Booking>): (n: nat)
    ensures n == |multiset(bookings)|
    ensures n == 0 <==> bookings == []
  {
    |bookings|
  }

  /** The "Gross Revenue" figure: the sum of every booking's agreed amount. */
  function TotalRevenue(bookings: seq<Booking>): (r: int)
    ensures r == SumAmounts(bookings)
  {
    ReduceAmounts(bookings, 0);
    Reduce(bookings, AddAmount, 0)
  }

  /** The "Outstanding" figure: agreed amounts minus advances received. It is
      not clamped, so an overpaid booking lowers it, below zero if need be. */
  function PendingPayments(bookings: seq<Booking>): (r: int)
    ensures r == SumAmounts(bookings) - SumAdvances(bookings)
  {
    ReduceBalances(bookings, 0);
    Reduce(bookings, AddBalance, 0)
  }

  lemma {:induction false} SumAmountsAppend(xs: seq<Booking>, ys: seq<Booking>)
    ensures SumAmounts(xs + ys) == SumAmounts(xs) + SumAmounts(ys)
  {
    if xs != [] {
      SumAmountsAppend(xs[1..], ys);
      assert (xs + ys)[0] == xs[0] && (xs + ys)[1..] == xs[1..] + ys;
    } else {
      assert xs + ys == ys;
    }
  }

  lemma {:induction false} SumAdvancesAppend(xs: seq<Booking>, ys: seq<Booking>)
    ensures SumAdvances(xs + ys) == SumAdvances(xs) + SumAdvances(ys)
  {
    if xs != [] {
      SumAdvancesAppend(xs[1..], ys);
      assert (xs + ys)[0] == xs[0] && (xs + ys)[1..] == xs[1..] + ys;
    } else {
      assert xs + ys == ys;
    }
  }

  /** The figures of two lists of bookings add up: revenue and outstanding are
      per-booking sums, so the order and grouping of bookings do not matter. */
  lemma FiguresAreAdditive(xs: seq<Booking>, ys: seq<Booking>)
    ensures TotalProjects(xs + ys) == TotalProjects(xs) + TotalProjects(ys)
    ensures TotalRevenue(xs + ys) == TotalRevenue(xs) + TotalRevenue(ys)
    ensures PendingPayments(xs + ys) == PendingPayments(xs) + PendingPayments(ys)
  {
    SumAmountsAppend(xs, ys);
    SumAdvancesAppend(xs, ys);
  }

  /** Without bookings every figure is zero. */
  lemma EmptyFigures()
    ensures TotalProjects([]) == 0 && TotalRevenue([]) == 0 && PendingPayments([]) == 0
  {
  }

  /** A single overpaid booking makes the outstanding figure negative. */
  lemma OverpaymentMakesOutstandingNegative(b: Booking)
    requires b.advancePaid > b.totalAmount
    ensures PendingPayments([b]) < 0
  {
    assert [b][1..] == [];
    assert SumAmounts([b]) == b.totalAmount + SumAmounts([]);
    assert SumAdvances([b]) == b.advancePaid + SumAdvances([]);
  }

  // ---------------------------------------------------------------------
  // Dates
  // ---------------------------------------------------------------------

  /** Lexicographic order on code points. For ISO-8601 dates written in one
      format it is chronological order. */
  predicate DateLeq(a: string, b: string)
  {
    a == [] || (b != [] && (a[0] < b[0] || (a[0] == b[0] && DateLeq(a[1..], b[1..]))))
  }

  lemma {:induction false} DateLeqTotal(a: string, b: string)
    ensures DateLeq(a, b) || DateLeq(b, a)
  {
    if a != [] && b != [] && a[0] == b[0] {
      DateLeqTotal(a[1..], b[1..]);
    }
  }

  lemma {:induction false} DateLeqTransitive(a: string, b: string, c: string)
    requires DateLeq(a, b) && DateLeq(b, c)
    ensures DateLeq(a, c)
  {
    if a != [] && b != [] && c != [] && a[0] == b[0] && b[0] == c[0] {
      DateLeqTransitive(a[1..], b[1..], c[1..]);
    }
  }

  /** `new Date(b.event_date) >= now`, with both sides as ISO strings. */
  predicate IsUpcoming(b: Booking, now: string)
  {
    DateLeq(now, b.eventDate)
  }

  // ---------------------------------------------------------------------
  // The next shoots
  // ---------------------------------------------------------------------

  /** `.filter(b => new Date(b.event_date) >= new Date())`. */
  function Upcoming(bookings: seq<Booking>, now: string): (r: seq<Booking>)
    ensures |r| <= |bookings|
    ensures forall i :: 0 <= i < |r| ==> r[i] in bookings && IsUpcoming(r[i], now)
  {
    if bookings == [] then []
    else (if IsUpcoming(bookings[0], now) then [bookings[0]] else []) + Upcoming(bookings[1..], now)
  }

  /** The filter keeps every upcoming booking, as often as the input has it,
      and nothing else. */
  lemma {:induction false} UpcomingIsFilter(bookings: seq<Booking>, now: string)
    ensures forall b :: multiset(Upcoming(bookings, now))[b] == if IsUpcoming(b, now) then multiset(bookings)[b] else 0
  {
    if bookings != [] {
      UpcomingIsFilter(bookings[1..], now);
      assert bookings == [bookings[0]] + bookings[1..];
    }
  }

  predicate SortedByDate(s: seq<Booking>)
  {
    forall i, j :: 0 <= i < j < |s| ==> DateLeq(s[i].eventDate, s[j].eventDate)
  }

  /** Places `b` in front of the first booking that is not earlier than it,
      so bookings already in the list keep their places relative to it. */
  function Insert(b: Booking, sorted: seq<Booking>): (r: seq<Booking>)
    requires SortedByDate(sorted)
    ensures SortedByDate(r)
    ensures multiset(r) == multiset(sorted) + multiset{b}
  {
    if sorted == [] || DateLeq(b.eventDate, sorted[0].eventDate) then
      InsertFrontSorted(b, sorted);
      [b] + sorted
    else
      var rest := Insert(b, sorted[1..]);
      DateLeqTotal(b.eventDate, sorted[0].eventDate);
      InsertBehindSorted(sorted[0], b, sorted[1..], rest);
      assert sorted == [sorted[0]] + sorted[1..];
      [sorted[0]] + rest
  }

  lemma InsertFrontSorted(b: Booking, sorted: seq<Booking>)
    requires SortedByDate(sorted)
    requires sorted == [] || DateLeq(b.eventDate, sorted[0].eventDate)
    ensures SortedByDate([b] + sorted)
  {
    var s := [b] + sorted;
    forall i, j | 0 <= i < j < |s|
      ensures DateLeq(s[i].eventDate, s[j].eventDate)
    {
      if i == 0 && j > 1 {
        DateLeqTransitive(b.eventDate, sorted[0].eventDate, sorted[j - 1].eventDate);
      }
    }
  }

  lemma InsertBehindSorted(first: Booking, b: Booking, tail: seq<Booking>, rest: seq<Booking>)
    requires SortedByDate([first] + tail) && SortedByDate(rest)
    requires DateLeq(first.eventDate, b.eventDate)
    requires multiset(rest) == multiset(tail) + multiset{b}
    ensures SortedByDate([first] + rest)
  {
    forall j | 0 <= j < |rest|
      ensures DateLeq(first.eventDate, rest[j].eventDate)
    {
      assert rest[j] in multiset(rest);
      if rest[j] != b {
        assert rest[j] in multiset(tail);
        var k :| 0 <= k < |tail| && tail[k] == rest[j];
        assert ([first] + tail)[0] == first && ([first] + tail)[k + 1] == tail[k];
      }
    }
  }

  /** `.sort((a, b) => a.event_date.localeCompare(b.event_date))`, an
      insertion sort that keeps bookings on the same date in list order. */
  function SortByDate(bookings: seq<Booking>): (r: seq<Booking>)
    ensures SortedByDate(r)
    ensures multiset(r) == multiset(bookings)
  {
    if bookings == [] then []
    else
      assert bookings == [bookings[0]] + bookings[1..];
      Insert(bookings[0], SortByDate(bookings[1..]))
  }

  /** How many shoots the "Production Line" panel lists. */
  const ShownShoots := 4

  /** `r` lists the earliest of `candidates` in date order: all of them when
      there are at most four, otherwise four that none of the others precedes. */
  predicate EarliestFour(candidates: seq<Booking>, r: seq<Booking>)
  {
    && |r| == (if |candidates| < ShownShoots then |candidates| else ShownShoots)
    && SortedByDate(r)
    && multiset(r) <= multiset(candidates)
    && (|candidates| <= ShownShoots ==> multiset(r) == multiset(candidates))
    && (forall b, i :: b in multiset(candidates) - multiset(r) && 0 <= i < |r| ==>
          DateLeq(r[i].eventDate, b.eventDate))
  }

  /** `r` is what the "Production Line" panel should list: bookings of the
      input not dated before `now`, the earliest four of them by date. */
  predicate NextShoots(bookings: seq<Booking>, now: string, r: seq<Booking>)
  {
    && (forall i :: 0 <= i < |r| ==> r[i] in bookings && IsUpcoming(r[i], now))
    && EarliestFour(Upcoming(bookings, now), r)
  }

  /** `upcomingBookings`: the upcoming bookings of a copy of the list, sorted by
      event date, the first four of them. */
  function UpcomingBookings(bookings: seq<Booking>, now: string): (r: seq<Booking>)
    ensures |r| <= ShownShoots
    ensures NextShoots(bookings, now, r)
  {
    var sorted := SortByDate(Upcoming(bookings, now));
    var n := if |sorted| < ShownShoots then |sorted| else ShownShoots;
    EarliestPrefix(bookings, now, sorted, n);
    sorted[..n]
  }

  /** The first `n` bookings of a date-sorted list are sorted, and none of the
      bookings after them is earlier than any of them. */
  lemma SortedPrefixIsEarliest(sorted: seq<Booking>, n: nat)
    requires SortedByDate(sorted) && n <= |sorted|
    ensures SortedByDate(sorted[..n])
    ensures forall b, i :: b in multiset(sorted) - multiset(sorted[..n]) && 0 <= i < n ==>
              DateLeq(sorted[i].eventDate, b.eventDate)
  {
    assert sorted == sorted[..n] + sorted[n..];
    assert multiset(sorted) == multiset(sorted[..n]) + multiset(sorted[n..]);
    forall b, i | b in multiset(sorted) - multiset(sorted[..n]) && 0 <= i < n
      ensures DateLeq(sorted[i].eventDate, b.eventDate)
    {
      assert b in multiset(sorted[n..]);
      var k :| 0 <= k < |sorted[n..]| && sorted[n..][k] == b;
      assert sorted[n + k] == b;
    }
  }

  /** Taking at most four from a date-sorted permutation of `candidates`. */
  lemma PrefixOfSortedPermutation(candidates: seq<Booking>, sorted: seq<Booking>, n: nat)
    requires SortedByDate(sorted) && multiset(sorted) == multiset(candidates)
    requires n == if |sorted| < ShownShoots then |sorted| else ShownShoots
    ensures n <= |sorted| && EarliestFour(candidates, sorted[..n])
  {
    assert |multiset(sorted)| == |multiset(candidates)|;
    assert sorted == sorted[..n] + sorted[n..];
    assert multiset(sorted) == multiset(sorted[..n]) + multiset(sorted[n..]);
    SortedPrefixIsEarliest(sorted, n);
  }

  lemma EarliestPrefix(bookings: seq<Booking>, now: string, sorted: seq<Booking>, n: nat)
    requires SortedByDate(sorted) && multiset(sorted) == multiset(Upcoming(bookings, now))
    requires n == if |sorted| < ShownShoots then |sorted| else ShownShoots
    ensures n <= |sorted| && NextShoots(bookings, now, sorted[..n])
  {
    var candidates := Upcoming(bookings, now);
    PrefixOfSortedPermutation(candidates, sorted, n);
    UpcomingMembers(bookings, now, sorted[..n]);
  }

  /** Whatever is drawn from the upcoming bookings is a booking of the input,
      not dated before `now`. */
  lemma UpcomingMembers(bookings: seq<Booking>, now: string, r: seq<Booking>)
    requires multiset(r) <= multiset(Upcoming(bookings, now))
    ensures forall i :: 0 <= i < |r| ==> r[i] in bookings && IsUpcoming(r[i], now)
  {
    var candidates := Upcoming(bookings, now);
    forall i | 0 <= i < |r|
      ensures r[i] in bookings && IsUpcoming(r[i], now)
    {
      assert r[i] in multiset(candidates);
      var j :| 0 <= j < |candidates| && candidates[j] == r[i];
    }
  }

  // ---------------------------------------------------------------------
  // Greeting
  // ---------------------------------------------------------------------

  /** `getGreeting`, given the local hour of the day. */
  function Greeting(hour: int): (g: string)
    ensures g == "Good Morning" <==> hour < 12
    ensures g == "Good Afternoon" <==> 12 <= hour < 18
    ensures g == "Good Evening" <==> 18 <= hour
  {
    if hour < 12 then "Good Morning"
    else if hour < 18 then "Good Afternoon"
    else "Good Evening"
  }
}
