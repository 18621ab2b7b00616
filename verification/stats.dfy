/**
 * Read-only figures derived from one day's ticket list: the day statistics,
 * the urgent count and workload gauge of the dashboard, and the reminder list.
 */
module Stats {
  import opened Tickets

  /** How many elements satisfy `p`. */
  function Count<T>(s: seq<T>, p: T -> bool): (n: nat)
    ensures n <= |s|
  {
    if |s| == 0 then 0
    else (if p(s[0]) then 1 else 0) + Count(s[1..], p)
  }

  /** The elements that satisfy `p`, in their order. */
  function Filter<T>(s: seq<T>, p: T -> bool): (r: seq<T>)
    ensures |r| == Count(s, p)
    ensures forall k :: 0 <= k < |r| ==> p(r[k])
  {
    if |s| == 0 then []
    else (if p(s[0]) then [s[0]] else []) + Filter(s[1..], p)
  }

  /** The total of `f` over the elements. */
  function Sum<T>(s: seq<T>, f: T -> real): real {
    if |s| == 0 then 0.0 else f(s[0]) + Sum(s[1..], f)
  }

  predicate IsPending(d: Device) {
    !IsDone(d)
  }

  /** Done and priced: the tickets whose price counts as takings. */
  predicate Earns(d: Device) {
    IsDone(d) && d.price.Some?
  }

  /** The price, zero when the ticket has none. */
  function PriceOrZero(d: Device): real {
    ValueOr(d.price, 0.0)
  }

  /** The estimated hours; an unestimated ticket counts as one hour. */
  function HoursOrOne(d: Device): real {
    ValueOr(d.duration, 1.0)
  }

  /** The earning contribution of one ticket, zero for the others. */
  function Takings(d: Device): real {
    if Earns(d) then d.price.value else 0.0
  }

  predicate IsUrgent(d: Device) {
    d.urgency == Urgency.Urgent || d.urgency == Urgency.Express ||
    d.priority == Priority.High || d.priority == Priority.Critical
  }

  /** The takings of a day: the prices of the done and priced tickets, summed. */
  function Revenue(day: seq<Device>): real {
    Sum(Filter(day, Earns), PriceOrZero)
  }

  /** The hours of work a day holds. */
  function Workload(day: seq<Device>): real {
    Sum(day, HoursOrOne)
  }

  /** `Math.round`: the nearest integer, halves rounded up. */
  function Round(x: real): (n: int)
    ensures x - 0.5 < n as real <= x + 0.5
  {
    (x + 0.5).Floor
  }

  datatype DayStats = DayStats(total: nat, repaired: nat, pending: nat, revenue: int)

  /**
   * The statistics of one day: counts of all, done and not-yet-done tickets,
   * and the takings rounded to the nearest unit.
   */
  function StatsForDay(day: seq<Device>): (r: DayStats)
    ensures r.total == |day|
    ensures r.repaired == |Filter(day, IsDone)|
    ensures r.pending == |Filter(day, IsPending)|
    ensures r.total == r.repaired + r.pending
    ensures Revenue(day) - 0.5 < r.revenue as real <= Revenue(day) + 0.5
  {
    var total := |day|;
    var repaired := Count(day, IsDone);
    CountSplit(day);
    DayStats(total, repaired, total - repaired, Round(Revenue(day)))
  }

  /** Every ticket is either done or pending, never both. */
  lemma {:induction false} CountSplit(day: seq<Device>)
    ensures Count(day, IsDone) + Count(day, IsPending) == |day|
  {
    if |day| > 0 {
      CountSplit(day[1..]);
    }
  }

  /**
   * The takings sum the prices of exactly the done tickets that carry one;
   * every other ticket contributes zero.
   */
  lemma {:induction false} RevenueIsTakings(day: seq<Device>)
    ensures Revenue(day) == Sum(day, Takings)
  {
    if |day| > 0 {
      RevenueIsTakings(day[1..]);
      var rest := Filter(day[1..], Earns);
      if Earns(day[0]) {
        assert Filter(day, Earns) == [day[0]] + rest;
        assert ([day[0]] + rest)[1..] == rest;
      } else {
        assert Filter(day, Earns) == rest;
      }
    }
  }

  lemma {:induction false} SumAppend<T>(a: seq<T>, b: seq<T>, f: T -> real)
    ensures Sum(a + b, f) == Sum(a, f) + Sum(b, f)
  {
    if |a| > 0 {
      SumAppend(a[1..], b, f);
      assert (a + b)[1..] == a[1..] + b;
    } else {
      assert a + b == b;
    }
  }

  lemma {:induction false} CountAppend<T>(a: seq<T>, b: seq<T>, p: T -> bool)
    ensures Count(a + b, p) == Count(a, p) + Count(b, p)
  {
    if |a| > 0 {
      CountAppend(a[1..], b, p);
      assert (a + b)[1..] == a[1..] + b;
    } else {
      assert a + b == b;
    }
  }

  /** The takings of two lists together are the takings of each, added. */
  lemma RevenueAppend(a: seq<Device>, b: seq<Device>)
    ensures Revenue(a + b) == Revenue(a) + Revenue(b)
  {
    RevenueIsTakings(a + b);
    RevenueIsTakings(a);
    RevenueIsTakings(b);
    SumAppend(a, b, Takings);
  }

  /** Three tickets at 100 (repaired), 50 (waiting) and 75 (delivered). */
  lemma StatsExample(a: Device, b: Device, c: Device)
    requires a.status == Repaired && a.price == Some(100.0)
    requires b.status == Waiting && b.price == Some(50.0)
    requires c.status == Delivered && c.price == Some(75.0)
    ensures StatsForDay([a, b, c]) == DayStats(3, 2, 1, 175)
  {
    var day := [a, b, c];
    RevenueIsTakings(day);
    assert day[1..] == [b, c] && day[1..][1..] == [c] && day[1..][1..][1..] == [];
    assert Sum([c], Takings) == 75.0;
    assert Sum([b, c], Takings) == 75.0;
    assert Sum(day, Takings) == 175.0;
    assert Count([c], IsDone) == 1;
    assert Count([b, c], IsDone) == 1;
    assert Count(day, IsDone) == 2;
  }

  /** The workload gauge: hours over a twelve-hour day, in percent, capped at 100. */
  function WorkloadPercent(day: seq<Device>): (r: real)
    ensures r <= 100.0
    ensures Workload(day) * 100.0 / 12.0 <= 100.0 ==> r == Workload(day) * 100.0 / 12.0
    ensures Workload(day) * 100.0 / 12.0 > 100.0 ==> r == 100.0
  {
    var p := (Workload(day) / 12.0) * 100.0;
    if p < 100.0 then p else 100.0
  }

  /** With no estimate anywhere, the workload is one hour per ticket. */
  lemma {:induction false} UnestimatedWorkload(day: seq<Device>)
    requires forall k :: 0 <= k < |day| ==> day[k].duration == None
    ensures Workload(day) == |day| as real
  {
    if |day| > 0 {
      UnestimatedWorkload(day[1..]);
    }
  }

  /** Twelve unestimated tickets fill the day. */
  lemma TwelveTicketsFillTheDay(day: seq<Device>)
    requires |day| >= 12
    requires forall k :: 0 <= k < |day| ==> day[k].duration == None
    ensures WorkloadPercent(day) == 100.0
  {
    UnestimatedWorkload(day);
  }

  /** The dashboard's urgent count: urgent or express, or high or critical priority. */
  function UrgentCount(day: seq<Device>): (n: nat)
    ensures n == |Filter(day, IsUrgent)|
  {
    Count(day, IsUrgent)
  }

  lemma {:induction false} CountMonotone<T>(s: seq<T>, p: T -> bool, q: T -> bool)
    requires forall x :: p(x) ==> q(x)
    ensures Count(s, p) <= Count(s, q)
  {
    if |s| > 0 {
      CountMonotone(s[1..], p, q);
    }
  }

  /** Two lists that agree on `p` position by position have the same count. */
  lemma {:induction false} CountPointwise<T>(a: seq<T>, b: seq<T>, p: T -> bool)
    requires |a| == |b|
    requires forall k :: 0 <= k < |a| ==> p(a[k]) == p(b[k])
    ensures Count(a, p) == Count(b, p)
  {
    if |a| > 0 {
      CountPointwise(a[1..], b[1..], p);
    }
  }

  /** The four reminder kinds, in the order the panel lists them. */
  datatype Alert = ExpressPending | CriticalPending | AwaitingParts | ReadyForPickup

  datatype Reminder = Reminder(alert: Alert, count: nat)

  function Rank(a: Alert): nat {
    match a
    case ExpressPending => 0
    case CriticalPending => 1
    case AwaitingParts => 2
    case ReadyForPickup => 3
  }

  /**
   * Whether a ticket falls under a reminder kind. The express and critical
   * kinds only concern unfinished urgent tickets; the pickup kind only
   * finished ones.
   */
  predicate Concerns(a: Alert, d: Device)
    ensures Concerns(a, d) && Rank(a) < 2 ==> IsPending(d) && IsUrgent(d)
    ensures Concerns(a, d) && a == ReadyForPickup ==> IsDone(d)
  {
    match a
    case ExpressPending => d.urgency == Urgency.Express && !IsDone(d)
    case CriticalPending => d.priority == Priority.Critical && !IsDone(d)
    case AwaitingParts => d.status == Waiting
    case ReadyForPickup => d.status == Repaired
  }

  function Tally(day: seq<Device>, a: Alert): nat {
    Count(day, d => Concerns(a, d))
  }

  function Entry(day: seq<Device>, a: Alert): seq<Reminder> {
    if Tally(day, a) > 0 then [Reminder(a, Tally(day, a))] else []
  }

  /** The reminder kinds in panel order. */
  const Panel: seq<Alert> := [ExpressPending, CriticalPending, AwaitingParts, ReadyForPickup]

  predicate Ascending(alerts: seq<Alert>) {
    forall i, j :: 0 <= i < j < |alerts| ==> Rank(alerts[i]) < Rank(alerts[j])
  }

  /** One entry per listed kind that concerns at least one ticket, in list order. */
  function Collect(day: seq<Device>, alerts: seq<Alert>): (r: seq<Reminder>)
    ensures |r| <= |alerts|
  {
    if alerts == [] then [] else Entry(day, alerts[0]) + Collect(day, alerts[1..])
  }

  /** Every collected entry is a listed kind that concerns a ticket, with its count. */
  lemma {:induction false} CollectSound(day: seq<Device>, alerts: seq<Alert>)
    ensures forall i :: 0 <= i < |Collect(day, alerts)| ==>
      Collect(day, alerts)[i].alert in alerts &&
      Collect(day, alerts)[i].count == Tally(day, Collect(day, alerts)[i].alert) > 0
  {
    if alerts != [] {
      CollectSound(day, alerts[1..]);
    }
  }

  /** Every listed kind that concerns a ticket is collected with its count. */
  lemma {:induction false} CollectComplete(day: seq<Device>, alerts: seq<Alert>, a: Alert)
    requires a in alerts && Tally(day, a) > 0
    ensures Reminder(a, Tally(day, a)) in Collect(day, alerts)
  {
    if alerts[0] != a {
      CollectComplete(day, alerts[1..], a);
    }
  }

  /** Kinds listed in ascending rank are collected in ascending rank. */
  lemma {:induction false} CollectOrdered(day: seq<Device>, alerts: seq<Alert>)
    requires Ascending(alerts)
    ensures forall i, j :: 0 <= i < j < |Collect(day, alerts)| ==>
      Rank(Collect(day, alerts)[i].alert) < Rank(Collect(day, alerts)[j].alert)
  {
    if alerts != [] {
      var rest := Collect(day, alerts[1..]);
      CollectOrdered(day, alerts[1..]);
      CollectSound(day, alerts[1..]);
      assert forall b :: b in alerts[1..] ==> Rank(alerts[0]) < Rank(b);
    }
  }

  /** Every reminder kind is on the panel. */
  lemma PanelListsAll(a: Alert)
    ensures a in Panel
  {
    assert Panel[Rank(a)] == a;
  }

  /**
   * The reminder list: one entry per kind that concerns at least one ticket,
   * carrying how many it concerns, in the fixed order express, critical,
   * waiting for parts, ready for pickup.
   */
  function Reminders(day: seq<Device>): (r: seq<Reminder>)
    ensures |r| <= 4
    ensures forall i, j :: 0 <= i < j < |r| ==> Rank(r[i].alert) < Rank(r[j].alert)
    ensures forall i :: 0 <= i < |r| ==> r[i].count == Tally(day, r[i].alert) > 0
    ensures forall a :: Tally(day, a) > 0 <==> Reminder(a, Tally(day, a)) in r
  {
    var r := Collect(day, Panel);
    CollectSound(day, Panel);
    CollectOrdered(day, Panel);
    forall a | Tally(day, a) > 0
      ensures Reminder(a, Tally(day, a)) in r
    {
      PanelListsAll(a);
      CollectComplete(day, Panel, a);
    }
    r
  }

  /** Every ticket behind an express or a critical reminder is also counted as urgent. */
  lemma UrgentCoversReminders(day: seq<Device>)
    ensures Tally(day, ExpressPending) <= UrgentCount(day)
    ensures Tally(day, CriticalPending) <= UrgentCount(day)
  {
    CountMonotone(day, d => Concerns(ExpressPending, d), IsUrgent);
    CountMonotone(day, d => Concerns(CriticalPending, d), IsUrgent);
  }
}
