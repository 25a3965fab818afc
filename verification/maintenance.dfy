/** The maintenance schedule: recurring tasks with an interval in days, the
    date they were last done and the date they are next due, classified
    against the current time and listed most urgent first. Dates are UTC
    day numbers (days since the epoch, the `YYYY-MM-DD` strings the source
    stores); the current time is a parameter in milliseconds. */
module Maintenance {
  import opened Wrappers

  /** `1000 * 60 * 60 * 24`: milliseconds in a day. */
  const DAY_MS := 86400000

  datatype Task = Task(
    id: int,
    name: string,
    intervalDays: int,
    description: string,
    category: string,
    lastCompleted: Option<int>,
    nextDue: Option<int>)

  /** The seven default tasks, before they are given dates. */
  function DefaultTasks(): (ts: seq<Task>)
    ensures |ts| == 7
    ensures forall i :: 0 <= i < 7 ==> ts[i].id == i + 1 && ts[i].lastCompleted.None? && ts[i].nextDue.None?
  {
    [ Task(1, "Clean sensors", 7, "Clean all water quality sensors", "Sensors", None, None),
      Task(2, "Calibrate pH probe", 30, "Calibrate pH sensor with buffer solutions", "Sensors", None, None),
      Task(3, "Check aerator motors", 7, "Inspect all aerator motors and check for unusual sounds", "Equipment", None, None),
      Task(4, "Sample water quality manually", 7, "Take manual water samples for lab testing", "Testing", None, None),
      Task(5, "Inspect nets/screens", 14, "Check pond nets and screens for damage or debris", "Infrastructure", None, None),
      Task(6, "Replace aerator filters", 30, "Clean or replace aerator air filters", "Equipment", None, None),
      Task(7, "Test backup power", 30, "Test generator/backup power systems", "Safety", None, None) ]
  }

  /** The UTC day a time falls on (`toISOString().split('T')[0]`). */
  function Today(now: int): (d: int)
    ensures d * DAY_MS <= now < (d + 1) * DAY_MS
  {
    now / DAY_MS
  }

  /** The list the schedule starts from: the stored list when there is
      one, the defaults due today when there is none, and nothing when the
      stored text does not parse (the load throws). */
  function Load(stored: Stored<seq<Task>>, now: int): (r: Option<seq<Task>>)
    ensures stored.Parsed? ==> r == Some(stored.value)
    ensures stored.Unparsable? ==> r.None?
    ensures stored.Absent? ==>
              && r.Some? && |r.value| == |DefaultTasks()|
              && forall i :: 0 <= i < |r.value| ==>
                   r.value[i] == DefaultTasks()[i].(lastCompleted := None, nextDue := Some(Today(now)))
  {
    match stored
    case Parsed(ts) => Some(ts)
    case Unparsable => None
    case Absent =>
      var ds := DefaultTasks();
      Some(seq(|ds|, i requires 0 <= i < |ds| => ds[i].(lastCompleted := None, nextDue := Some(Today(now)))))
  }

  /** `getDaysUntilDue(nextDue)`: the whole days from now to the due date's
      midnight, rounded up; 0 when there is no due date. */
  function DaysUntilDue(nextDue: Option<int>, now: int): (d: int)
    ensures nextDue.None? ==> d == 0
    ensures nextDue.Some? ==> (d - 1) * DAY_MS < nextDue.value * DAY_MS - now <= d * DAY_MS
  {
    match nextDue
    case None => 0
    case Some(due) =>
      var q := (now - due * DAY_MS) / DAY_MS;
      assert q * DAY_MS <= now - due * DAY_MS < (q + 1) * DAY_MS;
      -q
  }

  datatype Status = Overdue | DueToday | DueSoon | Scheduled

  /** `getTaskStatus(task)`, stated against the time left before the due
      date's midnight: overdue once a full day has passed since it, due
      today within that day (or with no due date), due soon within two
      days before it, scheduled otherwise. */
  function StatusOf(t: Task, now: int): (s: Status)
    ensures t.nextDue.None? ==> s == DueToday
    ensures t.nextDue.Some? ==>
              var left := t.nextDue.value * DAY_MS - now;
              && (s == Overdue <==> left <= -DAY_MS)
              && (s == DueToday <==> -DAY_MS < left <= 0)
              && (s == DueSoon <==> 0 < left <= 2 * DAY_MS)
              && (s == Scheduled <==> 2 * DAY_MS < left)
  {
    var d := DaysUntilDue(t.nextDue, now);
    if d < 0 then Overdue
    else if d == 0 then DueToday
    else if d <= 2 then DueSoon
    else Scheduled
  }

  /** The sort key: `{overdue: 0, 'due-today': 1, 'due-soon': 2, scheduled: 3}`. */
  function Rank(s: Status): nat {
    match s
    case Overdue => 0
    case DueToday => 1
    case DueSoon => 2
    case Scheduled => 3
  }

  /** `markComplete(id)`: every task with that id is done today and next
      due `intervalDays` later; the others are unchanged. */
  function MarkComplete(tasks: seq<Task>, id: int, now: int): (r: seq<Task>)
    ensures |r| == |tasks|
    ensures forall i :: 0 <= i < |tasks| && tasks[i].id != id ==> r[i] == tasks[i]
    ensures forall i :: 0 <= i < |tasks| && tasks[i].id == id ==>
              && r[i].lastCompleted == Some(Today(now))
              && r[i].nextDue == Some(Today(now) + tasks[i].intervalDays)
              && r[i] == tasks[i].(lastCompleted := r[i].lastCompleted, nextDue := r[i].nextDue)
  {
    var today := Today(now);
    seq(|tasks|, i requires 0 <= i < |tasks| =>
      if tasks[i].id == id then tasks[i].(lastCompleted := Some(today), nextDue := Some(today + tasks[i].intervalDays))
      else tasks[i])
  }

  /** `resetTask(id)`: every task with that id loses its completion date and
      is due today; the others are unchanged. */
  function ResetTask(tasks: seq<Task>, id: int, now: int): (r: seq<Task>)
    ensures |r| == |tasks|
    ensures forall i :: 0 <= i < |tasks| && tasks[i].id != id ==> r[i] == tasks[i]
    ensures forall i :: 0 <= i < |tasks| && tasks[i].id == id ==>
              && r[i].lastCompleted.None?
              && r[i].nextDue == Some(Today(now))
              && r[i] == tasks[i].(lastCompleted := None, nextDue := r[i].nextDue)
  {
    var today := Today(now);
    seq(|tasks|, i requires 0 <= i < |tasks| =>
      if tasks[i].id == id then tasks[i].(lastCompleted := None, nextDue := Some(today))
      else tasks[i])
  }

  /** A task completed now is due in exactly its interval, so it is
      scheduled when the interval exceeds two days. */
  lemma CompletedTaskDueInInterval(tasks: seq<Task>, id: int, now: int, i: nat)
    requires i < |tasks| && tasks[i].id == id
    ensures DaysUntilDue(MarkComplete(tasks, id, now)[i].nextDue, now) == tasks[i].intervalDays
    ensures tasks[i].intervalDays > 2 ==> StatusOf(MarkComplete(tasks, id, now)[i], now) == Scheduled
  {
    var k := tasks[i].intervalDays;
    var today := Today(now);
    var d := DaysUntilDue(Some(today + k), now);
    assert (d - 1) * DAY_MS < (today + k) * DAY_MS - now <= d * DAY_MS;
    assert (today + k) * DAY_MS == today * DAY_MS + k * DAY_MS;
    assert (d - 1) * DAY_MS < k * DAY_MS && (k - 1) * DAY_MS < d * DAY_MS;
  }

  /** A task reset now, and any task of a fresh schedule, is due today. */
  lemma DueTodayIsToday(t: Task, now: int)
    requires t.nextDue == Some(Today(now))
    ensures DaysUntilDue(t.nextDue, now) == 0
    ensures StatusOf(t, now) == DueToday
  {
  }

  lemma ResetTaskIsDueToday(tasks: seq<Task>, id: int, now: int, i: nat)
    requires i < |tasks| && tasks[i].id == id
    ensures StatusOf(ResetTask(tasks, id, now)[i], now) == DueToday
  {
    DueTodayIsToday(ResetTask(tasks, id, now)[i], now);
  }

  /** The tasks of one status, in their original order. */
  function OfStatus(tasks: seq<Task>, s: Status, now: int): (r: seq<Task>)
    ensures |r| <= |tasks|
    ensures forall i :: 0 <= i < |r| ==> StatusOf(r[i], now) == s
    ensures forall t :: t in r <==> t in tasks && StatusOf(t, now) == s
    decreases |tasks|
  {
    if |tasks| == 0 then []
    else
      var rest := OfStatus(tasks[1..], s, now);
      if StatusOf(tasks[0], now) == s then [tasks[0]] + rest else rest
  }

  /** A status class is empty exactly when no task has that status. */
  lemma {:induction false} OfStatusEmpty(tasks: seq<Task>, s: Status, now: int)
    ensures |OfStatus(tasks, s, now)| == 0 <==> forall i :: 0 <= i < |tasks| ==> StatusOf(tasks[i], now) != s
    decreases |tasks|
  {
    if |tasks| > 0 {
      OfStatusEmpty(tasks[1..], s, now);
      assert forall i :: 1 <= i < |tasks| ==> tasks[i] == tasks[1..][i - 1];
    }
  }

  /** `[...tasks].sort(by status rank)`. JavaScript's sort is stable, so
      the result is each status class in its original order, most urgent
      class first. */
  function SortByStatus(tasks: seq<Task>, now: int): (r: seq<Task>)
    ensures forall t :: t in r <==> t in tasks
  {
    OfStatus(tasks, Overdue, now) + OfStatus(tasks, DueToday, now)
    + OfStatus(tasks, DueSoon, now) + OfStatus(tasks, Scheduled, now)
  }

  /** The sorted list is ordered by rank: overdue, due today, due soon,
      scheduled. */
  lemma SortedByRank(tasks: seq<Task>, now: int)
    ensures var r := SortByStatus(tasks, now);
            forall i, j :: 0 <= i < j < |r| ==> Rank(StatusOf(r[i], now)) <= Rank(StatusOf(r[j], now))
  {
    var a := OfStatus(tasks, Overdue, now);
    var b := OfStatus(tasks, DueToday, now);
    var c := OfStatus(tasks, DueSoon, now);
    var d := OfStatus(tasks, Scheduled, now);
    var r := a + b + c + d;
    forall i | 0 <= i < |r|
      ensures Rank(StatusOf(r[i], now)) == if i < |a| then 0 else if i < |a| + |b| then 1 else if i < |a| + |b| + |c| then 2 else 3
    {
      if i < |a| { assert r[i] == a[i]; }
      else if i < |a| + |b| { assert r[i] == b[i - |a|]; }
      else if i < |a| + |b| + |c| { assert r[i] == c[i - |a| - |b|]; }
      else { assert r[i] == d[i - |a| - |b| - |c|]; }
    }
  }

  /** The sorted list holds the same tasks, each as often, as the list. */
  lemma {:induction false} SortPermutes(tasks: seq<Task>, now: int)
    ensures multiset(SortByStatus(tasks, now)) == multiset(tasks)
    decreases |tasks|
  {
    if |tasks| > 0 {
      var t, rest := tasks[0], tasks[1..];
      SortPermutes(rest, now);
      SortCons(t, rest, now);
      assert tasks == [t] + rest;
    }
  }

  /** Sorting a list with one more task at its head adds the task to the
      block of its status. */
  lemma SortCons(t: Task, rest: seq<Task>, now: int)
    ensures multiset(SortByStatus([t] + rest, now)) == multiset{t} + multiset(SortByStatus(rest, now))
  {
    var tasks := [t] + rest;
    assert tasks[1..] == rest;
    var a, b, c, d := OfStatus(rest, Overdue, now), OfStatus(rest, DueToday, now),
                      OfStatus(rest, DueSoon, now), OfStatus(rest, Scheduled, now);
    var here := StatusOf(t, now);
    var e: seq<Task> := [];
    assert OfStatus(tasks, Overdue, now) == (if here == Overdue then [t] else e) + a;
    assert OfStatus(tasks, DueToday, now) == (if here == DueToday then [t] else e) + b;
    assert OfStatus(tasks, DueSoon, now) == (if here == DueSoon then [t] else e) + c;
    assert OfStatus(tasks, Scheduled, now) == (if here == Scheduled then [t] else e) + d;
    assert multiset(SortByStatus(tasks, now)) == multiset(OfStatus(tasks, Overdue, now)) + multiset(OfStatus(tasks, DueToday, now))
           + multiset(OfStatus(tasks, DueSoon, now)) + multiset(OfStatus(tasks, Scheduled, now));
  }

  lemma {:induction false} OfStatusAppend(x: seq<Task>, y: seq<Task>, s: Status, now: int)
    ensures OfStatus(x + y, s, now) == OfStatus(x, s, now) + OfStatus(y, s, now)
    decreases |x|
  {
    if |x| > 0 {
      assert (x + y)[1..] == x[1..] + y;
      OfStatusAppend(x[1..], y, s, now);
    } else {
      assert x + y == y;
    }
  }

  lemma {:induction false} OfStatusTwice(x: seq<Task>, s: Status, s': Status, now: int)
    ensures OfStatus(OfStatus(x, s, now), s', now) == if s == s' then OfStatus(x, s, now) else []
    decreases |x|
  {
    if |x| > 0 {
      OfStatusTwice(x[1..], s, s', now);
      var rest := OfStatus(x[1..], s, now);
      if StatusOf(x[0], now) == s {
        assert ([x[0]] + rest)[1..] == rest;
      }
    }
  }

  /** The sort is stable: within each status class the tasks keep their
      original relative order. */
  lemma SortIsStable(tasks: seq<Task>, s: Status, now: int)
    ensures OfStatus(SortByStatus(tasks, now), s, now) == OfStatus(tasks, s, now)
  {
    var a := OfStatus(tasks, Overdue, now);
    var b := OfStatus(tasks, DueToday, now);
    var c := OfStatus(tasks, DueSoon, now);
    var d := OfStatus(tasks, Scheduled, now);
    OfStatusAppend(a + b + c, d, s, now);
    OfStatusAppend(a + b, c, s, now);
    OfStatusAppend(a, b, s, now);
    var fa, fb, fc, fd := OfStatus(a, s, now), OfStatus(b, s, now), OfStatus(c, s, now), OfStatus(d, s, now);
    assert OfStatus(SortByStatus(tasks, now), s, now) == fa + fb + fc + fd;
    OfStatusTwice(tasks, Overdue, s, now);
    OfStatusTwice(tasks, DueToday, s, now);
    OfStatusTwice(tasks, DueSoon, s, now);
    OfStatusTwice(tasks, Scheduled, s, now);
    match s
    case Overdue => assert fb == fc == fd == [];
    case DueToday => assert fa == fc == fd == [];
    case DueSoon => assert fa == fb == fd == [];
    case Scheduled => assert fa == fb == fc == [];
  }

  /** The header badges: the overdue and due-today counts, and "All Up to
      Date" when both are zero. */
  datatype Summary = Summary(overdue: nat, dueToday: nat, allClear: bool)

  function Summarize(tasks: seq<Task>, now: int): (r: Summary)
    ensures r.overdue == |OfStatus(tasks, Overdue, now)| && r.dueToday == |OfStatus(tasks, DueToday, now)|
    ensures r.allClear <==> forall i :: 0 <= i < |tasks| ==> StatusOf(tasks[i], now) in {DueSoon, Scheduled}
  {
    OfStatusEmpty(tasks, Overdue, now);
    OfStatusEmpty(tasks, DueToday, now);
    var o := |OfStatus(tasks, Overdue, now)|;
    var t := |OfStatus(tasks, DueToday, now)|;
    Summary(o, t, o == 0 && t == 0)
  }

  /** The overdue count is the length of the overdue block at the head of
      the sorted list, and the due-today block follows it. */
  lemma CountsAreSortedBlocks(tasks: seq<Task>, now: int)
    ensures var r := SortByStatus(tasks, now);
            var n := Summarize(tasks, now);
            && n.overdue + n.dueToday <= |r|
            && (forall i :: 0 <= i < n.overdue ==> StatusOf(r[i], now) == Overdue)
            && (forall i :: n.overdue <= i < n.overdue + n.dueToday ==> StatusOf(r[i], now) == DueToday)
            && (forall i :: n.overdue + n.dueToday <= i < |r| ==> StatusOf(r[i], now) in {DueSoon, Scheduled})
  {
    var a := OfStatus(tasks, Overdue, now);
    var b := OfStatus(tasks, DueToday, now);
    var c := OfStatus(tasks, DueSoon, now);
    var d := OfStatus(tasks, Scheduled, now);
    var r := a + b + c + d;
    forall i | 0 <= i < |r|
      ensures StatusOf(r[i], now) == if i < |a| then Overdue else if i < |a| + |b| then DueToday
                                     else if i < |a| + |b| + |c| then DueSoon else Scheduled
    {
      if i < |a| { assert r[i] == a[i]; }
      else if i < |a| + |b| { assert r[i] == b[i - |a|]; }
      else if i < |a| + |b| + |c| { assert r[i] == c[i - |a| - |b|]; }
      else { assert r[i] == d[i - |a| - |b| - |c|]; }
    }
  }

  /** A fresh schedule is all due today. */
  lemma FreshScheduleAllDueToday(now: int)
    ensures var ts := Load(Absent, now).value;
            && |ts| == 7
            && (forall i :: 0 <= i < |ts| ==> ts[i].lastCompleted.None? && StatusOf(ts[i], now) == DueToday)
            && !Summarize(ts, now).allClear
  {
    var ts := Load(Absent, now).value;
    forall i | 0 <= i < |ts|
      ensures StatusOf(ts[i], now) == DueToday
    {
      DueTodayIsToday(ts[i], now);
    }
  }
}
