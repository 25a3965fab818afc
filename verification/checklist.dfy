/** The daily operations checklist: a fixed list of eight tasks per date,
    each ticked off with the time it was done and, for some, an amount and
    notes. The browser-storage entry `dailyChecklists` (a map from
    `YYYY-MM-DD` to the day's list) is explicit state; the formatted clock
    time of a tick is a parameter. */
module Checklist {
  import opened Wrappers

  datatype Item = Item(
    id: int,
    name: string,
    time: string,
    category: string,
    requiresAmount: bool,
    completed: bool,
    completedAt: Option<string>,
    amount: string,
    notes: string)

  /** Every stored day, keyed by its `YYYY-MM-DD` date. */
  type Days = map<string, seq<Item>>

  /** A default task, not yet done, with no amount and no notes. */
  function Fresh(id: int, name: string, time: string, category: string, requiresAmount: bool): Item {
    Item(id, name, time, category, requiresAmount, false, None, "", "")
  }

  /** The eight tasks every new day starts with. */
  function DefaultChecklist(): (l: seq<Item>)
    ensures |l| == 8
    ensures forall i :: 0 <= i < |l| ==> l[i].id == i + 1
    ensures forall i :: 0 <= i < |l| ==> !l[i].completed && l[i].completedAt.None? && l[i].amount == "" && l[i].notes == ""
  {
    [ Fresh(1, "Morning feeding", "07:00", "Feeding", true),
      Fresh(2, "Check aerators", "08:00", "Equipment", false),
      Fresh(3, "Visual fish health check", "09:00", "Observation", false),
      Fresh(4, "Water quality readings", "10:00", "Monitoring", false),
      Fresh(5, "Mortality count", "10:30", "Health", true),
      Fresh(6, "Afternoon feeding", "15:00", "Feeding", true),
      Fresh(7, "Evening feeding", "18:00", "Feeding", true),
      Fresh(8, "Night-time DO check", "21:00", "Monitoring", false) ]
  }

  /** The stored map, `{}` when nothing is stored; `None` when the stored
      text does not parse (the source's `JSON.parse` throws). */
  function ReadDays(stored: Stored<Days>): (d: Option<Days>)
    ensures stored.Absent? ==> d == Some(map[])
    ensures stored.Parsed? ==> d == Some(stored.value)
    ensures stored.Unparsable? ==> d.None?
  {
    match stored
    case Absent => Some(map[])
    case Parsed(days) => Some(days)
    case Unparsable => None
  }

  /** `loadChecklist(date)`: the list stored for the date, or a fresh
      default list that is also written back under the date. The result
      holds the list shown and the map stored afterwards. */
  function LoadChecklist(stored: Stored<Days>, date: string): (r: Option<(seq<Item>, Days)>)
    ensures stored.Unparsable? <==> r.None?
    ensures r.Some? && date in ReadDays(stored).value ==> r.value == (ReadDays(stored).value[date], ReadDays(stored).value)
    ensures r.Some? && date !in ReadDays(stored).value ==>
              && r.value.0 == DefaultChecklist()
              && r.value.1 == ReadDays(stored).value[date := DefaultChecklist()]
  {
    match ReadDays(stored)
    case None => None
    case Some(days) =>
      if date in days then Some((days[date], days))
      else Some((DefaultChecklist(), days[date := DefaultChecklist()]))
  }

  /** `saveChecklist(list)`: the day's list replaces the stored one; the
      other dates keep theirs. */
  function SaveChecklist(stored: Stored<Days>, date: string, l: seq<Item>): (r: Option<Days>)
    ensures stored.Unparsable? <==> r.None?
    ensures r.Some? ==> date in r.value && r.value[date] == l
    ensures r.Some? ==> forall d :: d != date ==> (d in r.value <==> d in ReadDays(stored).value)
    ensures r.Some? ==> forall d :: d != date && d in r.value ==> r.value[d] == ReadDays(stored).value[d]
  {
    match ReadDays(stored)
    case None => None
    case Some(days) => Some(days[date := l])
  }

  /** Saving a day's list and loading that day again gives the list back. */
  lemma SaveThenLoad(stored: Stored<Days>, date: string, l: seq<Item>)
    requires !stored.Unparsable?
    ensures LoadChecklist(Parsed(SaveChecklist(stored, date, l).value), date).value.0 == l
  {
  }

  /** `toggleTask(id)`: the task with that id flips between done and not
      done; a task now done records the clock time, one now undone loses
      it. Every other task is unchanged. */
  function ToggleTask(l: seq<Item>, id: int, clock: string): (r: seq<Item>)
    ensures |r| == |l|
    ensures forall i :: 0 <= i < |l| && l[i].id != id ==> r[i] == l[i]
    ensures forall i :: 0 <= i < |l| && l[i].id == id ==>
              && r[i].completed == !l[i].completed
              && (r[i].completedAt.Some? <==> r[i].completed)
              && (r[i].completed ==> r[i].completedAt == Some(clock))
              && r[i] == l[i].(completed := r[i].completed, completedAt := r[i].completedAt)
  {
    seq(|l|, i requires 0 <= i < |l| =>
      if l[i].id == id then l[i].(completed := !l[i].completed, completedAt := if !l[i].completed then Some(clock) else None)
      else l[i])
  }

  /** The two fields a task's inputs edit. */
  datatype Field = Amount | Notes

  /** `updateTaskData(id, field, value)`: exactly that field of the task
      with that id changes. */
  function UpdateTaskData(l: seq<Item>, id: int, field: Field, value: string): (r: seq<Item>)
    ensures |r| == |l|
    ensures forall i :: 0 <= i < |l| && l[i].id != id ==> r[i] == l[i]
    ensures forall i :: 0 <= i < |l| && l[i].id == id && field == Amount ==> r[i] == l[i].(amount := value)
    ensures forall i :: 0 <= i < |l| && l[i].id == id && field == Notes ==> r[i] == l[i].(notes := value)
  {
    seq(|l|, i requires 0 <= i < |l| =>
      if l[i].id != id then l[i]
      else match field
        case Amount => l[i].(amount := value)
        case Notes => l[i].(notes := value))
  }

  /** `resetDay()`: the day goes back to the default list. */
  function ResetDay(): (r: seq<Item>)
    ensures r == DefaultChecklist()
    ensures forall i :: 0 <= i < |r| ==> !r[i].completed
  {
    DefaultChecklist()
  }

  /** The task ids of a list, in order. */
  function Ids(l: seq<Item>): seq<int> {
    seq(|l|, i requires 0 <= i < |l| => l[i].id)
  }

  /** Ticking and editing never add, drop or reorder tasks, so a day that
      started from the defaults keeps their ids and resetting it keeps its
      task count. */
  lemma EditsKeepTasks(l: seq<Item>, id: int, clock: string, field: Field, value: string)
    ensures Ids(ToggleTask(l, id, clock)) == Ids(l)
    ensures Ids(UpdateTaskData(l, id, field, value)) == Ids(l)
    ensures Ids(l) == Ids(DefaultChecklist()) ==> |ResetDay()| == |l|
  {
  }

  /** Ticking a task twice restores whether each task is done. */
  lemma ToggleTwice(l: seq<Item>, id: int, c1: string, c2: string)
    ensures var r := ToggleTask(ToggleTask(l, id, c1), id, c2);
            forall i :: 0 <= i < |l| ==> r[i].completed == l[i].completed
  {
  }

  /** `checklist.filter(t => t.completed).length`. */
  function CompletedCount(l: seq<Item>): (n: nat)
    ensures n == |CompletedPositions(l)|
    ensures n <= |l|
    ensures n == 0 <==> forall i :: 0 <= i < |l| ==> !l[i].completed
    ensures n == |l| <==> forall i :: 0 <= i < |l| ==> l[i].completed
    decreases |l|
  {
    if |l| == 0 then 0
    else
      var k := |l| - 1;
      CompletedPositionsStep(l);
      assert forall i :: 0 <= i < k ==> l[..k][i] == l[i];
      CompletedCount(l[..k]) + (if l[k].completed then 1 else 0)
  }

  /** The positions of the done tasks of `l`. */
  function CompletedPositions(l: seq<Item>): set<nat> {
    set i: nat | i < |l| && l[i].completed
  }

  /** The done positions of a list are those of its front plus, if done,
      its last position, which the front cannot contain. */
  lemma CompletedPositionsStep(l: seq<Item>)
    requires |l| > 0
    ensures var k := |l| - 1;
            && CompletedPositions(l) == CompletedPositions(l[..k]) + (if l[k].completed then {k} else {})
            && k !in CompletedPositions(l[..k])
  {
    var k := |l| - 1;
    assert forall i :: 0 <= i < k ==> l[..k][i] == l[i];
  }

  /** Ticking or unticking a task with a unique id moves the done count by
      exactly one. */
  lemma ToggleMovesCountByOne(l: seq<Item>, k: nat, clock: string)
    requires k < |l| && forall i :: 0 <= i < |l| && l[i].id == l[k].id ==> i == k
    ensures CompletedCount(ToggleTask(l, l[k].id, clock)) == CompletedCount(l) + (if l[k].completed then -1 else 1)
  {
    var r := ToggleTask(l, l[k].id, clock);
    forall i | 0 <= i < |l| && i != k
      ensures r[i].completed == l[i].completed
    {
      assert l[i].id != l[k].id;
    }
    assert r[k].completed == !l[k].completed;
    if l[k].completed {
      assert CompletedPositions(l) == CompletedPositions(r) + {k} && k !in CompletedPositions(r);
    } else {
      assert CompletedPositions(r) == CompletedPositions(l) + {k} && k !in CompletedPositions(l);
    }
  }

  /** `Math.round(done / total * 100)` in exact arithmetic (halves round
      up), and 0 for an empty list. */
  function Percentage(done: nat, total: nat): (p: int)
    requires done <= total
    ensures 0 <= p <= 100
    ensures total == 0 ==> p == 0
    ensures total > 0 ==> 2 * total * p - total <= 200 * done < 2 * total * p + total
    ensures done == 0 ==> p == 0
    ensures total > 0 && done == total ==> p == 100
  {
    if total == 0 then 0
    else
      RoundedShare(done, total);
      (200 * done + total) / (2 * total)
  }

  /** The bounds of the rounded share, kept apart from the function so the
      division facts are proved on their own. */
  lemma RoundedShare(done: nat, total: nat)
    requires done <= total && total > 0
    ensures var p := (200 * done + total) / (2 * total);
            && 0 <= p <= 100 && 2 * total * p - total <= 200 * done < 2 * total * p + total
            && (done == 0 ==> p == 0)
            && (done == total ==> p == 100)
  {
    var n, d := 200 * done + total, 2 * total;
    var p, r := n / d, n % d;
    assert n == d * p + r && 0 <= r < d;
    assert n < d * 101;
    CancelFactor(d, p, 101);
    assert d * -1 < d * p;
    CancelFactor(d, -1, p);
    if done == 0 {
      assert d * p <= n < d * 1;
      CancelFactor(d, p, 1);
    }
    if done == total {
      assert d * 100 <= n < d * (p + 1);
      CancelFactor(d, 100, p + 1);
    }
  }

  /** A positive factor can be cancelled from a strict inequality. */
  lemma CancelFactor(d: int, a: int, b: int)
    requires d > 0 && d * a < d * b
    ensures a < b
  {
    assert d * b - d * a == d * (b - a);
  }

  /** The completion percentage of a list. */
  function CompletionPercentage(l: seq<Item>): (p: int)
    ensures 0 <= p <= 100
    ensures |l| == 0 ==> p == 0
    ensures |l| > 0 && (forall i :: 0 <= i < |l| ==> l[i].completed) ==> p == 100
    ensures (forall i :: 0 <= i < |l| ==> !l[i].completed) ==> p == 0
  {
    Percentage(CompletedCount(l), |l|)
  }

  /** One more task done never lowers the percentage. */
  lemma PercentageMonotone(done: nat, total: nat)
    requires done < total
    ensures Percentage(done, total) <= Percentage(done + 1, total)
  {
    var a, b := 200 * done + total, 200 * (done + 1) + total;
    assert a <= b;
    DivMonotone(a, b, 2 * total);
  }

  lemma DivMonotone(a: int, b: int, m: int)
    requires 0 < m && a <= b
    ensures a / m <= b / m
  {
    var qa, qb := a / m, b / m;
    assert qa * m <= a && b < (qb + 1) * m;
  }
}
