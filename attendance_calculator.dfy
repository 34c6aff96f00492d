/** `AttendanceCalculator`: the working-day row derived from one day's logs,
    and the weekly sum of those rows. The store queries are not modelled: the
    day's logs (already filtered by employee and day and ordered by timestamp)
    and the week's rows arrive as their answers. */
module AttendanceCalculator {
  import opened Common
  import opened Clock
  import opened Events

  /** The daily cap on ordinary minutes (nine hours); the rest is overtime. */
  const OrdinaryCapMinutes: int := 540

  /** The minutes computed for one day. */
  datatype DayMinutes = DayMinutes(lunch: int, total: int, ordinary: int, overtime: int)

  /** The minute accounting of a day from its four stamps. Nothing is clamped at
      zero: a day whose exit precedes its entry has negative total and ordinary
      minutes, and no overtime. */
  function AccountDay(s: DayStamps): (m: DayMinutes)
    ensures m.lunch == (if s.lunchStart.Some? && s.lunchEnd.Some?
                        then DiffMinutes(s.lunchEnd.value, s.lunchStart.value) else 0)
    ensures s.entry.None? || s.exit.None? ==> m.total == 0
    ensures s.entry.Some? && s.exit.Some? ==> m.total == DiffMinutes(s.exit.value, s.entry.value) - m.lunch
    ensures m.ordinary <= OrdinaryCapMinutes
    ensures m.ordinary + m.overtime == m.total
    ensures m.overtime >= 0
    ensures m.overtime > 0 <==> m.total > OrdinaryCapMinutes
    ensures m.total <= OrdinaryCapMinutes ==> m.ordinary == m.total
    ensures m.total > OrdinaryCapMinutes ==> m.ordinary == OrdinaryCapMinutes && m.overtime == m.total - OrdinaryCapMinutes
  {
    var lunch := if s.lunchStart.Some? && s.lunchEnd.Some?
                 then DiffMinutes(s.lunchEnd.value, s.lunchStart.value) else 0;
    var total := if s.entry.Some? && s.exit.Some?
                 then DiffMinutes(s.exit.value, s.entry.value) - lunch else 0;
    var ordinary := if total < OrdinaryCapMinutes then total else OrdinaryCapMinutes;
    var overtime := if 0 < total - ordinary then total - ordinary else 0;
    DayMinutes(lunch, total, ordinary, overtime)
  }

  /** The `status` values of a working day. */
  datatype DayStatus = Present | Absent | License | Vacation

  /** One row of `working_days`, keyed by (employee_id, date). */
  datatype WorkingDayRow = WorkingDayRow(employeeId: string, date: string,
                                         actualEntryTime: Option<int>, actualExitTime: Option<int>,
                                         lunchMinutes: int, ordinaryMinutes: int, overtimeMinutes: int,
                                         status: DayStatus)

  /** The row `recalculateDay` writes for the day's logs. */
  function DayRow(employeeId: string, date: string, logs: seq<LogRow>): (row: WorkingDayRow)
    ensures row.employeeId == employeeId && row.date == date && row.status == Present
    ensures row.actualEntryTime == LastStamp(logs, Strict, Entry) && row.actualExitTime == LastStamp(logs, Strict, Exit)
    ensures row.ordinaryMinutes <= OrdinaryCapMinutes && row.overtimeMinutes >= 0
    ensures row.ordinaryMinutes + row.overtimeMinutes == AccountDay(StampsOf(logs, Strict)).total
    ensures var m := AccountDay(StampsOf(logs, Strict));
      row.lunchMinutes == m.lunch && row.ordinaryMinutes == m.ordinary && row.overtimeMinutes == m.overtime
  {
    var stamps := StampsOf(logs, Strict);
    var m := AccountDay(stamps);
    WorkingDayRow(employeeId, date, stamps.entry, stamps.exit, m.lunch, m.ordinary, m.overtime, Present)
  }

  /** The `forEach` callback: the `switch` on the exact type sets the stamp of
      that type; any other type is skipped. */
  method VisitLog(stamps: DayStamps, log: LogRow) returns (next: DayStamps)
    ensures next == DayStamps(Restamp(stamps.entry, log, Strict, Entry), Restamp(stamps.lunchStart, log, Strict, LunchStart),
                              Restamp(stamps.lunchEnd, log, Strict, LunchEnd), Restamp(stamps.exit, log, Strict, Exit))
  {
    next := stamps;
    if log.eventType == "ENTRY" {
      next := next.(entry := Some(log.timestamp));
    } else if log.eventType == "LUNCH_START" {
      next := next.(lunchStart := Some(log.timestamp));
    } else if log.eventType == "LUNCH_END" {
      next := next.(lunchEnd := Some(log.timestamp));
    } else if log.eventType == "EXIT" {
      next := next.(exit := Some(log.timestamp));
    }
  }

  /** `recalculateDay(employeeId, date)`: fold the day's logs into the last
      stamp of each type, account the minutes, and produce the row to upsert.
      A failed log query is thrown. */
  method RecalculateDay(employeeId: string, date: string, dayLogs: Query<seq<LogRow>>)
    returns (outcome: Result<WorkingDayRow>)
    ensures dayLogs.QueryError? ==> outcome == Err(dayLogs.message)
    ensures dayLogs.Rows? ==> outcome == Ok(DayRow(employeeId, date, dayLogs.rows))
    ensures outcome.Ok? ==> outcome.value.ordinaryMinutes <= OrdinaryCapMinutes && outcome.value.overtimeMinutes >= 0
  {
    if dayLogs.QueryError? {
      return Err(dayLogs.message);
    }
    var logs := dayLogs.rows;
    var stamps := DayStamps(None, None, None, None);
    for i := 0 to |logs|
      invariant stamps == StampsOf(logs[..i], Strict)
    {
      StampsStep(logs, i, Strict);
      stamps := VisitLog(stamps, logs[i]);
    }
    assert logs[..|logs|] == logs;
    var m := AccountDay(stamps);
    return Ok(WorkingDayRow(employeeId, date, stamps.entry, stamps.exit, m.lunch, m.ordinary, m.overtime, Present));
  }

  /** The day's figures are the last ENTRY, LUNCH_START, LUNCH_END and EXIT of the
      day; logs of any other type leave them untouched. */
  lemma DayRowIgnoresOtherTypes(employeeId: string, date: string, logs: seq<LogRow>, l: LogRow)
    requires ParseCode(l.eventType).None?
    ensures DayRow(employeeId, date, logs + [l]) == DayRow(employeeId, date, logs)
  {
    LastStampAppend(logs, l, Strict, Entry);
    LastStampAppend(logs, l, Strict, LunchStart);
    LastStampAppend(logs, l, Strict, LunchEnd);
    LastStampAppend(logs, l, Strict, Exit);
  }

  /** A later log of one of the four types overrides the earlier stamp of its type. */
  lemma DayRowLaterLogWins(employeeId: string, date: string, logs: seq<LogRow>, c: EventCode, t: int)
    ensures var row := DayRow(employeeId, date, logs + [LogRow(employeeId, Code(c), t)]);
      && (c == Entry ==> row.actualEntryTime == Some(t))
      && (c == Exit ==> row.actualExitTime == Some(t))
      && (c != Entry ==> row.actualEntryTime == LastStamp(logs, Strict, Entry))
      && (c != Exit ==> row.actualExitTime == LastStamp(logs, Strict, Exit))
  {
    var l := LogRow(employeeId, Code(c), t);
    LastStampAppend(logs, l, Strict, Entry);
    LastStampAppend(logs, l, Strict, Exit);
  }

  /** The table of working days, one row per (employee_id, date). */
  type DayKey = (string, string)

  /** The upsert on conflict (employee_id, date): the row replaces the row with
      its key, if any, and nothing else changes. */
  function Upsert(table: map<DayKey, WorkingDayRow>, row: WorkingDayRow): (t: map<DayKey, WorkingDayRow>)
    ensures t.Keys == table.Keys + {(row.employeeId, row.date)}
    ensures t[(row.employeeId, row.date)] == row
    ensures forall k :: k in table && k != (row.employeeId, row.date) ==> t[k] == table[k]
  {
    table[(row.employeeId, row.date) := row]
  }

  /** Recalculating a day again from the same logs leaves the table as it was after
      the first recalculation. */
  lemma RecalculationIsIdempotent(table: map<DayKey, WorkingDayRow>, employeeId: string, date: string, logs: seq<LogRow>)
    ensures var row := DayRow(employeeId, date, logs);
      Upsert(Upsert(table, row), row) == Upsert(table, row)
  {
  }

  // ---------------------------------------------------------------- weekly consolidation

  datatype WeekTotals = WeekTotals(ordinary: int, overtime: int)

  function Add(a: WeekTotals, b: WeekTotals): WeekTotals
  {
    WeekTotals(a.ordinary + b.ordinary, a.overtime + b.overtime)
  }

  function Totals(d: WorkingDayRow): WeekTotals
  {
    WeekTotals(d.ordinaryMinutes, d.overtimeMinutes)
  }

  /** `data.reduce(...)` from `{ordinary: 0, overtime: 0}`, left to right. */
  function Consolidate(days: seq<WorkingDayRow>): (t: WeekTotals)
    ensures |days| == 0 ==> t == WeekTotals(0, 0)
    ensures |days| == 1 ==> t == Totals(days[0])
    decreases |days|
  {
    if |days| == 0 then WeekTotals(0, 0)
    else Add(Consolidate(days[..|days| - 1]), Totals(days[|days| - 1]))
  }

  /** `getWeeklyConsolidation`: the sums over the week's rows; a failed query is thrown. */
  function GetWeeklyConsolidation(weekRows: Query<seq<WorkingDayRow>>): (r: Result<WeekTotals>)
    ensures weekRows.QueryError? ==> r == Err(weekRows.message)
    ensures weekRows.Rows? && weekRows.rows == [] ==> r == Ok(WeekTotals(0, 0))
    ensures weekRows.Rows? ==> r == Ok(Consolidate(weekRows.rows))
  {
    match weekRows
    case QueryError(message) => Err(message)
    case Rows(days) => Ok(Consolidate(days))
  }

  /** The sum of two stretches of days is the sum of their sums. */
  lemma {:induction false} ConsolidateAppend(a: seq<WorkingDayRow>, b: seq<WorkingDayRow>)
    ensures Consolidate(a + b) == Add(Consolidate(a), Consolidate(b))
    decreases |b|
  {
    if |b| == 0 {
      assert a + b == a;
    } else {
      var b' := b[..|b| - 1];
      assert (a + b)[..|a + b| - 1] == a + b';
      ConsolidateAppend(a, b');
    }
  }

  /** Taking one row out of a stretch takes its figures out of the sums. */
  lemma ConsolidateRemove(before: seq<WorkingDayRow>, x: WorkingDayRow, after: seq<WorkingDayRow>)
    ensures Consolidate(before + [x] + after) == Add(Consolidate(before + after), Totals(x))
  {
    ConsolidateAppend(before + [x], after);
    ConsolidateAppend(before, after);
    assert (before + [x])[..|before|] == before;
  }

  /** The order of the rows does not matter: any permutation gives the same sums. */
  lemma {:induction false} ConsolidatePermutation(a: seq<WorkingDayRow>, b: seq<WorkingDayRow>)
    requires multiset(a) == multiset(b)
    ensures Consolidate(a) == Consolidate(b)
    decreases |a|
  {
    if |a| == 0 {
      assert |b| == |multiset(b)| == 0;
    } else {
      var x := a[|a| - 1];
      var a' := a[..|a| - 1];
      assert a == a' + [x];
      assert x in multiset(b);
      var k :| 0 <= k < |b| && b[k] == x;
      var b' := b[..k] + b[k + 1..];
      assert b == b[..k] + [x] + b[k + 1..];
      assert multiset(a') == multiset(b') by {
        assert multiset(a) == multiset(a') + multiset{x};
        assert multiset(b) == multiset(b[..k]) + multiset([x]) + multiset(b[k + 1..]);
        assert multiset(b') == multiset(b[..k]) + multiset(b[k + 1..]);
        assert multiset([x]) == multiset{x};
        assert multiset(a') == multiset(a) - multiset{x};
        assert multiset(b') == multiset(b) - multiset{x};
      }
      ConsolidatePermutation(a', b');
      ConsolidateRemove(b[..k], x, b[k + 1..]);
    }
  }

  /** Summing rows that came out of the day accounting: the ordinary total is at
      most nine hours per row and the overtime total is never negative. */
  lemma {:induction false} ConsolidateBounds(days: seq<WorkingDayRow>)
    requires forall k :: 0 <= k < |days| ==> days[k].ordinaryMinutes <= OrdinaryCapMinutes && days[k].overtimeMinutes >= 0
    ensures Consolidate(days).ordinary <= OrdinaryCapMinutes * |days|
    ensures Consolidate(days).overtime >= 0
    decreases |days|
  {
    if |days| > 0 {
      ConsolidateBounds(days[..|days| - 1]);
    }
  }
}
