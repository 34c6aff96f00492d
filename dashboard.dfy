/** The live status board: each active employee's state today, the minutes
    worked so far, the lunch status, and the summary counts. The two store
    queries are not modelled: the employees and today's logs (ordered by time)
    arrive as their answers; the current instant `now` is a parameter. */
module Dashboard {
  import opened Common
  import opened Text
  import opened Clock
  import opened Events
  import opened AttendanceCalculator

  /** The states the board shows. */
  datatype WorkerState = Inactivo | Activo | Colacion | Finalizado

  /** The state an event leaves the worker in. */
  function StateAfter(c: EventCode): (s: WorkerState)
    ensures s == Activo <==> c == Entry || c == LunchEnd
    ensures s == Colacion <==> c == LunchStart
    ensures s == Finalizado <==> c == Exit
  {
    match c
    case Entry => Activo
    case LunchStart => Colacion
    case LunchEnd => Activo
    case Exit => Finalizado
  }

  /** The state after a day's logs: the last recognised event decides it, and a
      day without one is INACTIVO. */
  function StateOf(logs: seq<LogRow>): (s: WorkerState)
    ensures s == Inactivo <==> LastRecognised(logs, Lenient).None?
  {
    match LastRecognised(logs, Lenient)
    case None => Inactivo
    case Some(c) => StateAfter(c)
  }

  /** A recognised log sets the state; any other log leaves it. */
  lemma StateAppend(logs: seq<LogRow>, l: LogRow)
    ensures StateOf(logs + [l]) == match Normalize(l.eventType) case None => StateOf(logs) case Some(c) => StateAfter(c)
  {
    LastRecognisedAppend(logs, l, Lenient);
  }

  /** An employee as the board selects it. */
  datatype BoardEmployee = BoardEmployee(id: string, fullName: string, rut: string)

  /** `logs.filter(l => l.employee_id === emp.id)`. */
  function LogsOf(logs: seq<LogRow>, id: string): (mine: seq<LogRow>)
    ensures |mine| <= |logs|
    ensures forall k :: 0 <= k < |mine| ==> mine[k].employeeId == id
    ensures forall l :: l in mine <==> l in logs && l.employeeId == id
    decreases |logs|
  {
    if |logs| == 0 then []
    else
      var init := LogsOf(logs[..|logs| - 1], id);
      if logs[|logs| - 1].employeeId == id then init + [logs[|logs| - 1]] else init
  }

  /** The filter keeps the order of the logs: a new log is kept at the end
      when it is the employee's, and dropped otherwise. */
  lemma LogsOfAppend(logs: seq<LogRow>, l: LogRow, id: string)
    ensures LogsOf(logs + [l], id) == LogsOf(logs, id) + (if l.employeeId == id then [l] else [])
  {
    assert (logs + [l])[..|logs|] == logs;
  }

  /** Minutes worked so far: nothing before an entry; otherwise from the entry to
      the exit (or to `now`), less a finished lunch, or less the lunch under way
      when there is no exit yet. */
  function LiveMinutes(s: DayStamps, now: int): (m: int)
    ensures s.entry.None? ==> m == 0
    ensures s.entry.Some? && s.lunchStart.Some? && s.lunchEnd.Some? ==>
      m == DiffMinutes(if s.exit.Some? then s.exit.value else now, s.entry.value)
           - DiffMinutes(s.lunchEnd.value, s.lunchStart.value)
    ensures s.entry.Some? && s.lunchStart.None? ==>
      m == DiffMinutes(if s.exit.Some? then s.exit.value else now, s.entry.value)
    ensures s.entry.Some? && s.lunchStart.Some? && s.lunchEnd.None? && s.exit.None? ==>
      m == DiffMinutes(now, s.entry.value) - DiffMinutes(now, s.lunchStart.value)
    ensures s.entry.Some? && s.lunchStart.Some? && s.lunchEnd.None? && s.exit.Some? ==>
      m == DiffMinutes(s.exit.value, s.entry.value)
  {
    if s.entry.None? then 0
    else
      var end := if s.exit.Some? then s.exit.value else now;
      var worked := DiffMinutes(end, s.entry.value);
      if s.lunchStart.Some? && s.lunchEnd.Some? then worked - DiffMinutes(s.lunchEnd.value, s.lunchStart.value)
      else if s.lunchStart.Some? && s.lunchEnd.None? && s.exit.None? then worked - DiffMinutes(now, s.lunchStart.value)
      else worked
  }

  /** Once the exit is stamped the live figure no longer moves with the clock. */
  lemma FinishedDayIgnoresNow(s: DayStamps, now: int, later: int)
    requires s.exit.Some?
    ensures LiveMinutes(s, now) == LiveMinutes(s, later)
  {
  }

  /** With an entry and an exit, the live figure is the total the day calculation
      stores for the same stamps. */
  lemma LiveMinutesMatchDayTotal(s: DayStamps, now: int)
    requires s.entry.Some? && s.exit.Some?
    ensures LiveMinutes(s, now) == AccountDay(s).total
  {
  }

  /** On logs written by the server, the board's live figure for a closed day is
      the stored total of that day. */
  lemma BoardAgreesWithCalculator(logs: seq<LogRow>, now: int)
    requires forall k :: 0 <= k < |logs| ==> ParseCode(logs[k].eventType).Some?
    requires LastStamp(logs, Strict, Entry).Some? && LastStamp(logs, Strict, Exit).Some?
    ensures LiveMinutes(StampsOf(logs, Lenient), now) == AccountDay(StampsOf(logs, Strict)).total
  {
    ReadingsAgreeOnCodes(logs, Entry);
    ReadingsAgreeOnCodes(logs, LunchStart);
    ReadingsAgreeOnCodes(logs, LunchEnd);
    ReadingsAgreeOnCodes(logs, Exit);
    assert StampsOf(logs, Lenient) == StampsOf(logs, Strict);
    LiveMinutesMatchDayTotal(StampsOf(logs, Strict), now);
  }

  /** The lunch column. */
  function LunchStatus(lunchStart: Option<int>, lunchEnd: Option<int>): (r: string)
    ensures lunchStart.None? <==> r == "N/A"
    ensures r == "Completada" <==> lunchStart.Some? && lunchEnd.Some?
    ensures r == "En proceso" <==> lunchStart.Some? && lunchEnd.None?
  {
    if lunchStart.Some? then (if lunchEnd.Some? then "Completada" else "En proceso") else "N/A"
  }

  /** One line of the board. */
  datatype WorkerStatus = WorkerStatus(employee: BoardEmployee, state: WorkerState,
                                       entryTime: Option<int>, exitTime: Option<int>,
                                       lunchStatus: string, liveMinutes: int)

  /** What the board shows for one employee, given that employee's logs of today. */
  function StatusOf(emp: BoardEmployee, empLogs: seq<LogRow>, now: int): WorkerStatus
  {
    var s := StampsOf(empLogs, Lenient);
    WorkerStatus(emp, StateOf(empLogs), s.entry, s.exit, LunchStatus(s.lunchStart, s.lunchEnd), LiveMinutes(s, now))
  }

  /** The board's four tests on the upper-cased type are the normalised reading. */
  lemma BoardTests(eventType: string)
    ensures var u := ToUpper(eventType);
      && ((u == "ENTRY" || u == "ENTRADA") <==> Normalize(eventType) == Some(Entry))
      && ((u == "LUNCH_START" || u == "INICIO COLACIÓN") <==> Normalize(eventType) == Some(LunchStart))
      && ((u == "LUNCH_END" || u == "TÉRMINO COLACIÓN") <==> Normalize(eventType) == Some(LunchEnd))
      && ((u == "EXIT" || u == "SALIDA") <==> Normalize(eventType) == Some(Exit))
  {
  }

  /** The `forEach` callback: the four tests on the upper-cased type, each
      setting the stamp of its type and the state. */
  method VisitLog(currentState: WorkerState, stamps: DayStamps, l: LogRow)
    returns (nextState: WorkerState, nextStamps: DayStamps)
    ensures nextState == (match Normalize(l.eventType) case None => currentState case Some(c) => StateAfter(c))
    ensures nextStamps == DayStamps(Restamp(stamps.entry, l, Lenient, Entry), Restamp(stamps.lunchStart, l, Lenient, LunchStart),
                                    Restamp(stamps.lunchEnd, l, Lenient, LunchEnd), Restamp(stamps.exit, l, Lenient, Exit))
  {
    nextState, nextStamps := currentState, stamps;
    var event := ToUpper(l.eventType);
    BoardTests(l.eventType);
    if event == "ENTRY" || event == "ENTRADA" {
      nextStamps := nextStamps.(entry := Some(l.timestamp));
      nextState := Activo;
    }
    if event == "LUNCH_START" || event == "INICIO COLACIÓN" {
      nextStamps := nextStamps.(lunchStart := Some(l.timestamp));
      nextState := Colacion;
    }
    if event == "LUNCH_END" || event == "TÉRMINO COLACIÓN" {
      nextStamps := nextStamps.(lunchEnd := Some(l.timestamp));
      nextState := Activo;
    }
    if event == "EXIT" || event == "SALIDA" {
      nextStamps := nextStamps.(exit := Some(l.timestamp));
      nextState := Finalizado;
    }
  }

  /** One step of the walk, for the state: the state after the first `i + 1`
      logs is the state after the first `i`, moved on by log `i`. */
  lemma StateStep(empLogs: seq<LogRow>, i: nat)
    requires i < |empLogs|
    ensures StateOf(empLogs[..i + 1])
         == match Normalize(empLogs[i].eventType) case None => StateOf(empLogs[..i]) case Some(c) => StateAfter(c)
  {
    var prefix, l := empLogs[..i], empLogs[i];
    assert empLogs[..i + 1] == prefix + [l];
    StateAppend(prefix, l);
  }

  /** The walk over one employee's logs: each recognised log sets the state and
      the stamp of its type. */
  method FoldLogs(empLogs: seq<LogRow>) returns (currentState: WorkerState, stamps: DayStamps)
    ensures currentState == StateOf(empLogs)
    ensures stamps == StampsOf(empLogs, Lenient)
  {
    currentState := Inactivo;
    stamps := DayStamps(None, None, None, None);
    for i := 0 to |empLogs|
      invariant currentState == StateOf(empLogs[..i])
      invariant stamps == StampsOf(empLogs[..i], Lenient)
    {
      StateStep(empLogs, i);
      StampsStep(empLogs, i, Lenient);
      currentState, stamps := VisitLog(currentState, stamps, empLogs[i]);
    }
    assert empLogs[..|empLogs|] == empLogs;
  }

  /** The minutes so far, worked out as the board does it: the span first, then
      the lunch taken off. */
  method MinutesSoFar(stamps: DayStamps, now: int) returns (totalMinutes: int)
    ensures totalMinutes == LiveMinutes(stamps, now)
  {
    totalMinutes := 0;
    if stamps.entry.Some? {
      var endRange := if stamps.exit.Some? then stamps.exit.value else now;
      totalMinutes := DiffMinutes(endRange, stamps.entry.value);
      if stamps.lunchStart.Some? && stamps.lunchEnd.Some? {
        totalMinutes := totalMinutes - DiffMinutes(stamps.lunchEnd.value, stamps.lunchStart.value);
      } else if stamps.lunchStart.Some? && stamps.lunchEnd.None? && stamps.exit.None? {
        totalMinutes := totalMinutes - DiffMinutes(now, stamps.lunchStart.value);
      }
    }
  }

  /** The per-employee pass: the walk over the logs, then the minutes so far. */
  method EmployeeStatus(emp: BoardEmployee, empLogs: seq<LogRow>, now: int) returns (w: WorkerStatus)
    ensures w == StatusOf(emp, empLogs, now)
  {
    var currentState, stamps := FoldLogs(empLogs);
    var totalMinutes := MinutesSoFar(stamps, now);
    w := WorkerStatus(emp, currentState, stamps.entry, stamps.exit,
                      LunchStatus(stamps.lunchStart, stamps.lunchEnd), totalMinutes);
  }

  /** `xs.map(f)`. */
  function MapSeq(f: BoardEmployee -> WorkerStatus, xs: seq<BoardEmployee>): (ys: seq<WorkerStatus>)
    ensures |ys| == |xs|
    decreases |xs|
  {
    if |xs| == 0 then [] else MapSeq(f, xs[..|xs| - 1]) + [f(xs[|xs| - 1])]
  }

  /** The k-th element of a map is the function at the k-th element. */
  lemma {:induction false} MapSeqAt(f: BoardEmployee -> WorkerStatus, xs: seq<BoardEmployee>, k: nat)
    requires k < |xs|
    ensures MapSeq(f, xs)[k] == f(xs[k])
    decreases |xs|
  {
    var init := xs[..|xs| - 1];
    if k < |init| {
      MapSeqAt(f, init, k);
      assert init[k] == xs[k];
    }
  }

  /** `employees.map(...)`: one line per employee, in the employees' order. */
  function StatusMap(employees: seq<BoardEmployee>, logs: seq<LogRow>, now: int): (ws: seq<WorkerStatus>)
    ensures |ws| == |employees|
  {
    MapSeq((emp: BoardEmployee) => StatusOf(emp, LogsOf(logs, emp.id), now), employees)
  }

  /** Mapping one more employee adds that employee's line at the end. */
  lemma StatusMapExtend(employees: seq<BoardEmployee>, logs: seq<LogRow>, now: int, i: nat)
    requires i < |employees|
    ensures StatusMap(employees[..i + 1], logs, now)
         == StatusMap(employees[..i], logs, now) + [StatusOf(employees[i], LogsOf(logs, employees[i].id), now)]
  {
    assert employees[..i + 1][..i] == employees[..i];
  }

  /** The k-th line of the board is the k-th employee's status, computed from
      that employee's own logs only. */
  lemma StatusMapLine(employees: seq<BoardEmployee>, logs: seq<LogRow>, now: int, k: nat)
    requires k < |employees|
    ensures StatusMap(employees, logs, now)[k] == StatusOf(employees[k], LogsOf(logs, employees[k].id), now)
  {
    MapSeqAt((emp: BoardEmployee) => StatusOf(emp, LogsOf(logs, emp.id), now), employees, k);
  }

  /** The pass over all employees, one line each. */
  method BuildStatusMap(employees: seq<BoardEmployee>, logs: seq<LogRow>, now: int) returns (statusMap: seq<WorkerStatus>)
    ensures statusMap == StatusMap(employees, logs, now)
  {
    statusMap := [];
    for i := 0 to |employees|
      invariant statusMap == StatusMap(employees[..i], logs, now)
    {
      var w := EmployeeStatus(employees[i], LogsOf(logs, employees[i].id), now);
      StatusMapExtend(employees, logs, now, i);
      statusMap := statusMap + [w];
    }
    assert employees[..|employees|] == employees;
  }

  /** How many lines show one of the given states. */
  function CountIn(ws: seq<WorkerStatus>, states: set<WorkerState>): (n: nat)
    ensures n <= |ws|
    decreases |ws|
  {
    if |ws| == 0 then 0
    else CountIn(ws[..|ws| - 1], states) + (if ws[|ws| - 1].state in states then 1 else 0)
  }

  /** The summary cards. */
  datatype Stats = Stats(total: nat, present: nat, inLunch: nat, inactive: nat)

  /** `setStats(...)`: the number of employees, and the lines ACTIVO, COLACIÓN and
      INACTIVO or FINALIZADO. */
  function StatsOf(employees: seq<BoardEmployee>, statusMap: seq<WorkerStatus>): (st: Stats)
    ensures st.total == |employees|
    ensures st.present == CountIn(statusMap, {Activo}) && st.inLunch == CountIn(statusMap, {Colacion})
    ensures st.inactive == CountIn(statusMap, {Inactivo, Finalizado})
    ensures st.present <= |statusMap| && st.inLunch <= |statusMap| && st.inactive <= |statusMap|
  {
    Stats(|employees|, CountIn(statusMap, {Activo}), CountIn(statusMap, {Colacion}),
          CountIn(statusMap, {Inactivo, Finalizado}))
  }

  /** Counts over disjoint sets of states add up to the count over their union. */
  lemma {:induction false} CountInUnion(ws: seq<WorkerStatus>, a: set<WorkerState>, b: set<WorkerState>)
    requires a !! b
    ensures CountIn(ws, a) + CountIn(ws, b) == CountIn(ws, a + b)
    decreases |ws|
  {
    if |ws| > 0 {
      CountInUnion(ws[..|ws| - 1], a, b);
    }
  }

  /** Every line is counted under exactly one state. */
  /** A count is zero exactly when no line is in the states, and the number of
      lines exactly when every line is. */
  lemma {:induction false} CountInExtremes(ws: seq<WorkerStatus>, states: set<WorkerState>)
    ensures CountIn(ws, states) == 0 <==> forall k :: 0 <= k < |ws| ==> ws[k].state !in states
    ensures CountIn(ws, states) == |ws| <==> forall k :: 0 <= k < |ws| ==> ws[k].state in states
    decreases |ws|
  {
    if |ws| > 0 {
      var init := ws[..|ws| - 1];
      CountInExtremes(init, states);
      assert forall k :: 0 <= k < |init| ==> init[k] == ws[k];
    }
  }

  lemma {:induction false} CountInAll(ws: seq<WorkerStatus>)
    ensures CountIn(ws, {Inactivo, Activo, Colacion, Finalizado}) == |ws|
    decreases |ws|
  {
    if |ws| > 0 {
      CountInAll(ws[..|ws| - 1]);
      var s := ws[|ws| - 1].state;
      assert s in {Inactivo, Activo, Colacion, Finalizado} by {
        match s
        case Inactivo =>
        case Activo =>
        case Colacion =>
        case Finalizado =>
      }
    }
  }

  /** The three state cards partition the workforce: present, at lunch and
      inactive add up to the total. */
  lemma StatsPartition(employees: seq<BoardEmployee>, statusMap: seq<WorkerStatus>)
    requires |statusMap| == |employees|
    ensures var st := StatsOf(employees, statusMap);
      st.present + st.inLunch + st.inactive == st.total
  {
    CountInUnion(statusMap, {Activo}, {Colacion});
    assert {Activo} + {Colacion} == {Activo, Colacion};
    CountInUnion(statusMap, {Activo, Colacion}, {Inactivo, Finalizado});
    assert {Activo, Colacion} + {Inactivo, Finalizado} == {Inactivo, Activo, Colacion, Finalizado};
    CountInAll(statusMap);
  }
}
