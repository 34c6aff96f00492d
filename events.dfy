/** The four punch types, the ways the code reads an `event_type` string, and
    the "last occurrence of each type" reading of a day's logs that both the
    day calculation and the live dashboard perform. */
module Events {
  import opened Common
  import opened Text

  /** The event types the server writes into `attendance_logs.event_type`. */
  datatype EventCode = Entry | LunchStart | LunchEnd | Exit

  /** The internal code stored in the log. */
  function Code(c: EventCode): string
  {
    match c
    case Entry => "ENTRY"
    case LunchStart => "LUNCH_START"
    case LunchEnd => "LUNCH_END"
    case Exit => "EXIT"
  }

  /** The Spanish label the screens show for the same event. */
  function Label(c: EventCode): string
  {
    match c
    case Entry => "ENTRADA"
    case LunchStart => "INICIO COLACIÓN"
    case LunchEnd => "TÉRMINO COLACIÓN"
    case Exit => "SALIDA"
  }

  /** The order of the punches of one working day. */
  const DayOrder: seq<EventCode> := [Entry, LunchStart, LunchEnd, Exit]

  /** Where an event stands in the day. */
  function Position(c: EventCode): (k: nat)
    ensures k < 4 && DayOrder[k] == c
  {
    match c
    case Entry => 0
    case LunchStart => 1
    case LunchEnd => 2
    case Exit => 3
  }

  /** The event that follows `c` in the daily rotation. */
  function Next(c: EventCode): (n: EventCode)
    ensures n == DayOrder[(Position(c) + 1) % 4]
  {
    match c
    case Entry => LunchStart
    case LunchStart => LunchEnd
    case LunchEnd => Exit
    case Exit => Entry
  }

  /** The server's reading of `event_type`: the four exact internal codes, nothing else. */
  function ParseCode(s: string): (r: Option<EventCode>)
    ensures forall c :: r == Some(c) <==> s == Code(c)
  {
    if s == "ENTRY" then Some(Entry)
    else if s == "LUNCH_START" then Some(LunchStart)
    else if s == "LUNCH_END" then Some(LunchEnd)
    else if s == "EXIT" then Some(Exit)
    else None
  }

  /** The dashboard's reading of `event_type`: upper-cased, then either the
      internal code or the Spanish label. */
  function Normalize(s: string): (r: Option<EventCode>)
    ensures forall c :: r == Some(c) <==> ToUpper(s) == Code(c) || ToUpper(s) == Label(c)
  {
    var u := ToUpper(s);
    if u == "ENTRY" || u == "ENTRADA" then Some(Entry)
    else if u == "LUNCH_START" || u == "INICIO COLACIÓN" then Some(LunchStart)
    else if u == "LUNCH_END" || u == "TÉRMINO COLACIÓN" then Some(LunchEnd)
    else if u == "EXIT" || u == "SALIDA" then Some(Exit)
    else None
  }

  /** Normalisation ignores case: texts equal up to upper case read the same. */
  lemma NormalizeIgnoresCase(s: string, t: string)
    requires ToUpper(s) == ToUpper(t)
    ensures Normalize(s) == Normalize(t)
  {
  }

  /** The dashboard recognises every internal code and every label as its event. */
  lemma NormalizeCodesAndLabels(c: EventCode)
    ensures Normalize(Code(c)) == Some(c)
    ensures Normalize(Label(c)) == Some(c)
  {
    ToUpperOfUpper(Code(c));
    ToUpperOfUpper(Label(c));
  }

  /** Which of the two readings applies. */
  datatype Reading = Strict | Lenient

  function Read(reading: Reading, s: string): Option<EventCode>
  {
    match reading
    case Strict => ParseCode(s)
    case Lenient => Normalize(s)
  }

  /** One row of `attendance_logs` as the day calculation and the dashboard see it. */
  datatype LogRow = LogRow(employeeId: string, eventType: string, timestamp: int)

  /** Whether a log reads as the event `c`. */
  predicate IsEvent(reading: Reading, l: LogRow, c: EventCode)
  {
    Read(reading, l.eventType) == Some(c)
  }

  /** The index of the last log before position `n` that satisfies `p`, or -1
      when there is none: the search both day walks perform backwards. */
  function LastWhere(logs: seq<LogRow>, p: LogRow -> bool, n: nat): (i: int)
    requires n <= |logs|
    ensures -1 <= i < n
    ensures i >= 0 ==> p(logs[i])
    ensures forall j :: i < j < n ==> !p(logs[j])
    decreases n
  {
    if n == 0 then -1
    else if p(logs[n - 1]) then n - 1
    else LastWhere(logs, p, n - 1)
  }

  /** Those three properties single the index out. */
  lemma LastWhereUnique(logs: seq<LogRow>, p: LogRow -> bool, i: int)
    requires -1 <= i < |logs|
    requires i >= 0 ==> p(logs[i])
    requires forall j :: i < j < |logs| ==> !p(logs[j])
    ensures i == LastWhere(logs, p, |logs|)
  {
    var r := LastWhere(logs, p, |logs|);
  }

  /** The index of the last log that reads as `c`, or -1 when there is none. */
  function LastIndex(logs: seq<LogRow>, reading: Reading, c: EventCode): (i: int)
    ensures -1 <= i < |logs|
    ensures i >= 0 ==> IsEvent(reading, logs[i], c)
    ensures forall j :: i < j < |logs| ==> !IsEvent(reading, logs[j], c)
  {
    LastWhere(logs, (l: LogRow) => IsEvent(reading, l, c), |logs|)
  }

  /** Those three properties single the index out. */
  lemma LastIndexUnique(logs: seq<LogRow>, reading: Reading, c: EventCode, i: int)
    requires -1 <= i < |logs|
    requires i >= 0 ==> IsEvent(reading, logs[i], c)
    requires forall j :: i < j < |logs| ==> !IsEvent(reading, logs[j], c)
    ensures i == LastIndex(logs, reading, c)
  {
    LastWhereUnique(logs, (l: LogRow) => IsEvent(reading, l, c), i);
  }

  /** The timestamp of the last log in `logs` that reads as `c`, if any. */
  function LastStamp(logs: seq<LogRow>, reading: Reading, c: EventCode): Option<int>
  {
    var i := LastIndex(logs, reading, c);
    if i < 0 then None else Some(logs[i].timestamp)
  }

  /** A stamp after visiting `l`: the log's instant when it reads as `c`, the
      earlier stamp otherwise. */
  function Restamp(stamp: Option<int>, l: LogRow, reading: Reading, c: EventCode): Option<int>
  {
    if IsEvent(reading, l, c) then Some(l.timestamp) else stamp
  }

  /** Whether a log reads as any of the four events. */
  predicate IsRecognised(reading: Reading, l: LogRow)
  {
    Read(reading, l.eventType).Some?
  }

  /** The index of the last log that reads as one of the four events, or -1. */
  function LastRecognisedIndex(logs: seq<LogRow>, reading: Reading): (i: int)
    ensures -1 <= i < |logs|
    ensures i >= 0 ==> IsRecognised(reading, logs[i])
    ensures forall j :: i < j < |logs| ==> !IsRecognised(reading, logs[j])
  {
    LastWhere(logs, (l: LogRow) => IsRecognised(reading, l), |logs|)
  }

  /** Those three properties single the index out. */
  lemma LastRecognisedUnique(logs: seq<LogRow>, reading: Reading, i: int)
    requires -1 <= i < |logs|
    requires i >= 0 ==> IsRecognised(reading, logs[i])
    requires forall j :: i < j < |logs| ==> !IsRecognised(reading, logs[j])
    ensures i == LastRecognisedIndex(logs, reading)
  {
    LastWhereUnique(logs, (l: LogRow) => IsRecognised(reading, l), i);
  }

  /** The last event of the day that reads as one of the four, if any. */
  function LastRecognised(logs: seq<LogRow>, reading: Reading): Option<EventCode>
  {
    var i := LastRecognisedIndex(logs, reading);
    if i < 0 then None else Read(reading, logs[i].eventType)
  }

  /** Appending a log changes the last stamp of its own type only. */
  lemma LastStampAppend(logs: seq<LogRow>, l: LogRow, reading: Reading, c: EventCode)
    ensures LastStamp(logs + [l], reading, c)
      == if Read(reading, l.eventType) == Some(c) then Some(l.timestamp) else LastStamp(logs, reading, c)
  {
    var all := logs + [l];
    var r := LastIndex(all, reading, c);
    if !IsEvent(reading, l, c) {
      forall j | r < j < |logs| ensures !IsEvent(reading, logs[j], c) {
        assert all[j] == logs[j];
      }
      if r >= 0 {
        assert all[r] == logs[r];
      }
      LastIndexUnique(logs, reading, c, r);
    } else {
      assert all[|logs|] == l;
    }
  }

  /** Appending a log makes it the last recognised event exactly when it is recognised. */
  lemma LastRecognisedAppend(logs: seq<LogRow>, l: LogRow, reading: Reading)
    ensures LastRecognised(logs + [l], reading)
      == if IsRecognised(reading, l) then Read(reading, l.eventType) else LastRecognised(logs, reading)
  {
    var all := logs + [l];
    var r := LastRecognisedIndex(all, reading);
    if !IsRecognised(reading, l) {
      forall j | r < j < |logs| ensures !IsRecognised(reading, logs[j]) {
        assert all[j] == logs[j];
      }
      if r >= 0 {
        assert all[r] == logs[r];
      }
      LastRecognisedUnique(logs, reading, r);
    } else {
      assert all[|logs|] == l;
    }
  }

  /** In a list ordered by time, the last occurrence of a type is also its latest instant. */
  lemma LastStampIsLatest(logs: seq<LogRow>, reading: Reading, c: EventCode, k: nat)
    requires forall i, j :: 0 <= i < j < |logs| ==> logs[i].timestamp <= logs[j].timestamp
    requires k < |logs| && Read(reading, logs[k].eventType) == Some(c)
    ensures LastStamp(logs, reading, c).Some?
    ensures logs[k].timestamp <= LastStamp(logs, reading, c).value
  {
    var i := LastIndex(logs, reading, c);
    assert IsEvent(reading, logs[k], c);
    assert k <= i;
    if k < i {
      assert logs[k].timestamp <= logs[i].timestamp;
    }
  }

  /** The four stamps of one day, each the last occurrence of its type. */
  datatype DayStamps = DayStamps(entry: Option<int>, lunchStart: Option<int>, lunchEnd: Option<int>, exit: Option<int>)

  function StampsOf(logs: seq<LogRow>, reading: Reading): DayStamps
  {
    DayStamps(LastStamp(logs, reading, Entry), LastStamp(logs, reading, LunchStart),
              LastStamp(logs, reading, LunchEnd), LastStamp(logs, reading, Exit))
  }

  /** On logs written by the server (internal codes only) both readings agree. */
  lemma ReadingsAgreeOnCodes(logs: seq<LogRow>, c: EventCode)
    requires forall k :: 0 <= k < |logs| ==> ParseCode(logs[k].eventType).Some?
    ensures LastStamp(logs, Lenient, c) == LastStamp(logs, Strict, c)
  {
    forall j | 0 <= j < |logs| ensures IsEvent(Lenient, logs[j], c) == IsEvent(Strict, logs[j], c) {
      var d := ParseCode(logs[j].eventType).value;
      NormalizeCodesAndLabels(d);
    }
    LastIndexUnique(logs, Lenient, c, LastIndex(logs, Strict, c));
  }

  /** Appending a log restamps each of the four types by that log alone. */
  lemma StampsAppend(logs: seq<LogRow>, l: LogRow, reading: Reading)
    ensures StampsOf(logs + [l], reading)
      == DayStamps(Restamp(LastStamp(logs, reading, Entry), l, reading, Entry),
                   Restamp(LastStamp(logs, reading, LunchStart), l, reading, LunchStart),
                   Restamp(LastStamp(logs, reading, LunchEnd), l, reading, LunchEnd),
                   Restamp(LastStamp(logs, reading, Exit), l, reading, Exit))
  {
    LastStampAppend(logs, l, reading, Entry);
    LastStampAppend(logs, l, reading, LunchStart);
    LastStampAppend(logs, l, reading, LunchEnd);
    LastStampAppend(logs, l, reading, Exit);
  }

  /** The same step over a prefix: log `i` restamps its own type in the stamps
      of the first `i` logs. */
  lemma StampsStep(logs: seq<LogRow>, i: nat, reading: Reading)
    requires i < |logs|
    ensures StampsOf(logs[..i + 1], reading)
         == var s, l := StampsOf(logs[..i], reading), logs[i];
            DayStamps(Restamp(s.entry, l, reading, Entry), Restamp(s.lunchStart, l, reading, LunchStart),
                      Restamp(s.lunchEnd, l, reading, LunchEnd), Restamp(s.exit, l, reading, Exit))
  {
    var prefix, l := logs[..i], logs[i];
    assert logs[..i + 1] == prefix + [l];
    StampsAppend(prefix, l, reading);
  }
}
