/** The 4-punch daily cap policy of `checkStatus`: the next punch is chosen by
    how many logs the employee has today, and a fifth one is refused. The
    Scanner screen applies the same rule; the Kiosk screen applies it with a
    rejection. This policy and the 16-hour rotation of the scan endpoints are
    kept apart, as the code keeps them. */
module StatusController {
  import opened Common
  import opened Events
  import opened Classifier

  /** The labels offered for the first, second, third and fourth punch of a day. */
  const DayLabels: seq<string> := ["ENTRADA", "INICIO COLACIÓN", "TÉRMINO COLACIÓN", "SALIDA"]

  /** What is shown once four punches exist. */
  const CompleteLabel: string := "JORNADA COMPLETA"

  /** The screens' labels are the Spanish names of the day's punches, in order. */
  lemma DayLabelsFollowDayOrder(k: nat)
    requires k < 4
    ensures DayLabels[k] == Label(DayOrder[k])
  {
  }

  /** The next punch and whether the day is already complete. */
  datatype NextPunchInfo = NextPunchInfo(nextEvent: string, isComplete: bool)

  /** The choice for an employee who has `logCount` logs today. */
  function NextPunch(logCount: nat): (r: NextPunchInfo)
    ensures r.isComplete <==> logCount >= 4
    ensures r.isComplete <==> r.nextEvent == CompleteLabel
    ensures logCount < 4 ==> r.nextEvent == Label(DayOrder[logCount])
  {
    if logCount < 4 then NextPunchInfo(DayLabels[logCount], false)
    else NextPunchInfo(CompleteLabel, true)
  }

  /** The JSON body of `checkStatus`. */
  datatype StatusBody = StatusError(error: string) | StatusOk(name: string, nextEvent: string, isComplete: bool)

  const EmployeeNotFound: string := "Trabajador no encontrado"
  const LogsQueryFailed: string := "Error al consultar logs"

  /** `checkStatus`: `employeeName` is the lookup of the employee (None when the
      lookup fails or finds nobody), `todayLogs` the answer of the query for the
      employee's logs of today (only their types are selected). */
  function CheckStatus(employeeName: Option<string>, todayLogs: Query<seq<string>>): (reply: Reply<StatusBody>)
    ensures employeeName.None? ==> reply == Reply(404, StatusError(EmployeeNotFound))
    ensures employeeName.Some? && todayLogs.QueryError? ==> reply == Reply(500, StatusError(LogsQueryFailed))
    ensures employeeName.Some? && todayLogs.Rows? ==>
      reply.status == 200 && reply.body.StatusOk? && reply.body.name == employeeName.value
      && (reply.body.isComplete <==> |todayLogs.rows| >= 4)
      && (reply.body.isComplete <==> reply.body.nextEvent == CompleteLabel)
      && (|todayLogs.rows| < 4 ==> reply.body.nextEvent == Label(DayOrder[|todayLogs.rows|]))
  {
    match employeeName
    case None => Reply(404, StatusError(EmployeeNotFound))
    case Some(name) =>
      match todayLogs
      case QueryError(_) => Reply(500, StatusError(LogsQueryFailed))
      case Rows(logs) =>
        var info := NextPunch(|logs|);
        Reply(200, StatusOk(name, info.nextEvent, info.isComplete))
  }

  /** The answer depends on how many logs there are today, never on their types. */
  lemma CheckStatusCountsOnly(name: Option<string>, a: seq<string>, b: seq<string>)
    requires |a| == |b|
    ensures CheckStatus(name, Rows(a)) == CheckStatus(name, Rows(b))
  {
  }

  /** The two policies agree on the first four punches of a fresh day: when each
      punch is less than 16 hours after the previous one and the employee has no
      earlier history, the k-th punch gets from the rotation the type whose label
      the cap policy offers after k logs. */
  lemma {:induction false} PoliciesAgreeOnFirstFour(times: seq<int>, k: nat)
    requires Rapid(times) && k < |times| && k < 4
    ensures !NextPunch(k).isComplete
    ensures NextPunch(k).nextEvent == Label(ScanTypes(None, times)[k])
  {
    FirstShiftRotation(times, k);
  }

  /** They part at the fifth punch: the rotation starts a new ENTRY while the cap
      policy declares the day complete. */
  lemma {:induction false} PoliciesDifferAtFifth(times: seq<int>)
    requires Rapid(times) && |times| >= 5
    ensures ScanTypes(None, times)[4] == Entry
    ensures NextPunch(4).isComplete && NextPunch(4).nextEvent == CompleteLabel
  {
    FirstShiftRotation(times, 4);
  }
}
