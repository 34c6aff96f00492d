/** The punch registration flow shared by the Express controller `scanQR` and the
    serverless scan endpoint, and the report listing `getReports`.
    The store is not modelled: each store call is recorded as a step, and its
    answer arrives in `StoreAnswers`. The hash digest and the rendered date and
    hour of the ticket arrive as parameters. */
module AttendanceController {
  import opened Common
  import opened Text
  import opened Events
  import opened Classifier
  import opened TicketGenerator
  import opened AttendanceCalculator

  /** The body of a scan request: the employee id, the coordinates, the raw ISO
      timestamp text, and the instant that text denotes. */
  datatype ScanRequest = ScanRequest(employeeId: string, lat: JsValue, lng: JsValue, stamp: string, instant: int)

  /** The employee row the lookup returns. */
  datatype Employee = Employee(id: string, fullName: string, rut: string)

  /** The row inserted into `attendance_logs`. */
  datatype NewLog = NewLog(employeeId: string, eventType: string, stamp: string, lat: JsValue, lng: JsValue, hash: string)

  /** The store calls of one registration, in the order they are made. */
  datatype StoreStep =
    | LookupEmployee(id: string)
    | ReadLastLog(id: string)
    | InsertLog(row: NewLog)
    | Recalculate(id: string)

  /** What the store answers to each call: the employee (None when the lookup
      fails or finds nobody), the last-log query (newest first, at most one row),
      the id of the inserted log, and whether the day recalculation threw (with
      the error's message, empty when it has none). */
  datatype StoreAnswers = StoreAnswers(employee: Option<Employee>, lastLogs: Query<seq<PriorLog>>,
                                       insert: Query<string>, recalc: Option<string>)

  /** The JSON body of a scan reply. */
  datatype ScanBody = ScanError(error: string) | Registered(message: string, ticket: string, hash: string)

  /** How the flow ends: a reply it sends itself, or an error thrown out of it. */
  datatype Flow = Answered(reply: Reply<ScanBody>) | Thrown(message: string)

  /** The end of the flow and the store calls it made. */
  datatype Handled = Handled(flow: Flow, steps: seq<StoreStep>)

  const EmployeeNotFound: string := "Trabajador no encontrado"
  const HistoryQueryFailed: string := "Error al consultar historial"
  const SaveFailed: string := "Error al guardar la marca"

  /** `lastLogs?.[0]`: the newest log, if the query returned any. */
  function LastLogOf(rows: seq<PriorLog>): (r: Option<PriorLog>)
    ensures r.None? <==> |rows| == 0
    ensures r.Some? ==> r.value == rows[0]
  {
    if |rows| == 0 then None else Some(rows[0])
  }

  /** The confirmation message of a registered punch. */
  function RegisteredMessage(eventType: string): string
  {
    "Evento " + eventType + " registrado con éxito"
  }

  /** How the ticket text is made from the company, the worker and the punch. */
  type TicketFormatter = (CompanyInfo, WorkerInfo, LogInfo) -> string

  /** `formatTicket` with the punch's date and hour already rendered. */
  function TicketFormat(dateText: string, timeText: string): TicketFormatter
  {
    (company, worker, log) => FormatTicket(company, worker, log, dateText, timeText)
  }

  /** One registration: look the employee up, read the last log, classify the
      punch, hash it, insert it, recalculate the day and issue the ticket. */
  function RegisterScan(company: CompanyInfo, req: ScanRequest, answers: StoreAnswers,
                        digest: string -> string, format: TicketFormatter): (h: Handled)
    ensures |h.steps| >= 1 && h.steps[0] == LookupEmployee(req.employeeId)
    ensures answers.employee.None? ==>
      h == Handled(Answered(Reply(404, ScanError(EmployeeNotFound))), [LookupEmployee(req.employeeId)])
    ensures answers.employee.Some? && answers.lastLogs.QueryError? ==>
      h == Handled(Answered(Reply(500, ScanError(HistoryQueryFailed))),
                   [LookupEmployee(req.employeeId), ReadLastLog(req.employeeId)])
    ensures forall k :: 0 <= k < |h.steps| && h.steps[k].InsertLog? ==>
      answers.employee.Some? && answers.lastLogs.Rows? && k == 2
    ensures forall k :: 0 <= k < |h.steps| && h.steps[k].Recalculate? ==>
      answers.employee.Some? && answers.lastLogs.Rows? && answers.insert.Rows? && k == 3
    ensures answers.employee.Some? && answers.lastLogs.Rows? ==>
      var e := answers.employee.value;
      var t := Code(Classify(LastLogOf(answers.lastLogs.rows), req.instant));
      var hash := GenerateHash(digest, e.rut, req.stamp, req.lat, req.lng);
      && |h.steps| >= 3
      && h.steps[2] == InsertLog(NewLog(req.employeeId, t, req.stamp, req.lat, req.lng, hash))
      && (answers.insert.QueryError? ==> h.flow == Answered(Reply(500, ScanError(SaveFailed))) && |h.steps| == 3)
      && (answers.insert.Rows? && answers.recalc.Some? ==> h.flow == Thrown(answers.recalc.value))
      && (answers.insert.Rows? && answers.recalc.None? ==>
            h.flow == Answered(Reply(200, Registered(RegisteredMessage(t),
              format(company, WorkerInfo(e.fullName, e.rut),
                     LogInfo(answers.insert.rows, t, req.stamp, req.lat, req.lng, hash)),
              hash))))
  {
    var id := req.employeeId;
    match answers.employee
    case None => Handled(Answered(Reply(404, ScanError(EmployeeNotFound))), [LookupEmployee(id)])
    case Some(e) =>
      match answers.lastLogs
      case QueryError(_) => Handled(Answered(Reply(500, ScanError(HistoryQueryFailed))), [LookupEmployee(id), ReadLastLog(id)])
      case Rows(rows) =>
        var eventType := Code(Classify(LastLogOf(rows), req.instant));
        var hash := GenerateHash(digest, e.rut, req.stamp, req.lat, req.lng);
        var insert := InsertLog(NewLog(id, eventType, req.stamp, req.lat, req.lng, hash));
        match answers.insert
        case QueryError(_) => Handled(Answered(Reply(500, ScanError(SaveFailed))), [LookupEmployee(id), ReadLastLog(id), insert])
        case Rows(logId) =>
          var steps := [LookupEmployee(id), ReadLastLog(id), insert, Recalculate(id)];
          match answers.recalc
          case Some(message) => Handled(Thrown(message), steps)
          case None =>
            var ticket := format(company, WorkerInfo(e.fullName, e.rut),
                                 LogInfo(logId, eventType, req.stamp, req.lat, req.lng, hash));
            Handled(Answered(Reply(200, Registered(RegisteredMessage(eventType), ticket, hash))), steps)
  }

  /** A registered punch carries the same type and hash in the stored log, the
      reply and the ticket: the ticket's event line names the stored type and its
      hash line holds the returned hash, each as a whole line. */
  lemma RegisteredPunchIsConsistent(company: CompanyInfo, req: ScanRequest, answers: StoreAnswers,
                                    digest: string -> string, dateText: string, timeText: string)
    requires RegisterScan(company, req, answers, digest, TicketFormat(dateText, timeText)).flow.Answered?
    requires RegisterScan(company, req, answers, digest, TicketFormat(dateText, timeText)).flow.reply.status == 200
    ensures var h := RegisterScan(company, req, answers, digest, TicketFormat(dateText, timeText));
      var body := h.flow.reply.body;
      && |h.steps| == 4 && h.steps[2].InsertLog? && body.Registered?
      && body.hash == h.steps[2].row.hash
      && body.message == RegisteredMessage(h.steps[2].row.eventType)
      && ParseCode(h.steps[2].row.eventType).Some?
      && HasLine(body.ticket, EventLabel + h.steps[2].row.eventType)
      && HasLine(body.ticket, HashLabel + body.hash)
  {
    var h := RegisterScan(company, req, answers, digest, TicketFormat(dateText, timeText));
    var e := answers.employee.value;
    var log := LogInfo(answers.insert.rows, h.steps[2].row.eventType, req.stamp, req.lat, req.lng, h.steps[2].row.hash);
    var worker := WorkerInfo(e.fullName, e.rut);
    TicketShowsPunch(company, worker, log, dateText, timeText);
  }

  /** Between two punches of the same employee less than 16 hours apart, the
      second registration stores the type that follows the first's. */
  lemma SuccessiveScansRotate(c: EventCode, last: int, req: ScanRequest, answers: StoreAnswers,
                              company: CompanyInfo, digest: string -> string, dateText: string, timeText: string)
    requires answers.employee.Some?
    requires answers.lastLogs == Rows([PriorLog(Code(c), last)])
    requires WithinWindow(last, req.instant)
    ensures var h := RegisterScan(company, req, answers, digest, TicketFormat(dateText, timeText));
      h.steps[2].InsertLog? && h.steps[2].row.eventType == Code(Next(c))
  {
  }

  /** The company named on the tickets the Express controller issues. */
  const DemoCompany: CompanyInfo := CompanyInfo("Empresa Demo S.A.", "76.123.456-K")

  /** The Express controller's outcome: the reply it sends, if any, and the
      store calls it made. */
  datatype ControllerOutcome = ControllerOutcome(reply: Option<Reply<ScanBody>>, steps: seq<StoreStep>)

  /** `scanQR`: the shared flow with the demo company. The handler catches
      nothing, so an error thrown by the recalculation escapes it and no reply
      is sent. */
  function ScanQR(req: ScanRequest, answers: StoreAnswers, digest: string -> string,
                  dateText: string, timeText: string): (r: ControllerOutcome)
    ensures var h := RegisterScan(DemoCompany, req, answers, digest, TicketFormat(dateText, timeText));
      && r.steps == h.steps
      && (r.reply.None? <==> h.flow.Thrown?)
      && (h.flow.Answered? ==> r.reply == Some(h.flow.reply))
  {
    var h := RegisterScan(DemoCompany, req, answers, digest, TicketFormat(dateText, timeText));
    match h.flow
    case Answered(reply) => ControllerOutcome(Some(reply), h.steps)
    case Thrown(_) => ControllerOutcome(None, h.steps)
  }

  /** When the recalculation throws after a successful insert, the punch is
      stored but the worker gets no reply at all. */
  lemma RecalcFailureLeavesPunchUnanswered(req: ScanRequest, answers: StoreAnswers, digest: string -> string,
                                           dateText: string, timeText: string)
    requires answers.employee.Some? && answers.lastLogs.Rows? && answers.insert.Rows? && answers.recalc.Some?
    ensures var r := ScanQR(req, answers, digest, dateText, timeText);
      r.reply.None? && |r.steps| == 4 && r.steps[2].InsertLog?
  {
  }

  // ---------------------------------------------------------------- reports

  /** The employee fields joined into a report row. */
  datatype EmployeeRef = EmployeeRef(fullName: string, rut: string)

  /** A `working_days` row with its joined employee, as the report query returns it. */
  datatype ReportRow = ReportRow(day: WorkingDayRow, employees: EmployeeRef)

  /** The same row with `full_name` and `rut` copied to the top level. */
  datatype FlatRow = FlatRow(day: WorkingDayRow, employees: EmployeeRef, fullName: string, rut: string)

  function Flatten(row: ReportRow): FlatRow
  {
    FlatRow(row.day, row.employees, row.employees.fullName, row.employees.rut)
  }

  /** `data.map(...)`: every row, in order, flattened. */
  function FlattenReports(rows: seq<ReportRow>): (out: seq<FlatRow>)
    ensures |out| == |rows|
    ensures forall k :: 0 <= k < |rows| ==>
      out[k].day == rows[k].day && out[k].employees == rows[k].employees
      && out[k].fullName == rows[k].employees.fullName && out[k].rut == rows[k].employees.rut
  {
    seq(|rows|, k requires 0 <= k < |rows| => Flatten(rows[k]))
  }

  /** Dropping the copied fields gives back the rows the query returned. */
  function Unflatten(rows: seq<FlatRow>): seq<ReportRow>
  {
    seq(|rows|, k requires 0 <= k < |rows| => ReportRow(rows[k].day, rows[k].employees))
  }

  /** Flattening loses nothing: the query's rows are recovered from the report. */
  lemma FlattenReportsRoundTrip(rows: seq<ReportRow>)
    ensures Unflatten(FlattenReports(rows)) == rows
  {
    var back := Unflatten(FlattenReports(rows));
    assert |back| == |rows|;
    forall k | 0 <= k < |rows| ensures back[k] == rows[k] {
    }
  }

  /** The JSON body of `getReports`. */
  datatype ReportsBody = ReportsError(error: string) | ReportsOk(rows: seq<FlatRow>)

  const ReportsQueryFailed: string := "Error al obtener reportes"

  /** `getReports`: 500 when the query fails, otherwise the flattened rows. */
  function GetReports(q: Query<seq<ReportRow>>): (reply: Reply<ReportsBody>)
    ensures q.QueryError? ==> reply == Reply(500, ReportsError(ReportsQueryFailed))
    ensures q.Rows? ==> reply == Reply(200, ReportsOk(FlattenReports(q.rows)))
    ensures q.Rows? ==> Unflatten(reply.body.rows) == q.rows
  {
    match q
    case QueryError(_) => Reply(500, ReportsError(ReportsQueryFailed))
    case Rows(rows) =>
      FlattenReportsRoundTrip(rows);
      Reply(200, ReportsOk(FlattenReports(rows)))
  }
}
