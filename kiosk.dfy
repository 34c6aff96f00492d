/** The kiosk screen: a worker identifies, the screen offers the next punch of
    the day (refusing a fifth one), and the worker confirms it. The store
    answers and the reply of the attendance edge function arrive as parameters;
    the timers that return the screen to `idle` are methods the environment
    calls when they fire. */
module Kiosk {
  import opened Common
  import opened StatusController

  const UnknownWorker: string := "Código QR no válido o trabajador no encontrado"
  const DayAlreadyComplete: string := "Jornada ya completada por hoy"
  const SubmitFailed: string := "Error al registrar asistencia"

  /** The kiosk's choice for a worker with `logCount` logs today: the label of the
      next punch, or a refusal once four exist. */
  function KioskNextEvent(logCount: nat): (r: Result<string>)
    ensures r.Err? <==> logCount >= 4
    ensures r.Err? ==> r.message == DayAlreadyComplete
    ensures r.Ok? ==> r.value == DayLabels[logCount]
  {
    if logCount >= 4 then Err(DayAlreadyComplete) else Ok(DayLabels[logCount])
  }

  /** The kiosk and the status endpoint apply the same rule: the kiosk refuses
      exactly when the day is complete, and otherwise offers the same label. */
  lemma KioskAgreesWithCheckStatus(logCount: nat)
    ensures KioskNextEvent(logCount).Err? <==> NextPunch(logCount).isComplete
    ensures KioskNextEvent(logCount).Ok? ==> KioskNextEvent(logCount).value == NextPunch(logCount).nextEvent
  {
  }

  /** The employee fields the kiosk looks up. */
  datatype KioskEmployee = KioskEmployee(fullName: string, rut: string)

  /** The pending punch shown for confirmation. */
  datatype ScannedData = ScannedData(id: string, name: string, rut: string, nextEvent: string)

  class KioskScreen {
    var status: ScreenStatus
    var scannedData: Option<ScannedData>
    var error: Option<string>
    var location: Option<Location>
    /** The bodies posted to the edge function so far, oldest first. */
    var submissions: seq<Submission>

    /** A pending punch always names one of the four punches of the day, and the
        screen only asks for confirmation of a pending punch. */
    ghost predicate Valid()
      reads this
    {
      && (scannedData.Some? ==> scannedData.value.nextEvent in DayLabels)
      && (status == Confirming ==> scannedData.Some?)
    }

    constructor ()
      ensures Valid()
      ensures status == Idle && scannedData.None? && error.None? && location.None? && submissions == []
    {
      status := Idle;
      scannedData := None;
      error := None;
      location := None;
      submissions := [];
    }

    /** The geolocation callback. */
    method OnPosition(position: Location)
      modifies this
      requires Valid()
      ensures Valid()
      ensures location == Some(position)
      ensures status == old(status) && scannedData == old(scannedData) && error == old(error)
      ensures submissions == old(submissions)
    {
      location := Some(position);
    }

    /** The simulated scan: the prompt's answer, when there is one, is scanned. */
    method OnPrompt(id: Option<string>, employee: Option<KioskEmployee>, todayLogs: Option<seq<string>>)
      modifies this
      requires Valid()
      ensures Valid()
      ensures id.None? || id.value == "" ==>
        status == old(status) && scannedData == old(scannedData) && error == old(error)
      ensures id.Some? && id.value != "" && employee.None? ==>
        status == Error && error == Some(UnknownWorker) && scannedData == old(scannedData)
      ensures id.Some? && id.value != "" && employee.Some? && CountOrZero(todayLogs) >= 4 ==>
        status == Error && error == Some(DayAlreadyComplete) && scannedData == old(scannedData)
      ensures id.Some? && id.value != "" && employee.Some? && CountOrZero(todayLogs) < 4 ==>
        && status == Confirming && error.None?
        && scannedData == Some(ScannedData(id.value, employee.value.fullName, employee.value.rut,
                                           DayLabels[CountOrZero(todayLogs)]))
      ensures submissions == old(submissions) && location == old(location)
    {
      if id.Some? && id.value != "" {
        ProcessScan(id.value, employee, todayLogs);
      }
    }

    /** `processScan`: look the worker up, count today's logs (a failed count
        query reads as no logs), and either offer the next punch or show the
        error. */
    method ProcessScan(employeeId: string, employee: Option<KioskEmployee>, todayLogs: Option<seq<string>>)
      modifies this
      requires Valid()
      ensures Valid()
      ensures employee.None? ==>
        status == Error && error == Some(UnknownWorker) && scannedData == old(scannedData)
      ensures employee.Some? && CountOrZero(todayLogs) >= 4 ==>
        status == Error && error == Some(DayAlreadyComplete) && scannedData == old(scannedData)
      ensures employee.Some? && CountOrZero(todayLogs) < 4 ==>
        && status == Confirming && error.None?
        && scannedData == Some(ScannedData(employeeId, employee.value.fullName, employee.value.rut,
                                           DayLabels[CountOrZero(todayLogs)]))
      ensures status == Confirming || status == Error
      ensures submissions == old(submissions) && location == old(location)
    {
      status := Scanning;
      error := None;
      if employee.None? {
        error := Some(UnknownWorker);
        status := Error;
        return;
      }
      var logCount := CountOrZero(todayLogs);
      var next := KioskNextEvent(logCount);
      match next
      case Err(message) =>
        error := Some(message);
        status := Error;
      case Ok(nextEvent) =>
        scannedData := Some(ScannedData(employeeId, employee.value.fullName, employee.value.rut, nextEvent));
        status := Confirming;
    }

    /** `confirmMarking`: with no pending punch nothing happens; otherwise the
        punch is posted with the location, if any, and the current ISO time. */
    method ConfirmMarking(nowIso: string, outcome: PostOutcome)
      modifies this
      requires Valid()
      ensures Valid()
      ensures old(scannedData).None? ==>
        status == old(status) && error == old(error) && submissions == old(submissions)
      ensures old(scannedData).Some? ==>
        submissions == old(submissions) + [Submission(old(scannedData).value.id, LatOf(location), LngOf(location), nowIso)]
      ensures old(scannedData).Some? && outcome.Accepted? ==> status == Success && error == old(error)
      ensures old(scannedData).Some? && outcome.Rejected? ==>
        status == Error && error == Some(OrDefault(outcome.serverError, SubmitFailed))
      ensures scannedData == old(scannedData) && location == old(location)
    {
      if scannedData.None? {
        return;
      }
      status := Submitting;
      submissions := submissions + [Submission(scannedData.value.id, LatOf(location), LngOf(location), nowIso)];
      match outcome
      case Accepted(_, _) =>
        status := Success;
      case Rejected(serverError) =>
        error := Some(OrDefault(serverError, SubmitFailed));
        status := Error;
    }

    /** The `Cancelar` button of the confirmation: back to idle, pending punch dropped. */
    method Cancel()
      modifies this
      requires Valid()
      ensures Valid()
      ensures status == Idle && scannedData.None?
      ensures error == old(error) && submissions == old(submissions) && location == old(location)
    {
      status := Idle;
      scannedData := None;
    }

    /** The `Reintentar` button of the error panel: back to idle, the message kept. */
    method Retry()
      modifies this
      requires Valid()
      ensures Valid()
      ensures status == Idle
      ensures scannedData == old(scannedData) && error == old(error)
      ensures submissions == old(submissions) && location == old(location)
    {
      status := Idle;
    }

    /** The 4-second timer after an error. */
    method ErrorTimeout()
      modifies this
      requires Valid()
      ensures Valid()
      ensures status == Idle
      ensures scannedData == old(scannedData) && error == old(error)
      ensures submissions == old(submissions) && location == old(location)
    {
      status := Idle;
    }

    /** The 5-second timer after a success: back to idle, pending punch cleared. */
    method SuccessTimeout()
      modifies this
      requires Valid()
      ensures Valid()
      ensures status == Idle && scannedData.None?
      ensures error == old(error) && submissions == old(submissions) && location == old(location)
    {
      status := Idle;
      scannedData := None;
    }
  }
}
