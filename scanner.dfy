/** The scanner screen: a decoded QR code names a worker, the screen shows the
    next punch of the day or that the day is complete, and the worker confirms.
    The store answers, the reply of the attendance edge function and the locale
    rendering of the current time arrive as parameters; the timers that return
    the screen to `idle` are methods the environment calls when they fire. */
module Scanner {
  import opened Common
  import opened StatusController
  import opened Text

  const WorkerNotFound: string := "Trabajador no encontrado"
  const SubmitFailed: string := "Error al registrar"
  const CameraUnavailable: string := "No se pudo acceder a la cámara"

  /** The pending punch shown for confirmation. */
  datatype ScannedData = ScannedData(id: string, name: string, nextEvent: string, isComplete: bool)

  const SuccessHeading: string := "Registro Exitoso: "
  const HashHeading: string := "Hash: "
  const DateHeading: string := "Fecha: "

  /** The success ticket shown on screen. */
  function SuccessTicket(eventType: JsValue, hash: JsValue, localeNow: string): (s: string)
    ensures s == Join([SuccessHeading + Render(eventType), HashHeading + Render(hash), DateHeading + localeNow], '\n')
  {
    var lines := [SuccessHeading + Render(eventType), HashHeading + Render(hash), DateHeading + localeNow];
    JoinCons(lines[1], [lines[2]], '\n');
    JoinCons(lines[0], lines[1..], '\n');
    assert lines == [lines[0]] + lines[1..];
    SuccessHeading + Render(eventType) + "\n" + HashHeading + Render(hash) + "\n" + DateHeading + localeNow
  }

  /** The ticket reads back as its three lines when none of the values holds a line break. */
  lemma SuccessTicketLines(eventType: JsValue, hash: JsValue, localeNow: string)
    requires Free([Render(eventType), Render(hash), localeNow], '\n')
    ensures Split(SuccessTicket(eventType, hash, localeNow), '\n')
         == [SuccessHeading + Render(eventType), HashHeading + Render(hash), DateHeading + localeNow]
  {
    var lines := [SuccessHeading + Render(eventType), HashHeading + Render(hash), DateHeading + localeNow];
    var values := [Render(eventType), Render(hash), localeNow];
    assert '\n' !in values[0] && '\n' !in values[1] && '\n' !in values[2];
    assert '\n' !in SuccessHeading && '\n' !in HashHeading && '\n' !in DateHeading;
    assert '\n' !in lines[0] && '\n' !in lines[1] && '\n' !in lines[2];
    SplitJoin(lines, '\n');
  }

  class ScannerScreen {
    var status: ScreenStatus
    var scannedData: Option<ScannedData>
    var error: Option<string>
    var ticket: Option<string>
    var location: Option<Location>
    /** The bodies posted to the edge function so far, oldest first. */
    var submissions: seq<Submission>

    /** A pending punch either names one of the four punches of the day or is
        marked complete with the complete label, and the screen only asks for
        confirmation of a pending punch. */
    ghost predicate Valid()
      reads this
    {
      && (scannedData.Some? ==>
            (scannedData.value.isComplete <==> scannedData.value.nextEvent == CompleteLabel)
            && (!scannedData.value.isComplete ==> scannedData.value.nextEvent in DayLabels))
      && (status == Confirming ==> scannedData.Some?)
    }

    constructor ()
      ensures Valid()
      ensures status == Idle && scannedData.None? && error.None? && ticket.None? && location.None?
      ensures submissions == []
    {
      status := Idle;
      scannedData := None;
      error := None;
      ticket := None;
      location := None;
      submissions := [];
    }

    /** The geolocation callback. */
    method OnPosition(position: Location)
      modifies this
      requires Valid()
      ensures Valid()
      ensures location == Some(position)
      ensures status == old(status) && scannedData == old(scannedData) && error == old(error)
      ensures ticket == old(ticket) && submissions == old(submissions)
    {
      location := Some(position);
    }

    /** The scanner start-up failing: the camera message is shown, the screen
        stays where it was. */
    method OnCameraFailure()
      modifies this
      requires Valid()
      ensures Valid()
      ensures error == Some(CameraUnavailable)
      ensures status == old(status) && scannedData == old(scannedData) && ticket == old(ticket)
      ensures submissions == old(submissions) && location == old(location)
    {
      error := Some(CameraUnavailable);
    }

    /** The camera callback: a decoded code is handled only while the screen is idle. */
    method OnDecode(text: Option<string>, employeeName: Option<string>, todayLogs: Option<seq<string>>)
      modifies this
      requires Valid()
      ensures Valid()
      ensures text.None? || old(status) != Idle ==>
        status == old(status) && scannedData == old(scannedData) && error == old(error)
      ensures text.Some? && old(status) == Idle && employeeName.None? ==>
        status == Error && error == Some(WorkerNotFound) && scannedData == old(scannedData)
      ensures text.Some? && old(status) == Idle && employeeName.Some? ==>
        && status == Confirming && error == old(error)
        && scannedData == Some(ScannedData(text.value, employeeName.value,
                                           NextPunch(CountOrZero(todayLogs)).nextEvent,
                                           CountOrZero(todayLogs) >= 4))
      ensures ticket == old(ticket) && submissions == old(submissions) && location == old(location)
    {
      if text.Some? && status == Idle {
        HandleScan(text.value, employeeName, todayLogs);
      }
    }

    /** `handleScan`: look the worker up, count today's logs (a failed count
        query reads as no logs), and show the next punch or that the day is
        complete; an unknown worker is an error. */
    method HandleScan(employeeId: string, employeeName: Option<string>, todayLogs: Option<seq<string>>)
      modifies this
      requires Valid()
      ensures Valid()
      ensures employeeName.None? ==>
        status == Error && error == Some(WorkerNotFound) && scannedData == old(scannedData)
      ensures employeeName.Some? ==>
        && status == Confirming && error == old(error)
        && scannedData == Some(ScannedData(employeeId, employeeName.value,
                                           NextPunch(CountOrZero(todayLogs)).nextEvent,
                                           CountOrZero(todayLogs) >= 4))
      ensures ticket == old(ticket) && submissions == old(submissions) && location == old(location)
    {
      status := Scanning;
      if employeeName.None? {
        error := Some(OrDefault(Some(WorkerNotFound), "Error al identificar QR"));
        status := Error;
        return;
      }
      var logCount := CountOrZero(todayLogs);
      var info := NextPunch(logCount);
      scannedData := Some(ScannedData(employeeId, employeeName.value, info.nextEvent, info.isComplete));
      status := Confirming;
    }

    /** `confirmMarking`: with no pending punch, or a complete day, nothing
        happens; otherwise the punch is posted with the location, if any, and the
        current ISO time, and the reply's type and hash make the ticket. */
    method ConfirmMarking(nowIso: string, outcome: PostOutcome, localeNow: string)
      modifies this
      requires Valid()
      ensures Valid()
      ensures old(scannedData).None? || old(scannedData).value.isComplete ==>
        && status == old(status) && scannedData == old(scannedData) && error == old(error)
        && ticket == old(ticket) && submissions == old(submissions)
      ensures old(scannedData).Some? && !old(scannedData).value.isComplete ==>
        submissions == old(submissions) + [Submission(old(scannedData).value.id, LatOf(location), LngOf(location), nowIso)]
      ensures old(scannedData).Some? && !old(scannedData).value.isComplete && outcome.Accepted? ==>
        && status == Success && scannedData.None? && error == old(error)
        && ticket == Some(SuccessTicket(outcome.eventType, outcome.hash, localeNow))
      ensures old(scannedData).Some? && !old(scannedData).value.isComplete && outcome.Rejected? ==>
        && status == Error && scannedData == old(scannedData) && ticket == old(ticket)
        && error == Some(OrDefault(outcome.serverError, SubmitFailed))
      ensures location == old(location)
    {
      if scannedData.None? || scannedData.value.isComplete {
        return;
      }
      status := Submitting;
      submissions := submissions + [Submission(scannedData.value.id, LatOf(location), LngOf(location), nowIso)];
      match outcome
      case Accepted(eventType, hash) =>
        ticket := Some(SuccessTicket(eventType, hash, localeNow));
        status := Success;
        scannedData := None;
      case Rejected(serverError) =>
        error := Some(OrDefault(serverError, SubmitFailed));
        status := Error;
    }

    /** The `Cancelar` buttons of the confirmation, for a day still open and for
        a complete one: back to idle, pending punch dropped. */
    method Cancel()
      modifies this
      requires Valid()
      ensures Valid()
      ensures status == Idle && scannedData.None?
      ensures error == old(error) && ticket == old(ticket)
      ensures submissions == old(submissions) && location == old(location)
    {
      status := Idle;
      scannedData := None;
    }

    /** The close button of the ticket: ticket cleared, back to idle. */
    method CloseTicket()
      modifies this
      requires Valid()
      ensures Valid()
      ensures status == Idle && ticket.None?
      ensures scannedData == old(scannedData) && error == old(error)
      ensures submissions == old(submissions) && location == old(location)
    {
      ticket := None;
      status := Idle;
    }

    /** The dismiss button of the error banner, the only place the message is cleared. */
    method DismissError()
      modifies this
      requires Valid()
      ensures Valid()
      ensures error.None?
      ensures status == old(status) && scannedData == old(scannedData) && ticket == old(ticket)
      ensures submissions == old(submissions) && location == old(location)
    {
      error := None;
    }

    /** The timers after an error (3 seconds after a scan, 4 after a confirmation). */
    method ErrorTimeout()
      modifies this
      requires Valid()
      ensures Valid()
      ensures status == Idle
      ensures scannedData == old(scannedData) && error == old(error) && ticket == old(ticket)
      ensures submissions == old(submissions) && location == old(location)
    {
      status := Idle;
    }

    /** The 8-second timer after a success: back to idle, ticket cleared. */
    method SuccessTimeout()
      modifies this
      requires Valid()
      ensures Valid()
      ensures status == Idle && ticket.None?
      ensures scannedData == old(scannedData) && error == old(error)
      ensures submissions == old(submissions) && location == old(location)
    {
      status := Idle;
      ticket := None;
    }
  }
}
