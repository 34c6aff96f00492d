/** The serverless scan endpoint: the CORS headers, the HTTP method gate, and
    the shared registration flow with every thrown error turned into a 500. */
module ScanEndpoint {
  import opened Common
  import opened TicketGenerator
  import opened AttendanceController

  /** The headers set on every response, before anything else is looked at. */
  const CorsHeaders: seq<(string, string)> := [
    ("Access-Control-Allow-Credentials", "true"),
    ("Access-Control-Allow-Origin", "*"),
    ("Access-Control-Allow-Methods", "GET,OPTIONS,PATCH,DELETE,POST,PUT"),
    ("Access-Control-Allow-Headers", "X-CSRF-Token, X-Requested-With, Accept, Accept-Version, Content-Length, Content-MD5, Content-Type, Date, X-Api-Version")
  ]

  /** The company named on the tickets this endpoint issues. */
  const EndpointCompany: CompanyInfo := CompanyInfo("SoundMix SpA", "76.123.456-K")

  const MethodNotAllowed: string := "Method not allowed"
  const InternalError: string := "Error interno del servidor"

  /** A response: its headers, status, JSON body (None for an empty body) and
      the store calls made while producing it. */
  datatype Response = Response(headers: seq<(string, string)>, status: nat, body: Option<ScanBody>, steps: seq<StoreStep>)

  /** The endpoint's answer to a request with HTTP method `verb`. */
  function HandleScan(verb: string, req: ScanRequest, answers: StoreAnswers, digest: string -> string,
                      dateText: string, timeText: string): (r: Response)
    ensures r.headers == CorsHeaders
    ensures verb == "OPTIONS" ==> r.status == 200 && r.body.None? && r.steps == []
    ensures verb != "OPTIONS" && verb != "POST" ==>
      r.status == 405 && r.body == Some(ScanError(MethodNotAllowed)) && r.steps == []
    ensures verb == "POST" ==>
      var h := RegisterScan(EndpointCompany, req, answers, digest, TicketFormat(dateText, timeText));
      && r.steps == h.steps
      && (h.flow.Answered? ==> r.status == h.flow.reply.status && r.body == Some(h.flow.reply.body))
      && (h.flow.Thrown? ==> r.status == 500 && r.body == Some(ScanError(OrDefault(Some(h.flow.message), InternalError))))
  {
    if verb == "OPTIONS" then Response(CorsHeaders, 200, None, [])
    else if verb != "POST" then Response(CorsHeaders, 405, Some(ScanError(MethodNotAllowed)), [])
    else
      var h := RegisterScan(EndpointCompany, req, answers, digest, TicketFormat(dateText, timeText));
      match h.flow
      case Answered(reply) => Response(CorsHeaders, reply.status, Some(reply.body), h.steps)
      case Thrown(message) => Response(CorsHeaders, 500, Some(ScanError(OrDefault(Some(message), InternalError))), h.steps)
  }

  /** Unlike the Express controller, the endpoint answers every POST, and with the
      same store calls; where the controller answers, it answers with the same
      status, and with the same body whenever that body is an error. */
  lemma EndpointAgreesWithController(req: ScanRequest, answers: StoreAnswers, digest: string -> string,
                                     dateText: string, timeText: string)
    ensures var r := HandleScan("POST", req, answers, digest, dateText, timeText);
      var c := ScanQR(req, answers, digest, dateText, timeText);
      && r.steps == c.steps
      && r.body.Some?
      && (c.reply.Some? ==> r.status == c.reply.value.status)
      && (c.reply.Some? && c.reply.value.body.ScanError? ==> r.body == Some(c.reply.value.body))
      && (c.reply.None? ==> r.status == 500)
  {
    var format := TicketFormat(dateText, timeText);
    var e := RegisterScan(EndpointCompany, req, answers, digest, format);
    var d := RegisterScan(DemoCompany, req, answers, digest, format);
    assert e.steps == d.steps;
    assert e.flow.Thrown? <==> d.flow.Thrown?;
    assert e.flow.Answered? ==> e.flow.reply.status == d.flow.reply.status;
    assert e.flow.Answered? && d.flow.reply.body.ScanError? ==> e.flow.reply == d.flow.reply;
  }
}
