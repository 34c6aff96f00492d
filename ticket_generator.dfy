/** The integrity hash of a punch and the printed ticket. SHA-256 is not
    modelled: `digest` stands for it, a fixed function of the preimage text.
    The date and hour lines of the ticket are rendered by date-fns in the
    server's time zone; they arrive here already rendered. */
module TicketGenerator {
  import opened Common
  import opened Text

  /** `${v || '0'}`: a falsy coordinate is written as `0`. */
  function CoordText(v: JsValue): string
  {
    if Truthy(v) then Render(v) else "0"
  }

  /** The text that is hashed: `rut|timestamp|lat|lng`. */
  function Preimage(rut: string, stamp: string, lat: JsValue, lng: JsValue): (s: string)
    ensures s == Join([rut, stamp, CoordText(lat), CoordText(lng)], '|')
  {
    JoinCons(CoordText(lat), [CoordText(lng)], '|');
    JoinCons(stamp, [CoordText(lat), CoordText(lng)], '|');
    JoinCons(rut, [stamp, CoordText(lat), CoordText(lng)], '|');
    rut + "|" + stamp + "|" + CoordText(lat) + "|" + CoordText(lng)
  }

  /** `generateHash`: the digest of the preimage. */
  function GenerateHash(digest: string -> string, rut: string, stamp: string, lat: JsValue, lng: JsValue): (h: string)
    ensures h == digest(Join([rut, stamp, CoordText(lat), CoordText(lng)], '|'))
  {
    digest(Preimage(rut, stamp, lat, lng))
  }

  /** The preimage is the four fields joined by `|`: splitting it at `|` gives
      them back when none of them holds a `|`. */
  lemma PreimageFields(rut: string, stamp: string, lat: JsValue, lng: JsValue)
    requires Free([rut, stamp, CoordText(lat), CoordText(lng)], '|')
    ensures Split(Preimage(rut, stamp, lat, lng), '|') == [rut, stamp, CoordText(lat), CoordText(lng)]
  {
    SplitJoin([rut, stamp, CoordText(lat), CoordText(lng)], '|');
  }

  /** Two punches whose fields hold no `|` have the same preimage, and so the same
      hash, only when their RUT, timestamp and written coordinates agree. */
  lemma PreimageDeterminesFields(rut: string, stamp: string, lat: JsValue, lng: JsValue,
                                 rut': string, stamp': string, lat': JsValue, lng': JsValue)
    requires Free([rut, stamp, CoordText(lat), CoordText(lng)], '|')
    requires Free([rut', stamp', CoordText(lat'), CoordText(lng')], '|')
    requires Preimage(rut, stamp, lat, lng) == Preimage(rut', stamp', lat', lng')
    ensures rut == rut' && stamp == stamp' && CoordText(lat) == CoordText(lat') && CoordText(lng) == CoordText(lng')
  {
    PreimageFields(rut, stamp, lat, lng);
    PreimageFields(rut', stamp', lat', lng');
  }

  /** A missing, null, zero, NaN or empty coordinate is hashed exactly like the number 0. */
  lemma FalsyCoordinatesHashAsZero(digest: string -> string, rut: string, stamp: string, lat: JsValue, lng: JsValue)
    requires !Truthy(lat) && !Truthy(lng)
    ensures GenerateHash(digest, rut, stamp, lat, lng) == GenerateHash(digest, rut, stamp, Num("0"), Num("0"))
    ensures Preimage(rut, stamp, lat, lng) == rut + "|" + stamp + "|0|0"
  {
  }

  /** The issuing company, as `companyInfo`. */
  datatype CompanyInfo = CompanyInfo(name: string, rut: string)

  /** The worker, as `workerInfo`. */
  datatype WorkerInfo = WorkerInfo(fullName: string, rut: string)

  /** The punch, as `logInfo`: the id the store gave the new log, its type, its
      raw timestamp text, its coordinates and its hash. */
  datatype LogInfo = LogInfo(id: string, eventType: string, stamp: string, lat: JsValue, lng: JsValue, hash: string)

  /** The `Ubicación` line: both coordinates, or `No disponible` unless both are truthy. */
  function LocationText(lat: JsValue, lng: JsValue): (s: string)
    ensures Truthy(lat) && Truthy(lng) <==> ',' in s
    ensures Truthy(lat) && Truthy(lng) ==> s == Render(lat) + ", " + Render(lng)
    ensures !(Truthy(lat) && Truthy(lng)) ==> s == "No disponible"
  {
    if Truthy(lat) && Truthy(lng) then assert (Render(lat) + ", " + Render(lng))[|Render(lat)|] == ','; Render(lat) + ", " + Render(lng)
    else "No disponible"
  }

  /** The fixed lines of the template and the labels of its field lines. */
  const Title: string := "COMPROBANTE DE REGISTRO DE ASISTENCIA"
  const EmployerHeading: string := "Información del Empleador:"
  const WorkerHeading: string := "Información del Trabajador:"
  const PunchHeading: string := "Detalle de la Marcación:"
  const SecurityHeading: string := "Seguridad y Validación:"
  const LegalNotice: string := "Este comprobante se emite en cumplimiento con la normativa vigente de la Dirección del Trabajo (Res. Ex. N°38)."

  const CompanyNameLabel: string := "Razón Social: "
  const RutLabel: string := "RUT: "
  const NameLabel: string := "Nombre: "
  const EventLabel: string := "Tipo de Evento: "
  const DateLabel: string := "Fecha: "
  const HourLabel: string := "Hora: "
  const LocationLabel: string := "Ubicación: "
  const IdLabel: string := "ID de Marcación: "
  const HashLabel: string := "Hash de Integridad: "

  /** The 21 lines of the ticket template, between its opening and closing breaks. */
  function TicketLines(company: CompanyInfo, worker: WorkerInfo, log: LogInfo, dateText: string, timeText: string): (lines: seq<string>)
    ensures |lines| == 21 && lines[0] == Title && lines[20] == LegalNotice
  {
    [ Title,
      "",
      EmployerHeading,
      CompanyNameLabel + company.name,
      RutLabel + company.rut,
      "",
      WorkerHeading,
      NameLabel + worker.fullName,
      RutLabel + worker.rut,
      "",
      PunchHeading,
      EventLabel + log.eventType,
      DateLabel + dateText,
      HourLabel + timeText,
      LocationLabel + LocationText(log.lat, log.lng),
      "",
      SecurityHeading,
      IdLabel + log.id,
      HashLabel + log.hash,
      "",
      LegalNotice ]
  }

  /** The template literal opens with a line break and closes with a line break
      and the indentation of the closing backquote. */
  const TemplateOpening: string := "\n"
  const TemplateClosing: string := "\n        "

  /** `formatTicket`: the template, trimmed. Trimming removes exactly the
      template's own opening and closing white space. */
  function FormatTicket(company: CompanyInfo, worker: WorkerInfo, log: LogInfo, dateText: string, timeText: string): (r: string)
    ensures r == Join(TicketLines(company, worker, log, dateText, timeText), '\n')
    ensures |r| > 0 && !IsWhitespace(r[0]) && !IsWhitespace(r[|r| - 1])
  {
    var lines := TicketLines(company, worker, log, dateText, timeText);
    assert lines[0][0] == 'C';
    assert lines[20][|lines[20]| - 1] == '.';
    TrimPaddedJoin(TemplateOpening, lines, '\n', TemplateClosing);
    Trim(TemplateOpening + Join(lines, '\n') + TemplateClosing)
  }

  /** Each inner line of the template stands in the ticket between two line
      breaks: the worker's name and RUT (lines 7 and 8), the event type (11),
      the location (14), the log id (17) and the hash (18) appear verbatim, each
      as a whole line. */
  lemma TicketLine(company: CompanyInfo, worker: WorkerInfo, log: LogInfo, dateText: string, timeText: string, k: nat)
    requires 0 < k < 20
    ensures var lines := TicketLines(company, worker, log, dateText, timeText);
      && lines[7] == NameLabel + worker.fullName
      && lines[8] == RutLabel + worker.rut
      && lines[11] == EventLabel + log.eventType
      && lines[14] == LocationLabel + LocationText(log.lat, log.lng)
      && lines[17] == IdLabel + log.id
      && lines[18] == HashLabel + log.hash
      && FormatTicket(company, worker, log, dateText, timeText)
         == Join(lines[..k], '\n') + "\n" + lines[k] + "\n" + Join(lines[k + 1..], '\n')
  {
    var lines := TicketLines(company, worker, log, dateText, timeText);
    JoinAround(lines, k, '\n');
  }

  /** `line` stands in `text` as a whole inner line, between two line breaks. */
  ghost predicate HasLine(text: string, line: string)
  {
    exists pre, post :: text == pre + "\n" + line + "\n" + post
  }

  /** Every inner line of the template stands in the ticket as a whole line:
      among them the worker's name (line 7), the event type (11), the location
      (14), the log id (17) and the hash (18). */
  lemma TicketHasLine(company: CompanyInfo, worker: WorkerInfo, log: LogInfo, dateText: string, timeText: string, k: nat)
    requires 0 < k < 20
    ensures HasLine(FormatTicket(company, worker, log, dateText, timeText), TicketLines(company, worker, log, dateText, timeText)[k])
  {
    var lines := TicketLines(company, worker, log, dateText, timeText);
    TicketLine(company, worker, log, dateText, timeText, k);
    var pre, post := Join(lines[..k], '\n'), Join(lines[k + 1..], '\n');
    assert FormatTicket(company, worker, log, dateText, timeText) == pre + "\n" + lines[k] + "\n" + post;
  }

  /** The ticket shows the punch's event type, its id and its hash, each on a
      line of its own. */
  lemma TicketShowsPunch(company: CompanyInfo, worker: WorkerInfo, log: LogInfo, dateText: string, timeText: string)
    ensures var ticket := FormatTicket(company, worker, log, dateText, timeText);
      && HasLine(ticket, EventLabel + log.eventType)
      && HasLine(ticket, IdLabel + log.id)
      && HasLine(ticket, HashLabel + log.hash)
  {
    var lines := TicketLines(company, worker, log, dateText, timeText);
    assert lines[11] == EventLabel + log.eventType;
    assert lines[17] == IdLabel + log.id;
    assert lines[18] == HashLabel + log.hash;
    TicketHasLine(company, worker, log, dateText, timeText, 11);
    TicketHasLine(company, worker, log, dateText, timeText, 17);
    TicketHasLine(company, worker, log, dateText, timeText, 18);
  }
}
