/**
 * The registration relay: when a student registers for an event, post one push
 * message to the event's organizer. The three store lookups and the push call are
 * inputs; the function decides the reply from them.
 */
module RegistrationRelay {
  import opened Values
  import opened Fcm

  /** The request body `{ evento_id, estudiante_id }`, or the error `req.json()` threw. */
  datatype Request = Request(eventoId: int, estudianteId: int) | Unreadable(message: string)

  /** A `.single()` query's `{ data, error }` reply. */
  datatype Fetch<T> = Fetch(data: Option<T>, error: Option<string>)

  datatype OrganizerUser = OrganizerUser(nombre: string, fcmToken: Option<string>)
  datatype Organizador = Organizador(idUsuario: int, usuario: Option<OrganizerUser>)
  /** The event row joined with its organizer. */
  datatype EventoRow = EventoRow(nombre: string, idOrganizador: int, organizador: Option<Organizador>)

  datatype StudentUser = StudentUser(nombre: string, apellidoPaterno: string)
  /** The registering student's row joined with its user. */
  datatype EstudianteRow = EstudianteRow(usuario: Option<StudentUser>)

  /** The function's reply. */
  datatype Response =
    | NotFound
    | NoToken
    | Notified(fcm: string)
    | ServerError(message: string)
  {
    function Status(): int {
      match this
      case NotFound => 404
      case NoToken => 200
      case Notified(_) => 200
      case ServerError(_) => 500
    }

    /** The text the reply's JSON carries (`error` or `message`); a success carries the push response instead. */
    function Text(): string {
      match this
      case NotFound => NotFoundMessage
      case NoToken => NoTokenMessage
      case Notified(fcm) => fcm
      case ServerError(message) => message
    }
  }

  const NotFoundMessage := "Evento no encontrado"
  const NoTokenMessage := "Organizador sin token FCM"
  const AnonymousStudent := "Un estudiante"
  const RegistrationTitle := "¡Nuevo registro!"

  /** The reply together with the push calls made on the way (none or one). */
  datatype Relayed = Relayed(response: Response, sent: seq<Push>)

  /** The event lookup neither errored nor came back empty. */
  predicate EventFound(evento: Fetch<EventoRow>) {
    evento.error.None? && evento.data.Some?
  }

  /** `evento.organizador?.usuario?.fcm_token` */
  function OrganizerToken(ev: EventoRow): Option<string> {
    match ev.organizador
    case Some(Organizador(_, Some(u))) => u.fcmToken
    case _ => None
  }

  /** `nombreEstudiante`: the student's full name when the user row came back, a fixed phrase otherwise. */
  function DisplayName(estudiante: Fetch<EstudianteRow>): string {
    match estudiante.data
    case Some(EstudianteRow(Some(u))) => u.nombre + " " + u.apellidoPaterno
    case _ => AnonymousStudent
  }

  const Registered := " se registró en \""

  /** The notification body: who registered, then the quoted event name. */
  function RegistrationBody(name: string, eventName: string): string {
    name + Registered + eventName + "\""
  }

  /** Reads the event name back out of a body, given the name of who registered. */
  function EventNameOf(body: string, name: string): Option<string> {
    var head := name + Registered;
    if |body| >= |head| + 1 && body[..|head|] == head && body[|body| - 1] == '"'
    then Some(body[|head|..|body| - 1])
    else None
  }

  /** The body names the event verbatim, whatever characters its name holds. */
  lemma EventNameRoundTrip(name: string, eventName: string)
    ensures EventNameOf(RegistrationBody(name, eventName), name) == Some(eventName)
  {
    var head := name + Registered;
    var body := RegistrationBody(name, eventName);
    assert body == head + eventName + "\"";
    assert body[..|head|] == head;
    assert body[|head|..|body| - 1] == eventName;
  }

  /** The message posted to the organizer. */
  function RegistrationPush(token: string, estudiante: Fetch<EstudianteRow>, ev: EventoRow, eventoId: int): Push {
    Push(token, Message(RegistrationTitle, RegistrationBody(DisplayName(estudiante), ev.nombre), NewRegistration(eventoId)))
  }

  /** The organizer's message goes to the organizer's token, typed `new_registration`, naming the event. */
  lemma RegistrationPayload(token: string, estudiante: Fetch<EstudianteRow>, ev: EventoRow, eventoId: int)
    ensures var p := RegistrationPush(token, estudiante, ev, eventoId);
            && p.to == token
            && p.message.title == RegistrationTitle
            && p.message.data.Type() == "new_registration"
            && p.message.data.eventoId == eventoId
  {
  }

  /**
   * The decision: an unreadable request or a throwing push call is a 500 with the
   * error's message; a missing event is a 404 before anything else is looked at; an
   * organizer without a token is a 200 with nothing sent; otherwise exactly one
   * message is posted and its response returned.
   */
  function Relay(request: Request, evento: Fetch<EventoRow>, estudiante: Fetch<EstudianteRow>, delivery: Delivery): (r: Relayed)
    ensures |r.sent| <= 1
    ensures r.response.NotFound? <==> request.Request? && !EventFound(evento)
    ensures r.response.NoToken? <==> request.Request? && EventFound(evento) && !Truthy(OrganizerToken(evento.data.value))
    ensures r.sent != [] <==> request.Request? && EventFound(evento) && Truthy(OrganizerToken(evento.data.value))
    ensures r.sent != [] ==>
              r.sent[0] == RegistrationPush(OrganizerToken(evento.data.value).value, estudiante, evento.data.value, request.eventoId)
    ensures r.response.ServerError? <==> request.Unreadable? || (r.sent != [] && delivery.Threw?)
    ensures r.response.ServerError? ==>
              r.response.message == (if request.Unreadable? then request.message else delivery.message)
    ensures r.response.Notified? <==> r.sent != [] && delivery.Delivered?
    ensures r.response.Notified? ==> r.response.fcm == delivery.response
  {
    match request
    case Unreadable(message) => Relayed(ServerError(message), [])
    case Request(eventoId, _) =>
      if !EventFound(evento) then Relayed(NotFound, [])
      else
        var ev := evento.data.value;
        var fcmToken := OrganizerToken(ev);
        if !Truthy(fcmToken) then Relayed(NoToken, [])
        else
          var push := RegistrationPush(fcmToken.value, estudiante, ev, eventoId);
          match delivery
          case Threw(message) => Relayed(ServerError(message), [push])
          case Delivered(fcm) => Relayed(Notified(fcm), [push])
  }

  /** The status codes and texts of the four outcomes. */
  lemma RelayStatus(request: Request, evento: Fetch<EventoRow>, estudiante: Fetch<EstudianteRow>, delivery: Delivery)
    ensures var r := Relay(request, evento, estudiante, delivery);
            && (r.response.Status() == 404 <==> r.response.NotFound?)
            && (r.response.Status() == 500 <==> r.response.ServerError?)
            && (r.response.Status() == 200 <==> r.response.NoToken? || r.response.Notified?)
            && (r.response.NotFound? ==> r.response.Text() == "Evento no encontrado")
            && (r.response.NoToken? ==> r.response.Text() == "Organizador sin token FCM")
  {
  }

  /**
   * A failed student lookup is only logged: the error does not change the reply or
   * the message, and with no student row the body names "Un estudiante".
   */
  lemma StudentLookupNotFatal(request: Request, evento: Fetch<EventoRow>, data: Option<EstudianteRow>,
                              error: Option<string>, delivery: Delivery)
    ensures Relay(request, evento, Fetch(data, error), delivery) == Relay(request, evento, Fetch(data, None), delivery)
    ensures data.None? || data.value.usuario.None? ==> DisplayName(Fetch(data, error)) == AnonymousStudent
    ensures data.Some? && data.value.usuario.Some? ==>
              DisplayName(Fetch(data, error)) == data.value.usuario.value.nombre + " " + data.value.usuario.value.apellidoPaterno
  {
  }
}
