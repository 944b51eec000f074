/** The wording of a reminder: the lead-time phrase and the notification body. */
module ReminderText {
  import opened Values

  /** Lead time, in minutes, when the request does not give `minutes_before`. */
  const DefaultMinutesBefore: int := 30

  const ReminderTitle := "⏰ ¡Recordatorio!"

  const TenMinutes := "¡en 10 minutos!"
  const FifteenMinutes := "en 15 minutos"
  const ThirtyMinutes := "en 30 minutos"
  const OneHour := "en 1 hora"
  const Soon := "pronto"

  /** The phrase for a lead time: each threshold band has its own phrase and every lead time falls in one band. */
  function TimeMessage(minutesBefore: int): (phrase: string)
    ensures minutesBefore <= 10 <==> phrase == TenMinutes
    ensures 10 < minutesBefore <= 15 <==> phrase == FifteenMinutes
    ensures 15 < minutesBefore <= 30 <==> phrase == ThirtyMinutes
    ensures 30 < minutesBefore <= 60 <==> phrase == OneHour
    ensures 60 < minutesBefore <==> phrase == Soon
  {
    if minutesBefore <= 10 then TenMinutes
    else if minutesBefore <= 15 then FifteenMinutes
    else if minutesBefore <= 30 then ThirtyMinutes
    else if minutesBefore <= 60 then OneHour
    else Soon
  }

  /**
   * The lead times the function advertises: 10, 15 and 30 minutes and one hour get
   * their own phrase (30 is the default); one day before falls through to "pronto".
   */
  lemma AdvertisedLeadTimes()
    ensures TimeMessage(10) == TenMinutes
    ensures TimeMessage(15) == FifteenMinutes
    ensures TimeMessage(DefaultMinutesBefore) == ThirtyMinutes
    ensures TimeMessage(60) == OneHour
    ensures TimeMessage(24 * 60) == Soon
  {
  }

  /** The part of the body every reminder has: the quoted event name, "comienza" and the phrase. */
  function ReminderHead(nombre: string, timeMessage: string): string {
    "\"" + nombre + "\" comienza " + timeMessage
  }

  /** The notification body; " en <ubicacion>" is appended only for a truthy location. */
  function ReminderBody(nombre: string, timeMessage: string, ubicacion: Option<string>): (body: string)
    ensures |body| >= |ReminderHead(nombre, timeMessage)|
    ensures body[..|ReminderHead(nombre, timeMessage)|] == ReminderHead(nombre, timeMessage)
    ensures |body| > |ReminderHead(nombre, timeMessage)| <==> Truthy(ubicacion)
  {
    ReminderHead(nombre, timeMessage) + (if Truthy(ubicacion) then " en " + ubicacion.value else "")
  }

  /** Reads the location back out of a body, given the event name and the phrase it was built with. */
  function LocationOf(body: string, nombre: string, timeMessage: string): Option<string> {
    var head := ReminderHead(nombre, timeMessage) + " en ";
    if |body| >= |head| && body[..|head|] == head then Some(body[|head|..]) else None
  }

  /** The body names the location exactly when it is truthy, and then verbatim. */
  lemma LocationRoundTrip(nombre: string, timeMessage: string, ubicacion: Option<string>)
    ensures LocationOf(ReminderBody(nombre, timeMessage, ubicacion), nombre, timeMessage)
         == if Truthy(ubicacion) then ubicacion else None
  {
    var head := ReminderHead(nombre, timeMessage);
    var body := ReminderBody(nombre, timeMessage, ubicacion);
    if Truthy(ubicacion) {
      assert body == (head + " en ") + ubicacion.value;
    } else {
      assert body == head;
    }
  }
}
