/**
 * The payload both edge functions post to Firebase Cloud Messaging, and what one
 * awaited call to it yields. The HTTP call itself is not modelled: its outcome is
 * an input.
 */
module Fcm {

  /** The `data` object of a push message. */
  datatype PushData =
    | EventReminder(eventoId: int, minutesBefore: string)
    | NewRegistration(eventoId: int)
  {
    /** The `type` key the mobile client switches on. */
    function Type(): string {
      match this
      case EventReminder(_, _) => "event_reminder"
      case NewRegistration(_) => "new_registration"
    }
  }

  /** What a request body says apart from its recipient: `notification.title`, `notification.body` and `data`. */
  datatype Message = Message(title: string, body: string, data: PushData)

  /** One request body: the recipient token `to` and the message. */
  datatype Push = Push(to: string, message: Message)

  /**
   * What awaiting `fetch` and then `response.json()` gives: the parsed response,
   * or the error either of them threw.
   */
  datatype Delivery = Delivered(response: string) | Threw(message: string)
}
