/**
 * One run of the reminder function: fetch the events of the target date, keep the
 * due ones, and for each of them post a reminder to every registered student who
 * has a push token. The store queries and the push calls are oracles indexed by the
 * order in which the run makes them.
 */
module ReminderDispatch {
  import opened Values
  import opened Fcm
  import opened Decimal
  import opened ReminderWindow
  import opened ReminderText

  /** The joined `usuario` row of a registered student. */
  datatype Usuario = Usuario(nombre: Option<string>, fcmToken: Option<string>)
  datatype Estudiante = Estudiante(usuario: Option<Usuario>)
  /** One row of the `estudiante_evento` query. */
  datatype Registration = Registration(idEstudiante: int, estudiante: Option<Estudiante>)

  /** A query's `{ data, error }` reply: an error, or rows that may be `null`. */
  datatype Query<T> = Failed(message: string) | Rows(data: Option<seq<T>>)

  /** `data || []` */
  function RowsOrEmpty<T>(data: Option<seq<T>>): seq<T> {
    match data
    case None => []
    case Some(rows) => rows
  }

  /** `registro.estudiante?.usuario?.fcm_token` */
  function FcmToken(r: Registration): Option<string> {
    match r.estudiante
    case Some(Estudiante(Some(u))) => u.fcmToken
    case _ => None
  }

  /** `registro.estudiante?.usuario?.nombre` */
  function StudentName(r: Registration): Option<string> {
    match r.estudiante
    case Some(Estudiante(Some(u))) => u.nombre
    case _ => None
  }

  /** The message a reminder run posts about one event, the same for each of its students. */
  function Reminder(e: Event, minutesBefore: int): Message {
    Message(ReminderTitle, ReminderBody(e.nombre, TimeMessage(minutesBefore), e.ubicacion),
            EventReminder(e.id, DecimalString(minutesBefore)))
  }

  /**
   * A reminder's `data` is typed `event_reminder`, names the event and carries the
   * lead time as a decimal string that reads back as the lead time.
   */
  lemma ReminderPayload(e: Event, minutesBefore: int)
    ensures var m := Reminder(e, minutesBefore);
            && m.title == ReminderTitle
            && m.data.Type() == "event_reminder"
            && m.data.eventoId == e.id
            && ParseInt(m.data.minutesBefore) == Some(minutesBefore)
  {
    DecimalRoundTrip(minutesBefore);
  }

  /** The message of each due event in a run with the given lead time. */
  function Reminders(minutesBefore: int): Event -> Message {
    e => Reminder(e, minutesBefore)
  }

  /** One call the run makes to the push service, with what it would record on success. */
  datatype Attempt = Attempt(evento: string, estudiante: Option<string>, push: Push)

  /** One entry of `notificationsSent`. */
  datatype SentRecord = SentRecord(evento: string, estudiante: Option<string>, result: string)

  // ----- what the run attempts -----

  function AttemptFor(e: Event, r: Registration, message: Message): seq<Attempt> {
    if Truthy(FcmToken(r)) then [Attempt(e.nombre, StudentName(r), Push(FcmToken(r).value, message))]
    else []
  }

  /** The sends for one event, in registration order; registrations without a token give none. */
  function EventAttempts(e: Event, regs: seq<Registration>, message: Message): (r: seq<Attempt>)
    decreases |regs|
  {
    if regs == [] then []
    else EventAttempts(e, regs[..|regs| - 1], message) + AttemptFor(e, regs[|regs| - 1], message)
  }

  /** Number of registrations that carry a truthy token. */
  function TokenCount(regs: seq<Registration>): nat {
    if regs == [] then 0
    else (if Truthy(FcmToken(regs[0])) then 1 else 0) + TokenCount(regs[1..])
  }

  /** The sends for the i-th due event: none when its registration query failed. */
  function EventBlock(matched: seq<Event>, lookup: nat -> Query<Registration>, reminder: Event -> Message, i: nat): seq<Attempt>
    requires i < |matched|
  {
    match lookup(i)
    case Failed(_) => []
    case Rows(data) => EventAttempts(matched[i], RowsOrEmpty(data), reminder(matched[i]))
  }

  /** The sends for due events `lo` up to `hi`, in order. */
  function Planned(matched: seq<Event>, lookup: nat -> Query<Registration>, reminder: Event -> Message, lo: nat, hi: nat): seq<Attempt>
    requires lo <= hi <= |matched|
    decreases hi
  {
    if lo == hi then []
    else Planned(matched, lookup, reminder, lo, hi - 1) + EventBlock(matched, lookup, reminder, hi - 1)
  }

  /** Token-bearing registrations over the due events `lo` up to `hi` whose query succeeded. */
  function ReachableTokens(lookup: nat -> Query<Registration>, lo: nat, hi: nat): nat
    requires lo <= hi
    decreases hi
  {
    if lo == hi then 0
    else
      ReachableTokens(lookup, lo, hi - 1)
      + match lookup(hi - 1) case Failed(_) => 0 case Rows(data) => TokenCount(RowsOrEmpty(data))
  }

  // ----- what the run records -----

  function RecordFor(atts: seq<Attempt>, deliver: nat -> Delivery, k: nat): seq<SentRecord>
    requires k < |atts|
  {
    match deliver(k)
    case Threw(_) => []
    case Delivered(result) => [SentRecord(atts[k].evento, atts[k].estudiante, result)]
  }

  /** `notificationsSent` after the attempts `lo` up to `hi`: one record per call that did not throw. */
  function Sent(atts: seq<Attempt>, deliver: nat -> Delivery, lo: nat, hi: nat): seq<SentRecord>
    requires lo <= hi <= |atts|
    decreases hi
  {
    if lo == hi then [] else Sent(atts, deliver, lo, hi - 1) + RecordFor(atts, deliver, hi - 1)
  }

  /** Number of calls among `lo` up to `hi` that threw. */
  function Throws(deliver: nat -> Delivery, lo: nat, hi: nat): nat
    requires lo <= hi
    decreases hi
  {
    if lo == hi then 0 else Throws(deliver, lo, hi - 1) + if deliver(hi - 1).Threw? then 1 else 0
  }

  // ----- the dispatch loop -----

  /**
   * One `try` around a push call: the call is made (it is the next attempt) and a
   * record is appended only when it did not throw.
   */
  method TrySend(attemptedBefore: seq<Attempt>, sentBefore: seq<SentRecord>, attempt: Attempt, deliver: nat -> Delivery)
    returns (attempted: seq<Attempt>, notificationsSent: seq<SentRecord>)
    requires sentBefore == Sent(attemptedBefore, deliver, 0, |attemptedBefore|)
    ensures attempted == attemptedBefore + [attempt]
    ensures notificationsSent == Sent(attempted, deliver, 0, |attempted|)
    ensures |notificationsSent| == |sentBefore| + (if deliver(|attemptedBefore|).Delivered? then 1 else 0)
  {
    SentStep(attemptedBefore, attempt, deliver);
    var k := |attemptedBefore|;
    attempted := attemptedBefore + [attempt];
    match deliver(k) {
      case Delivered(result) =>
        notificationsSent := sentBefore + [SentRecord(attempt.evento, attempt.estudiante, result)];
      case Threw(_) =>
        notificationsSent := sentBefore;
    }
  }

  /**
   * The inner loop for one due event: skips a registration without a token and
   * swallows a failed send, appending a record only for a call that succeeded.
   */
  method NotifyRegistrations(evento: Event, registros: seq<Registration>, message: Message, deliver: nat -> Delivery,
                             attemptedBefore: seq<Attempt>, sentBefore: seq<SentRecord>)
    returns (attempted: seq<Attempt>, notificationsSent: seq<SentRecord>)
    requires sentBefore == Sent(attemptedBefore, deliver, 0, |attemptedBefore|)
    ensures attempted == attemptedBefore + EventAttempts(evento, registros, message)
    ensures notificationsSent == Sent(attempted, deliver, 0, |attempted|)
  {
    attempted, notificationsSent := attemptedBefore, sentBefore;
    for j := 0 to |registros|
      invariant attempted == attemptedBefore + EventAttempts(evento, registros[..j], message)
      invariant notificationsSent == Sent(attempted, deliver, 0, |attempted|)
    {
      var registro := registros[j];
      EventAttemptsStep(evento, registros, j, message);
      var fcmToken := FcmToken(registro);
      if !Truthy(fcmToken) {
        continue;
      }
      var attempt := Attempt(evento.nombre, StudentName(registro), Push(fcmToken.value, message));
      attempted, notificationsSent := TrySend(attempted, notificationsSent, attempt, deliver);
    }
    assert registros[..|registros|] == registros;
  }

  /**
   * The outer loop over due events: skips an event whose registration query failed
   * and otherwise runs the inner loop on its rows (`registros || []`).
   */
  method Dispatch(matched: seq<Event>, lookup: nat -> Query<Registration>, minutesBefore: int, deliver: nat -> Delivery)
    returns (attempted: seq<Attempt>, notificationsSent: seq<SentRecord>)
    ensures attempted == Planned(matched, lookup, Reminders(minutesBefore), 0, |matched|)
    ensures notificationsSent == Sent(attempted, deliver, 0, |attempted|)
  {
    attempted, notificationsSent := [], [];
    for i := 0 to |matched|
      invariant attempted == Planned(matched, lookup, Reminders(minutesBefore), 0, i)
      invariant notificationsSent == Sent(attempted, deliver, 0, |attempted|)
    {
      var evento := matched[i];
      match lookup(i) {
        case Failed(_) =>
          assert Planned(matched, lookup, Reminders(minutesBefore), 0, i + 1) == attempted + [];
          continue;
        case Rows(data) =>
          var message := Reminder(evento, minutesBefore);
          attempted, notificationsSent :=
            NotifyRegistrations(evento, RowsOrEmpty(data), message, deliver, attempted, notificationsSent);
      }
    }
  }

  // ----- properties of the dispatch -----

  lemma EventAttemptsStep(e: Event, regs: seq<Registration>, j: nat, message: Message)
    requires j < |regs|
    ensures EventAttempts(e, regs[..j + 1], message) == EventAttempts(e, regs[..j], message) + AttemptFor(e, regs[j], message)
  {
    assert regs[..j + 1][..j] == regs[..j];
  }

  lemma SentStep(atts: seq<Attempt>, a: Attempt, deliver: nat -> Delivery)
    ensures Sent(atts + [a], deliver, 0, |atts| + 1)
         == Sent(atts, deliver, 0, |atts|)
            + match deliver(|atts|) case Threw(_) => [] case Delivered(result) => [SentRecord(a.evento, a.estudiante, result)]
  {
    SentPrefix(atts, [a], deliver, 0, |atts|);
    assert (atts + [a])[|atts|] == a;
  }

  lemma {:induction false} SentPrefix(atts: seq<Attempt>, more: seq<Attempt>, deliver: nat -> Delivery, lo: nat, hi: nat)
    requires lo <= hi <= |atts|
    ensures Sent(atts + more, deliver, lo, hi) == Sent(atts, deliver, lo, hi)
    decreases hi
  {
    if lo < hi {
      SentPrefix(atts, more, deliver, lo, hi - 1);
    }
  }

  lemma {:induction false} EventAttemptsAppend(e: Event, a: seq<Registration>, b: seq<Registration>, message: Message)
    ensures EventAttempts(e, a + b, message) == EventAttempts(e, a, message) + EventAttempts(e, b, message)
    decreases |b|
  {
    if b == [] {
      assert a + b == a;
    } else {
      assert (a + b)[..|a + b| - 1] == a + b[..|b| - 1];
      EventAttemptsAppend(e, a, b[..|b| - 1], message);
    }
  }

  /** Exactly the token-bearing registrations of an event get a send. */
  lemma {:induction false} EventAttemptsCount(e: Event, regs: seq<Registration>, message: Message)
    ensures |EventAttempts(e, regs, message)| == TokenCount(regs)
    decreases |regs|
  {
    if regs != [] {
      assert regs == [regs[0]] + regs[1..];
      EventAttemptsAppend(e, [regs[0]], regs[1..], message);
      assert [regs[0]][..0] == [];
      EventAttemptsCount(e, regs[1..], message);
    }
  }

  /**
   * Each token-bearing registration gets its own send, with its token, its student's
   * name and the event's message, at the position given by the token-bearing
   * registrations before it: the sends follow registration order.
   */
  lemma EventAttemptsAt(e: Event, regs: seq<Registration>, message: Message, j: nat)
    requires j < |regs| && Truthy(FcmToken(regs[j]))
    ensures TokenCount(regs[..j]) < |EventAttempts(e, regs, message)|
    ensures EventAttempts(e, regs, message)[TokenCount(regs[..j])]
         == Attempt(e.nombre, StudentName(regs[j]), Push(FcmToken(regs[j]).value, message))
  {
    var here := Attempt(e.nombre, StudentName(regs[j]), Push(FcmToken(regs[j]).value, message));
    var before, rest := regs[..j], regs[j + 1..];
    assert regs == before + ([regs[j]] + rest);
    EventAttemptsAppend(e, before, [regs[j]] + rest, message);
    EventAttemptsAppend(e, [regs[j]], rest, message);
    assert [regs[j]][..0] == [];
    assert EventAttempts(e, [regs[j]], message) == [here];
    EventAttemptsCount(e, before, message);
  }

  /** Every send of an event goes to the truthy token of one of its registrations, with that event's reminder. */
  lemma {:induction false} EventAttemptsFromRegistrations(e: Event, regs: seq<Registration>, message: Message)
    ensures forall a | a in EventAttempts(e, regs, message) ::
              && a.evento == e.nombre && a.push.message == message
              && exists j :: 0 <= j < |regs| && FcmToken(regs[j]) == Some(a.push.to) && Truthy(FcmToken(regs[j]))
    decreases |regs|
  {
    if regs != [] {
      var n := |regs| - 1;
      EventAttemptsFromRegistrations(e, regs[..n], message);
      forall a | a in EventAttempts(e, regs, message)
        ensures exists j :: 0 <= j < |regs| && FcmToken(regs[j]) == Some(a.push.to) && Truthy(FcmToken(regs[j]))
      {
        if a in EventAttempts(e, regs[..n], message) {
          var j :| 0 <= j < n && FcmToken(regs[..n][j]) == Some(a.push.to) && Truthy(FcmToken(regs[..n][j]));
          assert regs[..n][j] == regs[j];
        } else {
          assert FcmToken(regs[n]) == Some(a.push.to);
        }
      }
    }
  }

  /** A registration without a token adds nothing: the event's sends are those of the other registrations. */
  lemma TokenlessRegistrationSkipped(e: Event, regs: seq<Registration>, j: nat, message: Message)
    requires j < |regs| && !Truthy(FcmToken(regs[j]))
    ensures EventAttempts(e, regs, message) == EventAttempts(e, regs[..j] + regs[j + 1..], message)
  {
    var skipped := EventAttempts(e, [regs[j]], message);
    assert [regs[j]][..0] == [];
    assert AttemptFor(e, regs[j], message) == [];
    assert EventAttempts(e, [], message) == [];
    assert skipped == EventAttempts(e, [], message) + AttemptFor(e, regs[j], message);
    assert skipped == [];
    assert regs == regs[..j] + ([regs[j]] + regs[j + 1..]);
    EventAttemptsAppend(e, regs[..j], [regs[j]] + regs[j + 1..], message);
    EventAttemptsAppend(e, [regs[j]], regs[j + 1..], message);
    assert EventAttempts(e, [regs[j]] + regs[j + 1..], message) == EventAttempts(e, regs[j + 1..], message);
    EventAttemptsAppend(e, regs[..j], regs[j + 1..], message);
  }

  lemma {:induction false} PlannedSplit(matched: seq<Event>, lookup: nat -> Query<Registration>, reminder: Event -> Message, lo: nat, mid: nat, hi: nat)
    requires lo <= mid <= hi <= |matched|
    ensures Planned(matched, lookup, reminder, lo, hi)
         == Planned(matched, lookup, reminder, lo, mid) + Planned(matched, lookup, reminder, mid, hi)
    decreases hi
  {
    if mid < hi {
      PlannedSplit(matched, lookup, reminder, lo, mid, hi - 1);
    }
  }

  lemma AppendAssociative<T>(a: seq<T>, b: seq<T>, c: seq<T>)
    ensures a + b + c == a + (b + c)
  {
  }

  lemma PlannedAround(matched: seq<Event>, lookup: nat -> Query<Registration>, reminder: Event -> Message, i: nat)
    requires i < |matched|
    ensures Planned(matched, lookup, reminder, 0, |matched|)
         == Planned(matched, lookup, reminder, 0, i) + EventBlock(matched, lookup, reminder, i)
            + Planned(matched, lookup, reminder, i + 1, |matched|)
  {
    PlannedSplit(matched, lookup, reminder, 0, i, |matched|);
    PlannedSplit(matched, lookup, reminder, i, i + 1, |matched|);
    assert Planned(matched, lookup, reminder, i, i + 1) == EventBlock(matched, lookup, reminder, i);
    AppendAssociative(Planned(matched, lookup, reminder, 0, i), EventBlock(matched, lookup, reminder, i),
                      Planned(matched, lookup, reminder, i + 1, |matched|));
  }

  lemma {:induction false} PlannedLocal(matched: seq<Event>, lookup: nat -> Query<Registration>, lookup': nat -> Query<Registration>, reminder: Event -> Message, lo: nat, hi: nat)
    requires lo <= hi <= |matched|
    requires forall j :: lo <= j < hi ==> lookup(j) == lookup'(j)
    ensures Planned(matched, lookup, reminder, lo, hi) == Planned(matched, lookup', reminder, lo, hi)
    decreases hi
  {
    if lo < hi {
      PlannedLocal(matched, lookup, lookup', reminder, lo, hi - 1);
      assert lookup(hi - 1) == lookup'(hi - 1);
      assert EventBlock(matched, lookup, reminder, hi - 1) == EventBlock(matched, lookup', reminder, hi - 1);
    }
  }

  /**
   * A failed registration query costs only its own event: with the i-th query failed
   * instead, the run attempts the same sends for every earlier and every later event.
   */
  lemma FailedLookupSkipsOnlyThatEvent(matched: seq<Event>, lookup: nat -> Query<Registration>, lookup': nat -> Query<Registration>, reminder: Event -> Message, i: nat)
    requires i < |matched|
    requires lookup'(i).Failed?
    requires forall j :: j != i ==> lookup'(j) == lookup(j)
    ensures Planned(matched, lookup, reminder, 0, |matched|)
         == Planned(matched, lookup, reminder, 0, i) + EventBlock(matched, lookup, reminder, i)
            + Planned(matched, lookup, reminder, i + 1, |matched|)
    ensures Planned(matched, lookup', reminder, 0, |matched|)
         == Planned(matched, lookup, reminder, 0, i) + Planned(matched, lookup, reminder, i + 1, |matched|)
  {
    var before, after := Planned(matched, lookup, reminder, 0, i), Planned(matched, lookup, reminder, i + 1, |matched|);
    PlannedAround(matched, lookup, reminder, i);
    assert Planned(matched, lookup', reminder, 0, |matched|) == before + after by {
      PlannedAround(matched, lookup', reminder, i);
      assert EventBlock(matched, lookup', reminder, i) == [];
      PlannedLocal(matched, lookup, lookup', reminder, 0, i);
      PlannedLocal(matched, lookup, lookup', reminder, i + 1, |matched|);
      assert Planned(matched, lookup', reminder, 0, |matched|) == before + [] + after;
      assert before + [] == before;
    }
  }

  /** The run attempts one send per token-bearing registration of the due events whose query succeeded. */
  lemma {:induction false} PlannedCount(matched: seq<Event>, lookup: nat -> Query<Registration>, reminder: Event -> Message, lo: nat, hi: nat)
    requires lo <= hi <= |matched|
    ensures |Planned(matched, lookup, reminder, lo, hi)| == ReachableTokens(lookup, lo, hi)
    decreases hi
  {
    if lo < hi {
      PlannedCount(matched, lookup, reminder, lo, hi - 1);
      match lookup(hi - 1) {
        case Failed(_) =>
        case Rows(data) => EventAttemptsCount(matched[hi - 1], RowsOrEmpty(data), reminder(matched[hi - 1]));
      }
    }
  }

  lemma {:induction false} SentSplit(atts: seq<Attempt>, deliver: nat -> Delivery, lo: nat, mid: nat, hi: nat)
    requires lo <= mid <= hi <= |atts|
    ensures Sent(atts, deliver, lo, hi) == Sent(atts, deliver, lo, mid) + Sent(atts, deliver, mid, hi)
    decreases hi
  {
    if mid < hi {
      SentSplit(atts, deliver, lo, mid, hi - 1);
    }
  }

  /** Every attempt either lands in `notificationsSent` or threw: the count is attempts minus failures. */
  lemma {:induction false} SentCount(atts: seq<Attempt>, deliver: nat -> Delivery, lo: nat, hi: nat)
    requires lo <= hi <= |atts|
    ensures |Sent(atts, deliver, lo, hi)| + Throws(deliver, lo, hi) == hi - lo
    decreases hi
  {
    if lo < hi {
      SentCount(atts, deliver, lo, hi - 1);
    }
  }

  lemma SentAround(atts: seq<Attempt>, deliver: nat -> Delivery, k: nat)
    requires k < |atts|
    ensures Sent(atts, deliver, 0, |atts|)
         == Sent(atts, deliver, 0, k) + RecordFor(atts, deliver, k) + Sent(atts, deliver, k + 1, |atts|)
  {
    SentSplit(atts, deliver, 0, k, |atts|);
    SentSplit(atts, deliver, k, k + 1, |atts|);
    assert Sent(atts, deliver, k, k + 1) == RecordFor(atts, deliver, k);
    AppendAssociative(Sent(atts, deliver, 0, k), RecordFor(atts, deliver, k), Sent(atts, deliver, k + 1, |atts|));
  }

  lemma {:induction false} SentLocal(atts: seq<Attempt>, deliver: nat -> Delivery, deliver': nat -> Delivery, lo: nat, hi: nat)
    requires lo <= hi <= |atts|
    requires forall k :: lo <= k < hi ==> deliver(k) == deliver'(k)
    ensures Sent(atts, deliver, lo, hi) == Sent(atts, deliver', lo, hi)
    decreases hi
  {
    if lo < hi {
      SentLocal(atts, deliver, deliver', lo, hi - 1);
      assert deliver(hi - 1) == deliver'(hi - 1);
      assert RecordFor(atts, deliver, hi - 1) == RecordFor(atts, deliver', hi - 1);
    }
  }

  /**
   * A send that throws costs only its own recipient: the records of every earlier and
   * every later send are the same as when it succeeds.
   */
  lemma ThrownSendSkipsOnlyThatRecipient(atts: seq<Attempt>, deliver: nat -> Delivery, deliver': nat -> Delivery, k: nat)
    requires k < |atts|
    requires deliver(k).Delivered? && deliver'(k).Threw?
    requires forall j :: j != k ==> deliver'(j) == deliver(j)
    ensures Sent(atts, deliver, 0, |atts|)
         == Sent(atts, deliver, 0, k) + [SentRecord(atts[k].evento, atts[k].estudiante, deliver(k).response)]
            + Sent(atts, deliver, k + 1, |atts|)
    ensures Sent(atts, deliver', 0, |atts|) == Sent(atts, deliver, 0, k) + Sent(atts, deliver, k + 1, |atts|)
  {
    var before, after := Sent(atts, deliver, 0, k), Sent(atts, deliver, k + 1, |atts|);
    var record := SentRecord(atts[k].evento, atts[k].estudiante, deliver(k).response);
    assert Sent(atts, deliver, 0, |atts|) == before + [record] + after by {
      SentAround(atts, deliver, k);
      assert RecordFor(atts, deliver, k) == [record];
    }
    assert Sent(atts, deliver', 0, |atts|) == before + after by {
      SentAround(atts, deliver', k);
      assert RecordFor(atts, deliver', k) == [];
      SentLocal(atts, deliver, deliver', 0, k);
      SentLocal(atts, deliver, deliver', k + 1, |atts|);
      assert Sent(atts, deliver', 0, |atts|) == before + [] + after;
      assert before + [] == before;
    }
  }

  // ----- the whole run -----

  /** `minutes_before` from the request body, 30 when absent. */
  function MinutesBefore(requested: Option<int>): int {
    match requested
    case None => DefaultMinutesBefore
    case Some(m) => m
  }

  function NoEventsMessage(minutesBefore: int): string {
    "No hay eventos en " + DecimalString(minutesBefore) + " minutos"
  }

  /** The function's reply. */
  datatype ReminderResponse =
    | ServerError(message: string)
    | NoEvents(minutesBefore: int, checkedDate: string, checkedTime: string)
    | Summary(minutesBefore: int, eventosEncontrados: nat, detalles: seq<SentRecord>)
  {
    function Status(): int {
      if ServerError? then 500 else 200
    }

    /** The `message` of the reply when nothing is due. */
    function Message(): string
      requires NoEvents?
    {
      NoEventsMessage(minutesBefore)
    }

    /** `notificaciones_enviadas` */
    function NotificacionesEnviadas(): nat
      requires Summary?
    {
      |detalles|
    }
  }

  /**
   * One invocation: a failed event query is a 500; no due event is a 200 that sends
   * nothing; otherwise the dispatch loop runs and its records are the summary.
   */
  method Remind(requested: Option<int>, target: Target, events: Query<Event>,
                lookup: nat -> Query<Registration>, deliver: nat -> Delivery)
    returns (response: ReminderResponse, attempted: seq<Attempt>)
    ensures response.Status() == (if events.Failed? then 500 else 200)
    ensures events.Failed? ==> response == ServerError(events.message) && attempted == []
    ensures events.Rows? && InRange(RowsOrEmpty(events.data), target) == [] ==>
              response == NoEvents(MinutesBefore(requested), target.date, ClockString(target)) && attempted == []
    ensures events.Rows? && InRange(RowsOrEmpty(events.data), target) != [] ==>
              var matched := InRange(RowsOrEmpty(events.data), target);
              && attempted == Planned(matched, lookup, Reminders(MinutesBefore(requested)), 0, |matched|)
              && response == Summary(MinutesBefore(requested), |matched|, Sent(attempted, deliver, 0, |attempted|))
              && response.NotificacionesEnviadas() + Throws(deliver, 0, |attempted|) == |attempted|
              && |attempted| == ReachableTokens(lookup, 0, |matched|)
  {
    var minutesBefore := MinutesBefore(requested);
    match events {
      case Failed(message) =>
        return ServerError(message), [];
      case Rows(data) =>
        var eventosEnRango := InRange(RowsOrEmpty(data), target);
        if eventosEnRango == [] {
          return NoEvents(minutesBefore, target.date, ClockString(target)), [];
        }
        var notificationsSent;
        attempted, notificationsSent := Dispatch(eventosEnRango, lookup, minutesBefore, deliver);
        PlannedCount(eventosEnRango, lookup, Reminders(minutesBefore), 0, |eventosEnRango|);
        SentCount(attempted, deliver, 0, |attempted|);
        response := Summary(minutesBefore, |eventosEnRango|, notificationsSent);
    }
  }
}
