/**
 * `CitaForm.clean` (core/forms.py): the decision taken before an appointment is
 * booked or edited. It reads a snapshot of the appointment table; "today" and
 * "now" are the values `date.today()` and `datetime.now().time()` returned.
 */
module Validation {
  import opened Wrappers
  import opened Text
  import opened Calendar
  import opened Records

  /** The outcome of `clean`: accepted, or the first check that failed. */
  datatype Verdict = Accept | PastDate | PastTime | Conflict

  /** An appointment that occupies the professional's slot: same date, same time, not cancelled. */
  predicate Occupies(c: Cita, profesional: ProfesionalId, fecha: Date, hora: Time)
  {
    c.profesional == profesional && c.fecha == fecha && c.hora == hora && c.estado != Cancelado
  }

  /** The row being edited, which the query leaves out (none when booking). */
  predicate IsInstance(k: CitaId, instance: Option<CitaId>)
  {
    instance == Some(k)
  }

  /**
   * The rows of `citas_coincidentes`: stored rows other than the one being
   * edited, non-empty exactly when somebody else holds the slot.
   */
  function Coincidentes(citas: map<CitaId, Cita>, instance: Option<CitaId>,
                        profesional: ProfesionalId, fecha: Date, hora: Time): (s: set<CitaId>)
    ensures s <= citas.Keys
    ensures instance.Some? ==> instance.value !in s
    ensures s == {} <==> !SlotTaken(citas, instance, profesional, fecha, hora)
  {
    var s := set k | k in citas && !IsInstance(k, instance) && Occupies(citas[k], profesional, fecha, hora);
    assert SlotTaken(citas, instance, profesional, fecha, hora) ==> s != {} by {
      if SlotTaken(citas, instance, profesional, fecha, hora) {
        var k :| k in citas && !IsInstance(k, instance) && Occupies(citas[k], profesional, fecha, hora);
        assert k in s;
      }
    }
    s
  }

  /** The date, time and professional are all there. */
  predicate Complete(fecha: Option<Date>, hora: Option<Time>, profesional: Option<ProfesionalId>)
  {
    fecha.Some? && hora.Some? && profesional.Some?
  }

  /** Somebody else already holds the slot. */
  predicate SlotTaken(citas: map<CitaId, Cita>, instance: Option<CitaId>,
                      profesional: ProfesionalId, fecha: Date, hora: Time)
  {
    exists k :: k in citas && !IsInstance(k, instance) && Occupies(citas[k], profesional, fecha, hora)
  }

  /**
   * `CitaForm.clean`. A missing date, time or professional is left to the field
   * validators. Otherwise, in this order: a date before today is refused; on
   * today's date a time before now is refused; a slot some other non-cancelled
   * appointment of that professional already holds is refused.
   */
  function Clean(citas: map<CitaId, Cita>, instance: Option<CitaId>,
                 fecha: Option<Date>, hora: Option<Time>, profesional: Option<ProfesionalId>,
                 today: Date, now: Time): (v: Verdict)
    ensures !Complete(fecha, hora, profesional) ==> v == Accept
    ensures Complete(fecha, hora, profesional) ==>
      var f, h, p := fecha.value, hora.value, profesional.value;
      && (v == PastDate <==> DateBefore(f, today))
      && (v == PastTime <==> f == today && TimeBefore(h, now))
      && (v == Conflict <==> !DateBefore(f, today) && !(f == today && TimeBefore(h, now))
                             && SlotTaken(citas, instance, p, f, h))
  {
    if !Complete(fecha, hora, profesional) then Accept
    else
      var f, h, p := fecha.value, hora.value, profesional.value;
      if DateBefore(f, today) then PastDate
      else if f == today && TimeBefore(h, now) then PastTime
      else if Coincidentes(citas, instance, p, f, h) != {} then Conflict
      else Accept
  }

  /**
   * The message each refusal shows; the conflict names the professional, through
   * `Profesional.__str__` as written, and the time.
   */
  function Message(v: Verdict, profesional: Profesional, hora: Time): (m: string)
    requires v != Accept
  {
    match v
    case PastDate => "No se pueden agendar citas en fechas pasadas."
    case PastTime => "La hora seleccionada ya ha pasado."
    case Conflict =>
      "El profesional " + ProfesionalStrAsWritten(profesional) + " ya tiene una cita agendada a las " + IsoTime(hora) + "."
  }

  lemma MessageHead(v: Verdict, p: Profesional, h: Time)
    requires v != Accept
    ensures |Message(v, p, h)| > 0
    ensures Message(v, p, h)[0] == match v case PastDate => 'N' case PastTime => 'L' case _ => 'E'
  {
    if v == Conflict {
      var m := Message(v, p, h);
      Pieces("El profesional ", ProfesionalStrAsWritten(p), " ya tiene una cita agendada a las ", IsoTime(h), ".");
      assert m[0] == m[..15][0];
    } else if v == PastDate {
      var m := Message(v, p, h);
      assert m == ['N'] + m[1..];
    } else {
      var m := Message(v, p, h);
      assert m == ['L'] + m[1..];
    }
  }

  /** Each refusal has its own message, and the conflict message names who and when. */
  lemma MessagesDistinct(v: Verdict, w: Verdict, p: Profesional, h: Time, q: Profesional, g: Time)
    requires v != Accept && w != Accept && v != w
    ensures Message(v, p, h) != Message(w, q, g)
    ensures var m, n := Message(Conflict, p, h), |ProfesionalStrAsWritten(p)|;
      && |m| == 15 + n + 34 + |IsoTime(h)| + 1
      && m[15..15 + n] == ProfesionalStrAsWritten(p) && m[14 + n] == ')'
      && m[49 + n..|m| - 1] == IsoTime(h)
  {
    Pieces("El profesional ", ProfesionalStrAsWritten(p), " ya tiene una cita agendada a las ", IsoTime(h), ".");
    MessageHead(v, p, h);
    MessageHead(w, q, g);
  }

  // ---------------------------------------------------------------------------
  // Properties of the decision

  /** A date before today is refused whatever the time and whatever the table holds. */
  lemma PastDateAlwaysRefused(citas: map<CitaId, Cita>, instance: Option<CitaId>,
                              f: Date, h: Time, p: ProfesionalId, today: Date, now: Time)
    requires DateBefore(f, today)
    ensures Clean(citas, instance, Some(f), Some(h), Some(p), today, now) == PastDate
  {
  }

  /** The time of day is only compared with now when the date is today. */
  lemma FutureDateIgnoresClock(citas: map<CitaId, Cita>, instance: Option<CitaId>,
                               f: Date, h: Time, p: ProfesionalId, today: Date, now: Time, now': Time)
    requires DateBefore(today, f)
    ensures Clean(citas, instance, Some(f), Some(h), Some(p), today, now)
         == Clean(citas, instance, Some(f), Some(h), Some(p), today, now')
    ensures Clean(citas, instance, Some(f), Some(h), Some(p), today, now) in {Accept, Conflict}
  {
  }

  /** A time equal to now is not in the past. */
  lemma NowIsNotPast(citas: map<CitaId, Cita>, instance: Option<CitaId>,
                     h: Time, p: ProfesionalId, today: Date)
    ensures Clean(citas, instance, Some(today), Some(h), Some(p), today, h) != PastTime
    ensures Clean(citas, instance, Some(today), Some(h), Some(p), today, h) != PastDate
  {
  }

  /**
   * Editing row `k` is judged exactly as booking against the table without `k`:
   * the row itself never counts as a conflict.
   */
  lemma {:induction false} EditIgnoresItself(citas: map<CitaId, Cita>, k: CitaId,
                                             fecha: Option<Date>, hora: Option<Time>, p: Option<ProfesionalId>,
                                             today: Date, now: Time)
    ensures Clean(citas, Some(k), fecha, hora, p, today, now) == Clean(citas - {k}, None, fecha, hora, p, today, now)
  {
    if Complete(fecha, hora, p) {
      assert Coincidentes(citas, Some(k), p.value, fecha.value, hora.value)
          == Coincidentes(citas - {k}, None, p.value, fecha.value, hora.value);
    }
  }

  /**
   * Only the exact slot matters: a row for another professional, at another date
   * or time, or a cancelled row, never changes the decision. The service (and so
   * its duration) is not consulted at all.
   */
  lemma {:induction false} OtherSlotsIrrelevant(citas: map<CitaId, Cita>, instance: Option<CitaId>,
                                                j: CitaId, c: Cita,
                                                f: Date, h: Time, p: ProfesionalId, today: Date, now: Time)
    requires j !in citas
    requires !Occupies(c, p, f, h)
    ensures Clean(citas[j := c], instance, Some(f), Some(h), Some(p), today, now)
         == Clean(citas, instance, Some(f), Some(h), Some(p), today, now)
  {
    assert Coincidentes(citas[j := c], instance, p, f, h) == Coincidentes(citas, instance, p, f, h);
  }

  /** A non-cancelled row in the slot makes any other booking there a conflict, unless it is already in the past. */
  lemma {:induction false} OccupiedSlotRefused(citas: map<CitaId, Cita>, instance: Option<CitaId>, j: CitaId,
                                               today: Date, now: Time)
    requires j in citas && !IsInstance(j, instance) && citas[j].estado != Cancelado
    ensures var c := citas[j];
      Clean(citas, instance, Some(c.fecha), Some(c.hora), Some(c.profesional), today, now)
      == if DateBefore(c.fecha, today) then PastDate
         else if c.fecha == today && TimeBefore(c.hora, now) then PastTime
         else Conflict
  {
    var c := citas[j];
    assert j in Coincidentes(citas, instance, c.profesional, c.fecha, c.hora);
  }
}
