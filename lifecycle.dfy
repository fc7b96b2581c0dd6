/**
 * What each write to the appointment table produces (booking, editing through
 * `CitaForm`, `finalizar_cita`, `cancelar_cita`, `confirmar_cita` in core/views.py),
 * each followed by the `Cita.save` amount rule, and which of them keep the
 * table free of double bookings.
 */
module Lifecycle {
  import opened Wrappers
  import opened Calendar
  import opened Records
  import opened Validation

  /** A new appointment as `agendar_cita` stores it: pending, charged the service's price. */
  function NewCita(cliente: ClienteId, profesional: ProfesionalId, servicio: ServicioId,
                   fecha: Date, hora: Time, precio: int): (c: Cita)
    ensures c.estado == Pendiente && c.montoCobrado == Some(precio)
    ensures c.cliente == cliente && c.profesional == profesional && c.servicio == servicio
    ensures c.fecha == fecha && c.hora == hora
  {
    WithDefaultMonto(Cita(cliente, profesional, servicio, fecha, hora, None, DefaultEstado), precio)
  }

  /**
   * `editar_cita`: the form replaces client, professional, service, date and time;
   * status and charged amount are kept, except that an empty or zero amount takes
   * the price of the (new) service.
   */
  function Rescheduled(c: Cita, cliente: ClienteId, profesional: ProfesionalId, servicio: ServicioId,
                       fecha: Date, hora: Time, precio: int): (r: Cita)
    ensures r.cliente == cliente && r.profesional == profesional && r.servicio == servicio
    ensures r.fecha == fecha && r.hora == hora && r.estado == c.estado
    ensures r.montoCobrado == if c.montoCobrado.None? || c.montoCobrado == Some(0) then Some(precio) else c.montoCobrado
  {
    WithDefaultMonto(c.(cliente := cliente, profesional := profesional, servicio := servicio,
                        fecha := fecha, hora := hora), precio)
  }

  /** `finalizar_cita`: the submitted amount (then the save rule) and status REALIZADO. */
  function Finalized(c: Cita, monto: Option<int>, precio: int): (r: Cita)
    ensures r.estado == Realizado
    ensures r.montoCobrado == if monto.None? || monto == Some(0) then Some(precio) else monto
    ensures r == c.(montoCobrado := r.montoCobrado, estado := Realizado)
  {
    WithDefaultMonto(c.(montoCobrado := monto, estado := Realizado), precio)
  }

  /** `cancelar_cita` on a confirmed request: status CANCELADO, then the save rule. */
  function Cancelled(c: Cita, precio: int): (r: Cita)
    ensures r.estado == Cancelado
    ensures r == WithDefaultMonto(c, precio).(estado := Cancelado)
  {
    WithDefaultMonto(c.(estado := Cancelado), precio)
  }

  /** `confirmar_cita`: status CONFIRMADO whatever it was before, then the save rule. */
  function Confirmed(c: Cita, precio: int): (r: Cita)
    ensures r.estado == Confirmado
    ensures r == WithDefaultMonto(c, precio).(estado := Confirmado)
  {
    WithDefaultMonto(c.(estado := Confirmado), precio)
  }

  // ---------------------------------------------------------------------------
  // Double booking

  /** No two non-cancelled appointments of one professional share a date and time. */
  ghost predicate NoDoubleBooking(citas: map<CitaId, Cita>)
  {
    forall i, j :: i in citas && j in citas && i != j && citas[i].estado != Cancelado ==>
      !Occupies(citas[j], citas[i].profesional, citas[i].fecha, citas[i].hora)
  }

  /** In a table free of double bookings, at most one row can block a slot. */
  lemma AtMostOneCoincidente(citas: map<CitaId, Cita>, instance: Option<CitaId>,
                             p: ProfesionalId, f: Date, h: Time)
    requires NoDoubleBooking(citas)
    ensures |Coincidentes(citas, instance, p, f, h)| <= 1
  {
    var s := Coincidentes(citas, instance, p, f, h);
    if s != {} {
      var k :| k in s;
      forall j | j in s
        ensures j == k
      {
        assert Occupies(citas[j], citas[k].profesional, citas[k].fecha, citas[k].hora);
      }
      assert s == {k};
    }
  }

  /** A booking the validator accepted keeps the table free of double bookings. */
  lemma {:induction false} BookingKeepsNoDoubleBooking(citas: map<CitaId, Cita>, id: CitaId, c: Cita,
                                                      today: Date, now: Time)
    requires NoDoubleBooking(citas) && id !in citas
    requires Clean(citas, None, Some(c.fecha), Some(c.hora), Some(c.profesional), today, now) == Accept
    ensures NoDoubleBooking(citas[id := c])
  {
    var after := citas[id := c];
    forall i, j | i in after && j in after && i != j && after[i].estado != Cancelado
      ensures !Occupies(after[j], after[i].profesional, after[i].fecha, after[i].hora)
    {
      if i == id {
        assert j !in Coincidentes(citas, None, c.profesional, c.fecha, c.hora);
      } else if j == id {
        assert i !in Coincidentes(citas, None, c.profesional, c.fecha, c.hora);
      }
    }
  }

  /** An edit the validator accepted keeps the table free of double bookings. */
  lemma {:induction false} EditingKeepsNoDoubleBooking(citas: map<CitaId, Cita>, id: CitaId, c: Cita,
                                                      today: Date, now: Time)
    requires NoDoubleBooking(citas) && id in citas
    requires Clean(citas, Some(id), Some(c.fecha), Some(c.hora), Some(c.profesional), today, now) == Accept
    ensures NoDoubleBooking(citas[id := c])
  {
    var after := citas[id := c];
    forall i, j | i in after && j in after && i != j && after[i].estado != Cancelado
      ensures !Occupies(after[j], after[i].profesional, after[i].fecha, after[i].hora)
    {
      if i == id {
        assert j !in Coincidentes(citas, Some(id), c.profesional, c.fecha, c.hora);
      } else if j == id {
        assert i !in Coincidentes(citas, Some(id), c.profesional, c.fecha, c.hora);
      }
    }
  }

  /** Cancelling never creates a double booking. */
  lemma CancellingKeepsNoDoubleBooking(citas: map<CitaId, Cita>, id: CitaId, precio: int)
    requires NoDoubleBooking(citas) && id in citas
    ensures NoDoubleBooking(citas[id := Cancelled(citas[id], precio)])
  {
  }

  /**
   * In a table without double bookings, re-saving an active appointment unchanged
   * is accepted by the validator (provided its slot is not yet in the past): the
   * row does not conflict with itself, and no other row holds its slot.
   */
  lemma {:induction false} ResaveUnchangedAccepted(citas: map<CitaId, Cita>, k: CitaId, today: Date, now: Time)
    requires NoDoubleBooking(citas) && k in citas && citas[k].estado != Cancelado
    requires !DateBefore(citas[k].fecha, today) && !(citas[k].fecha == today && TimeBefore(citas[k].hora, now))
    ensures var c := citas[k]; Clean(citas, Some(k), Some(c.fecha), Some(c.hora), Some(c.profesional), today, now) == Accept
  {
    var c := citas[k];
    assert Coincidentes(citas, Some(k), c.profesional, c.fecha, c.hora) == {};
  }

  /** Two appointments of professional 1 at 2025-03-10 10:00, the second one cancelled. */
  function ClashingPair(): map<CitaId, Cita>
  {
    var slot := Cita(1, 1, 1, Date(2025, 3, 10), Time(10, 0, 0, 0), Some(50000), Pendiente);
    map[1 := slot, 2 := slot.(estado := Cancelado)]
  }

  /**
   * `confirmar_cita` re-activates a cancelled appointment without asking the
   * validator, so it can put two active appointments in one slot.
   */
  lemma ConfirmCanDoubleBook()
    ensures NoDoubleBooking(ClashingPair())
    ensures !NoDoubleBooking(ClashingPair()[2 := Confirmed(ClashingPair()[2], 50000)])
  {
    var after := ClashingPair()[2 := Confirmed(ClashingPair()[2], 50000)];
    assert Occupies(after[2], after[1].profesional, after[1].fecha, after[1].hora);
  }

  /** `finalizar_cita` does the same: a cancelled appointment can be finalized into an occupied slot. */
  lemma FinalizeCanDoubleBook()
    ensures NoDoubleBooking(ClashingPair())
    ensures !NoDoubleBooking(ClashingPair()[2 := Finalized(ClashingPair()[2], Some(50000), 50000)])
  {
    var after := ClashingPair()[2 := Finalized(ClashingPair()[2], Some(50000), 50000)];
    assert Occupies(after[2], after[1].profesional, after[1].fecha, after[1].hora);
  }
}
