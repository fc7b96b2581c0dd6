/**
 * The salon database as one object: the four tables of core/models.py, kept in
 * memory as maps from primary key to row, and the view functions of
 * core/views.py that write to them. HTTP plumbing is reduced to parameters: a
 * `confirmed` flag is a POST (a GET only shows a page), a missing row is
 * `NotFound` (the 404), form input arrives already parsed.
 */
module Store {
  import opened Wrappers
  import opened Calendar
  import opened Records
  import opened Validation
  import opened Lifecycle

  /** The fields `CitaForm` posts; `None` is a missing value. */
  datatype CitaInput = CitaInput(
    cliente: Option<ClienteId>, profesional: Option<ProfesionalId>, servicio: Option<ServicioId>,
    fecha: Option<Date>, hora: Option<Time>)

  /** What a form submission for an appointment ends in. */
  datatype FormResult =
    | Saved(id: CitaId)
    | Invalid(fieldsValid: bool, verdict: Verdict)
    | NotFound

  /** What a status change ends in. */
  datatype ActionResult = Done | Missing | AwaitingConfirmation | InvalidAmount

  /** What a delete request ends in; `Protected` is Django's `ProtectedError`. */
  datatype DeleteResult = Deleted | Absent | ShowConfirmation | Protected

  datatype SaveResult = Stored | DuplicateCiRuc | SaveRaised

  /** `max_digits=10, decimal_places=0` on `monto_cobrado`: an empty amount is allowed. */
  predicate ValidAmount(monto: Option<int>)
  {
    monto.None? || -10000000000 < monto.value < 10000000000
  }

  /** The `unique=True` constraint on `ci_ruc`. */
  ghost predicate UniqueCiRuc(m: map<ClienteId, Cliente>)
  {
    forall i, j :: i in m && j in m && i != j ==> m[i].ciRuc != m[j].ciRuc
  }

  /** Every stored client went through `Cliente.save`. */
  ghost predicate TitledClientes(m: map<ClienteId, Cliente>)
  {
    forall k :: k in m ==> IsTitledCliente(m[k])
  }

  /** Every stored professional went through `Profesional.save`. */
  ghost predicate TitledProfesionales(m: map<ProfesionalId, Profesional>)
  {
    forall k :: k in m ==> IsTitledProfesional(m[k])
  }

  /** Every stored service went through `Servicio.save`. */
  ghost predicate TitledServicios(m: map<ServicioId, Servicio>)
  {
    forall k :: k in m ==> IsTitledServicio(m[k])
  }

  /** The appointment's client, professional and service exist. */
  predicate Refers(c: Cita, clientes: map<ClienteId, Cliente>, profesionales: map<ProfesionalId, Profesional>,
                   servicios: map<ServicioId, Servicio>)
  {
    c.cliente in clientes && c.profesional in profesionales && c.servicio in servicios
  }

  /**
   * The sequence starts at 1 and every key lies below it, protected references
   * resolve, and every stored appointment has an amount (the save rule has run).
   */
  ghost predicate CitasConsistent(citas: map<CitaId, Cita>, next: CitaId, clientes: map<ClienteId, Cliente>,
                                  profesionales: map<ProfesionalId, Profesional>, servicios: map<ServicioId, Servicio>)
  {
    && 0 < next
    && forall k :: k in citas ==>
      0 < k < next && citas[k].montoCobrado.Some? && Refers(citas[k], clientes, profesionales, servicios)
  }

  /** Storing a consistent row under a key below the sequence keeps the table consistent. */
  lemma StoreKeepsConsistent(citas: map<CitaId, Cita>, next: CitaId, next': CitaId, id: CitaId, c: Cita,
                             clientes: map<ClienteId, Cliente>, profesionales: map<ProfesionalId, Profesional>,
                             servicios: map<ServicioId, Servicio>)
    requires CitasConsistent(citas, next, clientes, profesionales, servicios)
    requires next <= next' && 0 < id < next'
    requires c.montoCobrado.Some? && Refers(c, clientes, profesionales, servicios)
    ensures CitasConsistent(citas[id := c], next', clientes, profesionales, servicios)
  {
  }

  /** Removing a client no appointment refers to keeps the table consistent. */
  lemma DropClienteKeepsConsistent(citas: map<CitaId, Cita>, next: CitaId, id: ClienteId,
                                   clientes: map<ClienteId, Cliente>, profesionales: map<ProfesionalId, Profesional>,
                                   servicios: map<ServicioId, Servicio>)
    requires CitasConsistent(citas, next, clientes, profesionales, servicios)
    requires forall k :: k in citas ==> citas[k].cliente != id
    ensures CitasConsistent(citas, next, clientes - {id}, profesionales, servicios)
  {
  }

  /** Removing a professional no appointment refers to keeps the table consistent. */
  lemma DropProfesionalKeepsConsistent(citas: map<CitaId, Cita>, next: CitaId, id: ProfesionalId,
                                       clientes: map<ClienteId, Cliente>, profesionales: map<ProfesionalId, Profesional>,
                                       servicios: map<ServicioId, Servicio>)
    requires CitasConsistent(citas, next, clientes, profesionales, servicios)
    requires forall k :: k in citas ==> citas[k].profesional != id
    ensures CitasConsistent(citas, next, clientes, profesionales - {id}, servicios)
  {
  }

  /** Removing a service no appointment refers to keeps the table consistent. */
  lemma DropServicioKeepsConsistent(citas: map<CitaId, Cita>, next: CitaId, id: ServicioId,
                                    clientes: map<ClienteId, Cliente>, profesionales: map<ProfesionalId, Profesional>,
                                    servicios: map<ServicioId, Servicio>)
    requires CitasConsistent(citas, next, clientes, profesionales, servicios)
    requires forall k :: k in citas ==> citas[k].servicio != id
    ensures CitasConsistent(citas, next, clientes, profesionales, servicios - {id})
  {
  }

  class Salon {
    var clientes: map<ClienteId, Cliente>
    var profesionales: map<ProfesionalId, Profesional>
    var servicios: map<ServicioId, Servicio>
    var citas: map<CitaId, Cita>
    /** The next primary key the appointment table hands out. */
    var nextCitaId: CitaId

    /**
     * What the database and the save hooks guarantee: the appointment table
     * is consistent and the other three tables are.
     */
    ghost predicate Valid()
      reads this
    {
      CitasValid() && TablesValid()
    }

    /** The appointment table is consistent with the sequence and the other tables. */
    ghost predicate CitasValid()
      reads this
    {
      CitasConsistent(citas, nextCitaId, clientes, profesionales, servicios)
    }

    /** `ci_ruc` is unique, and every stored name has been title-cased. */
    ghost predicate TablesValid()
      reads this`clientes, this`profesionales, this`servicios
    {
      UniqueCiRuc(clientes) && TitledClientes(clientes)
      && TitledProfesionales(profesionales) && TitledServicios(servicios)
    }

    constructor ()
      ensures Valid()
      ensures clientes == map[] && profesionales == map[] && servicios == map[] && citas == map[]
      ensures nextCitaId == 1
    {
      clientes, profesionales, servicios, citas := map[], map[], map[], map[];
      nextCitaId := 1;
    }

    // -------------------------------------------------------------------------
    // Clients, professionals, services

    /** Another client already has this `ci_ruc`. */
    predicate CiRucTaken(id: ClienteId, ciRuc: string)
      reads this
    {
      exists j :: j in clientes && j != id && clientes[j].ciRuc == ciRuc
    }

    /** Saving a client under key `id` (new or existing): unique `ci_ruc`, names title-cased. */
    method SaveCliente(id: ClienteId, c: Cliente) returns (r: SaveResult)
      requires Valid()
      modifies this
      ensures Valid()
      ensures r == (if old(CiRucTaken(id, c.ciRuc)) then DuplicateCiRuc else Stored)
      ensures clientes == if r == Stored then old(clientes)[id := TitledCliente(c)] else old(clientes)
      ensures profesionales == old(profesionales) && servicios == old(servicios)
      ensures citas == old(citas) && nextCitaId == old(nextCitaId)
    {
      if CiRucTaken(id, c.ciRuc) {
        r := DuplicateCiRuc;
      } else {
        clientes := clientes[id := TitledCliente(c)];
        r := Stored;
      }
    }

    /**
     * Saving a professional under key `id` through `Profesional.save` as written:
     * names and specialty title-cased; without a specialty the save raises and
     * the table is left as it was.
     */
    method SaveProfesional(id: ProfesionalId, p: Profesional) returns (r: SaveResult)
      requires Valid()
      modifies this
      ensures Valid()
      ensures r == (if p.especialidad.None? then SaveRaised else Stored)
      ensures profesionales == match TitledProfesionalAsWritten(p)
                               case None => old(profesionales)
                               case Some(q) => old(profesionales)[id := q]
      ensures r == Stored ==> profesionales[id] == TitledProfesional(p)
      ensures clientes == old(clientes) && servicios == old(servicios)
      ensures citas == old(citas) && nextCitaId == old(nextCitaId)
    {
      match TitledProfesionalAsWritten(p)
      case None =>
        r := SaveRaised;
      case Some(q) =>
        TitledProfesionalRepairsOnlyNull(p);
        profesionales := profesionales[id := q];
        r := Stored;
    }

    /** Saving a service under key `id`: name title-cased. */
    method SaveServicio(id: ServicioId, s: Servicio)
      requires Valid()
      modifies this
      ensures Valid()
      ensures servicios == old(servicios)[id := TitledServicio(s)]
      ensures clientes == old(clientes) && profesionales == old(profesionales)
      ensures citas == old(citas) && nextCitaId == old(nextCitaId)
    {
      servicios := servicios[id := TitledServicio(s)];
    }

    /** `eliminar_cliente`: refused while any appointment, whatever its status, refers to the client. */
    method DeleteCliente(id: ClienteId, confirmed: bool) returns (r: DeleteResult)
      requires Valid()
      modifies this
      ensures Valid()
      ensures r == if id !in old(clientes) then Absent
                   else if !confirmed then ShowConfirmation
                   else if exists k :: k in old(citas) && old(citas)[k].cliente == id then Protected
                   else Deleted
      ensures clientes == if r == Deleted then old(clientes) - {id} else old(clientes)
      ensures profesionales == old(profesionales) && servicios == old(servicios)
      ensures citas == old(citas) && nextCitaId == old(nextCitaId)
    {
      if id !in clientes {
        r := Absent;
      } else if !confirmed {
        r := ShowConfirmation;
      } else if exists k :: k in citas && citas[k].cliente == id {
        r := Protected;
      } else {
        DropClienteKeepsConsistent(citas, nextCitaId, id, clientes, profesionales, servicios);
        clientes := clientes - {id};
        r := Deleted;
      }
    }

    /** `eliminar_profesional`: refused while any appointment refers to the professional. */
    method DeleteProfesional(id: ProfesionalId, confirmed: bool) returns (r: DeleteResult)
      requires Valid()
      modifies this
      ensures Valid()
      ensures r == if id !in old(profesionales) then Absent
                   else if !confirmed then ShowConfirmation
                   else if exists k :: k in old(citas) && old(citas)[k].profesional == id then Protected
                   else Deleted
      ensures profesionales == if r == Deleted then old(profesionales) - {id} else old(profesionales)
      ensures clientes == old(clientes) && servicios == old(servicios)
      ensures citas == old(citas) && nextCitaId == old(nextCitaId)
    {
      if id !in profesionales {
        r := Absent;
      } else if !confirmed {
        r := ShowConfirmation;
      } else if exists k :: k in citas && citas[k].profesional == id {
        r := Protected;
      } else {
        DropProfesionalKeepsConsistent(citas, nextCitaId, id, clientes, profesionales, servicios);
        profesionales := profesionales - {id};
        r := Deleted;
      }
    }

    /**
     * `eliminar_servicio`: the service key is protected too; the view does not
     * catch the error, so the request fails, and nothing is deleted.
     */
    method DeleteServicio(id: ServicioId, confirmed: bool) returns (r: DeleteResult)
      requires Valid()
      modifies this
      ensures Valid()
      ensures r == if id !in old(servicios) then Absent
                   else if !confirmed then ShowConfirmation
                   else if exists k :: k in old(citas) && old(citas)[k].servicio == id then Protected
                   else Deleted
      ensures servicios == if r == Deleted then old(servicios) - {id} else old(servicios)
      ensures clientes == old(clientes) && profesionales == old(profesionales)
      ensures citas == old(citas) && nextCitaId == old(nextCitaId)
    {
      if id !in servicios {
        r := Absent;
      } else if !confirmed {
        r := ShowConfirmation;
      } else if exists k :: k in citas && citas[k].servicio == id {
        r := Protected;
      } else {
        DropServicioKeepsConsistent(citas, nextCitaId, id, clientes, profesionales, servicios);
        servicios := servicios - {id};
        r := Deleted;
      }
    }

    // -------------------------------------------------------------------------
    // Appointments

    /** Every field of the form is present and every reference names an existing row. */
    predicate FieldsValid(f: CitaInput)
      reads this
    {
      && f.cliente.Some? && f.profesional.Some? && f.servicio.Some? && f.fecha.Some? && f.hora.Some?
      && f.cliente.value in clientes && f.profesional.value in profesionales && f.servicio.value in servicios
    }

    /** The professional `clean` sees: absent when missing or not an existing row. */
    function CleanedProfesional(f: CitaInput): (p: Option<ProfesionalId>)
      reads this
      ensures p.Some? <==> f.profesional.Some? && f.profesional.value in profesionales
      ensures p.Some? ==> p == f.profesional
      ensures FieldsValid(f) ==> p == f.profesional
    {
      if f.profesional.Some? && f.profesional.value in profesionales then f.profesional else None
    }

    /** `agendar_cita`: validate, then insert a pending appointment under a fresh key. */
    method Book(f: CitaInput, today: Date, now: Time) returns (r: FormResult)
      requires Valid()
      modifies this
      ensures Valid()
      ensures var v := Clean(old(citas), None, f.fecha, f.hora, old(CleanedProfesional(f)), today, now);
        r == if old(FieldsValid(f)) && v == Accept then Saved(old(nextCitaId)) else Invalid(old(FieldsValid(f)), v)
      ensures r.Saved? ==>
        && nextCitaId == old(nextCitaId) + 1
        && citas == old(citas)[r.id := NewCita(f.cliente.value, f.profesional.value, f.servicio.value,
                                               f.fecha.value, f.hora.value, old(servicios)[f.servicio.value].precioEstimado)]
      ensures !r.Saved? ==> citas == old(citas) && nextCitaId == old(nextCitaId)
      ensures clientes == old(clientes) && profesionales == old(profesionales) && servicios == old(servicios)
    {
      var ok := FieldsValid(f);
      var v := Clean(citas, None, f.fecha, f.hora, CleanedProfesional(f), today, now);
      if ok && v == Accept {
        var c := NewCita(f.cliente.value, f.profesional.value, f.servicio.value,
                         f.fecha.value, f.hora.value, servicios[f.servicio.value].precioEstimado);
        StoreKeepsConsistent(citas, nextCitaId, nextCitaId + 1, nextCitaId, c, clientes, profesionales, servicios);
        r := Saved(nextCitaId);
        citas := citas[nextCitaId := c];
        nextCitaId := nextCitaId + 1;
      } else {
        r := Invalid(ok, v);
      }
    }

    /** `editar_cita`: validate with the row itself excluded, then overwrite its five fields. */
    method Edit(id: CitaId, f: CitaInput, today: Date, now: Time) returns (r: FormResult)
      requires Valid()
      modifies this
      ensures Valid()
      ensures id !in old(citas) ==> r == NotFound
      ensures id in old(citas) ==>
        var v := Clean(old(citas), Some(id), f.fecha, f.hora, old(CleanedProfesional(f)), today, now);
        r == if old(FieldsValid(f)) && v == Accept then Saved(id) else Invalid(old(FieldsValid(f)), v)
      ensures r.Saved? ==>
        citas == old(citas)[id := Rescheduled(old(citas)[id], f.cliente.value, f.profesional.value, f.servicio.value,
                                              f.fecha.value, f.hora.value, old(servicios)[f.servicio.value].precioEstimado)]
      ensures !r.Saved? ==> citas == old(citas)
      ensures clientes == old(clientes) && profesionales == old(profesionales) && servicios == old(servicios)
      ensures nextCitaId == old(nextCitaId)
    {
      if id !in citas {
        r := NotFound;
        return;
      }
      var ok := FieldsValid(f);
      var v := Clean(citas, Some(id), f.fecha, f.hora, CleanedProfesional(f), today, now);
      if ok && v == Accept {
        var c := Rescheduled(citas[id], f.cliente.value, f.profesional.value, f.servicio.value,
                             f.fecha.value, f.hora.value, servicios[f.servicio.value].precioEstimado);
        StoreKeepsConsistent(citas, nextCitaId, nextCitaId, id, c, clientes, profesionales, servicios);
        citas := citas[id := c];
        r := Saved(id);
      } else {
        r := Invalid(ok, v);
      }
    }

    /** `finalizar_cita`: on POST with a valid amount, record it and mark the appointment REALIZADO. */
    method Finalize(id: CitaId, confirmed: bool, monto: Option<int>) returns (r: ActionResult)
      requires Valid()
      modifies this
      ensures Valid()
      ensures r == if id !in old(citas) then Missing
                   else if !confirmed then AwaitingConfirmation
                   else if !ValidAmount(monto) then InvalidAmount
                   else Done
      ensures citas == if r == Done
                       then old(citas)[id := Finalized(old(citas)[id], monto, old(servicios)[old(citas)[id].servicio].precioEstimado)]
                       else old(citas)
      ensures clientes == old(clientes) && profesionales == old(profesionales) && servicios == old(servicios)
      ensures nextCitaId == old(nextCitaId)
    {
      if id !in citas {
        r := Missing;
      } else if !confirmed {
        r := AwaitingConfirmation;
      } else if !ValidAmount(monto) {
        r := InvalidAmount;
      } else {
        var c := Finalized(citas[id], monto, servicios[citas[id].servicio].precioEstimado);
        StoreKeepsConsistent(citas, nextCitaId, nextCitaId, id, c, clientes, profesionales, servicios);
        citas := citas[id := c];
        r := Done;
      }
    }

    /** `cancelar_cita`: on POST, mark the appointment CANCELADO; a GET changes nothing. */
    method Cancel(id: CitaId, confirmed: bool) returns (r: ActionResult)
      requires Valid()
      modifies this
      ensures Valid()
      ensures r == if id !in old(citas) then Missing else if !confirmed then AwaitingConfirmation else Done
      ensures citas == if r == Done
                       then old(citas)[id := Cancelled(old(citas)[id], old(servicios)[old(citas)[id].servicio].precioEstimado)]
                       else old(citas)
      ensures clientes == old(clientes) && profesionales == old(profesionales) && servicios == old(servicios)
      ensures nextCitaId == old(nextCitaId)
    {
      if id !in citas {
        r := Missing;
      } else if !confirmed {
        r := AwaitingConfirmation;
      } else {
        var c := Cancelled(citas[id], servicios[citas[id].servicio].precioEstimado);
        StoreKeepsConsistent(citas, nextCitaId, nextCitaId, id, c, clientes, profesionales, servicios);
        citas := citas[id := c];
        r := Done;
      }
    }

    /** `confirmar_cita`: mark the appointment CONFIRMADO, from any status and without re-validating. */
    method Confirm(id: CitaId) returns (r: ActionResult)
      requires Valid()
      modifies this
      ensures Valid()
      ensures r == if id !in old(citas) then Missing else Done
      ensures citas == if r == Done
                       then old(citas)[id := Confirmed(old(citas)[id], old(servicios)[old(citas)[id].servicio].precioEstimado)]
                       else old(citas)
      ensures clientes == old(clientes) && profesionales == old(profesionales) && servicios == old(servicios)
      ensures nextCitaId == old(nextCitaId)
    {
      if id !in citas {
        r := Missing;
      } else {
        var c := Confirmed(citas[id], servicios[citas[id].servicio].precioEstimado);
        StoreKeepsConsistent(citas, nextCitaId, nextCitaId, id, c, clientes, profesionales, servicios);
        citas := citas[id := c];
        r := Done;
      }
    }
  }
}
