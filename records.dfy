/**
 * The rows of the salon database (core/models.py): professionals, clients,
 * services and appointments ("citas"), the appointment status choices, the
 * normalisation each `save()` override applies before writing, and `__str__`.
 */
module Records {
  import opened Wrappers
  import opened Text
  import opened Calendar

  type ClienteId = nat
  type ProfesionalId = nat
  type ServicioId = nat
  type CitaId = nat

  // ---------------------------------------------------------------------------
  // Appointment status

  datatype Estado = Pendiente | Confirmado | Realizado | Cancelado

  /** A new appointment starts out pending. */
  const DefaultEstado: Estado := Pendiente

  /** The code the `estado` column stores for each status. */
  function EstadoCode(e: Estado): string
  {
    match e
    case Pendiente => "PENDIENTE"
    case Confirmado => "CONFIRMADO"
    case Realizado => "REALIZADO"
    case Cancelado => "CANCELADO"
  }

  /** Reading a stored code back; anything but the four choices is refused. */
  function EstadoFromCode(s: string): (r: Option<Estado>)
    ensures forall e :: r == Some(e) <==> EstadoCode(e) == s
  {
    if s == "PENDIENTE" then Some(Pendiente)
    else if s == "CONFIRMADO" then Some(Confirmado)
    else if s == "REALIZADO" then Some(Realizado)
    else if s == "CANCELADO" then Some(Cancelado)
    else None
  }

  // ---------------------------------------------------------------------------
  // Rows

  /** A professional; the uploaded photo (`imagen`) is not part of this model. */
  datatype Profesional = Profesional(
    nombre: string, apellido: string, especialidad: Option<string>, telefono: string)

  datatype Cliente = Cliente(
    ciRuc: string, nombre: string, apellido: string, telefono: string, email: Option<string>)

  /** A service; prices are whole guaraníes. */
  datatype Servicio = Servicio(
    nombre: string, descripcion: Option<string>, precioEstimado: int, duracionMinutos: nat)

  /** An appointment; the three references are protected foreign keys. */
  datatype Cita = Cita(
    cliente: ClienteId, profesional: ProfesionalId, servicio: ServicioId,
    fecha: Date, hora: Time, montoCobrado: Option<int>, estado: Estado)

  // ---------------------------------------------------------------------------
  // What each save() writes

  predicate IsTitled(s: string) { Title(s) == s }

  predicate IsTitledCliente(c: Cliente) { IsTitled(c.nombre) && IsTitled(c.apellido) }

  predicate IsTitledProfesional(p: Profesional)
  {
    IsTitled(p.nombre) && IsTitled(p.apellido)
    && (p.especialidad.Some? ==> IsTitled(p.especialidad.value))
  }

  predicate IsTitledServicio(s: Servicio) { IsTitled(s.nombre) }

  /** `Cliente.save`: title-cases the first and last name and nothing else. */
  function TitledCliente(c: Cliente): (r: Cliente)
    ensures r.nombre == Title(c.nombre) && r.apellido == Title(c.apellido)
    ensures r.ciRuc == c.ciRuc && r.telefono == c.telefono && r.email == c.email
    ensures IsTitledCliente(r)
    ensures IsTitledCliente(c) ==> r == c
  {
    TitleIdempotent(c.nombre);
    TitleIdempotent(c.apellido);
    c.(nombre := Title(c.nombre), apellido := Title(c.apellido))
  }

  /**
   * `Profesional.save` as written: it title-cases `especialidad` unconditionally,
   * so a professional without a specialty (a NULL column) makes the save fail
   * and nothing is written (`None`).
   */
  function TitledProfesionalAsWritten(p: Profesional): (r: Option<Profesional>)
    ensures r.None? <==> p.especialidad.None?
    ensures r.Some? ==> r.value.nombre == Title(p.nombre) && r.value.apellido == Title(p.apellido)
                        && r.value.especialidad == Some(Title(p.especialidad.value))
                        && r.value.telefono == p.telefono
  {
    match p.especialidad
    case None => None
    case Some(e) => Some(p.(nombre := Title(p.nombre), apellido := Title(p.apellido), especialidad := Some(Title(e))))
  }

  /**
   * `Profesional.save` as intended: the specialty is title-cased when there is one
   * and stays NULL otherwise.
   */
  function TitledProfesional(p: Profesional): (r: Profesional)
    ensures r.nombre == Title(p.nombre) && r.apellido == Title(p.apellido) && r.telefono == p.telefono
    ensures r.especialidad.None? <==> p.especialidad.None?
    ensures p.especialidad.Some? ==> r.especialidad == Some(Title(p.especialidad.value))
    ensures IsTitledProfesional(r)
    ensures IsTitledProfesional(p) ==> r == p
  {
    TitleIdempotent(p.nombre);
    TitleIdempotent(p.apellido);
    match p.especialidad
    case None => p.(nombre := Title(p.nombre), apellido := Title(p.apellido))
    case Some(e) =>
      TitleIdempotent(e);
      p.(nombre := Title(p.nombre), apellido := Title(p.apellido), especialidad := Some(Title(e)))
  }

  /** Where the save as written succeeds, it writes what the intended save writes. */
  lemma TitledProfesionalRepairsOnlyNull(p: Profesional)
    ensures TitledProfesionalAsWritten(p).Some? ==> TitledProfesionalAsWritten(p).value == TitledProfesional(p)
    ensures TitledProfesionalAsWritten(Profesional("ana", "paz", None, "0981")) == None
    ensures TitledProfesional(Profesional("ana", "paz", None, "0981"))
            == Profesional("Ana", "Paz", None, "0981")
  {
    assert Title("ana") == "Ana";
    assert Title("paz") == "Paz";
  }

  /** `Servicio.save`: title-cases the name only. */
  function TitledServicio(s: Servicio): (r: Servicio)
    ensures r.nombre == Title(s.nombre)
    ensures r.descripcion == s.descripcion && r.precioEstimado == s.precioEstimado
    ensures r.duracionMinutos == s.duracionMinutos
    ensures IsTitledServicio(r)
    ensures IsTitledServicio(s) ==> r == s
  {
    TitleIdempotent(s.nombre);
    s.(nombre := Title(s.nombre))
  }

  /**
   * `Cita.save`: an empty or zero charged amount becomes the service's estimated
   * price; any other amount is kept. The status plays no part.
   */
  function WithDefaultMonto(c: Cita, precio: int): (r: Cita)
    ensures r.montoCobrado.Some?
    ensures c.montoCobrado.None? || c.montoCobrado == Some(0) ==> r.montoCobrado == Some(precio)
    ensures c.montoCobrado.Some? && c.montoCobrado != Some(0) ==> r == c
    ensures r == c.(montoCobrado := r.montoCobrado)
  {
    if c.montoCobrado.None? || c.montoCobrado == Some(0) then c.(montoCobrado := Some(precio)) else c
  }

  /** Saving twice against the same price writes what saving once wrote. */
  lemma WithDefaultMontoIdempotent(c: Cita, precio: int)
    ensures WithDefaultMonto(WithDefaultMonto(c, precio), precio) == WithDefaultMonto(c, precio)
  {
  }

  // ---------------------------------------------------------------------------
  // __str__

  /**
   * `Profesional.__str__` as written: `"{nombre} {apellido})"`, the full name
   * followed by a stray `)` that no `(` opens.
   */
  function ProfesionalStrAsWritten(p: Profesional): (s: string)
    ensures |s| == |p.nombre| + |p.apellido| + 2
    ensures s[..|p.nombre|] == p.nombre && s[|p.nombre|] == ' '
    ensures s[|p.nombre| + 1..|s| - 1] == p.apellido && s[|s| - 1] == ')'
    ensures Occurrences(s, ')') == Occurrences(p.nombre, ')') + Occurrences(p.apellido, ')') + 1
    ensures Occurrences(s, '(') == Occurrences(p.nombre, '(') + Occurrences(p.apellido, '(')
  {
    var name := p.nombre + " " + p.apellido;
    var s := name + ")";
    assert name[..|p.nombre|] == p.nombre && name[|p.nombre| + 1..] == p.apellido;
    assert s[..|name|] == name;
    assert s[..|p.nombre|] == s[..|name|][..|p.nombre|];
    assert s[|p.nombre| + 1..|s| - 1] == s[..|name|][|p.nombre| + 1..];
    OccurrencesConcat(p.nombre, " ", ')');
    OccurrencesConcat(p.nombre + " ", p.apellido, ')');
    OccurrencesConcat(p.nombre + " " + p.apellido, ")", ')');
    OccurrencesConcat(p.nombre, " ", '(');
    OccurrencesConcat(p.nombre + " ", p.apellido, '(');
    OccurrencesConcat(p.nombre + " " + p.apellido, ")", '(');
    s
  }

  /** `Profesional.__str__` as intended: the first and last name separated by one space. */
  function ProfesionalStr(p: Profesional): (s: string)
    ensures |s| == |p.nombre| + |p.apellido| + 1
    ensures s[..|p.nombre|] == p.nombre && s[|p.nombre|] == ' ' && s[|p.nombre| + 1..] == p.apellido
    ensures Occurrences(s, ')') == Occurrences(p.nombre, ')') + Occurrences(p.apellido, ')')
    ensures Occurrences(s, '(') == Occurrences(p.nombre, '(') + Occurrences(p.apellido, '(')
    ensures ProfesionalStrAsWritten(p) == s + ")"
  {
    var s := p.nombre + " " + p.apellido;
    assert s[..|p.nombre| + 1] == p.nombre + " " && s[|p.nombre| + 1..] == p.apellido;
    assert s[..|p.nombre|] == s[..|p.nombre| + 1][..|p.nombre|];
    OccurrencesConcat(p.nombre, " ", ')');
    OccurrencesConcat(p.nombre + " ", p.apellido, ')');
    OccurrencesConcat(p.nombre, " ", '(');
    OccurrencesConcat(p.nombre + " ", p.apellido, '(');
    s
  }

  /** `Cliente.__str__`: `"{nombre} {apellido} ({ci_ruc})"`. */
  function ClienteStr(c: Cliente): (s: string)
    ensures var n, a := |c.nombre|, |c.apellido|;
      && |s| == n + a + |c.ciRuc| + 4
      && s[..n] == c.nombre && s[n] == ' '
      && s[n + 1..n + 1 + a] == c.apellido
      && s[n + 1 + a..n + 3 + a] == " ("
      && s[n + 3 + a..|s| - 1] == c.ciRuc && s[|s| - 1] == ')'
  {
    var s := c.nombre + " " + c.apellido + " (" + (c.ciRuc + ")");
    Pieces(c.nombre, " ", c.apellido, " (", c.ciRuc + ")");
    assert s[|s| - |c.ciRuc| - 1..] == c.ciRuc + ")";
    c.nombre + " " + c.apellido + " (" + c.ciRuc + ")"
  }

  /**
   * `Servicio.__str__`: `"{nombre} - {precio_estimado} Gs"`, the price written in
   * decimal without leading zeros, after a `-` when it is negative.
   */
  function ServicioStr(s: Servicio): (r: string)
    ensures var n := |s.nombre|;
      && |r| >= n + 7
      && r[..n] == s.nombre && r[n..n + 3] == " - " && r[|r| - 3..] == " Gs"
      && (s.precioEstimado >= 0 ==> Canonical(r[n + 3..|r| - 3]) && Denotes(r[n + 3..|r| - 3], s.precioEstimado))
      && (s.precioEstimado < 0 ==> r[n + 3] == '-' && Canonical(r[n + 4..|r| - 3])
                                   && Denotes(r[n + 4..|r| - 3], -s.precioEstimado))
  {
    var head, price := s.nombre + " - ", IntToString(s.precioEstimado);
    var r := head + price + " Gs";
    assert head[..|s.nombre|] == s.nombre && head[|s.nombre|..] == " - ";
    assert r[..|head|] == head && r[|head|..|r| - 3] == price && r[|r| - 3..] == " Gs";
    assert r[..|s.nombre|] == r[..|head|][..|s.nombre|];
    assert r[|s.nombre|..|head|] == r[..|head|][|s.nombre|..];
    assert r[|head| + 1..|r| - 3] == r[|head|..|r| - 3][1..];
    r
  }

  /** The price in `Servicio.__str__` is exactly the numeral `str()` writes for it. */
  lemma ServicioStrPrice(s: Servicio)
    ensures var r, n := ServicioStr(s), |s.nombre|;
      && (s.precioEstimado >= 0 ==> r[n + 3..|r| - 3] == NatToString(s.precioEstimado))
      && (s.precioEstimado < 0 ==> r[n + 4..|r| - 3] == NatToString(-s.precioEstimado))
  {
    var r, n := ServicioStr(s), |s.nombre|;
    if s.precioEstimado >= 0 {
      CanonicalUnique(r[n + 3..|r| - 3], s.precioEstimado);
    } else {
      CanonicalUnique(r[n + 4..|r| - 3], -s.precioEstimado);
    }
  }

  /** `Cita.__str__`: `"Cita: {cliente} - {fecha} {hora}"`, dates and times in ISO form. */
  function CitaStr(c: Cita, cliente: Cliente): (r: string)
    ensures var n := |ClienteStr(cliente)|;
      && |r| == n + 20 + |IsoTime(c.hora)|
      && r[..6] == "Cita: "
      && r[6..6 + n] == ClienteStr(cliente) && r[n + 6..n + 9] == " - "
      && r[n + 9..n + 19] == IsoDate(c.fecha) && r[n + 19] == ' '
      && r[n + 20..] == IsoTime(c.hora)
  {
    var who, day, time := ClienteStr(cliente), IsoDate(c.fecha), IsoTime(c.hora);
    var r := "Cita: " + who + " - " + day + (" " + time);
    Pieces("Cita: ", who, " - ", day, " " + time);
    assert r[|who| + 19] == r[|who| + 19..][0];
    assert r[|who| + 20..] == r[|who| + 19..][1..];
    r
  }
}
