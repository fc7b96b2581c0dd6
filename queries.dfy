/**
 * The read-only views over the appointment table in core/views.py: the cash
 * report `reporte_caja`, the upcoming list `listado_citas` and the dashboard
 * `home`. Each lists a set of appointments ordered by date and time; rows with
 * the same date and time are listed by primary key.
 */
module Queries {
  import opened Wrappers
  import opened Calendar
  import opened Records
  import opened Lifecycle

  // ---------------------------------------------------------------------------
  // Ordered listings

  /** `order_by('fecha', 'hora')`, ties broken by primary key. */
  predicate ListedBefore(a: Cita, i: CitaId, b: Cita, j: CitaId)
  {
    DateBefore(a.fecha, b.fecha)
    || (a.fecha == b.fecha && (TimeBefore(a.hora, b.hora) || (a.hora == b.hora && i < j)))
  }

  lemma ListedBeforeOrder(a: Cita, i: CitaId, b: Cita, j: CitaId, c: Cita, k: CitaId)
    ensures !ListedBefore(a, i, a, i)
    ensures ListedBefore(a, i, b, j) ==> !ListedBefore(b, j, a, i)
    ensures ListedBefore(a, i, b, j) && ListedBefore(b, j, c, k) ==> ListedBefore(a, i, c, k)
    ensures i != j ==> ListedBefore(a, i, b, j) || ListedBefore(b, j, a, i)
  {
    DateOrder(a.fecha, b.fecha, c.fecha);
    TimeOrder(a.hora, b.hora, c.hora);
  }

  /** `rows` lists exactly the keys in `s`, each once, in `ListedBefore` order. */
  ghost predicate Listing(citas: map<CitaId, Cita>, rows: seq<CitaId>, s: set<CitaId>)
  {
    && (forall a :: 0 <= a < |rows| ==> rows[a] in citas)
    && (forall k :: k in s <==> k in rows)
    && (forall a, b :: 0 <= a < b < |rows| ==>
          ListedBefore(citas[rows[a]], rows[a], citas[rows[b]], rows[b]))
  }

  /** `m` comes before every other row of `s`. */
  ghost predicate IsFirst(citas: map<CitaId, Cita>, m: CitaId, s: set<CitaId>)
    requires s <= citas.Keys
  {
    m in s && forall k :: k in s && k != m ==> ListedBefore(citas[m], m, citas[k], k)
  }

  /** Every nonempty set of rows has a first one. */
  lemma {:induction false} FirstExists(citas: map<CitaId, Cita>, s: set<CitaId>)
    requires s != {} && s <= citas.Keys
    ensures exists m :: IsFirst(citas, m, s)
    decreases |s|
  {
    var x :| x in s;
    if s == {x} {
      assert IsFirst(citas, x, s);
    } else {
      FirstExists(citas, s - {x});
      var m :| IsFirst(citas, m, s - {x});
      if ListedBefore(citas[x], x, citas[m], m) {
        forall k | k in s && k != x
          ensures ListedBefore(citas[x], x, citas[k], k)
        {
          if k != m {
            ListedBeforeOrder(citas[x], x, citas[m], m, citas[k], k);
          }
        }
        assert IsFirst(citas, x, s);
      } else {
        ListedBeforeOrder(citas[x], x, citas[m], m, citas[m], m);
        assert IsFirst(citas, m, s);
      }
    }
  }

  /** The rows of `s` in listing order. */
  ghost function Listed(citas: map<CitaId, Cita>, s: set<CitaId>): (rows: seq<CitaId>)
    requires s <= citas.Keys
    ensures Listing(citas, rows, s)
    ensures |rows| == |s|
    decreases |s|
  {
    if s == {} then []
    else
      FirstExists(citas, s);
      var m :| IsFirst(citas, m, s);
      var rest := Listed(citas, s - {m});
      ListingCons(citas, m, rest, s);
      [m] + rest
  }

  /** The first row followed by a listing of the others is a listing of all. */
  lemma ListingCons(citas: map<CitaId, Cita>, m: CitaId, rest: seq<CitaId>, s: set<CitaId>)
    requires s <= citas.Keys && IsFirst(citas, m, s)
    requires Listing(citas, rest, s - {m})
    ensures Listing(citas, [m] + rest, s)
  {
    var rows := [m] + rest;
    forall a, b | 0 <= a < b < |rows|
      ensures ListedBefore(citas[rows[a]], rows[a], citas[rows[b]], rows[b])
    {
      assert rows[b] == rest[b - 1];
      if a > 0 {
        assert rows[a] == rest[a - 1];
      } else {
        assert rows[b] in s - {m};
      }
    }
    forall k
      ensures k in s <==> k in rows
    {
      assert k in rows <==> k == m || k in rest;
    }
  }

  /** A listing is determined by its set: there is only one way to order the rows. */
  lemma {:induction false} ListingUnique(citas: map<CitaId, Cita>, r1: seq<CitaId>, r2: seq<CitaId>, s: set<CitaId>)
    requires Listing(citas, r1, s) && Listing(citas, r2, s)
    ensures r1 == r2
    decreases |r1|
  {
    if r1 != [] {
      assert r1[0] in r2;
      assert r2 != [];
      if r1[0] != r2[0] {
        var b :| 0 <= b < |r2| && r2[b] == r1[0];
        assert r2[0] in s;
        assert r2[0] in r1;
        var a :| 0 <= a < |r1| && r1[a] == r2[0];
        ListedBeforeOrder(citas[r2[0]], r2[0], citas[r1[0]], r1[0], citas[r1[0]], r1[0]);
        assert false;
      }
      var x := r1[0];
      forall a | 0 <= a < |r1| && a > 0 ensures r1[a] != x {
        ListedBeforeOrder(citas[x], x, citas[x], x, citas[x], x);
      }
      forall b | 0 <= b < |r2| && b > 0 ensures r2[b] != x {
        ListedBeforeOrder(citas[x], x, citas[x], x, citas[x], x);
      }
      assert Listing(citas, r1[1..], s - {x});
      assert Listing(citas, r2[1..], s - {x});
      ListingUnique(citas, r1[1..], r2[1..], s - {x});
      assert r1 == [x] + r1[1..] && r2 == [x] + r2[1..];
    }
  }

  /** The listing without row `k`. */
  function Without(rows: seq<CitaId>, k: CitaId): (r: seq<CitaId>)
    ensures forall j :: j in r <==> j in rows && j != k
  {
    if rows == [] then []
    else if rows[0] == k then Without(rows[1..], k)
    else [rows[0]] + Without(rows[1..], k)
  }

  /** Dropping a row from a listing keeps the others in order. */
  lemma {:induction false} WithoutListing(citas: map<CitaId, Cita>, rows: seq<CitaId>, s: set<CitaId>, k: CitaId)
    requires Listing(citas, rows, s)
    ensures Listing(citas, Without(rows, k), s - {k})
    decreases |rows|
  {
    if rows != [] {
      var tail := rows[1..];
      var x := rows[0];
      forall a | 0 <= a < |tail| ensures tail[a] != x {
        ListedBeforeOrder(citas[x], x, citas[x], x, citas[x], x);
      }
      WithoutListing(citas, tail, s - {x}, k);
      if x != k {
        var w := Without(tail, k);
        forall b | 0 <= b < |w| ensures ListedBefore(citas[x], x, citas[w[b]], w[b]) {
          assert w[b] in tail;
        }
        assert Listing(citas, [x] + w, s - {k});
      } else {
        assert s - {k} == (s - {x}) - {k};
      }
    }
  }

  // ---------------------------------------------------------------------------
  // reporte_caja

  /**
   * A query-string date: missing or empty, present but not a `%Y-%m-%d` date
   * (`strptime` raises), or a parsed date.
   */
  datatype DateParam = Absent | Malformed | Given(date: Date)

  /**
   * The range the report covers. It is today..today unless both parameters are
   * present; then the start is parsed first, so a bad start keeps both defaults
   * while a bad end keeps the parsed start and today as the end.
   */
  function ReportRange(today: Date, inicio: DateParam, fin: DateParam): (r: (Date, Date))
    ensures inicio.Absent? || fin.Absent? || inicio.Malformed? ==> r == (today, today)
    ensures !fin.Absent? && inicio.Given? ==> r.0 == inicio.date
    ensures r.1 != today ==> inicio.Given? && fin.Given? && r == (inicio.date, fin.date)
    ensures r.0 == today || r.0 == inicio.date
    ensures inicio.Given? && fin.Given? ==> r == (inicio.date, fin.date)
  {
    if inicio.Absent? || fin.Absent? then (today, today)
    else match inicio
      case Malformed => (today, today)
      case Given(d) => if fin.Given? then (d, fin.date) else (d, today)
  }

  /** What a finished appointment adds to the total; SQL `SUM` skips NULL amounts. */
  function Charged(c: Cita): int
  {
    if c.montoCobrado.Some? then c.montoCobrado.value else 0
  }

  /** The appointments the report selects: REALIZADO, dated from `inicio` to `fin` inclusive. */
  ghost function Finished(citas: map<CitaId, Cita>, inicio: Date, fin: Date): (s: set<CitaId>)
    ensures s <= citas.Keys
    ensures DateBefore(fin, inicio) ==> s == {}
  {
    DateOrderRange(citas, inicio, fin);
    set k | k in citas && citas[k].estado == Realizado
            && DateAtMost(inicio, citas[k].fecha) && DateAtMost(citas[k].fecha, fin)
  }

  lemma DateOrderRange(citas: map<CitaId, Cita>, inicio: Date, fin: Date)
    ensures DateBefore(fin, inicio) ==>
      forall k :: k in citas ==> !(DateAtMost(inicio, citas[k].fecha) && DateAtMost(citas[k].fecha, fin))
  {
    forall k | k in citas
      ensures DateBefore(fin, inicio) ==> !(DateAtMost(inicio, citas[k].fecha) && DateAtMost(citas[k].fecha, fin))
    {
      DateOrder(inicio, citas[k].fecha, fin);
      DateOrder(citas[k].fecha, fin, inicio);
      DateOrder(fin, inicio, citas[k].fecha);
    }
  }

  /** The sum of the amounts of the listed rows (`aggregate(Sum('monto_cobrado')) or 0`). */
  function SumCharged(citas: map<CitaId, Cita>, rows: seq<CitaId>): int
    requires forall a :: 0 <= a < |rows| ==> rows[a] in citas
  {
    if rows == [] then 0 else Charged(citas[rows[0]]) + SumCharged(citas, rows[1..])
  }

  /** The total of a set of rows, in no particular order. */
  ghost function SetTotal(citas: map<CitaId, Cita>, s: set<CitaId>): int
    requires s <= citas.Keys
  {
    if s == {} then 0 else var k :| k in s; Charged(citas[k]) + SetTotal(citas, s - {k})
  }

  /** Any row can be taken out of the total first. */
  lemma {:induction false} SetTotalRemove(citas: map<CitaId, Cita>, s: set<CitaId>, x: CitaId)
    requires s <= citas.Keys && x in s
    ensures SetTotal(citas, s) == Charged(citas[x]) + SetTotal(citas, s - {x})
    decreases |s|
  {
    var y :| y in s && SetTotal(citas, s) == Charged(citas[y]) + SetTotal(citas, s - {y});
    if y != x {
      SetTotalRemove(citas, s - {y}, x);
      SetTotalRemove(citas, s - {x}, y);
      assert s - {y} - {x} == s - {x} - {y};
    }
  }

  /** Summing a listing gives the order-free total of its set. */
  lemma {:induction false} SumOfListing(citas: map<CitaId, Cita>, rows: seq<CitaId>, s: set<CitaId>)
    requires Listing(citas, rows, s)
    ensures s <= citas.Keys
    ensures SumCharged(citas, rows) == SetTotal(citas, s)
    decreases |rows|
  {
    if rows == [] {
      assert s == {};
    } else {
      var x := rows[0];
      forall a | 0 <= a < |rows| - 1 ensures rows[1..][a] != x {
        ListedBeforeOrder(citas[x], x, citas[x], x, citas[x], x);
      }
      assert Listing(citas, rows[1..], s - {x});
      SumOfListing(citas, rows[1..], s - {x});
      SetTotalRemove(citas, s, x);
    }
  }

  datatype Report = Report(citas: seq<CitaId>, total: int, inicio: Date, fin: Date)

  /**
   * `reporte_caja`: the finished appointments in the range, in date and time
   * order, and the sum of their charged amounts (0 when there are none).
   */
  ghost function ReporteCaja(citas: map<CitaId, Cita>, today: Date, inicio: DateParam, fin: DateParam): (r: Report)
    ensures (r.inicio, r.fin) == ReportRange(today, inicio, fin)
    ensures Listing(citas, r.citas, Finished(citas, r.inicio, r.fin))
    ensures r.total == SetTotal(citas, Finished(citas, r.inicio, r.fin))
    ensures r.citas == [] ==> r.total == 0
    ensures DateBefore(r.fin, r.inicio) ==> r.citas == [] && r.total == 0
  {
    var (a, b) := ReportRange(today, inicio, fin);
    var s := Finished(citas, a, b);
    var rows := Listed(citas, s);
    SumOfListing(citas, rows, s);
    Report(rows, SumCharged(citas, rows), a, b)
  }

  /**
   * Finalizing an appointment dated inside the range that was not yet finished
   * adds exactly its new charged amount to the report total.
   */
  lemma {:induction false} FinalizeAddsToTotal(citas: map<CitaId, Cita>, k: CitaId, monto: Option<int>, precio: int,
                                               inicio: Date, fin: Date)
    requires k in citas && citas[k].estado != Realizado
    requires DateAtMost(inicio, citas[k].fecha) && DateAtMost(citas[k].fecha, fin)
    ensures var after := citas[k := Finalized(citas[k], monto, precio)];
      SetTotal(after, Finished(after, inicio, fin))
      == SetTotal(citas, Finished(citas, inicio, fin)) + Charged(after[k])
  {
    var after := citas[k := Finalized(citas[k], monto, precio)];
    var s, s' := Finished(citas, inicio, fin), Finished(after, inicio, fin);
    assert s' == s + {k} && k !in s;
    SetTotalRemove(after, s', k);
    assert s' - {k} == s;
    SetTotalSameRows(citas, after, s);
  }

  /** The total only reads the rows it sums. */
  lemma {:induction false} SetTotalSameRows(m1: map<CitaId, Cita>, m2: map<CitaId, Cita>, s: set<CitaId>)
    requires s <= m1.Keys && s <= m2.Keys
    requires forall k :: k in s ==> m1[k] == m2[k]
    ensures SetTotal(m1, s) == SetTotal(m2, s)
    decreases |s|
  {
    if s != {} {
      var y :| y in s && SetTotal(m1, s) == Charged(m1[y]) + SetTotal(m1, s - {y});
      SetTotalRemove(m2, s, y);
      SetTotalSameRows(m1, m2, s - {y});
    }
  }

  // ---------------------------------------------------------------------------
  // listado_citas and home

  /** Active appointments from today on: PENDIENTE or CONFIRMADO, dated today or later. */
  ghost function UpcomingSet(citas: map<CitaId, Cita>, today: Date): (s: set<CitaId>)
    ensures s <= citas.Keys
  {
    set k | k in citas && !DateBefore(citas[k].fecha, today)
            && (citas[k].estado == Pendiente || citas[k].estado == Confirmado)
  }

  /** `listado_citas` */
  ghost function Upcoming(citas: map<CitaId, Cita>, today: Date): (rows: seq<CitaId>)
    ensures Listing(citas, rows, UpcomingSet(citas, today))
    ensures forall a :: 0 <= a < |rows| ==>
      !DateBefore(citas[rows[a]].fecha, today) && citas[rows[a]].estado in {Pendiente, Confirmado}
  {
    var rows := Listed(citas, UpcomingSet(citas, today));
    assert forall a :: 0 <= a < |rows| ==> rows[a] in UpcomingSet(citas, today);
    rows
  }

  /** Cancelling an appointment takes it off the upcoming list and leaves the rest as it was. */
  lemma {:induction false} CancelLeavesUpcoming(citas: map<CitaId, Cita>, today: Date, k: CitaId, precio: int)
    requires k in citas
    ensures Upcoming(citas[k := Cancelled(citas[k], precio)], today) == Without(Upcoming(citas, today), k)
  {
    var after := citas[k := Cancelled(citas[k], precio)];
    var rows := Upcoming(citas, today);
    var s' := UpcomingSet(citas, today) - {k};
    WithoutListing(citas, rows, UpcomingSet(citas, today), k);
    CancelledLeavesUpcomingSet(citas, today, k, precio);
    ListingSameRows(citas, after, Without(rows, k), s');
    ListingUnique(after, Upcoming(after, today), Without(rows, k), s');
  }

  lemma CancelledLeavesUpcomingSet(citas: map<CitaId, Cita>, today: Date, k: CitaId, precio: int)
    requires k in citas
    ensures UpcomingSet(citas[k := Cancelled(citas[k], precio)], today) == UpcomingSet(citas, today) - {k}
  {
  }

  /** A listing only reads the rows it lists. */
  lemma ListingSameRows(m1: map<CitaId, Cita>, m2: map<CitaId, Cita>, rows: seq<CitaId>, s: set<CitaId>)
    requires Listing(m1, rows, s)
    requires forall j :: j in s ==> j in m2 && m2[j] == m1[j]
    ensures Listing(m2, rows, s)
  {
    assert forall a :: 0 <= a < |rows| ==> rows[a] in s;
  }

  /** `home`: every appointment dated today, whatever its status. */
  ghost function TodaySet(citas: map<CitaId, Cita>, today: Date): (s: set<CitaId>)
    ensures s <= citas.Keys
  {
    set k | k in citas && citas[k].fecha == today
  }

  /** The dashboard: today's appointments by time of day. */
  ghost function Dashboard(citas: map<CitaId, Cita>, today: Date): (rows: seq<CitaId>)
    ensures Listing(citas, rows, TodaySet(citas, today))
    ensures forall a, b :: 0 <= a < b < |rows| ==> !TimeBefore(citas[rows[b]].hora, citas[rows[a]].hora)
  {
    var rows := Listed(citas, TodaySet(citas, today));
    forall a, b | 0 <= a < b < |rows| ensures !TimeBefore(citas[rows[b]].hora, citas[rows[a]].hora) {
      assert rows[a] in TodaySet(citas, today) && rows[b] in TodaySet(citas, today);
      TimeOrder(citas[rows[a]].hora, citas[rows[b]].hora, citas[rows[a]].hora);
    }
    rows
  }
}
