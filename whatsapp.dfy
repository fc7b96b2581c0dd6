/**
 * The template filters of core/templatetags/whatsapp_filters.py: turning a
 * stored phone number into the international number of a WhatsApp link, and
 * the text of the appointment reminder.
 */
module Whatsapp {
  import opened Wrappers
  import opened Text
  import opened Calendar
  import opened Records

  /** `re.sub(r'\D', '', s)`: the digits of `s`, in their original order. */
  function DigitsOf(s: string): (r: string)
    ensures AllDigits(r) && |r| <= |s|
    ensures AllDigits(s) ==> r == s
    decreases |s|
  {
    if s == [] then [] else (if IsDigit(s[0]) then [s[0]] else []) + DigitsOf(s[1..])
  }

  /** Filtering distributes over concatenation: nothing is reordered or merged. */
  lemma {:induction false} DigitsOfConcat(a: string, b: string)
    ensures DigitsOf(a + b) == DigitsOf(a) + DigitsOf(b)
    decreases |a|
  {
    if a == [] {
      assert a + b == b;
    } else {
      var h := if IsDigit(a[0]) then [a[0]] else [];
      assert (a + b)[0] == a[0];
      assert (a + b)[1..] == a[1..] + b;
      DigitsOfConcat(a[1..], b);
      assert DigitsOf(a + b) == h + (DigitsOf(a[1..]) + DigitsOf(b));
      assert DigitsOf(a) == h + DigitsOf(a[1..]);
    }
  }

  /** The country code used when the template gives none. */
  const DefaultCodigoPais := "595"

  /**
   * `whatsapp_url`: an empty or missing phone gives the empty string; otherwise
   * the country code followed by the phone's digits, less one leading zero.
   */
  function WhatsappUrl(telefono: Option<string>, codigoPais: string := DefaultCodigoPais): (r: string)
    ensures telefono.None? || telefono == Some("") ==> r == ""
    ensures telefono.Some? && telefono.value != "" ==>
      && |r| >= |codigoPais| && r[..|codigoPais|] == codigoPais
      && AllDigits(r[|codigoPais|..])
      && var d, rest := DigitsOf(telefono.value), r[|codigoPais|..];
         if |d| > 0 && d[0] == '0' then d == "0" + rest else d == rest
  {
    if telefono.None? || telefono.value == "" then ""
    else
      var d := DigitsOf(telefono.value);
      var rest := if |d| > 0 && d[0] == '0' then d[1..] else d;
      var r := codigoPais + rest;
      assert r[|codigoPais|..] == rest;
      r
  }

  /** Only one leading zero goes: a number written with two keeps the second. */
  lemma OneZeroDropped(telefono: string, codigoPais: string)
    requires telefono != ""
    requires var d := DigitsOf(telefono); |d| >= 2 && d[0] == '0' && d[1] == '0'
    ensures var r := WhatsappUrl(Some(telefono), codigoPais);
      |r| > |codigoPais| && r[|codigoPais|] == '0'
  {
    var r := WhatsappUrl(Some(telefono), codigoPais);
    var d := DigitsOf(telefono);
    assert d == "0" + r[|codigoPais|..];
    assert r[|codigoPais|..][0] == d[1];
  }

  /** Separators between groups of digits vanish and the groups are joined. */
  lemma SeparatorsDropped(a: string, x: char, b: string, y: char, c: string)
    requires AllDigits(a) && AllDigits(b) && AllDigits(c)
    requires !IsDigit(x) && !IsDigit(y)
    ensures DigitsOf(a + [x] + b + [y] + c) == a + b + c
  {
    assert DigitsOf([x]) == [] by { assert [x][1..] == []; }
    assert DigitsOf([y]) == [] by { assert [y][1..] == []; }
    var p1 := a + [x];
    var p2 := p1 + b;
    var p3 := p2 + [y];
    DigitsOfConcat(a, [x]);
    assert DigitsOf(p1) == a;
    DigitsOfConcat(p1, b);
    assert DigitsOf(p2) == a + b;
    DigitsOfConcat(p2, [y]);
    assert DigitsOf(p3) == a + b;
    DigitsOfConcat(p3, c);
  }

  /** The example in the filter's documentation: "0981-123 456" becomes "595981123456". */
  lemma DocumentedExample()
    ensures WhatsappUrl(Some("0981" + "-" + "123" + " " + "456")) == "595" + "981" + "123" + "456"
  {
    var a, b, c := "0981", "123", "456";
    assert AllDigits(a) && AllDigits(b) && AllDigits(c);
    SeparatorsDropped(a, '-', b, ' ', c);
    assert "0981" + "-" + "123" + " " + "456" == a + ['-'] + b + [' '] + c;
  }

  /** Four values placed between five fixed pieces of text, each piece found at its offset. */
  function Fill(t0: string, x1: string, t1: string, x2: string, t2: string,
                x3: string, t3: string, x4: string, t4: string): (r: string)
    ensures |r| == |t0| + |x1| + |t1| + |x2| + |t2| + |x3| + |t3| + |x4| + |t4|
    ensures r[..|t0|] == t0
    ensures var o1 := |t0|; r[o1..o1 + |x1|] == x1 && r[o1 + |x1|..o1 + |x1| + |t1|] == t1
    ensures var o2 := |t0| + |x1| + |t1|; r[o2..o2 + |x2|] == x2 && r[o2 + |x2|..o2 + |x2| + |t2|] == t2
    ensures var o3 := |t0| + |x1| + |t1| + |x2| + |t2|; r[o3..o3 + |x3|] == x3 && r[o3 + |x3|..o3 + |x3| + |t3|] == t3
    ensures var o4 := |t0| + |x1| + |t1| + |x2| + |t2| + |x3| + |t3|; r[o4..o4 + |x4|] == x4 && r[o4 + |x4|..] == t4
  {
    var head := t0 + x1 + t1 + x2 + t2;
    var r := head + x3 + t3 + x4 + t4;
    var o1, o2 := |t0| + |x1|, |t0| + |x1| + |t1| + |x2|;
    Pieces(t0, x1, t1, x2, t2);
    Pieces(head, x3, t3, x4, t4);
    assert r[..|t0|] == r[..|head|][..|t0|];
    assert r[|t0|..o1] == r[..|head|][|t0|..o1];
    assert r[o1..o1 + |t1|] == r[..|head|][o1..o1 + |t1|];
    assert r[o1 + |t1|..o2] == r[..|head|][o1 + |t1|..o2];
    assert r[o2..|head|] == r[..|head|][o2..];
    r
  }

  // The fixed text of the reminder; `%0A` is a URL-encoded line break.
  const Greeting: string := "Hola "
  const BeforeFecha: string := "! %0A" + "Te recordamos tu cita en * Beauty Manager*:%0A" + "Fecha: "
  const BeforeHora: string := "%0A" + "Hora: "
  const BeforeServicio: string := " hs%0A" + "Servicio: "
  const Closing: string := "%0A%0A" + "Por favor confirma tu asistencia. ¡Te esperamos! "

  /**
   * `whatsapp_mensaje`: the reminder with the client's first name, the date as
   * `dd/mm`, the time as `HH:MM` and the service name, each at a fixed offset
   * after the name.
   */
  function Reminder(c: Cita, cliente: Cliente, servicio: Servicio): (r: string)
    ensures var n, m := |cliente.nombre|, |servicio.nombre|;
      && |r| == 153 + n + m
      && r[..5] == Greeting && r[5..5 + n] == cliente.nombre
      && r[5 + n..63 + n] == BeforeFecha && r[63 + n..68 + n] == DayMonth(c.fecha)
      && r[68 + n..77 + n] == BeforeHora && r[77 + n..82 + n] == HourMinute(c.hora)
      && r[82 + n..98 + n] == BeforeServicio && r[98 + n..98 + n + m] == servicio.nombre
      && r[98 + n + m..] == Closing
  {
    assert |Greeting| == 5 && |BeforeFecha| == 58 && |BeforeHora| == 9;
    assert |BeforeServicio| == 16 && |Closing| == 55;
    Fill(Greeting, cliente.nombre, BeforeFecha, DayMonth(c.fecha), BeforeHora,
         HourMinute(c.hora), BeforeServicio, servicio.nombre, Closing)
  }

  /** Reading the reminder back gives the appointment's day, month, hour and minute. */
  lemma ReminderReadsBack(c: Cita, cliente: Cliente, servicio: Servicio)
    ensures var r, n := Reminder(c, cliente, servicio), |cliente.nombre|;
      && Denotes(r[63 + n..65 + n], c.fecha.day) && r[65 + n] == '/' && Denotes(r[66 + n..68 + n], c.fecha.month)
      && Denotes(r[77 + n..79 + n], c.hora.hour) && r[79 + n] == ':' && Denotes(r[80 + n..82 + n], c.hora.minute)
  {
    var r, n := Reminder(c, cliente, servicio), |cliente.nombre|;
    assert r[63 + n..65 + n] == DayMonth(c.fecha)[..2];
    assert r[66 + n..68 + n] == DayMonth(c.fecha)[3..];
    assert r[77 + n..79 + n] == HourMinute(c.hora)[..2];
    assert r[80 + n..82 + n] == HourMinute(c.hora)[3..];
  }
}
