# beauty-manager: the appointment core in Dafny

beauty-manager is a Django application for a beauty salon. Staff register
clients, professionals and services, then book appointments ("citas") for a
client with a professional at a date and time. Over its life an appointment
moves through four statuses: PENDIENTE, CONFIRMADO, REALIZADO and CANCELADO.
The application produces:
- a cash report of finished appointments over a date range;
- a list of upcoming appointments;
- a dashboard of the day;
- a WhatsApp reminder link for each appointment.

This project models the part of the application that decides things, and
proves what it promises.

- **Validation.** It models `CitaForm.clean`, the decision taken before an
  appointment is booked or edited. A past date is refused. A past time on
  today's date is refused. A slot that the professional already holds with a
  non-cancelled appointment is refused. The appointment being edited does not
  count against itself.
- **Records and save hooks.** The rows are plain Dafny datatypes. The models'
  `save()` overrides are modelled as functions:
  - the charged amount falls back to the service's price;
  - names and specialties are title-cased.
- **The store.** The four tables are maps held by one class, `Store.Salon`.
  Its invariant, `Valid()`, says:
  - appointment keys start at 1 and stay below the sequence;
  - protected references resolve;
  - every stored appointment has an amount;
  - `ci_ruc` is unique;
  - every stored name is title-cased.

  The views that write are its methods: book, edit, finalize, cancel, confirm,
  the three saves of clients, professionals and services, and the three
  protected deletes. Each method states its full new state and keeps `Valid()`.
- **Status changes.** `Lifecycle` states how a status change rewrites one row.
  Validated bookings, edits and cancellations keep the slot table free of
  double bookings. `confirmar_cita` and `finalizar_cita` do not re-validate.
  A concrete two-row table shows that each of them can put two active
  appointments into one slot.
- **Queries.** These are functions over the appointment map:
  - `reporte_caja`: its range fallback rule, the REALIZADO rows in range in
    date and time order, and their total;
  - `listado_citas`: pending and confirmed appointments from today on;
  - `home`: today's appointments by time.

  The total is proved independent of listing order. Finalizing an appointment
  inside the range that is not yet finished adds exactly its new amount.
  Cancelling takes exactly that row off the upcoming list.
- **WhatsApp.** `whatsapp_url` is the phone normaliser: keep the digits, drop
  one leading zero, prefix the country code. It is proved on its documented
  example as well as in general. The reminder text has each field proved at
  its offset, and the date and time read back to the appointment's values.

The clock (`date.today()`, `datetime.now().time()`) is a pair of parameters,
`today` and `now`. A query-string date is given already classified as absent,
malformed or a parsed date (`Queries.DateParam`). An HTTP GET without
confirmation is the `confirmed = false` case. A missing row (the 404) is an
explicit result.

Two behaviours are easy to misread in the code:
- The three foreign keys of `Cita` are declared `on_delete=PROTECT`
  (core/models.py:70-72). Deleting a client, professional or service is
  therefore refused while any appointment refers to it, whatever that
  appointment's status, cancelled ones included.
- The comment over `Cita.save` mentions REALIZADO and CONFIRMADO, but the
  code applies the price fallback whatever the status. So does the model.

Where the code has a bug (see "## Findings"), the store and the validator's
conflict message run the code as written. The corrected behaviour is modelled
beside it and proved.

Modules: `Wrappers` (Option), `Text` (ASCII character classes, `str.title`,
decimal numerals), `Calendar` (dates, times, their order and text forms),
`Records`, `Validation`, `Lifecycle`, `Store`, `Queries`, `Whatsapp`.

## Model

| member | source | states |
|---|---|---|
| Text.TitleAt | core/models.py:16-17 | `str.title()` on ASCII: a letter is upper-cased exactly when the character before it is not a letter, other letters are lower-cased, every other character is kept, and the length is unchanged |
| Text.TitleIdempotent | core/models.py:39-41 | title-casing a title-cased name changes nothing, so saving a row twice writes what saving once wrote |
| Text.CanonicalUnique | core/models.py:57 | a numeral without leading zeros is determined by its value: it is the one `str()` writes |
| Calendar.DateOrder | core/forms.py:34 | date comparison is a strict total order |
| Calendar.TimeOrder | core/forms.py:40 | time-of-day comparison is a strict total order |
| Calendar.IsoDate | core/models.py:90 | `str(date)` is `YYYY-MM-DD` whose three digit groups denote the year, month and day |
| Calendar.IsoTime | core/forms.py:55 | `str(time)` is `HH:MM:SS`, followed by `.ffffff` exactly when the microseconds are non-zero, each digit group denoting its field |
| Calendar.DayMonth | core/templatetags/whatsapp_filters.py:33 | `strftime('%d/%m')` is five characters whose two-digit groups denote the day and month |
| Calendar.HourMinute | core/templatetags/whatsapp_filters.py:34 | `strftime('%H:%M')` is five characters whose two-digit groups denote the hour and minute |
| Records.EstadoFromCode | core/models.py:78-87 | a stored status code reads back as the status with that code, and only the four choices read back at all |
| Records.TitledCliente | core/models.py:39-43 | saving a client title-cases `nombre` and `apellido`, keeps `ci_ruc`, `telefono` and `email`, and leaves an already title-cased client unchanged |
| Records.TitledProfesionalAsWritten | core/models.py:14-18 | as written, the save fails exactly when `especialidad` is NULL; otherwise it title-cases both names and the specialty |
| Records.TitledProfesional | core/models.py:14-18 | the intended save title-cases both names, title-cases the specialty when there is one and keeps NULL otherwise |
| Records.TitledProfesionalRepairsOnlyNull | core/models.py:7-18 | wherever the written save succeeds it writes what the intended save writes; a professional without specialty makes the written save fail and the intended one succeed |
| Records.TitledServicio | core/models.py:59-62 | saving a service title-cases only `nombre` |
| Records.WithDefaultMonto | core/models.py:92-98 | after a save the amount is set; an empty or zero amount becomes the service's price, any other amount and every other field is kept |
| Records.WithDefaultMontoIdempotent | core/models.py:92-98 | applying the save rule twice gives what applying it once gives |
| Records.ProfesionalStrAsWritten | core/models.py:11-12 | the written `__str__` is `nombre`, a space, `apellido` and a final `)`, each at its offset; it has one more `)` than the names and no extra `(` |
| Records.ProfesionalStr | core/models.py:11-12 | the intended `__str__` is `nombre`, a space and `apellido`, each at its offset; it has exactly the brackets the names have, and the written one is it plus `)` |
| Records.ClienteStr | core/models.py:36-37 | `"{nombre} {apellido} ({ci_ruc})"`: `nombre`, a space, `apellido`, `" ("`, `ci_ruc` and `)`, each at its offset |
| Records.ServicioStr | core/models.py:56-57 | `"{nombre} - {precio} Gs"`: the name, `" - "` and `" Gs"` in place; between them the price in decimal without leading zeros, after a `-` when it is negative |
| Records.ServicioStrPrice | core/models.py:56-57 | the price text is exactly the numeral `str()` writes for the price (for its absolute value after the `-`) |
| Records.CitaStr | core/models.py:89-90 | `"Cita: {cliente} - {fecha} {hora}"`: `"Cita: "`, the client's text, `" - "`, the ISO date, a space and the ISO time, each at its offset |
| Validation.Clean | core/forms.py:20-56 | incomplete input is accepted; otherwise PastDate exactly for a date before today, PastTime exactly for today with a time before now, and Conflict exactly when neither holds and another non-cancelled row holds the slot |
| Validation.MessageHead | core/forms.py:34-56 | every refusal has a non-empty message whose first letter identifies the check that failed |
| Validation.MessagesDistinct | core/forms.py:53-56 | different refusals show different messages; the conflict message carries the professional's written `__str__` (stray `)` included) and the ISO time at fixed offsets |
| Validation.PastDateAlwaysRefused | core/forms.py:34-35 | a date before today is refused whatever the time, the clock or the table |
| Validation.FutureDateIgnoresClock | core/forms.py:38-41 | for a date after today the current time plays no part and the only possible refusal is a conflict |
| Validation.NowIsNotPast | core/forms.py:38-41 | a time equal to now on today's date is neither a past date nor a past time |
| Validation.EditIgnoresItself | core/forms.py:50-51 | editing row `k` is decided exactly as booking against the table without `k` |
| Validation.OtherSlotsIrrelevant | core/forms.py:44-48 | adding a row that does not occupy the slot (other professional, date or time, or cancelled) never changes the decision |
| Validation.OccupiedSlotRefused | core/forms.py:44-56 | a non-cancelled row makes its own slot a conflict for anyone else, unless the slot is already past |
| Lifecycle.NewCita | core/models.py:86-96 | a booked appointment is PENDIENTE with the form's five fields and the service's price as its amount |
| Lifecycle.Rescheduled | core/views.py:262-265 | an edit replaces the five form fields, keeps the status, and applies the save rule to the amount |
| Lifecycle.Finalized | core/views.py:298-305 | finalizing sets REALIZADO and the submitted amount (or the price when it is empty or zero) and changes nothing else |
| Lifecycle.Cancelled | core/views.py:322-325 | cancelling sets CANCELADO and otherwise writes what the save rule writes |
| Lifecycle.Confirmed | core/views.py:333-336 | confirming sets CONFIRMADO from any status and otherwise writes what the save rule writes |
| Lifecycle.AtMostOneCoincidente | core/forms.py:44-53 | in a table without double bookings, at most one row matches a slot, whatever row is being edited |
| Lifecycle.BookingKeepsNoDoubleBooking | core/forms.py:44-56 | inserting a booking the validator accepted keeps every slot held by at most one active appointment |
| Lifecycle.EditingKeepsNoDoubleBooking | core/forms.py:44-56 | overwriting a row with an edit the validator accepted keeps every slot held by at most one active appointment |
| Lifecycle.CancellingKeepsNoDoubleBooking | core/views.py:322-325 | cancelling never creates a double booking |
| Lifecycle.ResaveUnchangedAccepted | core/forms.py:50-51 | in a table without double bookings, re-submitting an active appointment unchanged is accepted while its slot is not yet past |
| Lifecycle.ConfirmCanDoubleBook | core/views.py:333-336 | a table without double bookings in which confirming a cancelled row creates one |
| Lifecycle.FinalizeCanDoubleBook | core/views.py:298-305 | a table without double bookings in which finalizing a cancelled row creates one |
| Store.Salon.constructor | core/models.py:68-98 | an empty database, whose appointment keys start at 1, satisfies the invariant |
| Store.Salon.SaveCliente | core/models.py:28-43 | a duplicate `ci_ruc` is refused and nothing changes; otherwise the title-cased client is stored under its key, the other tables are unchanged and the invariant is kept |
| Store.Salon.SaveProfesional | core/models.py:14-22 | as written: without a specialty the save raises and nothing changes; otherwise the title-cased professional, which is what the intended save writes, is stored under its key and nothing else changes |
| Store.Salon.SaveServicio | core/models.py:59-62 | the title-cased service is stored under its key; nothing else changes |
| Store.Salon.DeleteCliente | core/views.py:158-171 | an unknown key is a 404; a GET only asks; a POST deletes the client exactly when no appointment refers to it and otherwise changes nothing |
| Store.Salon.DeleteProfesional | core/views.py:212-224 | an unknown key is a 404; a GET only asks; a POST deletes the professional exactly when no appointment refers to it and otherwise changes nothing |
| Store.Salon.DeleteServicio | core/views.py:79-88 | an unknown key is a 404; a GET only asks; a POST deletes the service exactly when no appointment refers to it and otherwise changes nothing |
| Store.Salon.Book | core/views.py:40-56 | the form is saved under the next key exactly when every field is valid and `clean` accepts; the stored row is the new pending appointment; otherwise the verdict is returned and the database is unchanged |
| Store.Salon.Edit | core/views.py:259-279 | an unknown key is a 404; otherwise the row is rewritten exactly when every field is valid and `clean` (excluding the row itself) accepts, and is left alone otherwise |
| Store.Salon.Finalize | core/views.py:295-315 | an unknown key is a 404; a GET only shows the form; an amount outside ten digits is refused; otherwise exactly that row becomes finalized |
| Store.Salon.Cancel | core/views.py:319-329 | an unknown key is a 404; a GET changes nothing; a POST cancels exactly that row |
| Store.Salon.Confirm | core/views.py:333-337 | an unknown key is a 404; otherwise exactly that row is confirmed, from any status |
| Queries.ListedBeforeOrder | core/views.py:246 | ordering by date, then time, then key is a strict total order |
| Queries.FirstExists | core/views.py:246 | every non-empty set of appointments has a first one in listing order |
| Queries.Listed | core/views.py:246 | the rows of a set, each once, in date and time order |
| Queries.ListingUnique | core/views.py:246 | two listings of the same set in that order are the same sequence |
| Queries.ReportRange | core/views.py:230-239 | the range is today..today unless both parameters are present; a bad start keeps both defaults; a bad end keeps the parsed start and ends today |
| Queries.Finished | core/views.py:243-246 | the report's rows are the REALIZADO appointments with start ≤ date ≤ end, and there are none when the end is before the start |
| Queries.SumOfListing | core/views.py:248 | summing the listed rows gives the order-free total of the set they list |
| Queries.ReporteCaja | core/views.py:228-256 | the report shows the computed range, lists exactly the finished rows in range in date and time order, and totals their charged amounts (0 when there are none, and when the end is before the start) |
| Queries.FinalizeAddsToTotal | core/views.py:243-248 | finalizing an unfinished appointment inside the range raises the total by exactly its new amount |
| Queries.Upcoming | core/views.py:283-291 | the list is exactly the PENDIENTE and CONFIRMADO appointments dated today or later, in date and time order |
| Queries.CancelLeavesUpcoming | core/views.py:286-289 | after a cancellation the upcoming list is the old one without exactly that row |
| Queries.Dashboard | core/views.py:97 | the dashboard lists exactly today's appointments, whatever their status, with times never decreasing |
| Whatsapp.DigitsOf | core/templatetags/whatsapp_filters.py:16 | the result is all digits, no longer than the input, and a string of digits is kept as it is |
| Whatsapp.DigitsOfConcat | core/templatetags/whatsapp_filters.py:16 | digit filtering distributes over concatenation, so the digits keep their order |
| Whatsapp.SeparatorsDropped | core/templatetags/whatsapp_filters.py:16 | three digit groups joined by any two non-digits become the three groups joined together |
| Whatsapp.WhatsappUrl | core/templatetags/whatsapp_filters.py:8-22 | a missing or empty phone gives `""`; otherwise the country code (default `595`) followed only by digits, which are the phone's digits less one leading zero |
| Whatsapp.OneZeroDropped | core/templatetags/whatsapp_filters.py:19-20 | only one leading zero goes: after two leading zeros the number still starts with `0` |
| Whatsapp.DocumentedExample | core/templatetags/whatsapp_filters.py:10-11 | `0981-123 456` becomes `595981123456` |
| Whatsapp.Fill | core/templatetags/whatsapp_filters.py:30-37 | the five fixed pieces of the message template and the four values between them are each found at the offset where the text before them ends |
| Whatsapp.Reminder | core/templatetags/whatsapp_filters.py:26-38 | the reminder is `Hola `, the client's first name, the greeting and `Fecha: ` line, the `dd/mm` date, `%0AHora: `, the `HH:MM` time, ` hs%0AServicio: `, the service name and the closing line, each at its fixed offset after the name |
| Whatsapp.ReminderReadsBack | core/templatetags/whatsapp_filters.py:33-34 | the digits at those offsets denote the appointment's day, month, hour and minute |

## Left out

- HTTP and Django plumbing: `render`, `redirect`, `login_required`, templates and widgets. A GET versus a POST is the `confirmed` flag, and a 404 is an explicit result.
- The system clock: `date.today()` and `datetime.now().time()` are the parameters `today` and `now`.
- Query-string parsing by `strptime`: the report takes each date already classified as absent or empty, malformed, or a parsed date.
- Django's field validation of `CitaForm` is reduced to "present and naming an existing row" (`Store.Salon.FieldsValid`). Parsing the posted strings is not modelled. The amount form of `finalizar_cita` is reduced to its ten-digit bound (`Store.ValidAmount`).
- Photo uploads (`imagen`) are file I/O. core/admin.py is display configuration. Neither is part of this model.
- `HorarioAtencion` is stored but never consulted, so it is not modelled. There is no business-hours check, no tenant scoping, no commission, no cash split and no expenses in this code.
- The views that only list clients, professionals or services, and `detalle_cliente`'s history, are not modelled: they are plain ordered reads with no rule beyond the ordering.
- Store.Salon.SaveCliente, Store.Salon.SaveProfesional, Store.Salon.SaveServicio: the caller chooses the key, so "create" and "edit" are one operation. The database's own key sequence for these tables is not modelled.
- Store.Salon.DeleteServicio: the view does not catch `ProtectedError`, so the request fails with a server error. The model returns `Protected` and changes nothing, which is what the database leaves behind.
- Queries.Listed: rows with the same date and time are listed by primary key. The database leaves their order unspecified.
- Concurrency: two requests can both pass `clean` and then both insert. The model is sequential, so this race is not captured.
- `str.title()` and `\D` are modelled on ASCII letters and on ASCII digits only. Unicode case mapping and Unicode digits are left out. As a result a non-ASCII letter counts as a word break in the model: `Title("muñoz")` is `"MuñOz"` and `Title("maría")` is `"MaríA"`, where Python writes `"Muñoz"` and `"María"`.
- Records.Servicio and Records.Cita: prices and amounts are `int`. The columns are `Decimal` with no decimal places, and only the amount form's ten-digit bound is checked.
- Calendar.Date: a day is 1..31 in any month. Month lengths and leap years are not checked. Comparisons and formatting do not depend on them.
- The `Meta` ordering nested inside `Profesional.save` has no effect in Django. Every view that lists professionals orders them explicitly, and that listing is not modelled.

## Findings

| source | as written | input that shows it | evidently intended | confidence | as-written member | corrected member |
|---|---|---|---|---|---|---|
| core/models.py:18 | `Profesional.save` calls `.title()` on `especialidad`, which is nullable (`null=True, blank=True`) | a professional saved with no specialty, e.g. `Profesional("ana", "paz", None, "0981")`: `None.title()` raises and nothing is saved | title-case the specialty when there is one, keep NULL otherwise | not executed | Records.TitledProfesionalAsWritten | Records.TitledProfesional |
| core/models.py:12 | `Profesional.__str__` returns `"{nombre} {apellido})"` | any professional: the text ends in a `)` that nothing opens | the full name `"{nombre} {apellido}"` | not executed | Records.ProfesionalStrAsWritten | Records.ProfesionalStr |
