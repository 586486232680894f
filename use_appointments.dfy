/** The appointment access layer (`useAppointments`): the mock generator
    behind `fetchAppointments`, the create / update / cancel results, and the
    upcoming and past views. Time and randomness are inputs: `Random` stands
    for one call of `Math.random()`, `now` for `Date.now()`, and ISO strings
    for `new Date().toISOString()` and the date helpers. */
module UseAppointments {
  import opened Wrappers
  import opened Text
  import opened Seqs
  import opened Sorting
  import opened Appointments

  // ---------------------------------------------------------------------------
  // Reference data.

  const MockDoctors: seq<Doctor> := [
    Doctor("d1", "Dr. Sarah Johnson", "Cardiology", "https://randomuser.me/api/portraits/women/44.jpg"),
    Doctor("d2", "Dr. Michael Chen", "Neurology", "https://randomuser.me/api/portraits/men/46.jpg"),
    Doctor("d3", "Dr. Emily Rodriguez", "Pediatrics", "https://randomuser.me/api/portraits/women/63.jpg"),
    Doctor("d4", "Dr. James Wilson", "Orthopedics", "https://randomuser.me/api/portraits/men/33.jpg"),
    Doctor("d5", "Dr. Lisa Thompson", "Dermatology", "https://randomuser.me/api/portraits/women/37.jpg")
  ]

  const AppointmentTypes: seq<Category> := [Consultation, FollowUp, CheckUp, Emergency]

  const Statuses: seq<Status> := [Scheduled, Completed, Cancelled, NoShow]

  const SymptomNames: seq<string> := [
    "Headache", "Fever", "Cough", "Fatigue", "Nausea", "Dizziness",
    "Chest pain", "Shortness of breath", "Back pain", "Joint pain"
  ]

  const NotesText: string := "Patient notes will be added after the appointment."

  const NotFound: string := "Appointment not found"

  // ---------------------------------------------------------------------------
  // Randomness.

  /** One result of `Math.random()`. */
  type Random = r: real | 0.0 <= r < 1.0

  /** `Math.floor(r * n)`: an index into an `n`-element array. */
  function Pick(r: Random, n: nat): (i: nat)
    requires n > 0
    ensures i < n
  {
    var x := r * n as real;
    assert 0.0 <= x < n as real;
    x.Floor
  }

  /** `getRandomTime()`: hour `Math.floor(r * 8) + 9`, zero-padded, then
      `:00` when the second draw exceeds 0.5 and `:30` otherwise. */
  function RandomTime(hour: Random, minute: Random): string {
    var hours := Pick(hour, 8) + 9;
    PadStart(NatToString(hours), 2, '0') + ":" + (if minute > 0.5 then "00" else "30")
  }

  /** A 24-hour `HH:MM` text. */
  predicate IsClockTime(t: string) {
    |t| == 5 && IsDigit(t[0]) && IsDigit(t[1]) && t[2] == ':' && IsDigit(t[3]) && IsDigit(t[4])
  }

  lemma TwoDigits(h: nat)
    requires 10 <= h < 100
    ensures |NatToString(h)| == 2
  {
    assert NatToString(h) == NatToString(h / 10) + [DigitChar(h % 10)];
  }

  /** A slot the generator can produce: `HH:MM` with the hour between 09
      and 16 and the minutes `00` or `30`. */
  predicate IsSlot(t: string) {
    IsClockTime(t) && 9 <= ParseNat(t[..2]) <= 16 && (t[3..] == "00" || t[3..] == "30")
  }

  lemma RandomTimeFormat(hour: Random, minute: Random)
    ensures IsSlot(RandomTime(hour, minute))
  {
    var h := Pick(hour, 8) + 9;
    var digits := NatToString(h);
    var t := RandomTime(hour, minute);
    var padded := PadStart(digits, 2, '0');
    ParseNatToString(h);
    if h < 10 {
      assert padded == "0" + digits;
      ParseNatLeadingZero(digits);
    } else {
      TwoDigits(h);
    }
    assert t[..2] == padded;
  }

  // ---------------------------------------------------------------------------
  // The mock generator.

  /** The three symptom draws; only the first `Math.floor(r * 4)` are used. */
  type SymptomPicks = s: seq<Random> | |s| == 3 witness [0.0, 0.0, 0.0]

  /** The random draws consumed for one generated record, and the dates the
      clock-dependent helpers `getRandomPastDate` / `getRandomFutureDate`
      and `createdAt` would produce. */
  datatype Draw = Draw(
    past: Random,
    doctor: Random,
    category: Random,
    status: Random,
    symptomCount: Random,
    symptomPicks: SymptomPicks,
    pastDate: string,
    futureDate: string,
    hour: Random,
    minute: Random,
    notes: Random,
    createdAt: string)

  predicate NoDuplicates<T(==)>(s: seq<T>) {
    forall i, j :: 0 <= i < j < |s| ==> s[i] != s[j]
  }

  /** The inner loop's result: each drawn name pushed unless already present. */
  function Dedup(xs: seq<string>): (r: seq<string>)
    ensures NoDuplicates(r)
    ensures |r| <= |xs|
    ensures forall y :: y in r <==> y in xs
  {
    if xs == [] then []
    else
      var acc := Dedup(xs[..|xs| - 1]);
      var x := xs[|xs| - 1];
      assert forall y :: y in xs <==> y in xs[..|xs| - 1] || y == x by {
        assert xs == xs[..|xs| - 1] + [x];
      }
      if x in acc then acc else acc + [x]
  }

  /** The names the inner loop draws for `d`. */
  function DrawnSymptoms(d: Draw): (names: seq<string>)
    ensures |names| <= 3
  {
    var n := Pick(d.symptomCount, 4);
    seq(n, k requires 0 <= k < n => SymptomNames[Pick(d.symptomPicks[k], |SymptomNames|)])
  }

  /** The record the `i`-th iteration (0-based) of the outer loop pushes. */
  function MockAppointment(patientId: string, i: nat, d: Draw): Appointment {
    var isPast := d.past > 0.5;
    var doctor := MockDoctors[Pick(d.doctor, |MockDoctors|)];
    var symptoms := Dedup(DrawnSymptoms(d));
    Appointment(
      "app-" + NatToString(i + 1),
      patientId,
      doctor.id,
      doctor,
      if isPast then d.pastDate else d.futureDate,
      RandomTime(d.hour, d.minute),
      if isPast then Statuses[Pick(d.status, |Statuses|)] else Scheduled,
      AppointmentTypes[Pick(d.category, |AppointmentTypes|)],
      if d.notes > 0.7 then Some(NotesText) else None,
      if |symptoms| > 0 then Some(symptoms) else None,
      d.createdAt,
      None)
  }

  /** The inner loop of the generator: `Math.floor(r * 4)` draws from the
      catalogue, each pushed unless already in the list. */
  method CollectSymptoms(d: Draw) returns (appointmentSymptoms: seq<string>)
    ensures appointmentSymptoms == Dedup(DrawnSymptoms(d))
  {
    var symptomCount := Pick(d.symptomCount, 4);
    appointmentSymptoms := [];
    var j := 0;
    while j < symptomCount
      invariant 0 <= j <= symptomCount
      invariant appointmentSymptoms == Dedup(DrawnSymptoms(d)[..j])
    {
      var symptom := SymptomNames[Pick(d.symptomPicks[j], |SymptomNames|)];
      assert DrawnSymptoms(d)[..j + 1][..j] == DrawnSymptoms(d)[..j];
      if symptom !in appointmentSymptoms {
        appointmentSymptoms := appointmentSymptoms + [symptom];
      }
      j := j + 1;
    }
    assert DrawnSymptoms(d)[..j] == DrawnSymptoms(d);
  }

  /** One iteration of the generator's outer loop: the draws of record
      `i`, the inner symptom loop, and the object it pushes. */
  method BuildAppointment(patientId: string, i: nat, d: Draw) returns (appointment: Appointment)
    ensures appointment == MockAppointment(patientId, i, d)
  {
    var isPast := d.past > 0.5;
    var doctor := MockDoctors[Pick(d.doctor, |MockDoctors|)];
    var category := AppointmentTypes[Pick(d.category, |AppointmentTypes|)];
    var status := if isPast then Statuses[Pick(d.status, |Statuses|)] else Scheduled;
    var appointmentSymptoms := CollectSymptoms(d);
    appointment := Appointment(
      "app-" + NatToString(i + 1),
      patientId,
      doctor.id,
      doctor,
      if isPast then d.pastDate else d.futureDate,
      RandomTime(d.hour, d.minute),
      status,
      category,
      if d.notes > 0.7 then Some(NotesText) else None,
      if |appointmentSymptoms| > 0 then Some(appointmentSymptoms) else None,
      d.createdAt,
      None);
  }

  /** `generateMockAppointments(patientId, count)`, given one `Draw` per record. */
  method GenerateMockAppointments(patientId: string, count: nat, draws: seq<Draw>)
    returns (appointments: seq<Appointment>)
    requires |draws| == count
    ensures |appointments| == count
    ensures forall i :: 0 <= i < count ==> appointments[i] == MockAppointment(patientId, i, draws[i])
    ensures forall i, j :: 0 <= i < j < count ==> appointments[i].id != appointments[j].id
  {
    appointments := [];
    var i := 0;
    while i < count
      invariant 0 <= i <= count
      invariant appointments == MockAppointments(patientId, draws[..i])
    {
      var appointment := BuildAppointment(patientId, i, draws[i]);
      MockAppointmentsSnoc(patientId, draws, i);
      appointments := appointments + [appointment];
      i := i + 1;
    }
    assert draws[..i] == draws;
    MockAppointmentsIndex(patientId, draws);
    MockIdsDistinct(patientId, draws, appointments);
  }

  /** The records generated from `draws`, in order. */
  function MockAppointments(patientId: string, draws: seq<Draw>): (r: seq<Appointment>)
    ensures |r| == |draws|
  {
    MapIndexed(draws, (i: nat, d: Draw) => MockAppointment(patientId, i, d))
  }

  /** One more iteration appends the record built from the next draw. */
  lemma MockAppointmentsSnoc(patientId: string, draws: seq<Draw>, i: nat)
    requires i < |draws|
    ensures MockAppointments(patientId, draws[..i + 1]) ==
      MockAppointments(patientId, draws[..i]) + [MockAppointment(patientId, i, draws[i])]
  {
    assert draws[..i + 1][..i] == draws[..i];
  }

  lemma MockAppointmentsIndex(patientId: string, draws: seq<Draw>)
    ensures forall i :: 0 <= i < |draws| ==> MockAppointments(patientId, draws)[i] == MockAppointment(patientId, i, draws[i])
  {
    MapIndexedIndex(draws, (i: nat, d: Draw) => MockAppointment(patientId, i, d));
  }

  /** The generated ids `app-1`, `app-2`, ... are pairwise distinct. */
  lemma MockIdsDistinct(patientId: string, draws: seq<Draw>, appointments: seq<Appointment>)
    requires |appointments| == |draws|
    requires forall i :: 0 <= i < |draws| ==> appointments[i] == MockAppointment(patientId, i, draws[i])
    ensures forall i, j :: 0 <= i < j < |appointments| ==> appointments[i].id != appointments[j].id
  {
    forall i, j | 0 <= i < j < |appointments| ensures appointments[i].id != appointments[j].id {
      PrefixedNumbersDistinct("app-", i + 1, j + 1);
    }
  }

  /** What every generated record satisfies: it carries the given patient
      and the `i + 1`-th id; its doctor is one of the mock doctors and
      `doctorId` is that doctor's id; a future record is always `scheduled` and a
      past one has one of the four statuses; notes are absent or the fixed text. */
  lemma MockAppointmentShape(patientId: string, i: nat, d: Draw)
    ensures var a := MockAppointment(patientId, i, d);
      && a.patientId == patientId && a.id == "app-" + NatToString(i + 1)
      && a.doctor in MockDoctors && a.doctorId == a.doctor.id
      && (d.past <= 0.5 ==> a.status == Scheduled && a.date == d.futureDate)
      && (d.past > 0.5 ==> a.date == d.pastDate) && a.status in Statuses
      && (a.notes.Some? ==> a.notes.value == NotesText)
      && a.updatedAt.None?
  {
  }

  /** A generated time is a valid slot between 09:00 and 16:30. */
  lemma MockAppointmentTime(patientId: string, i: nat, d: Draw)
    ensures IsSlot(MockAppointment(patientId, i, d).time)
  {
    RandomTimeFormat(d.hour, d.minute);
  }

  /** A symptom list, when present, has one to three distinct names from the
      catalogue; an empty draw is stored as `undefined`. */
  lemma MockAppointmentSymptoms(patientId: string, i: nat, d: Draw)
    ensures var a := MockAppointment(patientId, i, d);
      a.symptoms.Some? ==>
        1 <= |a.symptoms.value| <= 3 && NoDuplicates(a.symptoms.value) &&
        forall k :: 0 <= k < |a.symptoms.value| ==> a.symptoms.value[k] in SymptomNames
  {
    var names := DrawnSymptoms(d);
    assert forall k :: 0 <= k < |names| ==> names[k] in SymptomNames;
    var r := Dedup(names);
    assert forall k :: 0 <= k < |r| ==> r[k] in names;
  }

  // ---------------------------------------------------------------------------
  // Create, update, cancel.

  /** A partial appointment, as a caller passes it: `Some` marks a key that
      is present in the object (an optional field may be present and hold
      `undefined`, hence the nested `Option`). */
  datatype AppointmentPatch = AppointmentPatch(
    id: Option<string>,
    patientId: Option<string>,
    doctorId: Option<string>,
    doctor: Option<Doctor>,
    date: Option<string>,
    time: Option<string>,
    status: Option<Status>,
    category: Option<Category>,
    notes: Option<Option<string>>,
    symptoms: Option<Option<seq<string>>>,
    createdAt: Option<string>,
    updatedAt: Option<Option<string>>)

  const EmptyPatch := AppointmentPatch(None, None, None, None, None, None, None, None, None, None, None, None)

  function Or<T>(o: Option<T>, default: T): T {
    if o.Some? then o.value else default
  }

  /** `{ ...existing, ...patch }`. */
  function Merge(a: Appointment, p: AppointmentPatch): Appointment {
    Appointment(
      Or(p.id, a.id), Or(p.patientId, a.patientId), Or(p.doctorId, a.doctorId),
      Or(p.doctor, a.doctor), Or(p.date, a.date), Or(p.time, a.time),
      Or(p.status, a.status), Or(p.category, a.category), Or(p.notes, a.notes),
      Or(p.symptoms, a.symptoms), Or(p.createdAt, a.createdAt), Or(p.updatedAt, a.updatedAt))
  }

  /** `{ ...p, ...q }` on partial records: `q`'s keys win. */
  function Combine(p: AppointmentPatch, q: AppointmentPatch): AppointmentPatch {
    AppointmentPatch(
      if q.id.Some? then q.id else p.id,
      if q.patientId.Some? then q.patientId else p.patientId,
      if q.doctorId.Some? then q.doctorId else p.doctorId,
      if q.doctor.Some? then q.doctor else p.doctor,
      if q.date.Some? then q.date else p.date,
      if q.time.Some? then q.time else p.time,
      if q.status.Some? then q.status else p.status,
      if q.category.Some? then q.category else p.category,
      if q.notes.Some? then q.notes else p.notes,
      if q.symptoms.Some? then q.symptoms else p.symptoms,
      if q.createdAt.Some? then q.createdAt else p.createdAt,
      if q.updatedAt.Some? then q.updatedAt else p.updatedAt)
  }

  /** Every key of a record, as a partial record. */
  function AsPatch(a: Appointment): AppointmentPatch {
    AppointmentPatch(
      Some(a.id), Some(a.patientId), Some(a.doctorId), Some(a.doctor), Some(a.date), Some(a.time),
      Some(a.status), Some(a.category), Some(a.notes), Some(a.symptoms), Some(a.createdAt), Some(a.updatedAt))
  }

  /** The laws of the merge in `updateAppointmentById`: supplying nothing
      keeps the record, supplying every key replaces it, merging twice is
      merging once, and two successive merges are one merge with the later
      keys winning. */
  lemma MergeLaws(a: Appointment, b: Appointment, p: AppointmentPatch, q: AppointmentPatch)
    ensures Merge(a, EmptyPatch) == a
    ensures Merge(a, AsPatch(b)) == b
    ensures Merge(Merge(a, p), p) == Merge(a, p)
    ensures Merge(Merge(a, p), q) == Merge(a, Combine(p, q))
  {
  }

  /** The `newAppointment` of `createAppointment`: the caller's keys, then
      `id: app-${Date.now()}` and `createdAt`, which always win. */
  function Stamp(data: AppointmentPatch, now: nat, nowIso: string): (r: AppointmentPatch)
    ensures r.id == Some("app-" + NatToString(now)) && r.createdAt == Some(nowIso)
    ensures r.(id := data.id, createdAt := data.createdAt) == data
  {
    data.(id := Some("app-" + NatToString(now)), createdAt := Some(nowIso))
  }

  /** The caller cannot influence the stamped keys, and two creations at
      different instants get different ids. */
  lemma StampProperties(d1: AppointmentPatch, d2: AppointmentPatch, t1: nat, t2: nat, iso: string)
    ensures d1.(id := None, createdAt := None) == d2.(id := None, createdAt := None) ==>
      Stamp(d1, t1, iso) == Stamp(d2, t1, iso)
    ensures t1 != t2 ==> Stamp(d1, t1, iso).id != Stamp(d2, t2, iso).id
  {
    if t1 != t2 { PrefixedNumbersDistinct("app-", t1, t2); }
  }

  /** `createAppointment(data)`: always succeeds, with a record that carries
      the clock's id and timestamp and otherwise exactly the caller's keys. */
  function CreateAppointment(data: AppointmentPatch, now: nat, nowIso: string): (r: Result<AppointmentPatch, string>)
    ensures r.Success?
    ensures r.value.id == Some("app-" + NatToString(now)) && r.value.createdAt == Some(nowIso)
    ensures r.value.(id := data.id, createdAt := data.createdAt) == data
  {
    Success(Stamp(data, now, nowIso))
  }

  /** `updateAppointmentById(id, data)` against the current list: not found,
      or the first record with that id with the supplied keys merged over it. */
  function UpdateAppointmentById(list: seq<Appointment>, id: string, data: AppointmentPatch)
    : (r: Result<Appointment, string>)
    ensures r.Failure? <==> forall j :: 0 <= j < |list| ==> list[j].id != id
    ensures r.Failure? ==> r.error == NotFound
    ensures r.Success? ==> exists i :: IsFirstMatch(list, id, i) && r.value == Merge(list[i], data)
  {
    match FindById(list, id)
    case None => Failure(NotFound)
    case Some(existing) => Success(Merge(existing, data))
  }

  /** `cancelAppointmentById(id)`: not found, or success with no payload. */
  function CancelAppointmentById(list: seq<Appointment>, id: string): (r: Outcome<string>)
    ensures r.Fail? <==> forall j :: 0 <= j < |list| ==> list[j].id != id
    ensures r.Fail? ==> r.error == NotFound
  {
    if FindById(list, id).None? then Fail(NotFound) else Pass
  }

  // As written, the hook dispatches `addAppointment`, `updateAppointment` and
  // `cancelAppointment`, which the appointment slice does not export: each is
  // `undefined`, so the dispatch line throws a `TypeError` inside the `try`,
  // and the `catch` turns it into a failure carrying that error's message.

  function CreateAppointmentAsWritten(data: AppointmentPatch, now: nat, nowIso: string, typeError: string)
    : (r: Result<AppointmentPatch, string>)
    ensures r.Failure?
  {
    var _ := Stamp(data, now, nowIso);
    Failure(typeError)
  }

  function UpdateAppointmentByIdAsWritten(list: seq<Appointment>, id: string, data: AppointmentPatch, typeError: string)
    : (r: Result<Appointment, string>)
    ensures r.Failure?
  {
    match FindById(list, id)
    case None => Failure(NotFound)
    case Some(existing) => var _ := Merge(existing, data); Failure(typeError)
  }

  function CancelAppointmentByIdAsWritten(list: seq<Appointment>, id: string, typeError: string): (r: Outcome<string>)
    ensures r.Fail?
  {
    if FindById(list, id).None? then Fail(NotFound) else Fail(typeError)
  }

  /** The input that shows it: with the record present, the intended
      results succeed while the code as written reports the `TypeError`. */
  lemma AsWrittenNeverSucceeds(a: Appointment, data: AppointmentPatch, now: nat, nowIso: string, typeError: string)
    ensures UpdateAppointmentById([a], a.id, data).Success?
    ensures UpdateAppointmentByIdAsWritten([a], a.id, data, typeError) == Failure(typeError)
    ensures CancelAppointmentById([a], a.id) == Pass
    ensures CancelAppointmentByIdAsWritten([a], a.id, typeError) == Fail(typeError)
    ensures CreateAppointment(data, now, nowIso).Success?
    ensures CreateAppointmentAsWritten(data, now, nowIso, typeError) == Failure(typeError)
  {
  }

  // ---------------------------------------------------------------------------
  // Upcoming and past views.

  /** `appointment.date >= today && appointment.status === 'scheduled'`
      (`>=` on strings is "not `<`"). */
  predicate IsUpcoming(a: Appointment, today: string) {
    !StrLt(a.date, today) && a.status == Scheduled
  }

  /** `appointment.date < today || appointment.status !== 'scheduled'`. */
  predicate IsPast(a: Appointment, today: string) {
    StrLt(a.date, today) || a.status != Scheduled
  }

  /** The comparator of `getUpcomingAppointments`. */
  function UpcomingOrder(a: Appointment, b: Appointment): int {
    if a.date != b.date then Compare(a.date, b.date) else Compare(a.time, b.time)
  }

  /** The comparator of `getPastAppointments`. */
  function PastOrder(a: Appointment, b: Appointment): int {
    if a.date != b.date then Compare(b.date, a.date) else Compare(b.time, a.time)
  }

  /** Ascending by (date, time), read lexicographically. */
  predicate KeyLe(a: Appointment, b: Appointment) {
    StrLt(a.date, b.date) || (a.date == b.date && !StrLt(b.time, a.time))
  }

  lemma UpcomingOrderMeaning(a: Appointment, b: Appointment)
    ensures UpcomingOrder(a, b) <= 0 <==> KeyLe(a, b)
    ensures PastOrder(a, b) == UpcomingOrder(b, a)
  {
    StrLtTrichotomy(a.date, b.date);
    StrLtTrichotomy(a.time, b.time);
  }

  lemma UpcomingOrderIsComparator()
    ensures IsComparator(UpcomingOrder)
  {
    forall a, b, c | UpcomingOrder(a, b) <= 0 && UpcomingOrder(b, c) <= 0
      ensures UpcomingOrder(a, c) <= 0
    {
      UpcomingOrderMeaning(a, b);
      UpcomingOrderMeaning(b, c);
      UpcomingOrderMeaning(a, c);
      if StrLt(a.date, b.date) && StrLt(b.date, c.date) {
        StrLtTransitive(a.date, b.date, c.date);
      }
      if a.date == b.date == c.date {
        StrLtTrichotomy(a.time, b.time);
        StrLtTrichotomy(b.time, c.time);
        if StrLt(a.time, b.time) && StrLt(b.time, c.time) {
          StrLtTransitive(a.time, b.time, c.time);
        }
        StrLtTrichotomy(a.time, c.time);
        if StrLt(c.time, a.time) {
          if StrLt(a.time, b.time) { StrLtTransitive(c.time, a.time, b.time); }
          else if StrLt(b.time, c.time) { StrLtTransitive(b.time, c.time, a.time); }
        }
      }
    }
  }

  lemma PastOrderIsComparator()
    ensures IsComparator(PastOrder)
  {
    UpcomingOrderIsComparator();
    forall a, b ensures PastOrder(a, b) == UpcomingOrder(b, a) {
      UpcomingOrderMeaning(a, b);
    }
  }

  /** `getUpcomingAppointments()` evaluated on `today`. */
  function GetUpcomingAppointments(list: seq<Appointment>, today: string): seq<Appointment> {
    SortBy(Filter(list, a => IsUpcoming(a, today)), UpcomingOrder)
  }

  /** `getPastAppointments()` evaluated on `today`. */
  function GetPastAppointments(list: seq<Appointment>, today: string): seq<Appointment> {
    SortBy(Filter(list, a => IsPast(a, today)), PastOrder)
  }

  /** Upcoming holds exactly the scheduled records dated today or later,
      each as often as in the list, ascending by (date, time). */
  lemma UpcomingSpec(list: seq<Appointment>, today: string)
    ensures var r := GetUpcomingAppointments(list, today);
      && (forall x :: x in r <==> x in list && IsUpcoming(x, today))
      && multiset(r) == multiset(Filter(list, a => IsUpcoming(a, today)))
      && (forall i, j :: 0 <= i < j < |r| ==> KeyLe(r[i], r[j]))
  {
    var r := GetUpcomingAppointments(list, today);
    UpcomingOrderIsComparator();
    SortBySorted(Filter(list, a => IsUpcoming(a, today)), UpcomingOrder);
    forall i, j | 0 <= i < j < |r| ensures KeyLe(r[i], r[j]) {
      UpcomingOrderMeaning(r[i], r[j]);
    }
    forall x ensures x in r <==> x in list && IsUpcoming(x, today) {
      assert x in r <==> x in multiset(r);
    }
  }

  /** Past holds exactly the other records, descending by (date, time). */
  lemma PastSpec(list: seq<Appointment>, today: string)
    ensures var r := GetPastAppointments(list, today);
      && (forall x :: x in r <==> x in list && !IsUpcoming(x, today))
      && multiset(r) == multiset(Filter(list, a => IsPast(a, today)))
      && (forall i, j :: 0 <= i < j < |r| ==> KeyLe(r[j], r[i]))
  {
    var r := GetPastAppointments(list, today);
    PastOrderIsComparator();
    SortBySorted(Filter(list, a => IsPast(a, today)), PastOrder);
    forall i, j | 0 <= i < j < |r| ensures KeyLe(r[j], r[i]) {
      UpcomingOrderMeaning(r[i], r[j]);
      UpcomingOrderMeaning(r[j], r[i]);
    }
    forall x ensures x in r <==> x in list && !IsUpcoming(x, today) {
      assert x in r <==> x in multiset(r);
    }
  }

  /** The two views partition the list: together they hold every record
      exactly as many times as the list does, and no record is in both. */
  lemma ViewsPartition(list: seq<Appointment>, today: string)
    ensures multiset(GetUpcomingAppointments(list, today)) + multiset(GetPastAppointments(list, today)) == multiset(list)
    ensures forall x :: !(x in GetUpcomingAppointments(list, today) && x in GetPastAppointments(list, today))
  {
    var up: Appointment -> bool := a => IsUpcoming(a, today);
    var past: Appointment -> bool := a => IsPast(a, today);
    var upcoming := Filter(list, up);
    var others := Filter(list, past);
    assert GetUpcomingAppointments(list, today) == SortBy(upcoming, UpcomingOrder);
    assert GetPastAppointments(list, today) == SortBy(others, PastOrder);
    FilterComplement(list, up, past);
    forall x ensures !(x in GetUpcomingAppointments(list, today) && x in GetPastAppointments(list, today)) {
      assert x in GetUpcomingAppointments(list, today) <==> x in multiset(upcoming);
      assert x in GetPastAppointments(list, today) <==> x in multiset(others);
    }
  }
}
