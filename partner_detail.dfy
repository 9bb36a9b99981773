/**
 * The partner detail view (`normalizePartnerDetail` in lib/partners.js): coaches,
 * the course hierarchy course → batch → plan with its booking counts rolled up
 * bottom-up, the turf hierarchy turf → court with booking counts taken from the
 * partner's turf bookings, and the partner-wide metrics.
 */
module PartnerDetail {
  import opened Wrappers
  import opened Strings
  import opened Json
  import opened RecordHelpers
  import opened Partners
  import Seqs

  // ------------------------------------------------------------ sums

  function Sum(xs: seq<int>): int
    decreases |xs|
  {
    if xs == [] then 0 else Sum(xs[..|xs| - 1]) + xs[|xs| - 1]
  }

  /** A running JavaScript sum starting from 0: NaN once any term is NaN. */
  function Total(ns: seq<Number>): Number
    decreases |ns|
  {
    if ns == [] then Some(0) else Plus(Total(ns[..|ns| - 1]), ns[|ns| - 1])
  }

  lemma {:induction false} SumAppend(a: seq<int>, b: seq<int>)
    ensures Sum(a + b) == Sum(a) + Sum(b)
    decreases |b|
  {
    if b == [] {
      assert a + b == a;
    } else {
      SumAppend(a, b[..|b| - 1]);
      assert (a + b)[..|a + b| - 1] == a + b[..|b| - 1];
    }
  }

  lemma {:induction false} TotalAppend(a: seq<Number>, b: seq<Number>)
    ensures Total(a + b) == Plus(Total(a), Total(b))
    decreases |b|
  {
    if b == [] {
      assert a + b == a;
    } else {
      TotalAppend(a, b[..|b| - 1]);
      assert (a + b)[..|a + b| - 1] == a + b[..|b| - 1];
    }
  }

  // ------------------------------------------------------------ metadata

  /** A value `deriveMetadata` copies: neither null, undefined nor an object. */
  predicate Kept(v: Json) { !Nullish(v) && !IsObject(v) }

  lemma NatToStringInjective()
    ensures forall a: nat, b: nat :: NatToString(a) == NatToString(b) ==> a == b
  {
    forall a: nat, b: nat | NatToString(a) == NatToString(b) ensures a == b {
      DigitsValueOfNat(a);
      DigitsValueOfNat(b);
    }
  }

  /** `Object.entries` as a map: an object's fields, an array's elements under their index text. */
  function Entries(source: Json): map<string, Json>
  {
    match source
    case Obj(fields) => fields
    case Arr(items) =>
      NatToStringInjective();
      map i: nat | i < |items| :: NatToString(i) := items[i]
    case _ => map[]
  }

  /** What `deriveMetadata` returns: the entries outside `exclude` whose values are kept. */
  function Metadata(source: Json, exclude: set<string>): map<string, Json>
  {
    var entries := Entries(source);
    map k | k in entries && k !in exclude && Kept(entries[k]) :: entries[k]
  }

  /** `deriveMetadata`: copies the entries one by one. */
  method DeriveMetadata(source: Json, exclude: set<string>) returns (metadata: map<string, Json>)
    ensures metadata == Metadata(source, exclude)
  {
    metadata := map[];
    if !Truthy(source) || !IsObject(source) {
      return;
    }
    var entries := Entries(source);
    var pending := entries.Keys;
    while pending != {}
      invariant pending <= entries.Keys
      invariant metadata == map k | k in entries && k !in pending && k !in exclude && Kept(entries[k]) :: entries[k]
      decreases |pending|
    {
      var key :| key in pending;
      if key !in exclude && Kept(entries[key]) {
        metadata := metadata[key := entries[key]];
      }
      pending := pending - {key};
    }
  }

  /** The metadata never holds an excluded key, an object or a nullish value, and keeps every other field. */
  lemma MetadataFields(source: Json, exclude: set<string>, key: string)
    ensures key in Metadata(source, exclude) ==>
      key !in exclude && Kept(Metadata(source, exclude)[key]) && key in Entries(source)
    ensures source.Obj? && key in source.fields && key !in exclude && Kept(source.fields[key]) ==>
      key in Metadata(source, exclude) && Metadata(source, exclude)[key] == source.fields[key]
  {
  }

  /** `Object.keys(metadata).length ? metadata : null`. */
  function MetadataOrNull(source: Json, exclude: set<string>): (r: Option<map<string, Json>>)
    ensures r.Some? ==> r.value != map[] && r.value == Metadata(source, exclude)
    ensures r.None? ==> Metadata(source, exclude) == map[]
  {
    var m := Metadata(source, exclude);
    if |m| == 0 then None else Some(m)
  }

  /** An object holding only excluded keys has no metadata. */
  lemma NoMetadataWhenAllExcluded(source: Json, exclude: set<string>)
    requires source.Obj? && source.fields.Keys <= exclude
    ensures MetadataOrNull(source, exclude).None?
  {
    assert Metadata(source, exclude).Keys == {};
  }

  /** `value !== undefined ? Boolean(value) : true`: only an absent flag defaults to true. */
  function ActiveFlag(v: Json): bool
  {
    if v.Undefined? then true else Truthy(v)
  }

  // ------------------------------------------------------------ coaches

  datatype Coach = Coach(id: Json, name: Json, sport: Json, bio: Json, avatar: Json, updatedAt: Json)

  /** `normalizeCoach`: no coach for a falsy or non-object entry. */
  function NormalizeCoach(coach: Json): (r: Option<Coach>)
    ensures r.Some? <==> Truthy(coach) && IsObject(coach)
    ensures r.Some? ==> !Nullish(r.value.id) && !Nullish(r.value.name) && !r.value.updatedAt.Undefined?
  {
    if !Truthy(coach) || !IsObject(coach) then None
    else Some(Coach(
      Coalesce(Coalesce(Get(coach, "id"), Get(coach, "uuid")), Str("")),
      Coalesce(Coalesce(Coalesce(Get(coach, "name"), Get(coach, "full_name")), Get(coach, "display_name")), Str("Unknown coach")),
      Coalesce(Coalesce(Coalesce(Get(coach, "sport"), Get(coach, "specialization")), Get(coach, "expertise")), Str("")),
      Coalesce(Coalesce(Get(coach, "bio"), Get(coach, "about")), Str("")),
      Coalesce(Coalesce(Coalesce(Get(coach, "profile_image"), Get(coach, "avatar")), Get(coach, "image")), Str("")),
      Coalesce(Get(coach, "updated_at"), Null)))
  }

  function CoachesOf(items: seq<Json>): seq<Option<Coach>>
  {
    seq(|items|, i requires 0 <= i < |items| => NormalizeCoach(items[i]))
  }

  // ------------------------------------------------------------ plans, batches, courses

  const PlanExcluded: set<string> := {
    "students", "id", "plan_id", "batch_id", "course_id", "partner_id", "name", "title", "duration",
    "fees", "price", "amount", "sessions", "session_count", "frequency", "billing_cycle", "cycle",
    "description", "active", "currency", "start_date", "end_date", "valid_from", "valid_to",
    "created_at", "updated_at"}

  const BatchExcluded: set<string> := {
    "batch_plans", "plans", "id", "name", "title", "schedule", "timing", "capacity", "description",
    "note", "days", "days_of_week", "active", "start_date", "end_date", "starts_at", "ends_at",
    "created_at", "updated_at", "course_id", "partner_id"}

  const CourseExcluded: set<string> := {
    "batches", "id", "name", "title", "slug", "sport", "category", "level", "difficulty", "price",
    "fee", "fees", "currency", "description", "duration", "sessions", "active", "start_date",
    "end_date", "starts_at", "ends_at", "created_at", "updated_at"}

  const CourtExcluded: set<string> := {
    "id", "court_id", "uuid", "name", "sport", "surface", "type", "indoor", "is_indoor", "pricing",
    "rate", "active", "turf_id", "partner_id", "created_at", "updated_at", "metadata"}

  const TurfExcluded: set<string> := {
    "courts", "address", "id", "name", "sport", "category", "city", "state", "addressText",
    "active", "created_at", "updated_at", "partner_id", "metadata"}

  datatype Plan = Plan(
    id: Json, name: Json, duration: Json, fees: Json, price: Json, currency: Json, sessions: Json,
    frequency: Json, description: Json, startDate: Json, endDate: Json, active: bool,
    bookingCount: Number, createdAt: Json, updatedAt: Json, metadata: Option<map<string, Json>>)

  /** `normalizePlan`: its booking count is the aggregate of its `students`. */
  function NormalizePlan(plan: Json): (r: Option<Plan>)
    ensures r.Some? <==> Truthy(plan) && IsObject(plan)
    ensures r.Some? ==> r.value.bookingCount == ExtractAggregateCount(Get(plan, "students"))
  {
    if !Truthy(plan) || !IsObject(plan) then None
    else
      var price := Coalesce(Coalesce(Coalesce(Get(plan, "fees"), Get(plan, "price")), Get(plan, "amount")), Null);
      Some(Plan(
        Coalesce(Get(plan, "id"), Str("")),
        Coalesce(Coalesce(Coalesce(Get(plan, "name"), Get(plan, "title")), Get(plan, "duration")), Str("Unnamed plan")),
        Coalesce(Get(plan, "duration"), Str("")),
        Coalesce(Coalesce(Get(plan, "fees"), price), Null),
        price,
        Coalesce(Get(plan, "currency"), Null),
        Coalesce(Coalesce(Get(plan, "sessions"), Get(plan, "session_count")), Null),
        Coalesce(Coalesce(Coalesce(Get(plan, "frequency"), Get(plan, "billing_cycle")), Get(plan, "cycle")), Str("")),
        Coalesce(Get(plan, "description"), Str("")),
        Coalesce(Coalesce(Get(plan, "start_date"), Get(plan, "valid_from")), Null),
        Coalesce(Coalesce(Get(plan, "end_date"), Get(plan, "valid_to")), Null),
        ActiveFlag(Get(plan, "active")),
        ExtractAggregateCount(Get(plan, "students")),
        Coalesce(Get(plan, "created_at"), Null),
        Coalesce(Get(plan, "updated_at"), Null),
        MetadataOrNull(plan, PlanExcluded)))
  }

  /** A plan's price is the first of `fees`, `price`, `amount`, and its `fees` is that same price. */
  lemma PlanPrice(plan: Json)
    requires Truthy(plan) && IsObject(plan)
    ensures var p := NormalizePlan(plan).value;
      && p.fees == p.price
      && (!Nullish(Get(plan, "fees")) ==> p.price == Get(plan, "fees"))
      && (Nullish(Get(plan, "fees")) && Nullish(Get(plan, "price")) && Nullish(Get(plan, "amount")) ==> p.price == Null)
      && (Get(plan, "active").Undefined? ==> p.active)
      && (Get(plan, "active").Null? ==> !p.active)
  {
  }

  function PlansOf(items: seq<Json>): seq<Option<Plan>>
  {
    seq(|items|, i requires 0 <= i < |items| => NormalizePlan(items[i]))
  }

  function PlanBookings(plans: seq<Plan>): (r: seq<Number>)
    ensures |r| == |plans|
    ensures forall i :: 0 <= i < |plans| ==> r[i] == plans[i].bookingCount
  {
    seq(|plans|, i requires 0 <= i < |plans| => plans[i].bookingCount)
  }

  datatype Batch = Batch(
    id: Json, name: Json, schedule: Json, capacity: Json, description: Json, note: Json, days: Json,
    active: bool, startsAt: Json, endsAt: Json, createdAt: Json, updatedAt: Json,
    planCount: nat, bookingCount: Number, plans: seq<Plan>, metadata: Option<map<string, Json>>)

  /** A batch whose counts agree with its plans. */
  predicate BatchCounted(b: Batch)
  {
    b.planCount == |b.plans| && b.bookingCount == Total(PlanBookings(b.plans))
  }

  /** The plans kept from a list: only non-null plan entries. */
  function ListOf(v: Json): seq<Json>
  {
    if v.Arr? then v.items else []
  }

  /** `normalizeBatch`: its plan count and booking count come from its plans. */
  function NormalizeBatch(batch: Json): (r: Option<Batch>)
    ensures r.Some? <==> Truthy(batch) && IsObject(batch)
    ensures r.Some? ==> BatchCounted(r.value) && r.value.plans == Somes(PlansOf(ListOf(Get(batch, "batch_plans"))))
  {
    if !Truthy(batch) || !IsObject(batch) then None
    else
      var plans := Somes(PlansOf(ListOf(Get(batch, "batch_plans"))));
      Some(Batch(
        Coalesce(Get(batch, "id"), Str("")),
        Coalesce(Coalesce(Get(batch, "name"), Get(batch, "title")), Str("Unnamed batch")),
        Coalesce(Coalesce(Get(batch, "schedule"), Get(batch, "timing")), Str("")),
        Coalesce(Get(batch, "capacity"), Null),
        Coalesce(Get(batch, "description"), Str("")),
        Coalesce(Get(batch, "note"), Str("")),
        Coalesce(Coalesce(Get(batch, "days"), Get(batch, "days_of_week")), Str("")),
        ActiveFlag(Get(batch, "active")),
        Coalesce(Coalesce(Get(batch, "start_date"), Get(batch, "starts_at")), Null),
        Coalesce(Coalesce(Get(batch, "end_date"), Get(batch, "ends_at")), Null),
        Coalesce(Get(batch, "created_at"), Null),
        Coalesce(Get(batch, "updated_at"), Null),
        |plans|,
        Total(PlanBookings(plans)),
        plans,
        MetadataOrNull(batch, BatchExcluded)))
  }

  function BatchesOf(items: seq<Json>): seq<Option<Batch>>
  {
    seq(|items|, i requires 0 <= i < |items| => NormalizeBatch(items[i]))
  }

  function BatchPlanCounts(batches: seq<Batch>): (r: seq<int>)
    ensures |r| == |batches|
    ensures forall i :: 0 <= i < |batches| ==> r[i] == batches[i].planCount
  {
    seq(|batches|, i requires 0 <= i < |batches| => batches[i].planCount as int)
  }

  function BatchBookings(batches: seq<Batch>): (r: seq<Number>)
    ensures |r| == |batches|
    ensures forall i :: 0 <= i < |batches| ==> r[i] == batches[i].bookingCount
  {
    seq(|batches|, i requires 0 <= i < |batches| => batches[i].bookingCount)
  }

  /** Every plan of the batches, batch after batch. */
  function AllPlans(batches: seq<Batch>): seq<Plan>
    decreases |batches|
  {
    if batches == [] then [] else AllPlans(batches[..|batches| - 1]) + batches[|batches| - 1].plans
  }

  datatype Course = Course(
    id: Json, name: Json, slug: Json, sport: Json, level: Json, description: Json, price: Json,
    fees: Json, currency: Json, duration: Json, sessions: Json, active: bool, startDate: Json,
    endDate: Json, createdAt: Json, updatedAt: Json, batchCount: nat, planCount: int,
    bookingCount: Number, batches: seq<Batch>, metadata: Option<map<string, Json>>)

  predicate CourseCounted(c: Course)
  {
    && c.batchCount == |c.batches|
    && c.planCount == Sum(BatchPlanCounts(c.batches))
    && c.bookingCount == Total(BatchBookings(c.batches))
    && forall i :: 0 <= i < |c.batches| ==> BatchCounted(c.batches[i])
  }

  /** `normalizeCourse`: its counts are the sums of its batches' counts. */
  function NormalizeCourse(course: Json): (r: Option<Course>)
    ensures r.Some? <==> Truthy(course) && IsObject(course)
    ensures r.Some? ==> CourseCounted(r.value)
  {
    if !Truthy(course) || !IsObject(course) then None
    else
      var batches := Somes(BatchesOf(ListOf(Get(course, "batches"))));
      BatchesCounted(ListOf(Get(course, "batches")), batches);
      Some(Course(
        Coalesce(Get(course, "id"), Str("")),
        Coalesce(Coalesce(Get(course, "name"), Get(course, "title")), Str("Untitled")),
        Coalesce(Get(course, "slug"), Str("")),
        Coalesce(Coalesce(Get(course, "sport"), Get(course, "category")), Str("")),
        Coalesce(Coalesce(Get(course, "level"), Get(course, "difficulty")), Str("")),
        Coalesce(Get(course, "description"), Str("")),
        Coalesce(Coalesce(Get(course, "price"), Get(course, "fee")), Null),
        Coalesce(Get(course, "fees"), Null),
        Coalesce(Get(course, "currency"), Null),
        Coalesce(Get(course, "duration"), Str("")),
        Coalesce(Get(course, "sessions"), Null),
        ActiveFlag(Get(course, "active")),
        Coalesce(Coalesce(Get(course, "start_date"), Get(course, "starts_at")), Null),
        Coalesce(Coalesce(Get(course, "end_date"), Get(course, "ends_at")), Null),
        Coalesce(Get(course, "created_at"), Null),
        Coalesce(Get(course, "updated_at"), Null),
        |batches|,
        Sum(BatchPlanCounts(batches)),
        Total(BatchBookings(batches)),
        batches,
        MetadataOrNull(course, CourseExcluded)))
  }

  /** Every batch kept from a list is counted. */
  lemma BatchesCounted(items: seq<Json>, batches: seq<Batch>)
    requires batches == Somes(BatchesOf(items))
    ensures forall i :: 0 <= i < |batches| ==> BatchCounted(batches[i])
  {
    var entries := BatchesOf(items);
    assert forall i :: 0 <= i < |entries| && entries[i].Some? ==> BatchCounted(entries[i].value);
    SomesAll(entries, BatchCounted);
  }

  function CoursesOf(items: seq<Json>): seq<Option<Course>>
  {
    seq(|items|, i requires 0 <= i < |items| => NormalizeCourse(items[i]))
  }

  lemma BatchPlanCountsAppend(a: seq<Batch>, b: Batch)
    ensures BatchPlanCounts(a + [b]) == BatchPlanCounts(a) + [b.planCount as int]
    ensures BatchBookings(a + [b]) == BatchBookings(a) + [b.bookingCount]
  {
  }

  lemma PlanBookingsAppend(a: seq<Plan>, b: seq<Plan>)
    ensures PlanBookings(a + b) == PlanBookings(a) + PlanBookings(b)
  {
  }

  /** Rolled-up counts of counted batches equal the counts over all their plans. */
  lemma {:induction false} BatchesRollUp(batches: seq<Batch>)
    requires forall i :: 0 <= i < |batches| ==> BatchCounted(batches[i])
    ensures Sum(BatchPlanCounts(batches)) == |AllPlans(batches)|
    ensures Total(BatchBookings(batches)) == Total(PlanBookings(AllPlans(batches)))
    decreases |batches|
  {
    if batches != [] {
      var front := batches[..|batches| - 1];
      var last := batches[|batches| - 1];
      BatchesRollUp(front);
      Seqs.LastSplit(batches);
      BatchPlanCountsAppend(front, last);
      SumAppend(BatchPlanCounts(front), [last.planCount as int]);
      TotalAppend(BatchBookings(front), [last.bookingCount]);
      PlanBookingsAppend(AllPlans(front), last.plans);
      TotalAppend(PlanBookings(AllPlans(front)), PlanBookings(last.plans));
      assert Total([last.bookingCount]) == Plus(Some(0), last.bookingCount);
      assert BatchCounted(last);
    }
  }

  /** A course's plan count is the number of its plans, and its booking count the total over all of them. */
  lemma CourseRollUp(course: Json)
    requires Truthy(course) && IsObject(course)
    ensures var c := NormalizeCourse(course).value;
      c.planCount == |AllPlans(c.batches)| && c.bookingCount == Total(PlanBookings(AllPlans(c.batches)))
  {
    BatchesRollUp(NormalizeCourse(course).value.batches);
  }

  // ------------------------------------------------------------ court booking counts

  /** The court a booking counts for: none for a falsy or declined booking or one without a court id. */
  function CourtKey(booking: Json): (r: Option<string>)
    ensures Truthy(Get(booking, "declined")) ==> r.None?
  {
    if !Truthy(booking) || Truthy(Get(booking, "declined")) then None
    else
      var courtId := Coalesce(Coalesce(Coalesce(Get(booking, "court_id"), Get(booking, "courtId")), Get(Get(booking, "court"), "id")), Null);
      if !Truthy(courtId) then None else Some(ToStr(courtId))
  }

  /** The `Map` the bookings reduce into: one more per booking, under its court's id text. */
  function CourtCounts(bookings: seq<Json>): map<string, int>
    decreases |bookings|
  {
    if bookings == [] then map[]
    else
      var counts := CourtCounts(bookings[..|bookings| - 1]);
      var key := CourtKey(bookings[|bookings| - 1]);
      if key.None? then counts
      else counts[key.value := (if key.value in counts then counts[key.value] else 0) + 1]
  }

  /** The number of bookings that count for a court. */
  function Occurrences(bookings: seq<Json>, court: string): nat
    decreases |bookings|
  {
    if bookings == [] then 0
    else Occurrences(bookings[..|bookings| - 1], court) + (if CourtKey(bookings[|bookings| - 1]) == Some(court) then 1 else 0)
  }

  function CountFor(counts: map<string, int>, court: string): int
  {
    if court in counts then counts[court] else 0
  }

  /** Each court's entry is the number of its counted bookings, and a court appears only when it has one. */
  lemma {:induction false} CourtCountsAreOccurrences(bookings: seq<Json>, court: string)
    ensures CountFor(CourtCounts(bookings), court) == Occurrences(bookings, court)
    ensures court in CourtCounts(bookings) <==> Occurrences(bookings, court) > 0
    decreases |bookings|
  {
    if bookings != [] {
      CourtCountsAreOccurrences(bookings[..|bookings| - 1], court);
    }
  }

  /** A declined booking changes no court's count. */
  lemma DeclinedNotCounted(bookings: seq<Json>, declined: Json)
    requires Truthy(Get(declined, "declined"))
    ensures CourtCounts(bookings + [declined]) == CourtCounts(bookings)
  {
    assert (bookings + [declined])[..|bookings|] == bookings;
  }

  /** The reduce over the turf bookings, as the loop that fills the `Map`. */
  method BookingCountsByCourt(bookings: seq<Json>) returns (counts: map<string, int>)
    ensures counts == CourtCounts(bookings)
  {
    counts := map[];
    for i := 0 to |bookings|
      invariant counts == CourtCounts(bookings[..i])
    {
      assert bookings[..i + 1][..i] == bookings[..i];
      var key := CourtKey(bookings[i]);
      if key.Some? {
        var current := if key.value in counts then counts[key.value] else 0;
        counts := counts[key.value := current + 1];
      }
    }
    assert bookings[..|bookings|] == bookings;
  }

  // ------------------------------------------------------------ courts and turfs

  datatype Court = Court(
    id: Json, name: Json, sport: Json, surface: Json, indoor: Json, pricing: Json, active: bool,
    bookingCount: int, createdAt: Json, updatedAt: Json, metadata: Option<map<string, Json>>)

  /** `normalizeCourt`: its booking count is the count under its id text, 0 when there is none. */
  function NormalizeCourt(court: Json, counts: map<string, int>): (r: Option<Court>)
    ensures r.Some? <==> Truthy(court) && IsObject(court)
    ensures r.Some? ==> r.value.bookingCount == CountFor(counts, ToStr(r.value.id))
  {
    if !Truthy(court) || !IsObject(court) then None
    else
      var resolvedId := Coalesce(Coalesce(Coalesce(Get(court, "id"), Get(court, "court_id")), Get(court, "uuid")), Str(""));
      Some(Court(
        resolvedId,
        Coalesce(Get(court, "name"), Str("Unnamed court")),
        Coalesce(Get(court, "sport"), Str("")),
        Coalesce(Coalesce(Get(court, "surface"), Get(court, "type")), Str("")),
        Coalesce(Coalesce(Get(court, "indoor"), Get(court, "is_indoor")), Null),
        Coalesce(Coalesce(Get(court, "pricing"), Get(court, "rate")), Null),
        ActiveFlag(Get(court, "active")),
        CountFor(counts, ToStr(resolvedId)),
        Coalesce(Get(court, "created_at"), Null),
        Coalesce(Get(court, "updated_at"), Null),
        MetadataOrNull(court, CourtExcluded)))
  }

  function CourtsOf(items: seq<Json>, counts: map<string, int>): seq<Option<Court>>
  {
    seq(|items|, i requires 0 <= i < |items| => NormalizeCourt(items[i], counts))
  }

  function CourtBookings(courts: seq<Court>): (r: seq<int>)
    ensures |r| == |courts|
    ensures forall i :: 0 <= i < |courts| ==> r[i] == courts[i].bookingCount
  {
    seq(|courts|, i requires 0 <= i < |courts| => courts[i].bookingCount)
  }

  datatype Turf = Turf(
    id: Json, name: Json, sport: Json, city: Json, state: Json, addressText: string,
    courts: seq<Court>, courtCount: nat, bookingCount: int, active: bool, createdAt: Json,
    updatedAt: Json, metadata: Option<map<string, Json>>)

  predicate TurfCounted(t: Turf)
  {
    t.courtCount == |t.courts| && t.bookingCount == Sum(CourtBookings(t.courts))
  }

  /** `normalizeTurf`: its booking count is the sum of its courts'. */
  function NormalizeTurf(turf: Json, counts: map<string, int>): (r: Option<Turf>)
    ensures r.Some? <==> Truthy(turf) && IsObject(turf)
    ensures r.Some? ==> TurfCounted(r.value) && r.value.courts == Somes(CourtsOf(ListOf(Get(turf, "courts")), counts))
  {
    if !Truthy(turf) || !IsObject(turf) then None
    else
      var rawAddress := Get(turf, "address");
      var address := if Truthy(rawAddress) && IsObject(rawAddress) then rawAddress else Obj(map[]);
      var courts := Somes(CourtsOf(ListOf(Get(turf, "courts")), counts));
      Some(Turf(
        Coalesce(Get(turf, "id"), Str("")),
        Coalesce(Get(turf, "name"), Str("Unnamed turf")),
        Coalesce(Coalesce(Get(turf, "sport"), Get(turf, "category")), Str("")),
        Coalesce(Coalesce(Get(turf, "city"), Get(address, "city")), Str("")),
        Coalesce(Coalesce(Get(turf, "state"), Get(address, "state")), Str("")),
        AddressText(address),
        courts,
        |courts|,
        Sum(CourtBookings(courts)),
        ActiveFlag(Get(turf, "active")),
        Coalesce(Get(turf, "created_at"), Null),
        Coalesce(Get(turf, "updated_at"), Null),
        MetadataOrNull(turf, TurfExcluded)))
  }

  function TurfsOf(items: seq<Json>, counts: map<string, int>): seq<Option<Turf>>
  {
    seq(|items|, i requires 0 <= i < |items| => NormalizeTurf(items[i], counts))
  }

  /** Every court of the turfs, turf after turf. */
  function AllCourts(turfs: seq<Turf>): seq<Court>
    decreases |turfs|
  {
    if turfs == [] then [] else AllCourts(turfs[..|turfs| - 1]) + turfs[|turfs| - 1].courts
  }

  function TurfCourtCounts(turfs: seq<Turf>): (r: seq<int>)
    ensures |r| == |turfs|
    ensures forall i :: 0 <= i < |turfs| ==> r[i] == turfs[i].courtCount
  {
    seq(|turfs|, i requires 0 <= i < |turfs| => turfs[i].courtCount as int)
  }

  function TurfBookings(turfs: seq<Turf>): (r: seq<int>)
    ensures |r| == |turfs|
    ensures forall i :: 0 <= i < |turfs| ==> r[i] == turfs[i].bookingCount
  {
    seq(|turfs|, i requires 0 <= i < |turfs| => turfs[i].bookingCount)
  }

  lemma CourtBookingsAppend(a: seq<Court>, b: seq<Court>)
    ensures CourtBookings(a + b) == CourtBookings(a) + CourtBookings(b)
  {
  }

  lemma TurfCountsAppend(a: seq<Turf>, b: Turf)
    ensures TurfCourtCounts(a + [b]) == TurfCourtCounts(a) + [b.courtCount as int]
    ensures TurfBookings(a + [b]) == TurfBookings(a) + [b.bookingCount]
  {
  }

  /** Rolled-up turf counts equal the counts over all their courts. */
  lemma {:induction false} TurfsRollUp(turfs: seq<Turf>)
    requires forall i :: 0 <= i < |turfs| ==> TurfCounted(turfs[i])
    ensures Sum(TurfCourtCounts(turfs)) == |AllCourts(turfs)|
    ensures Sum(TurfBookings(turfs)) == Sum(CourtBookings(AllCourts(turfs)))
    decreases |turfs|
  {
    if turfs != [] {
      var front := turfs[..|turfs| - 1];
      var last := turfs[|turfs| - 1];
      TurfsRollUp(front);
      assert turfs == front + [last];
      TurfCountsAppend(front, last);
      SumAppend(TurfCourtCounts(front), [last.courtCount as int]);
      SumAppend(TurfBookings(front), [last.bookingCount]);
      CourtBookingsAppend(AllCourts(front), last.courts);
      SumAppend(CourtBookings(AllCourts(front)), CourtBookings(last.courts));
      assert TurfCounted(last);
    }
  }

  // ------------------------------------------------------------ the detail

  datatype Metrics = Metrics(
    coaches: nat, courses: nat, turfs: nat, gallery: nat, sports: nat,
    courseBatches: int, coursePlans: int, courseBookings: Number, turfCourts: int, turfBookings: int)

  datatype Detail = Detail(
    base: PartnerRecord, coaches: seq<Coach>, courses: seq<Course>, turfs: seq<Turf>,
    batches: Json, batchPlans: Json, enrollments: Json, turfCourts: Json, turfBookings: Json,
    metrics: Metrics)

  function CourseBatchCounts(courses: seq<Course>): (r: seq<int>)
    ensures |r| == |courses|
    ensures forall i :: 0 <= i < |courses| ==> r[i] == courses[i].batchCount
  {
    seq(|courses|, i requires 0 <= i < |courses| => courses[i].batchCount as int)
  }

  function CoursePlanCounts(courses: seq<Course>): (r: seq<int>)
    ensures |r| == |courses|
    ensures forall i :: 0 <= i < |courses| ==> r[i] == courses[i].planCount
  {
    seq(|courses|, i requires 0 <= i < |courses| => courses[i].planCount)
  }

  function CourseBookings(courses: seq<Course>): (r: seq<Number>)
    ensures |r| == |courses|
    ensures forall i :: 0 <= i < |courses| ==> r[i] == courses[i].bookingCount
  {
    seq(|courses|, i requires 0 <= i < |courses| => courses[i].bookingCount)
  }

  /** Every course kept from a list is counted. */
  lemma CoursesCounted(items: seq<Json>, courses: seq<Course>)
    requires courses == Somes(CoursesOf(items))
    ensures forall i :: 0 <= i < |courses| ==> CourseCounted(courses[i])
  {
    var entries := CoursesOf(items);
    assert forall i :: 0 <= i < |entries| && entries[i].Some? ==> CourseCounted(entries[i].value);
    SomesAll(entries, CourseCounted);
  }

  /** Every turf kept from a list is counted. */
  lemma TurfsCounted(items: seq<Json>, counts: map<string, int>, turfs: seq<Turf>)
    requires turfs == Somes(TurfsOf(items, counts))
    ensures forall i :: 0 <= i < |turfs| ==> TurfCounted(turfs[i])
  {
    var entries := TurfsOf(items, counts);
    assert forall i :: 0 <= i < |entries| && entries[i].Some? ==> TurfCounted(entries[i].value);
    SomesAll(entries, TurfCounted);
  }

  /** `String(base.role || "").toLowerCase() === "academy"`. */
  predicate IsAcademy(base: PartnerRecord)
  {
    Lower(ToStr(Or(base.role, Str("")))) == "academy"
  }

  /** The partner-wide metrics over the normalised coaches, courses and turfs. */
  function MetricsOf(base: PartnerRecord, coaches: seq<Coach>, courses: seq<Course>, turfs: seq<Turf>): Metrics
  {
    Metrics(
      |coaches|, |courses|, |turfs|, |base.gallery|, |base.sports|,
      Sum(CourseBatchCounts(courses)), Sum(CoursePlanCounts(courses)), Total(CourseBookings(courses)),
      Sum(TurfCourtCounts(turfs)), Sum(TurfBookings(turfs)))
  }

  /** The booking counts per court, from the partner's `turfBookings` list. */
  function PartnerCourtCounts(partner: Json): map<string, int>
  {
    CourtCounts(ListOf(Get(partner, "turfBookings")))
  }

  /** The detail around an already normalised base record: an academy has no turfs. */
  function DetailOf(partner: Json, base: PartnerRecord): (d: Detail)
    ensures d.base == base
    ensures IsAcademy(base) ==> d.turfs == [] && d.turfCourts == Arr([]) && d.turfBookings == Arr([])
    ensures !IsAcademy(base) ==> d.turfs == Somes(TurfsOf(ListOf(Get(partner, "turfs")), PartnerCourtCounts(partner)))
    ensures !IsAcademy(base) ==> d.turfCourts == Get(partner, "turf_courts") && d.turfBookings == Get(partner, "turf_bookings")
    ensures d.coaches == Somes(CoachesOf(ListOf(Get(partner, "tutors"))))
    ensures d.courses == Somes(CoursesOf(ListOf(Get(partner, "courses"))))
    ensures d.batches == Get(partner, "batches") && d.batchPlans == Get(partner, "batch_plans")
    ensures d.enrollments == Get(partner, "enrollments")
    ensures d.metrics == MetricsOf(base, d.coaches, d.courses, d.turfs)
    ensures forall i :: 0 <= i < |d.courses| ==> CourseCounted(d.courses[i])
    ensures forall i :: 0 <= i < |d.turfs| ==> TurfCounted(d.turfs[i])
  {
    var academy := IsAcademy(base);
    var counts := PartnerCourtCounts(partner);
    var coaches := Somes(CoachesOf(ListOf(Get(partner, "tutors"))));
    var courses := Somes(CoursesOf(ListOf(Get(partner, "courses"))));
    var allTurfs := Somes(TurfsOf(ListOf(Get(partner, "turfs")), counts));
    var turfs := if academy then [] else allTurfs;
    CoursesCounted(ListOf(Get(partner, "courses")), courses);
    TurfsCounted(ListOf(Get(partner, "turfs")), counts, allTurfs);
    Detail(
      base, coaches, courses, turfs,
      Get(partner, "batches"), Get(partner, "batch_plans"), Get(partner, "enrollments"),
      if academy then Arr([]) else Get(partner, "turf_courts"),
      if academy then Arr([]) else Get(partner, "turf_bookings"),
      MetricsOf(base, coaches, courses, turfs))
  }

  /** `normalizePartnerDetail`: no detail for a falsy partner. */
  function NormalizeDetail(partner: Json, parse: Parser, matcher: VideoIdMatcher, fmt: DateLabel): (r: Option<Detail>)
    ensures r.Some? <==> Truthy(partner)
    ensures r.Some? ==> r.value == DetailOf(partner, NormalizePartner(partner, parse, matcher, fmt))
  {
    if !Truthy(partner) then None
    else Some(DetailOf(partner, NormalizePartner(partner, parse, matcher, fmt)))
  }

  /** The metrics roll up: plans and bookings over every plan of every course, courts and bookings over every court of every turf. */
  lemma {:induction false} MetricsRollUp(d: Detail)
    requires d.metrics == MetricsOf(d.base, d.coaches, d.courses, d.turfs)
    requires forall i :: 0 <= i < |d.courses| ==> CourseCounted(d.courses[i])
    requires forall i :: 0 <= i < |d.turfs| ==> TurfCounted(d.turfs[i])
    ensures d.metrics.courseBatches == |AllBatches(d.courses)|
    ensures d.metrics.coursePlans == |AllPlans(AllBatches(d.courses))|
    ensures d.metrics.courseBookings == Total(PlanBookings(AllPlans(AllBatches(d.courses))))
    ensures d.metrics.turfCourts == |AllCourts(d.turfs)|
    ensures d.metrics.turfBookings == Sum(CourtBookings(AllCourts(d.turfs)))
  {
    CoursesRollUp(d.courses);
    TurfsRollUp(d.turfs);
  }

  /** Every batch of the courses, course after course. */
  function AllBatches(courses: seq<Course>): seq<Batch>
    decreases |courses|
  {
    if courses == [] then [] else AllBatches(courses[..|courses| - 1]) + courses[|courses| - 1].batches
  }

  lemma {:induction false} AllPlansAppend(a: seq<Batch>, b: seq<Batch>)
    ensures AllPlans(a + b) == AllPlans(a) + AllPlans(b)
    decreases |b|
  {
    if b == [] {
      assert a + b == a;
    } else {
      AllPlansAppend(a, b[..|b| - 1]);
      Seqs.AppendFront(a, b);
    }
  }

  lemma CourseCountsAppend(a: seq<Course>, b: Course)
    ensures CourseBatchCounts(a + [b]) == CourseBatchCounts(a) + [b.batchCount as int]
    ensures CoursePlanCounts(a + [b]) == CoursePlanCounts(a) + [b.planCount]
    ensures CourseBookings(a + [b]) == CourseBookings(a) + [b.bookingCount]
  {
  }

  /** Course-level sums equal the sums over every batch and every plan. */
  lemma CoursesRollUp(courses: seq<Course>)
    requires forall i :: 0 <= i < |courses| ==> CourseCounted(courses[i])
    ensures Sum(CourseBatchCounts(courses)) == |AllBatches(courses)|
    ensures Sum(CoursePlanCounts(courses)) == |AllPlans(AllBatches(courses))|
    ensures Total(CourseBookings(courses)) == Total(PlanBookings(AllPlans(AllBatches(courses))))
  {
    CoursesBatchRollUp(courses);
    CoursesPlanRollUp(courses);
    CoursesBookingRollUp(courses);
  }

  lemma {:induction false} CoursesBatchRollUp(courses: seq<Course>)
    requires forall i :: 0 <= i < |courses| ==> CourseCounted(courses[i])
    ensures Sum(CourseBatchCounts(courses)) == |AllBatches(courses)|
    decreases |courses|
  {
    if courses != [] {
      var front := courses[..|courses| - 1];
      var last := courses[|courses| - 1];
      CoursesBatchRollUp(front);
      assert CourseCounted(last);
      Seqs.LastSplit(courses);
      CourseCountsAppend(front, last);
      SumAppend(CourseBatchCounts(front), [last.batchCount as int]);
    }
  }

  lemma {:induction false} CoursesPlanRollUp(courses: seq<Course>)
    requires forall i :: 0 <= i < |courses| ==> CourseCounted(courses[i])
    ensures Sum(CoursePlanCounts(courses)) == |AllPlans(AllBatches(courses))|
    decreases |courses|
  {
    if courses != [] {
      var front := courses[..|courses| - 1];
      var last := courses[|courses| - 1];
      CoursesPlanRollUp(front);
      assert CourseCounted(last);
      Seqs.LastSplit(courses);
      CourseCountsAppend(front, last);
      SumAppend(CoursePlanCounts(front), [last.planCount]);
      BatchesRollUp(last.batches);
      AllPlansAppend(AllBatches(front), last.batches);
    }
  }

  lemma {:induction false} CoursesBookingRollUp(courses: seq<Course>)
    requires forall i :: 0 <= i < |courses| ==> CourseCounted(courses[i])
    ensures Total(CourseBookings(courses)) == Total(PlanBookings(AllPlans(AllBatches(courses))))
    decreases |courses|
  {
    if courses != [] {
      var front := courses[..|courses| - 1];
      var last := courses[|courses| - 1];
      CoursesBookingRollUp(front);
      assert CourseCounted(last);
      Seqs.LastSplit(courses);
      CourseCountsAppend(front, last);
      TotalAppend(CourseBookings(front), [last.bookingCount]);
      assert Total([last.bookingCount]) == Plus(Some(0), last.bookingCount);
      BatchesRollUp(last.batches);
      AllPlansAppend(AllBatches(front), last.batches);
      PlanBookingsAppend(AllPlans(AllBatches(front)), AllPlans(last.batches));
      TotalAppend(PlanBookings(AllPlans(AllBatches(front))), PlanBookings(AllPlans(last.batches)));
    }
  }

  /** A court's count in the detail is the number of counted bookings in the partner's `turfBookings`. */
  lemma CourtCountInDetail(partner: Json, court: Json)
    requires Truthy(court) && IsObject(court)
    ensures var c := NormalizeCourt(court, PartnerCourtCounts(partner)).value;
      c.bookingCount == Occurrences(ListOf(Get(partner, "turfBookings")), ToStr(c.id))
  {
    var c := NormalizeCourt(court, PartnerCourtCounts(partner)).value;
    CourtCountsAreOccurrences(ListOf(Get(partner, "turfBookings")), ToStr(c.id));
  }
}
