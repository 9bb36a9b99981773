/**
 * A customer's activity history (components/users/user-history-timeline.jsx): the
 * enrollments and turf bookings merged into one list sorted newest first, the empty
 * state, and the badges of each card. `new Date(value)` is a parameter: the time a
 * value denotes, or `None` for an invalid date.
 */
module UserHistory {
  import opened Wrappers
  import opened Json

  /** `new Date(value).getTime()`: `None` when the date is invalid (its time is NaN). */
  type TimeOf = Json -> Option<int>

  datatype ItemKind = EnrollmentItem | BookingItem

  /** One entry of `timelineItems`: its kind, the date it is sorted by, and the record itself. */
  datatype TimelineItem = TimelineItem(kind: ItemKind, date: Json, data: Json)

  // ------------------------------------------------------------ merging

  /** An enrollment is dated by `created_at`, else by `enrolled_at`. */
  function OfEnrollment(e: Json): (r: TimelineItem)
    ensures r.kind == EnrollmentItem && r.data == e
    ensures Truthy(Get(e, "created_at")) ==> r.date == Get(e, "created_at")
    ensures !Truthy(Get(e, "created_at")) ==> r.date == Get(e, "enrolled_at")
  {
    TimelineItem(EnrollmentItem, Or(Get(e, "created_at"), Get(e, "enrolled_at")), e)
  }

  /** A booking is dated by its `created_at` alone. */
  function OfBooking(b: Json): (r: TimelineItem)
    ensures r.kind == BookingItem && r.data == b && r.date == Get(b, "created_at")
  {
    TimelineItem(BookingItem, Get(b, "created_at"), b)
  }

  /** The spread of the mapped enrollments followed by the mapped bookings, before sorting. */
  function Merged(enrollments: seq<Json>, bookings: seq<Json>): (r: seq<TimelineItem>)
    ensures |r| == |enrollments| + |bookings|
    ensures forall i :: 0 <= i < |enrollments| ==> r[i] == OfEnrollment(enrollments[i])
    ensures forall i :: 0 <= i < |bookings| ==> r[|enrollments| + i] == OfBooking(bookings[i])
  {
    seq(|enrollments|, i requires 0 <= i < |enrollments| => OfEnrollment(enrollments[i]))
    + seq(|bookings|, i requires 0 <= i < |bookings| => OfBooking(bookings[i]))
  }

  // ------------------------------------------------------------ sorting

  /**
   * The comparator `new Date(b.date) - new Date(a.date)` is negative, so `x` goes
   * before `y`, exactly when both dates are valid and `x` is strictly later. An invalid
   * date makes the difference NaN, which the sort treats as "equal".
   */
  predicate Newer(x: TimelineItem, y: TimelineItem, timeOf: TimeOf)
  {
    timeOf(x.date).Some? && timeOf(y.date).Some? && timeOf(x.date).value > timeOf(y.date).value
  }

  /** `x` placed before the first entry it is newer than: after every entry it does not beat, as a stable sort places a later input. */
  function Insert(x: TimelineItem, s: seq<TimelineItem>, timeOf: TimeOf): (r: seq<TimelineItem>)
    ensures |r| == |s| + 1
    ensures r[0] == x || (s != [] && r[0] == s[0])
    decreases |s|
  {
    if s == [] then [x]
    else if Newer(x, s[0], timeOf) then [x] + s
    else [s[0]] + Insert(x, s[1..], timeOf)
  }

  /** `.sort(...)`, stable: each entry inserted, in input order, into the already sorted entries before it. */
  function SortByDate(items: seq<TimelineItem>, timeOf: TimeOf): (r: seq<TimelineItem>)
    ensures |r| == |items|
    decreases |items|
  {
    if items == [] then []
    else Insert(items[|items| - 1], SortByDate(items[..|items| - 1], timeOf), timeOf)
  }

  /** `timelineItems`. */
  function Timeline(enrollments: seq<Json>, bookings: seq<Json>, timeOf: TimeOf): seq<TimelineItem>
  {
    SortByDate(Merged(enrollments, bookings), timeOf)
  }

  predicate AllDated(s: seq<TimelineItem>, timeOf: TimeOf)
  {
    forall i :: 0 <= i < |s| ==> timeOf(s[i].date).Some?
  }

  /** Newest first: no entry is later than one before it. */
  predicate NewestFirst(s: seq<TimelineItem>, timeOf: TimeOf)
  {
    forall p, q :: 0 <= p < q < |s| ==> !Newer(s[q], s[p], timeOf)
  }

  lemma {:induction false} InsertPermutes(x: TimelineItem, s: seq<TimelineItem>, timeOf: TimeOf)
    ensures multiset(Insert(x, s, timeOf)) == multiset(s) + multiset{x}
    decreases |s|
  {
    if s != [] && !Newer(x, s[0], timeOf) {
      InsertPermutes(x, s[1..], timeOf);
      assert s == [s[0]] + s[1..];
    }
  }

  /** Sorting only reorders: the same entries, each as often. */
  lemma {:induction false} SortPermutes(items: seq<TimelineItem>, timeOf: TimeOf)
    ensures multiset(SortByDate(items, timeOf)) == multiset(items)
    decreases |items|
  {
    if items != [] {
      var front, last := items[..|items| - 1], items[|items| - 1];
      SortPermutes(front, timeOf);
      InsertPermutes(last, SortByDate(front, timeOf), timeOf);
      assert items == front + [last];
    }
  }

  lemma {:induction false} InsertSorted(x: TimelineItem, s: seq<TimelineItem>, timeOf: TimeOf)
    requires NewestFirst(s, timeOf) && AllDated(s, timeOf) && timeOf(x.date).Some?
    ensures NewestFirst(Insert(x, s, timeOf), timeOf)
    decreases |s|
  {
    if s != [] && !Newer(x, s[0], timeOf) {
      var rest := Insert(x, s[1..], timeOf);
      InsertSorted(x, s[1..], timeOf);
      InsertPermutes(x, s[1..], timeOf);
      var r := [s[0]] + rest;
      forall p, q | 0 <= p < q < |r| ensures !Newer(r[q], r[p], timeOf) {
        if p == 0 {
          assert r[q] in multiset(rest);
          assert r[q] == x || r[q] in s[1..];
        }
      }
    }
  }

  lemma {:induction false} SortDated(items: seq<TimelineItem>, timeOf: TimeOf)
    requires AllDated(items, timeOf)
    ensures AllDated(SortByDate(items, timeOf), timeOf)
  {
    var r := SortByDate(items, timeOf);
    SortPermutes(items, timeOf);
    forall i | 0 <= i < |r| ensures timeOf(r[i].date).Some? {
      assert r[i] in multiset(items);
    }
  }

  /** When every date is valid the sort leaves the entries newest first. */
  lemma {:induction false} SortSorted(items: seq<TimelineItem>, timeOf: TimeOf)
    requires AllDated(items, timeOf)
    ensures NewestFirst(SortByDate(items, timeOf), timeOf)
    decreases |items|
  {
    if items != [] {
      var front := items[..|items| - 1];
      SortSorted(front, timeOf);
      SortDated(front, timeOf);
      InsertSorted(items[|items| - 1], SortByDate(front, timeOf), timeOf);
    }
  }

  /**
   * The timeline holds every enrollment and every booking exactly once, so its length is
   * their total, and it is newest first whenever every date is valid.
   */
  lemma TimelineSpec(enrollments: seq<Json>, bookings: seq<Json>, timeOf: TimeOf)
    ensures var r := Timeline(enrollments, bookings, timeOf);
      && multiset(r) == multiset(Merged(enrollments, bookings))
      && |r| == |enrollments| + |bookings|
      && (AllDated(Merged(enrollments, bookings), timeOf) ==> NewestFirst(r, timeOf))
  {
    var items := Merged(enrollments, bookings);
    SortPermutes(items, timeOf);
    if AllDated(items, timeOf) {
      SortSorted(items, timeOf);
    }
  }

  /** Every enrollment appears in the timeline, dated by `created_at` or else `enrolled_at`. */
  lemma EnrollmentListed(enrollments: seq<Json>, bookings: seq<Json>, timeOf: TimeOf, i: nat)
    requires i < |enrollments|
    ensures OfEnrollment(enrollments[i]) in Timeline(enrollments, bookings, timeOf)
  {
    var items := Merged(enrollments, bookings);
    SortPermutes(items, timeOf);
    assert items[i] in multiset(items);
  }

  /** Every booking appears in the timeline, dated by its `created_at`. */
  lemma BookingListed(enrollments: seq<Json>, bookings: seq<Json>, timeOf: TimeOf, i: nat)
    requires i < |bookings|
    ensures OfBooking(bookings[i]) in Timeline(enrollments, bookings, timeOf)
  {
    var items := Merged(enrollments, bookings);
    SortPermutes(items, timeOf);
    assert items[|enrollments| + i] in multiset(items);
  }

  // ------------------------------------------------------------ cards

  datatype Variant = Default | Destructive | Secondary | Outline

  /** The enrollment status badge: active is default, cancelled destructive, anything else secondary. */
  function StatusVariant(status: Json): (r: Variant)
    ensures r == Default <==> status == Str("active")
    ensures r == Destructive <==> status == Str("cancelled")
    ensures r == Secondary <==> status != Str("active") && status != Str("cancelled")
  {
    if status == Str("active") then Default else if status == Str("cancelled") then Destructive else Secondary
  }

  /** The payment badge: paid is default, complimentary secondary, anything else outline. */
  function PaymentVariant(paymentStatus: Json): (r: Variant)
    ensures r == Default <==> paymentStatus == Str("paid")
    ensures r == Secondary <==> paymentStatus == Str("complimentary")
    ensures r == Outline <==> paymentStatus != Str("paid") && paymentStatus != Str("complimentary")
  {
    if paymentStatus == Str("paid") then Default
    else if paymentStatus == Str("complimentary") then Secondary
    else Outline
  }

  /** The booking badge: destructive and "Declined" for a declined booking, default and "Booked" otherwise. */
  function BookingBadge(declined: Json): (r: (Variant, string))
    ensures r.0 == Destructive <==> Truthy(declined)
    ensures r.0 == Default <==> !Truthy(declined)
    ensures r.1 == (if Truthy(declined) then "Declined" else "Booked")
  {
    if Truthy(declined) then (Destructive, "Declined") else (Default, "Booked")
  }

  /** What an enrollment card shows. */
  datatype EnrollmentCard = EnrollmentCard(
    partnerName: Json, partnerRole: Json, planName: Json,
    statusText: Json, statusVariant: Variant, adminBadge: bool,
    paymentText: Json, paymentVariant: Variant, date: Json, note: Option<Json>)

  /** `EnrollmentCard`: each text falls back through its `||` chain; the note shows only when truthy. */
  function EnrollmentCardOf(e: Json): (r: EnrollmentCard)
    ensures Truthy(r.partnerName) && Truthy(r.partnerRole) && Truthy(r.planName)
    ensures Truthy(r.statusText) && Truthy(r.paymentText)
    ensures !Truthy(Get(e, "status")) ==> r.statusText == Str("active")
    ensures !Truthy(Get(e, "payment_status")) ==> r.paymentText == Str("unpaid")
    ensures r.adminBadge <==> Get(e, "enrolled_by") == Str("admin")
    ensures r.note.Some? <==> Truthy(Get(e, "admin_notes"))
    ensures r.date == OfEnrollment(e).date
  {
    var partner := Get(e, "partner");
    EnrollmentCard(
      Or(Get(partner, "name"), Str("Unknown Partner")),
      Or(Or(Get(partner, "role"), Get(partner, "type")), Str("Partner")),
      Or(Or(Get(Get(e, "plan"), "name"), Get(Get(e, "batch_plans"), "duration")), Str("N/A")),
      Or(Get(e, "status"), Str("active")),
      StatusVariant(Get(e, "status")),
      Get(e, "enrolled_by") == Str("admin"),
      Or(Get(e, "payment_status"), Str("unpaid")),
      PaymentVariant(Get(e, "payment_status")),
      Or(Get(e, "created_at"), Get(e, "enrolled_at")),
      if Truthy(Get(e, "admin_notes")) then Some(Get(e, "admin_notes")) else None)
  }

  /**
   * The badge text and its colour read the status differently: an enrollment without a
   * status is labelled "active" but coloured as an unknown status.
   */
  lemma MissingStatusLabelledActive()
    ensures var card := EnrollmentCardOf(Obj(map[]));
      card.statusText == Str("active") && card.statusVariant == Secondary
  {
  }

  /** What a booking card shows. */
  datatype BookingCard = BookingCard(
    partnerName: Json, courtName: Json, sport: Json, variant: Variant, statusText: string,
    paymentId: Option<string>, declineReason: Option<Json>)

  /**
   * `BookingCard`: the texts fall back through their `||` chains; a text payment id
   * shows its first twelve characters then "..."; the decline reason shows only on a
   * declined booking that has one.
   */
  function BookingCardOf(b: Json): (r: BookingCard)
    ensures Truthy(r.partnerName) && Truthy(r.courtName) && Truthy(r.sport)
    ensures (r.variant, r.statusText) == BookingBadge(Get(b, "declined"))
    ensures r.paymentId.Some? <==> Truthy(Get(b, "payment_id")) && Get(b, "payment_id").Str?
    ensures r.paymentId.Some? ==> |r.paymentId.value| <= 15
    ensures r.paymentId.Some? ==>
      var id, shown := Get(b, "payment_id").s, r.paymentId.value;
      var n := |shown| - 3;
      0 <= n <= |id| && (n == 12 || n == |id|) && shown == id[..n] + "..."
    ensures r.declineReason.Some? <==> Truthy(Get(b, "declined")) && Truthy(Get(b, "decline_reason"))
  {
    var court, courts := Get(b, "court"), Get(b, "turf_courts");
    var id := Get(b, "payment_id");
    var badge := BookingBadge(Get(b, "declined"));
    BookingCard(
      Or(Get(Get(b, "partner"), "name"), Str("Unknown Turf")),
      Or(Or(Get(court, "name"), Get(courts, "name")), Str("Court")),
      Or(Or(Get(court, "sport"), Get(courts, "sport")), Str("Sport")),
      badge.0, badge.1,
      if Truthy(id) && id.Str? then Some(id.s[..if |id.s| < 12 then |id.s| else 12] + "...") else None,
      if Truthy(Get(b, "declined")) && Truthy(Get(b, "decline_reason")) then Some(Get(b, "decline_reason")) else None)
  }

  // ------------------------------------------------------------ the view

  /** What the component renders: the empty card, or one card per timeline entry in order. */
  datatype Card = EnrollmentEntry(enrollment: EnrollmentCard) | BookingEntry(booking: BookingCard)

  datatype HistoryView = NoActivity | Activity(cards: seq<Card>)

  function CardOf(item: TimelineItem): Card
  {
    if item.kind == EnrollmentItem then EnrollmentEntry(EnrollmentCardOf(item.data)) else BookingEntry(BookingCardOf(item.data))
  }

  function View(enrollments: seq<Json>, bookings: seq<Json>, timeOf: TimeOf): (r: HistoryView)
    ensures r.NoActivity? <==> enrollments == [] && bookings == []
    ensures r.Activity? ==> |r.cards| == |enrollments| + |bookings|
  {
    var items := Timeline(enrollments, bookings, timeOf);
    if |items| == 0 then NoActivity
    else Activity(seq(|items|, i requires 0 <= i < |items| => CardOf(items[i])))
  }

  /** An enrollment entry renders an enrollment card of that record, a booking entry a booking card. */
  lemma CardsFollowKinds(enrollments: seq<Json>, bookings: seq<Json>, timeOf: TimeOf, i: nat)
    requires View(enrollments, bookings, timeOf).Activity? && i < |enrollments| + |bookings|
    ensures var item := Timeline(enrollments, bookings, timeOf)[i];
      var card := View(enrollments, bookings, timeOf).cards[i];
      && (card.EnrollmentEntry? <==> item.kind == EnrollmentItem)
      && (card.EnrollmentEntry? ==> card.enrollment == EnrollmentCardOf(item.data))
      && (card.BookingEntry? ==> card.booking == BookingCardOf(item.data))
  {
  }
}
