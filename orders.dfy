/**
 * Course and turf orders (lib/orders.js): amount and status coercions, the two
 * order normalisers, the combined newest-first list, totals, and the payment
 * join that `fetchOrders` performs before normalising.
 */
module Orders {
  import opened Wrappers
  import opened Strings
  import opened Json
  import opened RecordHelpers
  import Seqs

  // ------------------------------------------------------------ coercions

  /**
   * `toAmount`: 0 for null, undefined and ""; otherwise `Number(value)` when it is finite, else 0.
   * `ToNumber` is `None` for NaN and for values a whole number cannot hold (fractions, infinities).
   */
  function ToAmount(v: Json): int
  {
    if Nullish(v) || v == Str("") then 0
    else if v.Num? then v.n
    else ToNumber(v).GetOr(0)
  }

  /** The amount of a number is the number; of a numeral text, its value; of an absent or unreadable value, 0. */
  lemma ToAmountCases(v: Json)
    ensures v.Num? ==> ToAmount(v) == v.n
    ensures Nullish(v) || v == Str("") || v.NaN? ==> ToAmount(v) == 0
    ensures v.Str? && v.s != [] && ToNumber(v).None? ==> ToAmount(v) == 0
    ensures v.Str? && IsBlank(v.s) ==> ToAmount(v) == 0
    ensures v.Str? && !IsBlank(v.s) ==> ToAmount(v) == NumericLiteral(Trim(v.s)).GetOr(0)
  {
  }

  /** Text with no surrounding space is read as a numeric literal, 0 when it is none. */
  lemma AmountOfLiteral(t: string, v: Option<int>)
    requires t != [] && IsTrimmed(t) && NumericLiteral(t) == v
    ensures ToAmount(Str(t)) == v.GetOr(0)
  {
    ToAmountCases(Str(t));
  }

  /** A whole amount written with cents reads as that amount: "100.00" is 100. */
  lemma AmountWithPointZeros()
    ensures ToAmount(Str("100.00")) == 100
  {
    assert "100.00" == "100" + "." + "00";
    assert DigitsValue("100") == 100 by {
      assert "100"[..2] == "10" && "10"[..1] == "1";
    }
    PointZerosLiteral("100", "00");
    AmountOfLiteral("100.00", Some(100));
  }

  /** An amount in exponent notation reads as its value: "1e3" is 1000. */
  lemma AmountWithExponent()
    ensures ToAmount(Str("1e3")) == 1000
  {
    assert NatToString(3) == "3";
    assert "1e3" == "1" + "e" + NatToString(3);
    assert DigitsValue("1") == 1 && Pow10(3) == 1000;
    ExponentLiteral("1", 3);
    AmountOfLiteral("1e3", Some(1000));
  }

  /** A hexadecimal amount reads in base 16: "0x10" is 16. */
  lemma AmountWithHexPrefix()
    ensures ToAmount(Str("0x10")) == 16
  {
    assert "0x10" == ['0', 'x'] + "10";
    assert RadixValue("10", 16) == 16 by {
      assert "10"[..1] == "1";
    }
    PrefixedLiteral('x', "10", 16);
    AmountOfLiteral("0x10", Some(16));
  }

  /** An amount with a fractional part is outside the model's whole numbers and counts as 0: "12.5". */
  lemma AmountWithFraction()
    ensures ToAmount(Str("12.5")) == 0
  {
    assert "12.5" == "12" + "." + "5";
    FractionLiteral("12", "5");
    AmountOfLiteral("12.5", None);
  }

  /** Words are not amounts: "abc" (NaN) and "Infinity" (not finite) both count as 0. */
  lemma AmountOfWord()
    ensures ToAmount(Str("abc")) == 0
    ensures ToAmount(Str("Infinity")) == 0
  {
    WordIsNaN("abc");
    AmountOfLiteral("abc", None);
    WordIsNaN("Infinity");
    AmountOfLiteral("Infinity", None);
  }

  /** Printing an amount and reading the text back gives the amount. */
  lemma ToAmountOfNumeral(n: int)
    ensures ToAmount(Str(IntToString(n))) == n
  {
    var t := IntToString(n);
    IntToStringRoundTrip(n);
    assert IsTrimmed(t);
    TrimOfTrimmed(t);
  }

  /** `safeString`: "" for null and undefined, otherwise `String(v)`. */
  function SafeString(v: Json): (r: string)
    ensures v.Str? ==> r == v.s
    ensures Nullish(v) ==> r == []
  {
    if Nullish(v) then "" else ToStr(v)
  }

  /** `formatTime`: "-" for a falsy value, the first five characters of a text, otherwise `String(v)`. */
  function FormatTime(v: Json): (r: string)
    ensures !Truthy(v) ==> r == "-"
    ensures v.Str? && Truthy(v) ==> StartsWith(v.s, r) && |r| == if |v.s| < 5 then |v.s| else 5
  {
    if !Truthy(v) then "-"
    else if v.Str? then (if |v.s| < 5 then v.s else v.s[..5])
    else ToStr(v)
  }

  // ------------------------------------------------------------ statuses

  /** A status `deriveCourseStatus` can take: text, or a falsy value (anything else throws on `toLowerCase`). */
  predicate StatusIsText(status: Json)
  {
    !Truthy(status) || status.Str?
  }

  /** `charAt(0).toUpperCase() + slice(1)`. */
  function Capitalize(s: string): (r: string)
    ensures |r| == |s|
    ensures s != [] ==> !IsLowerLetter(r[0]) && r[1..] == s[1..]
  {
    if s == [] then [] else [UpperChar(s[0])] + s[1..]
  }

  /** `deriveCourseStatus`: a falsy status is "Pending"; the label is never empty. */
  function DeriveCourseStatus(status: Json): (r: string)
    requires StatusIsText(status)
    ensures !Truthy(status) ==> r == "Pending"
    ensures r != []
  {
    if !Truthy(status) then "Pending"
    else
      var normalized := Lower(status.s);
      if normalized in {"completed", "active", "success"} then "Completed"
      else if normalized in {"cancelled", "canceled"} then "Cancelled"
      else if normalized == "failed" then "Failed"
      else Capitalize(status.s)
  }

  const KnownStatuses: set<string> := {"completed", "active", "success", "cancelled", "canceled", "failed"}

  /**
   * A known status is recognised whatever its capitals: completed, active and
   * success read "Completed", cancelled and canceled "Cancelled", failed "Failed".
   */
  lemma KnownCourseStatus(a: string, b: string)
    requires a != [] && b != [] && Lower(a) == Lower(b) && Lower(a) in KnownStatuses
    ensures DeriveCourseStatus(Str(a)) == DeriveCourseStatus(Str(b))
    ensures Lower(a) in {"completed", "active", "success"} ==> DeriveCourseStatus(Str(a)) == "Completed"
    ensures Lower(a) in {"cancelled", "canceled"} ==> DeriveCourseStatus(Str(a)) == "Cancelled"
    ensures Lower(a) == "failed" ==> DeriveCourseStatus(Str(a)) == "Failed"
  {
  }

  lemma LowerOfUpper(c: char)
    ensures LowerChar(UpperChar(c)) == LowerChar(c)
  {
  }

  /** An unknown status is shown as given, only with a capital first letter. */
  lemma UnknownCourseStatus(a: string)
    requires a != [] && Lower(a) !in KnownStatuses
    ensures var r := DeriveCourseStatus(Str(a));
      |r| == |a| && r[1..] == a[1..] && !IsLowerLetter(r[0]) && Lower(r) == Lower(a)
  {
    var r := Capitalize(a);
    assert DeriveCourseStatus(Str(a)) == r;
    LowerOfUpper(a[0]);
    assert Lower(r)[0] == Lower(a)[0];
    forall i | 1 <= i < |a| ensures Lower(r)[i] == Lower(a)[i] {
      assert r[i] == a[i];
    }
  }

  /** `deriveTurfStatus`. */
  function DeriveTurfStatus(order: Json): (r: string)
    ensures r in {"Declined", "Accepted"}
    ensures r == "Declined" <==> Truthy(Get(order, "declined"))
  {
    if Truthy(Get(order, "declined")) then "Declined" else "Accepted"
  }

  // ------------------------------------------------------------ order records

  datatype Payment = Payment(
    id: Json, paymentType: string, status: string, amount: int, currency: Json,
    razorpayOrderId: string, razorpayPaymentId: string, userId: Json, createdAt: Json,
    createdAtLabel: string)

  /** `normalizePayment`: none for a falsy or non-object value; status "Unknown" when empty. */
  function NormalizePayment(payment: Json, fmt: DateLabel): (r: Option<Payment>)
    ensures r.Some? <==> Truthy(payment) && IsObject(payment)
    ensures r.Some? ==> r.value.status != [] && r.value.amount == ToAmount(Get(payment, "amount"))
    ensures r.Some? && Nullish(Get(payment, "currency")) ==> r.value.currency == Str("INR")
  {
    if !Truthy(payment) || !IsObject(payment) then None
    else
      var status := SafeString(Get(payment, "status"));
      Some(Payment(
        Coalesce(Get(payment, "id"), Str("")),
        SafeString(Get(payment, "type")),
        if status == [] then "Unknown" else status,
        ToAmount(Get(payment, "amount")),
        Coalesce(Get(payment, "currency"), Str("INR")),
        SafeString(Get(payment, "razorpay_order_id")),
        SafeString(Get(payment, "razorpay_payment_id")),
        Coalesce(Get(payment, "user_id"), Str("")),
        Coalesce(Get(payment, "created_at"), Null),
        FormatDate(fmt, Get(payment, "created_at"))))
  }

  datatype Customer = Customer(id: Json, name: string, email: string, phone: string, gender: string)
  datatype PartnerRef = PartnerRef(id: Json, name: Json)
  datatype PlanRef = PlanRef(
    id: Json, courseId: Json, batchId: Json, duration: Json, fees: int, batchName: Json,
    courseName: Json, sport: Json, schedule: Json)
  datatype BookingRef = BookingRef(
    paymentId: string, declined: bool, declineReason: string, date: string, startTime: string,
    endTime: string, courtId: Json, courtName: Json, turfId: Json, turfName: Json, turfSport: Json)

  datatype OrderType = CourseType | TurfType

  /** The common shape of a course and a turf order; a course order has a plan, a turf order a booking. */
  datatype Order = Order(
    id: Json, orderType: OrderType, typeLabel: string, status: string, statusRaw: string,
    createdAt: Json, createdAtLabel: string, amount: int, currency: Json, customerDetails: Json,
    paymentId: Json, payment: Option<Payment>, customer: Customer, partner: PartnerRef,
    plan: Option<PlanRef>, booking: Option<BookingRef>)

  /** The `customer` part both normalisers build from `order.user ?? {}`. */
  function CustomerOf(user: Json): (c: Customer)
    ensures c.name != []
  {
    var name := SafeString(Get(user, "name"));
    Customer(
      Coalesce(Get(user, "id"), Str("")),
      if name == [] then "Unknown customer" else name,
      SafeString(Get(user, "email")),
      SafeString(Get(user, "phone")),
      SafeString(Get(user, "gender")))
  }

  function PartnerOf(partner: Json): PartnerRef
  {
    PartnerRef(Coalesce(Get(partner, "id"), Str("")), Coalesce(Get(partner, "name"), Str("Unassigned partner")))
  }

  /** The price of a course order: `toAmount(plan.fees ?? plan.price ?? 0)`. */
  function PlanAmount(plan: Json): int
  {
    ToAmount(Coalesce(Coalesce(Get(plan, "fees"), Get(plan, "price")), Num(0)))
  }

  /** `fees` wins over `price`; with neither the price is 0. */
  lemma PlanAmountCases(plan: Json)
    ensures Get(plan, "fees").Num? ==> PlanAmount(plan) == Get(plan, "fees").n
    ensures Nullish(Get(plan, "fees")) && Get(plan, "price").Num? ==> PlanAmount(plan) == Get(plan, "price").n
    ensures Nullish(Get(plan, "fees")) && Nullish(Get(plan, "price")) ==> PlanAmount(plan) == 0
  {
  }

  /** What a course order's status must be for `normalizeCourseOrder` not to throw. */
  predicate CourseOrderInput(order: Json)
  {
    StatusIsText(Get(order, "status"))
  }

  /** `normalizeCourseOrder`. */
  function NormalizeCourseOrder(order: Json, fmt: DateLabel): (r: Option<Order>)
    requires CourseOrderInput(order)
    ensures r.Some? <==> Truthy(order) && IsObject(order)
    ensures r.Some? ==> && r.value.orderType == CourseType && r.value.plan.Some? && r.value.booking.None?
                        && r.value.plan.value.fees == r.value.amount
                        && r.value.amount == PlanAmount(Coalesce(Get(order, "plan"), Obj(map[])))
                        && NoUpper(r.value.statusRaw)
  {
    if !Truthy(order) || !IsObject(order) then None
    else
      var plan := Coalesce(Get(order, "plan"), Obj(map[]));
      var batch := Coalesce(Get(plan, "batch"), Obj(map[]));
      var course := Coalesce(Coalesce(Get(batch, "course"), Get(plan, "course")), Obj(map[]));
      var amount := PlanAmount(plan);
      Some(Order(
        Coalesce(Get(order, "id"), Str("")),
        CourseType,
        "Course / Program",
        DeriveCourseStatus(Get(order, "status")),
        Lower(SafeString(Get(order, "status"))),
        Coalesce(Get(order, "created_at"), Null),
        FormatDate(fmt, Get(order, "created_at")),
        amount,
        Coalesce(Get(plan, "currency"), Str("INR")),
        Coalesce(Get(order, "customer_details"), Null),
        Coalesce(Get(order, "payment_id"), Null),
        NormalizePayment(Get(order, "payment"), fmt),
        CustomerOf(Coalesce(Get(order, "user"), Obj(map[]))),
        PartnerOf(Coalesce(Get(order, "partner"), Obj(map[]))),
        Some(PlanRef(
          Coalesce(Get(plan, "id"), Str("")),
          Coalesce(Get(course, "id"), Str("")),
          Coalesce(Get(batch, "id"), Str("")),
          Coalesce(Get(plan, "duration"), Str("")),
          amount,
          Coalesce(Get(batch, "name"), Str("")),
          Coalesce(Coalesce(Get(course, "name"), Get(course, "title")), Str("")),
          Coalesce(Coalesce(Get(course, "sport"), Get(course, "category")), Str("")),
          Coalesce(Coalesce(Get(batch, "schedule"), Get(batch, "timing")), Str("")))),
        None))
  }

  /** `normalizeTurfOrder`: the labels of a turf order follow its `declined` flag. */
  function NormalizeTurfOrder(order: Json, fmtDateTime: DateLabel, fmtDate: DateLabel): (r: Option<Order>)
    ensures r.Some? <==> Truthy(order) && IsObject(order)
    ensures r.Some? ==> && r.value.orderType == TurfType && r.value.plan.None? && r.value.booking.Some?
                        && r.value.currency == Str("INR")
                        && r.value.amount == ToAmount(Get(order, "total_amount"))
                        && (r.value.booking.value.declined <==> Truthy(Get(order, "declined")))
                        && (r.value.status == "Declined" <==> r.value.booking.value.declined)
                        && (r.value.statusRaw == "declined" <==> r.value.booking.value.declined)
                        && r.value.status in {"Declined", "Accepted"}
                        && r.value.statusRaw in {"declined", "accepted"}
  {
    if !Truthy(order) || !IsObject(order) then None
    else
      var court := Coalesce(Get(order, "court"), Obj(map[]));
      var turf := Coalesce(Get(court, "turf"), Obj(map[]));
      var declined := Truthy(Get(order, "declined"));
      Some(Order(
        Coalesce(Get(order, "id"), Str("")),
        TurfType,
        "Turf Booking",
        DeriveTurfStatus(order),
        if declined then "declined" else "accepted",
        Coalesce(Get(order, "created_at"), Null),
        FormatDate(fmtDateTime, Get(order, "created_at")),
        ToAmount(Get(order, "total_amount")),
        Str("INR"),
        Coalesce(Get(order, "customer_details"), Null),
        Coalesce(Get(order, "payment_id"), Null),
        NormalizePayment(Get(order, "payment"), fmtDateTime),
        CustomerOf(Coalesce(Get(order, "user"), Obj(map[]))),
        PartnerOf(Coalesce(Get(order, "partner"), Obj(map[]))),
        None,
        Some(BookingRef(
          SafeString(Get(order, "payment_id")),
          declined,
          SafeString(Get(order, "decline_reason")),
          FormatDate(fmtDate, Get(order, "date")),
          FormatTime(Get(order, "start_time")),
          FormatTime(Get(order, "end_time")),
          Coalesce(Get(court, "id"), Str("")),
          Coalesce(Coalesce(Get(court, "name"), Get(court, "title")), Str("")),
          Coalesce(Get(turf, "id"), Str("")),
          Coalesce(Coalesce(Get(turf, "name"), Get(turf, "title")), Str("")),
          Coalesce(Coalesce(Get(turf, "sport"), Get(turf, "category")), Str(""))))))
  }

  // ------------------------------------------------------------ the combined list

  /** An order as the combined list holds it: the order plus its display fields and detail type. */
  datatype Combined = Combined(order: Order, displayAmount: int, displayCurrency: Json, detailType: OrderType)

  function Tag(order: Order, detailType: OrderType): (c: Combined)
    ensures c.order == order && c.displayAmount == order.amount && c.detailType == detailType
  {
    Combined(order, order.amount, order.currency, detailType)
  }

  function Tagged(orders: seq<Order>, detailType: OrderType): (r: seq<Combined>)
    ensures |r| == |orders|
    ensures forall i :: 0 <= i < |orders| ==> r[i] == Tag(orders[i], detailType)
  {
    seq(|orders|, i requires 0 <= i < |orders| => Tag(orders[i], detailType))
  }

  /** The sort key: the creation time, 0 when there is no creation date. */
  function Timestamp(c: Combined, timeOf: Json -> int): int
  {
    if Truthy(c.order.createdAt) then timeOf(c.order.createdAt) else 0
  }

  predicate NewestFirst(s: seq<Combined>, timeOf: Json -> int)
  {
    forall p, q :: 0 <= p < q < |s| ==> Timestamp(s[p], timeOf) >= Timestamp(s[q], timeOf)
  }

  method Swap(a: array<Combined>, i: int, j: int)
    requires 0 <= i < a.Length && 0 <= j < a.Length
    modifies a
    ensures a[..] == old(a[..])[i := old(a[j])][j := old(a[i])]
    ensures multiset(a[..]) == multiset(old(a[..]))
  {
    a[i], a[j] := a[j], a[i];
  }

  /**
   * Where one pass of an insertion sort leaves `x` when it is inserted into the
   * newest-first `s`: behind every entry at least as new, ahead of every older one.
   */
  function InsertByTime(x: Combined, s: seq<Combined>, timeOf: Json -> int): (r: seq<Combined>)
    ensures |r| == |s| + 1
    ensures multiset(r) == multiset(s) + multiset{x}
    decreases |s|
  {
    if s == [] || Timestamp(s[|s| - 1], timeOf) >= Timestamp(x, timeOf) then s + [x]
    else
      assert s == s[..|s| - 1] + [s[|s| - 1]];
      InsertByTime(x, s[..|s| - 1], timeOf) + [s[|s| - 1]]
  }

  /**
   * The stable sort `combined.sort((a, b) => dateB - dateA)` performs, on values:
   * each entry in turn inserted into the sorted prefix before it.
   */
  function SortByTime(s: seq<Combined>, timeOf: Json -> int): (r: seq<Combined>)
    ensures |r| == |s|
    ensures multiset(r) == multiset(s)
    decreases |s|
  {
    if s == [] then []
    else
      assert s == s[..|s| - 1] + [s[|s| - 1]];
      InsertByTime(s[|s| - 1], SortByTime(s[..|s| - 1], timeOf), timeOf)
  }

  /** The test "has timestamp `t`", for picking out the entries that tie at `t`. */
  function AtTime(timeOf: Json -> int, t: int): Combined -> bool
  {
    c => Timestamp(c, timeOf) == t
  }

  lemma {:induction false} InsertByTimeNewestFirst(x: Combined, s: seq<Combined>, timeOf: Json -> int)
    requires NewestFirst(s, timeOf)
    ensures NewestFirst(InsertByTime(x, s, timeOf), timeOf)
    decreases |s|
  {
    if s == [] || Timestamp(s[|s| - 1], timeOf) >= Timestamp(x, timeOf) {
    } else {
      var front, last := s[..|s| - 1], s[|s| - 1];
      InsertByTimeNewestFirst(x, front, timeOf);
      var ins := InsertByTime(x, front, timeOf);
      forall k | 0 <= k < |ins|
        ensures Timestamp(ins[k], timeOf) >= Timestamp(last, timeOf)
      {
        assert ins[k] in multiset(front) + multiset{x};
        if ins[k] != x {
          assert ins[k] in front;
        }
      }
    }
  }

  /** The sorted list is newest first. */
  lemma {:induction false} SortByTimeNewestFirst(s: seq<Combined>, timeOf: Json -> int)
    ensures NewestFirst(SortByTime(s, timeOf), timeOf)
    decreases |s|
  {
    if s != [] {
      SortByTimeNewestFirst(s[..|s| - 1], timeOf);
      InsertByTimeNewestFirst(s[|s| - 1], SortByTime(s[..|s| - 1], timeOf), timeOf);
    }
  }

  /** Inserting moves `x` only past strictly older entries, so it never passes one it ties with. */
  lemma {:induction false} InsertByTimeStable(x: Combined, s: seq<Combined>, timeOf: Json -> int, t: int)
    ensures Seqs.Keep(InsertByTime(x, s, timeOf), AtTime(timeOf, t))
         == Seqs.Keep(s, AtTime(timeOf, t)) + Seqs.Keep([x], AtTime(timeOf, t))
    decreases |s|
  {
    var tie := AtTime(timeOf, t);
    if s == [] || Timestamp(s[|s| - 1], timeOf) >= Timestamp(x, timeOf) {
      Seqs.KeepAppend(s, [x], tie);
    } else {
      var front, last := s[..|s| - 1], s[|s| - 1];
      assert s == front + [last];
      assert InsertByTime(x, s, timeOf) == InsertByTime(x, front, timeOf) + [last];
      InsertByTimeStable(x, front, timeOf, t);
      Seqs.KeepAppend(InsertByTime(x, front, timeOf), [last], tie);
      Seqs.KeepAppend(front, [last], tie);
      OlderNeverTies(x, last, timeOf, t);
      var kf, kx, kl := Seqs.Keep(front, tie), Seqs.Keep([x], tie), Seqs.Keep([last], tie);
      assert kf + kx + kl == kf + kl + kx;
    }
  }

  /** Of two entries with different timestamps, at most one ties at `t`. */
  lemma OlderNeverTies(x: Combined, y: Combined, timeOf: Json -> int, t: int)
    requires Timestamp(y, timeOf) < Timestamp(x, timeOf)
    ensures Seqs.Keep([x], AtTime(timeOf, t)) == [] || Seqs.Keep([y], AtTime(timeOf, t)) == []
  {
    var tie := AtTime(timeOf, t);
    if tie(x) {
      Seqs.KeepNone([y], tie);
    } else {
      Seqs.KeepNone([x], tie);
    }
  }

  /**
   * The sort is stable: the entries that tie at any timestamp come out in the
   * order they went in.
   */
  lemma {:induction false} SortByTimeStable(s: seq<Combined>, timeOf: Json -> int, t: int)
    ensures Seqs.Keep(SortByTime(s, timeOf), AtTime(timeOf, t)) == Seqs.Keep(s, AtTime(timeOf, t))
    decreases |s|
  {
    if s != [] {
      var front, last := s[..|s| - 1], s[|s| - 1];
      assert s == front + [last];
      SortByTimeStable(front, timeOf, t);
      InsertByTimeStable(last, SortByTime(front, timeOf), timeOf, t);
      Seqs.KeepAppend(front, [last], AtTime(timeOf, t));
    }
  }

  /** The in-place sort by `dateB - dateA`, as an insertion sort. */
  method SortNewestFirst(a: array<Combined>, timeOf: Json -> int)
    modifies a
    ensures a[..] == SortByTime(old(a[..]), timeOf)
    ensures NewestFirst(a[..], timeOf)
    ensures multiset(a[..]) == multiset(old(a[..]))
  {
    if a.Length == 0 {
      return;
    }
    ghost var s := a[..];
    assert s[..1][..0] == [];
    for i := 1 to a.Length
      invariant a[..i] == SortByTime(s[..i], timeOf)
      invariant a[i..] == s[i..]
    {
      ghost var before := a[..];
      SuffixStep(before, s, i);
      SortByTimeSnoc(s, i, timeOf);
      InsertNewest(a, i, timeOf);
    }
    assert a[..] == a[..a.Length];
    assert s == s[..a.Length];
    SortByTimeNewestFirst(s, timeOf);
  }

  /** Sorting one more entry inserts it into the sorted prefix. */
  lemma SortByTimeSnoc(s: seq<Combined>, i: int, timeOf: Json -> int)
    requires 0 <= i < |s|
    ensures SortByTime(s[..i + 1], timeOf) == InsertByTime(s[i], SortByTime(s[..i], timeOf), timeOf)
  {
    assert s[..i + 1][..i] == s[..i];
  }

  lemma SuffixStep(a: seq<Combined>, s: seq<Combined>, i: int)
    requires 0 <= i < |s| == |a| && a[i..] == s[i..]
    ensures a[i] == s[i] && a[i + 1..] == s[i + 1..]
  {
    assert a[i] == a[i..][0];
    assert a[i + 1..] == a[i..][1..];
  }

  /** One pass of the insertion sort: `a[i]` moves down past every strictly older entry. */
  method InsertNewest(a: array<Combined>, i: int, timeOf: Json -> int)
    requires 1 <= i < a.Length
    modifies a
    ensures a[..i + 1] == InsertByTime(old(a[i]), old(a[..i]), timeOf)
    ensures a[i + 1..] == old(a[i + 1..])
  {
    ghost var x, front := a[i], a[..i];
    var j := i;
    while j > 0 && Timestamp(a[j - 1], timeOf) < Timestamp(a[j], timeOf)
      invariant 0 <= j <= i
      invariant Inserting(a[..], x, front, j, i, timeOf)
      invariant a[i + 1..] == old(a[i + 1..])
    {
      ghost var before := a[..];
      Swap(a, j - 1, j);
      InsertingStep(before, a[..], x, front, j, i, timeOf);
      j := j - 1;
    }
    InsertingDone(a[..], x, front, j, i, timeOf);
  }

  /**
   * Mid-pass: `x` sits at `j`, the entries before it are untouched, and inserting
   * `x` there then appending the entries it has passed gives the pass's result.
   */
  ghost predicate Inserting(s: seq<Combined>, x: Combined, front: seq<Combined>, j: int, i: int, timeOf: Json -> int)
    requires 0 <= j <= i < |s|
  {
    && s[j] == x && j <= |front| && s[..j] == front[..j]
    && InsertByTime(x, front, timeOf) == InsertByTime(x, s[..j], timeOf) + s[j + 1..i + 1]
  }

  lemma InsertingStep(before: seq<Combined>, after: seq<Combined>, x: Combined, front: seq<Combined>, j: int, i: int, timeOf: Json -> int)
    requires 0 < j <= i < |before| && Inserting(before, x, front, j, i, timeOf)
    requires Timestamp(before[j - 1], timeOf) < Timestamp(before[j], timeOf)
    requires after == before[j - 1 := before[j]][j := before[j - 1]]
    ensures Inserting(after, x, front, j - 1, i, timeOf)
    ensures after[i + 1..] == before[i + 1..]
  {
    var p, y := before[..j - 1], before[j - 1];
    assert before[..j] == p + [y];
    InsertPastOlder(x, p, y, timeOf);
    assert after[..j - 1] == p;
    assert after[j..i + 1] == [y] + before[j + 1..i + 1];
  }

  /** An entry strictly older than `x` at the end stays behind it. */
  lemma InsertPastOlder(x: Combined, p: seq<Combined>, y: Combined, timeOf: Json -> int)
    requires Timestamp(y, timeOf) < Timestamp(x, timeOf)
    ensures InsertByTime(x, p + [y], timeOf) == InsertByTime(x, p, timeOf) + [y]
  {
    assert (p + [y])[..|p|] == p;
  }

  lemma InsertingDone(s: seq<Combined>, x: Combined, front: seq<Combined>, j: int, i: int, timeOf: Json -> int)
    requires 0 <= j <= i < |s| && Inserting(s, x, front, j, i, timeOf)
    requires j == 0 || Timestamp(s[j - 1], timeOf) >= Timestamp(s[j], timeOf)
    ensures s[..i + 1] == InsertByTime(x, front, timeOf)
  {
    assert s[..i + 1] == s[..j] + [s[j]] + s[j + 1..i + 1];
  }

  /**
   * `buildCombinedOrders`: the course orders then the turf orders, tagged, sorted
   * newest first by the stable sort.
   */
  method BuildCombinedOrders(courseOrders: seq<Order>, turfOrders: seq<Order>, timeOf: Json -> int)
    returns (combined: seq<Combined>)
    ensures combined == SortByTime(Tagged(courseOrders, CourseType) + Tagged(turfOrders, TurfType), timeOf)
    ensures multiset(combined) == multiset(Tagged(courseOrders, CourseType) + Tagged(turfOrders, TurfType))
    ensures NewestFirst(combined, timeOf)
  {
    var pushed: seq<Combined> := [];
    for i := 0 to |courseOrders|
      invariant pushed == Tagged(courseOrders[..i], CourseType)
    {
      pushed := pushed + [Tag(courseOrders[i], CourseType)];
    }
    assert courseOrders[..|courseOrders|] == courseOrders;
    for i := 0 to |turfOrders|
      invariant pushed == Tagged(courseOrders, CourseType) + Tagged(turfOrders[..i], TurfType)
    {
      pushed := pushed + [Tag(turfOrders[i], TurfType)];
    }
    assert turfOrders[..|turfOrders|] == turfOrders;
    var a := new Combined[|pushed|](i requires 0 <= i < |pushed| => pushed[i]);
    assert a[..] == pushed;
    SortNewestFirst(a, timeOf);
    combined := a[..];
  }

  /**
   * Among orders created at the same time, the combined list keeps the course
   * orders ahead of the turf orders, each group in its fetched order.
   */
  lemma CombinedTiesCourseFirst(courseOrders: seq<Order>, turfOrders: seq<Order>, timeOf: Json -> int, t: int)
    ensures var tie := AtTime(timeOf, t);
      Seqs.Keep(SortByTime(Tagged(courseOrders, CourseType) + Tagged(turfOrders, TurfType), timeOf), tie)
      == Seqs.Keep(Tagged(courseOrders, CourseType), tie) + Seqs.Keep(Tagged(turfOrders, TurfType), tie)
  {
    var course, turf := Tagged(courseOrders, CourseType), Tagged(turfOrders, TurfType);
    SortByTimeStable(course + turf, timeOf, t);
    Seqs.KeepAppend(course, turf, AtTime(timeOf, t));
  }

  // ------------------------------------------------------------ totals

  datatype Totals = Totals(count: nat, amount: int)

  function AmountSum(orders: seq<Order>): int
    decreases |orders|
  {
    if orders == [] then 0 else AmountSum(orders[..|orders| - 1]) + orders[|orders| - 1].amount
  }

  /** `computeTotals`: how many orders, and the sum of their amounts. */
  function ComputeTotals(orders: seq<Order>): (t: Totals)
    ensures t.count == |orders| && t.amount == AmountSum(orders)
  {
    Totals(|orders|, AmountSum(orders))
  }

  function CombinedAmountSum(cs: seq<Combined>): int
    decreases |cs|
  {
    if cs == [] then 0 else CombinedAmountSum(cs[..|cs| - 1]) + cs[|cs| - 1].order.amount
  }

  /** `computeTotals` over the combined list. */
  function CombinedTotals(cs: seq<Combined>): (t: Totals)
    ensures t.count == |cs| && t.amount == CombinedAmountSum(cs)
  {
    Totals(|cs|, CombinedAmountSum(cs))
  }

  lemma {:induction false} CombinedAmountAppend(a: seq<Combined>, b: seq<Combined>)
    ensures CombinedAmountSum(a + b) == CombinedAmountSum(a) + CombinedAmountSum(b)
    decreases |b|
  {
    if b == [] {
      assert a + b == a;
    } else {
      CombinedAmountAppend(a, b[..|b| - 1]);
      assert (a + b)[..|a + b| - 1] == a + b[..|b| - 1];
    }
  }

  lemma {:induction false} TaggedAmount(orders: seq<Order>, detailType: OrderType)
    ensures CombinedAmountSum(Tagged(orders, detailType)) == AmountSum(orders)
    decreases |orders|
  {
    if orders != [] {
      TaggedAmount(orders[..|orders| - 1], detailType);
      assert Tagged(orders, detailType)[..|orders| - 1] == Tagged(orders[..|orders| - 1], detailType);
    }
  }

  /** Taking one entry out of the combined list takes its amount out of the sum. */
  lemma RemoveAt(b: seq<Combined>, j: nat)
    requires j < |b|
    ensures multiset(b[..j] + b[j + 1..]) == multiset(b) - multiset{b[j]}
    ensures CombinedAmountSum(b) == CombinedAmountSum(b[..j] + b[j + 1..]) + b[j].order.amount
  {
    Seqs.SplitAround(b, j);
    RemoveAtSum(b[..j], b[j], b[j + 1..]);
  }

  lemma RemoveAtSum(left: seq<Combined>, x: Combined, right: seq<Combined>)
    ensures CombinedAmountSum((left + [x]) + right) == CombinedAmountSum(left + right) + x.order.amount
  {
    AmountOfSingle(x);
    CombinedAmountAppend(left + [x], right);
    CombinedAmountAppend(left, [x]);
    CombinedAmountAppend(left, right);
  }

  lemma AmountOfSingle(x: Combined)
    ensures CombinedAmountSum([x]) == x.order.amount
  {
    assert [x][..0] == [];
  }

  /** Reordering the combined list does not change its totals. */
  lemma {:induction false} TotalsOfPermutation(a: seq<Combined>, b: seq<Combined>)
    requires multiset(a) == multiset(b)
    ensures CombinedTotals(a) == CombinedTotals(b)
    decreases |a|
  {
    assert |a| == |multiset(a)| == |b|;
    if a != [] {
      var x := a[|a| - 1];
      var front := a[..|a| - 1];
      assert a == front + [x];
      assert multiset(front) == multiset(a) - multiset{x};
      assert x in multiset(b);
      var j :| 0 <= j < |b| && b[j] == x;
      RemoveAt(b, j);
      TotalsOfPermutation(front, b[..j] + b[j + 1..]);
    }
  }

  /** The combined totals are the course totals plus the turf totals. */
  lemma CombinedTotalsSplit(combined: seq<Combined>, courseOrders: seq<Order>, turfOrders: seq<Order>)
    requires multiset(combined) == multiset(Tagged(courseOrders, CourseType) + Tagged(turfOrders, TurfType))
    ensures CombinedTotals(combined).count == ComputeTotals(courseOrders).count + ComputeTotals(turfOrders).count
    ensures CombinedTotals(combined).amount == ComputeTotals(courseOrders).amount + ComputeTotals(turfOrders).amount
  {
    TotalsOfPermutation(combined, Tagged(courseOrders, CourseType) + Tagged(turfOrders, TurfType));
    CombinedAmountAppend(Tagged(courseOrders, CourseType), Tagged(turfOrders, TurfType));
    TaggedAmount(courseOrders, CourseType);
    TaggedAmount(turfOrders, TurfType);
  }

  // ------------------------------------------------------------ the payment join

  /** The payment ids in first-seen order, without repeats: the `Set` that `fetchOrders` fills. */
  function PaymentIds(orders: seq<Json>): seq<Json>
    decreases |orders|
  {
    if orders == [] then []
    else
      var ids := PaymentIds(orders[..|orders| - 1]);
      var id := Get(orders[|orders| - 1], "payment_id");
      if Truthy(id) && id !in ids then ids + [id] else ids
  }

  predicate HasPaymentId(order: Json, id: Json)
  {
    Truthy(Get(order, "payment_id")) && Get(order, "payment_id") == id
  }

  /** Every id appears once, and an id appears iff some order carries it. */
  lemma {:induction false} PaymentIdsSpec(orders: seq<Json>, id: Json)
    ensures forall p, q :: 0 <= p < q < |PaymentIds(orders)| ==> PaymentIds(orders)[p] != PaymentIds(orders)[q]
    ensures id in PaymentIds(orders) <==> exists i :: 0 <= i < |orders| && HasPaymentId(orders[i], id)
    decreases |orders|
  {
    if orders != [] {
      var front := orders[..|orders| - 1];
      PaymentIdsSpec(front, id);
      if id in PaymentIds(orders) && id !in PaymentIds(front) {
        assert HasPaymentId(orders[|orders| - 1], id);
      }
      if exists i :: 0 <= i < |orders| && HasPaymentId(orders[i], id) {
        var i :| 0 <= i < |orders| && HasPaymentId(orders[i], id);
        if i < |orders| - 1 {
          assert HasPaymentId(front[i], id);
        }
      }
    }
  }

  /** The two loops over the course and turf orders that fill the id set. */
  method CollectPaymentIds(courseRaw: seq<Json>, turfRaw: seq<Json>) returns (ids: seq<Json>)
    ensures ids == PaymentIds(courseRaw + turfRaw)
  {
    ids := [];
    for i := 0 to |courseRaw|
      invariant ids == PaymentIds(courseRaw[..i])
    {
      assert courseRaw[..i + 1] == courseRaw[..i] + [courseRaw[i]];
      ids := AddPaymentId(courseRaw[..i], courseRaw[i], ids);
    }
    assert courseRaw[..|courseRaw|] == courseRaw + turfRaw[..0];
    for i := 0 to |turfRaw|
      invariant ids == PaymentIds(courseRaw + turfRaw[..i])
    {
      assert courseRaw + turfRaw[..i + 1] == (courseRaw + turfRaw[..i]) + [turfRaw[i]];
      ids := AddPaymentId(courseRaw + turfRaw[..i], turfRaw[i], ids);
    }
    assert turfRaw[..|turfRaw|] == turfRaw;
  }

  /** One order of the `forEach`: its truthy payment id is added unless already there. */
  method AddPaymentId(ghost before: seq<Json>, order: Json, ids0: seq<Json>) returns (ids: seq<Json>)
    requires ids0 == PaymentIds(before)
    ensures ids == PaymentIds(before + [order])
  {
    assert (before + [order])[..|before|] == before;
    ids := ids0;
    var id := Get(order, "payment_id");
    if Truthy(id) && id !in ids {
      ids := ids + [id];
    }
  }

  /** `new Map(payments.map(p => [p.id, p]))`: a later payment with the same id wins. */
  function PaymentsById(payments: seq<Json>): map<Json, Json>
    decreases |payments|
  {
    if payments == [] then map[]
    else
      var last := payments[|payments| - 1];
      PaymentsById(payments[..|payments| - 1])[Get(last, "id") := last]
  }

  /**
   * The payment map `fetchOrders` ends up with: empty when there are no ids (no
   * query is made), when the query throws (`None`), or when reading `payment.id`
   * of a null entry throws inside the same `try`.
   */
  function PaymentMap(ids: seq<Json>, fetched: Option<seq<Json>>): (m: map<Json, Json>)
    ensures ids == [] || fetched.None? ==> m == map[]
  {
    if ids == [] || fetched.None? then map[]
    else if exists i :: 0 <= i < |fetched.value| && Nullish(fetched.value[i]) then map[]
    else PaymentsById(fetched.value)
  }

  /** `payment ? { ...order, payment } : order`, the payment looked up by the order's `payment_id`. */
  function WithPayment(order: Json, payments: map<Json, Json>): (r: Json)
    ensures forall k :: k != "payment" ==> Get(r, k) == Get(order, k)
    ensures var id := Get(order, "payment_id");
      Truthy(id) && id in payments && Truthy(payments[id]) ==> Get(r, "payment") == payments[id]
    ensures var id := Get(order, "payment_id");
      !(Truthy(id) && id in payments && Truthy(payments[id])) ==> r == order
  {
    var id := Get(order, "payment_id");
    if Truthy(id) && id in payments && Truthy(payments[id]) then Obj(order.fields["payment" := payments[id]])
    else order
  }

  /** A course order's payment after the join: the looked-up payment when its id is found, its own otherwise. */
  lemma PaymentJoin(order: Json, payments: map<Json, Json>, fmt: DateLabel)
    requires Truthy(order) && IsObject(order) && CourseOrderInput(order)
    ensures CourseOrderInput(WithPayment(order, payments))
    ensures var id := Get(order, "payment_id");
      var joined := NormalizeCourseOrder(WithPayment(order, payments), fmt);
      joined.Some? && joined.value.payment ==
        if Truthy(id) && id in payments && Truthy(payments[id]) then NormalizePayment(payments[id], fmt)
        else NormalizePayment(Get(order, "payment"), fmt)
  {
    var id := Get(order, "payment_id");
    var joined := WithPayment(order, payments);
    assert Get(joined, "status") == Get(order, "status");
    if Truthy(id) && id in payments && Truthy(payments[id]) {
      assert joined.Obj?;
    } else {
      assert joined == order;
    }
  }

  function Hydrated(orders: seq<Json>, payments: map<Json, Json>): (r: seq<Json>)
    ensures |r| == |orders|
    ensures forall i :: 0 <= i < |orders| ==> r[i] == WithPayment(orders[i], payments)
  {
    seq(|orders|, i requires 0 <= i < |orders| => WithPayment(orders[i], payments))
  }

  function CourseOrdersOf(orders: seq<Json>, fmt: DateLabel): seq<Order>
    requires forall i :: 0 <= i < |orders| ==> CourseOrderInput(orders[i])
  {
    Somes(seq(|orders|, i requires 0 <= i < |orders| => NormalizeCourseOrder(orders[i], fmt)))
  }

  function TurfOrdersOf(orders: seq<Json>, fmtDateTime: DateLabel, fmtDate: DateLabel): seq<Order>
  {
    Somes(seq(|orders|, i requires 0 <= i < |orders| => NormalizeTurfOrder(orders[i], fmtDateTime, fmtDate)))
  }

  /** The payment join keeps every course order's status, so normalising the joined orders cannot throw. */
  lemma HydratedInputs(orders: seq<Json>, payments: map<Json, Json>)
    requires forall i :: 0 <= i < |orders| ==> CourseOrderInput(orders[i])
    ensures forall i :: 0 <= i < |orders| ==> CourseOrderInput(Hydrated(orders, payments)[i])
  {
    forall i | 0 <= i < |orders| ensures CourseOrderInput(Hydrated(orders, payments)[i]) {
      assert Get(Hydrated(orders, payments)[i], "status") == Get(orders[i], "status");
    }
  }

  /** The course orders after the payment join, normalised. */
  function JoinedCourseOrders(courseRaw: seq<Json>, payments: map<Json, Json>, fmt: DateLabel): seq<Order>
    requires forall i :: 0 <= i < |courseRaw| ==> CourseOrderInput(courseRaw[i])
  {
    HydratedInputs(courseRaw, payments);
    CourseOrdersOf(Hydrated(courseRaw, payments), fmt)
  }

  datatype OrdersResult = OrdersResult(
    courseOrders: seq<Order>, turfOrders: seq<Order>, combinedOrders: seq<Combined>,
    courseTotals: Totals, turfTotals: Totals, combinedTotals: Totals)

  /**
   * `fetchOrders` after its two queries: collect the payment ids, fetch the
   * payments once (`None` when that throws), join them into the orders, normalise,
   * combine and total.
   */
  method FetchOrders(
    courseRaw: seq<Json>, turfRaw: seq<Json>, fetchPayments: seq<Json> -> Option<seq<Json>>,
    fmtDateTime: DateLabel, fmtDate: DateLabel, timeOf: Json -> int)
    returns (r: OrdersResult)
    requires forall i :: 0 <= i < |courseRaw| ==> CourseOrderInput(courseRaw[i])
    ensures var ids := PaymentIds(courseRaw + turfRaw);
      var payments := PaymentMap(ids, if ids == [] then None else fetchPayments(ids));
      && r.courseOrders == JoinedCourseOrders(courseRaw, payments, fmtDateTime)
      && r.turfOrders == TurfOrdersOf(Hydrated(turfRaw, payments), fmtDateTime, fmtDate)
    ensures r.combinedOrders == SortByTime(Tagged(r.courseOrders, CourseType) + Tagged(r.turfOrders, TurfType), timeOf)
    ensures multiset(r.combinedOrders) == multiset(Tagged(r.courseOrders, CourseType) + Tagged(r.turfOrders, TurfType))
    ensures NewestFirst(r.combinedOrders, timeOf)
    ensures r.courseTotals == ComputeTotals(r.courseOrders) && r.turfTotals == ComputeTotals(r.turfOrders)
    ensures r.combinedTotals.count == r.courseTotals.count + r.turfTotals.count
    ensures r.combinedTotals.amount == r.courseTotals.amount + r.turfTotals.amount
  {
    var ids := CollectPaymentIds(courseRaw, turfRaw);
    var fetched := if ids == [] then None else fetchPayments(ids);
    var payments := PaymentMap(ids, fetched);
    var courseOrders := JoinedCourseOrders(courseRaw, payments, fmtDateTime);
    var turfOrders := TurfOrdersOf(Hydrated(turfRaw, payments), fmtDateTime, fmtDate);
    var combined := BuildCombinedOrders(courseOrders, turfOrders, timeOf);
    CombinedTotalsSplit(combined, courseOrders, turfOrders);
    r := OrdersResult(courseOrders, turfOrders, combined,
      ComputeTotals(courseOrders), ComputeTotals(turfOrders), CombinedTotals(combined));
  }
}
