/**
 * `POST /api/enrollments/manual` (app/api/enrollments/manual/route.js): the request
 * check and the enrollment record handed to the insert. The clock reading for
 * `enrolled_at` is a parameter; the insert itself is not part of this model.
 */
module EnrollmentRoute {
  import opened Json

  /** What the route does with a request body. */
  datatype EnrollOutcome =
    | ServerError          // destructuring a null body throws: status 500
    | MissingIds           // status 400, nothing inserted
    | Insert(record: Json) // the row handed to `insert`

  /** The `enrollmentData` literal built from the body fields. */
  function EnrollmentData(body: Json, now: string): (r: Json)
    ensures r.Obj?
    ensures r.fields.Keys == {"user_id", "partner_id", "payment_status", "payment_method", "amount_paid",
                              "admin_notes", "enrolled_by", "enrolled_at", "status"}
  {
    Obj(map[
      "user_id" := Get(body, "userId"),
      "partner_id" := Get(body, "partnerId"),
      "payment_status" := Or(Get(body, "paymentStatus"), Str("unpaid")),
      "payment_method" := Get(body, "paymentMethod"),
      "amount_paid" := Get(body, "amountPaid"),
      "admin_notes" := Get(body, "notes"),
      "enrolled_by" := Or(Get(body, "enrolledBy"), Str("admin")),
      "enrolled_at" := Str(now),
      "status" := Str("active")])
  }

  function ManualEnroll(body: Json, now: string): (r: EnrollOutcome)
    ensures r == ServerError <==> Nullish(body)
    ensures r == MissingIds <==> !Nullish(body) && (!Truthy(Get(body, "userId")) || !Truthy(Get(body, "partnerId")))
    ensures r.Insert? ==> r.record == EnrollmentData(body, now)
  {
    if Nullish(body) then ServerError
    else if !Truthy(Get(body, "userId")) || !Truthy(Get(body, "partnerId")) then MissingIds
    else Insert(EnrollmentData(body, now))
  }

  /**
   * The record copies the ids, the payment method, the amount and the notes from the
   * body as they are; the payment status defaults to "unpaid", the enrolling party to
   * "admin"; the status is always "active" and the time is the clock's.
   */
  lemma RecordFields(body: Json, now: string)
    ensures var d := EnrollmentData(body, now);
      && Get(d, "user_id") == Get(body, "userId")
      && Get(d, "partner_id") == Get(body, "partnerId")
      && Get(d, "payment_method") == Get(body, "paymentMethod")
      && Get(d, "amount_paid") == Get(body, "amountPaid")
      && Get(d, "admin_notes") == Get(body, "notes")
      && Get(d, "status") == Str("active")
      && Get(d, "enrolled_at") == Str(now)
      && (Truthy(Get(body, "paymentStatus")) ==> Get(d, "payment_status") == Get(body, "paymentStatus"))
      && (!Truthy(Get(body, "paymentStatus")) ==> Get(d, "payment_status") == Str("unpaid"))
      && (Truthy(Get(body, "enrolledBy")) ==> Get(d, "enrolled_by") == Get(body, "enrolledBy"))
      && (!Truthy(Get(body, "enrolledBy")) ==> Get(d, "enrolled_by") == Str("admin"))
  {
  }

  /** A body with both ids is always inserted, and its record is always active. */
  lemma IdsSuffice(body: Json, now: string)
    requires Truthy(Get(body, "userId")) && Truthy(Get(body, "partnerId"))
    ensures ManualEnroll(body, now).Insert?
    ensures Get(ManualEnroll(body, now).record, "status") == Str("active")
  {
    assert !Nullish(body);
    RecordFields(body, now);
  }
}
