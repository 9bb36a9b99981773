/**
 * The manual enrollment dialog (components/enrollment/manual-enrollment-dialog.jsx):
 * its open flag, loading flag, partner list and form, changed by the dialog's handlers.
 * The two network calls are split at the point where they wait: a handler returns
 * what it would send, and a second method applies the answer.
 */
module ManualEnrollment {
  import opened Wrappers
  import opened Json
  import EnrollmentRoute

  /** `formData`. */
  datatype EnrollmentForm = EnrollmentForm(
    partnerId: string,
    paymentStatus: string,
    paymentMethod: string,
    amountPaid: string,
    notes: string)

  /** The form as the dialog starts and as `resetForm` leaves it. */
  const BlankForm := EnrollmentForm("", "unpaid", "", "", "")

  /** The payment method select is shown for a paid or complimentary enrollment. */
  predicate ShowsPaymentMethod(form: EnrollmentForm)
  {
    form.paymentStatus == "paid" || form.paymentStatus == "complimentary"
  }

  /** The amount field is shown for a paid enrollment only. */
  predicate ShowsAmount(form: EnrollmentForm)
  {
    form.paymentStatus == "paid"
  }

  /** Whenever the amount can be entered, so can the payment method; a blank form shows neither. */
  lemma AmountNeedsMethod(form: EnrollmentForm)
    ensures ShowsAmount(form) ==> ShowsPaymentMethod(form)
    ensures ShowsPaymentMethod(form) && !ShowsAmount(form) <==> form.paymentStatus == "complimentary"
    ensures !ShowsPaymentMethod(BlankForm) && !ShowsAmount(BlankForm)
  {
  }

  /** `value || null` for a text field. */
  function TextOrNull(s: string): (r: Json)
    ensures s == [] ==> r == Null
    ensures s != [] ==> r == Str(s)
  {
    if s == [] then Null else Str(s)
  }

  /**
   * The request body: empty method and notes become null, an empty amount becomes null
   * and any other is `parseFloat` of it (`parseAmount`), and the enrolling party is "admin".
   */
  function Payload(userId: Json, form: EnrollmentForm, parseAmount: string -> Json): (r: Json)
    ensures Get(r, "userId") == userId
    ensures Get(r, "partnerId") == Str(form.partnerId)
    ensures Get(r, "paymentStatus") == Str(form.paymentStatus)
    ensures Get(r, "paymentMethod") == TextOrNull(form.paymentMethod)
    ensures Get(r, "amountPaid") == if form.amountPaid == [] then Null else parseAmount(form.amountPaid)
    ensures Get(r, "notes") == TextOrNull(form.notes)
    ensures Get(r, "enrolledBy") == Str("admin")
  {
    Obj(map[
      "userId" := userId,
      "partnerId" := Str(form.partnerId),
      "paymentStatus" := Str(form.paymentStatus),
      "paymentMethod" := TextOrNull(form.paymentMethod),
      "amountPaid" := if form.amountPaid == [] then Null else parseAmount(form.amountPaid),
      "notes" := TextOrNull(form.notes),
      "enrolledBy" := Str("admin")])
  }

  /** `JSON.stringify` then `JSON.parse` of a flat value: NaN is written as null. */
  function WireValue(v: Json): (r: Json)
    ensures v.NaN? ==> r == Null
    ensures !v.NaN? ==> r == v
  {
    if v.NaN? then Null else v
  }

  /** The body as the route reads it back: keys holding undefined are dropped, NaN becomes null. */
  function OverWire(v: Json): (r: Json)
    ensures forall k :: Get(r, k) == WireValue(Get(v, k))
  {
    if v.Obj? then Obj(map k | k in v.fields && !v.fields[k].Undefined? :: WireValue(v.fields[k])) else v
  }

  /**
   * A request the dialog sends for a user with an id is inserted: for the chosen
   * partner, with the chosen payment status, as enrolled by "admin", active, and with
   * null for an empty payment method or notes.
   */
  lemma DialogRequestInserted(userId: Json, form: EnrollmentForm, parseAmount: string -> Json, now: string)
    requires Truthy(userId) && form.partnerId != []
    ensures var out := EnrollmentRoute.ManualEnroll(OverWire(Payload(userId, form, parseAmount)), now);
      && out.Insert?
      && Get(out.record, "user_id") == userId
      && Get(out.record, "partner_id") == Str(form.partnerId)
      && Get(out.record, "payment_status") == (if form.paymentStatus == [] then Str("unpaid") else Str(form.paymentStatus))
      && Get(out.record, "payment_method") == TextOrNull(form.paymentMethod)
      && Get(out.record, "admin_notes") == TextOrNull(form.notes)
      && Get(out.record, "enrolled_by") == Str("admin")
      && Get(out.record, "status") == Str("active")
  {
    var body := OverWire(Payload(userId, form, parseAmount));
    assert Get(body, "userId") == userId;
    assert Get(body, "partnerId") == Str(form.partnerId);
    EnrollmentRoute.IdsSuffice(body, now);
    EnrollmentRoute.RecordFields(body, now);
  }

  class ManualEnrollmentDialog {
    var open: bool
    var isLoading: bool
    /** `partners`: whatever `data.partners || []` held. */
    var partners: Json
    var form: EnrollmentForm

    constructor()
      ensures !open && !isLoading && partners == Arr([]) && form == BlankForm
    {
      open := false;
      isLoading := false;
      partners := Arr([]);
      form := BlankForm;
    }

    /** `partners.length === 0`. */
    predicate NoPartners()
      reads this
    {
      (partners.Arr? && partners.items == []) || (partners.Str? && partners.s == [])
    }

    /**
     * `setOpen(value)`, and the effect that runs when `open` changes: the partner list
     * is fetched (`fetchPartners` is true) exactly when the dialog opens with none.
     */
    method SetOpen(value: bool) returns (fetchPartners: bool)
      modifies this
      ensures open == value
      ensures isLoading == old(isLoading) && partners == old(partners) && form == old(form)
      ensures fetchPartners <==> value && !old(open) && NoPartners()
    {
      fetchPartners := value && !open && NoPartners();
      open := value;
    }

    /** The partner list arrived: `setPartners(data.partners || [])`. */
    method PartnersLoaded(data: Json)
      modifies this
      ensures partners == Or(Get(data, "partners"), Arr([]))
      ensures open == old(open) && isLoading == old(isLoading) && form == old(form)
    {
      partners := Or(Get(data, "partners"), Arr([]));
    }

    method SelectPartner(value: string)
      modifies this
      ensures form == old(form).(partnerId := value)
      ensures open == old(open) && isLoading == old(isLoading) && partners == old(partners)
    {
      form := form.(partnerId := value);
    }

    method SelectPaymentStatus(value: string)
      modifies this
      ensures form == old(form).(paymentStatus := value)
      ensures open == old(open) && isLoading == old(isLoading) && partners == old(partners)
    {
      form := form.(paymentStatus := value);
    }

    method SelectPaymentMethod(value: string)
      modifies this
      ensures form == old(form).(paymentMethod := value)
      ensures open == old(open) && isLoading == old(isLoading) && partners == old(partners)
    {
      form := form.(paymentMethod := value);
    }

    method EnterAmount(value: string)
      modifies this
      ensures form == old(form).(amountPaid := value)
      ensures open == old(open) && isLoading == old(isLoading) && partners == old(partners)
    {
      form := form.(amountPaid := value);
    }

    method EnterNotes(value: string)
      modifies this
      ensures form == old(form).(notes := value)
      ensures open == old(open) && isLoading == old(isLoading) && partners == old(partners)
    {
      form := form.(notes := value);
    }

    /**
     * `handleSubmit` up to the request: without a partner nothing is sent and nothing
     * changes; otherwise the dialog is loading and `request` is the body it posts.
     */
    method Submit(userId: Json, parseAmount: string -> Json) returns (request: Option<Json>)
      modifies this
      ensures form.partnerId == [] ==> request.None? && isLoading == old(isLoading)
      ensures form.partnerId != [] ==> request == Some(Payload(userId, form, parseAmount)) && isLoading
      ensures open == old(open) && partners == old(partners) && form == old(form)
    {
      if form.partnerId == [] {
        request := None;
        return;
      }
      isLoading := true;
      request := Some(Payload(userId, form, parseAmount));
    }

    /**
     * The answer to the request: on success the dialog closes and the form is reset;
     * on failure both stay. Either way the dialog stops loading.
     */
    method SubmitFinished(succeeded: bool)
      modifies this
      ensures !isLoading
      ensures succeeded ==> !open && form == BlankForm
      ensures !succeeded ==> open == old(open) && form == old(form)
      ensures partners == old(partners)
    {
      if succeeded {
        open := false;
        form := BlankForm;
      }
      isLoading := false;
    }
  }
}
