/**
 * The courses section of a partner's page
 * (components/partners/partner-courses-section.jsx): the per-course and
 * per-batch counts joined from the flat batch, plan and enrollment lists, the
 * totals, the sport drop-down, the status and sport filters, and the links to
 * the orders page. Rows are raw backend records; ids are compared with `===`.
 */
module PartnerCourses {
  import opened Wrappers
  import opened Strings
  import opened Json
  import opened Seqs
  import opened FilterOptions
  import opened PartnerSection
  import Orders
  import OrdersTabs

  // ------------------------------------------------------------ flat join

  /** `plan.batch_id === batch.id`. */
  predicate PlanOfBatch(plan: Json, batch: Json)
  {
    SameId(Get(plan, "batch_id"), Get(batch, "id"))
  }

  /** `plans.some(plan => plan.id === enrollment.plan_id)`. */
  predicate EnrolledIn(enrollment: Json, plans: seq<Json>)
  {
    exists k :: 0 <= k < |plans| && SameId(Get(plans[k], "id"), Get(enrollment, "plan_id"))
  }

  function BatchPlans(batch: Json, plans: seq<Json>): seq<Json>
  {
    Keep(plans, p => PlanOfBatch(p, batch))
  }

  predicate EnrolledInBatch(enrollment: Json, batch: Json, plans: seq<Json>)
  {
    EnrolledIn(enrollment, BatchPlans(batch, plans))
  }

  function BatchEnrollments(batch: Json, plans: seq<Json>, enrollments: seq<Json>): seq<Json>
  {
    Keep(enrollments, e => EnrolledInBatch(e, batch, plans))
  }

  /** A batch with its plans and enrollments attached and counted. */
  datatype BatchCounts = BatchCounts(batch: Json, plans: seq<Json>, enrollments: seq<Json>, planCount: nat, bookingCount: nat)

  /**
   * A batch's `planCount` counts the plans with its `batch_id`, and its
   * `bookingCount` the enrollments on one of those plans.
   */
  function BatchWithCounts(batch: Json, plans: seq<Json>, enrollments: seq<Json>): (b: BatchCounts)
    ensures b.batch == batch
    ensures b.planCount == |b.plans| && b.bookingCount == |b.enrollments|
    ensures forall i :: 0 <= i < |b.plans| ==> b.plans[i] in plans && PlanOfBatch(b.plans[i], batch)
    ensures forall i :: 0 <= i < |plans| && PlanOfBatch(plans[i], batch) ==> plans[i] in b.plans
    ensures forall i :: 0 <= i < |b.enrollments| ==> b.enrollments[i] in enrollments && EnrolledIn(b.enrollments[i], b.plans)
    ensures forall i :: 0 <= i < |enrollments| && EnrolledIn(enrollments[i], b.plans) ==> enrollments[i] in b.enrollments
  {
    var ps := BatchPlans(batch, plans);
    var es := BatchEnrollments(batch, plans, enrollments);
    BatchCounts(batch, ps, es, |ps|, |es|)
  }

  /** `batch.course_id === course.id`. */
  predicate BatchOfCourse(batch: Json, course: Json)
  {
    SameId(Get(batch, "course_id"), Get(course, "id"))
  }

  function CourseBatches(course: Json, batches: seq<Json>): seq<Json>
  {
    Keep(batches, b => BatchOfCourse(b, course))
  }

  /** `courseBatches.some(batch => batch.id === plan.batch_id)`. */
  predicate InBatches(plan: Json, courseBatches: seq<Json>)
  {
    exists k :: 0 <= k < |courseBatches| && PlanOfBatch(plan, courseBatches[k])
  }

  function CoursePlans(courseBatches: seq<Json>, plans: seq<Json>): seq<Json>
  {
    Keep(plans, p => InBatches(p, courseBatches))
  }

  function CourseEnrollments(courseBatches: seq<Json>, plans: seq<Json>, enrollments: seq<Json>): seq<Json>
  {
    Keep(enrollments, e => EnrolledIn(e, CoursePlans(courseBatches, plans)))
  }

  datatype CourseCounts = CourseCounts(
    course: Json, batches: seq<BatchCounts>, coursePlans: seq<Json>, enrollments: seq<Json>,
    batchCount: nat, planCount: nat, bookingCount: nat)

  function BatchesWithCounts(courseBatches: seq<Json>, plans: seq<Json>, enrollments: seq<Json>): (r: seq<BatchCounts>)
    ensures |r| == |courseBatches|
    ensures forall i :: 0 <= i < |r| ==> r[i] == BatchWithCounts(courseBatches[i], plans, enrollments)
  {
    seq(|courseBatches|, i requires 0 <= i < |courseBatches| => BatchWithCounts(courseBatches[i], plans, enrollments))
  }

  /**
   * One entry of `coursesWithCounts`: the course's batches, the plans of those
   * batches and the enrollments on those plans, with their counts.
   */
  function CourseWithCounts(course: Json, batches: seq<Json>, plans: seq<Json>, enrollments: seq<Json>): (c: CourseCounts)
    ensures c.batchCount == |c.batches| && c.planCount == |c.coursePlans| && c.bookingCount == |c.enrollments|
    ensures forall i :: 0 <= i < |c.batches| ==> c.batches[i].batch in batches && BatchOfCourse(c.batches[i].batch, course)
    ensures forall i :: 0 <= i < |batches| && BatchOfCourse(batches[i], course) ==>
              exists k :: 0 <= k < |c.batches| && c.batches[k].batch == batches[i]
    ensures forall i :: 0 <= i < |c.coursePlans| ==>
              c.coursePlans[i] in plans && exists k :: 0 <= k < |c.batches| && PlanOfBatch(c.coursePlans[i], c.batches[k].batch)
    ensures forall i :: 0 <= i < |plans| && (exists k :: 0 <= k < |c.batches| && PlanOfBatch(plans[i], c.batches[k].batch)) ==>
              plans[i] in c.coursePlans
    ensures forall i :: 0 <= i < |c.enrollments| ==> c.enrollments[i] in enrollments && EnrolledIn(c.enrollments[i], c.coursePlans)
    ensures forall i :: 0 <= i < |enrollments| && EnrolledIn(enrollments[i], c.coursePlans) ==> enrollments[i] in c.enrollments
  {
    var cbs := CourseBatches(course, batches);
    var withCounts := BatchesWithCounts(cbs, plans, enrollments);
    var cps := CoursePlans(cbs, plans);
    var ces := CourseEnrollments(cbs, plans, enrollments);
    CourseBatchesListed(course, batches, cbs, withCounts, plans, enrollments);
    CoursePlansListed(cbs, withCounts, plans, enrollments);
    CourseEntry(course, withCounts, cps, ces, |cbs|)
  }

  /** The entry itself, once its parts are known. */
  function CourseEntry(course: Json, withCounts: seq<BatchCounts>, cps: seq<Json>, ces: seq<Json>, batchCount: nat): (c: CourseCounts)
    ensures c.course == course && c.batches == withCounts && c.coursePlans == cps && c.enrollments == ces
    ensures c.batchCount == batchCount && c.planCount == |cps| && c.bookingCount == |ces|
  {
    CourseCounts(course, withCounts, cps, ces, batchCount, |cps|, |ces|)
  }

  /** The batches listed for a course are exactly its batches. */
  lemma CourseBatchesListed(course: Json, batches: seq<Json>, cbs: seq<Json>, withCounts: seq<BatchCounts>, plans: seq<Json>, enrollments: seq<Json>)
    requires cbs == CourseBatches(course, batches) && withCounts == BatchesWithCounts(cbs, plans, enrollments)
    ensures |withCounts| == |cbs|
    ensures forall i :: 0 <= i < |withCounts| ==> withCounts[i].batch in batches && BatchOfCourse(withCounts[i].batch, course)
    ensures forall i :: 0 <= i < |batches| && BatchOfCourse(batches[i], course) ==>
              exists k :: 0 <= k < |withCounts| && withCounts[k].batch == batches[i]
  {
    assert forall k :: 0 <= k < |cbs| ==> withCounts[k].batch == cbs[k];
    forall i | 0 <= i < |batches| && BatchOfCourse(batches[i], course)
      ensures exists k :: 0 <= k < |withCounts| && withCounts[k].batch == batches[i]
    {
      assert batches[i] in cbs;
      var k :| 0 <= k < |cbs| && cbs[k] == batches[i];
      assert withCounts[k].batch == batches[i];
    }
  }

  /** The plans listed for a course are exactly the plans of its listed batches, and so are its enrollments'. */
  lemma CoursePlansListed(cbs: seq<Json>, withCounts: seq<BatchCounts>, plans: seq<Json>, enrollments: seq<Json>)
    requires withCounts == BatchesWithCounts(cbs, plans, enrollments)
    ensures var cps := CoursePlans(cbs, plans);
      && (forall i :: 0 <= i < |cps| ==>
            cps[i] in plans && exists k :: 0 <= k < |withCounts| && PlanOfBatch(cps[i], withCounts[k].batch))
      && (forall i :: 0 <= i < |plans| && (exists k :: 0 <= k < |withCounts| && PlanOfBatch(plans[i], withCounts[k].batch)) ==>
            plans[i] in cps)
  {
    var cps := CoursePlans(cbs, plans);
    assert forall k :: 0 <= k < |cbs| ==> withCounts[k].batch == cbs[k];
    forall i | 0 <= i < |cps|
      ensures cps[i] in plans && exists k :: 0 <= k < |withCounts| && PlanOfBatch(cps[i], withCounts[k].batch)
    {
      assert InBatches(cps[i], cbs);
      var k :| 0 <= k < |cbs| && PlanOfBatch(cps[i], cbs[k]);
      assert PlanOfBatch(cps[i], withCounts[k].batch);
    }
    forall i | 0 <= i < |plans| && (exists k :: 0 <= k < |withCounts| && PlanOfBatch(plans[i], withCounts[k].batch))
      ensures plans[i] in cps
    {
      var k :| 0 <= k < |withCounts| && PlanOfBatch(plans[i], withCounts[k].batch);
      assert PlanOfBatch(plans[i], cbs[k]);
      assert InBatches(plans[i], cbs);
    }
  }

  function CoursesWithCounts(courses: Option<seq<Json>>, batches: seq<Json>, plans: seq<Json>, enrollments: seq<Json>): (r: seq<CourseCounts>)
    ensures |r| == |courses.GetOr([])|
    ensures forall i :: 0 <= i < |r| ==> r[i].course == courses.GetOr([])[i]
  {
    var cs := courses.GetOr([]);
    seq(|cs|, i requires 0 <= i < |cs| => CourseWithCounts(cs[i], batches, plans, enrollments))
  }

  // ------------------------------------------------------------ counts add up

  /** Plans that share an id share a batch (plan ids are unique). */
  predicate PlanIdsDetermineBatch(plans: seq<Json>)
  {
    forall i, j :: 0 <= i < |plans| && 0 <= j < |plans| && SameId(Get(plans[i], "id"), Get(plans[j], "id")) ==>
      Get(plans[i], "batch_id") == Get(plans[j], "batch_id")
  }

  /** An enrollment counted for a course is counted for some batch of it... */
  lemma CourseEnrollmentInBatch(e: Json, cbs: seq<Json>, plans: seq<Json>)
    requires EnrolledIn(e, CoursePlans(cbs, plans))
    ensures InSomeBatch(e, cbs, plans)
  {
    var cps := CoursePlans(cbs, plans);
    var m :| 0 <= m < |cps| && SameId(Get(cps[m], "id"), Get(e, "plan_id"));
    var k :| 0 <= k < |cbs| && PlanOfBatch(cps[m], cbs[k]);
    var bps := BatchPlans(cbs[k], plans);
    var n :| 0 <= n < |plans| && plans[n] == cps[m];
    assert plans[n] in bps;
    var q :| 0 <= q < |bps| && bps[q] == plans[n];
    assert EnrolledInBatch(e, cbs[k], plans);
  }

  /** ... and an enrollment counted for a batch of the course is counted for the course. */
  lemma BatchEnrollmentInCourse(e: Json, cbs: seq<Json>, plans: seq<Json>)
    requires InSomeBatch(e, cbs, plans)
    ensures EnrolledIn(e, CoursePlans(cbs, plans))
  {
    var cps := CoursePlans(cbs, plans);
    var k :| 0 <= k < |cbs| && EnrolledInBatch(e, cbs[k], plans);
    var bps := BatchPlans(cbs[k], plans);
    var m :| 0 <= m < |bps| && SameId(Get(bps[m], "id"), Get(e, "plan_id"));
    var n :| 0 <= n < |plans| && plans[n] == bps[m];
    assert plans[n] in cps;
    var q :| 0 <= q < |cps| && cps[q] == plans[n];
  }

  /** With plan ids unique, an enrollment belongs to at most one batch of a course with distinct batch ids. */
  lemma EnrollmentInOneBatch(e: Json, b1: Json, b2: Json, plans: seq<Json>)
    requires PlanIdsDetermineBatch(plans)
    requires EnrolledInBatch(e, b1, plans) && EnrolledInBatch(e, b2, plans)
    ensures SameId(Get(b1, "id"), Get(b2, "id"))
  {
    var ps1 := BatchPlans(b1, plans);
    var ps2 := BatchPlans(b2, plans);
    var m1 :| 0 <= m1 < |ps1| && SameId(Get(ps1[m1], "id"), Get(e, "plan_id"));
    var m2 :| 0 <= m2 < |ps2| && SameId(Get(ps2[m2], "id"), Get(e, "plan_id"));
    var n1 :| 0 <= n1 < |plans| && plans[n1] == ps1[m1];
    var n2 :| 0 <= n2 < |plans| && plans[n2] == ps2[m2];
  }

  predicate InSomeBatch(e: Json, cbs: seq<Json>, plans: seq<Json>)
  {
    exists k :: 0 <= k < |cbs| && EnrolledInBatch(e, cbs[k], plans)
  }

  function BatchBookings(cbs: seq<Json>, plans: seq<Json>, enrollments: seq<Json>): int
  {
    Sum(cbs, b => |BatchEnrollments(b, plans, enrollments)|)
  }

  /** An enrollment of a course is in its first batch or in one of the others, never both. */
  lemma FirstBatchSplit(e: Json, cbs: seq<Json>, plans: seq<Json>)
    requires cbs != [] && DistinctIds(cbs) && PlanIdsDetermineBatch(plans)
    ensures !(EnrolledInBatch(e, cbs[0], plans) && InSomeBatch(e, cbs[1..], plans))
    ensures InSomeBatch(e, cbs, plans) == (EnrolledInBatch(e, cbs[0], plans) || InSomeBatch(e, cbs[1..], plans))
  {
    var rest := cbs[1..];
    if InSomeBatch(e, rest, plans) {
      var k :| 0 <= k < |rest| && EnrolledInBatch(e, rest[k], plans);
      assert rest[k] == cbs[k + 1];
      if EnrolledInBatch(e, cbs[0], plans) {
        EnrollmentInOneBatch(e, cbs[0], rest[k], plans);
      }
    }
    if InSomeBatch(e, cbs, plans) {
      var k :| 0 <= k < |cbs| && EnrolledInBatch(e, cbs[k], plans);
      if k > 0 {
        assert cbs[k] == rest[k - 1];
      }
    }
  }

  lemma {:induction false} BatchBookingsSum(cbs: seq<Json>, plans: seq<Json>, enrollments: seq<Json>)
    requires DistinctIds(cbs) && PlanIdsDetermineBatch(plans)
    ensures |Keep(enrollments, e => InSomeBatch(e, cbs, plans))| == BatchBookings(cbs, plans, enrollments)
    decreases |cbs|
  {
    if cbs == [] {
      KeepNone(enrollments, e => InSomeBatch(e, cbs, plans));
    } else {
      var rest := cbs[1..];
      assert DistinctIds(rest) by {
        forall i, j | 0 <= i < j < |rest| ensures !SameId(Get(rest[i], "id"), Get(rest[j], "id")) {
          assert rest[i] == cbs[i + 1] && rest[j] == cbs[j + 1];
        }
      }
      BatchBookingsSum(rest, plans, enrollments);
      var here := e => EnrolledInBatch(e, cbs[0], plans);
      var later := e => InSomeBatch(e, rest, plans);
      forall i | 0 <= i < |enrollments|
        ensures !(here(enrollments[i]) && later(enrollments[i]))
        ensures InSomeBatch(enrollments[i], cbs, plans) == (here(enrollments[i]) || later(enrollments[i]))
      {
        FirstBatchSplit(enrollments[i], cbs, plans);
      }
      KeepEitherCount(enrollments, here, later, e => InSomeBatch(e, cbs, plans));
      assert |Keep(enrollments, here)| == |BatchEnrollments(cbs[0], plans, enrollments)| by {
        KeepExt(enrollments, here, e => EnrolledInBatch(e, cbs[0], plans));
      }
    }
  }

  /**
   * With distinct batch ids and unique plan ids, a course's `bookingCount` is the
   * sum of its batches' `bookingCount`s: the flat join counts each enrollment once.
   */
  lemma CourseBookingsAreBatchSum(course: Json, batches: seq<Json>, plans: seq<Json>, enrollments: seq<Json>)
    requires DistinctIds(CourseBatches(course, batches)) && PlanIdsDetermineBatch(plans)
    ensures var c := CourseWithCounts(course, batches, plans, enrollments);
      c.bookingCount == Sum(c.batches, (b: BatchCounts) => b.bookingCount)
  {
    var cbs := CourseBatches(course, batches);
    var c := CourseWithCounts(course, batches, plans, enrollments);
    forall i | 0 <= i < |enrollments|
      ensures EnrolledIn(enrollments[i], CoursePlans(cbs, plans)) == InSomeBatch(enrollments[i], cbs, plans)
    {
      if EnrolledIn(enrollments[i], CoursePlans(cbs, plans)) {
        CourseEnrollmentInBatch(enrollments[i], cbs, plans);
      }
      if InSomeBatch(enrollments[i], cbs, plans) {
        BatchEnrollmentInCourse(enrollments[i], cbs, plans);
      }
    }
    KeepExt(enrollments, e => EnrolledIn(e, CoursePlans(cbs, plans)), e => InSomeBatch(e, cbs, plans));
    BatchBookingsSum(cbs, plans, enrollments);
    SumOverBatches(cbs, plans, enrollments);
  }

  /** Summing the attached counts is summing the batch enrollments. */
  lemma {:induction false} SumOverBatches(cbs: seq<Json>, plans: seq<Json>, enrollments: seq<Json>)
    ensures Sum(BatchesWithCounts(cbs, plans, enrollments), (b: BatchCounts) => b.bookingCount) == BatchBookings(cbs, plans, enrollments)
    decreases |cbs|
  {
    if cbs != [] {
      SumOverBatches(cbs[1..], plans, enrollments);
      assert BatchesWithCounts(cbs, plans, enrollments)[1..] == BatchesWithCounts(cbs[1..], plans, enrollments);
    }
  }

  // ------------------------------------------------------------ totals

  /** `toNumber(value, fallback)`: a number as is, non-blank numeric text as its value, else the fallback. */
  function ToNumberOr(value: Json, fallback: int): (r: int)
    ensures value.Num? ==> r == value.n
    ensures !value.Num? && !value.Str? ==> r == fallback
  {
    match value
    case Num(n) => n
    case Str(s) => if IsBlank(s) then fallback else TextToNumber(s).GetOr(fallback)
    case _ => fallback
  }

  datatype Totals = Totals(courses: nat, batches: int, plans: int, bookings: int)

  function TotalsOf(cs: seq<CourseCounts>): (t: Totals)
    ensures t.courses == |cs|
    decreases |cs|
  {
    if cs == [] then Totals(0, 0, 0, 0)
    else
      var rest := TotalsOf(cs[1..]);
      var c := cs[0];
      Totals(rest.courses + 1,
        ToNumberOr(Num(c.batchCount), 0) + rest.batches,
        ToNumberOr(Num(c.planCount), 0) + rest.plans,
        ToNumberOr(Num(c.bookingCount), 0) + rest.bookings)
  }

  /** The totals are the sums of the per-course counts, and none is negative. */
  lemma {:induction false} TotalsAreSums(cs: seq<CourseCounts>)
    ensures TotalsOf(cs).batches == Sum(cs, (c: CourseCounts) => c.batchCount as int)
    ensures TotalsOf(cs).plans == Sum(cs, (c: CourseCounts) => c.planCount as int)
    ensures TotalsOf(cs).bookings == Sum(cs, (c: CourseCounts) => c.bookingCount as int)
    ensures TotalsOf(cs).batches >= 0 && TotalsOf(cs).plans >= 0 && TotalsOf(cs).bookings >= 0
    decreases |cs|
  {
    if cs != [] {
      TotalsAreSums(cs[1..]);
    }
  }

  // ------------------------------------------------------------ filters

  /** The sport drop-down's candidates: each course's normalised sport and its label. */
  function SportCandidates(cs: seq<CourseCounts>): (r: seq<FilterOption>)
    ensures |r| == |cs|
    ensures forall i :: 0 <= i < |cs| ==> r[i].value == NormalizeFilterValue(Get(cs[i].course, "sport"))
  {
    seq(|cs|, i requires 0 <= i < |cs| =>
      var sport := Get(cs[i].course, "sport");
      FilterOption(NormalizeFilterValue(sport), if sport.Str? then sport.s else ""))
  }

  /** `courseSportOptions`: first label per normalised sport, blanks and "all" left out, sorted by label. */
  function CourseSportOptions(cs: seq<CourseCounts>): (r: seq<FilterOption>)
    ensures |r| <= |cs| && SortedByText(r)
    ensures forall k :: 0 <= k < |r| ==> r[k].value != [] && r[k].value != "all"
  {
    SortedOptions(SportCandidates(cs), {"all"});
    SortByText(FirstSeen(SportCandidates(cs), {"all"}))
  }

  /** The drop-down is sorted, offers each key once, and offers every sport a course has. */
  lemma CourseSportOptionsSpec(cs: seq<CourseCounts>)
    ensures var r := CourseSportOptions(cs);
      && SortedByText(r) && DistinctValues(r)
      && (forall k :: 0 <= k < |r| ==> r[k].value != [] && r[k].value != "all")
      && (forall i :: 0 <= i < |cs| && NormalizeFilterValue(Get(cs[i].course, "sport")) !in {"", "all"} ==>
            exists k :: 0 <= k < |r| && r[k].value == NormalizeFilterValue(Get(cs[i].course, "sport")))
  {
    var cands := SportCandidates(cs);
    SortedOptions(cands, {"all"});
    SortedOptionsDistinct(cands, {"all"});
    forall i | 0 <= i < |cs| ensures cands[i].value == NormalizeFilterValue(Get(cs[i].course, "sport")) {
    }
  }

  /** Every option is the key and spelling of the first course with that sport. */
  lemma CourseSportOptionsSound(cs: seq<CourseCounts>, k: nat) returns (i: nat)
    requires k < |CourseSportOptions(cs)|
    ensures i < |cs| && FirstCourseWithSport(cs, i, CourseSportOptions(cs)[k])
  {
    var cands := SportCandidates(cs);
    var r := CourseSportOptions(cs);
    assert r == SortByText(FirstSeen(cands, {"all"}));
    SortedOptionsFirst(cands, {"all"}, k);
    var o := r[k];
    assert FirstWithValue(cands, o);
    i :| 0 <= i < |cands| && cands[i] == o && forall n :: 0 <= n < i ==> cands[n].value != o.value;
    CandidateIsFirstCourse(cs, i, o);
  }

  /** The first candidate with a key is the first course whose sport has that key. */
  lemma CandidateIsFirstCourse(cs: seq<CourseCounts>, i: nat, o: FilterOption)
    requires i < |cs| && SportCandidates(cs)[i] == o
    requires forall n :: 0 <= n < i ==> SportCandidates(cs)[n].value != o.value
    ensures FirstCourseWithSport(cs, i, o)
  {
  }

  /**
   * Course `i` is the first whose sport normalises to the option's key, and the option
   * shows that course's sport as written.
   */
  predicate FirstCourseWithSport(cs: seq<CourseCounts>, i: int, o: FilterOption)
    requires 0 <= i < |cs|
  {
    var sport := Get(cs[i].course, "sport");
    && NormalizeFilterValue(sport) == o.value
    && o.text == (if sport.Str? then sport.s else "")
    && forall n :: 0 <= n < i ==> NormalizeFilterValue(Get(cs[n].course, "sport")) != o.value
  }

  /** `course.active ? "active" : "inactive"`. */
  function CourseStatus(c: CourseCounts): string
  {
    if Truthy(Get(c.course, "active")) then "active" else "inactive"
  }

  predicate CourseShown(c: CourseCounts, statusFilter: string, sportFilter: string)
  {
    (statusFilter == "all" || CourseStatus(c) == statusFilter)
    && (sportFilter == "all" || NormalizeFilterValue(Get(c.course, "sport")) == sportFilter)
  }

  /** `filteredCourses`: the courses passing both filters, each switched off by "all". */
  function FilteredCourses(cs: seq<CourseCounts>, statusFilter: string, sportFilter: string): (r: seq<CourseCounts>)
    ensures forall i :: 0 <= i < |r| ==> r[i] in cs && CourseShown(r[i], statusFilter, sportFilter)
    ensures forall i :: 0 <= i < |cs| && CourseShown(cs[i], statusFilter, sportFilter) ==> cs[i] in r
  {
    Keep(cs, c => CourseShown(c, statusFilter, sportFilter))
  }

  /** Without an active filter every course is listed, in order; a status filter other than the two values hides all. */
  lemma FilteredCoursesFacts(cs: seq<CourseCounts>, statusFilter: string, sportFilter: string)
    ensures !FiltersActive(statusFilter, sportFilter) ==> FilteredCourses(cs, statusFilter, sportFilter) == cs
    ensures statusFilter !in {"all", "active", "inactive"} ==> FilteredCourses(cs, statusFilter, sportFilter) == []
  {
    if !FiltersActive(statusFilter, sportFilter) {
      KeepAll(cs, c => CourseShown(c, statusFilter, sportFilter));
    }
    if statusFilter !in {"all", "active", "inactive"} {
      KeepNone(cs, c => CourseShown(c, statusFilter, sportFilter));
    }
  }

  // ------------------------------------------------------------ links to the orders page

  /**
   * The query `buildOrdersHref` builds with `URLSearchParams.set`: `order_tab`
   * always, and each id only when it is truthy, as its text.
   */
  function OrdersHrefQuery(partnerId: Json, courseId: Json, batchId: Json, planId: Json, tab: string): (q: map<string, string>)
    ensures "order_tab" in q && q["order_tab"] == tab
    ensures "partner_id" in q <==> Truthy(partnerId)
    ensures "course_id" in q <==> Truthy(courseId)
    ensures "batch_id" in q <==> Truthy(batchId)
    ensures "plan_id" in q <==> Truthy(planId)
    ensures "turf_id" !in q && "court_id" !in q
  {
    var q := map["order_tab" := tab];
    var q := SetIfTruthy(q, "partner_id", partnerId);
    var q := SetIfTruthy(q, "course_id", courseId);
    var q := SetIfTruthy(q, "batch_id", batchId);
    SetIfTruthy(q, "plan_id", planId)
  }

  /**
   * Following a course link lands on the course tab, and every course order of
   * that partner and course (with the batch and plan given, if any) passes the
   * page's filters.
   */
  lemma OrdersHrefRoundTrip(partnerId: Json, courseId: Json, batchId: Json, planId: Json, order: Orders.Order)
    requires IdLike(partnerId) && IdLike(courseId) && IdLike(batchId) && IdLike(planId)
    requires order.partner.id == partnerId && order.plan.Some?
    requires order.plan.value.courseId == courseId
    requires Truthy(batchId) ==> order.plan.value.batchId == batchId
    requires Truthy(planId) ==> order.plan.value.id == planId
    ensures var q := OrdersHrefQuery(partnerId, courseId, batchId, planId, "course");
      && OrdersTabs.NextTab(Lower(ParamOf(q, "order_tab")), ParamOf(q, "turf_id"), ParamOf(q, "court_id")) == OrdersTabs.CourseTab
      && OrdersTabs.MatchesOrderFilters(order, Some(FiltersOf(q)))
  {
    var q := OrdersHrefQuery(partnerId, courseId, batchId, planId, "course");
    HrefParams(partnerId, courseId, batchId, planId);
    assert Lower("course") == "course";
    var f := FiltersOf(q);
    assert f == OrdersTabs.Filters(IdText(partnerId), IdText(courseId), IdText(batchId), IdText(planId), "", "");
    assert OrdersTabs.PlanField(order, "courseId") == courseId;
  }

  /** What the orders page reads back from each parameter of a course link. */
  lemma HrefParams(partnerId: Json, courseId: Json, batchId: Json, planId: Json)
    requires IdLike(partnerId) && IdLike(courseId) && IdLike(batchId) && IdLike(planId)
    ensures var q := OrdersHrefQuery(partnerId, courseId, batchId, planId, "course");
      && ParamOf(q, "order_tab") == "course"
      && ParamOf(q, "partner_id") == IdText(partnerId) && ParamOf(q, "course_id") == IdText(courseId)
      && ParamOf(q, "batch_id") == IdText(batchId) && ParamOf(q, "plan_id") == IdText(planId)
  {
    var q0 := map["order_tab" := "course"];
    var q1 := SetIfTruthy(q0, "partner_id", partnerId);
    var q2 := SetIfTruthy(q1, "course_id", courseId);
    HrefCourseParams(partnerId, courseId);
    HrefBatchParams(q2, batchId, planId);
  }

  /** After the partner and course ids: the tab and both ids read back. */
  lemma HrefCourseParams(partnerId: Json, courseId: Json)
    requires IdLike(partnerId) && IdLike(courseId)
    ensures var q := SetIfTruthy(SetIfTruthy(map["order_tab" := "course"], "partner_id", partnerId), "course_id", courseId);
      && ParamOf(q, "order_tab") == "course" && ParamOf(q, "batch_id") == "" && ParamOf(q, "plan_id") == ""
      && ParamOf(q, "partner_id") == IdText(partnerId) && ParamOf(q, "course_id") == IdText(courseId)
  {
    var q0 := map["order_tab" := "course"];
    var q1 := SetIfTruthy(q0, "partner_id", partnerId);
    assert ParamOf(q0, "order_tab") == "course";
    assert ParamOf(q0, "partner_id") == "" && ParamOf(q1, "course_id") == "";
    ParamSet(q0, "partner_id", partnerId);
    ParamSet(q1, "course_id", courseId);
    ParamKept(q0, "partner_id", partnerId, "order_tab");
    ParamKept(q0, "partner_id", partnerId, "batch_id");
    ParamKept(q0, "partner_id", partnerId, "plan_id");
    ParamKept(q1, "course_id", courseId, "order_tab");
    ParamKept(q1, "course_id", courseId, "partner_id");
    ParamKept(q1, "course_id", courseId, "batch_id");
    ParamKept(q1, "course_id", courseId, "plan_id");
  }

  /** Setting the batch and plan ids reads them back and keeps the tab, partner and course. */
  lemma HrefBatchParams(q2: map<string, string>, batchId: Json, planId: Json)
    requires IdLike(batchId) && IdLike(planId)
    requires ParamOf(q2, "batch_id") == "" && ParamOf(q2, "plan_id") == ""
    ensures var q := SetIfTruthy(SetIfTruthy(q2, "batch_id", batchId), "plan_id", planId);
      && ParamOf(q, "order_tab") == ParamOf(q2, "order_tab")
      && ParamOf(q, "partner_id") == ParamOf(q2, "partner_id") && ParamOf(q, "course_id") == ParamOf(q2, "course_id")
      && ParamOf(q, "batch_id") == IdText(batchId) && ParamOf(q, "plan_id") == IdText(planId)
  {
    var q3 := SetIfTruthy(q2, "batch_id", batchId);
    ParamSet(q2, "batch_id", batchId);
    ParamKept(q2, "batch_id", batchId, "plan_id");
    ParamSet(q3, "plan_id", planId);
    ParamKept(q2, "batch_id", batchId, "order_tab");
    ParamKept(q2, "batch_id", batchId, "partner_id");
    ParamKept(q2, "batch_id", batchId, "course_id");
    ParamKept(q3, "plan_id", planId, "order_tab");
    ParamKept(q3, "plan_id", planId, "partner_id");
    ParamKept(q3, "plan_id", planId, "course_id");
    ParamKept(q3, "plan_id", planId, "batch_id");
  }

  /** The link under the selected course, shown only for a course with bookings and an id. */
  function SelectedCourseOrdersHref(selected: Option<CourseCounts>, partnerId: Json): (r: Option<map<string, string>>)
    ensures r.Some? <==> selected.Some? && selected.value.bookingCount > 0 && Truthy(Get(selected.value.course, "id"))
  {
    if selected.Some? && HasPositiveCount(Num(selected.value.bookingCount)) && Truthy(Get(selected.value.course, "id")) then
      Some(OrdersHrefQuery(partnerId, Get(selected.value.course, "id"), Undefined, Undefined, "course"))
    else None
  }

  /** The partner-wide link, shown only with a partner id and some booking. */
  function PartnerOrdersHref(partnerId: Json, totals: Totals): (r: Option<map<string, string>>)
    ensures r.Some? <==> Truthy(partnerId) && totals.bookings > 0
  {
    if Truthy(partnerId) && HasPositiveCount(Num(totals.bookings)) then
      Some(OrdersHrefQuery(partnerId, Undefined, Undefined, Undefined, "course"))
    else None
  }

  /** The selected course: the first course whose id is `===` the chosen id. */
  function SelectedCourse(cs: seq<CourseCounts>, selectedId: Json): Option<CourseCounts>
  {
    FindById(cs, (c: CourseCounts) => Get(c.course, "id"), selectedId)
  }
}
