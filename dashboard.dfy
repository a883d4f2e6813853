/** The dashboard statistics of src/dashboard.ts: eight queries run
    together, their rows projected onto the overview, funnel and
    per-milestone feedback-cycle metrics (a missing row reads as zeros),
    and the result stored under `dashboardStatistics` in the experience's
    `meta` document, which is then saved back.  Rows and documents are
    JSON values; the clock is the parameter `now`; `JSON.parse` is the
    parameter `parse`. */
module Dashboard {
  import opened Wrappers
  import opened Utils
  import opened Json
  import opened Db

  /** `checkValue(data, key, defaultValue)`: the default only when the whole
      record is falsy; otherwise the record's own property, `undefined` if it
      has none.  JavaScript would also find inherited properties and the
      `length` or indices of arrays and strings; the callers read fixed
      snake_case column names of row objects, where none of that arises. */
  function CheckValue(data: Value, key: string, default: Value): (v: Value)
    ensures !Truthy(data) ==> v == default
    ensures Truthy(data) && data.Obj? && key in data.fields ==> v == data.fields[key]
    ensures Truthy(data) && !(data.Obj? && key in data.fields) ==> v == Undefined
  {
    if Truthy(data) then Get(data, key) else default
  }

  /** The default is not a fallback for an absent property: a present
      record without the key gives `undefined`, whatever the default. */
  lemma CheckValueAbsentKey(fields: map<string, Value>, key: string, default: Value)
    requires key !in fields
    ensures CheckValue(Obj(fields), key, default) == Undefined
  {
  }

  const Zero: Value := Num(0.0)

  // ---------------------------------------------------------------------
  // Overview and funnel

  /** `overviewMetrics` */
  datatype OverviewMetrics = OverviewMetrics(
    learners: Value, enrolmentsPending: Value, progress: Value,
    confidence: Value, lowConfidenceLearners: Value, satisfaction: Value, lowSatisfactionLearners: Value,
    engagement: Value, lowEngagementLearners: Value)

  /** The nine overview metrics from four single-row results; every metric
      of a missing (falsy) row is 0. */
  function Overview(learner: Value, progress: Value, engagement: Value, confidence: Value): (m: OverviewMetrics)
    ensures !Truthy(learner) ==> m.learners == Zero && m.enrolmentsPending == Zero
    ensures !Truthy(progress) ==> m.progress == Zero
    ensures !Truthy(confidence) ==>
      m.confidence == Zero && m.lowConfidenceLearners == Zero &&
      m.satisfaction == Zero && m.lowSatisfactionLearners == Zero
    ensures !Truthy(engagement) ==> m.engagement == Zero && m.lowEngagementLearners == Zero
  {
    OverviewMetrics(
      CheckValue(learner, "learners", Zero),
      CheckValue(learner, "enrolments_pending", Zero),
      CheckValue(progress, "completed_ratio", Zero),
      CheckValue(confidence, "confidence", Zero),
      CheckValue(confidence, "low_confidence_learners", Zero),
      CheckValue(confidence, "satisfaction", Zero),
      CheckValue(confidence, "low_satisfaction_learners", Zero),
      CheckValue(engagement, "engagement", Zero),
      CheckValue(engagement, "low_engagement_learners", Zero))
  }

  /** `funnelMetrics` */
  datatype FunnelMetrics = FunnelMetrics(
    unsubmittedAssessmentCount: Value, assessmentsSubmitted: Value, lateAssessmentSubmissions: Value,
    lateAssessments: Value, feedbackRequested: Value, unassignedReviews: Value,
    assessmentWaitingReview: Value, overdueReviews: Value, feedbackGiven: Value,
    expertsReviews: Value, feedbackMeanTime: Value, feedbackAcknowledgement: Value,
    waitingAcknowledgement: Value, feedbackQuality: Value, acknowledgeMeanTime: Value)

  const ZeroFunnel: FunnelMetrics :=
    FunnelMetrics(Zero, Zero, Zero, Zero, Zero, Zero, Zero, Zero, Zero, Zero, Zero, Zero, Zero, Zero, Zero)

  /** The fifteen funnel metrics from the feedback row, all 0 when the row
      is missing. */
  function Funnel(feedback: Value): (m: FunnelMetrics)
    ensures !Truthy(feedback) ==> m == ZeroFunnel
  {
    FunnelMetrics(
      CheckValue(feedback, "assessments", Zero),
      CheckValue(feedback, "on_time_submissions", Zero),
      CheckValue(feedback, "late_assessments_submission", Zero),
      CheckValue(feedback, "late_assessments", Zero),
      CheckValue(feedback, "feedback_requested", Zero),
      CheckValue(feedback, "unassigned_review", Zero),
      CheckValue(feedback, "waiting_review", Zero),
      CheckValue(feedback, "overdue_review", Zero),
      CheckValue(feedback, "feedback_given", Zero),
      CheckValue(feedback, "experts_reviews", Zero),
      CheckValue(feedback, "feedback_mean_time_hours", Zero),
      CheckValue(feedback, "feedback_acknowledge", Zero),
      CheckValue(feedback, "waiting_acknowledgement", Zero),
      CheckValue(feedback, "feedback_quality", Zero),
      CheckValue(feedback, "acknowledge_mean_time_days", Zero))
  }

  // ---------------------------------------------------------------------
  // Feedback-cycle metrics

  /** One entry of `feedbackCycleMetrics`. */
  datatype CycleMetric = CycleMetric(
    milestoneId: Value, milestoneName: Value, experienceId: Value, experienceName: Value,
    unsubmittedAssessmentCount: Value, feedbackRequested: Value, feedbackGiven: Value,
    feedbackAcknowledge: Value, hideOrLock: Value, visibleNotComplete: Value)

  /** One milestone's metrics: eight from its cycle row, two from the
      hide-lock row at the same index. */
  function CycleMetricOf(cycle: Value, hideLock: Value): (m: CycleMetric)
    ensures !Truthy(hideLock) ==> m.hideOrLock == Zero && m.visibleNotComplete == Zero
    ensures m.milestoneId == CheckValue(cycle, "milestone_id", Zero)
    ensures m.hideOrLock == CheckValue(hideLock, "hide_or_lock", Zero)
  {
    CycleMetric(
      CheckValue(cycle, "milestone_id", Zero),
      CheckValue(cycle, "milestone_name", Zero),
      CheckValue(cycle, "experience_id", Zero),
      CheckValue(cycle, "experience_name", Zero),
      CheckValue(cycle, "assessments_funnel", Zero),
      CheckValue(cycle, "feedback_requested_funnel", Zero),
      CheckValue(cycle, "feedback_given_funnel", Zero),
      CheckValue(cycle, "feedback_acknowledge_funnel", Zero),
      CheckValue(hideLock, "hide_or_lock", Zero),
      CheckValue(hideLock, "visible_not_complete", Zero))
  }

  /** `feedbackCycleMetrics` after the first `|cycles|` rows were pushed. */
  function CycleMetrics(cycles: seq<Value>, hideLock: seq<Value>): seq<CycleMetric> {
    if cycles == [] then []
    else CycleMetrics(cycles[..|cycles| - 1], hideLock) + [CycleMetricOf(cycles[|cycles| - 1], At(hideLock, |cycles| - 1))]
  }

  /** The `forEach` that pushes one entry per cycle row. */
  method BuildCycleMetrics(cycles: seq<Value>, hideLock: seq<Value>) returns (metrics: seq<CycleMetric>)
    ensures metrics == CycleMetrics(cycles, hideLock)
    ensures |metrics| == |cycles|
    ensures forall i :: 0 <= i < |cycles| ==> metrics[i] == CycleMetricOf(cycles[i], At(hideLock, i))
  {
    metrics := [];
    for index := 0 to |cycles|
      invariant metrics == CycleMetrics(cycles[..index], hideLock)
    {
      assert cycles[..index + 1][..index] == cycles[..index];
      metrics := metrics + [CycleMetricOf(cycles[index], At(hideLock, index))];
    }
    assert cycles[..|cycles|] == cycles;
    CycleMetricsPairing(cycles, hideLock);
  }

  /** One entry per cycle row, in order, entry `i` paired with hide-lock
      row `i`. */
  lemma {:induction false} CycleMetricsPairing(cycles: seq<Value>, hideLock: seq<Value>)
    ensures |CycleMetrics(cycles, hideLock)| == |cycles|
    ensures forall i :: 0 <= i < |cycles| ==>
      CycleMetrics(cycles, hideLock)[i] == CycleMetricOf(cycles[i], At(hideLock, i))
  {
    if cycles != [] {
      var init := cycles[..|cycles| - 1];
      CycleMetricsPairing(init, hideLock);
      forall i | 0 <= i < |init|
        ensures CycleMetrics(cycles, hideLock)[i] == CycleMetricOf(cycles[i], At(hideLock, i))
      {
        assert init[i] == cycles[i];
      }
    }
  }

  /** A milestone without a hide-lock row at its index gets 0 for both
      hide-lock metrics. */
  lemma MissingHideLockRowGivesZeros(cycles: seq<Value>, hideLock: seq<Value>, i: nat)
    requires |hideLock| <= i < |cycles|
    ensures i < |CycleMetrics(cycles, hideLock)|
    ensures CycleMetrics(cycles, hideLock)[i].hideOrLock == Zero
    ensures CycleMetrics(cycles, hideLock)[i].visibleNotComplete == Zero
  {
    CycleMetricsPairing(cycles, hideLock);
    assert At(hideLock, i) == Undefined;
  }

  /** Hide-lock rows past the last cycle row are never read. */
  lemma ExtraHideLockRowsIgnored(cycles: seq<Value>, hideLock: seq<Value>, extra: seq<Value>)
    requires |cycles| <= |hideLock|
    ensures CycleMetrics(cycles, hideLock + extra) == CycleMetrics(cycles, hideLock)
  {
    CycleMetricsPairing(cycles, hideLock + extra);
    CycleMetricsPairing(cycles, hideLock);
    forall i | 0 <= i < |cycles|
      ensures At(hideLock + extra, i) == At(hideLock, i)
    {
    }
  }

  // ---------------------------------------------------------------------
  // The statistics record and the meta document

  /** The rows the eight queries give: six single rows (`null` when the
      query found none) and two lists. */
  datatype DashboardRows = DashboardRows(
    learner: Value, progress: Value, engagement: Value, confidence: Value,
    feedback: Value, experience: Value, cycles: seq<Value>, hideLock: seq<Value>)

  /** What each query resolves or rejects with, and whether the save rejects. */
  datatype DashboardQueries = DashboardQueries(
    learners: Fetch<Value>, progress: Fetch<Value>, engagement: Fetch<Value>,
    confidence: Fetch<Value>, feedback: Fetch<Value>, experience: Fetch<Value>,
    cycles: Fetch<Value>, hideLock: Fetch<Value>, saveFailure: Option<Failure>)

  /** A single-row query as a value: its row, or `null`. */
  function FirstRow(fetched: Fetch<Value>): (r: Result<Value, Failure>)
    ensures fetched.Err? ==> r == Err(fetched.error)
    ensures fetched.Ok? && fetched.value == [] ==> r == Ok(Value.Null)
    ensures fetched.Ok? && fetched.value != [] ==> r == Ok(fetched.value[0])
  {
    var shaped :- Query(fetched, true);
    Ok(if shaped.First? then shaped.row else Value.Null)
  }

  /** The eight queries in argument order; the first rejection wins. */
  function FetchAll(q: DashboardQueries): (r: Result<DashboardRows, Failure>)
    ensures q.learners.Err? ==> r == Err(q.learners.error)
    ensures r.Ok? <==> q.learners.Ok? && q.progress.Ok? && q.engagement.Ok? && q.confidence.Ok? &&
                       q.feedback.Ok? && q.experience.Ok? && q.cycles.Ok? && q.hideLock.Ok?
    ensures r.Ok? ==> r.value.cycles == q.cycles.value && r.value.hideLock == q.hideLock.value
  {
    ListRowsAreDriverRows(q.cycles);
    ListRowsAreDriverRows(q.hideLock);
    var learner :- FirstRow(q.learners);
    var progress :- FirstRow(q.progress);
    var engagement :- FirstRow(q.engagement);
    var confidence :- FirstRow(q.confidence);
    var feedback :- FirstRow(q.feedback);
    var experience :- FirstRow(q.experience);
    var cycles :- ListRows(q.cycles);
    var hideLock :- ListRows(q.hideLock);
    Ok(DashboardRows(learner, progress, engagement, confidence, feedback, experience, cycles, hideLock))
  }

  /** `result`: the three metric groups and `lastUpdated`. */
  datatype DashboardStats = DashboardStats(
    overviewMetrics: OverviewMetrics, funnelMetrics: FunnelMetrics,
    feedbackCycleMetrics: seq<CycleMetric>, lastUpdated: int)

  /** The statistics the rows give at time `now`. */
  function Assemble(rows: DashboardRows, now: int): (stats: DashboardStats)
    ensures stats.lastUpdated == now
    ensures |stats.feedbackCycleMetrics| == |rows.cycles|
    ensures forall i :: 0 <= i < |rows.cycles| ==>
      stats.feedbackCycleMetrics[i] == CycleMetricOf(rows.cycles[i], At(rows.hideLock, i))
  {
    CycleMetricsPairing(rows.cycles, rows.hideLock);
    DashboardStats(Overview(rows.learner, rows.progress, rows.engagement, rows.confidence),
                   Funnel(rows.feedback), CycleMetrics(rows.cycles, rows.hideLock), now)
  }

  /** `meta != '[]'`, for the text the column holds. */
  predicate IsEmptyArrayText(v: Value) {
    v == Str("[]")
  }

  /** The decoded `meta` document: `{}` when the experience row is missing,
      its `meta` is falsy or is the text `[]`; otherwise what `JSON.parse`
      gives, a syntax error rejecting. */
  function DecodeMeta(experience: Value, parse: Value -> Option<Value>): (r: Result<Value, Failure>)
    ensures !Truthy(experience) ==> r == Ok(Obj(map[]))
    ensures !Truthy(Get(experience, "meta")) || IsEmptyArrayText(Get(experience, "meta")) ==> r == Ok(Obj(map[]))
    ensures Truthy(experience) && Truthy(Get(experience, "meta")) && !IsEmptyArrayText(Get(experience, "meta")) ==>
      r == (match parse(Get(experience, "meta")) case Some(doc) => Ok(doc) case None => Err(MetaSyntaxError))
  {
    var meta := CheckValue(experience, "meta", Value.Null);
    if Truthy(meta) && !IsEmptyArrayText(meta) then
      match parse(Get(experience, "meta"))
      case Some(doc) => Ok(doc)
      case None => Err(MetaSyntaxError)
    else Ok(Obj(map[]))
  }

  /** A property of the saved document: one it was decoded with, or the
      statistics just computed. */
  datatype Entry = Decoded(json: Value) | Statistics(stats: DashboardStats)

  /** The document `JSON.stringify` serialises: an object's properties, or
      an array's elements. */
  datatype SavedMeta = ObjectMeta(entries: map<string, Entry>) | ArrayMeta(items: seq<Value>)

  const StatisticsKey: string := "dashboardStatistics"

  /** `meta.dashboardStatistics = result` followed by `JSON.stringify`: an
      object gains (or has replaced) that one property; an array takes the
      property but does not serialise it; `null` or a primitive rejects. */
  function SetStatistics(meta: Value, stats: DashboardStats): (r: Result<SavedMeta, Failure>)
    ensures meta.Obj? ==>
      r.Ok? && r.value.ObjectMeta? &&
      r.value.entries.Keys == meta.fields.Keys + {StatisticsKey} &&
      r.value.entries[StatisticsKey] == Statistics(stats) &&
      (forall k :: k in meta.fields && k != StatisticsKey ==> r.value.entries[k] == Decoded(meta.fields[k]))
    ensures meta.Arr? ==> r == Ok(ArrayMeta(meta.items))
    ensures !meta.Obj? && !meta.Arr? ==> r == Err(MetaNotAnObject)
  {
    match meta
    case Obj(fields) => Ok(ObjectMeta((map k | k in fields :: Decoded(fields[k]))[StatisticsKey := Statistics(stats)]))
    case Arr(items) => Ok(ArrayMeta(items))
    case _ => Err(MetaNotAnObject)
  }

  /** What one `getDashboardStats` call replies and the document it saves. */
  datatype DashboardOutcome = DashboardOutcome(reply: Result<DashboardStats, Failure>, save: Option<SavedMeta>)

  /** The specification of `getDashboardStats`. */
  function DashboardRun(q: DashboardQueries, now: int, parse: Value -> Option<Value>): DashboardOutcome {
    match FetchAll(q)
    case Err(e) => DashboardOutcome(Err(e), None)
    case Ok(rows) =>
      var stats := Assemble(rows, now);
      match DecodeMeta(rows.experience, parse)
      case Err(e) => DashboardOutcome(Err(e), None)
      case Ok(meta) =>
        match SetStatistics(meta, stats)
        case Err(e) => DashboardOutcome(Err(e), None)
        case Ok(doc) =>
          DashboardOutcome(if q.saveFailure.Some? then Err(q.saveFailure.value) else Ok(stats), Some(doc))
  }

  /** The `meta` column of the experience table.  `saves` logs every
      update issued, in order, whether or not it took effect. */
  class ExperienceTable {
    var meta: map<int, SavedMeta>
    ghost var saves: seq<(int, SavedMeta)>

    constructor (initial: map<int, SavedMeta>)
      ensures meta == initial && saves == []
    {
      meta := initial;
      saves := [];
    }

    /** `saveMetaByExperienceQuery(id, doc)`: an update of the row with that
        id (none if there is no such row); a rejected update changes nothing. */
    method SaveMeta(id: int, doc: SavedMeta, failure: Option<Failure>) returns (r: Result<(), Failure>)
      modifies this
      ensures saves == old(saves) + [(id, doc)]
      ensures failure.None? ==> r == Ok(()) && meta == (if id in old(meta) then old(meta)[id := doc] else old(meta))
      ensures failure.Some? ==> r == Err(failure.value) && meta == old(meta)
    {
      saves := saves + [(id, doc)];
      if failure.Some? {
        return Err(failure.value);
      }
      if id in meta {
        meta := meta[id := doc];
      }
      r := Ok(());
    }
  }

  /** `getDashboardStats(id)` */
  method GetDashboardStats(id: int, now: int, q: DashboardQueries, parse: Value -> Option<Value>, table: ExperienceTable)
    returns (r: Result<DashboardStats, Failure>)
    modifies table
    ensures var o := DashboardRun(q, now, parse);
      r == o.reply &&
      table.saves == old(table.saves) + (if o.save.Some? then [(id, o.save.value)] else []) &&
      table.meta == (if o.save.Some? && q.saveFailure.None? && id in old(table.meta)
                     then old(table.meta)[id := o.save.value] else old(table.meta))
  {
    var rows :- FetchAll(q);
    var cycleMetrics := BuildCycleMetrics(rows.cycles, rows.hideLock);
    var result := DashboardStats(Overview(rows.learner, rows.progress, rows.engagement, rows.confidence),
                                 Funnel(rows.feedback), cycleMetrics, now);
    var meta :- DecodeMeta(rows.experience, parse);
    var doc :- SetStatistics(meta, result);
    var saved := table.SaveMeta(id, doc, q.saveFailure);
    if saved.Err? {
      return Err(saved.error);
    }
    r := Ok(result);
  }

  /** `dashboard(id)`: the statistics wrapped in a success envelope. */
  method Dashboard(id: int, now: int, q: DashboardQueries, parse: Value -> Option<Value>, table: ExperienceTable)
    returns (r: Result<Envelope<DashboardStats>, Failure>)
    modifies table
    ensures var o := DashboardRun(q, now, parse);
      (o.reply.Ok? ==> r == Ok(Success(o.reply.value))) &&
      (o.reply.Err? ==> r == Err(o.reply.error)) &&
      table.saves == old(table.saves) + (if o.save.Some? then [(id, o.save.value)] else []) &&
      table.meta == (if o.save.Some? && q.saveFailure.None? && id in old(table.meta)
                     then old(table.meta)[id := o.save.value] else old(table.meta))
  {
    var result :- GetDashboardStats(id, now, q, parse, table);
    r := Ok(Success(result));
  }

  // ---------------------------------------------------------------------
  // What a call promises

  /** A successful call saved exactly one document, and the statistics it
      returns are stamped `now`; when the decoded meta is an object, the
      saved document is that object with `dashboardStatistics` set to the
      returned statistics and every other property kept. */
  lemma ReplyIsSavedStatistics(q: DashboardQueries, now: int, parse: Value -> Option<Value>)
    requires DashboardRun(q, now, parse).reply.Ok?
    ensures var o := DashboardRun(q, now, parse);
      o.save.Some? && o.reply.value.lastUpdated == now &&
      (var meta := DecodeMeta(FetchAll(q).value.experience, parse).value;
       meta.Obj? ==>
         o.save.value.ObjectMeta? && o.save.value.entries[StatisticsKey] == Statistics(o.reply.value) &&
         forall k :: k in meta.fields && k != StatisticsKey ==> o.save.value.entries[k] == Decoded(meta.fields[k]))
  {
    var rows := FetchAll(q).value;
    var meta := DecodeMeta(rows.experience, parse).value;
    var doc := SetStatistics(meta, Assemble(rows, now)).value;
    assert DashboardRun(q, now, parse) == DashboardOutcome(Ok(Assemble(rows, now)), Some(doc));
  }

  /** With no stored meta (or `[]`), the saved document holds the
      statistics and nothing else. */
  lemma FreshMetaHoldsOnlyStatistics(q: DashboardQueries, now: int, parse: Value -> Option<Value>)
    requires FetchAll(q).Ok?
    requires var e := FetchAll(q).value.experience;
      !Truthy(Get(e, "meta")) || IsEmptyArrayText(Get(e, "meta"))
    ensures DashboardRun(q, now, parse).save ==
      Some(ObjectMeta(map[StatisticsKey := Statistics(Assemble(FetchAll(q).value, now))]))
  {
    var rows := FetchAll(q).value;
    var stats := Assemble(rows, now);
    var entries := SetStatistics(Obj(map[]), stats).value.entries;
    assert entries == map[StatisticsKey := Statistics(stats)];
  }

  /** When every overview query finds no rows, every overview metric is 0. */
  lemma EmptyOverviewQueriesGiveZeros(q: DashboardQueries, now: int)
    requires q.learners == Ok([]) && q.progress == Ok([]) && q.engagement == Ok([]) && q.confidence == Ok([])
    requires FetchAll(q).Ok?
    ensures Assemble(FetchAll(q).value, now).overviewMetrics ==
      OverviewMetrics(Zero, Zero, Zero, Zero, Zero, Zero, Zero, Zero, Zero)
  {
    var rows := FetchAll(q).value;
    assert rows.learner == Value.Null && rows.progress == Value.Null;
    assert rows.engagement == Value.Null && rows.confidence == Value.Null;
  }

  /** A failed query saves nothing. */
  lemma FailedQuerySavesNothing(q: DashboardQueries, now: int, parse: Value -> Option<Value>)
    requires FetchAll(q).Err?
    ensures DashboardRun(q, now, parse) == DashboardOutcome(Err(FetchAll(q).error), None)
  {
  }
}
