/** The cache-aside statistics of src/experience.ts.  `experience(id)`
    serves a cached record younger than a minute and otherwise runs the
    five aggregators, writes `{ created: now, data }` under the
    experience's key and returns the new record; `allExperiences()`
    refreshes every experience that is not completed and whose record is
    at least an hour old.  The clock is the parameter `now`; what each
    query resolves with is an input. */
module Experience {
  import opened Wrappers
  import opened Utils
  import opened Db
  import opened Aggregators
  import opened CacheKeys

  /** A cached record younger than this (in milliseconds) is served as is. */
  const FreshWindow: int := 60000

  /** The sweep leaves alone an experience whose record is younger than this. */
  const RefreshWindow: int := 3600000

  /** The composite record an experience's statistics consist of. */
  datatype ExperienceStats = ExperienceStats(
    enrolledUserCount: RoleCounts,
    registeredUserCount: RoleCounts,
    activeUserCount: RoleCounts,
    feedbackLoopStarted: int,
    feedbackLoopCompleted: int,
    reviewRatingAvg: real,
    onTrackRatio: real)

  /** What each of the six queries of one experience resolves or rejects with. */
  datatype ExperienceQueries = ExperienceQueries(
    enrolment: Fetch<EnrolmentRow>,
    activeUsers: Fetch<ActiveUserRow>,
    loopsStarted: Fetch<LoopStartedRow>,
    loopsCompleted: Fetch<CountRow>,
    ratingAvg: Fetch<AvgRow>,
    teamStats: Fetch<TeamStatRow>)

  /** The five aggregators, run in argument order; the first to reject
      rejects the whole record. */
  function ComputeStats(q: ExperienceQueries): (r: Result<ExperienceStats, Failure>)
    ensures q.enrolment.Err? ==> r == Err(q.enrolment.error)
    ensures r.Ok? <==>
      q.enrolment.Ok? && q.activeUsers.Ok? && q.loopsStarted.Ok? &&
      q.loopsCompleted.Ok? && q.loopsCompleted.value != [] &&
      q.ratingAvg.Ok? && q.ratingAvg.value != [] && q.teamStats.Ok?
    ensures r.Ok? ==> forall role: Role ::
      0 <= r.value.registeredUserCount.Get(role) <= r.value.enrolledUserCount.Get(role)
    ensures r.Ok? ==> r.value.feedbackLoopStarted >= |q.loopsStarted.value|
    ensures r.Ok? ==> (r.value.onTrackRatio == -1.0 <==> q.teamStats.value == [])
    ensures r.Ok? && q.teamStats.value != [] ==> 0.0 <= r.value.onTrackRatio <= 1.0
  {
    ListRowsAreDriverRows(q.enrolment);
    ListRowsAreDriverRows(q.activeUsers);
    ListRowsAreDriverRows(q.loopsStarted);
    ListRowsAreDriverRows(q.teamStats);
    var enrolment :- ListRows(q.enrolment);
    var active :- ListRows(q.activeUsers);
    var started :- ListRows(q.loopsStarted);
    var completed :- FeedbackLoopCompletedCount(q.loopsCompleted);
    var avg :- ReviewRatingAvg(q.ratingAvg);
    var team :- ListRows(q.teamStats);
    StartedAtLeastOnePerSubmission(started);
    RegisteredAtMostEnrolledEverywhere(enrolment);
    Ok(ExperienceStats(EnrolledCounts(enrolment, false), EnrolledCounts(enrolment, true),
                       ActiveCounts(active), StartedTotal(started), completed, avg,
                       OnTrackRatio(team)))
  }

  lemma RegisteredAtMostEnrolledEverywhere(rows: seq<EnrolmentRow>)
    ensures forall role: Role :: EnrolledSum(rows, role, true) <= EnrolledSum(rows, role, false)
  {
    forall role: Role
      ensures EnrolledSum(rows, role, true) <= EnrolledSum(rows, role, false)
    {
      RegisteredAtMostEnrolled(rows, role);
    }
  }

  /** What the cache holds under an experience's key. */
  datatype CacheEntry = CacheEntry(created: int, data: ExperienceStats)

  /** The key-value cache.  A key that is absent, or whose stored text does
      not decode to a record, is not in `entries`.  `writes` logs every
      write in order. */
  class Cache {
    var entries: map<string, CacheEntry>
    ghost var writes: seq<(string, CacheEntry)>

    constructor (initial: map<string, CacheEntry>)
      ensures entries == initial && writes == []
    {
      entries := initial;
      writes := [];
    }

    /** `readCache(key)`: the entry, or `None` (`null`) when there is none. */
    function Read(key: string): (e: Option<CacheEntry>)
      reads this
      ensures e.Some? <==> key in entries
      ensures e.Some? ==> e.value == entries[key]
    {
      if key in entries then Some(entries[key]) else None
    }

    /** `writeCache(key, entry)`: replaces whatever was under `key`. */
    method Write(key: string, entry: CacheEntry)
      modifies this
      ensures entries == old(entries)[key := entry]
      ensures writes == old(writes) + [(key, entry)]
    {
      entries := entries[key := entry];
      writes := writes + [(key, entry)];
    }
  }

  /** Whether the cache holds a record for `id` younger than `window`. */
  predicate IsFresh(entries: map<string, CacheEntry>, id: int, now: int, window: int): (b: bool)
    ensures b ==> CacheKey(id) in entries && entries[CacheKey(id)].created > now - window
    ensures window > 0 && CacheKey(id) in entries && entries[CacheKey(id)].created >= now ==> b
  {
    CacheKey(id) in entries && now - entries[CacheKey(id)].created < window
  }

  /** What one `experience` call replies and what it writes, if anything. */
  datatype Outcome = Outcome(reply: Result<Envelope<ExperienceStats>, Failure>, write: Option<CacheEntry>)

  /** The specification of `experience(id)` against a cache state. */
  function Lookup(entries: map<string, CacheEntry>, id: int, now: int, q: ExperienceQueries): Outcome {
    if IsFresh(entries, id, now, FreshWindow) then
      Outcome(Ok(Success(entries[CacheKey(id)].data)), None)
    else
      Recompute(now, q)
  }

  /** The stale path: the freshly computed record, stamped `now`, is both
      written and returned; a failure writes nothing. */
  function Recompute(now: int, q: ExperienceQueries): (o: Outcome)
    ensures o.write.Some? <==> o.reply.Ok?
    ensures o.reply.Err? <==> ComputeStats(q).Err?
    ensures ComputeStats(q).Ok? ==> o.write == Some(CacheEntry(now, ComputeStats(q).value))
    ensures ComputeStats(q).Ok? ==> o.reply == Ok(Success(ComputeStats(q).value))
    ensures ComputeStats(q).Err? ==> o.reply == Err(ComputeStats(q).error)
  {
    match ComputeStats(q)
    case Ok(stats) => Outcome(Ok(Success(stats)), Some(CacheEntry(now, stats)))
    case Err(e) => Outcome(Err(e), None)
  }

  /** The cache after an outcome's write, if it has one. */
  function Apply(entries: map<string, CacheEntry>, id: int, write: Option<CacheEntry>): map<string, CacheEntry> {
    if write.Some? then entries[CacheKey(id) := write.value] else entries
  }

  /** `experience(id)` */
  method Experience(id: int, now: int, q: ExperienceQueries, cache: Cache)
    returns (r: Result<Envelope<ExperienceStats>, Failure>)
    modifies cache
    ensures var o := Lookup(old(cache.entries), id, now, q);
      r == o.reply &&
      cache.entries == Apply(old(cache.entries), id, o.write) &&
      cache.writes == old(cache.writes) + (if o.write.Some? then [(CacheKey(id), o.write.value)] else [])
  {
    var key := CacheKey(id);
    var cached := cache.Read(key);
    if cached.Some? && now - cached.value.created < FreshWindow {
      return Ok(Success(cached.value.data));
    }
    ListRowsAreDriverRows(q.enrolment);
    ListRowsAreDriverRows(q.activeUsers);
    ListRowsAreDriverRows(q.loopsStarted);
    ListRowsAreDriverRows(q.teamStats);
    var enrolmentRows :- ListRows(q.enrolment);
    var enrolled, registered := GetEnrolmentCount(enrolmentRows);
    var activeRows :- ListRows(q.activeUsers);
    var active := GetActiveUserCount(activeRows);
    var startedRows :- ListRows(q.loopsStarted);
    var started := FeedbackLoopStartedCount(startedRows);
    var completed :- FeedbackLoopCompletedCount(q.loopsCompleted);
    var avg :- ReviewRatingAvg(q.ratingAvg);
    var teamRows :- ListRows(q.teamStats);
    var ratio := GetOnTrackRatio(teamRows);
    var stats := ExperienceStats(enrolled, registered, active, started, completed, avg, ratio);
    cache.Write(key, CacheEntry(now, stats));
    r := Ok(Success(stats));
  }

  // ---------------------------------------------------------------------
  // One experience

  /** A record younger than a minute is served as it is, and nothing is
      written. */
  lemma FreshRecordServed(entries: map<string, CacheEntry>, id: int, now: int, q: ExperienceQueries)
    requires CacheKey(id) in entries
    requires now - entries[CacheKey(id)].created < FreshWindow
    ensures Lookup(entries, id, now, q) == Outcome(Ok(Success(entries[CacheKey(id)].data)), None)
  {
  }

  /** A missing record, or one at least a minute old, is recomputed; a
      successful recompute is written once, stamped `now`, and returned. */
  lemma StaleRecordRecomputed(entries: map<string, CacheEntry>, id: int, now: int, q: ExperienceQueries)
    requires CacheKey(id) !in entries || now - entries[CacheKey(id)].created >= FreshWindow
    ensures var o := Lookup(entries, id, now, q);
      (ComputeStats(q).Ok? ==>
         o.reply == Ok(Success(ComputeStats(q).value)) &&
         o.write == Some(CacheEntry(now, ComputeStats(q).value))) &&
      (ComputeStats(q).Err? ==> o.reply == Err(ComputeStats(q).error) && o.write.None?)
  {
  }

  /** The minute is strict: 59999 ms after `created` still serves the
      record, 60000 ms after recomputes it. */
  lemma FreshnessBoundary(entries: map<string, CacheEntry>, id: int, q: ExperienceQueries)
    requires CacheKey(id) in entries
    ensures Lookup(entries, id, entries[CacheKey(id)].created + 59999, q) ==
      Outcome(Ok(Success(entries[CacheKey(id)].data)), None)
    ensures Lookup(entries, id, entries[CacheKey(id)].created + 60000, q).reply ==
      (match ComputeStats(q) case Ok(s) => Ok(Success(s)) case Err(e) => Err(e))
  {
  }

  /** Two calls: once a record was computed at `t`, a call up to a minute
      later serves the same record (whatever its queries would now give)
      and writes nothing. */
  lemma SecondCallServesFirstResult(entries: map<string, CacheEntry>, id: int, t: int, q: ExperienceQueries,
                                    t': int, q': ExperienceQueries)
    requires !IsFresh(entries, id, t, FreshWindow) && ComputeStats(q).Ok?
    requires t <= t' < t + FreshWindow
    ensures var first := Lookup(entries, id, t, q);
      var second := Lookup(Apply(entries, id, first.write), id, t', q');
      second.reply == first.reply && second.write.None?
  {
  }

  /** A rejected recompute leaves the cache as it was. */
  lemma FailureWritesNothing(entries: map<string, CacheEntry>, id: int, now: int, q: ExperienceQueries)
    ensures Lookup(entries, id, now, q).reply.Err? ==> Lookup(entries, id, now, q).write.None?
  {
  }

  // ---------------------------------------------------------------------
  // The sweep over all experiences

  /** A row of the experience listing. */
  datatype ExperienceRecord = ExperienceRecord(id: int, status: string)

  /** Whether the sweep refreshes this experience: it is not completed and
      its record is missing or at least an hour old. */
  predicate NeedsRefresh(e: ExperienceRecord, entries: map<string, CacheEntry>, now: int): (b: bool)
    ensures e.status == "completed" ==> !b
    ensures b ==> !IsFresh(entries, e.id, now, FreshWindow)
    ensures e.status != "completed" && CacheKey(e.id) !in entries ==> b
  {
    e.status != "completed" && !IsFresh(entries, e.id, now, RefreshWindow)
  }

  /** The ids the sweep launches `experience` for, in listing order. */
  function Selected(exps: seq<ExperienceRecord>, entries: map<string, CacheEntry>, now: int): seq<int> {
    if exps == [] then []
    else
      var last := exps[|exps| - 1];
      Selected(exps[..|exps| - 1], entries, now) + (if NeedsRefresh(last, entries, now) then [last.id] else [])
  }

  /** The cache, the write log and the first failure after running
      `experience` for some ids in turn. */
  datatype SweepState = SweepState(entries: map<string, CacheEntry>, log: seq<(string, CacheEntry)>,
                                   failure: Option<Failure>)

  /** One launched `experience` call: its write lands and its failure is
      kept when it is the first. */
  function SweepStep(s: SweepState, id: int, now: int, q: ExperienceQueries): SweepState {
    var o := Lookup(s.entries, id, now, q);
    SweepState(Apply(s.entries, id, o.write),
               s.log + (if o.write.Some? then [(CacheKey(id), o.write.value)] else []),
               if s.failure.None? && o.reply.Err? then Some(o.reply.error) else s.failure)
  }

  function Sweep(entries: map<string, CacheEntry>, ids: seq<int>, now: int,
                 queries: int -> ExperienceQueries): SweepState
  {
    if ids == [] then SweepState(entries, [], None)
    else
      var id := ids[|ids| - 1];
      SweepStep(Sweep(entries, ids[..|ids| - 1], now, queries), id, now, queries(id))
  }

  /** The first loop of `allExperiences()`: skip completed experiences and
      those with a record younger than an hour; collect the rest. */
  method ChooseRefreshes(records: seq<ExperienceRecord>, now: int, cache: Cache) returns (launched: seq<int>)
    ensures launched == Selected(records, cache.entries, now)
  {
    launched := [];
    for i := 0 to |records|
      invariant launched == Selected(records[..i], cache.entries, now)
    {
      assert records[..i + 1][..i] == records[..i];
      var exp := records[i];
      if exp.status == "completed" {
        continue;
      }
      var cached := cache.Read(CacheKey(exp.id));
      if cached.Some? && now - cached.value.created < RefreshWindow {
        continue;
      }
      launched := launched + [exp.id];
    }
    assert records[..|records|] == records;
  }

  /** `allExperiences()`: list the experiences; decide, from the cache as it
      is, which to refresh; then run `experience` for each of those.  The
      sweep fails with the first failure, but every launched call still
      runs to its end. */
  method AllExperiences(exps: Fetch<ExperienceRecord>, now: int, queries: int -> ExperienceQueries, cache: Cache)
    returns (r: Result<(), Failure>)
    modifies cache
    ensures exps.Err? ==> r == Err(exps.error) && cache.entries == old(cache.entries) && cache.writes == old(cache.writes)
    ensures exps.Ok? ==>
      var s := Sweep(old(cache.entries), Selected(exps.value, old(cache.entries), now), now, queries);
      cache.entries == s.entries && cache.writes == old(cache.writes) + s.log &&
      r == (if s.failure.Some? then Err(s.failure.value) else Ok(()))
  {
    ListRowsAreDriverRows(exps);
    var records :- ListRows(exps);
    var launched := ChooseRefreshes(records, now, cache);
    ghost var entries0, writes0 := cache.entries, cache.writes;
    var failure: Option<Failure> := None;
    for j := 0 to |launched|
      invariant var s := Sweep(entries0, launched[..j], now, queries);
        cache.entries == s.entries && cache.writes == writes0 + s.log && failure == s.failure
    {
      SweepPrefixStep(entries0, launched, j, now, queries);
      ghost var s := Sweep(entries0, launched[..j], now, queries);
      var res := Experience(launched[j], now, queries(launched[j]), cache);
      if failure.None? && res.Err? {
        failure := Some(res.error);
      }
    }
    assert launched[..|launched|] == launched;
    r := if failure.Some? then Err(failure.value) else Ok(());
  }

  /** The sweep launches exactly the experiences that are not completed and
      whose record is missing or at least an hour old. */
  lemma {:induction false} SelectedExactly(exps: seq<ExperienceRecord>, entries: map<string, CacheEntry>, now: int, id: int)
    ensures id in Selected(exps, entries, now) <==>
      exists i :: 0 <= i < |exps| && exps[i].id == id && NeedsRefresh(exps[i], entries, now)
  {
    if exps != [] {
      var init := exps[..|exps| - 1];
      SelectedExactly(init, entries, now, id);
      if id in Selected(exps, entries, now) && id !in Selected(init, entries, now) {
        assert exps[|exps| - 1].id == id && NeedsRefresh(exps[|exps| - 1], entries, now);
      }
      if exists i :: 0 <= i < |exps| && exps[i].id == id && NeedsRefresh(exps[i], entries, now) {
        var i :| 0 <= i < |exps| && exps[i].id == id && NeedsRefresh(exps[i], entries, now);
        if i < |init| {
          assert init[i] == exps[i];
        }
      }
    }
  }

  /** A completed experience is never refreshed. */
  lemma CompletedNeverRefreshed(exps: seq<ExperienceRecord>, entries: map<string, CacheEntry>, now: int, id: int)
    requires forall i :: 0 <= i < |exps| && exps[i].id == id ==> exps[i].status == "completed"
    ensures id !in Selected(exps, entries, now)
  {
    SelectedExactly(exps, entries, now, id);
  }

  /** A record the sweep finds stale is stale for `experience` too (an hour
      is longer than a minute), so every launched call recomputes. */
  lemma SelectedAreStale(exps: seq<ExperienceRecord>, entries: map<string, CacheEntry>, now: int, id: int)
    requires id in Selected(exps, entries, now)
    ensures !IsFresh(entries, id, now, FreshWindow)
  {
    SelectedExactly(exps, entries, now, id);
  }

  /** Ids pairwise distinct, as the primary key of the listing makes them. */
  predicate Distinct(ids: seq<int>) {
    forall i, j :: 0 <= i < j < |ids| ==> ids[i] != ids[j]
  }

  /** The sweep never touches a key that is not the key of a launched id. */
  lemma {:induction false} SweepLeavesOtherKeys(entries: map<string, CacheEntry>, ids: seq<int>, now: int,
                                                queries: int -> ExperienceQueries, key: string)
    requires forall x :: x in ids ==> CacheKey(x) != key
    ensures var s := Sweep(entries, ids, now, queries);
      (key in s.entries <==> key in entries) && (key in entries ==> s.entries[key] == entries[key])
  {
    if ids != [] {
      SweepLeavesOtherKeys(entries, ids[..|ids| - 1], now, queries, key);
    }
  }

  /** Over distinct ids whose records are all stale, each launched call
      takes the stale path. */
  lemma SweepRecomputesLast(entries: map<string, CacheEntry>, ids: seq<int>, now: int,
                            queries: int -> ExperienceQueries)
    requires ids != [] && Distinct(ids)
    requires forall x :: x in ids ==> !IsFresh(entries, x, now, FreshWindow)
    ensures var x := ids[|ids| - 1];
      Lookup(Sweep(entries, ids[..|ids| - 1], now, queries).entries, x, now, queries(x)) == Recompute(now, queries(x))
  {
    var init, x := ids[..|ids| - 1], ids[|ids| - 1];
    EarlierKeysDiffer(ids);
    SweepLeavesOtherKeys(entries, init, now, queries, CacheKey(x));
    assert x in ids;
  }

  /** No launched id before the last shares the last one's key. */
  lemma EarlierKeysDiffer(ids: seq<int>)
    requires ids != [] && Distinct(ids)
    ensures forall y :: y in ids[..|ids| - 1] ==> CacheKey(y) != CacheKey(ids[|ids| - 1])
  {
    var init, x := ids[..|ids| - 1], ids[|ids| - 1];
    forall y | y in init
      ensures CacheKey(y) != CacheKey(x)
    {
      var k :| 0 <= k < |init| && init[k] == y;
      assert ids[k] == y;
      CacheKeyInjective(y, x);
    }
  }

  /** Over distinct ids whose records are all stale, every launched id
      whose statistics compute has its key set to `{created: now, data}`,
      and every launched id whose statistics fail keeps its record. */
  lemma {:induction false} SweepWrites(entries: map<string, CacheEntry>, ids: seq<int>, now: int,
                                       queries: int -> ExperienceQueries, id: int)
    requires Distinct(ids) && id in ids
    requires forall x :: x in ids ==> !IsFresh(entries, x, now, FreshWindow)
    ensures var s := Sweep(entries, ids, now, queries);
      (ComputeStats(queries(id)).Ok? ==>
         CacheKey(id) in s.entries && s.entries[CacheKey(id)] == CacheEntry(now, ComputeStats(queries(id)).value)) &&
      (ComputeStats(queries(id)).Err? ==>
         (CacheKey(id) in s.entries <==> CacheKey(id) in entries) &&
         (CacheKey(id) in entries ==> s.entries[CacheKey(id)] == entries[CacheKey(id)]))
  {
    var init, x := ids[..|ids| - 1], ids[|ids| - 1];
    SweepRecomputesLast(entries, ids, now, queries);
    if id == x {
      EarlierKeysDiffer(ids);
      SweepLeavesOtherKeys(entries, init, now, queries, CacheKey(x));
    } else {
      assert id in init;
      assert Distinct(init);
      SweepWrites(entries, init, now, queries, id);
      CacheKeyInjective(id, x);
    }
  }

  /** Over distinct ids whose records are all stale, the sweep fails
      exactly when some launched id's statistics fail. */
  lemma {:induction false} SweepFails(entries: map<string, CacheEntry>, ids: seq<int>, now: int,
                                      queries: int -> ExperienceQueries)
    requires Distinct(ids)
    requires forall x :: x in ids ==> !IsFresh(entries, x, now, FreshWindow)
    ensures Sweep(entries, ids, now, queries).failure.Some? <==>
      exists i :: 0 <= i < |ids| && ComputeStats(queries(ids[i])).Err?
  {
    if ids != [] {
      var init, x := ids[..|ids| - 1], ids[|ids| - 1];
      assert Distinct(init);
      SweepFails(entries, init, now, queries);
      SweepFailureStep(entries, ids, now, queries);
      SomeFailsSnoc(ids, init, id => ComputeStats(queries(id)).Err?);
    }
  }

  /** One launched call more fails the sweep exactly when the sweep had
      failed already or that call's statistics fail. */
  lemma SweepFailureStep(entries: map<string, CacheEntry>, ids: seq<int>, now: int,
                         queries: int -> ExperienceQueries)
    requires ids != [] && Distinct(ids)
    requires forall x :: x in ids ==> !IsFresh(entries, x, now, FreshWindow)
    ensures Sweep(entries, ids, now, queries).failure.Some? <==>
      Sweep(entries, ids[..|ids| - 1], now, queries).failure.Some? || ComputeStats(queries(ids[|ids| - 1])).Err?
  {
    SweepRecomputesLast(entries, ids, now, queries);
  }

  lemma SomeFailsSnoc(ids: seq<int>, init: seq<int>, fails: int -> bool)
    requires ids != [] && init == ids[..|ids| - 1]
    ensures (exists i :: 0 <= i < |ids| && fails(ids[i])) <==>
      (exists i :: 0 <= i < |init| && fails(init[i])) || fails(ids[|ids| - 1])
  {
    if exists i :: 0 <= i < |ids| && fails(ids[i]) {
      var i :| 0 <= i < |ids| && fails(ids[i]);
      if i < |init| {
        assert init[i] == ids[i];
      }
    }
    if exists i :: 0 <= i < |init| && fails(init[i]) {
      var i :| 0 <= i < |init| && fails(init[i]);
      assert ids[i] == init[i];
    }
  }

  /** Listing ids are distinct (they are the table's primary key). */
  predicate DistinctRecords(exps: seq<ExperienceRecord>) {
    forall i, j :: 0 <= i < j < |exps| ==> exps[i].id != exps[j].id
  }

  /** Distinct experiences give distinct launches. */
  lemma {:induction false} SelectedDistinct(exps: seq<ExperienceRecord>, entries: map<string, CacheEntry>, now: int)
    requires DistinctRecords(exps)
    ensures Distinct(Selected(exps, entries, now))
  {
    if exps != [] {
      var init, last := exps[..|exps| - 1], exps[|exps| - 1];
      assert DistinctRecords(init);
      SelectedDistinct(init, entries, now);
      assert forall k :: 0 <= k < |init| ==> init[k].id != last.id;
      SelectedExactly(init, entries, now, last.id);
    }
  }

  /** What a whole sweep does to one listed experience: if it needs a
      refresh and its statistics compute, its key now holds them stamped
      `now`; if it needs none, its key is untouched. */
  lemma SweepRefreshes(exps: seq<ExperienceRecord>, entries: map<string, CacheEntry>, now: int,
                       queries: int -> ExperienceQueries, i: nat)
    requires DistinctRecords(exps) && i < |exps|
    ensures var s := Sweep(entries, Selected(exps, entries, now), now, queries);
      var e := exps[i];
      (NeedsRefresh(e, entries, now) && ComputeStats(queries(e.id)).Ok? ==>
         CacheKey(e.id) in s.entries && s.entries[CacheKey(e.id)] == CacheEntry(now, ComputeStats(queries(e.id)).value)) &&
      (!NeedsRefresh(e, entries, now) ==>
         (CacheKey(e.id) in s.entries <==> CacheKey(e.id) in entries) &&
         (CacheKey(e.id) in entries ==> s.entries[CacheKey(e.id)] == entries[CacheKey(e.id)]))
  {
    var ids := Selected(exps, entries, now);
    var e := exps[i];
    SelectedDistinct(exps, entries, now);
    forall x | x in ids
      ensures !IsFresh(entries, x, now, FreshWindow)
    {
      SelectedAreStale(exps, entries, now, x);
    }
    SelectedExactly(exps, entries, now, e.id);
    if NeedsRefresh(e, entries, now) {
      SweepWrites(entries, ids, now, queries, e.id);
    } else {
      forall x | x in ids
        ensures CacheKey(x) != CacheKey(e.id)
      {
        SelectedExactly(exps, entries, now, x);
        CacheKeyInjective(x, e.id);
      }
      SweepLeavesOtherKeys(entries, ids, now, queries, CacheKey(e.id));
    }
  }

  /** The test listing, a live experience 1 and a completed experience 2,
      with nothing cached: only experience 1 is refreshed. */
  lemma ExampleListingSelection(now: int)
    ensures Selected([ExperienceRecord(1, "live"), ExperienceRecord(2, "completed")], map[], now) == [1]
  {
    var exps := [ExperienceRecord(1, "live"), ExperienceRecord(2, "completed")];
    var empty: map<string, CacheEntry> := map[];
    assert exps[..1][..0] == [];
    assert exps[..1] == [ExperienceRecord(1, "live")];
    assert Selected(exps[..1][..0], empty, now) == [];
    assert NeedsRefresh(exps[0], empty, now);
    assert Selected(exps[..1], empty, now) == [1];
    assert !NeedsRefresh(exps[1], empty, now);
    assert Selected(exps, empty, now) == Selected(exps[..1], empty, now) + [];
  }

  lemma SweepPrefixStep(entries: map<string, CacheEntry>, ids: seq<int>, j: nat, now: int,
                        queries: int -> ExperienceQueries)
    requires j < |ids|
    ensures Sweep(entries, ids[..j + 1], now, queries) ==
      SweepStep(Sweep(entries, ids[..j], now, queries), ids[j], now, queries(ids[j]))
  {
    assert ids[..j + 1][..j] == ids[..j];
  }
}
