/** The post-processing src/data-sources/db.ts applies around its SQL:
    the shaping of every result set by `query`, the fold that counts
    started feedback loops, and the single-row reads of the completed-loop
    count and the average review rating.  The SQL itself is opaque: a
    query is represented by what the database driver resolves with (its
    rows) or rejects with. */
module Db {
  import opened Wrappers

  /** Why a step rejected. */
  datatype Failure =
    | QueryError(message: string)  // the database rejected the query; `query` rethrows it
    | MissingRow                   // a field was read off the `null` that an empty single-row result gives
    | MetaSyntaxError              // `JSON.parse` rejected an experience's `meta` text
    | MetaNotAnObject              // `meta` decoded to `null` or a primitive, which takes no property

  /** What the driver gives back for one query. */
  type Fetch<R> = Result<seq<R>, Failure>

  /** What `query` resolves with. */
  datatype Shaped<R> = Null | First(row: R) | Rows(rows: seq<R>)

  /** `query(sql, params, returnTheFirst)`: an empty result set becomes
      `null` or `[]`, a non-empty one its first row or all its rows; a
      database error is rethrown unchanged. */
  function Query<R>(fetched: Fetch<R>, returnTheFirst: bool): (r: Result<Shaped<R>, Failure>)
    ensures fetched.Err? ==> r == Err(fetched.error)
    ensures fetched.Ok? && returnTheFirst ==>
      r == Ok(if fetched.value == [] then Null else First(fetched.value[0]))
    ensures fetched.Ok? && !returnTheFirst ==> r == Ok(Rows(fetched.value))
  {
    match fetched
    case Err(e) => Err(e)
    case Ok(rows) =>
      if |rows| == 0 then Ok(if returnTheFirst then Null else Rows([]))
      else Ok(if returnTheFirst then First(rows[0]) else Rows(rows))
  }

  /** The rows of a list query (`returnTheFirst` false): never `null`. */
  function ListRows<R>(fetched: Fetch<R>): Result<seq<R>, Failure> {
    var shaped :- Query(fetched, false);
    Ok(if shaped.Rows? then shaped.rows else [])
  }

  /** A list query hands its caller exactly the driver's rows, in order. */
  lemma ListRowsAreDriverRows<R>(fetched: Fetch<R>)
    ensures fetched.Ok? ==> ListRows(fetched) == Ok(fetched.value)
    ensures fetched.Err? ==> ListRows(fetched) == Err(fetched.error)
  {
  }

  // ---------------------------------------------------------------------
  // Feedback loops started

  /** One row of the started-loop query: the number of team members of a
      submission (0 for an individual submission) and the submission id. */
  datatype LoopStartedRow = LoopStartedRow(count: int, id: string)

  /** What one submission contributes: its team size, or 1 when that is
      not positive. */
  function LoopsOf(row: LoopStartedRow): int {
    if row.count > 0 then row.count else 1
  }

  /** The started-loop total, specified over the rows folded so far. */
  function StartedTotal(rows: seq<LoopStartedRow>): int {
    if rows == [] then 0
    else StartedTotal(rows[..|rows| - 1]) + LoopsOf(rows[|rows| - 1])
  }

  /** The `.then` of `getFeedbackLoopStartedCountQuery`: a running count
      that each row raises by its count if positive, else by 1. */
  method FeedbackLoopStartedCount(rows: seq<LoopStartedRow>) returns (count: int)
    ensures count == StartedTotal(rows)
    ensures count >= |rows|
    ensures rows == [] ==> count == 0
  {
    count := 0;
    for i := 0 to |rows|
      invariant count == StartedTotal(rows[..i])
    {
      assert rows[..i + 1][..i] == rows[..i];
      if rows[i].count > 0 {
        count := count + rows[i].count;
      } else {
        count := count + 1;
      }
    }
    assert rows[..|rows|] == rows;
    StartedAtLeastOnePerSubmission(rows);
  }

  /** Every submission counts as at least one started loop. */
  lemma {:induction false} StartedAtLeastOnePerSubmission(rows: seq<LoopStartedRow>)
    ensures StartedTotal(rows) >= |rows|
  {
    if rows != [] {
      StartedAtLeastOnePerSubmission(rows[..|rows| - 1]);
    }
  }

  // ---------------------------------------------------------------------
  // Single-row reads

  /** The row of the completed-loop query. */
  datatype CountRow = CountRow(count: int)

  /** `getFeedbackLoopCompletedCountQuery`: the `count` of the first row;
      reading it off the `null` of an empty result rejects. */
  function FeedbackLoopCompletedCount(fetched: Fetch<CountRow>): (r: Result<int, Failure>)
    ensures fetched.Err? ==> r == Err(fetched.error)
    ensures fetched.Ok? && fetched.value == [] ==> r == Err(MissingRow)
    ensures fetched.Ok? && fetched.value != [] ==> r == Ok(fetched.value[0].count)
  {
    var shaped :- Query(fetched, true);
    if shaped.First? then Ok(shaped.row.count) else Err(MissingRow)
  }

  /** The row of the rating query: SQL `avg` is `null` when nothing was rated. */
  datatype AvgRow = AvgRow(avg: Option<real>)

  /** `getReviewRatingAvgQuery`: the average of the first row, a `null`
      average read as 0; reading it off an empty result rejects. */
  function ReviewRatingAvg(fetched: Fetch<AvgRow>): (r: Result<real, Failure>)
    ensures fetched.Err? ==> r == Err(fetched.error)
    ensures fetched.Ok? && fetched.value == [] ==> r == Err(MissingRow)
    ensures fetched.Ok? && fetched.value != [] && fetched.value[0].avg.None? ==> r == Ok(0.0)
    ensures fetched.Ok? && fetched.value != [] && fetched.value[0].avg.Some? ==>
      r == Ok(fetched.value[0].avg.value)
  {
    var shaped :- Query(fetched, true);
    if shaped.First? then
      Ok(match shaped.row.avg case None => 0.0 case Some(a) => a)
    else Err(MissingRow)
  }
}
