/** The Lambda handler of src/index.ts: validate the event's `type` and
    `id`, reject a bad event with an error envelope, and otherwise hand
    over to `experience`, `allExperiences` or `dashboard`, returning what
    the callee returns. */
module Handler {
  import opened Wrappers
  import opened Utils
  import opened Json
  import opened Db
  import opened Experience
  import opened Dashboard
  import opened CacheKeys

  /** The invocation event.  `None` stands for a missing (`undefined`) or
      `null` property. */
  datatype Event = Event(kind: Option<string>, id: Option<int>)

  /** The JavaScript value of an optional property. */
  function OptionalString(o: Option<string>): Value {
    if o.None? then Undefined else Str(o.value)
  }

  function OptionalNumber(o: Option<int>): Value {
    if o.None? then Undefined else Num(o.value as real)
  }

  /** `!event.type`: missing or the empty string. */
  predicate TypeMissing(e: Event): (b: bool)
    ensures b <==> !Truthy(OptionalString(e.kind))
  {
    e.kind.None? || e.kind.value == ""
  }

  /** `!event.id`: missing or 0. */
  predicate IdMissing(e: Event): (b: bool)
    ensures b <==> !Truthy(OptionalNumber(e.id))
  {
    e.id.None? || e.id.value == 0
  }

  /** Where an event goes. */
  datatype Route =
    | Reject(message: string)
    | RunExperience(id: int)
    | RunAll
    | RunDashboard(id: int)

  const InvalidEvent: string := "invalid event"
  const IdMissingMessage: string := "experience id missing"
  const TypeNotFound: string := "event type not found"

  /** The validation and the `switch` of the handler. */
  function RouteEvent(e: Event): (r: Route)
    ensures r == Reject(InvalidEvent) <==> TypeMissing(e)
    ensures r == Reject(IdMissingMessage) <==>
      !TypeMissing(e) && (e.kind.value == "experience" || e.kind.value == "dashboard") && IdMissing(e)
    ensures r.RunExperience? <==> e.kind == Some("experience") && !IdMissing(e)
    ensures r.RunDashboard? <==> e.kind == Some("dashboard") && !IdMissing(e)
    ensures r.RunAll? <==> e.kind == Some("experience-all")
    ensures r.RunExperience? || r.RunDashboard? ==> e.id == Some(r.id) && r.id != 0
    ensures r == Reject(TypeNotFound) <==>
      !TypeMissing(e) && e.kind.value !in {"experience", "experience-all", "dashboard"}
  {
    if TypeMissing(e) then Reject(InvalidEvent)
    else
      match e.kind.value
      case "experience" => if IdMissing(e) then Reject(IdMissingMessage) else RunExperience(e.id.value)
      case "experience-all" => RunAll
      case "dashboard" => if IdMissing(e) then Reject(IdMissingMessage) else RunDashboard(e.id.value)
      case _ => Reject(TypeNotFound)
  }

  /** An id of 0 is as good as none, for either type that needs one. */
  lemma ZeroIdRejected(kind: string)
    requires kind == "experience" || kind == "dashboard"
    ensures RouteEvent(Event(Some(kind), Some(0))) == Reject(IdMissingMessage)
    ensures RouteEvent(Event(Some(kind), None)) == Reject(IdMissingMessage)
  {
  }

  /** `experience-all` runs whatever the id. */
  lemma AllExperiencesNeedsNoId(id: Option<int>)
    ensures RouteEvent(Event(Some("experience-all"), id)) == RunAll
  {
  }

  /** What the handler resolves with. */
  datatype Reply =
    | MessageReply(message: Envelope<string>)
    | ExperienceReply(experience: Envelope<ExperienceStats>)
    | DashboardReply(dashboard: Envelope<DashboardStats>)
    | NoValue  // `allExperiences` resolves with `undefined`

  /** Everything the handler's callees read: each experience's queries, the
      experience listing, each experience's dashboard queries and the
      `JSON.parse` of meta texts. */
  datatype Backend = Backend(
    experienceQueries: int -> ExperienceQueries,
    experiences: Fetch<ExperienceRecord>,
    dashboardQueries: int -> DashboardQueries,
    parseMeta: Value -> Option<Value>)

  /** The handler.  A rejected event changes nothing and resolves with an
      error envelope; otherwise the callee's result is passed on as it is,
      and only the callee's store changes. */
  method Handle(e: Event, now: int, backend: Backend, cache: Cache, table: ExperienceTable)
    returns (r: Result<Reply, Failure>)
    modifies cache, table
    ensures RouteEvent(e).Reject? ==>
      r == Ok(MessageReply(Error(RouteEvent(e).message))) &&
      cache.entries == old(cache.entries) && cache.writes == old(cache.writes) &&
      table.meta == old(table.meta) && table.saves == old(table.saves)
    ensures RouteEvent(e).RunExperience? ==>
      var id := RouteEvent(e).id;
      var o := Lookup(old(cache.entries), id, now, backend.experienceQueries(id));
      (o.reply.Ok? ==> r == Ok(ExperienceReply(o.reply.value))) &&
      (o.reply.Err? ==> r == Err(o.reply.error)) &&
      cache.entries == Apply(old(cache.entries), id, o.write) &&
      cache.writes == old(cache.writes) + (if o.write.Some? then [(CacheKey(id), o.write.value)] else []) &&
      table.meta == old(table.meta) && table.saves == old(table.saves)
    ensures RouteEvent(e).RunAll? && backend.experiences.Ok? ==>
      var s := Sweep(old(cache.entries), Selected(backend.experiences.value, old(cache.entries), now),
                     now, backend.experienceQueries);
      cache.entries == s.entries && cache.writes == old(cache.writes) + s.log &&
      r == (if s.failure.Some? then Err(s.failure.value) else Ok(NoValue)) &&
      table.meta == old(table.meta) && table.saves == old(table.saves)
    ensures RouteEvent(e).RunAll? && backend.experiences.Err? ==>
      r == Err(backend.experiences.error) &&
      cache.entries == old(cache.entries) && cache.writes == old(cache.writes) &&
      table.meta == old(table.meta) && table.saves == old(table.saves)
    ensures RouteEvent(e).RunDashboard? ==>
      var id := RouteEvent(e).id;
      var o := DashboardRun(backend.dashboardQueries(id), now, backend.parseMeta);
      (o.reply.Ok? ==> r == Ok(DashboardReply(Success(o.reply.value)))) &&
      (o.reply.Err? ==> r == Err(o.reply.error)) &&
      table.saves == old(table.saves) + (if o.save.Some? then [(id, o.save.value)] else []) &&
      table.meta == (if o.save.Some? && backend.dashboardQueries(id).saveFailure.None? && id in old(table.meta)
                     then old(table.meta)[id := o.save.value] else old(table.meta)) &&
      cache.entries == old(cache.entries) && cache.writes == old(cache.writes)
  {
    match RouteEvent(e) {
      case Reject(message) =>
        r := Ok(MessageReply(Error(message)));
      case RunExperience(id) =>
        var x := Experience.Experience(id, now, backend.experienceQueries(id), cache);
        r := if x.Ok? then Ok(ExperienceReply(x.value)) else Err(x.error);
      case RunAll =>
        var x := AllExperiences(backend.experiences, now, backend.experienceQueries, cache);
        r := if x.Ok? then Ok(NoValue) else Err(x.error);
      case RunDashboard(id) =>
        var x := Dashboard.Dashboard(id, now, backend.dashboardQueries(id), backend.parseMeta, table);
        r := if x.Ok? then Ok(DashboardReply(x.value)) else Err(x.error);
    }
  }
}
