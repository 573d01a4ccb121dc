/**
 * The two cached read endpoints of the task router: GET /tasks (list with
 * filters and pagination) and GET /tasks/stats/summary. Each request looks
 * its key up in its handler's cache, serves a fresh entry as is, and
 * otherwise queries the database, stores the result under the key with the
 * time read before the query, and serves it. Any exception becomes a 500
 * response and leaves the cache as it was.
 *
 * The database is an object whose answers are fixed functions of the query
 * it is sent, and which records the queries it receives; the clock is the
 * `now` parameter.
 */
module TaskRoutes {
  import opened JsValues
  import opened TaskModel
  import opened ListQuery
  import opened TtlCache

  /** A SQL text with the values bound to its placeholders. */
  datatype Query = Query(sql: string, params: seq<Param>)

  /** What an awaited database call gives: a value, or a rejection with its message. */
  datatype Fetch<+T> = Fetched(value: T) | Failed(error: string)

  /** The one row `database.get` returns for the stats query. */
  datatype StatsRow = StatsRow(total: int, completed: JsValue, pending: JsValue)

  /** The database the handlers talk to. */
  class Database {
    const answerAll: Query -> Fetch<seq<TaskData>>
    const answerGet: Query -> Fetch<StatsRow>
    /** The queries received so far, oldest first. */
    var log: seq<Query>

    constructor (answerAll: Query -> Fetch<seq<TaskData>>, answerGet: Query -> Fetch<StatsRow>)
      ensures this.answerAll == answerAll && this.answerGet == answerGet && log == []
    {
      this.answerAll := answerAll;
      this.answerGet := answerGet;
      log := [];
    }

    /** `await database.all(sql, params)` */
    method All(query: Query) returns (r: Fetch<seq<TaskData>>)
      modifies this
      ensures r == answerAll(query) && log == old(log) + [query]
    {
      r := answerAll(query);
      log := log + [query];
    }

    /** `await database.get(sql, params)` */
    method Get(query: Query) returns (r: Fetch<StatsRow>)
      modifies this
      ensures r == answerGet(query) && log == old(log) + [query]
    {
      r := answerGet(query);
      log := log + [query];
    }
  }

  /** The message of every 500 response of the router. */
  const ServerErrorMessage: string := "Erro interno do servidor"

  /** The JSON a handler sends: a success with its `cached` flag, or status 500 with its message. */
  datatype Response<+T> = Served(cached: bool, body: T) | ServerError(message: string)

  // ----- the cache protocol both handlers follow -----

  /** The response, the cache after the request, and the queries sent. */
  datatype Step<T> = Step(response: Response<T>, entries: map<string, Entry<T>>, queries: seq<Query>)

  /**
   * One request against a cache: a fresh entry is served with `cached: true`
   * and nothing else happens; otherwise `query` is sent, and its outcome is
   * either stored under `key` with timestamp `now` and served with
   * `cached: false`, or, when it throws, answered with a 500 and not stored.
   */
  function Serve<T>(entries: map<string, Entry<T>>, key: string, now: int, query: Query, computed: Outcome<T>): Step<T> {
    match Lookup(entries, key, now)
    case Some(data) => Step(Served(true, data), entries, [])
    case None =>
      match computed
      case Returned(result) => Step(Served(false, result), Store(entries, key, result, now), [query])
      case Threw(_) => Step(ServerError(ServerErrorMessage), entries, [query])
  }

  /**
   * A request is answered from the cache exactly when its key holds an entry
   * younger than 30 s; it then gets the stored data, sends no query, and the
   * cache is left as it was, expired entries included.
   */
  lemma ServeCachedIffFresh<T>(entries: map<string, Entry<T>>, key: string, now: int, query: Query, computed: Outcome<T>)
    ensures var s := Serve(entries, key, now, query, computed);
      (s.response.Served? && s.response.cached) <==> key in entries && now - entries[key].timestamp < Ttl
    ensures var s := Serve(entries, key, now, query, computed);
      s.response.Served? && s.response.cached ==>
        s.response.body == entries[key].data && s.entries == entries && s.queries == []
  {
  }

  /**
   * On a miss the query is sent once; the cache changes at most at `key`,
   * and only to the fresh result with the current time.
   */
  lemma ServeMiss<T>(entries: map<string, Entry<T>>, key: string, now: int, query: Query, computed: Outcome<T>)
    requires Lookup(entries, key, now) == None
    ensures var s := Serve(entries, key, now, query, computed);
      && s.queries == [query]
      && (forall k :: k != key ==> (k in s.entries <==> k in entries))
      && (forall k :: k != key && k in entries ==> s.entries[k] == entries[k])
    ensures computed.Returned? ==>
      Serve(entries, key, now, query, computed) ==
        Step(Served(false, computed.value), Store(entries, key, computed.value, now), [query])
  {
  }

  /** A request that throws answers 500 with the router's message and leaves the cache exactly as it was. */
  lemma ServeFailureKeepsCache<T>(entries: map<string, Entry<T>>, key: string, now: int, query: Query, error: string)
    ensures var s := Serve(entries, key, now, query, Threw(error));
      s.entries == entries && (s.response.ServerError? <==> Lookup(entries, key, now).None?)
    ensures var s := Serve(entries, key, now, query, Threw(error));
      s.response.ServerError? ==> s.response.message == ServerErrorMessage
  {
  }

  /** No request removes an entry, and no request changes an entry under another key. */
  lemma ServeNeverRemoves<T>(entries: map<string, Entry<T>>, key: string, now: int, query: Query, computed: Outcome<T>)
    ensures var s := Serve(entries, key, now, query, computed);
      && entries.Keys <= s.entries.Keys
      && (forall k :: k in entries && k != key ==> s.entries[k] == entries[k])
  {
  }

  /**
   * A result stored at `t1` is served again, unchanged and without a query,
   * to every request with the same key before `t1 + 30 s`; from then on the
   * next request with that key queries again.
   */
  lemma {:induction false} RepeatWithinTtl<T>(
    entries: map<string, Entry<T>>, key: string, t1: int, q1: Query, c1: Outcome<T>,
    t2: int, q2: Query, c2: Outcome<T>)
    requires Lookup(entries, key, t1) == None && c1.Returned?
    requires t1 <= t2
    ensures var s1 := Serve(entries, key, t1, q1, c1);
      var s2 := Serve(s1.entries, key, t2, q2, c2);
      t2 < t1 + Ttl ==> s2 == Step(Served(true, c1.value), s1.entries, [])
    ensures var s1 := Serve(entries, key, t1, q1, c1);
      var s2 := Serve(s1.entries, key, t2, q2, c2);
      t1 + Ttl <= t2 ==> s2.queries == [q2] && !(s2.response.Served? && s2.response.cached)
  {
    var s1 := Serve(entries, key, t1, q1, c1);
    ServeMiss(entries, key, t1, q1, c1);
    FreshExactlyBeforeTtl(entries, key, c1.value, t1, t2);
    assert Lookup(s1.entries, key, t2) == Lookup(Store(entries, key, c1.value, t1), key, t2);
  }

  // ----- GET /tasks -----

  /** The list body: `{ page, limit, count, data }`. */
  datatype ListResult = ListResult(page: JsNumber, limit: JsNumber, count: nat, data: seq<JsonObject>)

  /** `{ ...row, completed: row.completed === 1 }` */
  function FromRow(row: TaskData): TaskData {
    row.(completed := DecodeCompleted(row.completed))
  }

  /**
   * `rows.map(row => new Task(...))`: every row becomes a task in order,
   * and the first row whose constructor throws makes the whole map throw.
   */
  function RowsToTasks(rows: seq<TaskData>): (r: Outcome<seq<Task>>)
    ensures r.Returned? <==> forall i :: 0 <= i < |rows| ==> NewTask(FromRow(rows[i])).Returned?
    ensures r.Returned? ==>
      |r.value| == |rows| && forall i :: 0 <= i < |rows| ==> NewTask(FromRow(rows[i])) == Returned(r.value[i])
    ensures r.Threw? ==> r.error == TypeError
  {
    if rows == [] then Returned([])
    else
      match NewTask(FromRow(rows[0]))
      case Threw(e) => Threw(e)
      case Returned(t) =>
        match RowsToTasks(rows[1..])
        case Threw(e) => Threw(e)
        case Returned(ts) => Returned([t] + ts)
  }

  /** `{ page, limit, count: tasks.length, data: tasks.map(task => task.toJSON()) }` */
  function ListBody(paging: Paging, tasks: seq<Task>): (r: ListResult)
    ensures r.page == paging.page && r.limit == paging.limit
    ensures r.count == |tasks| == |r.data|
    ensures forall i :: 0 <= i < |tasks| ==> FromJson(r.data[i]) == Some(tasks[i])
  {
    forall i | 0 <= i < |tasks| ensures FromJson(ToJson(tasks[i])) == Some(tasks[i]) {
      ToJsonRoundTrip(tasks[i]);
    }
    ListResult(paging.page, paging.limit, |tasks|, seq(|tasks|, i requires 0 <= i < |tasks| => ToJson(tasks[i])))
  }

  /** What the list handler computes after a miss: the rows as a body, or the exception. */
  function ListOutcome(fetched: Fetch<seq<TaskData>>, paging: Paging): (r: Outcome<ListResult>)
    ensures r.Returned? <==> fetched.Fetched? && RowsToTasks(fetched.value).Returned?
    ensures r.Returned? ==> r.value.count == |fetched.value| && r.value.page == paging.page && r.value.limit == paging.limit
    ensures r.Returned? ==>
      |r.value.data| == |fetched.value| &&
      forall i :: 0 <= i < |fetched.value| ==> FromJson(r.value.data[i]) == Some(NewTask(FromRow(fetched.value[i])).value)
  {
    match fetched
    case Failed(e) => Threw(e)
    case Fetched(rows) =>
      match RowsToTasks(rows)
      case Threw(e) => Threw(e)
      case Returned(tasks) => Returned(ListBody(paging, tasks))
  }

  /** The query GET /tasks sends for a request. */
  function ListRequestQuery(userId: string, q: ListParams): Query {
    var fs := Filters(q);
    Query(SqlFor(Kinds(fs)), ParamsFor(userId, fs, Paginate(q)))
  }

  /** GET /tasks as a step of the list cache. */
  function ListStep(entries: map<string, Entry<ListResult>>, userId: string, q: ListParams, now: int,
                    answer: Query -> Fetch<seq<TaskData>>): Step<ListResult> {
    var query := ListRequestQuery(userId, q);
    Serve(entries, ListKey(userId, q), now, query, ListOutcome(answer(query), Paginate(q)))
  }

  /**
   * The handler of routes/tasks.js:19-101: derive page, limit and key, serve a fresh
   * cache entry, otherwise build and send the query, turn the rows into
   * tasks, store and send the body; any exception gives a 500.
   */
  method ListTasks(cache: Cache<ListResult>, db: Database, userId: string, q: ListParams, now: int)
    returns (response: Response<ListResult>)
    modifies cache, db
    ensures var s := ListStep(old(cache.entries), userId, q, now, db.answerAll);
      response == s.response && cache.entries == s.entries && db.log == old(db.log) + s.queries
  {
    var paging := Paginate(q);
    var key := ListKey(userId, q);
    var hit := cache.Get(key, now);
    if hit.Some? {
      return Served(true, hit.value);
    }
    var sql, params := BuildListQuery(userId, q, paging);
    var fetched := db.All(Query(sql, params));
    if fetched.Failed? {
      return ServerError(ServerErrorMessage);
    }
    var tasks := RowsToTasks(fetched.value);
    if tasks.Threw? {
      return ServerError(ServerErrorMessage);
    }
    var result := ListBody(paging, tasks.value);
    cache.Set(key, result, now);
    response := Served(false, result);
  }

  /**
   * Requests that differ only in category, tags or the date range share a
   * cache entry: within 30 s of a stored result, the second request gets the
   * first one's body, computed with the first one's filters, and sends no query.
   */
  lemma FilterChangeServedFromCache(
    entries: map<string, Entry<ListResult>>, userId: string, q1: ListParams, q2: ListParams,
    t1: int, t2: int, answer: Query -> Fetch<seq<TaskData>>)
    requires q1.page == q2.page && q1.limit == q2.limit
    requires q1.completed == q2.completed && q1.priority == q2.priority
    requires Lookup(entries, ListKey(userId, q1), t1) == None
    requires ListOutcome(answer(ListRequestQuery(userId, q1)), Paginate(q1)).Returned?
    requires t1 <= t2 < t1 + Ttl
    ensures var s1 := ListStep(entries, userId, q1, t1, answer);
      var s2 := ListStep(s1.entries, userId, q2, t2, answer);
      s1.response.Served? && s2 == Step(Served(true, s1.response.body), s1.entries, [])
  {
    ListKeyIgnoresOtherFilters(userId, q1, q2);
    var query1 := ListRequestQuery(userId, q1);
    var query2 := ListRequestQuery(userId, q2);
    RepeatWithinTtl(entries, ListKey(userId, q1), t1, query1, ListOutcome(answer(query1), Paginate(q1)),
                    t2, query2, ListOutcome(answer(query2), Paginate(q2)));
  }

  /** The list query binds the user id first, limit and offset last, one value per placeholder. */
  lemma ListQueryWellFormed(userId: string, q: ListParams)
    ensures var query := ListRequestQuery(userId, q);
      && Placeholders(query.sql) == |query.params|
      && query.params[0] == Text(userId)
      && query.params[|query.params| - 2..] == [Number(Paginate(q).limit), Number(Paginate(q).offset)]
  {
    SqlForPlaceholders(userId, Filters(q), Paginate(q));
  }

  // ----- GET /tasks/stats/summary -----

  /** `completionRate`: 0, or the text `((completed / total) * 100).toFixed(2)`, kept symbolic. */
  datatype Rate = RateZero | RatePercent(completed: JsValue, total: int)

  /** `{ ...stats, completionRate }` */
  datatype StatsResult = StatsResult(total: int, completed: JsValue, pending: JsValue, completionRate: Rate)

  /** `stats.total > 0 ? (...).toFixed(2) : 0` */
  function StatsOf(row: StatsRow): (r: StatsResult)
    ensures r.total == row.total && r.completed == row.completed && r.pending == row.pending
    ensures r.completionRate == RateZero <==> row.total <= 0
    ensures r.completionRate.RatePercent? ==> r.completionRate == RatePercent(row.completed, row.total)
  {
    StatsResult(row.total, row.completed, row.pending,
                if row.total > 0 then RatePercent(row.completed, row.total) else RateZero)
  }

  /** The count query of the stats handler, with its whitespace folded to single spaces. */
  const StatsSql: string :=
    "SELECT COUNT(*) as total, SUM(CASE WHEN completed = 1 THEN 1 ELSE 0 END) as completed, SUM(CASE WHEN completed = 0 THEN 1 ELSE 0 END) as pending FROM tasks WHERE userId = ?"

  function StatsQuery(userId: string): Query {
    Query(StatsSql, [Text(userId)])
  }

  function StatsOutcome(fetched: Fetch<StatsRow>): (r: Outcome<StatsResult>)
    ensures r.Returned? <==> fetched.Fetched?
    ensures r.Returned? ==> r.value == StatsOf(fetched.value)
  {
    match fetched
    case Failed(e) => Threw(e)
    case Fetched(row) => Returned(StatsOf(row))
  }

  /** GET /tasks/stats/summary as a step of the stats cache. */
  function StatsStep(entries: map<string, Entry<StatsResult>>, userId: string, now: int,
                     answer: Query -> Fetch<StatsRow>): Step<StatsResult> {
    var query := StatsQuery(userId);
    Serve(entries, StatsKey(userId), now, query, StatsOutcome(answer(query)))
  }

  /**
   * The handler of routes/tasks.js:289-338: serve a fresh entry of the stats
   * cache, otherwise run the count query, add the completion rate, store and
   * send the summary; any exception gives a 500.
   */
  method StatsSummary(cache: Cache<StatsResult>, db: Database, userId: string, now: int)
    returns (response: Response<StatsResult>)
    modifies cache, db
    ensures var s := StatsStep(old(cache.entries), userId, now, db.answerGet);
      response == s.response && cache.entries == s.entries && db.log == old(db.log) + s.queries
  {
    var key := StatsKey(userId);
    var hit := cache.Get(key, now);
    if hit.Some? {
      return Served(true, hit.value);
    }
    var fetched := db.Get(StatsQuery(userId));
    if fetched.Failed? {
      return ServerError(ServerErrorMessage);
    }
    var result := StatsOf(fetched.value);
    cache.Set(key, result, now);
    response := Served(false, result);
  }

  /** A freshly computed summary of a user with no tasks has completion rate 0. */
  lemma StatsEmptyRateZero(entries: map<string, Entry<StatsResult>>, userId: string, now: int,
                           answer: Query -> Fetch<StatsRow>)
    requires answer(StatsQuery(userId)).Fetched? && answer(StatsQuery(userId)).value.total == 0
    ensures var s := StatsStep(entries, userId, now, answer);
      s.response.Served? && !s.response.cached ==> s.response.body.completionRate == RateZero
  {
  }

  /** One user's summary request never changes what another user's request is served from the cache. */
  lemma StatsUsersIndependent(entries: map<string, Entry<StatsResult>>, u1: string, u2: string, now: int,
                              later: int, answer: Query -> Fetch<StatsRow>)
    requires u1 != u2
    ensures var s := StatsStep(entries, u1, now, answer);
      Lookup(s.entries, StatsKey(u2), later) == Lookup(entries, StatsKey(u2), later)
  {
    assert StatsKey(u1)[6..] == u1 && StatsKey(u2)[6..] == u2;
  }
}
