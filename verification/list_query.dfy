/**
 * What GET /tasks derives from its query string before touching the cache or
 * the database: the page, limit and offset, the cache keys, and the
 * parameterised SELECT with its bound values.
 */
module ListQuery {
  import opened JsValues
  import TaskModel

  /** The query string of GET /tasks: each parameter is absent or a string. */
  datatype ListParams = ListParams(
    page: Option<string>, limit: Option<string>,
    completed: Option<string>, priority: Option<string>,
    category: Option<string>, tags: Option<string>,
    startDate: Option<string>, endDate: Option<string>)

  // ----- pagination -----

  datatype Paging = Paging(page: JsNumber, limit: JsNumber, offset: JsNumber)

  const DefaultPage: int := 1
  const DefaultLimit: int := 10

  /**
   * `page` and `limit` are parsed with `parseInt` when given (non-empty) and
   * default to 1 and 10 otherwise; a value that does not parse stays NaN.
   * `offset = (page - 1) * limit`.
   */
  function Paginate(q: ListParams): (p: Paging)
    ensures p.page == (if TruthyText(q.page) then ParseInt(q.page.value) else Finite(DefaultPage))
    ensures p.limit == (if TruthyText(q.limit) then ParseInt(q.limit.value) else Finite(DefaultLimit))
    ensures p.offset.Finite? <==> p.page.Finite? && p.limit.Finite?
    ensures p.offset.Finite? ==> p.offset.n == (p.page.n - 1) * p.limit.n
    ensures p.page.Finite? && p.page.n >= 1 && p.limit.Finite? && p.limit.n >= 0 ==> p.offset.n >= 0
  {
    var page := if TruthyText(q.page) then ParseInt(q.page.value) else Finite(DefaultPage);
    var limit := if TruthyText(q.limit) then ParseInt(q.limit.value) else Finite(DefaultLimit);
    var pageIndex := Sub(page, Finite(1));
    assert pageIndex.Finite? && page.n >= 1 ==> pageIndex.n >= 0;
    Paging(page, limit, Mul(pageIndex, limit))
  }

  /** A page and a limit written as decimal integers are read as those integers. */
  lemma PaginateDecimal(q: ListParams, page: int, limit: int)
    requires q.page == Some(IntToString(page)) && q.limit == Some(IntToString(limit))
    ensures Paginate(q) == Paging(Finite(page), Finite(limit), Finite((page - 1) * limit))
  {
    ParseIntRoundTrip(page);
    ParseIntRoundTrip(limit);
  }

  /** A page that is not a number gives NaN for the page and the offset; there is no fallback. */
  lemma PaginateNonNumericPage(q: ListParams)
    requires q.page.Some? && |q.page.value| > 0
    requires var c := q.page.value[0]; !IsJsSpace(c) && c != '+' && c != '-' && !IsDecimalDigit(c)
    ensures Paginate(q).page == NaN && Paginate(q).offset == NaN
  {
    ParseIntNonNumeric(q.page.value);
  }

  // ----- cache keys -----

  /** `value || 'all'` for a query parameter. */
  function OrAll(o: Option<string>): string {
    if TruthyText(o) then o.value else "all"
  }

  /** Two key segments separated by ':'. */
  function Colon(a: string, b: string): string {
    a + ":" + b
  }

  /** `tasks:<userId>:<page>:<limit>:<completed || 'all'>:<priority || 'all'>` */
  function ListKey(userId: string, q: ListParams): string {
    var p := Paginate(q);
    "tasks:" + Colon(userId, Colon(NumberToString(p.page),
      Colon(NumberToString(p.limit), Colon(OrAll(q.completed), OrAll(q.priority)))))
  }

  /** `stats:<userId>` */
  function StatsKey(userId: string): string {
    "stats:" + userId
  }

  /**
   * The list key reads only the user, page, limit, completed and priority:
   * requests that differ in category, tags or dates share one key.
   */
  lemma ListKeyIgnoresOtherFilters(userId: string, q1: ListParams, q2: ListParams)
    requires q1.page == q2.page && q1.limit == q2.limit
    requires q1.completed == q2.completed && q1.priority == q2.priority
    ensures ListKey(userId, q1) == ListKey(userId, q2)
  {
  }

  /** An absent, an empty and a literal 'all' completed or priority share one key. */
  lemma ListKeyAllSentinel(userId: string, q: ListParams)
    ensures ListKey(userId, q.(completed := None)) == ListKey(userId, q.(completed := Some("")))
    ensures ListKey(userId, q.(completed := None)) == ListKey(userId, q.(completed := Some("all")))
    ensures ListKey(userId, q.(priority := None)) == ListKey(userId, q.(priority := Some("")))
    ensures ListKey(userId, q.(priority := None)) == ListKey(userId, q.(priority := Some("all")))
  {
  }

  /**
   * The key sentinel hides a difference in the query: an absent completed adds
   * no predicate while 'all' adds `completed = 0`, yet both share one key.
   */
  lemma AllCompletedAddsPredicate(userId: string, q: ListParams)
    ensures ListKey(userId, q.(completed := Some("all"))) == ListKey(userId, q.(completed := None))
    ensures Filters(q.(completed := Some("all"))) == [CompletedIs(0)] + Filters(q.(completed := None))
  {
    ListKeyAllSentinel(userId, q);
    AllCompletedFilters(q);
  }

  lemma AllCompletedFilters(q: ListParams)
    ensures Filters(q.(completed := Some("all"))) == [CompletedIs(0)] + Filters(q.(completed := None))
  {
    var all, none := q.(completed := Some("all")), q.(completed := None);
    FiltersInParts(all);
    FiltersInParts(none);
    assert CompletedPart(all) == [CompletedIs(0)] && CompletedPart(none) == [];
  }

  /** Likewise an absent priority adds no predicate while 'all' adds `priority = 'all'`. */
  lemma AllPriorityAddsPredicate(userId: string, q: ListParams)
    ensures ListKey(userId, q.(priority := Some("all"))) == ListKey(userId, q.(priority := None))
    ensures PriorityIs("all") in Filters(q.(priority := Some("all")))
    ensures forall p :: PriorityIs(p) !in Filters(q.(priority := None))
  {
    ListKeyAllSentinel(userId, q);
    AllPriorityFilters(q);
  }

  lemma AllPriorityFilters(q: ListParams)
    ensures PriorityIs("all") in Filters(q.(priority := Some("all")))
    ensures forall p :: PriorityIs(p) !in Filters(q.(priority := None))
  {
    FiltersPriority(q.(priority := Some("all")), "all");
    forall p ensures PriorityIs(p) !in Filters(q.(priority := None)) {
      FiltersPriority(q.(priority := None), p);
    }
  }

  /**
   * A ':' inside completed shifts the segment boundary: `completed=a:b` with
   * `priority=c` and `completed=a` with `priority=b:c` share one key, yet
   * filter on different priorities.
   */
  lemma ColonInCompletedCollides(userId: string, q: ListParams)
    ensures var q1 := q.(completed := Some("a:b"), priority := Some("c"));
      var q2 := q.(completed := Some("a"), priority := Some("b:c"));
      && ListKey(userId, q1) == ListKey(userId, q2)
      && PriorityIs("c") in Filters(q1) && PriorityIs("c") !in Filters(q2)
  {
    var q1 := q.(completed := Some("a:b"), priority := Some("c"));
    var q2 := q.(completed := Some("a"), priority := Some("b:c"));
    assert Colon(OrAll(q1.completed), OrAll(q1.priority)) == Colon(OrAll(q2.completed), OrAll(q2.priority));
    FiltersPriority(q1, "c");
    FiltersPriority(q2, "c");
  }

  /** Two texts joined by ':' come apart again when the first has no ':'. */
  lemma SplitAtColon(a1: string, b1: string, a2: string, b2: string)
    requires ':' !in a1 && ':' !in a2
    requires Colon(a1, b1) == Colon(a2, b2)
    ensures a1 == a2 && b1 == b2
  {
    var s := a1 + ":" + b1;
    assert forall i :: 0 <= i < |a1| ==> s[i] == a1[i];
    assert forall i :: 0 <= i < |a2| ==> s[i] == a2[i];
    assert s[|a1|] == ':' && s[|a2|] == ':';
    assert |a1| == |a2|;
    assert a1 == s[..|a1|] == a2;
    assert b1 == s[|a1| + 1..] == b2;
  }

  /**
   * When the user id and the completed value contain no ':', distinct
   * (user, page, limit, completed-or-all, priority-or-all) give distinct keys.
   */
  lemma ListKeyInjective(u1: string, q1: ListParams, u2: string, q2: ListParams)
    requires ':' !in u1 && ':' !in u2
    requires ':' !in OrAll(q1.completed) && ':' !in OrAll(q2.completed)
    requires ListKey(u1, q1) == ListKey(u2, q2)
    ensures u1 == u2
    ensures Paginate(q1).page == Paginate(q2).page && Paginate(q1).limit == Paginate(q2).limit
    ensures OrAll(q1.completed) == OrAll(q2.completed) && OrAll(q1.priority) == OrAll(q2.priority)
  {
    var p1, p2 := Paginate(q1), Paginate(q2);
    var page1, page2 := NumberToString(p1.page), NumberToString(p2.page);
    var limit1, limit2 := NumberToString(p1.limit), NumberToString(p2.limit);
    NumberToStringNoColon(p1.page); NumberToStringNoColon(p2.page);
    NumberToStringNoColon(p1.limit); NumberToStringNoColon(p2.limit);
    var c1, c2 := OrAll(q1.completed), OrAll(q2.completed);
    var r1, r2 := OrAll(q1.priority), OrAll(q2.priority);
    var t1, t2 := Colon(c1, r1), Colon(c2, r2);
    var l1, l2 := Colon(limit1, t1), Colon(limit2, t2);
    var g1, g2 := Colon(page1, l1), Colon(page2, l2);
    var k1, k2 := Colon(u1, g1), Colon(u2, g2);
    assert k1 == ListKey(u1, q1)[6..] == k2;
    SplitAtColon(u1, g1, u2, g2);
    SplitAtColon(page1, l1, page2, l2);
    NumberToStringInjective(p1.page, p2.page);
    SplitAtColon(limit1, t1, limit2, t2);
    NumberToStringInjective(p1.limit, p2.limit);
    SplitAtColon(c1, r1, c2, r2);
  }

  /** Each user has a stats key of their own. */
  lemma StatsKeyInjective(u1: string, u2: string)
    requires StatsKey(u1) == StatsKey(u2)
    ensures u1 == u2
  {
    assert u1 == StatsKey(u1)[6..];
  }

  // ----- the filter predicates -----

  /** One `AND` predicate of the list query, with the values it binds. */
  datatype Filter =
    | CompletedIs(flag: int)
    | PriorityIs(priority: string)
    | CategoryLike(pattern: string)
    | TagsLike(pattern: string)
    | DueBetween(start: string, end: string)

  datatype FilterKind = CompletedKind | PriorityKind | CategoryKind | TagsKind | DueRangeKind

  function KindOf(f: Filter): FilterKind {
    match f
    case CompletedIs(_) => CompletedKind
    case PriorityIs(_) => PriorityKind
    case CategoryLike(_) => CategoryKind
    case TagsLike(_) => TagsKind
    case DueBetween(_, _) => DueRangeKind
  }

  /** The position of a predicate kind in the fixed emission order. */
  function Rank(k: FilterKind): nat {
    match k
    case CompletedKind => 0
    case PriorityKind => 1
    case CategoryKind => 2
    case TagsKind => 3
    case DueRangeKind => 4
  }

  /** `completed === 'true' ? 1 : 0` */
  function CompletedFlag(completed: string): int {
    if completed == "true" then 1 else 0
  }

  /**
   * The predicates GET /tasks adds after `userId = ?`, in emission order:
   * completed whenever the parameter is present, priority, category and
   * tags when non-empty, and the due-date range only when both ends are.
   */
  function Filters(q: ListParams): seq<Filter>
  {
    (if q.completed.Some? then [CompletedIs(CompletedFlag(q.completed.value))] else [])
    + (if TruthyText(q.priority) then [PriorityIs(q.priority.value)] else [])
    + (if TruthyText(q.category) then [CategoryLike("%" + Trim(q.category.value) + "%")] else [])
    + (if TruthyText(q.tags) then [TagsLike("%" + q.tags.value + "%")] else [])
    + (if TruthyText(q.startDate) && TruthyText(q.endDate)
       then [DueBetween(q.startDate.value, q.endDate.value)] else [])
  }

  lemma FiltersInParts(q: ListParams)
    ensures Filters(q) == CompletedPart(q) + PriorityPart(q) + CategoryPart(q) + TagsPart(q) + DueRangePart(q)
  {
  }

  function CompletedPart(q: ListParams): seq<Filter> {
    if q.completed.Some? then [CompletedIs(CompletedFlag(q.completed.value))] else []
  }

  function PriorityPart(q: ListParams): seq<Filter> {
    if TruthyText(q.priority) then [PriorityIs(q.priority.value)] else []
  }

  function CategoryPart(q: ListParams): seq<Filter> {
    if TruthyText(q.category) then [CategoryLike("%" + Trim(q.category.value) + "%")] else []
  }

  function TagsPart(q: ListParams): seq<Filter> {
    if TruthyText(q.tags) then [TagsLike("%" + q.tags.value + "%")] else []
  }

  function DueRangePart(q: ListParams): seq<Filter> {
    if TruthyText(q.startDate) && TruthyText(q.endDate)
    then [DueBetween(q.startDate.value, q.endDate.value)] else []
  }

  /** The kinds of predicate a request asks for: which filters are present. */
  function Shape(q: ListParams): seq<FilterKind> {
    (if q.completed.Some? then [CompletedKind] else [])
    + (if TruthyText(q.priority) then [PriorityKind] else [])
    + (if TruthyText(q.category) then [CategoryKind] else [])
    + (if TruthyText(q.tags) then [TagsKind] else [])
    + (if TruthyText(q.startDate) && TruthyText(q.endDate) then [DueRangeKind] else [])
  }

  /** Kinds in strictly increasing rank: the fixed order, each kind at most once. */
  predicate Ordered(ks: seq<FilterKind>) {
    forall i, j :: 0 <= i < j < |ks| ==> Rank(ks[i]) < Rank(ks[j])
  }

  predicate RankedBelow(ks: seq<FilterKind>, n: nat) {
    forall k :: k in ks ==> Rank(k) < n
  }

  /** Appending nothing, or one kind of rank `n`, to ordered kinds all below `n`. */
  lemma OrderedAppend(ks: seq<FilterKind>, more: seq<FilterKind>, n: nat)
    requires Ordered(ks) && RankedBelow(ks, n)
    requires more == [] || (|more| == 1 && Rank(more[0]) == n)
    ensures Ordered(ks + more) && RankedBelow(ks + more, n + 1)
  {
    if more == [] {
      assert ks + more == ks;
    }
  }

  lemma OrderedPieces(c: seq<FilterKind>, p: seq<FilterKind>, ca: seq<FilterKind>, t: seq<FilterKind>, d: seq<FilterKind>)
    requires c == [] || c == [CompletedKind]
    requires p == [] || p == [PriorityKind]
    requires ca == [] || ca == [CategoryKind]
    requires t == [] || t == [TagsKind]
    requires d == [] || d == [DueRangeKind]
    ensures Ordered(c + p + ca + t + d)
  {
    OrderedAppend([], c, 0);
    assert [] + c == c;
    OrderedAppend(c, p, 1);
    OrderedAppend(c + p, ca, 2);
    OrderedAppend(c + p + ca, t, 3);
    OrderedAppend(c + p + ca + t, d, 4);
  }

  lemma ShapeOrdered(q: ListParams)
    ensures Ordered(Shape(q))
  {
    OrderedPieces(
      if q.completed.Some? then [CompletedKind] else [],
      if TruthyText(q.priority) then [PriorityKind] else [],
      if TruthyText(q.category) then [CategoryKind] else [],
      if TruthyText(q.tags) then [TagsKind] else [],
      if TruthyText(q.startDate) && TruthyText(q.endDate) then [DueRangeKind] else []);
  }

  /** The predicates come in the fixed order, each kind at most once. */
  lemma FiltersOrdered(q: ListParams)
    ensures var fs := Filters(q);
      forall i, j :: 0 <= i < j < |fs| ==> Rank(KindOf(fs[i])) < Rank(KindOf(fs[j]))
  {
    KindsOfFilters(q);
    ShapeOrdered(q);
  }

  /** completed: present whenever the parameter is, with value 1 exactly for 'true'. */
  lemma FiltersCompleted(q: ListParams, flag: int)
    ensures CompletedIs(flag) in Filters(q) <==> q.completed.Some? && flag == CompletedFlag(q.completed.value)
  {
  }

  /** priority: present when non-empty, compared for equality. */
  lemma FiltersPriority(q: ListParams, p: string)
    ensures PriorityIs(p) in Filters(q) <==> TruthyText(q.priority) && p == q.priority.value
  {
  }

  /** category: present when non-empty, matched against `%<trimmed>%`. */
  lemma FiltersCategory(q: ListParams, pattern: string)
    ensures CategoryLike(pattern) in Filters(q) <==>
      TruthyText(q.category) && pattern == "%" + Trim(q.category.value) + "%"
  {
  }

  /** tags: present when non-empty, matched against `%<untrimmed>%`. */
  lemma FiltersTags(q: ListParams, pattern: string)
    ensures TagsLike(pattern) in Filters(q) <==> TruthyText(q.tags) && pattern == "%" + q.tags.value + "%"
  {
  }

  /** due date: a BETWEEN range exactly when both ends are non-empty. */
  lemma FiltersDueRange(q: ListParams, start: string, end: string)
    ensures DueBetween(start, end) in Filters(q) <==>
      TruthyText(q.startDate) && TruthyText(q.endDate) && start == q.startDate.value && end == q.endDate.value
  {
  }

  /** A date range with one end missing adds nothing at all. */
  lemma HalfDateRangeIgnored(q: ListParams)
    requires !(TruthyText(q.startDate) && TruthyText(q.endDate))
    ensures Filters(q) == Filters(q.(startDate := None, endDate := None))
  {
  }

  // ----- the SQL text and its parameters -----

  /** A value bound to one `?` placeholder. */
  datatype Param = Text(text: string) | Number(num: JsNumber)

  /** The `?` placeholder of a prepared statement. */
  const Mark: string := "?"

  const SelectSql: string := "SELECT * FROM tasks WHERE userId = " + Mark
  const PageSql: string := " ORDER BY createdAt DESC LIMIT " + Mark + " OFFSET " + Mark

  /** The fixed clause text of each kind of predicate. */
  function Template(k: FilterKind): string {
    match k
    case CompletedKind => " AND completed = " + Mark
    case PriorityKind => " AND priority = " + Mark
    case CategoryKind => " AND category LIKE " + Mark
    case TagsKind => " AND tags LIKE " + Mark
    case DueRangeKind => " AND dueDate BETWEEN " + Mark + " AND " + Mark
  }

  /** The values a predicate binds, in placeholder order. */
  function Bindings(f: Filter): seq<Param> {
    match f
    case CompletedIs(flag) => [Number(Finite(flag))]
    case PriorityIs(p) => [Text(p)]
    case CategoryLike(pat) => [Text(pat)]
    case TagsLike(pat) => [Text(pat)]
    case DueBetween(a, b) => [Text(a), Text(b)]
  }

  function Kinds(fs: seq<Filter>): (ks: seq<FilterKind>)
    ensures |ks| == |fs| && forall i :: 0 <= i < |fs| ==> ks[i] == KindOf(fs[i])
  {
    seq(|fs|, i requires 0 <= i < |fs| => KindOf(fs[i]))
  }

  lemma KindsAppend(a: seq<Filter>, b: seq<Filter>)
    ensures Kinds(a + b) == Kinds(a) + Kinds(b)
  {
  }

  function Templates(ks: seq<FilterKind>): string {
    if ks == [] then "" else Templates(ks[..|ks| - 1]) + Template(ks[|ks| - 1])
  }

  function BoundValues(fs: seq<Filter>): seq<Param> {
    if fs == [] then [] else BoundValues(fs[..|fs| - 1]) + Bindings(fs[|fs| - 1])
  }

  /** The SQL text for a sequence of predicate kinds. */
  function SqlFor(ks: seq<FilterKind>): string {
    SelectSql + Templates(ks) + PageSql
  }

  /** The bound values: the user id, each predicate's values, then limit and offset. */
  function ParamsFor(userId: string, fs: seq<Filter>, paging: Paging): seq<Param> {
    [Text(userId)] + BoundValues(fs) + [Number(paging.limit), Number(paging.offset)]
  }

  /** The number of `?` placeholders in a text. */
  function Placeholders(s: string): nat {
    if s == "" then 0 else (if s[0] == Mark[0] then 1 else 0) + Placeholders(s[1..])
  }

  lemma {:induction false} PlaceholdersAppend(a: string, b: string)
    ensures Placeholders(a + b) == Placeholders(a) + Placeholders(b)
  {
    if a == "" {
      assert a + b == b;
    } else {
      assert (a + b)[1..] == a[1..] + b;
      PlaceholdersAppend(a[1..], b);
    }
  }

  lemma {:induction false} NoPlaceholders(s: string)
    requires Mark[0] !in s
    ensures Placeholders(s) == 0
  {
    if s != "" {
      assert forall c :: c in s[1..] ==> c in s;
      NoPlaceholders(s[1..]);
    }
  }

  /** Placeholder-free words followed by one `?`. */
  lemma OneMark(words: string)
    requires Mark[0] !in words
    ensures Placeholders(words + Mark) == 1
  {
    NoPlaceholders(words);
    PlaceholdersAppend(words, Mark);
    assert Mark[1..] == "";
  }

  /** Two stretches of words, each followed by one `?`. */
  lemma TwoMarks(first: string, second: string)
    requires Mark[0] !in first && Mark[0] !in second
    ensures Placeholders(first + Mark + second + Mark) == 2
  {
    OneMark(first);
    OneMark(second);
    PlaceholdersAppend(first + Mark, second + Mark);
    Associative(first + Mark, second, Mark);
  }

  /** Each clause has exactly as many placeholders as its predicate binds values. */
  lemma TemplateMatchesBindings(f: Filter)
    ensures Placeholders(Template(KindOf(f))) == |Bindings(f)|
  {
    match f
    case CompletedIs(_) => OneMark(" AND completed = ");
    case PriorityIs(_) => OneMark(" AND priority = ");
    case CategoryLike(_) => OneMark(" AND category LIKE ");
    case TagsLike(_) => OneMark(" AND tags LIKE ");
    case DueBetween(_, _) => TwoMarks(" AND dueDate BETWEEN ", " AND ");
  }

  lemma SelectPlaceholders()
    ensures Placeholders(SelectSql) == 1
  {
    OneMark("SELECT * FROM tasks WHERE userId = ");
  }

  lemma PagePlaceholders()
    ensures Placeholders(PageSql) == 2
  {
    TwoMarks(" ORDER BY createdAt DESC LIMIT ", " OFFSET ");
  }

  lemma AppendFilter(fs: seq<Filter>, f: Filter)
    ensures Templates(Kinds(fs + [f])) == Templates(Kinds(fs)) + Template(KindOf(f))
    ensures BoundValues(fs + [f]) == BoundValues(fs) + Bindings(f)
  {
    assert Kinds(fs + [f])[..|fs|] == Kinds(fs);
    assert (fs + [f])[..|fs|] == fs;
  }

  /** The text and values built so far are those of the predicates `fs`. */
  ghost predicate Built(sql: string, params: seq<Param>, userId: string, fs: seq<Filter>) {
    sql == SelectSql + Templates(Kinds(fs)) && params == [Text(userId)] + BoundValues(fs)
  }

  lemma BuiltAppend(sql: string, params: seq<Param>, userId: string, fs: seq<Filter>, f: Filter)
    requires Built(sql, params, userId, fs)
    ensures Built(sql + Template(KindOf(f)), params + Bindings(f), userId, fs + [f])
  {
    AppendFilter(fs, f);
    Associative(SelectSql, Templates(Kinds(fs)), Template(KindOf(f)));
    Associative([Text(userId)], BoundValues(fs), Bindings(f));
  }

  lemma Associative<T>(a: seq<T>, b: seq<T>, c: seq<T>)
    ensures a + b + c == a + (b + c)
  {
  }

  /** The clauses of a sequence of predicates hold one placeholder per bound value. */
  lemma {:induction false} TemplatesPlaceholders(fs: seq<Filter>)
    ensures Placeholders(Templates(Kinds(fs))) == |BoundValues(fs)|
  {
    if fs != [] {
      var init, f := fs[..|fs| - 1], fs[|fs| - 1];
      assert fs == init + [f];
      AppendFilter(init, f);
      TemplatesPlaceholders(init);
      TemplateMatchesBindings(f);
      PlaceholdersAppend(Templates(Kinds(init)), Template(KindOf(f)));
    }
  }

  /** The whole query has exactly as many placeholders as bound values. */
  lemma SqlForPlaceholders(userId: string, fs: seq<Filter>, paging: Paging)
    ensures Placeholders(SqlFor(Kinds(fs))) == |ParamsFor(userId, fs, paging)|
  {
    var middle := Templates(Kinds(fs));
    SelectPlaceholders();
    PagePlaceholders();
    TemplatesPlaceholders(fs);
    PlaceholdersAppend(SelectSql, middle);
    PlaceholdersAppend(SelectSql + middle, PageSql);
  }

  /** Once every part is in, the text and values are those of all of the request's predicates. */
  lemma BuiltAll(sql: string, params: seq<Param>, userId: string, fs: seq<Filter>, paging: Paging)
    requires Built(sql, params, userId, fs)
    ensures sql + PageSql == SqlFor(Kinds(fs))
    ensures params + [Number(paging.limit), Number(paging.offset)] == ParamsFor(userId, fs, paging)
    ensures Placeholders(sql + PageSql) == |params| + 2
  {
    SqlForPlaceholders(userId, fs, paging);
  }

  /**
   * One `if (...) { sql += <clause>; params.push(<values>); }` step of the
   * chain: `part` holds the step's predicate when its test passed (see
   * `CompletedPart` and the others) and nothing otherwise.
   */
  method AddPart(sql: string, params: seq<Param>, ghost userId: string, ghost fs: seq<Filter>, part: seq<Filter>)
    returns (sql': string, params': seq<Param>)
    requires |part| <= 1
    requires Built(sql, params, userId, fs)
    ensures Built(sql', params', userId, fs + part)
  {
    if part != [] {
      var f := part[0];
      assert part == [f];
      BuiltAppend(sql, params, userId, fs, f);
      sql' := sql + Template(KindOf(f));
      params' := params + Bindings(f);
    } else {
      assert fs + part == fs;
      sql', params' := sql, params;
    }
  }

  method BuildListQuery(userId: string, q: ListParams, paging: Paging)
    returns (sql: string, params: seq<Param>)
    ensures sql == SqlFor(Kinds(Filters(q)))
    ensures params == ParamsFor(userId, Filters(q), paging)
    ensures Placeholders(sql) == |params|
    ensures params[0] == Text(userId)
    ensures params[|params| - 2..] == [Number(paging.limit), Number(paging.offset)]
  {
    sql := SelectSql;
    params := [Text(userId)];
    ghost var fs: seq<Filter> := [];
    assert Built(sql, params, userId, fs);

    sql, params := AddPart(sql, params, userId, fs, CompletedPart(q));
    fs := fs + CompletedPart(q);
    sql, params := AddPart(sql, params, userId, fs, PriorityPart(q));
    fs := fs + PriorityPart(q);
    sql, params := AddPart(sql, params, userId, fs, CategoryPart(q));
    fs := fs + CategoryPart(q);
    sql, params := AddPart(sql, params, userId, fs, TagsPart(q));
    fs := fs + TagsPart(q);
    sql, params := AddPart(sql, params, userId, fs, DueRangePart(q));
    fs := fs + DueRangePart(q);
    assert fs == Filters(q) by {
      FiltersInParts(q);
    }
    BuiltAll(sql, params, userId, fs, paging);

    sql := sql + PageSql;
    params := params + [Number(paging.limit), Number(paging.offset)];
  }

  /**
   * The SQL text depends only on which filters are present: two requests
   * with the same shape get the same text, whatever their values.
   */
  lemma {:induction false} KindsOfFilters(q: ListParams)
    ensures Kinds(Filters(q)) == Shape(q)
  {
    FiltersInParts(q);
    KindsOfParts(CompletedPart(q), PriorityPart(q), CategoryPart(q), TagsPart(q), DueRangePart(q));
    KindsOfEachPart(q);
  }

  lemma KindsOfParts(c: seq<Filter>, p: seq<Filter>, ca: seq<Filter>, t: seq<Filter>, d: seq<Filter>)
    ensures Kinds(c + p + ca + t + d) == Kinds(c) + Kinds(p) + Kinds(ca) + Kinds(t) + Kinds(d)
  {
    KindsAppend(c, p);
    KindsAppend(c + p, ca);
    KindsAppend(c + p + ca, t);
    KindsAppend(c + p + ca + t, d);
  }

  lemma KindsOfEachPart(q: ListParams)
    ensures Kinds(CompletedPart(q)) == if q.completed.Some? then [CompletedKind] else []
    ensures Kinds(PriorityPart(q)) == if TruthyText(q.priority) then [PriorityKind] else []
    ensures Kinds(CategoryPart(q)) == if TruthyText(q.category) then [CategoryKind] else []
    ensures Kinds(TagsPart(q)) == if TruthyText(q.tags) then [TagsKind] else []
    ensures Kinds(DueRangePart(q)) == if TruthyText(q.startDate) && TruthyText(q.endDate) then [DueRangeKind] else []
  {
  }

  /**
   * No request value reaches the SQL text: two requests with the same filters
   * present get the same text, whatever the values, which only travel as
   * bound parameters.
   */
  lemma SqlTextIgnoresValues(q1: ListParams, q2: ListParams)
    requires Shape(q1) == Shape(q2)
    ensures SqlFor(Kinds(Filters(q1))) == SqlFor(Kinds(Filters(q2)))
  {
    KindsOfFilters(q1);
    KindsOfFilters(q2);
  }

  /**
   * A task stored with `completed ? 1 : 0` matches the list filter
   * `completed = <'true' ? 1 : 0>` exactly when its truthiness agrees with
   * the parameter being 'true'.
   */
  lemma CompletedFilterAgreesWithStoredFlag(completed: JsValue, parameter: string)
    ensures TaskModel.EncodeCompleted(completed) == CompletedFlag(parameter)
      <==> (Truthy(completed) <==> parameter == "true")
  {
  }
}
