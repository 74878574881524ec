/** The list query the page sends to the hosted table, as data: a filter
    list, an ordering and a row range. The store that runs it is not part of
    this model. */
module QueryBuilder {
  import opened Text
  import opened Wrappers
  import opened Pagination

  datatype Column = Id | Content | Done | CreatedAt | DueDate | Category | TagList

  datatype Value = Str(text: string) | Flag(flag: bool)

  /** One chained filter of the client library. */
  datatype Filter =
    | Ilike(column: Column, pattern: string)        // `.ilike(column, pattern)`
    | Eq(column: Column, value: Value)              // `.eq(column, value)`
    | Contains(column: Column, values: seq<string>) // `.contains(column, values)`

  datatype Ordering = Ordering(column: Column, ascending: bool)

  /** A select request: table, whether an exact total count is asked for,
      the filters in the order they were chained, the ordering and the row
      range (both absent until set). */
  datatype Query = Query(
    table: string,
    countExact: bool,
    filters: seq<Filter>,
    order: Option<Ordering>,
    range: Option<Rows>)
  {
    function AndFilter(f: Filter): Query {
      this.(filters := filters + [f])
    }

    function OrderBy(column: Column, ascending: bool): Query {
      this.(order := Some(Ordering(column, ascending)))
    }

    function WithRange(from: int, to: int): Query {
      this.(range := Some(Rows(from, to)))
    }
  }

  /** `supabase.from(table).select('*', { count: 'exact' })` */
  function Select(table: string): Query {
    Query(table, true, [], None, None)
  }

  /** The completion filter of the search form: `'all' | 'done' | 'notDone'`. */
  datatype DoneFilter = All | DoneOnly | NotDone

  /** The five search-form values. Text filters are ignored when blank after
      trimming, the date filter when it is the empty string, and the
      completion filter when it is `All`. */
  datatype Criteria = Criteria(
    content: string,
    date: string,
    category: string,
    tag: string,
    done: DoneFilter)

  /** The search form's initial (and cleared) values. */
  const NoCriteria := Criteria("", "", "", "", All)

  /** True when no criterion constrains the rows. */
  predicate Unfiltered(c: Criteria) {
    IsBlank(c.content) && c.date == [] && IsBlank(c.category) && IsBlank(c.tag) && c.done == All
  }

  /** `%${text}%`: a substring pattern around the untrimmed text. */
  function Substring(text: string): string {
    "%" + text + "%"
  }

  /** The number of criteria that add a filter. */
  function ActiveCount(c: Criteria): nat {
    (if IsBlank(c.content) then 0 else 1) + (if c.date == [] then 0 else 1)
    + (if IsBlank(c.category) then 0 else 1) + (if IsBlank(c.tag) then 0 else 1)
    + (if c.done == All then 0 else 1)
  }

  /** Every filter of the list constrains the given column. */
  predicate OnColumn(filters: seq<Filter>, column: Column) {
    forall i :: 0 <= i < |filters| ==> filters[i].column == column
  }

  function ContentFilter(c: Criteria): seq<Filter> {
    if IsBlank(c.content) then [] else [Ilike(Content, Substring(c.content))]
  }

  function DateFilter(c: Criteria): seq<Filter> {
    if c.date == [] then [] else [Eq(DueDate, Str(c.date))]
  }

  function CategoryFilter(c: Criteria): seq<Filter> {
    if IsBlank(c.category) then [] else [Ilike(Category, Substring(c.category))]
  }

  function TagFilter(c: Criteria): seq<Filter> {
    if IsBlank(c.tag) then [] else [Contains(TagList, [c.tag])]
  }

  function DoneFilterFor(c: Criteria): seq<Filter> {
    match c.done
    case All => []
    case DoneOnly => [Eq(Done, Flag(true))]
    case NotDone => [Eq(Done, Flag(false))]
  }

  /** Each clause constrains its own column only, holds at most one filter,
      and holds it exactly when its criterion is set. */
  lemma ClausesAreSeparate(c: Criteria)
    ensures OnColumn(ContentFilter(c), Content) && |ContentFilter(c)| == if IsBlank(c.content) then 0 else 1
    ensures OnColumn(DateFilter(c), DueDate) && |DateFilter(c)| == if c.date == [] then 0 else 1
    ensures OnColumn(CategoryFilter(c), Category) && |CategoryFilter(c)| == if IsBlank(c.category) then 0 else 1
    ensures OnColumn(TagFilter(c), TagList) && |TagFilter(c)| == if IsBlank(c.tag) then 0 else 1
    ensures OnColumn(DoneFilterFor(c), Done) && |DoneFilterFor(c)| == if c.done == All then 0 else 1
  {
  }

  /** The query for a set of criteria and a 1-based page: the filters of
      the set criteria in the order the form lists them, newest rows first,
      and the page's row range. */
  function ComposeQuery(c: Criteria, page: int): Query {
    var filters := ContentFilter(c) + DateFilter(c) + CategoryFilter(c) + TagFilter(c) + DoneFilterFor(c);
    Query("todos", true, filters, Some(Ordering(CreatedAt, false)), Some(PageRange(page)))
  }

  /** Rows come from the `todos` table with an exact count, newest first,
      restricted to the page's five rows. */
  lemma ComposeQueryShape(c: Criteria, page: int)
    ensures var q := ComposeQuery(c, page);
      && q.table == "todos" && q.countExact
      && q.order == Some(Ordering(CreatedAt, false))
      && q.range == Some(PageRange(page))
  {
  }

  /** The content, category and tag criteria add their substring or
      containment filter exactly when they are not blank after trimming. */
  lemma TextFiltersIffNotBlank(c: Criteria, page: int)
    ensures var fs := ComposeQuery(c, page).filters;
      && (Ilike(Content, Substring(c.content)) in fs <==> !IsBlank(c.content))
      && (Ilike(Category, Substring(c.category)) in fs <==> !IsBlank(c.category))
      && (Contains(TagList, [c.tag]) in fs <==> !IsBlank(c.tag))
  {
    ClausesAreSeparate(c);
  }

  /** The date criterion adds its equality filter exactly when it is not
      the empty string; the completion criterion adds `done = true` for
      `DoneOnly`, `done = false` for `NotDone`, and nothing for `All`. */
  lemma ExactFiltersIffSet(c: Criteria, page: int)
    ensures var fs := ComposeQuery(c, page).filters;
      && (Eq(DueDate, Str(c.date)) in fs <==> c.date != [])
      && (Eq(Done, Flag(true)) in fs <==> c.done == DoneOnly)
      && (Eq(Done, Flag(false)) in fs <==> c.done == NotDone)
  {
    ClausesAreSeparate(c);
  }

  /** There is one filter per set criterion and no other. */
  lemma OneFilterPerCriterion(c: Criteria, page: int)
    ensures |ComposeQuery(c, page).filters| == ActiveCount(c)
  {
    ClausesAreSeparate(c);
  }

  /** `fetchTodos`' query building: starts from a select on the table,
      chains each filter whose criterion is set, then the ordering, then the
      page's row range. The result is the composed query. */
  method BuildQuery(c: Criteria, page: int) returns (q: Query)
    ensures q == ComposeQuery(c, page)
  {
    q := Select("todos");
    if !IsBlank(c.content) {
      q := q.AndFilter(Ilike(Content, Substring(c.content)));
    }
    ghost var chained := ContentFilter(c);
    assert q.filters == chained;
    if c.date != [] {
      q := q.AndFilter(Eq(DueDate, Str(c.date)));
    }
    assert q.filters == chained + DateFilter(c);
    chained := chained + DateFilter(c);
    if !IsBlank(c.category) {
      q := q.AndFilter(Ilike(Category, Substring(c.category)));
    }
    assert q.filters == chained + CategoryFilter(c);
    chained := chained + CategoryFilter(c);
    if !IsBlank(c.tag) {
      q := q.AndFilter(Contains(TagList, [c.tag]));
    }
    assert q.filters == chained + TagFilter(c);
    chained := chained + TagFilter(c);
    if c.done == DoneOnly {
      q := q.AndFilter(Eq(Done, Flag(true)));
    } else if c.done == NotDone {
      q := q.AndFilter(Eq(Done, Flag(false)));
    }
    assert q.filters == chained + DoneFilterFor(c);
    q := q.OrderBy(CreatedAt, false);
    var from := (page - 1) * PageSize;
    var to := from + PageSize - 1;
    q := q.WithRange(from, to);
  }

  /** The filter list is empty exactly when no criterion is set. */
  lemma NoFiltersIffUnfiltered(c: Criteria, page: int)
    ensures ComposeQuery(c, page).filters == [] <==> Unfiltered(c)
  {
    OneFilterPerCriterion(c, page);
    var q := ComposeQuery(c, page);
    assert q.filters == [] <==> |q.filters| == 0;
  }

  /** With the search form in its initial state, the query is all rows,
      newest first, rows 0..4 for page 1. */
  lemma InitialQuery()
    ensures ComposeQuery(NoCriteria, 1) == Query("todos", true, [], Some(Ordering(CreatedAt, false)), Some(Rows(0, 4)))
  {
    assert IsBlank([]);
    NoFiltersIffUnfiltered(NoCriteria, 1);
  }
}
