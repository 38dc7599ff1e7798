/**
 * The article list page (src/pages/articles/ArticlesList.jsx): how the
 * filter state becomes request parameters, how a list response updates the
 * store, and the pagination bar's "Showing X to Y of Z" window and its
 * Previous/Next buttons.
 */
module ArticlesList {
  import opened Wrappers

  /** The filter values read from the articles store; `None` is `undefined`. */
  datatype Filters = Filters(
    articleType: Option<string>,  // the `type` filter
    category: Option<string>,
    author: Option<string>,
    status: Option<string>,
    search: Option<string>)

  /** The pagination metadata the store holds and the list endpoint returns. */
  datatype Pagination = Pagination(page: int, limit: int, total: int, totalPages: int)

  /** The parameters passed to the list endpoint; `None` is an omitted parameter. */
  datatype Query = Query(
    page: int,
    limit: int,
    articleType: Option<string>,
    category: Option<string>,
    author: Option<string>,
    status: Option<string>,
    search: Option<string>)

  /** The select value meaning "no filter". */
  const All: string := "all"

  /** `f !== 'all' ? f : undefined`. */
  function Choice(f: Option<string>): Option<string>
  {
    if f == Some(All) then None else f
  }

  /** `f || undefined` on a string: the empty string is falsy. */
  function NonEmpty(f: Option<string>): Option<string>
  {
    if f == Some("") then None else f
  }

  /** The argument of `articlesAPI.getAll` in `loadArticles`. */
  function BuildQuery(f: Filters, p: Pagination): (q: Query)
    ensures q.page == p.page && q.limit == p.limit
    ensures q.articleType.None? <==> f.articleType.None? || f.articleType == Some(All)
    ensures q.category.None? <==> f.category.None? || f.category == Some(All)
    ensures q.author.None? <==> f.author.None? || f.author == Some(All)
    ensures q.status.None? <==> f.status.None? || f.status == Some(All)
    ensures q.search.None? <==> f.search.None? || f.search == Some("")
    ensures q.articleType.Some? ==> q.articleType == f.articleType
    ensures q.category.Some? ==> q.category == f.category
    ensures q.author.Some? ==> q.author == f.author
    ensures q.status.Some? ==> q.status == f.status
    ensures q.search.Some? ==> q.search == f.search
  {
    Query(p.page, p.limit, Choice(f.articleType), Choice(f.category), Choice(f.author),
          Choice(f.status), NonEmpty(f.search))
  }

  /** The filter state a query would be read back as. */
  function FiltersOf(q: Query): Filters
  {
    Filters(q.articleType, q.category, q.author, q.status, q.search)
  }

  /**
   * A query never carries the wildcard `'all'` or an empty search, so
   * building a query from a query's own values gives that query back.
   */
  lemma BuildQueryIsNormal(f: Filters, p: Pagination)
    ensures var q := BuildQuery(f, p);
      && q.articleType != Some(All) && q.category != Some(All)
      && q.author != Some(All) && q.status != Some(All) && q.search != Some("")
      && BuildQuery(FiltersOf(q), Pagination(q.page, q.limit, p.total, p.totalPages)) == q
  {
  }

  /** A filter value that means "no filter": missing or `'all'`. */
  predicate NoFilter(x: Option<string>)
  {
    x.None? || x == Some(All)
  }

  /** A search value that means "no search": missing or empty. */
  predicate NoSearch(x: Option<string>)
  {
    x.None? || x == Some("")
  }

  /** Two filter values that select the same articles. */
  predicate SameFilter(x: Option<string>, y: Option<string>)
  {
    x == y || (NoFilter(x) && NoFilter(y))
  }

  /**
   * Two filter states send the same query iff they differ only in how they
   * write "no filter" (`'all'` or missing) and "no search" (empty or missing).
   */
  lemma SameQueryIffEquivalent(f: Filters, g: Filters, p: Pagination)
    ensures BuildQuery(f, p) == BuildQuery(g, p) <==>
      && SameFilter(f.articleType, g.articleType) && SameFilter(f.category, g.category)
      && SameFilter(f.author, g.author) && SameFilter(f.status, g.status)
      && (f.search == g.search || (NoSearch(f.search) && NoSearch(g.search)))
  {
  }

  // ------------------------------------------------------- range text

  function Min(a: int, b: int): int
  {
    if a <= b then a else b
  }

  /** The first row number in "Showing X to Y of Z". */
  function RangeStart(p: Pagination): int
  {
    (p.page - 1) * p.limit + 1
  }

  /** The last row number in "Showing X to Y of Z". */
  function RangeEnd(p: Pagination): int
  {
    Min(p.page * p.limit, p.total)
  }

  /** The displayed upper bound never exceeds the total. */
  lemma RangeEndWithinTotal(p: Pagination)
    ensures RangeEnd(p) <= p.total
    ensures RangeEnd(p) <= p.page * p.limit
  {
  }

  /**
   * On a page that holds rows, the window is non-empty and spans at most one
   * page: `1 <= X <= Y <= Z` and `Y - X + 1 <= limit`.
   */
  lemma {:induction false} RangeIsWindow(p: Pagination)
    requires p.page >= 1 && p.limit >= 1
    requires (p.page - 1) * p.limit < p.total
    ensures 1 <= RangeStart(p) <= RangeEnd(p) <= p.total
    ensures RangeEnd(p) - RangeStart(p) + 1 <= p.limit
  {
    assert p.page * p.limit == (p.page - 1) * p.limit + p.limit;
    assert (p.page - 1) * p.limit >= 0 by {
      MulNonNegative(p.page - 1, p.limit);
    }
  }

  lemma MulNonNegative(a: int, b: int)
    requires a >= 0 && b >= 0
    ensures a * b >= 0
  {
  }

  lemma MulMonotone(a: int, b: int, c: int)
    requires a <= b && c >= 0
    ensures a * c <= b * c
  {
    assert b * c - a * c == (b - a) * c;
    MulNonNegative(b - a, c);
  }

  /**
   * When `totalPages` is `ceil(total / limit)`, every page from 1 to
   * `totalPages` holds rows, so its window is non-empty.
   */
  lemma {:induction false} InRangePageHasRows(p: Pagination)
    requires p.limit >= 1 && p.total >= 0
    requires p.totalPages == (p.total + p.limit - 1) / p.limit
    requires 1 <= p.page <= p.totalPages
    ensures (p.page - 1) * p.limit < p.total
    ensures 1 <= RangeStart(p) <= RangeEnd(p) <= p.total
  {
    var n := p.total + p.limit - 1;
    assert p.totalPages * p.limit <= n by {
      assert n == p.totalPages * p.limit + n % p.limit;
    }
    MulMonotone(p.page - 1, p.totalPages - 1, p.limit);
    assert (p.totalPages - 1) * p.limit == p.totalPages * p.limit - p.limit;
    RangeIsWindow(p);
  }

  // ------------------------------------------------------- page cursor

  datatype Button = Previous | Next

  /** `pagination.totalPages > 1 &&`: the bar is rendered only then. */
  predicate BarShown(p: Pagination)
  {
    p.totalPages > 1
  }

  /** The `disabled` prop of each button. */
  predicate Disabled(p: Pagination, b: Button)
  {
    match b
    case Previous => p.page == 1
    case Next => p.page == p.totalPages
  }

  /** A click on a button has an effect only when the bar is rendered and the button enabled. */
  predicate Enabled(p: Pagination, b: Button)
  {
    BarShown(p) && !Disabled(p, b)
  }

  /** The store's pagination after a click: `setPagination({ page: page ∓ 1 })`, merged into the rest. */
  function Click(p: Pagination, b: Button): Pagination
  {
    if !Enabled(p, b) then p
    else match b
      case Previous => p.(page := p.page - 1)
      case Next => p.(page := p.page + 1)
  }

  /** The pagination after a sequence of clicks, first click first. */
  function Clicks(p: Pagination, bs: seq<Button>): Pagination
    decreases |bs|
  {
    if bs == [] then p else Clicks(Click(p, bs[0]), bs[1..])
  }

  /**
   * One click changes the page by exactly -1 (Previous) or +1 (Next) when
   * the button is enabled, and by nothing otherwise; the limit and totals
   * never change.
   */
  lemma ClickStep(p: Pagination, b: Button)
    ensures Click(p, b).limit == p.limit && Click(p, b).total == p.total
    ensures Click(p, b).totalPages == p.totalPages
    ensures Click(p, b).page - p.page ==
              if !Enabled(p, b) then 0 else if b == Previous then -1 else 1
  {
  }

  /**
   * On a rendered bar whose page is in `1..totalPages`, at most one of the
   * two buttons is disabled, so some click always moves the page.
   */
  lemma SomeButtonEnabled(p: Pagination)
    requires BarShown(p) && 1 <= p.page <= p.totalPages
    ensures !(Disabled(p, Previous) && Disabled(p, Next))
    ensures Enabled(p, Previous) || Enabled(p, Next)
    ensures Click(p, Previous) != p || Click(p, Next) != p
  {
  }

  /** One click keeps a page in `1..totalPages` inside that range. */
  lemma ClickKeepsRange(p: Pagination, b: Button)
    requires 1 <= p.page <= p.totalPages
    ensures 1 <= Click(p, b).page <= Click(p, b).totalPages
  {
  }

  /** Any sequence of clicks keeps a page in `1..totalPages` inside that range. */
  lemma {:induction false} ClicksKeepRange(p: Pagination, bs: seq<Button>)
    requires 1 <= p.page <= p.totalPages
    ensures 1 <= Clicks(p, bs).page <= Clicks(p, bs).totalPages
    ensures Clicks(p, bs).totalPages == p.totalPages
    decreases |bs|
  {
    if bs != [] {
      ClickKeepsRange(p, bs[0]);
      ClicksKeepRange(Click(p, bs[0]), bs[1..]);
    }
  }

  // ------------------------------------------------------- page state

  /** What `articlesAPI.getAll` produces: a thrown error, or a response body. */
  datatype Reply<A> = Threw | Body(success: bool, data: seq<A>, pagination: Pagination)

  /** The page's view of the articles store, plus its own `loading` flag. */
  class ArticlesPage<A> {
    var articles: seq<A>
    var filters: Filters
    var pagination: Pagination
    var loading: bool

    /** The page mounts with the store's contents and `loading` set. */
    constructor (articles: seq<A>, filters: Filters, pagination: Pagination)
      ensures this.articles == articles && this.filters == filters && this.pagination == pagination
      ensures loading
    {
      this.articles := articles;
      this.filters := filters;
      this.pagination := pagination;
      loading := true;
    }

    /**
     * `loadArticles`: sends the query built from the current filters and
     * pagination to `server`, replaces the articles and pagination only on a
     * response whose `success` flag is set, and always ends with `loading`
     * false.
     */
    method LoadArticles(server: Query -> Reply<A>) returns (request: Query)
      modifies this
      ensures request == BuildQuery(old(filters), old(pagination))
      ensures filters == old(filters)
      ensures !loading
      ensures server(request).Body? && server(request).success ==>
                articles == server(request).data && pagination == server(request).pagination
      ensures !(server(request).Body? && server(request).success) ==>
                articles == old(articles) && pagination == old(pagination)
    {
      loading := true;
      request := BuildQuery(filters, pagination);
      var reply := server(request);
      if reply.Body? && reply.success {
        articles := reply.data;
        pagination := reply.pagination;
      }
      loading := false;
    }

    /** A click on Previous; `clicked` says whether the button could be clicked. */
    method ClickPrevious() returns (clicked: bool)
      modifies this`pagination
      ensures clicked <==> Enabled(old(pagination), Previous)
      ensures pagination == Click(old(pagination), Previous)
    {
      clicked := BarShown(pagination) && pagination.page != 1;
      if clicked {
        pagination := pagination.(page := pagination.page - 1);
      }
    }

    /** A click on Next; `clicked` says whether the button could be clicked. */
    method ClickNext() returns (clicked: bool)
      modifies this`pagination
      ensures clicked <==> Enabled(old(pagination), Next)
      ensures pagination == Click(old(pagination), Next)
    {
      clicked := BarShown(pagination) && pagination.page != pagination.totalPages;
      if clicked {
        pagination := pagination.(page := pagination.page + 1);
      }
    }
  }
}
