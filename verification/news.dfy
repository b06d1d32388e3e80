/** The news widget's local matcher (app.js): pick the articles of the static
    feed that concern the resolved city or country (or are world news), on the
    chosen date, fall back to all world news when none match, and map each
    pick to a display record. */
module News {
  import opened JsValues
  import opened Sequences

  const WorldCategory := "world"
  /** Source shown for an article that names none. */
  const LocalSource := "GeoNews (локально)"
  const ErrorTitle := "Нет доступа к новостям"
  const ErrorLink := "#"
  const ErrorSource := "GeoNews"

  /** One record of the feed's `articles` array; every field may be missing. */
  datatype Article = Article(
    title: Option<string>,
    url: Option<string>,
    source: Option<string>,
    date: Option<string>,
    city: Option<string>,
    country: Option<string>,
    category: Option<string>)

  /** The resolved location and the date picked by the user (`None` or `""`
      when no date is set). */
  datatype Query = Query(city: string, country: string, date: Option<string>)

  /** A record handed to the renderer. */
  datatype NewsItem = NewsItem(
    title: Option<string>,
    link: Option<string>,
    source: string,
    publishedAt: Option<string>)

  /** What loading the static feed gives: its articles, or a failure (the
      fetch rejected, the body was not JSON, or it had no `articles` array). */
  datatype Feed = Loaded(articles: seq<Article>) | Unavailable

  /** The single item shown when the feed cannot be read. */
  const ErrorItem := NewsItem(Some(ErrorTitle), Some(ErrorLink), ErrorSource, Some(""))

  predicate IsWorld(a: Article) {
    a.category == Some(WorldCategory)
  }

  /** A date constrains the match only when it is truthy. */
  predicate DateGiven(q: Query) {
    Truthy(q.date)
  }

  /** Strict equality of the article's city or country with the query's, or a
      world article. */
  predicate LocationMatch(a: Article, q: Query) {
    a.city == Some(q.city) || a.country == Some(q.country) || IsWorld(a)
  }

  predicate DateMatch(a: Article, q: Query) {
    !DateGiven(q) || a.date == q.date
  }

  /** The condition of the primary filter. */
  predicate Matches(a: Article, q: Query) {
    LocationMatch(a, q) && DateMatch(a, q)
  }

  function MatchesQuery(q: Query): Article -> bool {
    a => Matches(a, q)
  }

  /** Some article passes the primary filter, so no fallback is taken. */
  predicate UsesPrimary(articles: seq<Article>, q: Query) {
    exists i :: 0 <= i < |articles| && Matches(articles[i], q)
  }

  /** Whether article `a` is among those shown for `q`. */
  predicate Selected(articles: seq<Article>, q: Query, a: Article) {
    if UsesPrimary(articles, q) then Matches(a, q) else IsWorld(a)
  }

  /** The primary filter keeps something exactly when some article matches. */
  lemma PrimaryNonEmptyIffMatch(articles: seq<Article>, q: Query)
    ensures |Filter(articles, MatchesQuery(q))| > 0 <==> UsesPrimary(articles, q)
  {
  }

  /** The filter actually applied to `articles`: the primary one, or the
      world-news one when the primary one keeps nothing. */
  function Criterion(articles: seq<Article>, q: Query): Article -> bool {
    if |Filter(articles, MatchesQuery(q))| > 0 then MatchesQuery(q) else IsWorld
  }

  /** The articles shown for `q`, in feed order. */
  function SelectArticles(articles: seq<Article>, q: Query): (sel: seq<Article>)
    ensures UsesPrimary(articles, q) ==>
              && (forall k :: 0 <= k < |sel| ==> sel[k] in articles && Matches(sel[k], q))
              && (forall i :: 0 <= i < |articles| && Matches(articles[i], q) ==> articles[i] in sel)
    ensures UsesPrimary(articles, q) && DateGiven(q) ==> forall k :: 0 <= k < |sel| ==> sel[k].date == q.date
    ensures !UsesPrimary(articles, q) ==>
              && (forall k :: 0 <= k < |sel| ==> sel[k] in articles && IsWorld(sel[k]))
              && (forall i :: 0 <= i < |articles| && IsWorld(articles[i]) ==> articles[i] in sel)
    ensures |sel| <= |articles|
  {
    PrimaryNonEmptyIffMatch(articles, q);
    Filter(articles, Criterion(articles, q))
  }

  /** The display record of one article. */
  function ToItem(a: Article): (item: NewsItem)
    ensures item.title == a.title && item.link == a.url && item.publishedAt == a.date
    ensures item.source != ""
    ensures Truthy(a.source) ==> Some(item.source) == a.source
    ensures !Truthy(a.source) ==> item.source == LocalSource
  {
    NewsItem(a.title, a.url, Or(a.source, LocalSource), a.date)
  }

  /** `Array.prototype.map(ToItem)`. */
  function ToItems(sel: seq<Article>): (items: seq<NewsItem>)
    ensures |items| == |sel|
    ensures forall k :: 0 <= k < |sel| ==> items[k] == ToItem(sel[k])
    decreases |sel|
  {
    if |sel| == 0 then [] else [ToItem(sel[0])] + ToItems(sel[1..])
  }

  /** fetchFallbackNews: the error item when the feed cannot be read,
      otherwise the display records of the selected articles. */
  function FetchFallbackNews(feed: Feed, q: Query): (items: seq<NewsItem>)
    ensures feed.Unavailable? ==> items == [ErrorItem]
    ensures feed.Loaded? ==>
              && |items| == |SelectArticles(feed.articles, q)|
              && forall k :: 0 <= k < |items| ==> items[k] == ToItem(SelectArticles(feed.articles, q)[k])
  {
    match feed
    case Unavailable => [ErrorItem]
    case Loaded(articles) => ToItems(SelectArticles(articles, q))
  }

  /** fetchNews: every external source is disabled, and the local matcher
      never fails, so the result is the local matcher's for the same
      arguments. */
  function FetchNews(feed: Feed, q: Query): (items: seq<NewsItem>)
    ensures items == FetchFallbackNews(feed, q)
    ensures feed.Unavailable? ==> items == [ErrorItem]
  {
    FetchFallbackNews(feed, q)
  }

  /** Where an article of the feed ends up in the output when it is shown. */
  function OutputIndex(articles: seq<Article>, q: Query, i: nat): nat
    requires i <= |articles|
  {
    Rank(articles, Criterion(articles, q), i)
  }

  /** The condition of the filter actually applied is exactly `Selected`. */
  lemma CriterionIsSelected(articles: seq<Article>, q: Query, a: Article)
    ensures Criterion(articles, q)(a) == Selected(articles, q, a)
  {
  }

  /** Every shown article is rendered at its own output position. */
  lemma {:induction false} OutputIsRenderedSelection(articles: seq<Article>, q: Query, i: nat)
    requires i < |articles| && Selected(articles, q, articles[i])
    ensures OutputIndex(articles, q, i) < |FetchFallbackNews(Loaded(articles), q)|
    ensures FetchFallbackNews(Loaded(articles), q)[OutputIndex(articles, q, i)] == ToItem(articles[i])
  {
    CriterionIsSelected(articles, q, articles[i]);
    FilterPosition(articles, Criterion(articles, q), i);
  }

  /** Relative order is kept: two shown articles appear in the output in
      the same order as in the feed. */
  lemma OutputKeepsFeedOrder(articles: seq<Article>, q: Query, i: nat, j: nat)
    requires i < j < |articles|
    requires Selected(articles, q, articles[i]) && Selected(articles, q, articles[j])
    ensures OutputIndex(articles, q, i) < OutputIndex(articles, q, j) < |FetchFallbackNews(Loaded(articles), q)|
  {
    CriterionIsSelected(articles, q, articles[i]);
    RankMonotone(articles, Criterion(articles, q), i, j);
    OutputIsRenderedSelection(articles, q, j);
  }

  /** Each output position `k` comes from a shown article `i` of the feed. */
  lemma OutputComesFromSelection(articles: seq<Article>, q: Query, k: nat) returns (i: nat)
    requires k < |FetchFallbackNews(Loaded(articles), q)|
    ensures i < |articles| && Selected(articles, q, articles[i]) && OutputIndex(articles, q, i) == k
  {
    var p := Criterion(articles, q);
    i := FilterCovers(articles, p, k);
    CriterionIsSelected(articles, q, articles[i]);
  }

  /** Without a date every world article passes the primary filter, so the
      fallback is only ever taken with a date set; without one an empty
      primary match means an empty result. */
  lemma FallbackNeedsDate(articles: seq<Article>, q: Query)
    requires !DateGiven(q) && !UsesPrimary(articles, q)
    ensures FetchFallbackNews(Loaded(articles), q) == []
  {
  }

  /** In the fallback every world article is shown whatever its date, even
      though a date was requested. */
  lemma FallbackIgnoresDate(articles: seq<Article>, q: Query, i: nat)
    requires i < |articles| && IsWorld(articles[i]) && !UsesPrimary(articles, q)
    ensures DateGiven(q) && articles[i].date != q.date
    ensures OutputIndex(articles, q, i) < |FetchFallbackNews(Loaded(articles), q)|
    ensures FetchFallbackNews(Loaded(articles), q)[OutputIndex(articles, q, i)] == ToItem(articles[i])
  {
    assert !Matches(articles[i], q);
    OutputIsRenderedSelection(articles, q, i);
  }

  /** An article that passes the primary filter is always shown, at its own
      output position. */
  lemma MatchingArticleIsShown(articles: seq<Article>, q: Query, i: nat)
    requires i < |articles| && Matches(articles[i], q)
    ensures OutputIndex(articles, q, i) < |FetchFallbackNews(Loaded(articles), q)|
    ensures FetchFallbackNews(Loaded(articles), q)[OutputIndex(articles, q, i)] == ToItem(articles[i])
  {
    assert UsesPrimary(articles, q);
    OutputIsRenderedSelection(articles, q, i);
  }

  /** With no matching article and no world article the result is empty,
      whatever the date. */
  lemma NothingRelevantIsEmpty(articles: seq<Article>, q: Query)
    requires forall i :: 0 <= i < |articles| ==> !Matches(articles[i], q) && !IsWorld(articles[i])
    ensures FetchFallbackNews(Loaded(articles), q) == []
  {
  }
}
