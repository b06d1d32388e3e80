# GeoNews: news matcher and location resolver

A Dafny model of the decision logic of the GeoNews browser widget. The widget
works out the user's city and country, then shows news from a static JSON
feed that concern that place.

- **Location resolution** (`geolocation.js`). `getLocation` asks the browser
  for the device position and reverse-geocodes it into names. The city is the
  first non-empty of city, town and village. When geolocation is unsupported,
  the position request fails, or reverse geocoding throws, it falls back to
  `geoByIP`. That function reports the IP lookup's names, or the fixed pair
  `"Мир"/"Мир"` when the lookup is not ok or throws. Every external call is
  modelled as an abstract outcome (`DeviceOutcome`, `ReverseOutcome`,
  `IpOutcome`). `GetLocation` returns the reported pair together with the
  trace of calls it made.
- **News matching** (`app.js`). `fetchFallbackNews` keeps the articles whose
  city or country equals the query's, or whose category is `"world"`. When a
  date is set, the article's date must also equal it. When nothing is kept,
  it shows every world article. Each kept article becomes a display record
  whose source defaults to `"GeoNews (локально)"`. A feed that cannot be read
  gives one error item. `fetchNews` delegates to it.

JavaScript's `||` treats `undefined`, `null` and `""` alike. Optional JSON
fields are therefore `Option<string>`, and `JsValues.Truthy` treats `Some("")`
as absent. Strict equality (`news.city === city`) is `a.city == Some(q.city)`.

Files: `js_values.dfy` (optional fields, `||`), `sequences.dfy` (filter and its
order facts), `news.dfy` (module `News`), `geolocation.dfy` (module
`Geolocation`).

## Model

| member | source | states |
|---|---|---|
| Sequences.Filter | app.js:36-39 | The result holds only elements of the input that satisfy the condition, and every satisfying element appears in it. An all-pass condition keeps everything, and an all-fail condition keeps nothing. |
| Sequences.FilterAppend | app.js:36-39 | Filtering a concatenation gives the filtered parts concatenated, so filtering never reorders. |
| Sequences.FilterPosition | app.js:36-39 | A kept element at source index i is found at output position Rank(i), the number of kept elements before it. |
| Sequences.RankMonotone | app.js:36-39 | Of two kept elements, the one earlier in the source gets the strictly smaller output position. |
| Sequences.FilterCovers | app.js:36-39 | Every output position is Rank(i) for some kept source index i, so the output holds nothing else. |
| JsValues.Or | geolocation.js:8-9 | The JavaScript or-expression of o and a fallback is o's value when it is a non-empty string, otherwise the fallback. It is non-empty whenever the fallback is. |
| JsValues.FirstTruthy | geolocation.js:33 | A chain of JavaScript or-expressions yields the first non-empty operand, or the fallback when every operand is absent or empty. |
| JsValues.OrChainIsFirstTruthy | geolocation.js:33 | The nested or-expression over city, town, village and the placeholder equals the first-non-empty selection over the list. |
| News.SelectArticles | app.js:36-43 | When some article matches, the selection is exactly the articles matching city, country or world category. With a truthy date, every selected article also carries that date. When none matches, the selection is exactly the world articles, possibly none. |
| News.ToItem | app.js:44-48 | The display record takes its title, link (from url) and publishedAt (from date) from the article. Its source is the article's non-empty source, otherwise "GeoNews (локально)", so it is never empty. |
| News.ToItems | app.js:44-49 | Mapping keeps the length and renders position k from selected article k. |
| News.FetchFallbackNews | app.js:31-58 | An unreadable feed gives exactly the one error item ("Нет доступа к новостям", "#", "GeoNews", empty date). A readable one gives one record per selected article, in selection order, each the article rendered: its title, url as link, date as publishedAt, and its non-empty source or else "GeoNews (локально)". |
| News.FetchNews | app.js:60-74 | The result is exactly what fetchFallbackNews returns for the same feed and query, including the single error item. |
| News.PrimaryNonEmptyIffMatch | app.js:36-41 | The primary filter keeps something exactly when some article of the feed matches, so the fallback is taken exactly when none does. |
| News.CriterionIsSelected | app.js:36-43 | The filter actually applied keeps an article exactly when it matches the query (if any article matches) or is a world article (otherwise). |
| News.OutputIsRenderedSelection | app.js:36-49 | Every shown article appears in the output, rendered, at its own output index. |
| News.OutputKeepsFeedOrder | app.js:36-49 | Two shown articles appear in the output in their feed order. |
| News.OutputComesFromSelection | app.js:36-49 | Every output position is the output index of some shown article of the feed. |
| News.MatchingArticleIsShown | app.js:36-39 | An article that matches the query's city, country or world category, and its date, is always in the output. |
| News.FallbackNeedsDate | app.js:36-43 | Without a truthy date, an empty primary match forces an empty result, because every world article would have matched. |
| News.FallbackIgnoresDate | app.js:41-43 | In the fallback, a world article is shown even though its date differs from the requested one. |
| News.NothingRelevantIsEmpty | app.js:36-43 | With no matching and no world article, the result is empty for any date. |
| Geolocation.GeoByIp | geolocation.js:2-18 | A non-ok or failed IP lookup gives "Мир"/"Мир". An ok one gives data.city or "Ваш город", and data.country_name or "Ваша страна". Both names are always non-empty. |
| Geolocation.AddressPlace | geolocation.js:32-35 | The city is the first non-empty of city, town and village, else "Ваш город". The country is address.country, else "Ваша страна". Both are non-empty. |
| Geolocation.GetLocation | geolocation.js:20-52 | Both names are always non-empty. The position request is made iff geolocation is supported, and reverse geocoding iff a position was obtained. The IP lookup is made iff reverse geocoding did not succeed, and then the result is geoByIP's. Calls follow the chain order, so none is repeated and the IP lookup happens at most once. |
| Geolocation.FirstSettled | geolocation.js:36-48 | The first strategy that settled with a place wins, and the final fallback is used when none did. |
| Geolocation.GetLocationIsStrategyChain | geolocation.js:20-52 | The nested callbacks give the same place as the flat chain: device position with reverse geocoding, then the IP lookup, then "Мир"/"Мир". |
| Geolocation.UnconsultedIpIsIrrelevant | geolocation.js:24-35 | When no IP lookup is made, any other IP answer gives the same resolution. |
| Geolocation.UnconsultedReverseIsIrrelevant | geolocation.js:41-48 | When no reverse geocoding is requested, any other reverse-geocoding answer gives the same resolution. |
| Geolocation.NoServiceGivesWorld | geolocation.js:46-48 | Without geolocation support and with a failing IP lookup, the resolution makes one call and reports "Мир"/"Мир". |

## Left out

- DOM work: element lookups, the date picker, loading messages and `renderNews` (app.js:1-9, 76-108). `showNewsByLocation` only wires `getLocation` to `fetchNews` and the renderer.
- The NewsAPI source table and the top-headlines URL builder (app.js:12-28). They are never called, because their only use is commented out, and they need an API key.
- `fetch`, JSON parsing, `navigator.geolocation.getCurrentPosition` and Promise construction. They are I/O and browser APIs, and their results are the abstract outcomes `Feed`, `IpOutcome`, `ReverseOutcome` and `DeviceOutcome`.
- The coordinates from `pos.coords` (geolocation.js:27). They are floats used only to build the reverse-geocoding URL.
- A position request that never calls back. No timeout is passed to `getCurrentPosition`, so the browser may leave the promise pending. The model treats the device outcome as always arriving.
- JSON field values that are not strings (numbers, objects, `null` articles). Such values would change `||` and `===` results or throw inside the filter. Fields are modelled as absent or as strings.
- The `catch` branch of fetchNews (app.js:71-72) is not modelled separately. fetchFallbackNews catches every error itself, so that branch cannot be reached.
- The `window.GeoNews` global and overlapping resolutions. The code does nothing to order concurrent requests, so there is nothing to verify.
- Distance computation and the place list of the second widget (`daniil 9I/`). They are not part of this model.
