# Recent Cards: topic selection model

A Dafny model of the topic-selection step of a forum plugin that shows recent
topics as a row of cards or as a carousel. `plugin.getCategories` in
`library.js` does two things:

- It picks one data source from the plugin settings and an optional category
  filter. The sources, in priority order, are: the configured group's 19 latest
  member posts; topics sorted by post count for a popularity term; the filtered
  category's recency set `cid:<cid>:tids:lastposttime`; the global set
  `topics:recent`. The topic sources use the inclusive window 0..19.
- Its inner `renderCards` makes one forward pass over the fetched candidates.
  With the carousel off, the pass keeps at most four topics. When there is no
  category filter, it also skips a topic whose category id was already taken.
  With the carousel on, the candidates are kept unchanged. A presentation
  snapshot of the settings is then attached. The snapshot reads the text shadow
  from key `shadow`, which the registered defaults do not define (they define
  `textShadow`). So the snapshot's text shadow is `undefined` unless a `shadow`
  setting exists.

Modules, one per concern:

- `Wrappers`: `Option` and `Result`. The result of a host call carries the
  host's error message.
- `JsValues`: setting values, with JavaScript truthiness.
- `Decimal`: how JavaScript renders an integer inside a string, and its inverse.
- `PluginSettings`: `settings.get`, the registered defaults, the carousel flag and
  the presentation snapshot.
- `Topics`: topic and post records, and the unwrapping of group posts into topics.
- `Cards`: the trim-and-dedup pass. It is written three ways: the loop as the
  source writes it (`TrimAndDedup`), a recursive definition (`Pick`), and an
  independent reference (`FirstPerCategory`). Lemmas connect them.
- `Selection`: source choice, the host fetch, `getCategories`, and the requests
  built by the widget route and the external route.

Conventions:

- A category id is an `int`, standing for what `parseInt(cid, 10)` returns.
- The category filter is an `int`, where 0 means "no filter". This follows the
  JavaScript truthiness of `data.cid` and the `widget.data.cid || 0` default.
- Settings map keys to JavaScript scalars. A missing key reads as `undefined`.
- The host's data layer is a `Host` value holding two total functions. One
  answers the group-posts query with posts; the other answers the two topic
  queries with topics. Their internals are not modelled.

One natural reading of the plugin is that a category filter returns the whole
fetched list unmodified. The code does not do that, and the model follows the
code: a filter only turns off the category dedup, and with the carousel off the
four-card cap still applies (`Cards.SelectFiltered`).

## Model

| member | source | states |
|---|---|---|
| Cards.TrimAndDedup | library.js:127-144 | The loop computes exactly the recursive selection: with the carousel on it returns the candidates unchanged, otherwise at most four topics |
| Cards.Select | library.js:131-144 | Carousel mode keeps the candidate list as it is; otherwise at most four cards are selected |
| Cards.Pick | library.js:132-141 | A pass with `room` free cards takes no more than `room` topics and no more than there are candidates |
| Cards.PickDistinct | library.js:133-137 | An unfiltered pass takes no two topics of one category and no category already seen |
| Cards.PickSubsequence | library.js:132-141 | The topics a pass takes are a subsequence of its candidates |
| Cards.PickGreedy | library.js:132-141 | If an unfiltered pass stops short of its room, every candidate's category was seen before or taken |
| Cards.PickFilteredIsPrefix | library.js:135-137 | A filtered pass takes exactly the first `room` candidates |
| Cards.PickIsTakeOfFresh | library.js:132-141 | An unfiltered pass is the first `room` topics that open a category not yet seen |
| Cards.FirstPerCategoryIsFresh | library.js:133-137 | The back-to-front reference (each topic that is the first of its category) equals the front-to-back dedup |
| Cards.SelectDistinct | library.js:133-137 | With the carousel off and no filter, no two selected topics share a category id |
| Cards.SelectSubsequence | library.js:132-143 | The selection keeps candidate order and invents no topic, in every mode |
| Cards.SelectGreedy | library.js:132-141 | With the carousel off and no filter, fewer than four cards means every candidate's category is represented in the result |
| Cards.SelectFiltered | library.js:132-141 | With the carousel off and a non-zero filter, the result is the first min(4, n) candidates |
| Cards.SelectMatchesReference | library.js:132-141 | With the carousel off and no filter, the result is the first four of the topics that each open a new category |
| Cards.ThreeCategoriesExample | library.js:132-141 | Categories 1, 2, 1, 3, 2 select the first, second and fourth candidates |
| Topics.Attach | library.js:165-167 | A topic taken from a post keeps its id, category id and title, and takes the post's category and timestamp |
| Topics.Unwrap | library.js:163-169 | Unwrapping keeps the number and order of the posts; the i-th topic carries the i-th post's category and timestamp |
| PluginSettings.CarouselEnabled | library.js:131 | Carousel mode is on exactly when `enableCarousel` holds a truthy value; a missing key, `0`, `""`, `false` or `null` leave it off |
| PluginSettings.Snapshot | library.js:147-153 | Title, opacity, `enableCarousel` and `enableCarouselPagination` are read from their own keys, but the text shadow is read from key `shadow`, so it is `undefined` unless that key is set; the snapshot's carousel flag is truthy exactly when carousel mode is on |
| PluginSettings.SnapshotIgnoresTextShadow | library.js:150 | Changing the `textShadow` setting never changes the snapshot |
| PluginSettings.SnapshotReadsOnlyItsKeys | library.js:147-153 | Settings outside title, opacity, shadow and the two carousel flags do not affect the snapshot |
| PluginSettings.DefaultSnapshot | library.js:10 | Under the registered defaults the carousel is off, and the snapshot's shadow is `undefined` although the default text shadow is "none" |
| Selection.Uid | library.js:119 | The uid is the request's viewer, or 0 when there is no request |
| Selection.CategoryKey | library.js:184 | The category key is `cid:`, then the category id as JavaScript renders it, then `:tids:lastposttime` |
| Selection.KeyCidRoundTrip | library.js:184 | A category recency key names exactly its category; `topics:recent` names none |
| Selection.ChooseQuery | library.js:158-188 | The group query is chosen exactly when a group is set, with 19 posts; the popularity query exactly when no group is set and a term is set, with sort "posts", window 0..19 and the filter; otherwise the set key is exactly `CategoryKey(filter)` when filtered and `topics:recent` when unfiltered |
| Selection.GroupNameWins | library.js:158-173 | With a group set, neither the popularity term nor the filter changes the query |
| Selection.PopularTermBeatsRecency | library.js:173-187 | Without a group, a popularity term rules out both recency sets |
| Selection.CategoryKeysDistinct | library.js:183-187 | Different filters read different recency sets, and no filter's set is the global one |
| Selection.Fetch | library.js:158-172 | A group-post error is passed on as is; otherwise the candidates are the unwrapped posts, one topic per post with the topic's tid, cid and title and the post's category and timestamp; other queries return the host's answer |
| Selection.GetCategories | library.js:118-189 | A fetch error becomes the result, with no template data. Otherwise the topics are a subsequence of the candidates. They are the candidates themselves in carousel mode. Otherwise, when unfiltered, they are the first four topics that each open a new category (so at most four, distinct categories); when filtered, the first four candidates. The template's `recentCards` is the settings snapshot, and its carousel flag agrees with the mode used |
| Selection.WidgetRequest | library.js:61-72 | The widget's request carries the widget's viewer, and a filter exactly when the widget has a non-zero category |
| Selection.ExternalReadsGlobalRecency | library.js:89-92 | The external route asks as uid 0 and, with no group or term, reads `topics:recent` with window 0..19 |
| Decimal.Show | library.js:184 | JavaScript's rendering of an integer is in canonical form: a minus sign exactly for negative integers, then at least one digit, with no leading zero; `ShowRoundTrip` gives its partner |
| Decimal.ShowRoundTrip | library.js:184 | The decimal rendering of a category id reads back as that id |
| Decimal.ShowInjective | library.js:184 | Distinct category ids render to distinct strings |

## Left out

- Route registration and the HTTP handlers (`plugin.init`, `renderExternal` beyond its request, `renderExternalStyle`, `testRenderExternal`, `renderAdmin`): these are host routing and template rendering.
- `plugin.defineWidgets` and `plugin.addAdminNavigation`: they only push static records and call the host renderer.
- Settings persistence and the `syncRecentCards` admin action: these belong to the host settings store. The model takes the settings as `settings.get` answers them.
- The host data calls `groups.getLatestMemberPosts`, `topics.getSortedTopics` and `topics.getTopicsFromSet`: they are abstract functions of the query, and their visibility rules and ordering are not modelled.
- The `config.relative_path` and `relative_url` template fields: they come from the host configuration (`nconf`).
- `validator.escape` and `groups.isPrivilegeGroup` in the admin group list: these are foreign library calls.
- `static/lib/external.js`: it is browser DOM injection, an AJAX fetch and third-party carousel and relative-time setup.
- NaN from `parseInt`: a category id is always an integer here. In the source, two topics whose ids both parse to NaN count as one category, because `includes` matches NaN.
- The `cids` argument of the popularity query: the external route passes `undefined` and a widget without a category passes 0. Both are modelled as 0.
- Decimal.Show: it does not model the exponent notation JavaScript uses for integers of magnitude 10^21 or more.
- Callback asynchrony.
- Topics.Unwrap: the source writes the category and timestamp into the host's own topic object. The model builds new values instead. If the host hands two posts the same topic object, the source's list holds that object twice, and both entries carry the last post's category and timestamp. The per-index property of `Topics.Unwrap` does not hold for the source in that case.
- Setting values that are fractional numbers or NaN: `JsValue` numbers are integers. NaN is falsy in JavaScript, so a NaN setting would read as switched off.
