/** `plugin.getCategories`: picks one data source from the settings and the
    optional category filter, fetches the candidate topics from the host, runs
    the trim-and-dedup pass and attaches the presentation snapshot. */
module Selection {
  import opened Wrappers
  import opened JsValues
  import opened Decimal
  import opened PluginSettings
  import opened Topics
  import opened Cards

  /** The number of group posts asked for. */
  const GroupPostCount: nat := 19
  /** The fetch window of the topic sources, both ends inclusive. */
  const WindowStart: nat := 0
  const WindowStop: nat := 19
  /** The global recency set. */
  const RecentKey: string := "topics:recent"
  const CategoryKeyPrefix: string := "cid:"
  const CategoryKeySuffix: string := ":tids:lastposttime"

  /** What `getCategories` is given: the viewer of `data.req`, when there is a
      request, and `data.cid`, where 0 stands for "no category filter". */
  datatype Request = Request(viewer: Option<int>, filterCid: int)

  /** The uid the host is asked on behalf of; 0 when there is no request. */
  function Uid(req: Request): (uid: int)
    ensures req.viewer.None? ==> uid == 0
    ensures req.viewer.Some? ==> uid == req.viewer.value
  {
    req.viewer.GetOr(0)
  }

  /** The one call made to the host's data layer. */
  datatype Query =
    | LatestMemberPosts(groupName: JsValue, count: nat, uid: int)
    | SortedTopics(uid: int, start: nat, stop: nat, term: JsValue, sort: string, cids: int)
    | TopicsFromSet(key: string, uid: int, start: nat, stop: nat)

  /** The recency set of one category: the prefix, the category id as
      JavaScript renders it, and the suffix. */
  function CategoryKey(cid: int): (k: string)
    ensures |k| == |CategoryKeyPrefix| + |Show(cid)| + |CategoryKeySuffix|
    ensures k[..|CategoryKeyPrefix|] == CategoryKeyPrefix
    ensures k[|k| - |CategoryKeySuffix|..] == CategoryKeySuffix
    ensures k[|CategoryKeyPrefix|..|k| - |CategoryKeySuffix|] == Show(cid)
  {
    CategoryKeyPrefix + Show(cid) + CategoryKeySuffix
  }

  /** The category a recency-set key belongs to, if it is a category key. */
  function KeyCid(key: string): Option<int> {
    var n := |CategoryKeyPrefix| + |CategoryKeySuffix|;
    if n <= |key|
       && key[..|CategoryKeyPrefix|] == CategoryKeyPrefix
       && key[|key| - |CategoryKeySuffix|..] == CategoryKeySuffix
    then Parse(key[|CategoryKeyPrefix|..|key| - |CategoryKeySuffix|])
    else None
  }

  /** A category key names its category, and the global key names none. */
  lemma KeyCidRoundTrip(cid: int)
    ensures KeyCid(CategoryKey(cid)) == Some(cid)
    ensures KeyCid(RecentKey) == None
  {
    var key := CategoryKey(cid);
    var s := Show(cid);
    assert key[..|CategoryKeyPrefix|] == CategoryKeyPrefix;
    assert key[|key| - |CategoryKeySuffix|..] == CategoryKeySuffix;
    assert key[|CategoryKeyPrefix|..|key| - |CategoryKeySuffix|] == s;
    ShowRoundTrip(cid);
  }

  /** The source choice, in priority order: a configured group, then a
      popularity term, then the filtered category's recency set, then the
      global recency set. */
  function ChooseQuery(s: Settings, uid: int, filterCid: int): (q: Query)
    ensures q.uid == uid
    ensures q.LatestMemberPosts? <==> Truthy(Get(s, "groupName"))
    ensures q.SortedTopics? <==> !Truthy(Get(s, "groupName")) && Truthy(Get(s, "popularTerm"))
    ensures q.LatestMemberPosts? ==> q.groupName == Get(s, "groupName") && q.count == GroupPostCount
    ensures q.SortedTopics? ==>
      q.term == Get(s, "popularTerm") && q.sort == "posts" && q.cids == filterCid
    ensures !q.LatestMemberPosts? ==> q.start == WindowStart && q.stop == WindowStop
    // The set key, first by the category it names and then as the exact string.
    ensures q.TopicsFromSet? ==>
      (filterCid == 0 ==> KeyCid(q.key) == None) && (filterCid != 0 ==> KeyCid(q.key) == Some(filterCid))
    ensures q.TopicsFromSet? ==> q.key == if filterCid != 0 then CategoryKey(filterCid) else RecentKey
  {
    KeyCidRoundTrip(filterCid);
    if Truthy(Get(s, "groupName")) then
      LatestMemberPosts(Get(s, "groupName"), GroupPostCount, uid)
    else if Truthy(Get(s, "popularTerm")) then
      SortedTopics(uid, WindowStart, WindowStop, Get(s, "popularTerm"), "posts", filterCid)
    else if filterCid != 0 then
      TopicsFromSet(CategoryKey(filterCid), uid, WindowStart, WindowStop)
    else
      TopicsFromSet(RecentKey, uid, WindowStart, WindowStop)
  }

  /** A configured group wins over a popularity term and over the filter. */
  lemma GroupNameWins(s: Settings, uid: int, cid1: int, cid2: int, term: JsValue)
    requires Truthy(Get(s, "groupName"))
    ensures ChooseQuery(s["popularTerm" := term], uid, cid1) == ChooseQuery(s, uid, cid2)
  {
    assert Get(s["popularTerm" := term], "groupName") == Get(s, "groupName");
  }

  /** Without a group, a popularity term wins over the recency sets. */
  lemma PopularTermBeatsRecency(s: Settings, uid: int, cid: int)
    requires !Truthy(Get(s, "groupName")) && Truthy(Get(s, "popularTerm"))
    ensures !ChooseQuery(s, uid, cid).TopicsFromSet?
  {
  }

  /** Different category filters read different recency sets. */
  lemma CategoryKeysDistinct(cid1: int, cid2: int)
    requires cid1 != cid2
    ensures CategoryKey(cid1) != CategoryKey(cid2)
    ensures CategoryKey(cid1) != RecentKey
  {
    KeyCidRoundTrip(cid1);
    KeyCidRoundTrip(cid2);
  }

  /** The host's data layer: group member posts for the group query, topics
      for the other two. */
  datatype Host = Host(posts: Query -> Result<seq<Post>>, topics: Query -> Result<seq<Topic>>)

  /** The candidate topics one query yields; group posts are unwrapped. */
  function Fetch(host: Host, q: Query): (r: Result<seq<Topic>>)
    ensures q.LatestMemberPosts? && host.posts(q).Err? ==> r == Err(host.posts(q).error)
    ensures q.LatestMemberPosts? && host.posts(q).Ok? ==>
      r.Ok? && |r.value| == |host.posts(q).value|
      && forall i :: 0 <= i < |r.value| ==>
        r.value[i].tid == host.posts(q).value[i].topic.tid
        && r.value[i].cid == host.posts(q).value[i].topic.cid
        && r.value[i].title == host.posts(q).value[i].topic.title
        && r.value[i].category == Some(host.posts(q).value[i].category)
        && r.value[i].timestampISO == Some(host.posts(q).value[i].timestampISO)
    ensures q.LatestMemberPosts? && host.posts(q).Ok? ==> r == Ok(Unwrap(host.posts(q).value))
    ensures !q.LatestMemberPosts? ==> r == host.topics(q)
  {
    if q.LatestMemberPosts? then
      match host.posts(q)
      case Err(e) => Err(e)
      case Ok(ps) => Ok(Unwrap(ps))
    else host.topics(q)
  }

  /** The template data `getCategories` adds. */
  datatype TemplateData = TemplateData(topics: seq<Topic>, recentCards: Presentation)

  /** `plugin.getCategories`. A fetch error is handed on unchanged and no
      template data is produced. */
  function GetCategories(req: Request, s: Settings, host: Host): (r: Result<TemplateData>)
    ensures var fetched := Fetch(host, ChooseQuery(s, Uid(req), req.filterCid));
      && (fetched.Err? ==> r == Err(fetched.error))
      && (fetched.Ok? ==>
        && r.Ok?
        && IsSubsequence(r.value.topics, fetched.value)
        && (CarouselEnabled(s) ==> r.value.topics == fetched.value)
        && (!CarouselEnabled(s) ==> |r.value.topics| <= MaxCards)
        && (!CarouselEnabled(s) && req.filterCid == 0 ==> DistinctCids(r.value.topics))
        && (!CarouselEnabled(s) && req.filterCid == 0 ==>
              r.value.topics == Take(FirstPerCategory(fetched.value), MaxCards))
        && (!CarouselEnabled(s) && req.filterCid != 0 ==>
              r.value.topics == Take(fetched.value, MaxCards))
        && r.value.recentCards == Snapshot(s)
        && Truthy(r.value.recentCards.enableCarousel) == CarouselEnabled(s))
  {
    match Fetch(host, ChooseQuery(s, Uid(req), req.filterCid))
    case Err(e) => Err(e)
    case Ok(candidates) =>
      SelectSubsequence(candidates, req.filterCid, CarouselEnabled(s));
      SelectDistinct(candidates);
      SelectMatchesReference(candidates);
      SelectFiltered(candidates, req.filterCid);
      Ok(TemplateData(Select(candidates, req.filterCid, CarouselEnabled(s)), Snapshot(s)))
  }

  /** The request `renderWidget` builds: the widget's viewer, and the widget's
      category or 0 (`widget.data.cid || 0`). */
  function WidgetRequest(widgetUid: int, widgetCid: Option<int>): (req: Request)
    ensures Uid(req) == widgetUid
    ensures req.filterCid != 0 <==> widgetCid.Some? && widgetCid.value != 0
    ensures req.filterCid != 0 ==> req.filterCid == widgetCid.value
  {
    Request(Some(widgetUid), widgetCid.GetOr(0))
  }

  /** The request the external render route builds: no viewer, no filter. */
  const ExternalRequest: Request := Request(None, 0)

  /** The external page asks on behalf of uid 0, and with no group or term
      configured reads the global recency set. */
  lemma ExternalReadsGlobalRecency(s: Settings)
    requires !Truthy(Get(s, "groupName")) && !Truthy(Get(s, "popularTerm"))
    ensures ChooseQuery(s, Uid(ExternalRequest), ExternalRequest.filterCid)
      == TopicsFromSet(RecentKey, 0, WindowStart, WindowStop)
  {
  }
}
