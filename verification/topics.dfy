/** Topic and post records as the host's data layer supplies them. Only the
    fields the plugin reads or writes are modelled; the rest pass through. */
module Topics {
  import opened Wrappers

  /** The category object a post summary carries. */
  datatype Category = Category(cid: int, name: string)

  /** A topic. `cid` is the category id as `parseInt(topic.cid, 10)` reads it;
      `category` and `timestampISO` are absent until something sets them. */
  datatype Topic = Topic(
    tid: int,
    cid: int,
    title: string,
    category: Option<Category>,
    timestampISO: Option<string>)

  /** A post summary from the group's latest member posts. */
  datatype Post = Post(pid: int, topic: Topic, category: Category, timestampISO: string)

  /** The topic of one post, carrying the post's category and timestamp. */
  function Attach(p: Post): (t: Topic)
    ensures t.tid == p.topic.tid && t.cid == p.topic.cid && t.title == p.topic.title
    ensures t.category == Some(p.category) && t.timestampISO == Some(p.timestampISO)
  {
    p.topic.(category := Some(p.category), timestampISO := Some(p.timestampISO))
  }

  /** Unwraps group posts into topic records, one per post, in post order. */
  function Unwrap(posts: seq<Post>): (r: seq<Topic>)
    ensures |r| == |posts|
    ensures forall i :: 0 <= i < |posts| ==>
      && r[i].tid == posts[i].topic.tid
      && r[i].cid == posts[i].topic.cid
      && r[i].title == posts[i].topic.title
      && r[i].category == Some(posts[i].category)
      && r[i].timestampISO == Some(posts[i].timestampISO)
    decreases |posts|
  {
    if posts == [] then [] else [Attach(posts[0])] + Unwrap(posts[1..])
  }
}
