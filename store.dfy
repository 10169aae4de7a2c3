/**
 * The WordPress content store as the plugin sees it: a table of posts (type,
 * title, content) and a table of post meta, keyed by post id and meta key.
 * The two tables are separate because update_post_meta writes a meta row for
 * an id whether or not a post with that id exists.
 */
module PostStore {
  import opened PhpMath

  datatype Option<T> = None | Some(value: T)

  /** A stored meta value: a number (integers and floats alike) or text. */
  datatype Meta = Num(x: real) | Text(s: string)

  /** The columns of a post row the core reads. */
  datatype Post = Post(postType: string, title: string, content: string)

  type MetaTable = map<int, map<string, Meta>>

  const BOOKING_TYPE := "gigtune_booking"
  const ARTIST_TYPE := "artist_profile"

  /** get_post_meta($id, $key, true): None stands for the empty string returned for a missing key. */
  function Lookup(t: MetaTable, id: int, key: string): (r: Option<Meta>)
    ensures r.Some? <==> id in t && key in t[id]
  {
    if id in t && key in t[id] then Some(t[id][key]) else None
  }

  /** update_post_meta($id, $key, $v): one cell changes, every other cell keeps its value. */
  function Put(t: MetaTable, id: int, key: string, v: Meta): (r: MetaTable)
    ensures Lookup(r, id, key) == Some(v)
    ensures forall i, k :: (i != id || k != key) ==> Lookup(r, i, k) == Lookup(t, i, k)
    ensures r.Keys == t.Keys + {id}
  {
    t[id := (if id in t then t[id] else map[])[key := v]]
  }

  /** A second write to the same cell replaces the first. */
  lemma PutOverwrite(t: MetaTable, id: int, key: string, v1: Meta, v2: Meta)
    ensures Put(Put(t, id, key, v1), id, key, v2) == Put(t, id, key, v2)
  {
    var row := if id in t then t[id] else map[];
    assert row[key := v1][key := v2] == row[key := v2];
  }

  /** (float) of a stored value; a missing value and text both read as 0. */
  function FloatOf(v: Option<Meta>): real
  {
    match v
    case Some(Num(x)) => x
    case _ => 0.0
  }

  /** (int) of a stored value. */
  function IntOf(v: Option<Meta>): int
  {
    Trunc(FloatOf(v))
  }

  /** PHP truthiness of a stored value: missing, 0, "" and "0" are false. */
  predicate Truthy(v: Option<Meta>)
  {
    match v
    case None => false
    case Some(Num(x)) => x != 0.0
    case Some(Text(s)) => s != "" && s != "0"
  }

  /**
   * get_post($id) returns a post of the given type. Id 0 never names a stored
   * post: get_post(0) falls back to the page being rendered, which is neither
   * a booking nor an artist profile.
   */
  predicate IsPostOfType(posts: map<int, Post>, id: int, postType: string)
  {
    id > 0 && id in posts && posts[id].postType == postType
  }

  /** The store every handler reads and writes. */
  class Store {
    var posts: map<int, Post>
    var meta: MetaTable

    constructor (initialPosts: map<int, Post>, initialMeta: MetaTable)
      ensures posts == initialPosts && meta == initialMeta
    {
      posts := initialPosts;
      meta := initialMeta;
    }

    method UpdateMeta(id: int, key: string, v: Meta)
      modifies this
      ensures meta == Put(old(meta), id, key, v)
      ensures posts == old(posts)
    {
      meta := Put(meta, id, key, v);
    }
  }
}
