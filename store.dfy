/** The local store the sync operations write to: the response models the
    server sends, the Wall and Post records kept in the managed object
    context, and upsert by id (update the record with that id if there is
    one, create it otherwise), alone and over a list in order. */
module Store {
  import opened Wrappers
  import opened Errors

  /** FeedController.WallResponseModel */
  datatype WallModel = WallModel(id: int, topic: string, userId: int, isPublic: bool)

  /** FeedController.PostResponseModel */
  datatype PostModel = PostModel(id: int, wallId: int, userId: int, text: string)

  /** FeedController.WallCreateModel */
  datatype WallCreateModel = WallCreateModel(topic: string, isPublic: bool)

  /** The attributes of a Wall entity the sync writes; a wall model's
      userId and isPublic are not stored. */
  datatype WallRec = WallRec(id: int, topic: string)

  /** A Post entity; `wall` is the id of the Wall object it is linked to.
      A post model's userId is not stored. */
  datatype PostRec = PostRec(id: int, text: string, wall: int)

  type Walls = map<int, WallRec>
  type Posts = map<int, PostRec>

  /** The answers of the remote gateway, as `getWalls`, `getWall(id:)` and
      `getPosts(wallId:)` hand them to their completions. */
  datatype Remote = Remote(
    walls: Result<seq<WallModel>, Error>,
    wall: int -> Result<WallModel, Error>,
    posts: int -> Result<seq<PostModel>, Error>)

  function WallId(w: WallRec): int { w.id }

  function PostId(p: PostRec): int { p.id }

  /** Every record is stored under its own id: the fetch "id == %d" finds
      at most one record. */
  ghost predicate Keyed<R>(store: map<int, R>, key: R -> int)
  {
    forall k :: k in store ==> key(store[k]) == k
  }

  /** Every post is linked to a wall that is in the store. */
  ghost predicate NoOrphans(walls: Walls, posts: Posts)
  {
    forall k :: k in posts ==> posts[k].wall in walls
  }

  /** Fetch the record with the given id, or create one, and set its
      attributes: the store afterwards holds `rec` under its id. */
  function Upsert<R>(store: map<int, R>, rec: R, key: R -> int): (r: map<int, R>)
    ensures r.Keys == store.Keys + {key(rec)}
    ensures r[key(rec)] == rec
    ensures forall k :: k in store && k != key(rec) ==> r[k] == store[k]
    ensures |r| == if key(rec) in store then |store| else |store| + 1
  {
    store[key(rec) := rec]
  }

  /** Upsert every record of the list, in list order: no record is removed
      and each list element adds at most one record. */
  function UpsertAll<R>(store: map<int, R>, recs: seq<R>, key: R -> int): (r: map<int, R>)
    ensures store.Keys <= r.Keys
    ensures |r| <= |store| + |recs|
    decreases |recs|
  {
    if recs == [] then store
    else
      Upsert(UpsertAll(store, recs[..|recs| - 1], key), recs[|recs| - 1], key)
  }

  /** The position of the last record with the given id, -1 if none. */
  function LastIndex<R>(recs: seq<R>, id: int, key: R -> int): (i: int)
    ensures -1 <= i < |recs|
    ensures i >= 0 ==> key(recs[i]) == id && forall j :: i < j < |recs| ==> key(recs[j]) != id
    ensures i == -1 ==> forall j :: 0 <= j < |recs| ==> key(recs[j]) != id
    decreases |recs|
  {
    if recs == [] then -1
    else if key(recs[|recs| - 1]) == id then |recs| - 1
    else LastIndex(recs[..|recs| - 1], id, key)
  }

  /** After upserting a list, the record under an id is the last record
      of the list with that id; an id the list does not mention is as it
      was. */
  lemma {:induction false} UpsertAllLookup<R>(store: map<int, R>, recs: seq<R>, key: R -> int, id: int)
    ensures var i := LastIndex(recs, id, key);
            var r := UpsertAll(store, recs, key);
            && (i >= 0 ==> id in r && r[id] == recs[i])
            && (i < 0 ==> (id in r <==> id in store) && (id in store ==> r[id] == store[id]))
    decreases |recs|
  {
    if recs != [] {
      var last := recs[|recs| - 1];
      if key(last) != id {
        UpsertAllLookup(store, recs[..|recs| - 1], key, id);
      }
    }
  }

  /** Among records with the same id, the last one in the list wins. */
  lemma UpsertAllLastWins<R>(store: map<int, R>, recs: seq<R>, key: R -> int, i: int)
    requires 0 <= i < |recs|
    requires forall j :: i < j < |recs| ==> key(recs[j]) != key(recs[i])
    ensures key(recs[i]) in UpsertAll(store, recs, key)
    ensures UpsertAll(store, recs, key)[key(recs[i])] == recs[i]
  {
    var l := LastIndex(recs, key(recs[i]), key);
    assert l == i;
    UpsertAllLookup(store, recs, key, key(recs[i]));
  }

  /** Upserting a list adds exactly the ids it mentions and removes none. */
  lemma UpsertAllKeys<R>(store: map<int, R>, recs: seq<R>, key: R -> int)
    ensures forall id :: id in UpsertAll(store, recs, key) <==>
                         id in store || exists j :: 0 <= j < |recs| && key(recs[j]) == id
  {
    forall id
      ensures id in UpsertAll(store, recs, key) <==>
              id in store || exists j :: 0 <= j < |recs| && key(recs[j]) == id
    {
      UpsertAllLookup(store, recs, key, id);
    }
  }

  /** Upserting a list of records keeps every record under its own id. */
  lemma {:induction false} UpsertAllKeyed<R>(store: map<int, R>, recs: seq<R>, key: R -> int)
    requires Keyed(store, key)
    ensures Keyed(UpsertAll(store, recs, key), key)
    decreases |recs|
  {
    if recs != [] {
      UpsertAllKeyed(store, recs[..|recs| - 1], key);
    }
  }

  /** Upserting the same list again changes nothing: syncing unchanged
      server data leaves the store as it is. */
  lemma UpsertAllIdempotent<R>(store: map<int, R>, recs: seq<R>, key: R -> int)
    ensures UpsertAll(UpsertAll(store, recs, key), recs, key) == UpsertAll(store, recs, key)
  {
    var once := UpsertAll(store, recs, key);
    var twice := UpsertAll(once, recs, key);
    forall id
      ensures (id in twice <==> id in once) && (id in twice ==> twice[id] == once[id])
    {
      UpsertAllLookup(store, recs, key, id);
      UpsertAllLookup(once, recs, key, id);
    }
  }

  /** The record a wall model is stored as. */
  function WallRecord(m: WallModel): (w: WallRec)
    ensures w.id == m.id && w.topic == m.topic
  {
    WallRec(m.id, m.topic)
  }

  /** The record a post model is stored as when it is linked to `wall`. */
  function PostRecord(m: PostModel, wall: int): (p: PostRec)
    ensures p.id == m.id && p.text == m.text && p.wall == wall
  {
    PostRec(m.id, m.text, wall)
  }

  function WallRecords(ms: seq<WallModel>): (ws: seq<WallRec>)
    ensures |ws| == |ms|
    ensures forall i :: 0 <= i < |ms| ==> ws[i] == WallRecord(ms[i])
    decreases |ms|
  {
    if ms == [] then [] else WallRecords(ms[..|ms| - 1]) + [WallRecord(ms[|ms| - 1])]
  }

  function PostRecords(ms: seq<PostModel>, wall: int): (ps: seq<PostRec>)
    ensures |ps| == |ms|
    ensures forall i :: 0 <= i < |ms| ==> ps[i] == PostRecord(ms[i], wall)
    decreases |ms|
  {
    if ms == [] then [] else PostRecords(ms[..|ms| - 1], wall) + [PostRecord(ms[|ms| - 1], wall)]
  }

  /** Every post written by upserting a list linked to `wall` is linked to
      `wall`; when `wall` is in the store, no orphan post arises. */
  lemma {:induction false} UpsertPostsLinked(walls: Walls, posts: Posts, ms: seq<PostModel>, wall: int)
    requires NoOrphans(walls, posts) && wall in walls
    ensures NoOrphans(walls, UpsertAll(posts, PostRecords(ms, wall), PostId))
    decreases |ms|
  {
    if ms != [] {
      var front := ms[..|ms| - 1];
      assert PostRecords(ms, wall)[..|ms| - 1] == PostRecords(front, wall);
      UpsertPostsLinked(walls, posts, front, wall);
    }
  }

  /** The managed object context a sync operation works in. */
  class Context {
    var walls: Walls
    var posts: Posts

    /** Records are stored under their ids and no post is an orphan. */
    ghost predicate Valid()
      reads this
    {
      Keyed(walls, WallId) && Keyed(posts, PostId) && NoOrphans(walls, posts)
    }

    constructor ()
      ensures walls == map[] && posts == map[] && Valid()
    {
      walls := map[];
      posts := map[];
    }

    /** Execute the fetch request "id == %d" on Wall and take the first hit. */
    method FetchWall(id: int) returns (found: Option<WallRec>)
      requires Valid()
      ensures found.Some? <==> id in walls
      ensures found.Some? ==> found.value == walls[id] && found.value.id == id
    {
      if id in walls {
        found := Some(walls[id]);
      } else {
        found := None;
      }
    }

    /** Execute the fetch request "id == %d" on Post and take the first hit. */
    method FetchPost(id: int) returns (found: Option<PostRec>)
      requires Valid()
      ensures found.Some? <==> id in posts
      ensures found.Some? ==> found.value == posts[id] && found.value.id == id
    {
      if id in posts {
        found := Some(posts[id]);
      } else {
        found := None;
      }
    }
  }
}
