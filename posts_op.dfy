/** FeedPostsOp: the operation that fetches the posts of one wall and
    upserts them into the local store, each linked to that wall. */
module PostsOp {
  import opened Wrappers
  import opened Errors
  import opened Store

  /** The posts after `main` has run for `wallId`: nothing happens when the
      wall is not in the store, a failed fetch changes nothing, and
      otherwise the fetched list is upserted in order, every post linked to
      that wall. */
  function MainEffect(wallId: int, walls: Walls, posts: Posts, remote: Remote): (r: Posts)
    ensures posts.Keys <= r.Keys
    ensures wallId !in walls ==> r == posts
    ensures remote.posts(wallId).Success? ==> |r| <= |posts| + |remote.posts(wallId).value|
  {
    if wallId !in walls then posts
    else
      match remote.posts(wallId)
      case Success(postList) => UpsertAll(posts, PostRecords(postList, walls[wallId].id), PostId)
      case Failure(_) => posts
  }

  /** Without the wall in the store, or when the fetch fails, the posts are
      unchanged. */
  lemma NothingWithoutWall(wallId: int, walls: Walls, posts: Posts, remote: Remote)
    requires wallId !in walls || remote.posts(wallId).Failure?
    ensures MainEffect(wallId, walls, posts, remote) == posts
  {
  }

  /** Every fetched post is stored with the text of the last model in the
      list that has its id and linked to the wall; posts the list does not
      mention keep their records. */
  lemma StoresLastPost(wallId: int, walls: Walls, posts: Posts, remote: Remote,
                       postList: seq<PostModel>, i: int, other: int)
    requires Keyed(walls, WallId) && wallId in walls
    requires remote.posts(wallId) == Success(postList)
    requires 0 <= i < |postList|
    requires forall j :: i < j < |postList| ==> postList[j].id != postList[i].id
    requires forall j :: 0 <= j < |postList| ==> postList[j].id != other
    ensures var after := MainEffect(wallId, walls, posts, remote);
            && postList[i].id in after
            && after[postList[i].id] == PostRec(postList[i].id, postList[i].text, wallId)
            && (other in after <==> other in posts)
            && (other in posts ==> after[other] == posts[other])
  {
    var recs := PostRecords(postList, walls[wallId].id);
    forall j | 0 <= j < |recs|
      ensures PostId(recs[j]) == postList[j].id
    {
    }
    UpsertAllLastWins(posts, recs, PostId, i);
    assert LastIndex(recs, other, PostId) == -1;
    UpsertAllLookup(posts, recs, PostId, other);
  }

  /** Running the operation again against the same answers changes nothing
      more. */
  lemma MainIdempotent(wallId: int, walls: Walls, posts: Posts, remote: Remote)
    ensures MainEffect(wallId, walls, MainEffect(wallId, walls, posts, remote), remote) ==
            MainEffect(wallId, walls, posts, remote)
  {
    if wallId in walls && remote.posts(wallId).Success? {
      UpsertAllIdempotent(posts, PostRecords(remote.posts(wallId).value, walls[wallId].id), PostId);
    }
  }

  /** A run keeps the store valid: posts stay under their ids, none is
      removed, and none is left without its wall. */
  lemma MainKeepsPosts(wallId: int, walls: Walls, posts: Posts, remote: Remote)
    requires Keyed(walls, WallId) && Keyed(posts, PostId) && NoOrphans(walls, posts)
    ensures var after := MainEffect(wallId, walls, posts, remote);
            && posts.Keys <= after.Keys
            && Keyed(after, PostId)
            && NoOrphans(walls, after)
  {
    if wallId in walls && remote.posts(wallId).Success? {
      var postList := remote.posts(wallId).value;
      var recs := PostRecords(postList, walls[wallId].id);
      UpsertAllKeyed(posts, recs, PostId);
      UpsertPostsLinked(walls, posts, postList, walls[wallId].id);
    }
  }

  class FeedPostsOp {
    /** The operation's private context; the store it saves into. */
    const context: Context
    const wallId: int

    constructor (wallId: int, context: Context)
      ensures this.wallId == wallId && this.context == context
    {
      this.context := context;
      this.wallId := wallId;
    }

    /** `getWall(id:)`: the first wall the fetch "id == %d" finds. */
    method GetWall(id: int) returns (wall: Option<WallRec>)
      requires context.Valid()
      ensures wall.Some? <==> id in context.walls
      ensures wall.Some? ==> wall.value == context.walls[id] && wall.value.id == id
    {
      wall := context.FetchWall(id);
    }

    /** `update(postModel:wall:)`: fetch the post with the model's id or
        create a new one, then set its id and text and link it to `wall`. */
    method Update(postModel: PostModel, wall: WallRec)
      requires context.Valid() && wall.id in context.walls
      modifies context
      ensures context.Valid()
      ensures context.posts == Upsert(old(context.posts), PostRecord(postModel, wall.id), PostId)
      ensures context.walls == old(context.walls)
    {
      var existing := context.FetchPost(postModel.id);
      var post: PostRec;
      match existing {
        case Some(found) =>
          post := found;
        case None =>
          post := PostRec(0, "", wall.id);
      }
      post := post.(id := postModel.id, text := postModel.text, wall := wall.id);
      context.posts := context.posts[post.id := post];
    }

    /** The loop of `main()`'s success branch: every post model of the
        list, in order, upserted and linked to `wall`. */
    method UpdateAll(postList: seq<PostModel>, wall: WallRec)
      requires context.Valid() && wall.id in context.walls
      modifies context
      ensures context.Valid()
      ensures context.posts == UpsertAll(old(context.posts), PostRecords(postList, wall.id), PostId)
      ensures context.walls == old(context.walls)
    {
      for i := 0 to |postList|
        invariant context.Valid()
        invariant context.posts == UpsertAll(old(context.posts), PostRecords(postList[..i], wall.id), PostId)
        invariant context.walls == old(context.walls)
      {
        Update(postList[i], wall);
        assert postList[..i + 1][..i] == postList[..i];
      }
      assert postList[..|postList|] == postList;
    }

    /** `main()`: find the wall, fetch its posts and upsert them; `fetched`
        is false when the wall is not in the store and nothing was asked of
        the server. */
    method RunMain(remote: Remote) returns (fetched: bool)
      requires context.Valid()
      modifies context
      ensures context.Valid()
      ensures fetched <==> wallId in old(context.walls)
      ensures context.posts == MainEffect(wallId, old(context.walls), old(context.posts), remote)
      ensures context.walls == old(context.walls)
    {
      var found := GetWall(wallId);
      if found.None? {
        return false;
      }
      var wall := found.value;
      fetched := true;
      match remote.posts(wallId) {
        case Failure(_) =>
        case Success(postList) =>
          UpdateAll(postList, wall);
      }
    }
  }
}
