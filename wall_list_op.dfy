/** FeedWallListOp: the operation that fetches either the whole wall list
    or one wall and upserts what it receives into the local store. */
module WallListOp {
  import opened Wrappers
  import opened Errors
  import opened Store

  /** FeedWallListOp.Mode */
  datatype Mode = All | SingleWall(wallId: int)

  /** The synthesised Equatable conformance of Mode: `.all` equals only
      itself and two single-wall modes are equal exactly when their ids are. */
  lemma ModeEquality(a: int, b: int)
    ensures All == All
    ensures SingleWall(a) == SingleWall(b) <==> a == b
    ensures All != SingleWall(a)
  {
  }

  /** The walls after `main` has run against the given remote answers:
      `.all` upserts the fetched list in order, `.singleWall` upserts the
      one fetched wall, and a failed fetch changes nothing. */
  function MainEffect(mode: Mode, walls: Walls, remote: Remote): (r: Walls)
    ensures walls.Keys <= r.Keys
    ensures mode.All? && remote.walls.Success? ==> |r| <= |walls| + |remote.walls.value|
    ensures mode.SingleWall? && remote.wall(mode.wallId).Success? ==>
              remote.wall(mode.wallId).value.id in r && |r| <= |walls| + 1
  {
    match mode
    case All =>
      (match remote.walls
       case Success(wallList) => UpsertAll(walls, WallRecords(wallList), WallId)
       case Failure(_) => walls)
    case SingleWall(id) =>
      (match remote.wall(id)
       case Success(wallModel) => Upsert(walls, WallRecord(wallModel), WallId)
       case Failure(_) => walls)
  }

  /** A failed fetch, in either mode, leaves the walls unchanged. */
  lemma FailedFetchChangesNothing(mode: Mode, walls: Walls, remote: Remote)
    requires mode.All? ==> remote.walls.Failure?
    requires mode.SingleWall? ==> remote.wall(mode.wallId).Failure?
    ensures MainEffect(mode, walls, remote) == walls
  {
  }

  /** `.all`: every listed wall is stored with the topic of the last model
      in the list that has its id; walls the list does not mention keep
      their records. */
  lemma AllStoresLastTopic(walls: Walls, remote: Remote, wallList: seq<WallModel>, i: int, other: int)
    requires remote.walls == Success(wallList)
    requires 0 <= i < |wallList|
    requires forall j :: i < j < |wallList| ==> wallList[j].id != wallList[i].id
    requires forall j :: 0 <= j < |wallList| ==> wallList[j].id != other
    ensures var after := MainEffect(All, walls, remote);
            && wallList[i].id in after
            && after[wallList[i].id] == WallRec(wallList[i].id, wallList[i].topic)
            && (other in after <==> other in walls)
            && (other in walls ==> after[other] == walls[other])
  {
    var recs := WallRecords(wallList);
    forall j | 0 <= j < |recs|
      ensures WallId(recs[j]) == wallList[j].id
    {
    }
    UpsertAllLastWins(walls, recs, WallId, i);
    assert LastIndex(recs, other, WallId) == -1;
    UpsertAllLookup(walls, recs, WallId, other);
  }

  /** `.singleWall`: exactly the fetched wall is upserted, under the id the
      server returned. */
  lemma SingleWallStoresFetched(walls: Walls, remote: Remote, id: int, wallModel: WallModel)
    requires remote.wall(id) == Success(wallModel)
    ensures var after := MainEffect(SingleWall(id), walls, remote);
            && after.Keys == walls.Keys + {wallModel.id}
            && after[wallModel.id] == WallRec(wallModel.id, wallModel.topic)
            && (forall k :: k in walls && k != wallModel.id ==> after[k] == walls[k])
            && |after| == if wallModel.id in walls then |walls| else |walls| + 1
  {
  }

  /** Running the operation a second time against the same answers leaves
      the store as the first run left it. */
  lemma MainIdempotent(mode: Mode, walls: Walls, remote: Remote)
    ensures MainEffect(mode, MainEffect(mode, walls, remote), remote) == MainEffect(mode, walls, remote)
  {
    if mode.All? && remote.walls.Success? {
      UpsertAllIdempotent(walls, WallRecords(remote.walls.value), WallId);
    }
  }

  /** No run removes a wall or breaks the one-record-per-id rule. */
  lemma MainKeepsWalls(mode: Mode, walls: Walls, remote: Remote)
    requires Keyed(walls, WallId)
    ensures walls.Keys <= MainEffect(mode, walls, remote).Keys
    ensures Keyed(MainEffect(mode, walls, remote), WallId)
  {
    if mode.All? && remote.walls.Success? {
      var recs := WallRecords(remote.walls.value);
      UpsertAllKeyed(walls, recs, WallId);
    }
  }

  class FeedWallListOp {
    /** The operation's private context; the store it saves into. */
    const context: Context
    const mode: Mode

    constructor (context: Context, mode: Mode)
      ensures this.context == context && this.mode == mode
    {
      this.context := context;
      this.mode := mode;
    }

    /** `updateWall(wall:)`: fetch the wall with the model's id or create a
        new one, then set its id and topic. */
    method UpdateWall(wallModel: WallModel)
      requires context.Valid()
      modifies context
      ensures context.Valid()
      ensures context.walls == Upsert(old(context.walls), WallRecord(wallModel), WallId)
      ensures context.posts == old(context.posts)
    {
      var existing := context.FetchWall(wallModel.id);
      var wall: WallRec;
      match existing {
        case Some(found) =>
          wall := found;
        case None =>
          wall := WallRec(0, "");
      }
      wall := wall.(id := wallModel.id, topic := wallModel.topic);
      context.walls := context.walls[wall.id := wall];
    }

    /** The loop of `main()`'s `.all` branch: every wall model of the list,
        in order, upserted. */
    method UpdateAll(wallList: seq<WallModel>)
      requires context.Valid()
      modifies context
      ensures context.Valid()
      ensures context.walls == UpsertAll(old(context.walls), WallRecords(wallList), WallId)
      ensures context.posts == old(context.posts)
    {
      for i := 0 to |wallList|
        invariant context.Valid()
        invariant context.walls == UpsertAll(old(context.walls), WallRecords(wallList[..i]), WallId)
        invariant context.posts == old(context.posts)
      {
        UpdateWall(wallList[i]);
        assert wallList[..i + 1][..i] == wallList[..i];
      }
      assert wallList[..|wallList|] == wallList;
    }

    /** `main()`: one fetch according to the mode, then the upserts. */
    method RunMain(remote: Remote)
      requires context.Valid()
      modifies context
      ensures context.Valid()
      ensures context.walls == MainEffect(mode, old(context.walls), remote)
      ensures context.posts == old(context.posts)
    {
      match mode {
        case All =>
          match remote.walls {
            case Success(wallList) =>
              UpdateAll(wallList);
            case Failure(_) =>
          }
        case SingleWall(wallId) =>
          match remote.wall(wallId) {
            case Success(wallModel) =>
              UpdateWall(wallModel);
            case Failure(_) =>
          }
      }
    }
  }
}
