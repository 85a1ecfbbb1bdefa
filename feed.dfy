/** FeedController: the routes of the feed server, the scheduler that
    decides whether a sync operation is added to the operation queue, the
    execution of a queued operation against the local store, and the
    outcome handling of `getWalls`, `getWall` and `createWall`. */
module Feed {
  import opened Wrappers
  import opened Errors
  import opened Http
  import opened Store
  import Decimal
  import HttpClient
  import WallListOp
  import PostsOp

  /** The fixed server URL the controller's client is built with. */
  const ServerUrl: string := "http://localhost:8080"

  // ---------------------------------------------------------------------
  // Routes

  /** FeedController.Routes */
  datatype Route = WallList | Wall(id: int) | PostList(wallId: int)

  /** `Routes.endPoint`: ids are written in decimal by string interpolation. */
  function EndPoint(route: Route): (s: string)
    ensures |s| >= 6 && s[..6] == "/walls"
  {
    match route
    case WallList => "/walls"
    case Wall(id) => "/walls/" + Decimal.IntToDecimal(id)
    case PostList(wallId) => "/walls/" + Decimal.IntToDecimal(wallId) + "/posts"
  }

  /** How a server reads an end point back into a route. */
  function ParseEndPoint(s: string): Option<Route>
  {
    if s == "/walls" then Some(WallList)
    else if |s| > 7 && s[..7] == "/walls/" then
      var rest := s[7..];
      if |rest| > 6 && rest[|rest| - 6..] == "/posts" then
        match Decimal.ParseDecimal(rest[..|rest| - 6])
        case Some(wallId) => Some(PostList(wallId))
        case None => None
      else
        match Decimal.ParseDecimal(rest)
        case Some(id) => Some(Wall(id))
        case None => None
    else None
  }

  /** Every end point names exactly the route it was made from. */
  lemma {:induction false} EndPointRoundTrip(route: Route)
    ensures ParseEndPoint(EndPoint(route)) == Some(route)
  {
    var s := EndPoint(route);
    match route
    case WallList =>
    case Wall(id) =>
      var digits := Decimal.IntToDecimal(id);
      assert s[..7] == "/walls/" && s[7..] == digits;
      Decimal.DecimalRoundTrip(id);
      if |digits| > 6 {
        assert digits[|digits| - 1] != 's';
        assert digits[|digits| - 6..][5] == digits[|digits| - 1];
      }
    case PostList(wallId) =>
      var digits := Decimal.IntToDecimal(wallId);
      var rest := digits + "/posts";
      assert s[..7] == "/walls/" && s[7..] == rest;
      assert rest[|rest| - 6..] == "/posts";
      assert rest[..|rest| - 6] == digits;
      Decimal.DecimalRoundTrip(wallId);
  }

  /** Different routes have different end points. */
  lemma EndPointInjective(a: Route, b: Route)
    ensures EndPoint(a) == EndPoint(b) ==> a == b
  {
    EndPointRoundTrip(a);
    EndPointRoundTrip(b);
  }

  // ---------------------------------------------------------------------
  // The scheduler

  /** What the scheduler sees of an operation in `opQ.operations`: its
      class and its key. */
  datatype TrackedOp = WallListSync(mode: WallListOp.Mode) | PostsSync(wallId: int)

  predicate NoWallListOp(q: seq<TrackedOp>)
  {
    forall i :: 0 <= i < |q| ==> !q[i].WallListSync?
  }

  predicate NoPostsOp(q: seq<TrackedOp>)
  {
    forall i :: 0 <= i < |q| ==> !q[i].PostsSync?
  }

  /** `opQ.operations.compactMap { $0 as? FeedWallListOp }`, as the modes
      of the wall-list operations in queue order. */
  function WallListModes(q: seq<TrackedOp>): (modes: seq<WallListOp.Mode>)
    ensures |modes| <= |q|
    ensures |modes| == 0 <==> NoWallListOp(q)
    ensures forall m :: m in modes <==> WallListSync(m) in q
    decreases |q|
  {
    if q == [] then []
    else
      var front := q[..|q| - 1];
      var last := q[|q| - 1];
      assert q == front + [last];
      WallListModes(front) + (if last.WallListSync? then [last.mode] else [])
  }

  /** `opQ.operations.compactMap { $0 as? FeedPostsOp }`, as the wall ids
      of the posts operations in queue order. */
  function PostsWallIds(q: seq<TrackedOp>): (ids: seq<int>)
    ensures |ids| <= |q|
    ensures |ids| == 0 <==> NoPostsOp(q)
    ensures forall w :: w in ids <==> PostsSync(w) in q
    decreases |q|
  {
    if q == [] then []
    else
      var front := q[..|q| - 1];
      var last := q[|q| - 1];
      assert q == front + [last];
      PostsWallIds(front) + (if last.PostsSync? then [last.wallId] else [])
  }

  /** Swift's `compactMap`: the non-nil results of `f`, in order. */
  function CompactMap<A, B>(xs: seq<A>, f: A -> Option<B>): (r: seq<B>)
    ensures |r| <= |xs|
  {
    if xs == [] then []
    else (if f(xs[0]).Some? then [f(xs[0]).value] else []) + CompactMap(xs[1..], f)
  }

  /** A closure that never returns nil makes `compactMap` a plain `map`:
      nothing is dropped and the order is kept. */
  lemma {:induction false} CompactMapNeverNil<A, B>(xs: seq<A>, f: A -> Option<B>)
    requires forall i :: 0 <= i < |xs| ==> f(xs[i]).Some?
    ensures |CompactMap(xs, f)| == |xs|
    ensures forall i :: 0 <= i < |xs| ==> CompactMap(xs, f)[i] == f(xs[i]).value
  {
    if xs != [] {
      CompactMapNeverNil(xs[1..], f);
      assert forall i :: 1 <= i < |xs| ==> CompactMap(xs, f)[i] == CompactMap(xs[1..], f)[i - 1];
    }
  }

  /** The second `.compactMap { $0.mode == key }` (or `{ $0.wallId ==
      wallId }`). Its closure returns a Bool, never nil, so no element is
      dropped; each key becomes whether it equals the requested one. */
  function Matches<K(==)>(keys: seq<K>, key: K): (matches: seq<bool>)
    ensures |matches| == |keys|
    ensures forall i :: 0 <= i < |keys| ==> (matches[i] <==> keys[i] == key)
  {
    CompactMapNeverNil(keys, k => Some(k == key));
    CompactMap(keys, k => Some(k == key))
  }

  /** The guard of `updateWalls` and `updateWall(wallId:)`, as written:
      `wallListOps.count == 0`. It ignores its key: it passes exactly when
      no wall-list operation is tracked, whatever its mode. */
  predicate WallListGuard(q: seq<TrackedOp>, key: WallListOp.Mode)
    ensures WallListGuard(q, key) <==> NoWallListOp(q)
  {
    |Matches(WallListModes(q), key)| == 0
  }

  /** The guard of `updatePosts(wallId:)`, as written. It passes exactly
      when no posts operation is tracked, whatever its wall id. */
  predicate PostsGuard(q: seq<TrackedOp>, wallId: int)
    ensures PostsGuard(q, wallId) <==> NoPostsOp(q)
  {
    |Matches(PostsWallIds(q), wallId)| == 0
  }

  /** The queue after an update request for `op`: nothing without a parent
      context, nothing when the guard fails, otherwise `op` at the end. */
  function Enqueue(hasContext: bool, q: seq<TrackedOp>, op: TrackedOp): (r: seq<TrackedOp>)
    ensures r == q || r == q + [op]
  {
    if !hasContext then q
    else
      match op
      case WallListSync(mode) => if WallListGuard(q, mode) then q + [op] else q
      case PostsSync(wallId) => if PostsGuard(q, wallId) then q + [op] else q
  }

  /** Whether two tracked operations are of the same class. */
  predicate SameKind(a: TrackedOp, b: TrackedOp)
  {
    a.WallListSync? == b.WallListSync?
  }

  /** No operation of `op`'s class is tracked. */
  predicate NoneOfKind(q: seq<TrackedOp>, op: TrackedOp)
  {
    if op.WallListSync? then NoWallListOp(q) else NoPostsOp(q)
  }

  /** The queue never tracks two wall-list operations or two posts
      operations. */
  predicate AtMostOneEach(q: seq<TrackedOp>)
  {
    forall i, j :: 0 <= i < j < |q| ==> !SameKind(q[i], q[j])
  }

  /** The whole rule of the three update methods: an operation is added
      exactly when there is a parent context and no operation of its class
      is tracked; otherwise the queue is unchanged. In particular a pending
      `.all` operation or another wall's operation suppresses
      `updateWall(wallId:)`. */
  lemma EnqueueRule(hasContext: bool, q: seq<TrackedOp>, op: TrackedOp)
    ensures Enqueue(hasContext, q, op) == if hasContext && NoneOfKind(q, op) then q + [op] else q
  {
  }

  /** Any tracked operation of the same class suppresses a request. */
  lemma OtherKeySuppresses(q: seq<TrackedOp>, pending: TrackedOp, op: TrackedOp)
    requires pending in q && SameKind(pending, op)
    ensures Enqueue(true, q, op) == q
  {
    EnqueueRule(true, q, op);
  }

  /** A request without a parent context enqueues nothing. */
  lemma NoContextNoOp(q: seq<TrackedOp>, op: TrackedOp)
    ensures Enqueue(false, q, op) == q
  {
  }

  /** An update request keeps the queue at most one operation per class. */
  lemma EnqueueKeepsAtMostOne(hasContext: bool, q: seq<TrackedOp>, op: TrackedOp)
    requires AtMostOneEach(q)
    ensures AtMostOneEach(Enqueue(hasContext, q, op))
  {
    EnqueueRule(hasContext, q, op);
  }

  /** Two requests of the same class with no operation finishing in between
      add at most one operation: the second changes nothing. */
  lemma EnqueueTwiceAddsOnce(hasContext: bool, q: seq<TrackedOp>, a: TrackedOp, b: TrackedOp)
    requires SameKind(a, b)
    ensures Enqueue(hasContext, Enqueue(hasContext, q, a), b) == Enqueue(hasContext, q, a)
    ensures |Enqueue(hasContext, q, a)| <= |q| + 1
  {
    EnqueueRule(hasContext, q, a);
    var once := Enqueue(hasContext, q, a);
    EnqueueRule(hasContext, once, b);
    if once != q {
      assert once[|q|] == a;
    }
  }

  /** The queue once the operation at position `i` has finished. */
  function RemoveAt<T>(q: seq<T>, i: int): (r: seq<T>)
    requires 0 <= i < |q|
    ensures |r| == |q| - 1
    ensures forall k :: 0 <= k < i ==> r[k] == q[k]
    ensures forall k :: i <= k < |r| ==> r[k] == q[k + 1]
  {
    q[..i] + q[i + 1..]
  }

  /** Finishing an operation keeps the queue at most one per class. */
  lemma RemoveAtKeepsAtMostOne(q: seq<TrackedOp>, i: int)
    requires 0 <= i < |q| && AtMostOneEach(q)
    ensures AtMostOneEach(RemoveAt(q, i))
  {
    var r := RemoveAt(q, i);
    forall a, b | 0 <= a < b < |r|
      ensures !SameKind(r[a], r[b])
    {
      var a' := if a < i then a else a + 1;
      var b' := if b < i then b else b + 1;
      assert r[a] == q[a'] && r[b] == q[b'] && a' < b';
    }
  }

  /** Once the tracked operation of a class has finished and left the
      queue, the next request of that class is enqueued again. */
  lemma FinishThenEnqueue(q: seq<TrackedOp>, i: int, op: TrackedOp)
    requires 0 <= i < |q| && AtMostOneEach(q) && SameKind(q[i], op)
    ensures Enqueue(true, RemoveAt(q, i), op) == RemoveAt(q, i) + [op]
  {
    var r := RemoveAt(q, i);
    forall k | 0 <= k < |r|
      ensures !SameKind(r[k], op)
    {
      if k < i {
        assert r[k] == q[k] && !SameKind(q[k], q[i]);
      } else {
        assert r[k] == q[k + 1] && !SameKind(q[i], q[k + 1]);
      }
    }
    assert NoneOfKind(r, op);
    EnqueueRule(true, r, op);
  }

  /** The class-wide rule implies the per-key one the doc comments promise:
      an operation is only added when no identical one is tracked, and a
      queue that keeps the rule never tracks the same operation twice. */
  lemma PerKeyDedupImplied(hasContext: bool, q: seq<TrackedOp>, op: TrackedOp)
    ensures Enqueue(hasContext, q, op) != q ==> op !in q
    ensures AtMostOneEach(q) ==> forall i, j :: 0 <= i < j < |q| ==> q[i] != q[j]
  {
    EnqueueRule(hasContext, q, op);
  }

  // ---------------------------------------------------------------------
  // Running a queued operation

  /** The store after the given operation's `main` has run: a wall-list
      operation changes only walls, a posts operation only posts, and
      neither removes a record. */
  function RunEffect(op: TrackedOp, walls: Walls, posts: Posts, remote: Remote): (r: (Walls, Posts))
    ensures walls.Keys <= r.0.Keys && posts.Keys <= r.1.Keys
    ensures op.WallListSync? ==> r.1 == posts
    ensures op.PostsSync? ==> r.0 == walls
  {
    match op
    case WallListSync(mode) => (WallListOp.MainEffect(mode, walls, remote), posts)
    case PostsSync(wallId) => (walls, PostsOp.MainEffect(wallId, walls, posts, remote))
  }

  /** Every operation keeps the store valid and removes nothing, a wall-list
      operation never touches posts and a posts operation never touches
      walls, and running it again against the same answers changes nothing. */
  lemma RunKeepsStore(op: TrackedOp, walls: Walls, posts: Posts, remote: Remote)
    requires Keyed(walls, WallId) && Keyed(posts, PostId) && NoOrphans(walls, posts)
    ensures var (w, p) := RunEffect(op, walls, posts, remote);
            && Keyed(w, WallId) && Keyed(p, PostId) && NoOrphans(w, p)
            && walls.Keys <= w.Keys && posts.Keys <= p.Keys
            && (op.WallListSync? ==> p == posts)
            && (op.PostsSync? ==> w == walls)
            && RunEffect(op, w, p, remote) == (w, p)
  {
    match op
    case WallListSync(mode) =>
      WallListOp.MainKeepsWalls(mode, walls, remote);
      WallListOp.MainIdempotent(mode, walls, remote);
    case PostsSync(wallId) =>
      PostsOp.MainKeepsPosts(wallId, walls, posts, remote);
      PostsOp.MainIdempotent(wallId, walls, posts, remote);
  }

  // ---------------------------------------------------------------------
  // Outcome handling of the wall calls

  /** The decoders and the encoder the wall calls use. */
  datatype Codec = Codec(
    encodeWallCreate: WallCreateModel -> Result<Bytes, Error>,
    decodeWall: Bytes -> Result<WallModel, Error>,
    decodeWallList: Bytes -> Result<seq<WallModel>, Error>)

  /** `getWalls`: the raw call's failure passes through, a list that does
      not decode is unableToReadWallList. */
  function GetWallsResult(raw: Result<RawResponse, Error>, codec: Codec): (r: Result<seq<WallModel>, Error>)
    ensures raw.Failure? ==> r == Failure(raw.error)
    ensures raw.Success? && codec.decodeWallList(raw.value.data).Failure? ==>
              r == Failure(UnableToReadWallList(codec.decodeWallList(raw.value.data).error))
    ensures r.Success? <==> raw.Success? && codec.decodeWallList(raw.value.data).Success?
    ensures r.Success? ==> r.value == codec.decodeWallList(raw.value.data).value
  {
    match raw
    case Failure(e) => Failure(e)
    case Success(RawResponse(_, data)) =>
      match codec.decodeWallList(data)
      case Success(wallList) => Success(wallList)
      case Failure(e) => Failure(UnableToReadWallList(e))
  }

  /** `getWall(id:)`: as `getWalls`, and a wall that does not decode is
      reported with the same unableToReadWallList case. */
  function GetWallResult(raw: Result<RawResponse, Error>, codec: Codec): (r: Result<WallModel, Error>)
    ensures raw.Failure? ==> r == Failure(raw.error)
    ensures raw.Success? && codec.decodeWall(raw.value.data).Failure? ==>
              r == Failure(UnableToReadWallList(codec.decodeWall(raw.value.data).error))
    ensures r.Success? <==> raw.Success? && codec.decodeWall(raw.value.data).Success?
    ensures r.Success? ==> r.value == codec.decodeWall(raw.value.data).value
  {
    match raw
    case Failure(e) => Failure(e)
    case Success(RawResponse(_, data)) =>
      match codec.decodeWall(data)
      case Success(wallModel) => Success(wallModel)
      case Failure(e) => Failure(UnableToReadWallList(e))
  }

  /** The answers a wall-list operation receives when `getWalls` and
      `getWall(id:)` are served by the given raw responses. */
  function WallRemote(rawList: Result<RawResponse, Error>, rawWall: int -> Result<RawResponse, Error>,
                      posts: int -> Result<seq<PostModel>, Error>, codec: Codec): (r: Remote)
    ensures r.walls.Success? <==> rawList.Success? && codec.decodeWallList(rawList.value.data).Success?
    ensures r.walls.Success? ==> r.walls.value == codec.decodeWallList(rawList.value.data).value
    ensures forall id :: r.wall(id).Success? <==>
                         rawWall(id).Success? && codec.decodeWall(rawWall(id).value.data).Success?
    ensures forall id :: r.wall(id).Success? ==> r.wall(id).value == codec.decodeWall(rawWall(id).value.data).value
    ensures r.posts == posts
  {
    Remote(GetWallsResult(rawList, codec), id => GetWallResult(rawWall(id), codec), posts)
  }

  /** A raw failure or an undecodable answer reaches the operation as a
      failure, and the store is left as it was. */
  lemma UnreadableWallsChangeNothing(mode: WallListOp.Mode, walls: Walls,
                                     rawList: Result<RawResponse, Error>, rawWall: int -> Result<RawResponse, Error>,
                                     posts: int -> Result<seq<PostModel>, Error>, codec: Codec)
    requires mode.All? ==> rawList.Failure? || codec.decodeWallList(rawList.value.data).Failure?
    requires mode.SingleWall? ==> rawWall(mode.wallId).Failure? || codec.decodeWall(rawWall(mode.wallId).value.data).Failure?
    ensures WallListOp.MainEffect(mode, walls, WallRemote(rawList, rawWall, posts, codec)) == walls
  {
    WallListOp.FailedFetchChangesNothing(mode, walls, WallRemote(rawList, rawWall, posts, codec));
  }

  /** `createWall(topic:isPublic:completion:)`: the value handed to the
      completion. A model that does not encode is
      unableToConvertWallCreateModelToJSON, the post's own failure passes
      through, an answer that does not decode is
      unableToDecodeJSONasWallResponse. */
  function CreateWallOutcome(topic: string, isPublic: bool, codec: Codec,
                             postRaw: (string, Bytes) -> Result<RawResponse, Error>): (r: Result<WallModel, Error>)
    ensures var encoded := codec.encodeWallCreate(WallCreateModel(topic, isPublic));
            && (encoded.Failure? ==> r == Failure(UnableToConvertWallCreateModelToJSON(encoded.error)))
            && (encoded.Success? && postRaw(EndPoint(WallList), encoded.value).Failure? ==>
                  r == Failure(postRaw(EndPoint(WallList), encoded.value).error))
            && (encoded.Success? && postRaw(EndPoint(WallList), encoded.value).Success? ==>
                  var data := postRaw(EndPoint(WallList), encoded.value).value.data;
                  (codec.decodeWall(data).Failure? ==>
                     r == Failure(UnableToDecodeJSONasWallResponse(codec.decodeWall(data).error)))
                  && (codec.decodeWall(data).Success? ==> r == Success(codec.decodeWall(data).value)))
  {
    match codec.encodeWallCreate(WallCreateModel(topic, isPublic))
    case Failure(e) => Failure(UnableToConvertWallCreateModelToJSON(e))
    case Success(wallData) =>
      match postRaw(EndPoint(WallList), wallData)
      case Failure(e) => Failure(e)
      case Success(RawResponse(_, data)) =>
        match codec.decodeWall(data)
        case Failure(e) => Failure(UnableToDecodeJSONasWallResponse(e))
        case Success(wallModel) => Success(wallModel)
  }

  /** The queue after `createWall`: a created wall is refreshed through the
      scheduler, any failure schedules nothing. */
  function CreateWallQueue(hasContext: bool, q: seq<TrackedOp>, outcome: Result<WallModel, Error>): (r: seq<TrackedOp>)
    ensures outcome.Failure? ==> r == q
    ensures outcome.Success? ==> r == Enqueue(hasContext, q, WallListSync(WallListOp.SingleWall(outcome.value.id)))
  {
    match outcome
    case Failure(_) => q
    case Success(wallModel) => Enqueue(hasContext, q, WallListSync(WallListOp.SingleWall(wallModel.id)))
  }

  /** Write then refresh: when the server creates a wall and no wall-list
      operation is tracked, a single-wall operation for the returned id is
      queued, and once it has run against a server that serves that wall,
      the store holds it with its topic. */
  lemma CreatedWallIsStored(q: seq<TrackedOp>, topic: string, isPublic: bool, codec: Codec,
                            postRaw: (string, Bytes) -> Result<RawResponse, Error>,
                            walls: Walls, posts: Posts, remote: Remote)
    requires CreateWallOutcome(topic, isPublic, codec, postRaw).Success?
    requires NoWallListOp(q)
    requires var created := CreateWallOutcome(topic, isPublic, codec, postRaw).value;
             remote.wall(created.id) == Success(created)
    ensures var created := CreateWallOutcome(topic, isPublic, codec, postRaw).value;
            var q' := CreateWallQueue(true, q, Success(created));
            && q' == q + [WallListSync(WallListOp.SingleWall(created.id))]
            && var (w, _) := RunEffect(q'[|q|], walls, posts, remote);
               created.id in w && w[created.id] == WallRec(created.id, created.topic)
  {
    var created := CreateWallOutcome(topic, isPublic, codec, postRaw).value;
    var op := WallListSync(WallListOp.SingleWall(created.id));
    EnqueueRule(true, q, op);
    WallListOp.SingleWallStoresFetched(walls, remote, created.id, created);
  }

  /** The flip side of the class-wide guard: while any wall-list operation
      is tracked, the refresh of a newly created wall is dropped, so the
      created wall reaches the store only through that other operation. */
  lemma CreatedWallRefreshSuppressed(q: seq<TrackedOp>, created: WallModel)
    requires !NoWallListOp(q)
    ensures CreateWallQueue(true, q, Success(created)) == q
  {
    EnqueueRule(true, q, WallListSync(WallListOp.SingleWall(created.id)));
  }

  // ---------------------------------------------------------------------
  // The controller

  /** An operation in `opQ`: what the scheduler sees of it, and the parent
      context it was created with, in which it runs whatever the controller's
      parent context is by then. */
  datatype QueuedOp = QueuedOp(op: TrackedOp, context: Context)

  /** What the scheduler sees of the queue. */
  function Ops(q: seq<QueuedOp>): (ops: seq<TrackedOp>)
    ensures |ops| == |q|
    ensures forall i :: 0 <= i < |q| ==> ops[i] == q[i].op
  {
    seq(|q|, i requires 0 <= i < |q| => q[i].op)
  }

  /** Appending an entry appends its operation to what the scheduler sees. */
  lemma OpsAppend(q: seq<QueuedOp>, e: QueuedOp)
    ensures Ops(q + [e]) == Ops(q) + [e.op]
  {
  }

  /** Finishing an entry removes its operation from what the scheduler
      sees. */
  lemma OpsRemoveAt(q: seq<QueuedOp>, i: int)
    requires 0 <= i < |q|
    ensures Ops(RemoveAt(q, i)) == RemoveAt(Ops(q), i)
  {
  }

  class FeedController {
    /** `parentManagedObjectContext`: the store new operations are created
        with. */
    var parentContext: Option<Context>
    /** The operations of `opQ`, in queue order. */
    var opQ: seq<QueuedOp>
    const httpClient: HttpClient.SampleHttpClient

    predicate Valid()
      reads this
    {
      AtMostOneEach(Ops(opQ))
    }

    /** `init()`: an empty queue, no parent context, and a client for the
        server URL whose default headers ask for JSON. */
    constructor ()
      ensures parentContext.None? && opQ == [] && Valid()
      ensures fresh(httpClient) && httpClient.baseUrl == ServerUrl
      ensures httpClient.defaultHeaders == map["Content-Type" := "application/json"]
    {
      var client := new HttpClient.SampleHttpClient(ServerUrl);
      client.defaultHeaders := map["Content-Type" := "application/json"];
      httpClient := client;
      parentContext := None;
      opQ := [];
    }

    /** Setting `parentManagedObjectContext`. */
    method SetParentContext(context: Option<Context>)
      modifies this
      ensures parentContext == context && opQ == old(opQ)
    {
      parentContext := context;
    }

    /** `updateWalls()` */
    method UpdateWalls()
      requires Valid()
      modifies this
      ensures Valid() && parentContext == old(parentContext)
      ensures Ops(opQ) == Enqueue(parentContext.Some?, Ops(old(opQ)), WallListSync(WallListOp.All))
      ensures opQ == old(opQ) ||
              (parentContext.Some? && opQ == old(opQ) + [QueuedOp(WallListSync(WallListOp.All), parentContext.value)])
    {
      EnqueueKeepsAtMostOne(parentContext.Some?, Ops(opQ), WallListSync(WallListOp.All));
      if parentContext.None? {
        return;
      }
      var wallListOps := Matches(WallListModes(Ops(opQ)), WallListOp.All);
      if |wallListOps| != 0 {
        return;
      }
      var entry := QueuedOp(WallListSync(WallListOp.All), parentContext.value);
      OpsAppend(opQ, entry);
      opQ := opQ + [entry];
    }

    /** `updateWall(wallId:)` */
    method UpdateWall(wallId: int)
      requires Valid()
      modifies this
      ensures Valid() && parentContext == old(parentContext)
      ensures Ops(opQ) == Enqueue(parentContext.Some?, Ops(old(opQ)), WallListSync(WallListOp.SingleWall(wallId)))
      ensures opQ == old(opQ) ||
              (parentContext.Some? &&
               opQ == old(opQ) + [QueuedOp(WallListSync(WallListOp.SingleWall(wallId)), parentContext.value)])
    {
      EnqueueKeepsAtMostOne(parentContext.Some?, Ops(opQ), WallListSync(WallListOp.SingleWall(wallId)));
      if parentContext.None? {
        return;
      }
      var wallListOps := Matches(WallListModes(Ops(opQ)), WallListOp.SingleWall(wallId));
      if |wallListOps| != 0 {
        return;
      }
      var entry := QueuedOp(WallListSync(WallListOp.SingleWall(wallId)), parentContext.value);
      OpsAppend(opQ, entry);
      opQ := opQ + [entry];
    }

    /** `updatePosts(wallId:)` */
    method UpdatePosts(wallId: int)
      requires Valid()
      modifies this
      ensures Valid() && parentContext == old(parentContext)
      ensures Ops(opQ) == Enqueue(parentContext.Some?, Ops(old(opQ)), PostsSync(wallId))
      ensures opQ == old(opQ) ||
              (parentContext.Some? && opQ == old(opQ) + [QueuedOp(PostsSync(wallId), parentContext.value)])
    {
      EnqueueKeepsAtMostOne(parentContext.Some?, Ops(opQ), PostsSync(wallId));
      if parentContext.None? {
        return;
      }
      var wallListOps := Matches(PostsWallIds(Ops(opQ)), wallId);
      if |wallListOps| != 0 {
        return;
      }
      var entry := QueuedOp(PostsSync(wallId), parentContext.value);
      OpsAppend(opQ, entry);
      opQ := opQ + [entry];
    }

    /** The operation queue drops the operation at position `i` once it
        has finished. */
    method Finish(i: int)
      requires Valid() && 0 <= i < |opQ|
      modifies this
      ensures Valid() && parentContext == old(parentContext)
      ensures opQ == RemoveAt(old(opQ), i)
      ensures Ops(opQ) == RemoveAt(Ops(old(opQ)), i)
    {
      RemoveAtKeepsAtMostOne(Ops(opQ), i);
      OpsRemoveAt(opQ, i);
      opQ := opQ[..i] + opQ[i + 1..];
    }

    /** The operation queue runs the operation at position `i` in the
        context it was created with, then drops it. */
    method Run(i: int, remote: Remote)
      requires Valid() && 0 <= i < |opQ| && opQ[i].context.Valid()
      modifies this, opQ[i].context
      ensures Valid() && parentContext == old(parentContext)
      ensures opQ == RemoveAt(old(opQ), i)
      ensures old(opQ)[i].context.Valid()
      ensures (old(opQ)[i].context.walls, old(opQ)[i].context.posts) ==
              RunEffect(old(opQ[i].op), old(opQ[i].context.walls), old(opQ[i].context.posts), remote)
    {
      var context := opQ[i].context;
      match opQ[i].op {
        case WallListSync(mode) =>
          var op := new WallListOp.FeedWallListOp(context, mode);
          op.RunMain(remote);
        case PostsSync(wallId) =>
          var op := new PostsOp.FeedPostsOp(wallId, context);
          var _ := op.RunMain(remote);
      }
      Finish(i);
    }

    /** `createWall(topic:isPublic:completion:)`: the value handed to the
        completion; on success `updateWall(wallId:)` has been called with
        the id the server returned. */
    method CreateWall(topic: string, isPublic: bool, codec: Codec,
                      postRaw: (string, Bytes) -> Result<RawResponse, Error>) returns (response: Result<WallModel, Error>)
      requires Valid()
      modifies this
      ensures Valid() && parentContext == old(parentContext)
      ensures response == CreateWallOutcome(topic, isPublic, codec, postRaw)
      ensures Ops(opQ) == CreateWallQueue(parentContext.Some?, Ops(old(opQ)), response)
      ensures opQ == old(opQ) ||
              (response.Success? && parentContext.Some? &&
               opQ == old(opQ) + [QueuedOp(WallListSync(WallListOp.SingleWall(response.value.id)), parentContext.value)])
    {
      var wall := WallCreateModel(topic, isPublic);
      var encoded := codec.encodeWallCreate(wall);
      if encoded.Failure? {
        return Failure(UnableToConvertWallCreateModelToJSON(encoded.error));
      }
      var raw := postRaw(EndPoint(WallList), encoded.value);
      if raw.Failure? {
        return Failure(raw.error);
      }
      var decoded := codec.decodeWall(raw.value.data);
      if decoded.Failure? {
        return Failure(UnableToDecodeJSONasWallResponse(decoded.error));
      }
      UpdateWall(decoded.value.id);
      return Success(decoded.value);
    }
  }
}
