# SampleFeed sync engine and HTTP client, in Dafny

This project models the core of the SampleFeed iOS client:

- **The feed synchronisation engine.** `FeedController` keeps a queue of sync operations and decides whether an update request adds an operation. `FeedWallListOp` and `FeedPostsOp` fetch walls and posts from the server and upsert them by id into the local Core Data store.
- **The decision logic of `SampleHTTPClient`.**
  - How a request is built: the method token, default headers before per-call headers, the optional JSON body.
  - How the completion of a data task is classified: timeout, transport error, missing response, missing data, non-dictionary JSON.
  - How login and logout change the client's default headers.

Modules, one file each:

| file | module | models |
|---|---|---|
| wrappers.dfy | `Wrappers` | `Option` and `Result` |
| errors.dfy | `Errors` | the error cases the core throws or hands to completions |
| http.dfy | `Http` | HTTP methods, completions, the ordered checks, header merging, request building |
| auth.dfy | `Auth` | Basic credentials (section 2 of RFC 7617), the login guard chain, the effect of login and logout on the headers, account creation |
| http_client.dfy | `HttpClient` | the `SampleHTTPClient` class: its `defaultHeaders` updated in place, `sync`/`async`, `login`, `logout`, `createUser` |
| decimal.dfy | `Decimal` | Swift's decimal rendering of an `Int` in string interpolation, and its inverse |
| store.dfy | `Store` | the server's response models, the stored records, upsert by id, the managed object context as a class over maps |
| wall_list_op.dfy | `WallListOp` | `FeedWallListOp`: its mode, `main` in both modes, `updateWall` |
| posts_op.dfy | `PostsOp` | `FeedPostsOp`: the wall-presence guard, `getWall`, `update(postModel:wall:)`, `main` |
| feed.dfy | `Feed` | `Routes.endPoint`, the scheduler (`updateWalls`, `updateWall`, `updatePosts`), running and finishing a queued operation, `getWalls`/`getWall` error mapping, `createWall` |

How the scheduler is modelled:

- It follows the code as written. The second `compactMap` in each update method (`{ $0.mode == key }`, `{ $0.wallId == wallId }`) maps every operation to a `Bool` and never drops one.
- So the guard `count == 0` passes only when no operation of the same class is queued, whatever its mode or wall id.
- The doc comments promise that identical requests are not repeated. That per-key rule is implied and proved (`Feed.PerKeyDedupImplied`).
- `Feed.OtherKeySuppresses` proves the stronger behaviour the code actually has: a pending `.all` operation, or another wall's operation, suppresses `updateWall(wallId:)`.

What the model receives as parameters instead of computing:

- The results of calls into Foundation: the `URLSession` data task (a `Completion`), whether the semaphore wait timed out, `JSONSerialization`, `JSONEncoder`/`JSONDecoder`, and base64. They are function-typed fields of `Http.Env` and `Feed.Codec`.
- The answers of `getWalls`, `getWall(id:)` and `getPosts(wallId:)`, which arrive as a `Store.Remote` value.
- The raw responses of `getRaw`/`postRaw`.

## Model

| member | source | states |
|---|---|---|
| Http.Description | SampleUtilities/Sources/SampleUtilities/HTTPClient.swift:35-43 | a custom method's token is its own string; each built-in method's token is 3 to 6 upper-case letters |
| Http.DescriptionFaithful | SampleUtilities/Sources/SampleUtilities/HTTPClient.swift:28-43 | a custom method with a method's token has that token; the four built-in methods have four distinct tokens |
| Http.RawOutcome | SampleUtilities/Sources/SampleUtilities/HTTPClient+Async.swift:25-41 | a transport error wins whatever else is delivered; then no response gives noHTTPResponse; then no data gives noData; success exactly when all three checks pass, with the exact response and data |
| Http.SyncOutcome | SampleUtilities/Sources/SampleUtilities/HTTPClient.swift:73-88 | a timeout gives timeout whatever else is delivered; then error, missing response and missing data in that order; success exactly when none applies, with the exact response and data |
| Http.SyncAgreesWithAsync | SampleUtilities/Sources/SampleUtilities/HTTPClient.swift:73-88 | without a timeout the synchronous classification equals the asynchronous one |
| Http.AsKeyed | SampleUtilities/Sources/SampleUtilities/HTTPClient.swift:126-130 | decoded JSON is keyed data exactly when its top level is a dictionary; anything else gives cannotDecodeData |
| Http.KeyedOutcome | SampleUtilities/Sources/SampleUtilities/HTTPClient+Async.swift:84-103 | a raw failure passes through unchanged; then a parse error passes through; then a non-dictionary gives cannotDecodeData; the result is a success exactly when the raw answer succeeded and its data parses to a dictionary, and then it carries that response and that dictionary |
| Http.AddValue | SampleUtilities/Sources/SampleUtilities/HTTPClient.swift:107 | the key is added; a new key gets the value, a key already present gets its old value, a comma and the new value; every other field is unchanged |
| Http.MergeHeaders | SampleUtilities/Sources/SampleUtilities/HTTPClient.swift:106-111 | the request has the union of the default and per-call keys; a key only in the defaults keeps its default value, a key only in the per-call headers has its per-call value, and a key in both is "default,per-call" |
| Http.AddDefaultStep | SampleUtilities/Sources/SampleUtilities/HTTPClient.swift:106-108 | one turn of the default-header loop adds one more field of the defaults |
| Http.AddExtraStep | SampleUtilities/Sources/SampleUtilities/HTTPClient.swift:109-111 | one turn of the per-call loop merges one more per-call field after the defaults |
| Http.AddValueMerge | SampleUtilities/Sources/SampleUtilities/HTTPClient.swift:109-111 | adding a per-call field that is not yet there to the merged fields gives the merge with that field |
| Http.MergeHeadersDisjoint | SampleUtilities/Sources/SampleUtilities/HTTPClient.swift:106-111 | per-call headers that name no default field are simply added; none replaces a default |
| Http.RequestFor | SampleUtilities/Sources/SampleUtilities/HTTPClient.swift:102-119 | the request fails exactly when a body is given and cannot be serialised, with that error; otherwise it has the URL, the method token and the merged headers, and a nil body leaves httpBody unset |
| Http.SyncKeyed | SampleUtilities/Sources/SampleUtilities/HTTPClient.swift:97-132 | a body that cannot be serialised throws its error before anything is sent; a wait that gives up throws timeout; a success means the request was sent, did not time out, and carries the response the server sent and the dictionary its data parses to; conversely an untimed answer with no error, a response and data that parses to a dictionary is returned as that response and dictionary |
| Http.AsyncKeyed | SampleUtilities/Sources/SampleUtilities/HTTPClient+Async.swift:53-106 | a task is returned exactly when the request can be built; otherwise the completion receives the serialisation error; a success carries the response the server sent and the dictionary its data parses to; conversely a sent request whose answer has no error, a response and data that parses to a dictionary delivers success with that response and dictionary |
| Http.SyncKeyedAgreesWithAsync | SampleUtilities/Sources/SampleUtilities/HTTPClient+Async.swift:53-106 | async sends nothing exactly when the body cannot be serialised; otherwise it delivers what sync returns, unless sync timed out, which gives timeout |
| Auth.SplitCredentials | SampleUtilities/Sources/SampleUtilities/HTTPClient+Auth.swift:40 | a split of a user-pass string rejoins to it, and its user-id has no colon |
| Auth.CredentialsRoundTrip | SampleUtilities/Sources/SampleUtilities/HTTPClient+Auth.swift:40 | a user-id without a colon and any password are read back from "user:password" |
| Auth.Credentials | SampleUtilities/Sources/SampleUtilities/HTTPClient+Auth.swift:40 | the user-pass string is one character longer than user-id and password together, and a server splits it back into exactly that user-id and password when the user-id has no colon |
| Auth.LoginHeaders | SampleUtilities/Sources/SampleUtilities/HTTPClient+Auth.swift:42-44 | the per-call headers are exactly one Authorization field with a Basic value |
| Auth.BasicAuthorizationRoundTrip | SampleUtilities/Sources/SampleUtilities/HTTPClient+Auth.swift:40-44 | a server that strips "Basic " and decodes the base64 recovers the user-id and the password, for a user-id without a colon |
| Auth.BasicAuthorizationInjective | SampleUtilities/Sources/SampleUtilities/HTTPClient+Auth.swift:40-44 | with a base64 that encodes different strings differently, two logins send the same Authorization value exactly when their colon-free user-ids and their passwords are equal |
| Auth.LoginRequestHeaders | SampleUtilities/Sources/SampleUtilities/HTTPClient+Auth.swift:42-47 | the /login request carries every default field unchanged apart from Authorization; that field is the Basic value, preceded by the old Bearer value and a comma when the client is already logged in |
| Auth.BearerToken | SampleUtilities/Sources/SampleUtilities/HTTPClient+Auth.swift:57-62 | a token exists exactly when body["string"] is a non-empty string, and it is that string |
| Auth.LoginOutcome | SampleUtilities/Sources/SampleUtilities/HTTPClient+Auth.swift:50-62 | the post's failure passes through; then 401 gives invalidCredentials; then any other non-200 gives unknownLoginFailure; then a missing or empty token gives noBearerToken; success exactly on 200 with a token |
| Auth.ErrorOf | SampleUtilities/Sources/SampleUtilities/HTTPClient+Auth.swift:84-106 | the completion gets nil exactly on success, and otherwise the outcome's error |
| Auth.AfterLogin | SampleUtilities/Sources/SampleUtilities/HTTPClient+Auth.swift:64 | a failed login leaves the headers unchanged; a successful one sets Authorization to "Bearer " + token and keeps every other key |
| Auth.AfterLogout | SampleUtilities/Sources/SampleUtilities/HTTPClient+Auth.swift:70 | logout removes only Authorization and keeps every other value |
| Auth.LoginEffect | SampleUtilities/Sources/SampleUtilities/HTTPClient+Auth.swift:117-122 | after a successful login isLoggedIn holds; a failed login leaves isLoggedIn as it was |
| Auth.LogoutEffect | SampleUtilities/Sources/SampleUtilities/HTTPClient+Auth.swift:67-71 | after logout isLoggedIn is false; logout is idempotent; it undoes exactly what a login did; without a login it changes nothing |
| Auth.CreateUserOutcome | SampleUtilities/Sources/SampleUtilities/HTTPClient+Auth.swift:29-36 | the post's failure passes through; then 409 gives userAlreadyExists; then any other non-200 gives cannotCreateUser; success exactly on 200 |
| HttpClient.SampleHttpClient.constructor | SampleUtilities/Sources/SampleUtilities/HTTPClient.swift:47-53 | a new client has the given base URL and no default headers |
| HttpClient.SampleHttpClient.SyncRequest | SampleUtilities/Sources/SampleUtilities/HTTPClient.swift:59-89 | the result is the synchronous classification of what the data task delivered; a success is the exact delivered pair |
| HttpClient.SampleHttpClient.AsyncRequest | SampleUtilities/Sources/SampleUtilities/HTTPClient+Async.swift:25-44 | the completion receives the asynchronous classification of what the data task delivered |
| HttpClient.SampleHttpClient.BuildRequest | SampleUtilities/Sources/SampleUtilities/HTTPClient.swift:102-119 | the two header loops build the merge of defaults then per-call headers; the request is the one RequestFor describes |
| HttpClient.SampleHttpClient.Sync | SampleUtilities/Sources/SampleUtilities/HTTPClient.swift:97-132 | the result is the request built, sent, waited for and decoded, as SyncKeyed describes |
| HttpClient.SampleHttpClient.Async | SampleUtilities/Sources/SampleUtilities/HTTPClient+Async.swift:53-106 | whether a task is returned, and the value the completion receives, as AsyncKeyed describes |
| HttpClient.SampleHttpClient.CreateUser | SampleUtilities/Sources/SampleUtilities/HTTPClient+Auth.swift:23-37 | the error thrown is the createUser classification of the post to /users |
| HttpClient.SampleHttpClient.FinishLogin | SampleUtilities/Sources/SampleUtilities/HTTPClient+Auth.swift:50-64 | the error is the login classification; the new default headers are AfterLogin of the old ones, so the client is logged in after a success and its headers are unchanged after a failure |
| HttpClient.SampleHttpClient.Login | SampleUtilities/Sources/SampleUtilities/HTTPClient+Auth.swift:39-65 | the synchronous login posts the Basic header to /login; its error and its new headers follow the login classification; it is logged in after a success and unchanged after a failure |
| HttpClient.SampleHttpClient.LoginAsync | SampleUtilities/Sources/SampleUtilities/HTTPClient+Auth.swift:75-109 | the same for the asynchronous login and the value its completion receives |
| HttpClient.SampleHttpClient.Logout | SampleUtilities/Sources/SampleUtilities/HTTPClient+Auth.swift:111-115 | the default headers lose Authorization and nothing else; afterwards the client is not logged in |
| Decimal.NatToDecimal | SampleFeediOS/FeedServer/FeedController.swift:30 | a natural number is rendered as digits without a leading zero |
| Decimal.IntToDecimal | SampleFeediOS/FeedServer/FeedController.swift:30-31 | an Int is rendered as digits, led by '-' only when negative |
| Decimal.NatToDecimalValue | SampleFeediOS/FeedServer/FeedController.swift:30 | the digits of n have the value n |
| Decimal.DecimalRoundTrip | SampleFeediOS/FeedServer/FeedController.swift:30-31 | parsing the rendering of any Int gives that Int back |
| Decimal.DecimalInjective | SampleFeediOS/FeedServer/FeedController.swift:30-31 | distinct Ints render differently |
| Store.Upsert | SampleFeediOS/FeedServer/FeedWallListOp.swift:79-90 | the record is stored under its id and other records are unchanged; an existing id adds no record, a new id adds exactly one |
| Store.UpsertAll | SampleFeediOS/FeedServer/FeedWallListOp.swift:47-49 | upserting a list in order removes no record and adds at most one record per list element |
| Store.UpsertAllLookup | SampleFeediOS/FeedServer/FeedWallListOp.swift:47-49 | after a list is upserted in order, each id holds the last record of the list with that id; ids the list does not mention are as they were |
| Store.UpsertAllLastWins | SampleFeediOS/FeedServer/FeedWallListOp.swift:47-49 | of several records with one id, the later one wins |
| Store.UpsertAllKeys | SampleFeediOS/FeedServer/FeedWallListOp.swift:47-49 | upserting a list adds exactly the ids it mentions and removes none |
| Store.UpsertAllKeyed | SampleFeediOS/FeedServer/FeedWallListOp.swift:79-90 | a store with one record per id keeps that property |
| Store.UpsertAllIdempotent | SampleFeediOS/FeedServer/FeedWallListOp.swift:75-91 | upserting the same list twice leaves the store as upserting it once |
| Store.UpsertPostsLinked | SampleFeediOS/FeedServer/FeedPostsOp.swift:82-99 | posts upserted linked to a stored wall leave no post without its wall |
| Store.Context.FetchWall | SampleFeediOS/FeedServer/FeedWallListOp.swift:76-84 | the fetch "id == %d" finds a wall exactly when one is stored under that id, and it is that wall |
| Store.Context.FetchPost | SampleFeediOS/FeedServer/FeedPostsOp.swift:83-91 | the same for posts |
| WallListOp.ModeEquality | SampleFeediOS/FeedServer/FeedWallListOp.swift:18-21 | .all equals .all; two single-wall modes are equal exactly when their ids are; .all differs from every single-wall mode |
| WallListOp.MainEffect | SampleFeediOS/FeedServer/FeedWallListOp.swift:36-71 | a run removes no wall; .all adds at most one wall per listed model; .singleWall stores the fetched wall's id and adds at most one wall |
| WallListOp.FailedFetchChangesNothing | SampleFeediOS/FeedServer/FeedWallListOp.swift:50-64 | a failed fetch in either mode leaves the walls unchanged |
| WallListOp.AllStoresLastTopic | SampleFeediOS/FeedServer/FeedWallListOp.swift:46-49 | .all stores each listed wall with the topic of its last model in the list; unlisted walls are unchanged |
| WallListOp.SingleWallStoresFetched | SampleFeediOS/FeedServer/FeedWallListOp.swift:60-62 | .singleWall upserts exactly the fetched wall and changes no other |
| WallListOp.MainIdempotent | SampleFeediOS/FeedServer/FeedWallListOp.swift:36-71 | a second run against the same answers changes nothing |
| WallListOp.MainKeepsWalls | SampleFeediOS/FeedServer/FeedWallListOp.swift:75-91 | a run removes no wall and keeps one record per id |
| WallListOp.FeedWallListOp.constructor | SampleFeediOS/FeedServer/FeedWallListOp.swift:23-34 | the operation keeps its context and its mode |
| WallListOp.FeedWallListOp.UpdateWall | SampleFeediOS/FeedServer/FeedWallListOp.swift:75-93 | the walls become the upsert of the model's record; posts are untouched; the context stays valid |
| WallListOp.FeedWallListOp.UpdateAll | SampleFeediOS/FeedServer/FeedWallListOp.swift:47-49 | the loop upserts every model of the list, in order; posts are untouched; the context stays valid |
| WallListOp.FeedWallListOp.RunMain | SampleFeediOS/FeedServer/FeedWallListOp.swift:36-71 | the walls become MainEffect of the old walls; posts are untouched; the context stays valid |
| PostsOp.MainEffect | SampleFeediOS/FeedServer/FeedPostsOp.swift:29-56 | a run removes no post; without the wall in the store nothing changes; a fetched list adds at most one post per model |
| PostsOp.NothingWithoutWall | SampleFeediOS/FeedServer/FeedPostsOp.swift:33-45 | without the wall in the store, or on a failed fetch, the posts are unchanged |
| PostsOp.StoresLastPost | SampleFeediOS/FeedServer/FeedPostsOp.swift:47-49 | each fetched post is stored with the text of its last model and linked to the op's wall; unlisted posts are unchanged |
| PostsOp.MainIdempotent | SampleFeediOS/FeedServer/FeedPostsOp.swift:29-56 | a second run against the same answers changes nothing |
| PostsOp.MainKeepsPosts | SampleFeediOS/FeedServer/FeedPostsOp.swift:68-99 | a run removes no post, keeps one record per id and leaves no post without its wall |
| PostsOp.FeedPostsOp.constructor | SampleFeediOS/FeedServer/FeedPostsOp.swift:18-27 | the operation keeps its wall id and its context |
| PostsOp.FeedPostsOp.GetWall | SampleFeediOS/FeedServer/FeedPostsOp.swift:68-79 | a wall is found exactly when one is stored under the id, and it is that wall |
| PostsOp.FeedPostsOp.Update | SampleFeediOS/FeedServer/FeedPostsOp.swift:82-101 | the posts become the upsert of the model's record linked to the wall; walls are untouched; the context stays valid |
| PostsOp.FeedPostsOp.UpdateAll | SampleFeediOS/FeedServer/FeedPostsOp.swift:47-49 | the loop upserts every model of the list, in order, linked to the wall |
| PostsOp.FeedPostsOp.RunMain | SampleFeediOS/FeedServer/FeedPostsOp.swift:29-56 | it fetches exactly when the wall is stored; the posts become MainEffect of the old store; walls are untouched; the context stays valid |
| Feed.EndPoint | SampleFeediOS/FeedServer/FeedController.swift:27-33 | every end point starts with "/walls" |
| Feed.EndPointRoundTrip | SampleFeediOS/FeedServer/FeedController.swift:27-33 | parsing an end point gives back exactly its route: "/walls", "/walls/<id>", "/walls/<id>/posts" with decimal ids |
| Feed.EndPointInjective | SampleFeediOS/FeedServer/FeedController.swift:27-33 | different routes have different end points |
| Feed.WallListModes | SampleFeediOS/FeedServer/FeedController.swift:69-70 | the cast keeps the modes of exactly the queued wall-list operations; it is empty exactly when there are none |
| Feed.PostsWallIds | SampleFeediOS/FeedServer/FeedController.swift:103-104 | the same for posts operations and their wall ids |
| Feed.CompactMapNeverNil | SampleFeediOS/FeedServer/FeedController.swift:71 | a compactMap whose closure never returns nil drops nothing and keeps the order: one result per element, the closure's value |
| Feed.Matches | SampleFeediOS/FeedServer/FeedController.swift:71 | the Bool-valued compactMap (lines 71, 88 and 105), written as a compactMap, gives one Bool per key, true exactly when it equals the requested key |
| Feed.WallListGuard | SampleFeediOS/FeedServer/FeedController.swift:69-74 | the count guard of updateWalls and updateWall(wallId:) passes exactly when no wall-list operation is queued, whatever its mode |
| Feed.PostsGuard | SampleFeediOS/FeedServer/FeedController.swift:103-108 | the count guard of updatePosts(wallId:) passes exactly when no posts operation is queued, whatever its wall id |
| Feed.Enqueue | SampleFeediOS/FeedServer/FeedController.swift:66-113 | an update request leaves the queue as it was or appends exactly the requested operation |
| Feed.EnqueueRule | SampleFeediOS/FeedServer/FeedController.swift:66-113 | an operation is appended exactly when there is a parent context and none of its class is queued; otherwise the queue is unchanged |
| Feed.OtherKeySuppresses | SampleFeediOS/FeedServer/FeedController.swift:86-95 | any queued operation of the same class, such as a pending .all or another wall's op, suppresses the request |
| Feed.NoContextNoOp | SampleFeediOS/FeedServer/FeedController.swift:67 | without a parent context nothing is enqueued |
| Feed.EnqueueKeepsAtMostOne | SampleFeediOS/FeedServer/FeedController.swift:72-77 | the queue never holds two wall-list operations or two posts operations |
| Feed.EnqueueTwiceAddsOnce | SampleFeediOS/FeedServer/FeedController.swift:72-77 | two requests of one class with nothing finishing in between add at most one operation |
| Feed.RemoveAtKeepsAtMostOne | SampleFeediOS/FeedServer/FeedController.swift:17 | an operation leaving the queue keeps at most one per class |
| Feed.FinishThenEnqueue | SampleFeediOS/FeedServer/FeedController.swift:69-77 | once the tracked operation of a class has left the queue, the next request of that class is enqueued |
| Feed.PerKeyDedupImplied | SampleFeediOS/FeedServer/FeedController.swift:80-95 | an operation is added only when no identical one is queued, and a valid queue never holds the same operation twice |
| Feed.RunEffect | SampleFeediOS/FeedServer/FeedWallListOp.swift:36-71 | running an operation removes no record; a wall-list operation leaves the posts as they were and a posts operation (the main of FeedPostsOp.swift:29-56) leaves the walls as they were |
| Feed.RunKeepsStore | SampleFeediOS/FeedServer/FeedWallListOp.swift:36-71 | any operation keeps the store valid and removes nothing; a wall-list op leaves posts alone and a posts op leaves walls alone; re-running it changes nothing |
| Feed.GetWallsResult | SampleFeediOS/FeedServer/FeedController.swift:141-155 | the raw failure passes through; an undecodable list gives unableToReadWallList; success exactly when the list decodes |
| Feed.GetWallResult | SampleFeediOS/FeedServer/FeedController.swift:156-170 | the same for one wall, reusing unableToReadWallList |
| Feed.WallRemote | SampleFeediOS/FeedServer/FeedController.swift:141-170 | the wall-list operation receives a list exactly when the raw list answer succeeded and decodes, and then that decoded list; it receives a wall for an id exactly when that raw answer succeeded and decodes, and then the decoded wall; the posts answers pass through |
| Feed.UnreadableWallsChangeNothing | SampleFeediOS/FeedServer/FeedController.swift:141-170 | a raw failure or an undecodable answer reaches the wall-list operation as a failure and the store is unchanged |
| Feed.CreateWallOutcome | SampleFeediOS/FeedServer/FeedController.swift:180-203 | an encoding failure gives unableToConvertWallCreateModelToJSON; a failed post to "/walls" passes its error through; a decode failure gives unableToDecodeJSONasWallResponse; otherwise the decoded wall |
| Feed.CreateWallQueue | SampleFeediOS/FeedServer/FeedController.swift:186-194 | a failed createWall schedules nothing; a decoded success makes the request updateWall(wallId:) makes for the returned id, under its guard |
| Feed.CreatedWallIsStored | SampleFeediOS/FeedServer/FeedController.swift:190-194 | when a parent context is set and no wall-list operation is queued, a created wall queues a single-wall refresh for the returned id; once that has run against a server serving the wall, the store holds it with its topic (CreatedWallRefreshSuppressed gives the other case) |
| Feed.CreatedWallRefreshSuppressed | SampleFeediOS/FeedServer/FeedController.swift:86-92 | while any wall-list operation is queued, the refresh for a created wall is dropped and the queue is unchanged |
| Feed.FeedController.constructor | SampleFeediOS/FeedServer/FeedController.swift:38-47 | the queue is empty, there is no parent context, and the client has the server URL and the JSON Content-Type default header |
| Feed.FeedController.SetParentContext | SampleFeediOS/FeedServer/FeedController.swift:20 | the parent context is replaced; queued operations, and the contexts they were created with, are untouched |
| Feed.FeedController.UpdateWalls | SampleFeediOS/FeedServer/FeedController.swift:66-78 | what the scheduler sees of the queue becomes Enqueue of a .all operation, computed by the two compactMaps and the count; an added entry carries the parent context of the time; at most one per class still holds |
| Feed.FeedController.UpdateWall | SampleFeediOS/FeedServer/FeedController.swift:83-96 | the same for a .singleWall(wallId) operation |
| Feed.FeedController.UpdatePosts | SampleFeediOS/FeedServer/FeedController.swift:100-113 | the same for a posts operation for wallId |
| Feed.FeedController.Finish | SampleFeediOS/FeedServer/FeedController.swift:17 | the finished entry leaves the queue; at most one per class still holds |
| Feed.FeedController.Run | SampleFeediOS/FeedServer/FeedWallListOp.swift:36-71 | running a queued operation (the main of a wall-list operation, or of a posts operation at FeedPostsOp.swift:29-56, once FeedController.swift:76-77 has queued it) changes the store of the context it was created with as RunEffect says, keeps that store valid, and then drops the entry |
| Feed.FeedController.CreateWall | SampleFeediOS/FeedServer/FeedController.swift:180-203 | the completion value is CreateWallOutcome; the queue is unchanged unless the wall was created, and then updateWall(wallId:) was applied to the returned id |

## Left out

- Concurrency: `OperationQueue` execution and `maxConcurrentOperationCount = 3`, `DispatchGroup`/`DispatchSemaphore` waits, `URLSession` tasks, and Core Data `perform` blocks. The queue is a sequence; operations run one at a time through `FeedController.Run`, and thread interleaving is not modelled.
- Core Data parent and child contexts and `save()`: each operation writes straight into the parent context it was created with (`Store.Context`, recorded with its queue entry), and saves are taken to succeed. A failing fetch request (`try?` yielding nil) is not modelled; a fetch finds the record stored under the id.
- `Wall(context:)` / `Post(context:)` insert a blank object before its id is set. The model inserts the finished record under its id, so the intermediate id 0 is never observable.
- Foundation and codec calls are abstract parameters: JSON encoding and decoding (`JSONSerialization`, `JSONEncoder`, `JSONDecoder`), base64, the data task's delivery, and whether the wait timed out. Their inner behaviour is not modelled.
- The `TimeInterval` timeout value: only "timed out" is modelled.
- `appendingPathComponent` is modelled as string concatenation (`HttpClient.AppendPath`). This holds for the absolute end points the core uses; URL normalisation is not modelled.
- `getRaw`/`postRaw` are not part of this model. Their results are inputs to the facade mappings, and `createWall` receives `postRaw` as a function.
- HTTP header field names are compared case-sensitively. Foundation compares them case-insensitively, so `MergeHeaders` treats "authorization" and "Authorization" as different fields.
- Swift dictionary iteration order is unspecified. The header loops pick keys in any order, and the result does not depend on the order.
- Ids are unbounded integers. `Int` and `Int64` are 64 bits wide on every supported device, so the assignment `Int64(wallModel.id)` never truncates.
- Store.Context.FetchWall and Store.Context.FetchPost look a record up by its full id. The source's fetch predicate `NSPredicate(format: "id == %d", …)` passes a 64-bit `Int` to a `%d` specifier, which reads 32 bits. For an id outside the 32-bit range the real fetch compares against a different number: `updateWall` then inserts a duplicate wall, and `getWall(id:)` misses a stored wall. The model covers only ids inside the 32-bit range, where the two agree.
- Printing and logging are not modelled.
- `FeedController.login` and `logout` only forward to the client's `login`/`logout`, which are modelled. `FeedServer.swift` is a further pass-through.
- `FeedController+Walls.swift` repeats the wall code of `FeedController.swift`, which is modelled once.
- `FeedController+Posts.swift` (`getPosts`, `createPost`) and `HTTPClient+Methods.swift` are thin wrappers. The posts answer reaches `FeedPostsOp` as a `Store.Remote` value. `createPost` never calls its completion on a response.
- The `logout(completion:)` variant never calls its completion; only its effect on the headers is modelled.
- The view controllers, scene delegate and constants have no logic to verify.
