/**
 * The convenience helpers at the end of the client module: each one builds
 * the keyword arguments of a single namespace call (`client.auth.login`,
 * `client.posts.like`, ...) and hands them to the proxy. The argument
 * builders are functions; the helpers themselves are methods on a client,
 * since every call goes through the session store.
 */
module Helpers {
  import opened Wrappers
  import opened Json
  import opened Text
  import opened Sessions
  import opened Registry
  import opened Engine
  import opened Pagination
  import opened Client
  import Table

  /** A call for `user_key` with every other keyword argument at its default. */
  function As(userKey: string): Call {
    DefaultCall.(userKey := Some(userKey))
  }

  /** The target of `follow_user` and `unfollow_user`: an `int` id or a `str` handle. */
  datatype Target = Numeric(id: int) | Handle(handle: string)

  /** `str(target)`, as the path substitution applies it. */
  function TargetText(t: Target): (s: string)
    ensures t.Handle? ==> s == t.handle
    ensures t.Numeric? ==> s == Decimal(t.id) && s != [] && BraceFree(s)
  {
    match t
    case Numeric(n) => Decimal(n)
    case Handle(h) => h
  }

  // ---- argument builders ----

  /** The body of `login_user`: exactly the user name and the password, as strings. */
  function LoginBody(username: string, password: string): (b: Object)
    ensures b.Keys == {"username", "password"}
    ensures b["username"] == JStr(username) && b["password"] == JStr(password)
  {
    map["username" := JStr(username), "password" := JStr(password)]
  }

  /**
   * The body of `create_post`: `content` and `parent_id` always (a missing
   * parent is sent as null), `embed` and `media` only when they are given.
   */
  function PostBody(content: string, parentId: Option<int>, embed: Option<string>, media: Option<seq<string>>): (b: Object)
    ensures "content" in b && b["content"] == JStr(content)
    ensures "parent_id" in b && b["parent_id"] == (if parentId.Some? then JNum(parentId.value) else JNull)
    ensures "embed" in b <==> embed.Some?
    ensures "media" in b <==> media.Some?
    ensures embed.Some? ==> b["embed"] == JStr(embed.value)
    ensures media.Some? ==>
      b["media"].JArr? && |b["media"].items| == |media.value| &&
      forall i :: 0 <= i < |media.value| ==> b["media"].items[i] == JStr(media.value[i])
    ensures b.Keys <= {"content", "parent_id", "embed", "media"}
  {
    var parent := if parentId.Some? then JNum(parentId.value) else JNull;
    var b := map["content" := JStr(content), "parent_id" := parent];
    var b := if embed.Some? then b["embed" := JStr(embed.value)] else b;
    if media.Some? then b["media" := JArr(seq(|media.value|, i requires 0 <= i < |media.value| => JStr(media.value[i])))] else b
  }

  /** The query of `get_user_feed`: a `cursor` entry exactly when a cursor is given. */
  function FeedQuery(cursor: Option<string>): (q: Object)
    ensures CursorKey in q <==> cursor.Some?
    ensures cursor.Some? ==> q[CursorKey] == JStr(cursor.value)
    ensures q.Keys <= {CursorKey}
  {
    if cursor.Some? then map[CursorKey := JStr(cursor.value)] else map[]
  }

  /** The body of `update_profile`: exactly the display name and the bio. */
  function ProfileBody(displayName: string, bio: string): (b: Object)
    ensures b.Keys == {"display_name", "bio"}
    ensures b["display_name"] == JStr(displayName) && b["bio"] == JStr(bio)
  {
    map["display_name" := JStr(displayName), "bio" := JStr(bio)]
  }

  /** The call of the four post helpers: the post id, in decimal, as the `post` path parameter. */
  function PostCall(userKey: string, postId: int): (c: Call)
    ensures c.userKey == Some(userKey)
    ensures c.pathParams.Keys == {"post"} && c.pathParams["post"] == Decimal(postId)
    ensures c.query == map[] && c.body == None && c.headers == map[]
  {
    As(userKey).(pathParams := map["post" := Decimal(postId)])
  }

  /** The call of `follow_user` and `unfollow_user`: the target as the `user` path parameter. */
  function FollowCall(userKey: string, target: Target): (c: Call)
    ensures c.userKey == Some(userKey)
    ensures c.pathParams.Keys == {"user"} && c.pathParams["user"] == TargetText(target)
    ensures c.query == map[] && c.body == None
  {
    As(userKey).(pathParams := map["user" := TargetText(target)])
  }

  /** The call of `get_user_feed`: the feed key as the `key` path parameter and the optional cursor as the query. */
  function FeedCall(userKey: string, feedKey: string, cursor: Option<string>): (c: Call)
    ensures c.userKey == Some(userKey)
    ensures c.pathParams.Keys == {"key"} && c.pathParams["key"] == feedKey
    ensures c.query == FeedQuery(cursor) && c.body == None
  {
    As(userKey).(pathParams := map["key" := feedKey], query := FeedQuery(cursor))
  }

  /** A call for `user_key` whose only other argument is the JSON body. */
  function BodyCall(userKey: string, body: Object): (c: Call)
    ensures c.userKey == Some(userKey) && c.body == Some(body)
    ensures c.pathParams == map[] && c.query == map[]
  {
    As(userKey).(body := Some(body))
  }

  // ---- what the store keeps across a call ----

  /** A proxy call never touches recorded tokens or cookies; at most it opens the session of the user it runs as. */
  lemma ProxyKeepsCredentials(r: RegistryState, baseUrl: string, defaultUser: string, st: Store,
                              ns: string, name: string, call: Call, transport: seq<Response>)
    ensures Proxy(r, baseUrl, defaultUser, st, ns, name, call, transport).1.tokens == st.tokens
    ensures Proxy(r, baseUrl, defaultUser, st, ns, name, call, transport).1.cookies == st.cookies
    ensures Proxy(r, baseUrl, defaultUser, st, ns, name, call, transport).1 in
      {st, WithSession(st, ResolveUser(call.userKey, defaultUser))}
  {
    ProxyForwards(r, baseUrl, defaultUser, st, ns, name, call, transport);
  }

  /**
   * Logging in does not record any token: whatever the server answers, the
   * token and cookie records are those from before, and the request carries
   * exactly the user name and password.
   */
  lemma LoginRecordsNoToken(r: RegistryState, baseUrl: string, defaultUser: string, st: Store,
                            userKey: string, username: string, password: string, transport: seq<Response>)
    requires "auth" in r.namespaces && "login" in r.namespaces["auth"]
    requires r.namespaces["auth"]["login"].operationId in r.endpoints
    requires r.endpoints[r.namespaces["auth"]["login"].operationId].hasBody
    requires r.endpoints[r.namespaces["auth"]["login"].operationId].pathParams == []
    ensures var (x, st') := Proxy(r, baseUrl, defaultUser, st, "auth", "login", BodyCall(userKey, LoginBody(username, password)), transport);
      && st'.tokens == st.tokens && st'.cookies == st.cookies
      && x.request.Some? && x.request.value.json == Some(LoginBody(username, password))
  {
    var call := BodyCall(userKey, LoginBody(username, password));
    ProxyKeepsCredentials(r, baseUrl, defaultUser, st, "auth", "login", call, transport);
    ProxyForwards(r, baseUrl, defaultUser, st, "auth", "login", call, transport);
  }

  /**
   * After `logout_user` for `k` has succeeded, `k` has no token, no
   * `Authorization` header, no recorded cookies and an empty jar, and every
   * other user is as before.
   */
  lemma LoggedOutHasNoCredentials(st: Store, k: string)
    ensures var st' := WithoutCookies(WithoutBearer(st, k), k);
      && k in st'.sessions && k !in st'.tokens && k !in st'.cookies
      && AuthorizationHeader !in st'.sessions[k].headers && st'.sessions[k].jar == map[]
      && OthersUnchanged(st, st', k)
  {
    CallKeepsOthers(st, ClearBearer(k));
    CallKeepsOthers(WithoutBearer(st, k), ClearCookies(k));
  }

  /**
   * A post helper on a descriptor that declares its `post` placeholder sends
   * the request to the post's path with the id in decimal.
   */
  lemma PostHelperReachesPost(r: RegistryState, baseUrl: string, defaultUser: string, st: Store,
                              name: string, suffix: string, userKey: string, postId: int, transport: seq<Response>)
    requires BraceFree(suffix)
    requires "posts" in r.namespaces && name in r.namespaces["posts"]
    requires var ep := r.namespaces["posts"][name];
      && ep.operationId in r.endpoints && r.endpoints[ep.operationId] == ep
      && ep.path == "/api/twoots/" + Placeholder("post") + suffix
      && ep.pathParams == ["post"]
    ensures var x := Proxy(r, baseUrl, defaultUser, st, "posts", name, PostCall(userKey, postId), transport).0;
      x.request.Some? && x.request.value.url == baseUrl + "/api/twoots/" + Decimal(postId) + suffix
  {
    var call := PostCall(userKey, postId);
    var ep := r.namespaces["posts"][name];
    assert Proxy(r, baseUrl, defaultUser, st, "posts", name, call, transport) ==
      Dispatch(r.endpoints, baseUrl, defaultUser, st, ep.operationId, call, transport);
    Table.CorrectedFillsPlaceholder(r.endpoints, baseUrl, defaultUser, st, ep.operationId,
      call, transport, "/api/twoots/", "post", suffix);
  }

  /** Registering a post descriptor that declares its `post` placeholder makes its post helper reach the post. */
  lemma ReregisteredPostReaches(r: RegistryState, ep: Endpoint, suffix: string, baseUrl: string, defaultUser: string, st: Store,
                                userKey: string, postId: int, transport: seq<Response>)
    requires BraceFree(suffix)
    requires ep.ns == "posts" && ep.pathParams == ["post"] && ep.path == "/api/twoots/" + Placeholder("post") + suffix
    ensures var x := Proxy(Register(r, ep), baseUrl, defaultUser, st, "posts", ep.name, PostCall(userKey, postId), transport).0;
      x.request.Some? && x.request.value.url == baseUrl + "/api/twoots/" + Decimal(postId) + suffix
  {
    var r' := Register(r, ep);
    assert r'.namespaces["posts"][ep.name] == ep && r'.endpoints[ep.operationId] == ep;
    PostHelperReachesPost(r', baseUrl, defaultUser, st, ep.name, suffix, userKey, postId, transport);
  }

  /**
   * Re-registering `posts.like` with its placeholder declared, on any
   * registry (the one `build_client` fills included), repairs `like_post`:
   * the request goes to the post's path with the id in decimal.
   */
  lemma LikeAfterReregistering(r: RegistryState, baseUrl: string, defaultUser: string, st: Store,
                               userKey: string, postId: int, transport: seq<Response>)
    ensures var x := Proxy(Register(r, Table.CorrectedPostsLike()), baseUrl, defaultUser, st, "posts", "like", PostCall(userKey, postId), transport).0;
      x.request.Some? && x.request.value.url == baseUrl + "/api/twoots/" + Decimal(postId) + "/like"
  {
    var fixed := Table.CorrectedPostsLike();
    Table.HelperPathsHaveOnePlaceholder();
    assert fixed.ns == "posts" && fixed.name == "like" && fixed.path == Table.PostsLike.path;
    ReregisteredPostReaches(r, fixed, "/like", baseUrl, defaultUser, st, userKey, postId, transport);
  }

  /**
   * The follow helpers on a descriptor that declares its `user` placeholder
   * send the request to the target's path; a brace-free handle goes in as it is.
   */
  lemma FollowHelperReachesUser(r: RegistryState, baseUrl: string, defaultUser: string, st: Store,
                                name: string, userKey: string, target: Target, transport: seq<Response>)
    requires "users" in r.namespaces && name in r.namespaces["users"]
    requires var ep := r.namespaces["users"][name];
      && ep.operationId in r.endpoints && r.endpoints[ep.operationId] == ep
      && ep.path == "/api/users/" + Placeholder("user") + "/follow"
      && ep.pathParams == ["user"]
    requires BraceFree(TargetText(target))
    ensures var x := Proxy(r, baseUrl, defaultUser, st, "users", name, FollowCall(userKey, target), transport).0;
      x.request.Some? && x.request.value.url == baseUrl + "/api/users/" + TargetText(target) + "/follow"
  {
    var call := FollowCall(userKey, target);
    var ep := r.namespaces["users"][name];
    assert Proxy(r, baseUrl, defaultUser, st, "users", name, call, transport) ==
      Dispatch(r.endpoints, baseUrl, defaultUser, st, ep.operationId, call, transport);
    Table.CorrectedFillsPlaceholder(r.endpoints, baseUrl, defaultUser, st, ep.operationId,
      call, transport, "/api/users/", "user", "/follow");
  }

  /**
   * On a descriptor that declares no path parameter, as every descriptor of
   * the table does, a helper's path parameters are never used: the request
   * goes to the literal path, placeholder and all.
   */
  lemma UndeclaredPlaceholderStaysLiteral(r: RegistryState, baseUrl: string, defaultUser: string, st: Store,
                                          ns: string, name: string, call: Call, transport: seq<Response>)
    requires ns in r.namespaces && name in r.namespaces[ns]
    requires var ep := r.namespaces[ns][name];
      ep.operationId in r.endpoints && r.endpoints[ep.operationId] == ep && ep.pathParams == []
    ensures var x := Proxy(r, baseUrl, defaultUser, st, ns, name, call, transport).0;
      x.request.Some? && x.request.value.url == baseUrl + r.namespaces[ns][name].path
  {
    ProxyForwards(r, baseUrl, defaultUser, st, ns, name, call, transport);
    var ep := r.namespaces[ns][name];
    DispatchUrl(r.endpoints, baseUrl, defaultUser, st, ep.operationId, call, transport, ep.path);
  }

  /**
   * `like_post` on the client `build_client` returns sends its request to the
   * literal `/api/twoots/{post}/like`, whatever the post id.
   */
  lemma BuiltClientLikeKeepsPlaceholder(baseUrl: string, defaultUser: string, st: Store,
                                        userKey: string, postId: int, transport: seq<Response>)
    ensures var x := Proxy(RegisterAll(EmptyRegistry, Table.Table()), baseUrl, defaultUser, st, "posts", "like",
                           PostCall(userKey, postId), transport).0;
      x.request.Some? && x.request.value.url == baseUrl + "/api/twoots/{post}/like"
  {
    var r := RegisterAll(EmptyRegistry, Table.Table());
    Table.BuiltRegistryResolvesLike();
    Table.BuiltRegistryLooksUpLike();
    assert r.namespaces["posts"]["like"] == Table.PostsLike && r.endpoints["posts.like"] == Table.PostsLike;
    UndeclaredPlaceholderStaysLiteral(r, baseUrl, defaultUser, st, "posts", "like", PostCall(userKey, postId), transport);
  }

  /** `get_user_feed` sends a `cursor` query entry exactly when a cursor is given, and no other entry. */
  lemma FeedSendsCursorOnlyWhenGiven(r: RegistryState, baseUrl: string, defaultUser: string, st: Store,
                                     userKey: string, feedKey: string, cursor: Option<string>, transport: seq<Response>)
    requires "feeds" in r.namespaces && "get" in r.namespaces["feeds"]
    requires var ep := r.namespaces["feeds"]["get"];
      ep.operationId in r.endpoints && forall n :: n in r.endpoints[ep.operationId].pathParams ==> n == "key"
    ensures var x := Proxy(r, baseUrl, defaultUser, st, "feeds", "get", FeedCall(userKey, feedKey, cursor), transport).0;
      && x.request.Some?
      && (CursorKey in x.request.value.params <==> cursor.Some?)
      && x.request.value.params.Keys <= {CursorKey}
      && (cursor.Some? ==> x.request.value.params[CursorKey] == JStr(cursor.value))
  {
    var call := FeedCall(userKey, feedKey, cursor);
    ProxyForwards(r, baseUrl, defaultUser, st, "feeds", "get", call, transport);
    DispatchSendsBuiltRequest(r.endpoints, baseUrl, defaultUser, st, r.namespaces["feeds"]["get"].operationId, call, transport);
  }

  /**
   * `paginate_user_feed` starts from an empty query, so every call asks for
   * nothing but a cursor, and every call after the first carries one.
   */
  lemma FeedPagesAskOnlyForCursor(pages: seq<Result<Json, Failure>>)
    ensures var w := WalkFrom(pages, 0, map[]);
      forall j :: 0 <= j < |w.queries| ==> w.queries[j].Keys <= {CursorKey} && (j > 0 ==> CursorKey in w.queries[j])
  {
    var w := WalkFrom(pages, 0, map[]);
    OnlyCursorChanges(pages, 0, map[]);
    QueriesFollowCursors(pages, 0, map[]);
    forall j | 0 <= j < |w.queries|
      ensures w.queries[j].Keys <= {CursorKey} && (j > 0 ==> CursorKey in w.queries[j])
    {
      assert w.queries[j].Keys - {CursorKey} == (w.queries[j] - {CursorKey}).Keys == {};
      if j > 0 {
        assert QueryFollows(w.queries[(j - 1)], w.queries[(j - 1) + 1], PageStep(pages[0 + (j - 1)]).1);
      }
    }
  }

  // ---- the helpers ----

  /** `login_user`: the login call with the credentials as its body; the payload is returned as it is. */
  method LoginUser(c: LegitSocialApi, userKey: string, username: string, password: string, transport: seq<Response>)
    returns (x: Exchange)
    modifies c.store
    ensures (x, c.store.State()) ==
      Proxy(c.Reg(), c.baseUrl, c.defaultUser, old(c.store.State()), "auth", "login", BodyCall(userKey, LoginBody(username, password)), transport)
  {
    x := c.Invoke("auth", "login", BodyCall(userKey, LoginBody(username, password)), transport);
  }

  /**
   * `logout_user`: the logout call, then, only if it did not raise, the
   * token and the cookies of `user_key` are cleared, under the key as given.
   */
  method LogoutUser(c: LegitSocialApi, userKey: string, transport: seq<Response>) returns (x: Exchange)
    modifies c.store
    ensures var (x', st') := Proxy(c.Reg(), c.baseUrl, c.defaultUser, old(c.store.State()), "auth", "logout", As(userKey), transport);
      && x == x'
      && c.store.State() == if x.outcome.Ok? then WithoutCookies(WithoutBearer(st', userKey), userKey) else st'
  {
    x := c.Invoke("auth", "logout", As(userKey), transport);
    if x.outcome.Ok? {
      c.store.ClearBearer(userKey);
      c.store.ClearCookies(userKey);
    }
  }

  /** `create_post`: the posts create call with the body `PostBody` builds. */
  method CreatePost(c: LegitSocialApi, userKey: string, content: string, parentId: Option<int>,
                    embed: Option<string>, media: Option<seq<string>>, transport: seq<Response>) returns (x: Exchange)
    modifies c.store
    ensures (x, c.store.State()) == Proxy(c.Reg(), c.baseUrl, c.defaultUser, old(c.store.State()), "posts", "create",
      BodyCall(userKey, PostBody(content, parentId, embed, media)), transport)
  {
    x := c.Invoke("posts", "create", BodyCall(userKey, PostBody(content, parentId, embed, media)), transport);
  }

  /** `like_post`, `unlike_post`, `repost` and `undo_repost`: `name` is `like`, `undo_like`, `repost` or `undo_repost`. */
  method PostAction(c: LegitSocialApi, name: string, userKey: string, postId: int, transport: seq<Response>) returns (x: Exchange)
    modifies c.store
    ensures (x, c.store.State()) == Proxy(c.Reg(), c.baseUrl, c.defaultUser, old(c.store.State()), "posts", name,
      PostCall(userKey, postId), transport)
  {
    x := c.Invoke("posts", name, PostCall(userKey, postId), transport);
  }

  /** `get_user_feed`: one page of a feed, from the given cursor if any. */
  method GetUserFeed(c: LegitSocialApi, userKey: string, feedKey: string, cursor: Option<string>, transport: seq<Response>)
    returns (x: Exchange)
    modifies c.store
    ensures (x, c.store.State()) == Proxy(c.Reg(), c.baseUrl, c.defaultUser, old(c.store.State()), "feeds", "get",
      FeedCall(userKey, feedKey, cursor), transport)
  {
    x := c.Invoke("feeds", "get", FeedCall(userKey, feedKey, cursor), transport);
  }

  /** The `feeds.get` call of one page of `paginate_user_feed`: the user, the feed key as `key`, and that page's query. */
  function FeedPageCall(userKey: string, feedKey: string, q: Object): (c: Call)
    ensures c.userKey == Some(userKey) && c.pathParams == map["key" := feedKey]
    ensures c.query == q && c.body == None
  {
    As(userKey).(pathParams := map["key" := feedKey], query := q)
  }

  /**
   * `paginate_user_feed`: `paginate` over `feeds.get` for `user_key` with the
   * feed key as `key`, starting from an empty query; `calls` are the calls it
   * makes, one per page, in order.
   */
  method PaginateUserFeed(userKey: string, feedKey: string, pages: seq<Result<Json, Failure>>)
    returns (w: Walk, calls: seq<Call>)
    ensures w == WalkFrom(pages, 0, map[])
    ensures |calls| == |w.queries| <= |pages|
    ensures forall j :: 0 <= j < |calls| ==> calls[j] == FeedPageCall(userKey, feedKey, w.queries[j])
  {
    w := Paginate(pages, map[]);
    CallsWithinPages(pages, 0, map[]);
    calls := seq(|w.queries|, j requires 0 <= j < |w.queries| => FeedPageCall(userKey, feedKey, w.queries[j]));
  }

  /** `update_profile`: the profile update call with the new display name and bio. */
  method UpdateProfile(c: LegitSocialApi, userKey: string, displayName: string, bio: string, transport: seq<Response>)
    returns (x: Exchange)
    modifies c.store
    ensures (x, c.store.State()) == Proxy(c.Reg(), c.baseUrl, c.defaultUser, old(c.store.State()), "users", "update_profile",
      BodyCall(userKey, ProfileBody(displayName, bio)), transport)
  {
    x := c.Invoke("users", "update_profile", BodyCall(userKey, ProfileBody(displayName, bio)), transport);
  }

  /** `follow_user` and `unfollow_user`: `name` is `follow` or `undo_follow`. */
  method FollowAction(c: LegitSocialApi, name: string, userKey: string, target: Target, transport: seq<Response>)
    returns (x: Exchange)
    modifies c.store
    ensures (x, c.store.State()) == Proxy(c.Reg(), c.baseUrl, c.defaultUser, old(c.store.State()), "users", name,
      FollowCall(userKey, target), transport)
  {
    x := c.Invoke("users", name, FollowCall(userKey, target), transport);
  }
}
