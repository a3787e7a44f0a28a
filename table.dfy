/**
 * The static descriptor table of `build_client`, as written: 40 operations in
 * eight namespaces, one constant per descriptor. Every entry declares an
 * empty `path_params`, even where its path holds placeholders, so
 * `_request` substitutes nothing there and the placeholder reaches the URL.
 * `DeclarePlaceholders` is the corrected descriptor, which declares the
 * placeholders of its path; it is proved to leave none in the URL.
 */
module Table {
  import opened Wrappers
  import opened Text
  import opened Sessions
  import opened Registry
  import opened Engine

  const AuthChangePassword: Endpoint := Endpoint("auth.change_password", "POST", "/api/auth/change-password", "change_password", [], [], true, true, "auth", "change_password")
  const AuthLogin: Endpoint := Endpoint("auth.login", "POST", "/api/auth/login", "login", [], [], true, false, "auth", "login")
  const AuthLogout: Endpoint := Endpoint("auth.logout", "POST", "/api/auth/logout", "logout", [], [], false, true, "auth", "logout")
  const AuthRegister: Endpoint := Endpoint("auth.register", "POST", "/api/auth/register", "register", [], [], true, false, "auth", "register")
  const AuthRegisterTeam: Endpoint := Endpoint("auth.register_team", "POST", "/api/auth/register-team", "register_team", [], [], true, false, "auth", "register_team")
  const FeedsList: Endpoint := Endpoint("feeds.list", "GET", "/api/feeds/", "list", [], [], false, false, "feeds", "list")
  const FeedsGet: Endpoint := Endpoint("feeds.get", "GET", "/api/feeds/{key}", "get", [], ["cursor"], false, false, "feeds", "get")
  const GlobalsGet: Endpoint := Endpoint("globals.get", "GET", "/api/globals/", "get", [], [], false, false, "globals", "get")
  const NotificationsAll: Endpoint := Endpoint("notifications.all", "GET", "/api/notifications/", "all", [], ["cursor"], false, true, "notifications", "all")
  const NotificationsClearNotifications: Endpoint := Endpoint("notifications.clear_notifications", "DELETE", "/api/notifications/clear", "clear_notifications", [], [], false, true, "notifications", "clear_notifications")
  const NotificationsCountAll: Endpoint := Endpoint("notifications.count_all", "GET", "/api/notifications/count", "count_all", [], [], false, true, "notifications", "count_all")
  const NotificationsUnread: Endpoint := Endpoint("notifications.unread", "GET", "/api/notifications/unread", "unread", [], ["cursor"], false, true, "notifications", "unread")
  const NotificationsCountUnread: Endpoint := Endpoint("notifications.count_unread", "GET", "/api/notifications/unread/count", "count_unread", [], [], false, true, "notifications", "count_unread")
  const NotificationsDeleteNotification: Endpoint := Endpoint("notifications.delete_notification", "DELETE", "/api/notifications/{notification}", "delete_notification", [], [], false, true, "notifications", "delete_notification")
  const NotificationsMarkAsRead: Endpoint := Endpoint("notifications.mark_as_read", "POST", "/api/notifications/{notification}/mark-read", "mark_as_read", [], [], false, true, "notifications", "mark_as_read")
  const NotificationsMarkAsUnread: Endpoint := Endpoint("notifications.mark_as_unread", "POST", "/api/notifications/{notification}/mark-unread", "mark_as_unread", [], [], false, true, "notifications", "mark_as_unread")
  const SearchGet: Endpoint := Endpoint("search.get", "GET", "/api/search", "get", [], ["query", "cursor"], false, false, "search", "get")
  const TagsGet: Endpoint := Endpoint("tags.get", "GET", "/api/tags/lookup/{name}", "get", [], [], false, false, "tags", "get")
  const TagsLatest: Endpoint := Endpoint("tags.latest", "GET", "/api/tags/lookup/{name}/latest", "latest", [], ["cursor"], false, false, "tags", "latest")
  const TagsTrending: Endpoint := Endpoint("tags.trending", "GET", "/api/tags/trending", "trending", [], [], false, false, "tags", "trending")
  const PostsCreate: Endpoint := Endpoint("posts.create", "POST", "/api/twoots/", "create", [], [], true, true, "posts", "create")
  const PostsDelete: Endpoint := Endpoint("posts.delete", "DELETE", "/api/twoots/{post}/", "delete", [], [], false, true, "posts", "delete")
  const PostsGet: Endpoint := Endpoint("posts.get", "GET", "/api/twoots/{post}/", "get", [], [], false, false, "posts", "get")
  const PostsGetEmbed: Endpoint := Endpoint("posts.get_embed", "GET", "/api/twoots/{post}/embed", "get_embed", [], [], false, false, "posts", "get_embed")
  const PostsUndoLike: Endpoint := Endpoint("posts.undo_like", "DELETE", "/api/twoots/{post}/like", "undo_like", [], [], false, true, "posts", "undo_like")
  const PostsLike: Endpoint := Endpoint("posts.like", "POST", "/api/twoots/{post}/like", "like", [], [], false, true, "posts", "like")
  const PostsSetPromptInjection: Endpoint := Endpoint("posts.set_prompt_injection", "POST", "/api/twoots/{post}/prompt-injection", "set_prompt_injection", [], [], true, false, "posts", "set_prompt_injection")
  const PostsGetReplies: Endpoint := Endpoint("posts.get_replies", "GET", "/api/twoots/{post}/replies", "get_replies", [], ["cursor"], false, false, "posts", "get_replies")
  const PostsReportPost: Endpoint := Endpoint("posts.report_post", "POST", "/api/twoots/{post}/report", "report_post", [], [], true, true, "posts", "report_post")
  const PostsUndoRepost: Endpoint := Endpoint("posts.undo_repost", "DELETE", "/api/twoots/{post}/repost", "undo_repost", [], [], false, true, "posts", "undo_repost")
  const PostsRepost: Endpoint := Endpoint("posts.repost", "POST", "/api/twoots/{post}/repost", "repost", [], [], false, true, "posts", "repost")
  const PostsSetPostVisibility: Endpoint := Endpoint("posts.set_post_visibility", "POST", "/api/twoots/{post}/visibility", "set_post_visibility", [], [], true, false, "posts", "set_post_visibility")
  const UsersMe: Endpoint := Endpoint("users.me", "GET", "/api/users/me", "me", [], [], false, false, "users", "me")
  const UsersUpdateProfile: Endpoint := Endpoint("users.update_profile", "POST", "/api/users/me", "update_profile", [], [], true, true, "users", "update_profile")
  const UsersGet: Endpoint := Endpoint("users.get", "GET", "/api/users/{user}/", "get", [], [], false, false, "users", "get")
  const UsersGetActivity: Endpoint := Endpoint("users.get_activity", "GET", "/api/users/{user}/activity", "get_activity", [], ["cursor"], false, false, "users", "get_activity")
  const UsersUndoFollow: Endpoint := Endpoint("users.undo_follow", "DELETE", "/api/users/{user}/follow", "undo_follow", [], [], false, true, "users", "undo_follow")
  const UsersFollow: Endpoint := Endpoint("users.follow", "POST", "/api/users/{user}/follow", "follow", [], [], false, true, "users", "follow")
  const UsersGetFollowers: Endpoint := Endpoint("users.get_followers", "GET", "/api/users/{user}/followers", "get_followers", [], ["cursor"], false, false, "users", "get_followers")
  const UsersGetFollows: Endpoint := Endpoint("users.get_follows", "GET", "/api/users/{user}/follows", "get_follows", [], ["cursor"], false, false, "users", "get_follows")

  /** The descriptors `build_client` registers, in registration order. */
  function Table(): (t: seq<Endpoint>)
    ensures |t| == 40
  {
    [
      AuthChangePassword,
      AuthLogin,
      AuthLogout,
      AuthRegister,
      AuthRegisterTeam,
      FeedsList,
      FeedsGet,
      GlobalsGet,
      NotificationsAll,
      NotificationsClearNotifications,
      NotificationsCountAll,
      NotificationsUnread,
      NotificationsCountUnread,
      NotificationsDeleteNotification,
      NotificationsMarkAsRead,
      NotificationsMarkAsUnread,
      SearchGet,
      TagsGet,
      TagsLatest,
      TagsTrending,
      PostsCreate,
      PostsDelete,
      PostsGet,
      PostsGetEmbed,
      PostsUndoLike,
      PostsLike,
      PostsSetPromptInjection,
      PostsGetReplies,
      PostsReportPost,
      PostsUndoRepost,
      PostsRepost,
      PostsSetPostVisibility,
      UsersMe,
      UsersUpdateProfile,
      UsersGet,
      UsersGetActivity,
      UsersUndoFollow,
      UsersFollow,
      UsersGetFollowers,
      UsersGetFollows    ]
  }

  // ---- the undeclared placeholders ----

  /**
   * As written, `posts.like` declares no path parameter: whatever the call
   * passes as `path_params`, the request goes to the path with its literal
   * `{post}`.
   */
  lemma AsWrittenLikeKeepsPlaceholder(endpoints: map<string, Endpoint>, baseUrl: string, defaultUser: string, st: Store,
                                      call: Call, transport: seq<Response>)
    requires "posts.like" in endpoints && endpoints["posts.like"] == PostsLike
    ensures var x := Dispatch(endpoints, baseUrl, defaultUser, st, "posts.like", call, transport).0;
      x.request.Some? && x.request.value.url == baseUrl + "/api/twoots/{post}/like"
  {
    DispatchUrl(endpoints, baseUrl, defaultUser, st, "posts.like", call, transport, PostsLike.path);
  }

  /** No descriptor of the table declares a path parameter, templated path or not. */
  lemma TableDeclaresNoPathParams()
    ensures forall i :: 0 <= i < |Table()| ==> Table()[i].pathParams == []
  {
  }

  /** `posts.like` is the 26th descriptor, and no later one shares its operation id or its namespace and name. */
  lemma PostsLikeIsNotOverridden()
    ensures 25 < |Table()| && Table()[25] == PostsLike
    ensures forall j :: 25 < j < |Table()| ==> Table()[j].operationId != PostsLike.operationId
    ensures forall j :: 25 < j < |Table()| ==> Table()[j].ns != PostsLike.ns || Table()[j].name != PostsLike.name
  {
  }

  /** The registry `build_client` fills resolves `posts.like` to the as-written descriptor. */
  lemma BuiltRegistryResolvesLike()
    ensures Resolve(RegisterAll(EmptyRegistry, Table()).endpoints, "posts.like") == Some(PostsLike)
  {
    PostsLikeIsNotOverridden();
    ResolveFindsLast(Table(), 25);
  }

  /** On the client `build_client` returns, `client.posts.like` finds the as-written descriptor. */
  lemma BuiltRegistryLooksUpLike()
    ensures Lookup(RegisterAll(EmptyRegistry, Table()), "posts", "like") == Ok(PostsLike)
  {
    PostsLikeIsNotOverridden();
    LookupFindsLast(Table(), 25);
  }

  /** A descriptor corrected to declare every placeholder of its path template. */
  function DeclarePlaceholders(ep: Endpoint, t: seq<Seg>): (r: Endpoint)
    requires WellFormed(t) && Render(t) == ep.path
    ensures forall h :: h in r.pathParams <==> h in Holes(t)
    ensures r.(pathParams := ep.pathParams) == ep
  {
    ep.(pathParams := HoleNames(t))
  }

  /**
   * A corrected descriptor, called with a brace-free value for each of its
   * placeholders, substitutes them all: no placeholder is left in the path.
   */
  lemma DeclaredLeavesNoPlaceholder(ep: Endpoint, t: seq<Seg>, params: map<string, string>)
    requires Render(t) == ep.path && WellFormed(t)
    requires forall h :: h in Holes(t) ==> h in params && BraceFree(params[h])
    ensures var fixed := DeclarePlaceholders(ep, t);
      Substitute(fixed.path, fixed.pathParams, params).Ok? && '{' !in Substitute(fixed.path, fixed.pathParams, params).value
  {
    var names := HoleNames(t);
    HoleNamesBraceFree(t);
    assert forall h :: h in Holes(t) ==> exists i :: 0 <= i < |names| && names[i] == h;
    NoPlaceholderRemains(t, names, params);
  }

  /** A path with one placeholder between two literal runs, such as `/api/twoots/{post}/like`. */
  function OneHole(prefix: string, name: string, suffix: string): seq<Seg> {
    [Lit(prefix), Hole(name), Lit(suffix)]
  }

  lemma OneHoleRenders(prefix: string, name: string, suffix: string)
    ensures Render(OneHole(prefix, name, suffix)) == prefix + Placeholder(name) + suffix
  {
    var t := OneHole(prefix, name, suffix);
    assert Render(t[2..]) == suffix;
    assert Render(t[1..]) == Placeholder(name) + suffix;
  }

  lemma OneHoleWellFormed(prefix: string, name: string, suffix: string)
    requires BraceFree(prefix) && BraceFree(name) && BraceFree(suffix)
    ensures WellFormed(OneHole(prefix, name, suffix)) && HoleNames(OneHole(prefix, name, suffix)) == [name]
  {
    var t := OneHole(prefix, name, suffix);
    assert WellFormed(t[2..]) && HoleNames(t[2..]) == [];
    assert WellFormed(t[1..]) && HoleNames(t[1..]) == [name];
  }

  lemma OneHoleFilled(prefix: string, name: string, suffix: string, v: string)
    ensures Render(Fill(OneHole(prefix, name, suffix), name, v)) == prefix + v + suffix
  {
    var filled := Fill(OneHole(prefix, name, suffix), name, v);
    assert filled == [Lit(prefix), Lit(v), Lit(suffix)];
    assert Render(filled[2..]) == suffix;
    assert Render(filled[1..]) == v + suffix;
  }

  /** Declaring the one placeholder and substituting a brace-free value puts the value between the two runs. */
  lemma OneHoleSubstitutes(prefix: string, name: string, suffix: string, params: map<string, string>)
    requires BraceFree(prefix) && BraceFree(name) && BraceFree(suffix)
    requires name in params && BraceFree(params[name])
    ensures Substitute(prefix + Placeholder(name) + suffix, [name], params) == Ok(prefix + params[name] + suffix)
  {
    var t := OneHole(prefix, name, suffix);
    OneHoleRenders(prefix, name, suffix);
    OneHoleWellFormed(prefix, name, suffix);
    ReplaceFills(t, name, params[name]);
    OneHoleFilled(prefix, name, suffix, params[name]);
    assert [name][1..] == [];
  }

  /**
   * A corrected descriptor whose path has one placeholder: a call that
   * supplies a brace-free value reaches the path with the value in place.
   */
  lemma CorrectedFillsPlaceholder(endpoints: map<string, Endpoint>, baseUrl: string, defaultUser: string, st: Store,
                                  opId: string, call: Call, transport: seq<Response>, prefix: string, name: string, suffix: string)
    requires BraceFree(prefix) && BraceFree(name) && BraceFree(suffix)
    requires opId in endpoints && endpoints[opId].path == prefix + Placeholder(name) + suffix
    requires endpoints[opId].pathParams == [name]
    requires name in call.pathParams && BraceFree(call.pathParams[name])
    ensures var x := Dispatch(endpoints, baseUrl, defaultUser, st, opId, call, transport).0;
      x.request.Some? && x.request.value.url == baseUrl + prefix + call.pathParams[name] + suffix
  {
    var path := prefix + call.pathParams[name] + suffix;
    OneHoleSubstitutes(prefix, name, suffix, call.pathParams);
    DispatchUrl(endpoints, baseUrl, defaultUser, st, opId, call, transport, path);
    assert baseUrl + path == baseUrl + prefix + call.pathParams[name] + suffix;
  }

  /** A corrected descriptor whose path has one placeholder fails, before any request, without its value. */
  lemma CorrectedNeedsPlaceholder(endpoints: map<string, Endpoint>, baseUrl: string, defaultUser: string, st: Store,
                                  opId: string, call: Call, transport: seq<Response>, name: string)
    requires opId in endpoints
    requires endpoints[opId].pathParams == [name]
    requires name !in call.pathParams
    ensures var x := Dispatch(endpoints, baseUrl, defaultUser, st, opId, call, transport).0;
      x.request.None? && x.calls == 0 && x.outcome == Err(MissingPathParam(name, opId))
  {
    MissingPathParamFailsBeforeTransport(endpoints, baseUrl, defaultUser, st, opId, call, transport, name);
  }

  /** The corrected descriptor of a one-placeholder path declares exactly that placeholder. */
  lemma DeclaringOneHole(ep: Endpoint, prefix: string, name: string, suffix: string)
    requires BraceFree(prefix) && BraceFree(name) && BraceFree(suffix)
    requires ep.path == prefix + Placeholder(name) + suffix
    ensures WellFormed(OneHole(prefix, name, suffix)) && Render(OneHole(prefix, name, suffix)) == ep.path
    ensures DeclarePlaceholders(ep, OneHole(prefix, name, suffix)).pathParams == [name]
  {
    OneHoleWellFormed(prefix, name, suffix);
    OneHoleRenders(prefix, name, suffix);
  }

  /** `posts.like` corrected to declare the `post` placeholder of its path: nothing else changes. */
  function CorrectedPostsLike(): (ep: Endpoint)
    ensures ep.pathParams == ["post"] && ep.(pathParams := []) == PostsLike
  {
    HelperPathsHaveOnePlaceholder();
    DeclaringOneHole(PostsLike, "/api/twoots/", "post", "/like");
    DeclarePlaceholders(PostsLike, OneHole("/api/twoots/", "post", "/like"))
  }

  /** The descriptors of the post and user helpers have one-placeholder paths. */
  lemma HelperPathsHaveOnePlaceholder()
    ensures PostsLike.path == "/api/twoots/" + Placeholder("post") + "/like"
    ensures PostsUndoLike.path == "/api/twoots/" + Placeholder("post") + "/like"
    ensures PostsRepost.path == "/api/twoots/" + Placeholder("post") + "/repost"
    ensures PostsUndoRepost.path == "/api/twoots/" + Placeholder("post") + "/repost"
    ensures UsersFollow.path == "/api/users/" + Placeholder("user") + "/follow"
    ensures UsersUndoFollow.path == "/api/users/" + Placeholder("user") + "/follow"
    ensures FeedsGet.path == "/api/feeds/" + Placeholder("key") + ""
  {
  }
}
