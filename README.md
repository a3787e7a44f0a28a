# Legit Social API client, modelled in Dafny

This project models `legit_social_client.py`, the Python client of the Legit
Social API:

- the per-user `SessionStore`: one HTTP session per user key, with a bearer
  token and a cookie dict;
- the `LegitSocialAPI` client: its endpoint registry and namespaces
  (`client.auth.login`, `client.posts.like`, ...);
- the request machinery `_request`:
  - path-parameter substitution;
  - query filtering, body selection and header merging;
  - the retry loop with exponential backoff on 429/5xx;
  - error classification;
- the cursor paginator `paginate`;
- the static descriptor table of `build_client`;
- the convenience helpers at the end of the file.

Nothing here talks to a network. The HTTP transport is a parameter: a
sequence of responses, the i-th attempt receiving the i-th response. The
sleeps of the backoff are recorded, not performed. What the operation answers
to the paginator is also a sequence of outcomes.

Modules, one per file:

- `Wrappers`: `Option` and `Result`.
- `Json`: JSON values with Python truthiness and `dict.get`.
- `Text`:
  - `str.replace`, `str.rstrip` and `str(int)`;
  - path templates (literal runs and `{name}` placeholders), which explain
    what the replacement loop of `_request` does to a path.
- `Sessions`:
  - the store as a value (`Store`) with one function per method;
  - the `SessionStore` class, whose methods are proved against those functions.
- `Registry`: `register_endpoint` and the lookup `client.<ns>.<name>`.
- `Engine`: `_request` as a function of the registry, the store and the
  transport, together with the retry and classification pieces it is built from.
- `Client`: the `LegitSocialApi` class.
  - Its `Request` and `Invoke` methods are proved against `Engine.Dispatch`
    and `Engine.Proxy`.
  - `BuildClient` registers the table.
- `Table`:
  - the 40 descriptors of `build_client`, as written;
  - the correction of their `path_params` (see Findings).
- `Pagination`: `paginate` as a loop, proved against a recursive definition
  of the walk.
- `Helpers`:
  - the helper functions (`login_user`, `logout_user`, `create_post`, ...);
  - the argument builders they use.

## Model

| member | source | states |
|---|---|---|
| Text.RStrip | legit_social_client.py:90 | `base_url.rstrip("/")`: the result is a prefix of the input, does not end in the stripped character, and everything removed is that character |
| Text.Decimal | legit_social_client.py:125-126 | `str(n)` of an int path value: the decimal digits of `n`, after a `-` when `n` is negative; non-empty and never a brace |
| Text.Digits | legit_social_client.py:126 | `str(n)` of a natural number: non-empty decimal digits without a leading zero unless `n` is zero |
| Text.DigitsRoundTrip | legit_social_client.py:126 | reading the decimal text of a natural number back gives the number |
| Text.DecimalRoundTrip | legit_social_client.py:126 | the text `str(n)` denotes `n`: its digits read back as `n`, or as `-n` after the leading `-` |
| Text.ReplaceAll | legit_social_client.py:125-126 | `str.replace` of a non-empty pattern; replacing a pattern by itself changes nothing |
| Text.ReplaceAbsent | legit_social_client.py:125-126 | a text that does not contain the pattern's first character is left unchanged by the replacement |
| Text.HoleNames | legit_social_client.py:122-126 | the list of names a descriptor should declare holds exactly the placeholders of its path template |
| Text.ReplaceFills | legit_social_client.py:125-126 | `url_path.replace("{name}", v)` on a well-formed template is the template with that one placeholder filled in and nothing else changed |
| Text.ReplaceSkipsRun | legit_social_client.py:125-126 | the replacement passes over a literal run without braces unchanged |
| Text.RenderNoHoles | legit_social_client.py:127 | a well-formed template with no placeholders renders to text without `{` |
| Sessions.WithSession | legit_social_client.py:54-64 | `get(k)` creates a session only when `k` has none, and that session is exactly the three default headers with an empty jar; an existing session is returned unchanged; tokens and cookie records are untouched |
| Sessions.WithBearer | legit_social_client.py:66-69 | `set_bearer(k, t)` records `t` for `k` and sets the header `Authorization: Bearer t` in `k`'s session, keeping its other headers and its jar |
| Sessions.WithoutBearer | legit_social_client.py:71-75 | `clear_bearer(k)` forgets `k`'s token; `k`'s headers become those of its (possibly new) session less `Authorization`, whether or not either existed; the jar is kept |
| Sessions.ClearBearerWithoutBearerIsNoOp | legit_social_client.py:71-75 | `clear_bearer` on a user that has a session but neither a token nor an `Authorization` header changes nothing |
| Sessions.WithCookies | legit_social_client.py:77-80 | `set_cookies(k, c)` replaces the recorded dict of `k` by `c` but merges `c` into the jar, so jar entries not named in `c` survive |
| Sessions.WithoutCookies | legit_social_client.py:82-85 | `clear_cookies(k)` forgets the recorded dict and empties the jar, keeping headers and token |
| Sessions.CallKeepsOthers | legit_social_client.py:43-85 | every store method changes only the session, token and cookie record of its own user key |
| Sessions.Isolation | legit_social_client.py:43-85 | any sequence of store calls on other user keys leaves a user's session, token and cookies exactly as they were |
| Sessions.GetIsStable | legit_social_client.py:54-64 | `get` is idempotent: a second `get` of the same key changes nothing |
| Sessions.ClearBearerUndoesSetBearer | legit_social_client.py:66-75 | `set_bearer` followed by `clear_bearer` leaves the same store as `clear_bearer` alone |
| Sessions.SetBearerLastWins | legit_social_client.py:66-69 | two `set_bearer` calls for one user leave the same store as the second one alone |
| Sessions.ClearCookiesUndoesSetCookies | legit_social_client.py:77-85 | `set_cookies` followed by `clear_cookies` leaves the same store as `clear_cookies` alone |
| Sessions.SetCookiesRecordAndJarDiverge | legit_social_client.py:77-80 | after two `set_cookies`, the record holds only the second dict while the jar holds the union of the old jar and both dicts |
| Sessions.BearerStaysWithItsUser | legit_social_client.py:66-69 | setting user `a`'s bearer never gives user `b`'s session an `Authorization` header |
| Sessions.SessionStore.constructor | legit_social_client.py:49-52 | a new store holds no sessions, tokens or cookies |
| Sessions.SessionStore.Get | legit_social_client.py:54-64 | the store becomes `WithSession` of the old store, and the returned session is the one stored for the key |
| Sessions.SessionStore.SetBearer | legit_social_client.py:66-69 | the store becomes `WithBearer` of the old store |
| Sessions.SessionStore.ClearBearer | legit_social_client.py:71-75 | the store becomes `WithoutBearer` of the old store |
| Sessions.SessionStore.SetCookies | legit_social_client.py:77-80 | the store becomes `WithCookies` of the old store |
| Sessions.SessionStore.ClearCookies | legit_social_client.py:82-85 | the store becomes `WithoutCookies` of the old store |
| Registry.Register | legit_social_client.py:96-100 | the descriptor is stored under its operation id and under its local name in its namespace, which is created when new; every other id, name and namespace keeps its descriptor |
| Registry.Resolve | legit_social_client.py:113-115 | `op_id in self._endpoints`, the lookup `_request` starts with: an operation id resolves exactly when it is registered |
| Registry.ResolvedNamespaceExists | legit_social_client.py:96-100 | in a valid registry a resolved descriptor's namespace exists |
| Registry.RegisterAll | legit_social_client.py:231-326 | a sequence of registrations only adds ids and namespaces; the last descriptor is then found under its id and under its namespace and local name |
| Registry.Lookup | legit_social_client.py:102-106 | `client.<ns>.<name>` finds a descriptor exactly when both the namespace and the local name are registered; an unknown namespace is reported before an unknown name |
| Registry.RegisterValid | legit_social_client.py:199-200 | registration keeps every namespace entry under its own namespace and name, with an operation id that is registered |
| Registry.RegisterAllValid | legit_social_client.py:96-100 | any sequence of registrations keeps that invariant |
| Registry.RegisteredIds | legit_social_client.py:97 | after a sequence of registrations, the registered operation ids are exactly those of the descriptors |
| Registry.RegisteredNamespaces | legit_social_client.py:98-99 | the namespaces are exactly those the descriptors name |
| Registry.RegisteredNames | legit_social_client.py:199-200 | each namespace holds exactly the local names of the descriptors registered in it |
| Registry.ResolveFindsLast | legit_social_client.py:97 | an operation id resolves to the last descriptor registered under it |
| Registry.LookupFindsLast | legit_social_client.py:200 | a namespace and local name find the last descriptor registered under them |
| Registry.NamespacesExist | legit_social_client.py:98-99 | every registered descriptor's namespace exists |
| Engine.ResolveUser | legit_social_client.py:116 | `user_key or default_user`: a missing or empty key means the default user |
| Engine.SubstitutePath | legit_social_client.py:120-126 | the substitution loop computes `Substitute` |
| Engine.SubstituteFailsOnFirstMissing | legit_social_client.py:122-124 | substitution succeeds exactly when every declared name is supplied; otherwise it fails with the first declared name that is missing |
| Engine.SubstituteIgnoresUndeclared | legit_social_client.py:122-126 | path values for names the descriptor does not declare make no difference |
| Engine.FillRemovesHole | legit_social_client.py:125-126 | filling a placeholder with a brace-free value removes exactly that placeholder and keeps the template well formed |
| Engine.SubstituteIsFill | legit_social_client.py:120-127 | on a well-formed template with brace-free names and values, substitution is filling each declared placeholder and leaves exactly the undeclared ones |
| Engine.NoPlaceholderRemains | legit_social_client.py:120-127 | when every placeholder of the template is declared and supplied, the URL path contains no `{` |
| Engine.FilterQuery | legit_social_client.py:134 | the query keeps exactly the entries whose value is not None, unchanged |
| Engine.SelectBody | legit_social_client.py:136-139 | a body is sent exactly when the operation has one; it is the call's body, or `{}` when none is given |
| Engine.MergeHeaders | legit_social_client.py:130-132 | the request headers are the session's headers overridden by the call's |
| Engine.RetryShape | legit_social_client.py:141-157 | at most four attempts; before each retry the previous status was 429/500/502/503/504 and the sleep doubles from 1; the last response is final unless it is the fourth |
| Engine.SendWithRetry | legit_social_client.py:141-157 | the retry loop computes `RetryFrom` |
| Engine.Classify | legit_social_client.py:159-170 | status 400 and above raises `APIError` with that status, the parsed payload (`{}` when it does not parse) and the message; a non-object error body makes `payload.get` fail; status below 400 returns the parsed body or `{"raw": text}` |
| Engine.ErrorMessagePreference | legit_social_client.py:164 | the error message is the payload's truthy `message`, otherwise the response text |
| Engine.ProxyForwards | legit_social_client.py:202-223 | a proxy call with an unknown namespace or name fails with no request and no store change; otherwise it is `_request` on the descriptor's operation id with the same arguments |
| Engine.UnknownOperationFailsFirst | legit_social_client.py:113-114 | an unknown operation id fails before any session is created and before any request |
| Engine.MissingPathParamFailsBeforeTransport | legit_social_client.py:115-124 | a missing declared path parameter fails after the user's session exists but with no request sent; the reported name is declared and missing |
| Engine.Substitute | legit_social_client.py:120-126 | the path loop over the declared names; a failure names a declared parameter that was not supplied |
| Engine.RetryFrom | legit_social_client.py:141-157 | from attempt `a`, between `a + 1` and four calls are made, with one sleep before each call after the first |
| Engine.ErrorMessage | legit_social_client.py:164 | `payload.get("message") or resp.text`: the payload's `message` when it is truthy, the response text otherwise |
| Engine.Dispatch | legit_social_client.py:109-170 | the descriptor is found with `Resolve`; an unknown operation leaves the store alone; a known one opens the user's session; no request exactly when no call is made, and then the outcome is an error with no sleep; a sent request has the calls, sleeps and outcome of the retry loop |
| Engine.Proxy | legit_social_client.py:202-223 | a namespace call never changes tokens or cookie records; no request exactly when no call is made |
| Engine.DispatchSendsBuiltRequest | legit_social_client.py:109-170 | with every declared parameter supplied, one request shape is sent to base URL plus substituted path, with the verb, filtered query, selected body and merged headers; the calls (1 to 4) and sleeps are those of the retry loop; the result is the classified last response |
| Engine.DispatchUrl | legit_social_client.py:127 | the URL is the base URL followed by the substituted path |
| Engine.RecoversAfterThreeUnavailable | legit_social_client.py:141-157 | three 503s then a 200 give the 200 body after sleeping 1, 2 and 4 |
| Engine.GivesUpAfterFourUnavailable | legit_social_client.py:154-165 | four 503s raise the fourth as `APIError` after three sleeps |
| Engine.NotFoundIsNotRetried | legit_social_client.py:154-165 | a 404 is not retried and raises `APIError` 404 |
| Client.LegitSocialApi.constructor | legit_social_client.py:89-94 | base URL without trailing slashes; the given store, or a fresh empty one; empty registry |
| Client.LegitSocialApi.RegisterEndpoint | legit_social_client.py:96-100 | the registry becomes `Register` of the old one and stays valid |
| Client.LegitSocialApi.RegisterEach | legit_social_client.py:231-326 | the registration calls in order give `RegisterAll` of the old registry |
| Client.LegitSocialApi.Request | legit_social_client.py:109-170 | the exchange and the new store are those of `Dispatch` on the old store |
| Client.LegitSocialApi.Invoke | legit_social_client.py:202-227 | the exchange and the new store are those of `Proxy` on the old store |
| Client.BuildClient | legit_social_client.py:230-328 | a new client with default user `default` and a fresh empty store has the table registered in order |
| Table.Table | legit_social_client.py:233-326 | the forty descriptors of `build_client`, in registration order |
| Table.TableDeclaresNoPathParams | legit_social_client.py:233-326 | no descriptor of `build_client` declares a path parameter, templated path or not |
| Table.PostsLikeIsNotOverridden | legit_social_client.py:295-296 | `posts.like` is registered once: no later descriptor reuses its operation id or its namespace and name |
| Table.BuiltRegistryResolvesLike | legit_social_client.py:230-328 | the registry `build_client` fills resolves `posts.like` to the as-written descriptor |
| Table.BuiltRegistryLooksUpLike | legit_social_client.py:230-328 | on `build_client`'s client, `client.posts.like` finds the as-written descriptor |
| Table.AsWrittenLikeKeepsPlaceholder | legit_social_client.py:295-296 | as written, `posts.like` sends every request to the literal `/api/twoots/{post}/like`, whatever path values the call supplies |
| Table.DeclarePlaceholders | legit_social_client.py:295-296 | given a well-formed template that renders to the descriptor's path, the corrected descriptor declares exactly the placeholders of that path and is otherwise unchanged |
| Table.DeclaredLeavesNoPlaceholder | legit_social_client.py:120-127 | a corrected descriptor given brace-free values for its placeholders produces a URL path without `{` |
| Table.OneHoleSubstitutes | legit_social_client.py:122-126 | declaring the single placeholder of a `prefix{name}suffix` path and supplying a brace-free value gives `prefix value suffix` |
| Table.CorrectedFillsPlaceholder | legit_social_client.py:295-296 | a corrected one-placeholder descriptor sends the request to the path with the supplied value in place |
| Table.CorrectedNeedsPlaceholder | legit_social_client.py:122-124 | a corrected descriptor called without its placeholder value fails with that name, with no request sent |
| Table.DeclaringOneHole | legit_social_client.py:295-296 | for a descriptor whose path is `prefix{name}suffix`, the one-placeholder template is well formed and renders to that path, and correcting the descriptor declares exactly `name` |
| Table.CorrectedPostsLike | legit_social_client.py:295-296 | `posts.like` corrected: it declares `post` and is otherwise the as-written descriptor |
| Pagination.DataItems | legit_social_client.py:181-184 | `data or []` of a page: no items for a falsy `data`, the list's items for a list, and no answer exactly for a truthy non-list |
| Pagination.NextCursor | legit_social_client.py:185-187 | a cursor exactly when `has_next` and `next_cursor` are both truthy, and then it is `next_cursor` |
| Pagination.PageStep | legit_social_client.py:179-190 | a raising call stops the walk with nothing yielded, a non-dict payload stops it as `PayloadNotDict`, a truthy non-list `data` as `DataNotList`; for a dict payload with falsy or list `data` the items are `DataItems`; the walk goes on exactly when `paging` is a dict with truthy `has_next` and `next_cursor`, and then with `next_cursor` |
| Pagination.PageStepStops | legit_social_client.py:182-190 | a list page that does not go on stops as `PagingNotDict` when its `paging` is truthy and not a dict, otherwise normally |
| Pagination.Paginate | legit_social_client.py:173-190 | the paginator loop computes `WalkFrom` over the outcomes |
| Pagination.CallsWithinPages | legit_social_client.py:178-190 | one call per outcome at most: the walk never asks for more pages than there are outcomes |
| Pagination.CallsStopAtFirstStop | legit_social_client.py:178-190 | every call but the last went on; the last call's page is the one that stopped the walk, unless the outcomes ran out |
| Pagination.ItemsInPageOrder | legit_social_client.py:183-184 | the yielded items are the pages' items concatenated in call order |
| Pagination.QueriesFollowCursors | legit_social_client.py:176-188 | the first call gets the caller's query; each later call gets the previous query with `cursor` set to the previous page's `next_cursor` |
| Pagination.OnlyCursorChanges | legit_social_client.py:176-188 | no key of any call's query other than `cursor` differs from the caller's query |
| Pagination.HasNextWithoutCursorStops | legit_social_client.py:185-190 | a page with `has_next` but no `next_cursor` ends the walk after its items |
| Pagination.NullDataYieldsNothing | legit_social_client.py:181-184 | a page whose `data` is null yields nothing but the walk goes on |
| Pagination.ThreePages | legit_social_client.py:173-190 | three linked pages yield their items in order with queries carrying cursors `c1` then `c2` |
| Helpers.TargetText | legit_social_client.py:402-407 | `str(target)`: a handle as it is, an id as its decimal text `Decimal(id)`, which is brace-free |
| Helpers.LoginBody | legit_social_client.py:337-338 | the login body has exactly `username` and `password` |
| Helpers.PostBody | legit_social_client.py:356-362 | `content` and `parent_id` (null when absent) always; `embed` and `media` exactly when given |
| Helpers.FeedQuery | legit_social_client.py:382-385 | a `cursor` entry exactly when a cursor is given, and no other entry |
| Helpers.ProfileBody | legit_social_client.py:398-399 | the profile body has exactly `display_name` and `bio` |
| Helpers.PostCall | legit_social_client.py:366-379 | the post helpers pass only the post id, in decimal, as the `post` path parameter |
| Helpers.FollowCall | legit_social_client.py:402-407 | the follow helpers pass the target as the `user` path parameter |
| Helpers.FeedCall | legit_social_client.py:382-386 | `get_user_feed` passes the feed key as the `key` path parameter and the cursor query |
| Helpers.ProxyKeepsCredentials | legit_social_client.py:116-117 | a proxy call never changes recorded tokens or cookies; at most it opens the session of the user it runs as |
| Helpers.LoginRecordsNoToken | legit_social_client.py:333-345 | `login_user` records no token or cookie whatever the server answers, and sends exactly the credentials as the body |
| Helpers.LoggedOutHasNoCredentials | legit_social_client.py:348-353 | after logout the user has no token, no `Authorization` header, no cookie record and an empty jar; other users are unchanged |
| Helpers.PostHelperReachesPost | legit_social_client.py:366-379 | on a descriptor that declares `post`, a post helper's request goes to `/api/twoots/<id>` plus the action's suffix |
| Helpers.ReregisteredPostReaches | legit_social_client.py:96-100 | registering a corrected post descriptor over any registry makes its helper reach the post |
| Helpers.LikeAfterReregistering | legit_social_client.py:366-367 | after re-registering `posts.like` corrected, `like_post` sends to `/api/twoots/<id>/like` |
| Helpers.BuiltClientLikeKeepsPlaceholder | legit_social_client.py:366-367 | on the client `build_client` returns, `like_post` sends to the literal `/api/twoots/{post}/like`, whatever the post id |
| Helpers.FollowHelperReachesUser | legit_social_client.py:402-407 | on a descriptor that declares `user`, the follow helpers' request goes to `/api/users/<target>/follow` |
| Helpers.UndeclaredPlaceholderStaysLiteral | legit_social_client.py:366-367 | on a descriptor that declares no parameter, a helper's path values are ignored and the URL is the literal path |
| Helpers.FeedSendsCursorOnlyWhenGiven | legit_social_client.py:382-386 | `get_user_feed` sends a `cursor` query entry exactly when a cursor is given, and nothing else |
| Helpers.FeedPagesAskOnlyForCursor | legit_social_client.py:389-395 | `paginate_user_feed` sends queries whose only key is `cursor`, present on every call after the first |
| Helpers.LoginUser | legit_social_client.py:333-345 | the login proxy call with the credentials body; the payload is returned as it is |
| Helpers.LogoutUser | legit_social_client.py:348-353 | the logout proxy call; only if it did not raise, the token and cookies of `user_key` are cleared |
| Helpers.CreatePost | legit_social_client.py:356-363 | the `posts.create` proxy call with `PostBody` |
| Helpers.PostAction | legit_social_client.py:366-379 | the like/undo-like/repost/undo-repost proxy call with `PostCall` |
| Helpers.GetUserFeed | legit_social_client.py:382-386 | the `feeds.get` proxy call with `FeedCall` |
| Helpers.FeedPageCall | legit_social_client.py:389-395 | one page's `feeds.get` call: the user, the feed key as `key`, that page's query and no body |
| Helpers.PaginateUserFeed | legit_social_client.py:389-395 | the paginator from an empty query, making one `feeds.get` call per page for the user and feed key, with that page's query, never more calls than outcomes |
| Helpers.UpdateProfile | legit_social_client.py:398-399 | the profile update proxy call with `ProfileBody` |
| Helpers.FollowAction | legit_social_client.py:402-407 | the follow/undo-follow proxy call with `FollowCall` |

## Left out

- The `requests.Session` object is a value (headers, cookie jar) held in the store's map.
  - Aliasing is not captured: a session returned by `get` and mutated later is not modelled.
  - Headers set by `requests` itself (`Accept-Encoding`, `Connection`) are not modelled.
  - Header names are compared exactly, not case-insensitively.
  - Cookies that responses set through `Set-Cookie` are not modelled.
- The network and the clock are parameters:
  - the transport is a finite sequence of responses;
  - running out of responses stands for a transport exception;
  - the backoff sleeps are recorded as integers, not performed. Python's `backoff` is a float (1.0, 2.0, 4.0); the model uses the same whole values.
- `timeout` and `allow_redirects` are carried into the request unchanged; what `requests` does with them is not modelled.
- JSON numbers are integers; floats are not modelled.
- Dict order is not modelled: maps are unordered.
- `APIError`, `ValueError` and `AttributeError` are values of `Failure` or `LookupError`, not exceptions.
- The `secure`, `summary` and `query_params` fields of a descriptor are carried but unused, as in the source.
- The `__name__` and `__doc__` of the generated callers are not modelled.
- Pagination.Paginate:
  - the generator's laziness is not modelled; the walk is computed to its end;
  - the operation's answers are a finite sequence, so a walk can end with `OutOfPages`, which the unbounded Python loop cannot;
  - a truthy `data` that is not a list stops the walk with `DataNotList`. Python iterates a string's characters or a dict's keys there, and raises `TypeError` only for other types.
  - `paginate` takes the operation as a callable; the model takes its outcomes, so which operation and which user and path values are used is outside the walk.
- Helpers.PaginateUserFeed: the outcomes of the `feeds.get` calls are parameters, not derived from the client's `_request`; the sessions those calls open for the user are not tracked.
- Path parameter values are strings in `Call.pathParams`. The `str()` that `_request` applies to each value is done by the helpers (Text.Decimal, Helpers.TargetText) for ints and strings; `str()` of None, a bool or a float is not modelled.
- Sessions.WithCookies: `set_cookies` records the caller's dict by reference, so a later change to that dict shows in the store's record; the model keeps a copy and does not capture that aliasing.
- Sessions.WithCookies: a cookie jar update with a `None` value removes that cookie from the jar; `map<string, string>` cannot hold `None`, so that removal is not modelled.
- Pagination.WalkFrom: carries no contract of its own, so as to keep the proofs that unfold it small; its properties are the lemmas CallsWithinPages, CallsStopAtFirstStop, ItemsInPageOrder, QueriesFollowCursors and OnlyCursorChanges.
- Helpers.PostHelperReachesPost, Helpers.FollowHelperReachesUser: stated for descriptors that declare their placeholder. The table as written declares none (see Findings), and Helpers.UndeclaredPlaceholderStaysLiteral states what happens then.
- Table.DeclarePlaceholders: the corrected descriptor is applied to `posts.like` (Helpers.LikeAfterReregistering) and to one-placeholder paths in general. No corrected copy of the whole forty-entry table is built.
- Helpers.LoginUser: the commented-out code that would read a token from the payload is not modelled, since it does not run.
- The rest of the repository is not part of this model. That covers the Flask app, the worker, the notifiers, the LLM clients, `run.py` and the configuration.

## Findings

| source | as written | input that shows it | evidently intended | confidence | as-written member | corrected member |
|---|---|---|---|---|---|---|
| legit_social_client.py:295-296 | `posts.like` is registered with `path_params=[]` although its path is `/api/twoots/{post}/like`, so `_request` substitutes nothing. The same holds for every templated path of the table, such as `feeds.get` at line 247 (Table.TableDeclaresNoPathParams). | `like_post(client, "alice", 7)` sends `POST <base>/api/twoots/{post}/like` | `path_params=['post']`, so that the request goes to `<base>/api/twoots/7/like` | not executed | Helpers.BuiltClientLikeKeepsPlaceholder | Helpers.LikeAfterReregistering |
