/**
 * The per-user session store (`SessionStore`): one HTTP session per user key,
 * with its default headers and its cookie jar, plus the bearer tokens and
 * cookie dicts recorded per user. No operation touches another user's entry.
 */
module Sessions {
  import opened Wrappers

  type Headers = map<string, string>
  type Cookies = map<string, string>

  /** The state of one `requests.Session` that the client reads: its headers and its cookie jar. */
  datatype Session = Session(headers: Headers, jar: Cookies)

  const AuthorizationHeader := "Authorization"

  /** The headers every new session starts with. */
  const DefaultHeaders: Headers := map[
    "Accept" := "application/json",
    "Content-Type" := "application/json",
    "User-Agent" := "legit-social-client/1.0"
  ]

  /** The `Authorization` value of the bearer scheme (section 2.1 of RFC 6750). */
  function BearerValue(token: string): string { "Bearer " + token }

  /** The three dicts of a `SessionStore`. */
  datatype Store = Store(sessions: map<string, Session>, tokens: map<string, string>, cookies: map<string, Cookies>)

  const EmptyStore := Store(map[], map[], map[])

  /** Everything the store holds for one user key. */
  datatype Entry = Entry(session: Option<Session>, token: Option<string>, cookies: Option<Cookies>)

  function EntryOf(st: Store, k: string): Entry {
    Entry(
      if k in st.sessions then Some(st.sessions[k]) else None,
      if k in st.tokens then Some(st.tokens[k]) else None,
      if k in st.cookies then Some(st.cookies[k]) else None)
  }

  /** Every user key other than `k` has the same entry in `st` and `st'`. */
  ghost predicate OthersUnchanged(st: Store, st': Store, k: string) {
    forall j :: j != k ==> EntryOf(st', j) == EntryOf(st, j)
  }

  /** `get(k)`: a session for `k` exists afterwards; a new one has exactly the default headers and no cookies. */
  function WithSession(st: Store, k: string): (r: Store)
    ensures k in r.sessions
    ensures k in st.sessions ==> r == st
    ensures k !in st.sessions ==> r.sessions[k].headers.Keys == {"Accept", "Content-Type", "User-Agent"}
    ensures k !in st.sessions ==> r.sessions[k].jar == map[]
    ensures k !in st.sessions ==> r.sessions[k] == Session(DefaultHeaders, map[])
    ensures r.tokens == st.tokens && r.cookies == st.cookies
  {
    if k in st.sessions then st else st.(sessions := st.sessions[k := Session(DefaultHeaders, map[])])
  }

  /** `set_bearer(k, t)`: records `t` and sends it as the bearer `Authorization` header of `k` only. */
  function WithBearer(st: Store, k: string, token: string): (r: Store)
    ensures k in r.sessions && r.tokens.Keys == st.tokens.Keys + {k} && r.tokens[k] == token
    ensures AuthorizationHeader in r.sessions[k].headers && r.sessions[k].headers[AuthorizationHeader] == BearerValue(token)
    ensures forall h :: h in WithSession(st, k).sessions[k].headers && h != AuthorizationHeader ==>
      h in r.sessions[k].headers && r.sessions[k].headers[h] == WithSession(st, k).sessions[k].headers[h]
    ensures r.sessions[k].headers.Keys == WithSession(st, k).sessions[k].headers.Keys + {AuthorizationHeader}
    ensures r.sessions[k].jar == WithSession(st, k).sessions[k].jar
    ensures r.cookies == st.cookies
  {
    var s := WithSession(st.(tokens := st.tokens[k := token]), k);
    var sess := s.sessions[k];
    s.(sessions := s.sessions[k := sess.(headers := sess.headers[AuthorizationHeader := BearerValue(token)])])
  }

  /** `clear_bearer(k)`: forgets the token of `k` and drops its `Authorization` header, whether or not they existed. */
  function WithoutBearer(st: Store, k: string): (r: Store)
    ensures k in r.sessions && k !in r.tokens && AuthorizationHeader !in r.sessions[k].headers
    ensures r.tokens.Keys == st.tokens.Keys - {k}
    ensures r.sessions[k].headers.Keys == WithSession(st, k).sessions[k].headers.Keys - {AuthorizationHeader}
    ensures r.sessions[k].headers == WithSession(st, k).sessions[k].headers - {AuthorizationHeader}
    ensures r.sessions[k].jar == WithSession(st, k).sessions[k].jar
    ensures r.cookies == st.cookies
  {
    var s := WithSession(st.(tokens := st.tokens - {k}), k);
    var sess := s.sessions[k];
    s.(sessions := s.sessions[k := sess.(headers := sess.headers - {AuthorizationHeader})])
  }

  /**
   * `set_cookies(k, c)`: the recorded dict of `k` becomes `c`, while `c` is
   * merged into the jar, so jar entries that `c` does not name survive.
   */
  function WithCookies(st: Store, k: string, c: Cookies): (r: Store)
    ensures k in r.sessions && k in r.cookies && r.cookies[k] == c
    ensures r.sessions[k].jar.Keys == WithSession(st, k).sessions[k].jar.Keys + c.Keys
    ensures forall n :: n in c ==> r.sessions[k].jar[n] == c[n]
    ensures forall n :: n in WithSession(st, k).sessions[k].jar && n !in c ==>
      r.sessions[k].jar[n] == WithSession(st, k).sessions[k].jar[n]
    ensures r.sessions[k].headers == WithSession(st, k).sessions[k].headers
    ensures r.tokens == st.tokens
  {
    var s := WithSession(st.(cookies := st.cookies[k := c]), k);
    var sess := s.sessions[k];
    s.(sessions := s.sessions[k := sess.(jar := sess.jar + c)])
  }

  /** `clear_cookies(k)`: forgets the recorded dict of `k` and empties its jar. */
  function WithoutCookies(st: Store, k: string): (r: Store)
    ensures k in r.sessions && k !in r.cookies && r.sessions[k].jar == map[]
    ensures r.cookies.Keys == st.cookies.Keys - {k}
    ensures r.sessions[k].headers == WithSession(st, k).sessions[k].headers
    ensures r.tokens == st.tokens
  {
    var s := WithSession(st.(cookies := st.cookies - {k}), k);
    var sess := s.sessions[k];
    s.(sessions := s.sessions[k := sess.(jar := map[])])
  }

  /** One call on the store, for reasoning about sequences of calls. */
  datatype Op =
    | Get(key: string)
    | SetBearer(key: string, token: string)
    | ClearBearer(key: string)
    | SetCookies(key: string, cookies: Cookies)
    | ClearCookies(key: string)

  function Apply(st: Store, op: Op): Store {
    match op
    case Get(k) => WithSession(st, k)
    case SetBearer(k, t) => WithBearer(st, k, t)
    case ClearBearer(k) => WithoutBearer(st, k)
    case SetCookies(k, c) => WithCookies(st, k, c)
    case ClearCookies(k) => WithoutCookies(st, k)
  }

  function ApplyAll(st: Store, ops: seq<Op>): Store
    decreases |ops|
  {
    if ops == [] then st else ApplyAll(Apply(st, ops[0]), ops[1..])
  }

  /** One call changes the entry of its own user key and no other. */
  lemma CallKeepsOthers(st: Store, op: Op)
    ensures OthersUnchanged(st, Apply(st, op), op.key)
  {
  }

  /** Any sequence of calls on other user keys leaves the entry of `j` exactly as it was. */
  lemma {:induction false} Isolation(st: Store, ops: seq<Op>, j: string)
    requires forall i :: 0 <= i < |ops| ==> ops[i].key != j
    ensures EntryOf(ApplyAll(st, ops), j) == EntryOf(st, j)
    decreases |ops|
  {
    if ops != [] {
      CallKeepsOthers(st, ops[0]);
      Isolation(Apply(st, ops[0]), ops[1..], j);
    }
  }

  /** A second `get(k)` finds the session the first one left and changes nothing. */
  lemma GetIsStable(st: Store, k: string)
    ensures WithSession(WithSession(st, k), k) == WithSession(st, k)
  {
  }

  lemma UpdateTwice<K, V>(m: map<K, V>, k: K, v1: V, v2: V)
    ensures m[k := v1][k := v2] == m[k := v2]
  {
  }

  lemma RemoveUpdated<K, V>(m: map<K, V>, k: K, v: V)
    ensures m[k := v] - {k} == m - {k}
  {
  }

  /** `clear_bearer` undoes `set_bearer`: the token and the header are gone as if never set. */
  lemma ClearBearerUndoesSetBearer(st: Store, k: string, t: string)
    ensures WithoutBearer(WithBearer(st, k, t), k) == WithoutBearer(st, k)
  {
    var S := WithSession(st, k).sessions;
    var s := S[k];
    var h1 := s.(headers := s.headers[AuthorizationHeader := BearerValue(t)]);
    var h0 := s.(headers := s.headers - {AuthorizationHeader});
    var m := WithBearer(st, k, t);
    assert m == Store(S[k := h1], st.tokens[k := t], st.cookies);
    assert WithoutBearer(st, k) == Store(S[k := h0], st.tokens - {k}, st.cookies);
    RemoveUpdated(s.headers, AuthorizationHeader, BearerValue(t));
    assert h1.(headers := h1.headers - {AuthorizationHeader}) == h0;
    UpdateTwice(S, k, h1, h0);
    RemoveUpdated(st.tokens, k, t);
  }

  /** `clear_bearer` on a user with a session but neither a token nor an `Authorization` header changes nothing. */
  lemma ClearBearerWithoutBearerIsNoOp(st: Store, k: string)
    requires k in st.sessions && k !in st.tokens && AuthorizationHeader !in st.sessions[k].headers
    ensures WithoutBearer(st, k) == st
  {
    var s := st.sessions[k];
    assert st.tokens - {k} == st.tokens;
    assert s.headers - {AuthorizationHeader} == s.headers;
    assert st.sessions[k := s] == st.sessions;
  }

  /** The last token set for a user wins. */
  lemma SetBearerLastWins(st: Store, k: string, t1: string, t2: string)
    ensures WithBearer(WithBearer(st, k, t1), k, t2) == WithBearer(st, k, t2)
  {
    var S := WithSession(st, k).sessions;
    var s := S[k];
    var h1 := s.(headers := s.headers[AuthorizationHeader := BearerValue(t1)]);
    var h2 := s.(headers := s.headers[AuthorizationHeader := BearerValue(t2)]);
    var m := WithBearer(st, k, t1);
    assert m == Store(S[k := h1], st.tokens[k := t1], st.cookies);
    assert WithBearer(st, k, t2) == Store(S[k := h2], st.tokens[k := t2], st.cookies);
    assert h1.(headers := h1.headers[AuthorizationHeader := BearerValue(t2)]) == h2;
    UpdateTwice(S, k, h1, h2);
    UpdateTwice(st.tokens, k, t1, t2);
  }

  /** `clear_cookies` undoes `set_cookies`. */
  lemma ClearCookiesUndoesSetCookies(st: Store, k: string, c: Cookies)
    ensures WithoutCookies(WithCookies(st, k, c), k) == WithoutCookies(st, k)
  {
    var S := WithSession(st, k).sessions;
    var s := S[k];
    var j1, j0 := s.(jar := s.jar + c), s.(jar := map[]);
    var m := WithCookies(st, k, c);
    assert m == Store(S[k := j1], st.tokens, st.cookies[k := c]);
    assert WithoutCookies(st, k) == Store(S[k := j0], st.tokens, st.cookies - {k});
    UpdateTwice(S, k, j1, j0);
    RemoveUpdated(st.cookies, k, c);
  }

  /**
   * Two `set_cookies` calls: the recorded dict is the second one only, but
   * the jar keeps every cookie of the first that the second does not name.
   */
  lemma SetCookiesRecordAndJarDiverge(st: Store, k: string, c1: Cookies, c2: Cookies)
    ensures WithCookies(WithCookies(st, k, c1), k, c2).cookies[k] == c2
    ensures WithCookies(WithCookies(st, k, c1), k, c2).sessions[k].jar == WithSession(st, k).sessions[k].jar + c1 + c2
  {
  }

  /** Giving user "a" a token adds no `Authorization` header to user "b". */
  lemma BearerStaysWithItsUser(st: Store, t: string)
    requires "b" in st.sessions && AuthorizationHeader !in st.sessions["b"].headers
    ensures AuthorizationHeader !in WithBearer(st, "a", t).sessions["b"].headers
  {
    assert EntryOf(WithBearer(st, "a", t), "b") == EntryOf(st, "b");
  }

  /** The store object: three dicts that the methods reassign. */
  class SessionStore {
    var sessions: map<string, Session>
    var tokens: map<string, string>
    var cookies: map<string, Cookies>

    function State(): Store
      reads this
    {
      Store(sessions, tokens, cookies)
    }

    constructor ()
      ensures State() == EmptyStore
    {
      sessions, tokens, cookies := map[], map[], map[];
    }

    method Get(k: string) returns (s: Session)
      modifies this
      ensures State() == WithSession(old(State()), k)
      ensures s == sessions[k]
    {
      if k !in sessions {
        sessions := sessions[k := Session(DefaultHeaders, map[])];
      }
      s := sessions[k];
    }

    method SetBearer(k: string, token: string)
      modifies this
      ensures State() == WithBearer(old(State()), k, token)
    {
      tokens := tokens[k := token];
      var s := Get(k);
      sessions := sessions[k := s.(headers := s.headers[AuthorizationHeader := BearerValue(token)])];
    }

    method ClearBearer(k: string)
      modifies this
      ensures State() == WithoutBearer(old(State()), k)
    {
      tokens := tokens - {k};
      var s := Get(k);
      if AuthorizationHeader in s.headers {
        sessions := sessions[k := s.(headers := s.headers - {AuthorizationHeader})];
      } else {
        assert s.headers - {AuthorizationHeader} == s.headers;
        assert sessions[k := s.(headers := s.headers - {AuthorizationHeader})] == sessions;
      }
    }

    method SetCookies(k: string, c: Cookies)
      modifies this
      ensures State() == WithCookies(old(State()), k, c)
    {
      cookies := cookies[k := c];
      var s := Get(k);
      sessions := sessions[k := s.(jar := s.jar + c)];
    }

    method ClearCookies(k: string)
      modifies this
      ensures State() == WithoutCookies(old(State()), k)
    {
      cookies := cookies - {k};
      var s := Get(k);
      sessions := sessions[k := s.(jar := map[])];
    }
  }
}
