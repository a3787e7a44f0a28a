/**
 * The client object, `LegitSocialAPI`: the base URL without trailing
 * slashes, a session store, a default user, and the two registry dicts that
 * `register_endpoint` fills. `_request` and the namespace proxies are its
 * methods; `build_client` fills it from the static table.
 */
module Client {
  import opened Wrappers
  import opened Text
  import opened Sessions
  import opened Registry
  import opened Engine
  import Table

  class LegitSocialApi {
    const baseUrl: string
    const store: SessionStore
    const defaultUser: string
    var endpoints: map<string, Endpoint>
    var namespaces: map<string, map<string, Endpoint>>

    function Reg(): RegistryState
      reads this
    {
      RegistryState(endpoints, namespaces)
    }

    ghost predicate Valid()
      reads this
    {
      Registry.Valid(Reg())
    }

    /** `LegitSocialAPI(base_url, session_store, default_user)`; no store given means a new, empty one. */
    constructor (baseUrl: string, sessionStore: SessionStore?, defaultUser: string)
      ensures this.baseUrl == RStrip(baseUrl, '/')
      ensures sessionStore != null ==> store == sessionStore
      ensures sessionStore == null ==> fresh(store) && store.State() == EmptyStore
      ensures this.defaultUser == defaultUser
      ensures Reg() == EmptyRegistry && Valid()
    {
      this.baseUrl := RStrip(baseUrl, '/');
      if sessionStore != null {
        this.store := sessionStore;
      } else {
        this.store := new SessionStore();
      }
      this.defaultUser := defaultUser;
      endpoints := map[];
      namespaces := map[];
    }

    /** `register_endpoint(ep)`: the global table and the namespace's table, created on first use. */
    method RegisterEndpoint(ep: Endpoint)
      requires Valid()
      modifies this
      ensures Valid()
      ensures Reg() == Register(old(Reg()), ep)
    {
      RegisterValid(Reg(), ep);
      endpoints := endpoints[ep.operationId := ep];
      var ops := map[];
      if ep.ns in namespaces {
        ops := namespaces[ep.ns];
      }
      namespaces := namespaces[ep.ns := ops[ep.name := ep]];
    }

    /** The `register_endpoint` calls of `build_client`, one per descriptor, in order. */
    method RegisterEach(eps: seq<Endpoint>)
      requires Valid()
      modifies this
      ensures Valid()
      ensures Reg() == RegisterAll(old(Reg()), eps)
    {
      ghost var start := Reg();
      var i := 0;
      while i < |eps|
        invariant 0 <= i <= |eps|
        invariant Valid() && Reg() == RegisterAll(start, eps[..i])
      {
        assert eps[..i + 1][..i] == eps[..i];
        RegisterEndpoint(eps[i]);
        i := i + 1;
      }
      assert eps[..i] == eps;
    }

    /** `_request(op_id, ...)`: only the session store changes, and only as `Dispatch` says. */
    method Request(opId: string, call: Call, transport: seq<Response>) returns (x: Exchange)
      modifies store
      ensures (x, store.State()) == Dispatch(endpoints, baseUrl, defaultUser, old(store.State()), opId, call, transport)
    {
      if opId !in endpoints {
        return Exchange(Err(UnknownOperation(opId)), None, 0, []);
      }
      var ep := endpoints[opId];
      var user := ResolveUser(call.userKey, defaultUser);
      var sess := store.Get(user);
      var path := SubstitutePath(ep.path, ep.pathParams, call.pathParams);
      if path.Err? {
        return Exchange(Err(MissingPathParam(path.error, opId)), None, 0, []);
      }
      var url := baseUrl + path.value;
      var headers := sess.headers;
      if call.headers != map[] {
        headers := headers + call.headers;
      }
      assert headers == MergeHeaders(sess.headers, call.headers);
      var params := FilterQuery(call.query);
      var payload := SelectBody(ep.hasBody, call.body);
      var req := HttpRequest(ep.verb, url, params, payload, headers, sess.jar, call.allowRedirects, call.timeout);
      var t := SendWithRetry(transport);
      x := Exchange(Conclude(t), Some(req), t.calls, t.sleeps);
    }

    /** `client.<ns>.<name>(...)`: the namespace proxy's dispatch. */
    method Invoke(ns: string, name: string, call: Call, transport: seq<Response>) returns (x: Exchange)
      modifies store
      ensures (x, store.State()) == Proxy(Reg(), baseUrl, defaultUser, old(store.State()), ns, name, call, transport)
    {
      if ns !in namespaces {
        return Exchange(Err(UnknownNamespace(ns)), None, 0, []);
      }
      var ops := namespaces[ns];
      if name !in ops {
        return Exchange(Err(UnknownName(ns, name)), None, 0, []);
      }
      var ep := ops[name];
      x := Request(ep.operationId, call, transport);
    }
  }

  /** `build_client(base_url)`: a new client with every descriptor of the table registered in order. */
  method BuildClient(baseUrl: string) returns (c: LegitSocialApi)
    ensures fresh(c) && fresh(c.store) && c.Valid()
    ensures c.baseUrl == RStrip(baseUrl, '/') && c.defaultUser == "default"
    ensures c.store.State() == EmptyStore
    ensures c.Reg() == RegisterAll(EmptyRegistry, Table.Table())
  {
    c := new LegitSocialApi(baseUrl, null, "default");
    c.RegisterEach(Table.Table());
  }
}
