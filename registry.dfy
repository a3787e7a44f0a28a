/**
 * The endpoint registry of `LegitSocialAPI` and the per-namespace tables of
 * `APINamespace`: operation id -> descriptor, and namespace name -> local
 * name -> descriptor. Registration overwrites: the last one wins.
 */
module Registry {
  import opened Wrappers

  /** One operation descriptor (the `Endpoint` dataclass); `verb` is its HTTP `method`. */
  datatype Endpoint = Endpoint(
    operationId: string,
    verb: string,
    path: string,
    summary: string,
    pathParams: seq<string>,
    queryParams: seq<string>,
    hasBody: bool,
    secure: bool,
    ns: string,
    name: string)

  /** `_endpoints` and, per namespace, that namespace's `_ops`. */
  datatype RegistryState = RegistryState(endpoints: map<string, Endpoint>, namespaces: map<string, map<string, Endpoint>>)

  const EmptyRegistry := RegistryState(map[], map[])

  /**
   * Every registered descriptor's namespace exists, and every entry of a
   * namespace table sits under its own namespace and local name and was
   * registered under its operation id.
   */
  ghost predicate Valid(r: RegistryState) {
    && (forall id :: id in r.endpoints ==> r.endpoints[id].ns in r.namespaces)
    && (forall n, l :: n in r.namespaces && l in r.namespaces[n] ==>
          r.namespaces[n][l].ns == n && r.namespaces[n][l].name == l && r.namespaces[n][l].operationId in r.endpoints)
  }

  /** `register_endpoint(ep)` followed by the namespace's `_register(ep)`. */
  function Register(r: RegistryState, ep: Endpoint): (r': RegistryState)
    ensures r'.endpoints.Keys == r.endpoints.Keys + {ep.operationId}
    ensures r'.endpoints[ep.operationId] == ep
    ensures forall id :: id in r.endpoints && id != ep.operationId ==> r'.endpoints[id] == r.endpoints[id]
    ensures r'.namespaces.Keys == r.namespaces.Keys + {ep.ns}
    ensures r'.namespaces[ep.ns].Keys == (if ep.ns in r.namespaces then r.namespaces[ep.ns].Keys else {}) + {ep.name}
    ensures r'.namespaces[ep.ns][ep.name] == ep
    ensures forall l :: ep.ns in r.namespaces && l in r.namespaces[ep.ns] && l != ep.name ==>
      r'.namespaces[ep.ns][l] == r.namespaces[ep.ns][l]
    ensures forall n :: n in r.namespaces && n != ep.ns ==> r'.namespaces[n] == r.namespaces[n]
  {
    var table := if ep.ns in r.namespaces then r.namespaces[ep.ns] else map[];
    RegistryState(r.endpoints[ep.operationId := ep], r.namespaces[ep.ns := table[ep.name := ep]])
  }

  /** Registering a sequence of descriptors in order. */
  function RegisterAll(r: RegistryState, eps: seq<Endpoint>): (res: RegistryState)
    ensures r.endpoints.Keys <= res.endpoints.Keys && r.namespaces.Keys <= res.namespaces.Keys
    ensures eps != [] ==> var last := eps[|eps| - 1];
      && last.operationId in res.endpoints && res.endpoints[last.operationId] == last
      && last.ns in res.namespaces && last.name in res.namespaces[last.ns] && res.namespaces[last.ns][last.name] == last
    decreases |eps|
  {
    if eps == [] then r else Register(RegisterAll(r, eps[..|eps| - 1]), eps[|eps| - 1])
  }

  /** `self._endpoints[op_id]`, or nothing when the id is unknown. */
  function Resolve(endpoints: map<string, Endpoint>, opId: string): (res: Option<Endpoint>)
    ensures res.Some? <==> opId in endpoints
  {
    if opId in endpoints then Some(endpoints[opId]) else None
  }

  /** In a valid registry, an operation id resolves to a descriptor whose namespace exists. */
  lemma ResolvedNamespaceExists(r: RegistryState, opId: string)
    requires Valid(r)
    ensures Resolve(r.endpoints, opId).Some? ==> Resolve(r.endpoints, opId).value.ns in r.namespaces
  {
  }

  datatype LookupError = NoNamespace(ns: string) | NoOperation(ns: string, name: string)

  /** `client.<ns>.<name>`: the namespace first, then the local name. */
  function Lookup(r: RegistryState, ns: string, name: string): (res: Result<Endpoint, LookupError>)
    ensures res.Ok? <==> ns in r.namespaces && name in r.namespaces[ns]
    ensures res.Err? && ns !in r.namespaces ==> res.error == NoNamespace(ns)
    ensures res.Err? && ns in r.namespaces ==> res.error == NoOperation(ns, name)
    ensures res.Ok? && Valid(r) ==> res.value.ns == ns && res.value.name == name && res.value.operationId in r.endpoints
  {
    if ns !in r.namespaces then Err(NoNamespace(ns))
    else if name !in r.namespaces[ns] then Err(NoOperation(ns, name))
    else Ok(r.namespaces[ns][name])
  }

  /** One registration keeps the registry valid, whatever is registered. */
  lemma RegisterValid(r: RegistryState, ep: Endpoint)
    requires Valid(r)
    ensures Valid(Register(r, ep))
  {
    var r' := Register(r, ep);
    forall id | id in r'.endpoints
      ensures r'.endpoints[id].ns in r'.namespaces
    {
      if id != ep.operationId {
        assert r'.endpoints[id] == r.endpoints[id];
      }
    }
    forall n, l | n in r'.namespaces && l in r'.namespaces[n]
      ensures r'.namespaces[n][l].ns == n && r'.namespaces[n][l].name == l
      ensures r'.namespaces[n][l].operationId in r'.endpoints
    {
      if n != ep.ns {
        assert r'.namespaces[n] == r.namespaces[n];
      } else if l != ep.name {
        assert r'.namespaces[n][l] == r.namespaces[n][l];
      }
    }
  }

  /** Registration keeps the registry valid, whatever is registered. */
  lemma {:induction false} RegisterAllValid(r: RegistryState, eps: seq<Endpoint>)
    requires Valid(r)
    ensures Valid(RegisterAll(r, eps))
    decreases |eps|
  {
    if eps != [] {
      RegisterAllValid(r, eps[..|eps| - 1]);
      RegisterValid(RegisterAll(r, eps[..|eps| - 1]), eps[|eps| - 1]);
    }
  }

  /** The operation ids carried by `eps`. */
  ghost function Ids(eps: seq<Endpoint>): set<string> {
    set i | 0 <= i < |eps| :: eps[i].operationId
  }

  /** The local names that `eps` places in namespace `ns`. */
  ghost function NamesIn(eps: seq<Endpoint>, ns: string): set<string> {
    set i | 0 <= i < |eps| && eps[i].ns == ns :: eps[i].name
  }

  /** The namespaces `eps` mentions. */
  ghost function Namespaces(eps: seq<Endpoint>): set<string> {
    set i | 0 <= i < |eps| :: eps[i].ns
  }

  /** Splitting off the last descriptor splits off its id, namespace and local name. */
  lemma IdsOfSnoc(eps: seq<Endpoint>)
    requires eps != []
    ensures Ids(eps) == Ids(eps[..|eps| - 1]) + {eps[|eps| - 1].operationId}
  {
    var init := eps[..|eps| - 1];
    forall x ensures x in Ids(eps) <==> x in Ids(init) + {eps[|eps| - 1].operationId} {
      if x in Ids(eps) {
        var i :| 0 <= i < |eps| && eps[i].operationId == x;
        if i < |init| { assert init[i] == eps[i]; }
      }
      if x in Ids(init) {
        var i :| 0 <= i < |init| && init[i].operationId == x;
        assert eps[i] == init[i];
      }
    }
  }

  lemma NamespacesOfSnoc(eps: seq<Endpoint>)
    requires eps != []
    ensures Namespaces(eps) == Namespaces(eps[..|eps| - 1]) + {eps[|eps| - 1].ns}
  {
    var init := eps[..|eps| - 1];
    forall x ensures x in Namespaces(eps) <==> x in Namespaces(init) + {eps[|eps| - 1].ns} {
      if x in Namespaces(eps) {
        var i :| 0 <= i < |eps| && eps[i].ns == x;
        if i < |init| { assert init[i] == eps[i]; }
      }
      if x in Namespaces(init) {
        var i :| 0 <= i < |init| && init[i].ns == x;
        assert eps[i] == init[i];
      }
    }
  }

  lemma NamesInOfSnoc(eps: seq<Endpoint>, ns: string)
    requires eps != []
    ensures var last := eps[|eps| - 1];
      NamesIn(eps, ns) == NamesIn(eps[..|eps| - 1], ns) + (if ns == last.ns then {last.name} else {})
  {
    var init, last := eps[..|eps| - 1], eps[|eps| - 1];
    forall x ensures x in NamesIn(eps, ns) <==> x in NamesIn(init, ns) + (if ns == last.ns then {last.name} else {}) {
      if x in NamesIn(eps, ns) {
        var i :| 0 <= i < |eps| && eps[i].ns == ns && eps[i].name == x;
        if i < |init| { assert init[i] == eps[i]; }
      }
      if x in NamesIn(init, ns) {
        var i :| 0 <= i < |init| && init[i].ns == ns && init[i].name == x;
        assert eps[i] == init[i];
      }
    }
  }

  /** After registering `eps` on an empty registry, exactly the ids of `eps` resolve. */
  lemma {:induction false} RegisteredIds(eps: seq<Endpoint>)
    ensures RegisterAll(EmptyRegistry, eps).endpoints.Keys == Ids(eps)
    decreases |eps|
  {
    if eps != [] {
      RegisteredIds(eps[..|eps| - 1]);
      IdsOfSnoc(eps);
    }
  }

  /** After registering `eps` on an empty registry, exactly the namespaces of `eps` exist. */
  lemma {:induction false} RegisteredNamespaces(eps: seq<Endpoint>)
    ensures RegisterAll(EmptyRegistry, eps).namespaces.Keys == Namespaces(eps)
    decreases |eps|
  {
    if eps != [] {
      RegisteredNamespaces(eps[..|eps| - 1]);
      NamespacesOfSnoc(eps);
    }
  }

  /**
   * After registering `eps` on an empty registry, a namespace holds exactly
   * the local names `eps` gave it, and a namespace that does not exist was
   * given none.
   */
  lemma {:induction false} RegisteredNames(eps: seq<Endpoint>, ns: string)
    ensures ns in RegisterAll(EmptyRegistry, eps).namespaces ==>
      RegisterAll(EmptyRegistry, eps).namespaces[ns].Keys == NamesIn(eps, ns)
    ensures ns !in RegisterAll(EmptyRegistry, eps).namespaces ==> NamesIn(eps, ns) == {}
    decreases |eps|
  {
    if eps != [] {
      RegisteredNames(eps[..|eps| - 1], ns);
      NamesInOfSnoc(eps, ns);
    }
  }

  /** An operation id resolves to the last descriptor that carried it. */
  lemma {:induction false} ResolveFindsLast(eps: seq<Endpoint>, k: nat)
    requires k < |eps|
    requires forall j :: k < j < |eps| ==> eps[j].operationId != eps[k].operationId
    ensures Resolve(RegisterAll(EmptyRegistry, eps).endpoints, eps[k].operationId) == Some(eps[k])
    decreases |eps|
  {
    if k < |eps| - 1 {
      var init := eps[..|eps| - 1];
      ResolveFindsLast(init, k);
    }
  }

  /** `client.<ns>.<name>` finds the last descriptor registered under that namespace and name. */
  lemma {:induction false} LookupFindsLast(eps: seq<Endpoint>, k: nat)
    requires k < |eps|
    requires forall j :: k < j < |eps| ==> eps[j].ns != eps[k].ns || eps[j].name != eps[k].name
    ensures Lookup(RegisterAll(EmptyRegistry, eps), eps[k].ns, eps[k].name) == Ok(eps[k])
    decreases |eps|
  {
    if k < |eps| - 1 {
      var init := eps[..|eps| - 1];
      LookupFindsLast(init, k);
    }
  }

  /** Every descriptor's namespace exists once the descriptors are registered. */
  lemma {:induction false} NamespacesExist(eps: seq<Endpoint>)
    ensures forall i :: 0 <= i < |eps| ==> eps[i].ns in RegisterAll(EmptyRegistry, eps).namespaces
    decreases |eps|
  {
    if eps != [] {
      var init := eps[..|eps| - 1];
      NamespacesExist(init);
      forall i | 0 <= i < |init| ensures init[i] == eps[i] { }
    }
  }
}
