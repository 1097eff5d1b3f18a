/** The descriptor registry (client.go `RegisterClient`, `GetClient`).

    The process-wide `sync.Map` is an immutable value threaded through the
    calls. Descriptors and the route list live in two separate maps here;
    client.go keeps both in one map, which the SharedStore module models
    as written.
 */
module Registry {
  import opened Base
  import opened Text
  import opened Route
  import opened Collaborators
  import opened Descriptor

  /** A `[2]string{method, path}` entry of the route list. */
  datatype RouteEntry = RouteEntry(httpMethod: string, path: string)

  datatype Registry = Registry(clients: map<string, Descriptor>, routes: map<string, RouteEntry>)

  const EmptyRegistry := Registry(map[], map[])

  function KeyOf(inst: Instance): (key: string) {
    RouteKey(inst.httpMethod, inst.path)
  }

  /** Compiles the declaration's schemas and, on success, stores the
      descriptor and the route under the declaration's key. A failure
      returns the compiler's error and no registry: nothing is stored. */
  function RegisterClient(lib: LineSchemaLib, reg: Registry, decl: Instance): (r: Result<Registry>)
    ensures r.Ok? <==> Compile(lib, decl.inputSchema, decl.outputSchema).Ok?
    ensures r.Err? ==> r.error == Compile(lib, decl.inputSchema, decl.outputSchema).error
    ensures r.Ok? ==>
      && KeyOf(decl) in r.value.clients
      && r.value.clients[KeyOf(decl)] == Compile(lib, decl.inputSchema, decl.outputSchema).value
      && r.value.routes.Keys == reg.routes.Keys + {KeyOf(decl)}
      && r.value.routes[KeyOf(decl)] == RouteEntry(decl.httpMethod, decl.path)
    ensures r.Ok? ==> r.value.clients.Keys == reg.clients.Keys + {KeyOf(decl)}
    ensures r.Ok? ==> forall k :: k in reg.clients && k != KeyOf(decl) ==> r.value.clients[k] == reg.clients[k]
    ensures r.Ok? ==> forall k :: k in reg.routes && k != KeyOf(decl) ==> r.value.routes[k] == reg.routes[k]
  {
    var desc :- Compile(lib, decl.inputSchema, decl.outputSchema);
    var key := KeyOf(decl);
    Ok(Registry(reg.clients[key := desc], reg.routes[key := RouteEntry(decl.httpMethod, decl.path)]))
  }

  /** The result of a lookup and the registry after it. */
  datatype Lookup = Lookup(result: Result<Client>, registry: Registry)

  /** `errors.WithMessagef(API_NOT_FOUND, "method:%s,path:%s", method, path)`. */
  function NotFoundError(httpMethod: string, path: string): (e: Error) {
    WithMessage(ApiNotFound, "method:" + httpMethod + ",path:" + path)
  }

  /** Looks the caller's route up; on a miss, registers `source` (a new
      instance of the caller's type, the schema source of the route) and
      looks again. A hit binds the stored artifacts to the caller's instance. */
  function GetClient(lib: LineSchemaLib, reg: Registry, client: Instance, source: Instance): (r: Lookup)
    ensures r.result.Ok? ==>
      && r.result.value.instance == client
      && KeyOf(client) in r.registry.clients
      && r.result.value.desc == r.registry.clients[KeyOf(client)]
    ensures KeyOf(client) in reg.clients ==> r == Lookup(Ok(Client(client, reg.clients[KeyOf(client)])), reg)
    ensures r.registry == reg || (KeyOf(client) !in reg.clients && RegisterClient(lib, reg, source) == Ok(r.registry))
    ensures r.result.Err? ==>
      || (r.registry == reg && Compile(lib, source.inputSchema, source.outputSchema) == Err(r.result.error))
      || (KeyOf(client) !in r.registry.clients && r.result.error == NotFoundError(client.httpMethod, client.path))
    ensures KeyOf(client) !in reg.clients ==>
      r.registry == (if RegisterClient(lib, reg, source).Ok? then RegisterClient(lib, reg, source).value else reg)
    ensures KeyOf(client) !in reg.clients && RegisterClient(lib, reg, source).Err? ==>
      r.result == Err(RegisterClient(lib, reg, source).error)
    ensures KeyOf(client) !in reg.clients && RegisterClient(lib, reg, source).Ok? ==>
      r.result == (if KeyOf(client) == KeyOf(source)
                   then Ok(Client(client, Compile(lib, source.inputSchema, source.outputSchema).value))
                   else Err(NotFoundError(client.httpMethod, client.path)))
  {
    var key := KeyOf(client);
    if key in reg.clients then Lookup(Ok(Client(client, reg.clients[key])), reg)
    else
      match RegisterClient(lib, reg, source)
      case Err(e) => Lookup(Err(e), reg)
      case Ok(registered) =>
        if key in registered.clients then Lookup(Ok(Client(client, registered.clients[key])), registered)
        else Lookup(Err(NotFoundError(client.httpMethod, client.path)), registered)
  }

  /** A later successful registration on the same key supersedes an earlier
      one completely: last writer wins. */
  lemma LastWriterWins(lib: LineSchemaLib, reg: Registry, first: Instance, second: Instance)
    requires KeyOf(first) == KeyOf(second)
    requires RegisterClient(lib, reg, first).Ok?
    ensures RegisterClient(lib, RegisterClient(lib, reg, first).value, second) == RegisterClient(lib, reg, second)
  {
    var r1 := RegisterClient(lib, reg, first).value;
    if RegisterClient(lib, reg, second).Ok? {
      var r2 := RegisterClient(lib, r1, second).value;
      var direct := RegisterClient(lib, reg, second).value;
      assert r2.clients == direct.clients;
      assert r2.routes == direct.routes;
    }
  }

  /** Registering the same declaration twice is the same as registering it once. */
  lemma RegisterIdempotent(lib: LineSchemaLib, reg: Registry, decl: Instance)
    requires RegisterClient(lib, reg, decl).Ok?
    ensures RegisterClient(lib, RegisterClient(lib, reg, decl).value, decl) == RegisterClient(lib, reg, decl)
  {
    LastWriterWins(lib, reg, decl, decl);
  }

  /** When the source instance declares the caller's route, a lookup fails
      only because compilation failed, and then leaves the registry as it
      was: `API_NOT_FOUND` cannot be returned. */
  lemma LazyRegistrationFindsRoute(lib: LineSchemaLib, reg: Registry, client: Instance, source: Instance)
    requires KeyOf(source) == KeyOf(client)
    ensures var r := GetClient(lib, reg, client, source);
      && (r.result.Ok? <==> KeyOf(client) in reg.clients || Compile(lib, source.inputSchema, source.outputSchema).Ok?)
      && (r.result.Err? ==> r.registry == reg && Compile(lib, source.inputSchema, source.outputSchema) == Err(r.result.error))
  {
  }

  /** When the source instance declares a different route, the lazy
      registration stores that other route and the lookup reports
      `API_NOT_FOUND` for the caller's route. */
  lemma NotFoundWhenSourceRouteDiffers(lib: LineSchemaLib, reg: Registry, client: Instance, source: Instance)
    requires KeyOf(source) != KeyOf(client)
    requires KeyOf(client) !in reg.clients
    requires Compile(lib, source.inputSchema, source.outputSchema).Ok?
    ensures var r := GetClient(lib, reg, client, source);
      && r.result == Err(NotFoundError(client.httpMethod, client.path))
      && KeyOf(source) in r.registry.clients
  {
  }

  /** After one successful lookup, every later lookup of the same route,
      with any instance and any schema source, is a hit: it compiles
      nothing, leaves the registry alone and returns the same artifacts. */
  lemma SecondLookupHits(lib: LineSchemaLib, reg: Registry, first: Instance, firstSource: Instance, later: Instance, laterSource: Instance)
    requires KeyOf(later) == KeyOf(first)
    requires GetClient(lib, reg, first, firstSource).result.Ok?
    ensures var r1 := GetClient(lib, reg, first, firstSource);
      GetClient(lib, r1.registry, later, laterSource) == Lookup(Ok(Client(later, r1.result.value.desc)), r1.registry)
  {
  }

  /** A route registered as "GET" is found by a caller that spells it "get"
      or in any other case. */
  lemma MethodCaseSharesEntry(lib: LineSchemaLib, reg: Registry, decl: Instance, client: Instance, source: Instance)
    requires Lower(client.httpMethod) == Lower(decl.httpMethod) && client.path == decl.path
    requires RegisterClient(lib, reg, decl).Ok?
    ensures var registered := RegisterClient(lib, reg, decl).value;
      GetClient(lib, registered, client, source)
        == Lookup(Ok(Client(client, Compile(lib, decl.inputSchema, decl.outputSchema).value)), registered)
  {
    assert KeyOf(client) == KeyOf(decl);
  }
}
