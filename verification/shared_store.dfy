/** The registry as client.go stores it: one `sync.Map` holding both the
    descriptors, under their route keys, and the route list, under the
    reserved key "___all_client_add___". A route whose own key is the
    reserved one overwrites the route list with its descriptor and then
    has its descriptor overwritten by the route list, so looking it up
    reaches the `.(*_Client)` type assertion with a route list and panics.
    Away from the reserved key this store behaves exactly like the
    `Registry` module, which keeps the two apart. */
module SharedStore {
  import opened Base
  import opened Text
  import opened Route
  import opened Collaborators
  import opened Descriptor
  import opened Registry

  const RouteListKey := "___all_client_add___"

  /** What a `sync.Map` value can be: a `*_Client` or the route list. */
  datatype Slot = ClientSlot(desc: Descriptor) | RouteListSlot(routes: map<string, RouteEntry>)

  type Store = map<string, Slot>

  /** `RegisterClient` as written: store the descriptor under the route key,
      then load the route list (starting afresh when the reserved slot holds
      anything else), add the route, and store the list back. */
  function RegisterShared(lib: LineSchemaLib, store: Store, decl: Instance): (r: Result<Store>)
    ensures r.Ok? <==> Compile(lib, decl.inputSchema, decl.outputSchema).Ok?
    ensures r.Err? ==> r.error == Compile(lib, decl.inputSchema, decl.outputSchema).error
    ensures r.Ok? ==> RouteListKey in r.value && r.value[RouteListKey].RouteListSlot?
    ensures r.Ok? ==> KeyOf(decl) in r.value[RouteListKey].routes
    ensures r.Ok? ==> r.value[RouteListKey].routes[KeyOf(decl)] == RouteEntry(decl.httpMethod, decl.path)
    ensures r.Ok? ==> r.value.Keys == store.Keys + {KeyOf(decl), RouteListKey}
    ensures r.Ok? ==> forall k :: k in store && k != KeyOf(decl) && k != RouteListKey ==> r.value[k] == store[k]
    ensures r.Ok? && KeyOf(decl) != RouteListKey ==>
      r.value[KeyOf(decl)] == ClientSlot(Compile(lib, decl.inputSchema, decl.outputSchema).value)
    ensures r.Ok? && RouteListKey in store && store[RouteListKey].RouteListSlot? && KeyOf(decl) != RouteListKey ==>
      r.value[RouteListKey].routes
        == store[RouteListKey].routes[KeyOf(decl) := RouteEntry(decl.httpMethod, decl.path)]
    ensures r.Ok? && !(RouteListKey in store && store[RouteListKey].RouteListSlot?) ==>
      r.value[RouteListKey].routes == map[KeyOf(decl) := RouteEntry(decl.httpMethod, decl.path)]
    ensures r.Ok? && KeyOf(decl) == RouteListKey ==>
      r.value[RouteListKey] == RouteListSlot(map[RouteListKey := RouteEntry(decl.httpMethod, decl.path)])
  {
    var desc :- Compile(lib, decl.inputSchema, decl.outputSchema);
    var key := KeyOf(decl);
    var stored := store[key := ClientSlot(desc)];
    var routes :=
      if RouteListKey in stored && stored[RouteListKey].RouteListSlot? then stored[RouteListKey].routes
      else map[];
    Ok(stored[RouteListKey := RouteListSlot(routes[key := RouteEntry(decl.httpMethod, decl.path)])])
  }

  /** How `GetClient` ends on the shared store: a lookup result with the
      store after it, or a panic of the `.(*_Client)` type assertion. */
  datatype SharedLookup = Returned(result: Result<Client>, store: Store) | Panicked

  /** `GetClient` as written over the shared store. */
  function GetClientShared(lib: LineSchemaLib, store: Store, client: Instance, source: Instance): (r: SharedLookup)
    ensures r.Panicked? ==>
      || (KeyOf(client) in store && store[KeyOf(client)].RouteListSlot?)
      || (KeyOf(client) == RouteListKey && KeyOf(client) !in store)
    ensures r.Returned? && r.result.Ok? ==>
      KeyOf(client) in r.store && r.store[KeyOf(client)] == ClientSlot(r.result.value.desc) && r.result.value.instance == client
    ensures KeyOf(client) in store && store[KeyOf(client)].ClientSlot? ==>
      r == Returned(Ok(Client(client, store[KeyOf(client)].desc)), store)
    ensures KeyOf(client) in store && store[KeyOf(client)].RouteListSlot? ==> r.Panicked?
    ensures KeyOf(client) !in store && RegisterShared(lib, store, source).Err? ==>
      r == Returned(Err(RegisterShared(lib, store, source).error), store)
    ensures KeyOf(client) !in store && KeyOf(client) == RouteListKey && RegisterShared(lib, store, source).Ok? ==>
      r.Panicked?
    ensures KeyOf(client) !in store && KeyOf(client) != RouteListKey && RegisterShared(lib, store, source).Ok? ==>
      r == Returned(
        if KeyOf(client) == KeyOf(source)
        then Ok(Client(client, Compile(lib, source.inputSchema, source.outputSchema).value))
        else Err(NotFoundError(client.httpMethod, client.path)),
        RegisterShared(lib, store, source).value)
  {
    var key := KeyOf(client);
    if key in store then
      match store[key]
      case ClientSlot(desc) => Returned(Ok(Client(client, desc)), store)
      case RouteListSlot(_) => Panicked
    else
      match RegisterShared(lib, store, source)
      case Err(e) => Returned(Err(e), store)
      case Ok(registered) =>
        if key !in registered then Returned(Err(NotFoundError(client.httpMethod, client.path)), registered)
        else
          match registered[key]
          case ClientSlot(desc) => Returned(Ok(Client(client, desc)), registered)
          case RouteListSlot(_) => Panicked
  }

  /** The empty method with path "__all_client_add___" has the reserved key. */
  lemma ReservedKeyIsReachable()
    ensures RouteKey("", "__all_client_add___") == RouteListKey
  {
    assert Lower("") == "";
  }

  /** Registering a route whose key is the reserved one succeeds, but its
      descriptor is gone afterwards, the route list is reset to that single
      route, and looking the route up panics. */
  lemma ReservedRoutePanics(lib: LineSchemaLib, store: Store, decl: Instance, client: Instance, source: Instance)
    requires KeyOf(decl) == RouteListKey && KeyOf(client) == RouteListKey
    requires Compile(lib, decl.inputSchema, decl.outputSchema).Ok?
    ensures RegisterShared(lib, store, decl).Ok?
    ensures var s := RegisterShared(lib, store, decl).value;
      && s[RouteListKey] == RouteListSlot(map[RouteListKey := RouteEntry(decl.httpMethod, decl.path)])
      && GetClientShared(lib, s, client, source) == Panicked
  {
  }

  /** The concrete instance: the route ("", "__all_client_add___") registers
      without error and cannot be looked up. */
  lemma ReservedRouteCounterexample(lib: LineSchemaLib, decl: Instance, source: Instance)
    requires decl.httpMethod == "" && decl.path == "__all_client_add___"
    requires Compile(lib, decl.inputSchema, decl.outputSchema).Ok?
    ensures var s := RegisterShared(lib, map[], decl);
      s.Ok? && GetClientShared(lib, s.value, decl, source) == Panicked
  {
    ReservedKeyIsReachable();
    ReservedRoutePanics(lib, map[], decl, decl, source);
  }

  /** The shared store holds exactly what the separate-map registry holds,
      provided the registry never used the reserved key. */
  ghost predicate Abstracts(store: Store, reg: Registry) {
    && RouteListKey !in reg.clients
    && (forall k :: k in store && k != RouteListKey ==> k in reg.clients && store[k] == ClientSlot(reg.clients[k]))
    && (forall k :: k in reg.clients ==> k in store)
    && (RouteListKey in store ==> store[RouteListKey] == RouteListSlot(reg.routes))
    && (RouteListKey !in store ==> reg.routes == map[])
  }

  lemma EmptyAbstracts()
    ensures Abstracts(map[], EmptyRegistry)
  {
  }

  /** Away from the reserved key, a registration on the shared store does
      what the separate-map registration does. */
  lemma RegisterRefines(lib: LineSchemaLib, store: Store, reg: Registry, decl: Instance)
    requires Abstracts(store, reg) && KeyOf(decl) != RouteListKey
    ensures var shared := RegisterShared(lib, store, decl);
      var separate := RegisterClient(lib, reg, decl);
      && shared.Ok? == separate.Ok?
      && (shared.Err? ==> shared.error == separate.error)
      && (shared.Ok? ==> Abstracts(shared.value, separate.value))
  {
    var shared := RegisterShared(lib, store, decl);
    var separate := RegisterClient(lib, reg, decl);
    if shared.Ok? {
      var key := KeyOf(decl);
      var s := shared.value;
      var g := separate.value;
      forall k | k in s && k != RouteListKey
        ensures k in g.clients && s[k] == ClientSlot(g.clients[k])
      {
        if k != key {
          assert k in store;
        }
      }
      assert s[RouteListKey] == RouteListSlot(g.routes);
    }
  }

  /** Away from the reserved key, a lookup on the shared store returns what
      the separate-map lookup returns and never panics. */
  lemma GetClientRefines(lib: LineSchemaLib, store: Store, reg: Registry, client: Instance, source: Instance)
    requires Abstracts(store, reg) && KeyOf(client) != RouteListKey && KeyOf(source) != RouteListKey
    ensures var shared := GetClientShared(lib, store, client, source);
      var separate := GetClient(lib, reg, client, source);
      && shared.Returned?
      && shared.result == separate.result
      && Abstracts(shared.store, separate.registry)
  {
    var key := KeyOf(client);
    if key !in store {
      RegisterRefines(lib, store, reg, source);
    }
  }

  /** With the route list kept apart, the route that panics above is an
      ordinary route: once registered it is found with its descriptor. */
  lemma SeparateMapsFindReservedRoute(lib: LineSchemaLib, decl: Instance, source: Instance)
    requires KeyOf(decl) == RouteListKey
    requires Compile(lib, decl.inputSchema, decl.outputSchema).Ok?
    ensures var reg := RegisterClient(lib, EmptyRegistry, decl);
      && reg.Ok?
      && GetClient(lib, reg.value, decl, source).result
           == Ok(Client(decl, Compile(lib, decl.inputSchema, decl.outputSchema).value))
  {
    MethodCaseSharesEntry(lib, EmptyRegistry, decl, decl, source);
  }
}
