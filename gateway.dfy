/** The proxy side of the gateway: `APIGateway.director` (main.go:155-188), the
    callback the reverse proxy runs on every inbound request before forwarding
    it.  It reads the path `/{service}/{api}`, looks the API up in the store and
    points the request at that API's backend; on any failure it leaves the
    request as it was. */
module Gateway {
  import opened Registry
  import opened Paths

  const SEPARATOR: char := '/'

  /** The backend API a request path resolves to, if any: the path is split on
      "/" into exactly three pieces, and pieces 1 and 2 name the service and the
      API.  Nothing requires piece 0 to be empty or pieces 1 and 2 to be
      non-empty. */
  function Route(store: Store, path: string): (r: Option<API>)
    ensures r.Some? ==> path != "" && Count(path, SEPARATOR) == 2
    ensures r.Some? ==> exists n :: n in store && r.value in store[n].apis.Entries().Values
  {
    if path == "" then None
    else
      var segments := Split(path, SEPARATOR);
      if |segments| != 3 then None
      else FindAPI(store, segments[1], segments[2])
  }

  /** The path the director writes for a resolved API. */
  function BackendPath(api: API): (path: string) {
    "/" + api.path
  }

  /** The parts of an `*http.Request` the director reads or writes.  The URL's
      query stands for every field the director leaves alone. */
  class Request {
    var httpMethod: string
    var scheme: string
    var host: string
    var path: string
    var rawQuery: string

    constructor(httpMethod: string, scheme: string, host: string, path: string, rawQuery: string)
      ensures this.httpMethod == httpMethod && this.scheme == scheme && this.host == host
      ensures this.path == path && this.rawQuery == rawQuery
    {
      this.httpMethod, this.scheme, this.host := httpMethod, scheme, host;
      this.path, this.rawQuery := path, rawQuery;
    }
  }

  /** `APIGateway` (main.go:108-111) with its discovery store. */
  class APIGateway {
    const discovery: Cache

    /** `NewAPIGateWay`: a gateway over a fresh, empty store. */
    constructor()
      ensures fresh(discovery) && discovery.Valid() && discovery.store == map[]
    {
      discovery := new Cache();
    }

    /** `director`.  When `Route` finds an API, the scheme, host and path are
        overwritten with the API's protocol, host and "/" + path, whether or not
        the request's method is the one the API declares (a mismatch is only
        reported, here as `methodMismatch`); otherwise the request is left
        unchanged.  The method and every other field are never touched, and the
        store is only read. */
    method Director(req: Request) returns (methodMismatch: bool)
      modifies req
      ensures req.httpMethod == old(req.httpMethod) && req.rawQuery == old(req.rawQuery)
      ensures Route(discovery.store, old(req.path)).None? ==>
                req.scheme == old(req.scheme) && req.host == old(req.host) && req.path == old(req.path)
      ensures Route(discovery.store, old(req.path)).Some? ==>
                var api := Route(discovery.store, old(req.path)).value;
                req.scheme == api.protocol && req.host == api.host && req.path == BackendPath(api)
      ensures methodMismatch <==>
                Route(discovery.store, old(req.path)).Some? &&
                old(req.httpMethod) != Route(discovery.store, old(req.path)).value.httpMethod
    {
      methodMismatch := false;
      var reqPath := req.path;
      if reqPath == "" {
        return;
      }
      var pathArray := Split(reqPath, SEPARATOR);
      if |pathArray| != 3 {
        return;
      }
      var serviceName := pathArray[1];
      var apiName := pathArray[2];
      var service := discovery.GetService(serviceName);
      if service.Err? {
        return;
      }
      var apis := service.value.apis.Entries();
      if apiName !in apis {
        return;
      }
      var api := apis[apiName];
      methodMismatch := req.httpMethod != api.httpMethod;
      req.scheme := api.protocol;
      req.host := api.host;
      req.path := BackendPath(api);
    }
  }

  // ---------------------------------------------------------------------------
  // Properties of routing.

  /** A path of three "/"-free parts routes by its second and third parts,
      whatever the first: "/s/a" to API `a` of service `s`, and also "x/s/a". */
  lemma RouteOfParts(store: Store, prefix: string, serviceName: string, apiName: string)
    requires SEPARATOR !in prefix && SEPARATOR !in serviceName && SEPARATOR !in apiName
    ensures Route(store, prefix + [SEPARATOR] + serviceName + [SEPARATOR] + apiName)
              == FindAPI(store, serviceName, apiName)
  {
    SplitThree(prefix, serviceName, apiName, SEPARATOR);
  }

  /** In particular "/s/a" routes to API `a` of service `s`. */
  lemma RouteCanonical(store: Store, serviceName: string, apiName: string)
    requires SEPARATOR !in serviceName && SEPARATOR !in apiName
    ensures Route(store, "/" + serviceName + "/" + apiName) == FindAPI(store, serviceName, apiName)
  {
    RouteOfParts(store, "", serviceName, apiName);
    assert "" + [SEPARATOR] + serviceName + [SEPARATOR] + apiName == "/" + serviceName + "/" + apiName;
  }

  /** Conversely, a path that routes is made of three "/"-free parts, and it
      routes by the second and third of them. */
  lemma RouteShape(store: Store, path: string)
    requires Route(store, path).Some?
    ensures var parts := Split(path, SEPARATOR);
      && |parts| == 3
      && path == parts[0] + [SEPARATOR] + parts[1] + [SEPARATOR] + parts[2]
      && SEPARATOR !in parts[1] && SEPARATOR !in parts[2]
      && Route(store, path) == FindAPI(store, parts[1], parts[2])
  {
    ThreePieces(path, SEPARATOR);
  }

  /** After an API with "/"-free service and API names is created,
      "/{service}/{api}" routes to exactly that API. */
  lemma RouteAfterCreateAPI(store: Store, api: API)
    requires CreateAPIStep(store, Some(api)).status.Success?
    requires SEPARATOR !in api.service && SEPARATOR !in api.name
    ensures Route(CreateAPIStep(store, Some(api)).store, "/" + api.service + "/" + api.name) == Some(api)
  {
    GetAfterCreateAPI(store, api, "", "");
    RouteCanonical(CreateAPIStep(store, Some(api)).store, api.service, api.name);
  }

  /** `CreateAPI` does not check the names for "/": an API whose service or API
      name contains one is stored and found in the store, but its path
      "/{service}/{api}" holds more than two "/", so no request reaches it. */
  lemma StoredButUnreachable(store: Store, api: API)
    requires CreateAPIStep(store, Some(api)).status.Success?
    requires SEPARATOR in api.service || SEPARATOR in api.name
    ensures var after := CreateAPIStep(store, Some(api)).store;
      && FindAPI(after, api.service, api.name) == Some(api)
      && Route(after, "/" + api.service + "/" + api.name) == None
  {
    GetAfterCreateAPI(store, api, "", "");
    CountAppend("/", api.service, SEPARATOR);
    CountAppend("/" + api.service, "/", SEPARATOR);
    CountAppend("/" + api.service + "/", api.name, SEPARATOR);
    CountZero(api.service, SEPARATOR);
    CountZero(api.name, SEPARATOR);
  }

  /** "/userService/createUser" routes by service "userService" and API
      "createUser". */
  lemma UserServicePath(store: Store)
    ensures Route(store, "/userService/createUser") == FindAPI(store, "userService", "createUser")
  {
    UserServiceNames();
    RouteCanonical(store, "userService", "createUser");
  }

  /** The names in that path contain no "/", and joining them rebuilds it. */
  lemma UserServiceNames()
    ensures SEPARATOR !in "userService" && SEPARATOR !in "createUser"
    ensures "/" + "userService" + "/" + "createUser" == "/userService/createUser"
  {
  }

  /** The store holding only service `userService` with its one API `api`. */
  function UserServiceStore(api: API): (store: Store) {
    map["userService" := Service("userService", Table(map["createUser" := api]))]
  }

  /** Registering `userService` and then `api` builds `UserServiceStore(api)`. */
  lemma UserServiceRegistered(api: API)
    requires api.name == "createUser" && api.service == "userService"
    ensures var withService := CreateServiceStep(map[], Some(Service("userService", Table(map[]))));
      var withAPI := CreateAPIStep(withService.store, Some(api));
      withAPI == Step(Success, UserServiceStore(api))
  {
  }

  /** In that store, "/userService/createUser" routes to `api`. */
  lemma UserServiceStoreRoutes(api: API)
    ensures Route(UserServiceStore(api), "/userService/createUser") == Some(api)
  {
    UserServicePath(UserServiceStore(api));
  }

  /** Register service `userService`, then an API `createUser` of it (for
      instance protocol http, host 198.15.26.10:8080, path "user/createUser"):
      "/userService/createUser" then routes to that very record, so `Director`
      sends the request to its protocol, host and path. */
  lemma UserServiceExample(api: API)
    requires api.name == "createUser" && api.service == "userService"
    ensures var withService := CreateServiceStep(map[], Some(Service("userService", Table(map[]))));
      var withAPI := CreateAPIStep(withService.store, Some(api));
      && withService.status == Success && withAPI.status == Success
      && Route(withAPI.store, "/userService/createUser") == Some(api)
  {
    UserServiceRegistered(api);
    UserServiceStoreRoutes(api);
  }

  /** "/unknown/foo" does not route when no service "unknown" is registered. */
  lemma UnknownServiceExample(store: Store)
    requires "unknown" !in store
    ensures Route(store, "/unknown/foo") == None
  {
    UnknownServiceNames();
    RouteCanonical(store, "unknown", "foo");
  }

  /** The names in that path contain no "/", and joining them rebuilds it. */
  lemma UnknownServiceNames()
    ensures SEPARATOR !in "unknown" && SEPARATOR !in "foo"
    ensures "/" + "unknown" + "/" + "foo" == "/unknown/foo"
  {
  }

  /** "/a/b/c" splits into four pieces and never routes. */
  lemma FourPiecesExample(store: Store)
    ensures |Split("/a/b/c", SEPARATOR)| == 4
    ensures Route(store, "/a/b/c") == None
  {
  }

  /** A path with no "/" at all never routes. */
  lemma RouteNeedsSeparators(store: Store, path: string)
    requires SEPARATOR !in path
    ensures Route(store, path) == None
  {
    CountZero(path, SEPARATOR);
  }

  /** The gateway end to end, on the objects: a fresh gateway, `service`
      registered, then `api` registered under it, then a request for
      "/{service}/{api}" sent through `Director` is pointed at `api`'s backend,
      whatever its method. */
  method RegisterAndDirect(service: Service, api: API, httpMethod: string)
    returns (scheme: string, host: string, path: string)
    requires service.name != "" && api.name != "" && api.service == service.name
    requires api.name !in service.apis.Entries()
    requires SEPARATOR !in api.service && SEPARATOR !in api.name
    ensures scheme == api.protocol && host == api.host && path == BackendPath(api)
  {
    var gateway := new APIGateway();
    var created := gateway.discovery.CreateService(Some(service));
    var before := gateway.discovery.store;
    var added := gateway.discovery.CreateAPI(Some(api));
    RouteAfterCreateAPI(before, api);
    var req := new Request(httpMethod, "", "", "/" + api.service + "/" + api.name, "");
    var mismatch := gateway.Director(req);
    scheme, host, path := req.scheme, req.host, req.path;
  }
}
