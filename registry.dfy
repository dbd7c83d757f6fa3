/** The in-memory service discovery store (`cache` in main.go): service name to
    service, and inside each service, API name to API.  Every operation is
    modelled as one atomic step; the read/write lock that makes it so is not
    modelled.  The pure functions `CreateServiceStep` and `CreateAPIStep`
    specify the two writes; the class `Cache` holds the store in a mutable
    field and is proved against them. */
module Registry {

  datatype Option<T> = None | Some(value: T)

  /** One backend endpoint (main.go:24-31). */
  datatype API = API(
    name: string,        // API name, the key inside its service
    service: string,     // name of the owning service
    protocol: string,    // "http" or "https"; becomes the URL scheme
    httpMethod: string,  // the method the backend expects
    host: string,        // "ip:port" or a domain
    path: string)        // backend path without its leading "/"

  /** A Go `map[string]*API` field: it is nil when the service was decoded
      without an "apis" member.  Reading a nil map finds nothing; writing to one
      panics. */
  datatype APITable = NilTable | Table(entries: map<string, API>) {
    function Entries(): (m: map<string, API>) {
      if NilTable? then map[] else entries
    }
  }

  /** A named collection of APIs (main.go:18-21). */
  datatype Service = Service(name: string, apis: APITable)

  /** The errors the store returns, one per `fmt.Errorf` in main.go:55-105. */
  datatype Error =
    | EmptyService                          // "service can not be empty"
    | EmptyAPI                              // "api can not be empty"
    | EmptyServiceName                      // "service name can not be empty"
    | ServiceExists(name: string)           // "service: %v already exist"
    | ServiceMissing(name: string)          // "service: %v not exist"
    | APIExists(service: string, api: string) // "service: %v, api: %v already exist"

  datatype Result<T> = Ok(value: T) | Err(error: Error)

  /** The `error` result of a write: nil or an error. */
  datatype Status = Success | Failure(error: Error)

  type Store = map<string, Service>

  /** What a write returns together with the store it leaves behind. */
  datatype Step = Step(status: Status, store: Store)

  /** Exact-key lookup of a service. */
  function FindService(store: Store, name: string): (r: Result<Service>) {
    if name in store then Ok(store[name]) else Err(ServiceMissing(name))
  }

  /** Looking up API `apiName` in service `serviceName`, as the director does:
      the service first, then the API in its table. */
  function FindAPI(store: Store, serviceName: string, apiName: string): (r: Option<API>)
    ensures r.Some? <==> serviceName in store && apiName in store[serviceName].apis.Entries()
    ensures r.Some? ==> r.value == store[serviceName].apis.Entries()[apiName]
  {
    match FindService(store, serviceName)
    case Err(_) => None
    case Ok(service) =>
      if apiName in service.apis.Entries() then Some(service.apis.Entries()[apiName]) else None
  }

  /** `service` with `api` stored under `api.name` in its table. */
  function WithAPI(service: Service, api: API): (r: Service) {
    service.(apis := Table(service.apis.Entries()[api.name := api]))
  }

  /** `cache.CreateService`: validate, reject a duplicate name, then insert the
      service as given, its initial API table included. */
  function CreateServiceStep(store: Store, service: Option<Service>): (r: Step)
    ensures r.status.Failure? ==> r.store == store
    ensures service.None? || service.value.name == "" ==> r.status == Failure(EmptyService)
    ensures service.Some? && service.value.name != "" && service.value.name in store ==>
              r.status == Failure(ServiceExists(service.value.name))
    ensures r.status.Success? <==>
              service.Some? && service.value.name != "" && service.value.name !in store
    ensures r.status.Success? ==> r.store == store[service.value.name := service.value]
  {
    if service.None? || service.value.name == "" then Step(Failure(EmptyService), store)
    else if service.value.name in store then Step(Failure(ServiceExists(service.value.name)), store)
    else Step(Success, store[service.value.name := service.value])
  }

  /** The checks `cache.CreateAPI` makes before taking the lock: the API is
      present and both its name and its service name are non-empty. */
  predicate APIWellFormed(api: Option<API>) {
    api.Some? && api.value.name != "" && api.value.service != ""
  }

  /** `cache.CreateAPI` with its evident intent: validate, require the owning
      service, reject a duplicate API name, then add the API to that service's
      table (creating the table if it is nil). */
  function CreateAPIStep(store: Store, api: Option<API>): (r: Step)
    ensures r.status.Failure? ==> r.store == store
    ensures api.None? || api.value.name == "" ==> r.status == Failure(EmptyAPI)
    ensures api.Some? && api.value.name != "" && api.value.service == "" ==>
              r.status == Failure(EmptyServiceName)
    ensures APIWellFormed(api) && api.value.service !in store ==>
              r.status == Failure(ServiceMissing(api.value.service))
    ensures APIWellFormed(api) && api.value.service in store &&
            api.value.name in store[api.value.service].apis.Entries() ==>
              r.status == Failure(APIExists(api.value.service, api.value.name))
    ensures r.status.Success? <==>
              APIWellFormed(api) && api.value.service in store &&
              api.value.name !in store[api.value.service].apis.Entries()
    ensures r.status.Success? ==> r.store.Keys == store.Keys
  {
    if api.None? || api.value.name == "" then Step(Failure(EmptyAPI), store)
    else if api.value.service == "" then Step(Failure(EmptyServiceName), store)
    else if api.value.service !in store then
      Step(Failure(ServiceMissing(api.value.service)), store)
    else if api.value.name in store[api.value.service].apis.Entries() then
      Step(Failure(APIExists(api.value.service, api.value.name)), store)
    else
      Step(Success, store[api.value.service := WithAPI(store[api.value.service], api.value)])
  }

  /** Every service is stored under its own name. `CreateService` keys the store
      by `service.Name`, so this holds of every store the operations build. */
  ghost predicate KeyedByName(store: Store) {
    forall n :: n in store ==> store[n].name == n
  }

  /** The registry only grows: every service stays, under the same name, and
      every API it had stays, unchanged. */
  ghost predicate Extends(before: Store, after: Store) {
    forall n :: n in before ==>
      && n in after
      && after[n].name == before[n].name
      && forall a :: a in before[n].apis.Entries() ==>
           a in after[n].apis.Entries() && after[n].apis.Entries()[a] == before[n].apis.Entries()[a]
  }

  /** Every API is stored under its own name in the service it names.  The store
      does not check this of the initial table passed to `CreateService`. */
  ghost predicate Consistent(store: Store) {
    && KeyedByName(store)
    && forall n, a :: n in store && a in store[n].apis.Entries() ==>
         store[n].apis.Entries()[a].name == a && store[n].apis.Entries()[a].service == n
  }

  // ---------------------------------------------------------------------------
  // Properties of the two writes.

  /** A created service is found afterwards, exactly as passed in, and every
      other name looks up as before. */
  lemma GetAfterCreateService(store: Store, service: Service, other: string)
    requires CreateServiceStep(store, Some(service)).status.Success?
    ensures var after := CreateServiceStep(store, Some(service)).store;
      && FindService(after, service.name) == Ok(service)
      && (other != service.name ==> FindService(after, other) == FindService(store, other))
  {
  }

  /** Creating the same service twice: the second call is a conflict and the
      store keeps the first one. */
  lemma CreateServiceTwice(store: Store, first: Service, second: Service)
    requires first.name != "" && first.name !in store && second.name == first.name
    ensures var once := CreateServiceStep(store, Some(first));
      var twice := CreateServiceStep(once.store, Some(second));
      && once.status == Success
      && twice.status == Failure(ServiceExists(first.name))
      && twice.store == once.store
      && FindService(twice.store, first.name) == Ok(first)
      && |twice.store| == |store| + 1
  {
  }

  /** Two services with distinct, fresh names can both be created, and both are
      found afterwards. */
  lemma CreateTwoServices(store: Store, s1: Service, s2: Service)
    requires s1.name != "" && s2.name != "" && s1.name != s2.name
    requires s1.name !in store && s2.name !in store
    ensures var one := CreateServiceStep(store, Some(s1));
      var two := CreateServiceStep(one.store, Some(s2));
      && one.status == Success && two.status == Success
      && FindService(two.store, s1.name) == Ok(s1)
      && FindService(two.store, s2.name) == Ok(s2)
  {
  }

  /** Creating an API for a service that was never created fails with
      `ServiceMissing`, and the number of services is unchanged. */
  lemma CreateAPIUnknownService(store: Store, api: API)
    requires api.name != "" && api.service != "" && api.service !in store
    ensures var r := CreateAPIStep(store, Some(api));
      r.status == Failure(ServiceMissing(api.service)) && |r.store| == |store|
  {
  }

  /** A created API is found afterwards, as the identical record, in its
      service; the service keeps its name and every other API; every other
      service is unchanged. */
  lemma GetAfterCreateAPI(store: Store, api: API, otherService: string, otherAPI: string)
    requires CreateAPIStep(store, Some(api)).status.Success?
    ensures var after := CreateAPIStep(store, Some(api)).store;
      && FindAPI(after, api.service, api.name) == Some(api)
      && after[api.service].name == store[api.service].name
      && (otherAPI != api.name ==>
            FindAPI(after, api.service, otherAPI) == FindAPI(store, api.service, otherAPI))
      && (otherService != api.service ==>
            FindService(after, otherService) == FindService(store, otherService))
  {
  }

  /** Both writes only ever add: nothing is removed or replaced. */
  lemma WritesExtend(store: Store, service: Option<Service>, api: Option<API>)
    ensures Extends(store, CreateServiceStep(store, service).store)
    ensures Extends(store, CreateAPIStep(store, api).store)
  {
  }

  /** Both writes keep every service stored under its own name. */
  lemma WritesKeepKeyedByName(store: Store, service: Option<Service>, api: Option<API>)
    requires KeyedByName(store)
    ensures KeyedByName(CreateServiceStep(store, service).store)
    ensures KeyedByName(CreateAPIStep(store, api).store)
  {
  }

  /** `CreateAPI` keeps the store consistent; `CreateService` does so when the
      service's initial table is itself keyed by API name and names the
      service. */
  lemma WritesKeepConsistent(store: Store, service: Option<Service>, api: Option<API>)
    requires Consistent(store)
    requires service.Some? ==>
      forall a :: a in service.value.apis.Entries() ==>
        service.value.apis.Entries()[a].name == a &&
        service.value.apis.Entries()[a].service == service.value.name
    ensures Consistent(CreateServiceStep(store, service).store)
    ensures Consistent(CreateAPIStep(store, api).store)
  {
  }

  /** The service/API store (`cache`, main.go:44-47), created empty. */
  class Cache {
    var store: Store

    ghost predicate Valid()
      reads this
    {
      KeyedByName(store)
    }

    /** `NewCacheDiscovery`. */
    constructor()
      ensures Valid() && store == map[]
    {
      store := map[];
    }

    /** `GetService`: the stored service exactly when the name is a key, and a
        not-found error naming it otherwise. */
    function GetService(serviceName: string): (r: Result<Service>)
      reads this
      ensures r.Ok? <==> serviceName in store
      ensures r.Ok? ==> r.value == store[serviceName]
      ensures r.Err? ==> r.error == ServiceMissing(serviceName)
      ensures Valid() && r.Ok? ==> r.value.name == serviceName
    {
      FindService(store, serviceName)
    }

    /** `CreateService`: the returned error and the new store are those of
        `CreateServiceStep`. */
    method CreateService(service: Option<Service>) returns (status: Status)
      requires Valid()
      modifies this
      ensures Valid()
      ensures Step(status, store) == CreateServiceStep(old(store), service)
    {
      if service.None? || service.value.name == "" {
        return Failure(EmptyService);
      }
      if service.value.name in store {
        return Failure(ServiceExists(service.value.name));
      }
      store := store[service.value.name := service.value];
      status := Success;
    }

    /** `CreateAPI`: the returned error and the new store are those of
        `CreateAPIStep`. */
    method CreateAPI(api: Option<API>) returns (status: Status)
      requires Valid()
      modifies this
      ensures Valid()
      ensures Step(status, store) == CreateAPIStep(old(store), api)
    {
      if api.None? || api.value.name == "" {
        return Failure(EmptyAPI);
      }
      var serviceName := api.value.service;
      if serviceName == "" {
        return Failure(EmptyServiceName);
      }
      if serviceName !in store {
        return Failure(ServiceMissing(serviceName));
      }
      var service := store[serviceName];
      if api.value.name in service.apis.Entries() {
        return Failure(APIExists(serviceName, api.value.name));
      }
      store := store[serviceName := WithAPI(service, api.value)];
      status := Success;
    }
  }
}
