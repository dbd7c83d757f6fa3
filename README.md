# go-gateway routing core in Dafny

A model of the routing core of go-gateway, a minimal API gateway written in Go
(`main.go`). The gateway keeps an in-memory registry of named backend services.
Each service holds named APIs (protocol, HTTP method, host, path). A request
whose path is `/{service}/{api}` is rewritten to point at that API's backend,
and a reverse proxy then forwards it.

- `paths.dfy`, module `Paths`: Go's `strings.Split` on a one-character
  separator, its inverse `Join`, and round-trip lemmas. `k` separators give
  `k + 1` pieces, and empty pieces are kept.
- `registry.dfy`, module `Registry`: the `cache` store. `Service`, `API` and the
  errors are datatypes. A Go pointer that may be nil is an `Option`. An `APIs`
  map that may be nil is an `APITable`. `CreateServiceStep` and `CreateAPIStep`
  are pure specifications of the two writes; each returns the error result and
  the resulting store. The class `Cache` holds the store in a mutable `map` field.
  Its methods are proved equal to those specifications.
- `registry_as_written.dfy`, module `RegistryAsWritten`: `cache.CreateAPI`
  exactly as the code is written, with its two panicking paths (see Findings).
- `gateway.dfy`, module `Gateway`: `Route` is the pure resolution of a path
  against a store. `APIGateway.Director` is the imperative director. It
  overwrites the scheme, host and path of a `Request` object in place, and it
  leaves the request alone on every failure.

The model follows the code in two places where a reader might expect
otherwise. First, the director does not require the two path segments to be
non-empty or piece 0 to be empty: `"/s/"` looks up API `""`, and `"x/s/a"`
routes like `"/s/a"`. Second, `CreateAPI` does not check the names for "/", so
an API named `"a/b"` is stored although no request path can reach it.

The code panics in two places: `CreateAPI` for an unknown service (main.go:96)
and `CreateAPI` into a service whose `APIs` map is nil (main.go:103).
`RegistryAsWritten` models both panics. `Registry.CreateAPIStep`, which `Cache`
and `Gateway` use, does what is evidently intended instead: it returns the
not-found error in the first case and creates the table in the second (see
Findings).

## Model

| member | source | states |
|---|---|---|
| `Paths.Split` | main.go:161 | `strings.Split` on "/" gives one more piece than there are separators, and no piece contains the separator |
| `Paths.CountZero` | main.go:161-164 | a path holds no separator exactly when its separator count is zero |
| `Paths.JoinSplit` | main.go:161 | joining the pieces of a split with the separator gives back the original path: splitting loses nothing |
| `Paths.SplitJoin` | main.go:161 | splitting the join of separator-free pieces gives back exactly those pieces |
| `Paths.ThreePieces` | main.go:161-164 | a path that splits into exactly three pieces is piece 0, "/", piece 1, "/", piece 2 |
| `Paths.SplitThree` | main.go:161-166 | three separator-free parts joined by "/" split into exactly those three parts |
| `Registry.FindAPI` | main.go:170-180 | an API is found exactly when its service is registered and the API name is a key of that service's table, and what is found is that table's entry for the name |
| `Registry.CreateServiceStep` | main.go:66-80 | a nil service or an empty name gives "service can not be empty"; a taken name gives "already exist"; every error leaves the store unchanged; success happens exactly when the name is non-empty and new, and then stores the service under its name |
| `Registry.CreateAPIStep` | main.go:83-105 | a nil API or empty name, an empty service name, an unregistered service, or a taken API name each gives its own error and leaves the store unchanged; success happens exactly otherwise, and keeps the set of services |
| `Registry.GetAfterCreateService` | main.go:73-79 | after a successful create, looking the name up returns the service exactly as passed in, and every other name looks up as before |
| `Registry.CreateServiceTwice` | main.go:73-76 | creating the same name twice: the second call is a conflict, the store is left as after the first, and it holds one more service than before |
| `Registry.CreateTwoServices` | main.go:73-79 | two fresh, distinct names can both be created, and both are found afterwards |
| `Registry.CreateAPIUnknownService` | main.go:94-97 | creating an API under an unregistered service fails with not-found, and the number of services is unchanged |
| `Registry.GetAfterCreateAPI` | main.go:98-104 | after a successful create, the API is found as the identical record in its service; the service keeps its name and every other API; every other service is unchanged |
| `Registry.WritesExtend` | main.go:66-105 | neither write removes or replaces anything: every service stays under its name with every API it had |
| `Registry.WritesKeepKeyedByName` | main.go:73-78 | both writes keep every service stored under its own name |
| `Registry.WritesKeepConsistent` | main.go:78-103 | `CreateAPI` keeps every API stored under its own name in the service it names; `CreateService` keeps this only when the caller's initial table satisfies it, since the code does not check it |
| `Registry.Cache.constructor` | main.go:50-52 | a new store is empty |
| `Registry.Cache.GetService` | main.go:55-63 | returns the stored service exactly when the name is a key, and otherwise a "not exist" error naming it; in a valid store the service returned carries the name asked for |
| `Registry.Cache.CreateService` | main.go:66-80 | the returned error and the new store are those of `CreateServiceStep` on the old store; stores stay keyed by name |
| `Registry.Cache.CreateAPI` | main.go:83-105 | the returned error and the new store are those of `CreateAPIStep` on the old store; stores stay keyed by name |
| `RegistryAsWritten.CreateAPIAsWritten` | main.go:83-105 | the code as written: every error it returns leaves the store unchanged; a well-formed API panics on a nil pointer exactly when its service is unregistered, and on a nil-map write exactly when its service is registered with a nil table |
| `RegistryAsWritten.AsWrittenAgreesWhenReturning` | main.go:83-105 | whenever the code as written returns rather than panics, it returns what the corrected `CreateAPIStep` returns |
| `RegistryAsWritten.UnknownServicePanics` | main.go:94-97 | for an unregistered service the code as written panics on a nil pointer, where the corrected operation returns "service: x not exist" with the store unchanged |
| `RegistryAsWritten.NilTableWritePanics` | main.go:98-103 | for every registered service with a nil table, adding an API makes the code as written panic on the nil-map write, while the corrected operation succeeds |
| `RegistryAsWritten.NilTablePanics` | main.go:98-103 | a service created without "apis", then an API for it: the code as written panics writing into the nil map, while the corrected operation stores the API so that it is found |
| `Gateway.Route` | main.go:157-180 | a path resolves only if it is non-empty and holds exactly two "/", and it resolves only to an API that is registered under some service |
| `Gateway.RouteOfParts` | main.go:161-180 | a path of three "/"-free parts resolves to the API named by the third part in the service named by the second, whatever the first part ("/s/a" and "x/s/a" alike) |
| `Gateway.RouteCanonical` | main.go:161-180 | "/s/a" with "/"-free `s` and `a` resolves to API `a` of service `s` |
| `Gateway.RouteShape` | main.go:161-180 | a path that resolves is three "/"-free parts joined by "/", and it resolves by its second and third parts |
| `Gateway.RouteAfterCreateAPI` | main.go:102-104 | after an API whose service and API names contain no "/" is created, "/{service}/{api}" resolves to exactly that record |
| `Gateway.StoredButUnreachable` | main.go:83-105 | an API whose service or API name contains "/" is accepted and stored, so it is found in its service, yet "/{service}/{api}" never resolves to it |
| `Gateway.UserServiceExample` | main.go:170-187 | registering service userService and then its API createUser makes "/userService/createUser" resolve to that record |
| `Gateway.UnknownServiceExample` | main.go:170-174 | "/unknown/foo" does not resolve when service "unknown" is not registered |
| `Gateway.FourPiecesExample` | main.go:161-164 | "/a/b/c" splits into four pieces and never resolves |
| `Gateway.RouteNeedsSeparators` | main.go:161-164 | a path containing no "/" never resolves |
| `Gateway.APIGateway.constructor` | main.go:114-117 | a new gateway owns a fresh, empty store |
| `Gateway.APIGateway.Director` | main.go:155-188 | on a resolved path the scheme, host and path become the API's protocol, host and "/" + path, even when the method differs (the mismatch is reported); on an empty path, a wrong piece count, an unknown service or an unknown API the request is unchanged; the method and the query are never touched, and only the request is modified |
| `Gateway.RegisterAndDirect` | main.go:155-188 | on a fresh gateway, registering a service and then an API of it makes a request for "/{service}/{api}" go to that API's protocol, host and "/" + path |

## Findings

| source | as written | input that shows it | evidently intended | confidence | as-written member | corrected member |
|---|---|---|---|---|---|---|
| main.go:95-96 | the not-found error formats `service.Name`, but `service` is the nil pointer the failed lookup returned, so the call panics | `CreateAPI(&API{Name: "a", Service: "x"})` on an empty store | return the error "service: x not exist" and leave the store unchanged | high; not executed | `RegistryAsWritten.UnknownServicePanics` | `Registry.CreateAPIStep` |
| main.go:103 | `service.APIs[api.Name] = api` writes into a nil map when the service was created from JSON without an "apis" member, so the call panics | `CreateService(&Service{Name: "userService"})`, then `CreateAPI(&API{Name: "createUser", Service: "userService"})` | add the API to the service, creating its table | medium; not executed | `RegistryAsWritten.NilTableWritePanics` | `Registry.CreateAPIStep` |

`Registry.GetAfterCreateAPI` proves that the corrected operation stores the
API and that a later lookup finds it. `Registry.Cache.CreateAPI` and everything
in `Gateway` use the corrected operation.

## Left out

- The `sync.RWMutex` (main.go:46, 56-57, 71-72, 92-93). Each operation is one atomic step, so concurrent interleavings are not modelled. In particular the director reads `service.APIs` (main.go:176) after `GetService` has released its read lock, so that read races with the write at main.go:103; `Gateway.APIGateway.Director` treats the two lookups as one atomic read.
- Pointer aliasing. The store keeps the caller's `*Service` and `*API` pointers, so a caller could later change a record it has registered. The model stores values. `CreateAPI` changing the shared `APIs` map through the pointer is modelled as replacing that service's entry.
- The HTTP admin handlers `APIGateway.CreateService` and `APIGateway.CreateAPI` (main.go:220-261), which read the body, decode JSON and write the response. They always pass a non-nil pointer, and the model covers nil as well.
- `ServeHTTP` and `httputil.ReverseProxy` forwarding (main.go:191-196). This is the library's transport, which runs after the director.
- `RunServer`, `RunProxy`, `main` and signal handling (main.go:199-275). These are listeners, goroutines and process lifetime.
- The `log.Printf` calls. The director's method-mismatch warning (main.go:181-183) is kept as the `methodMismatch` result, and the other log calls have no behaviour to model.
- The closure assigned to `directorFunc` (main.go:119-151). It is never installed (`ServeHTTP` uses the method), and it repeats `director` without the method check.
- Paths.Split: covers only a one-character separator, which is all the director uses. Go splits bytes, and "/" never occurs inside a multi-byte UTF-8 sequence, so splitting characters gives the same pieces.
- Gateway.APIGateway.Director: a table entry cannot be nil in the model. In Go a table is `map[string]*API`, and `CreateService` stores the caller's table unchecked (main.go:78), so a body such as `{"name":"s","apis":{"a":null}}` registers a nil entry; a request for "/s/a" then finds it and panics reading `api.HTTPMethod` (main.go:181). The model does not capture that panic.
- Gateway.APIGateway.Director: `Request` has only the method, scheme, host, path and query. Headers, body and the rest of the URL are not modelled. The director never writes them.
