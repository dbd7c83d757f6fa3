/** `cache.CreateAPI` exactly as main.go:83-105 writes it.  Two of its paths
    panic instead of returning: the not-found branch formats `service.Name`
    with `service` nil (main.go:95-96), and the final write goes into the
    service's `APIs` map, which is nil when the service was created without an
    "apis" member (main.go:103).  A panic happens before any write, so the
    store is never changed by it.  `Registry.CreateAPIStep` is the corrected
    operation that the rest of the model uses. */
module RegistryAsWritten {
  import opened Registry

  datatype Panic = NilPointerDereference | AssignmentToNilMap

  datatype Outcome = Returned(step: Step) | Panicked(cause: Panic)

  function CreateAPIAsWritten(store: Store, api: Option<API>): (r: Outcome)
    ensures r.Returned? && r.step.status.Failure? ==> r.step.store == store
    ensures r == Panicked(NilPointerDereference) <==>
              APIWellFormed(api) && api.value.service !in store
    ensures r == Panicked(AssignmentToNilMap) <==>
              APIWellFormed(api) && api.value.service in store &&
              store[api.value.service].apis.NilTable?
  {
    if api.None? || api.value.name == "" then Returned(Step(Failure(EmptyAPI), store))
    else if api.value.service == "" then Returned(Step(Failure(EmptyServiceName), store))
    else if api.value.service !in store then Panicked(NilPointerDereference)
    else if api.value.name in store[api.value.service].apis.Entries() then
      Returned(Step(Failure(APIExists(api.value.service, api.value.name)), store))
    else if store[api.value.service].apis.NilTable? then Panicked(AssignmentToNilMap)
    else
      var service := store[api.value.service];
      Returned(Step(Success, store[api.value.service := service.(apis := Table(service.apis.entries[api.value.name := api.value]))]))
  }

  /** Wherever the code as written returns, it returns what the corrected
      operation returns: the two differ only on the two panicking paths. */
  lemma AsWrittenAgreesWhenReturning(store: Store, api: Option<API>)
    ensures CreateAPIAsWritten(store, api).Returned? ==>
              CreateAPIAsWritten(store, api).step == CreateAPIStep(store, api)
  {
  }

  /** An API for an unregistered service makes the code as written panic on a
      nil pointer, where the evident intent is a "service not exist" error. */
  lemma UnknownServicePanics(store: Store, api: API)
    requires api.name != "" && api.service != "" && api.service !in store
    ensures CreateAPIAsWritten(store, Some(api)) == Panicked(NilPointerDereference)
    ensures CreateAPIStep(store, Some(api)) == Step(Failure(ServiceMissing(api.service)), store)
  {
  }

  /** Adding an API to any registered service whose table is nil makes the
      code as written panic on the write into the nil map, where the corrected
      operation succeeds and creates the table. */
  lemma NilTableWritePanics(store: Store, api: API)
    requires api.name != "" && api.service != "" && api.service in store
    requires store[api.service].apis.NilTable?
    ensures CreateAPIAsWritten(store, Some(api)) == Panicked(AssignmentToNilMap)
    ensures CreateAPIStep(store, Some(api)).status == Success
  {
  }

  /** A service created without an "apis" member, then an API for it: the code
      as written panics on the write into the nil map, where the corrected
      operation stores the API. */
  lemma NilTablePanics()
    ensures var service := Service("userService", NilTable);
      var api := API("createUser", "userService", "http", "POST", "198.15.26.10:8080", "user/createUser");
      var created := CreateServiceStep(map[], Some(service));
      && created.status == Success
      && CreateAPIAsWritten(created.store, Some(api)) == Panicked(AssignmentToNilMap)
      && CreateAPIStep(created.store, Some(api)).status == Success
      && FindAPI(CreateAPIStep(created.store, Some(api)).store, "userService", "createUser") == Some(api)
  {
  }
}
