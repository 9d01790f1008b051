/**
 * The store facade (src/api/storeService.ts): list, create, update and delete of
 * stores. Create and update send the caller's multipart form as given.
 */
module StoreService {
  import opened Wrappers
  import opened Types
  import opened Http

  datatype StoreOp =
    | GetStores
    | CreateStore(form: FormData)
    | UpdateStore(id: int, form: FormData)
    | DeleteStore(id: int)

  function StoresPath(): Path { [Lit("stores")] }
  function StorePath(id: int): Path { [Lit("stores"), Id(id)] }

  function Route(op: StoreOp): (r: Request)
    ensures r.verb == Get <==> op.GetStores?
    ensures r.verb == Delete <==> op.DeleteStore?
    ensures op.CreateStore? || op.UpdateStore? ==> r.body == Multipart(op.form)
    ensures op.GetStores? || op.DeleteStore? ==> r.body == NoBody
  {
    match op
    case GetStores => Request(Get, StoresPath(), NoBody)
    case CreateStore(form) => Request(Post, StoresPath(), Multipart(form))
    case UpdateStore(id, form) => Request(Put, StorePath(id), Multipart(form))
    case DeleteStore(id) => Request(Delete, StorePath(id), NoBody)
  }

  /** A failure propagates unchanged; a list, create or update returns the body as received; a delete returns nothing. */
  function Call<D>(op: StoreOp, send: Request -> Reply<D>): (r: Reply<Option<D>>)
    ensures r.Rejected? <==> send(Route(op)).Rejected?
    ensures r.Rejected? ==> r.message == send(Route(op)).message
    ensures r.Resolved? ==> (r.data.None? <==> op.DeleteStore?)
    ensures r.Resolved? && r.data.Some? ==> r.data.value == send(Route(op)).data
  {
    match send(Route(op))
    case Rejected(message) => Rejected(message)
    case Resolved(data) => if op.DeleteStore? then Resolved(None) else Resolved(Some(data))
  }

  /** The four requests, written out: the collection `/stores` for list and create, the item `/stores/{id}` for update and delete. */
  lemma StoreRoutes(id: int, form: FormData)
    ensures Route(GetStores) == Request(Get, [Lit("stores")], NoBody)
    ensures Route(CreateStore(form)) == Request(Post, [Lit("stores")], Multipart(form))
    ensures Route(UpdateStore(id, form)) == Request(Put, [Lit("stores"), Id(id)], Multipart(form))
    ensures Route(DeleteStore(id)) == Request(Delete, [Lit("stores"), Id(id)], NoBody)
    ensures Route(UpdateStore(id, form)).path == Route(DeleteStore(id)).path
  {
  }
}
