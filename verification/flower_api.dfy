/**
  Sequences of requests against the flower endpoints, from any mix of
  callers, and what they can and cannot do to one another's flowers.
 */
module FlowerApi {
  import opened Wrappers
  import opened Models
  import opened Schemas
  import opened Flowers

  /** One authenticated request to the flower router. */
  datatype Request =
    | CreateFlower(caller: int, input: FlowerCreate)
    | UpdateFlower(caller: int, id: int, input: FlowerUpdate)
    | DeleteFlower(caller: int, id: int)
    | ListFlowers(caller: int)

  /** The store after one request. */
  function Serve(store: Store, req: Request): Store {
    match req
    case CreateFlower(caller, input) => Create(store, caller, input).store
    case UpdateFlower(caller, id, input) => Update(store, caller, id, input).store
    case DeleteFlower(caller, id) => Delete(store, caller, id).store
    case ListFlowers(_) => store
  }

  /** The store after serving the requests in order. */
  function Run(store: Store, reqs: seq<Request>): Store
    decreases |reqs|
  {
    if reqs == [] then store else Run(Serve(store, reqs[0]), reqs[1..])
  }

  /** A request from someone else changes nothing among `user`'s flowers:
      it cannot modify or remove them and cannot hand a flower to `user`. */
  lemma ServeLeavesOthersAlone(store: Store, req: Request, user: int)
    requires req.caller != user
    ensures List(Serve(store, req), user) == List(store, user)
  {
  }

  /** However many requests other users make, in whatever order, `user`
      lists exactly the flowers they had before. */
  lemma {:induction false} RunLeavesOthersAlone(store: Store, reqs: seq<Request>, user: int)
    requires forall i :: 0 <= i < |reqs| ==> reqs[i].caller != user
    ensures List(Run(store, reqs), user) == List(store, user)
    decreases |reqs|
  {
    if reqs != [] {
      ServeLeavesOthersAlone(store, reqs[0], user);
      RunLeavesOthersAlone(Serve(store, reqs[0]), reqs[1..], user);
    }
  }

  /** Every request keeps the owner of every flower it does not remove. */
  lemma ServeKeepsOwners(store: Store, req: Request)
    ensures OwnersKept(store, Serve(store, req))
  {
  }

  /** A user registers a rose with a range, lists it, replaces it with a
      body that has no range, sees another user's delete refused, deletes
      it, and lists nothing. */
  lemma RoseScenario()
    ensures
      var alice, bob := 1, 2;
      var rose := FlowerInput("Rose", None, None, Some(TemperatureRange(Some(15), Some(25))), None);
      var created := Create(map[], alice, rose);
      && created.body.Success?
      && created.body.value.id == 1
      && FromOrm(1, created.body.value.row).ownerId == alice
      && FromOrm(1, created.body.value.row).temperatureRange == rose.temperatureRange
      && List(created.store, alice).Keys == {1}
      && List(created.store, bob) == map[]
      && var updated := Update(created.store, alice, 1, NamedOnly("Rose2"));
      && updated.body.Success?
      && FromOrm(1, updated.body.value.row).temperatureRange == None
      && Delete(updated.store, bob, 1) == Reply(updated.store, Failure(DeleteForbidden))
      && var deleted := Delete(updated.store, alice, 1);
      && deleted.body == Success(DeletedMessage)
      && List(deleted.store, alice) == map[]
  {
  }
}
