/**
  The four flower endpoints over the record store. Each takes the store
  and the id of the authenticated caller and returns the store after the
  request together with the response body or the HTTP error raised. All
  checks run before anything is written, so an error leaves the store as
  it was.
 */
module Flowers {
  import opened Wrappers
  import opened Models
  import opened Schemas

  /** An `HTTPException`: status code and detail text. */
  datatype HttpError = HttpError(status: int, detail: string)

  const NameRequired := HttpError(400, "Flower name is required")
  const FlowerNotFound := HttpError(404, "Flower not found")
  const UpdateForbidden := HttpError(403, "Not authorized to update this flower")
  const DeleteForbidden := HttpError(403, "Not authorized to delete this flower")

  /** The `message` of a successful delete. */
  const DeletedMessage := "Flower deleted successfully"

  /** A stored flower as the endpoints hand it back: key and row. */
  datatype Record = Record(id: int, row: FlowerRow)

  /** The store after a request, and what the request answered. */
  datatype Reply<T> = Reply(store: Store, body: Result<T, HttpError>)

  /** The ownership guard shared by update and delete. */
  predicate OwnedBy(row: FlowerRow, caller: int) {
    row.ownerId == caller
  }

  /** `row` holds exactly what `input` asked for in the six fields a client
      controls; an absent range leaves both temperature columns empty. */
  predicate Carries(row: FlowerRow, input: FlowerInput) {
    && row.name == input.name
    && row.wateringIntensity == input.wateringIntensity
    && row.lightLevel == input.lightLevel
    && row.comment == input.comment
    && match input.temperatureRange
       case None => row.temperatureMin.None? && row.temperatureMax.None?
       case Some(t) => row.temperatureMin == t.min && row.temperatureMax == t.max
  }

  /** No record present before and after has changed owner. */
  predicate OwnersKept(before: Store, after: Store) {
    forall id :: id in before && id in after ==> after[id].ownerId == before[id].ownerId
  }

  /** The row written for `input` on behalf of `owner`. */
  function RowFor(input: FlowerInput, owner: int): FlowerRow {
    var (tmin, tmax) := Flatten(input.temperatureRange);
    FlowerRow(input.name, input.wateringIntensity, input.lightLevel, tmin, tmax, input.comment, owner)
  }

  /** POST /flowers/: an empty name is refused; otherwise a new row owned
      by the caller is inserted under a fresh key. */
  function Create(store: Store, caller: int, input: FlowerCreate): (r: Reply<Record>)
    ensures input.name == [] ==> r == Reply(store, Failure(NameRequired))
    ensures input.name != [] ==> r.body.Success?
    ensures r.body.Success? ==>
      var rec := r.body.value;
      && rec.id !in store
      && r.store.Keys == store.Keys + {rec.id}
      && r.store[rec.id] == rec.row
      && (forall id :: id in store ==> r.store[id] == store[id])
      && rec.row.ownerId == caller
      && Carries(rec.row, input)
    ensures OwnersKept(store, r.store)
  {
    if input.name == [] then
      Reply(store, Failure(NameRequired))
    else
      var id := NextId(store);
      var row := RowFor(input, caller);
      Reply(store[id := row], Success(Record(id, row)))
  }

  /** PUT /flowers/{id}: the name is checked first, then that the flower
      exists, then that the caller owns it; a request passing all three
      overwrites every client field of the row. */
  function Update(store: Store, caller: int, id: int, input: FlowerUpdate): (r: Reply<Record>)
    ensures input.name == [] ==> r == Reply(store, Failure(NameRequired))
    ensures input.name != [] && id !in store ==> r == Reply(store, Failure(FlowerNotFound))
    ensures input.name != [] && id in store && store[id].ownerId != caller ==>
      r == Reply(store, Failure(UpdateForbidden))
    ensures r.body.Success? <==> input.name != [] && id in store && store[id].ownerId == caller
    ensures r.body.Success? ==>
      var rec := r.body.value;
      && rec.id == id
      && r.store.Keys == store.Keys
      && r.store[id] == rec.row
      && (forall k :: k in store && k != id ==> r.store[k] == store[k])
      && rec.row.ownerId == store[id].ownerId
      && Carries(rec.row, input)
    ensures OwnersKept(store, r.store)
  {
    if input.name == [] then
      Reply(store, Failure(NameRequired))
    else
      match Lookup(store, id)
      case None => Reply(store, Failure(FlowerNotFound))
      case Some(existing) =>
        if !OwnedBy(existing, caller) then
          Reply(store, Failure(UpdateForbidden))
        else
          var row := RowFor(input, existing.ownerId);
          Reply(store[id := row], Success(Record(id, row)))
  }

  /** DELETE /flowers/{id}: existence is checked before ownership; the
      owner's request removes the row. */
  function Delete(store: Store, caller: int, id: int): (r: Reply<string>)
    ensures id !in store ==> r == Reply(store, Failure(FlowerNotFound))
    ensures id in store && store[id].ownerId != caller ==> r == Reply(store, Failure(DeleteForbidden))
    ensures r.body.Success? <==> id in store && store[id].ownerId == caller
    ensures r.body.Success? ==>
      && r.body.value == DeletedMessage
      && r.store.Keys == store.Keys - {id}
      && (forall k :: k in r.store ==> r.store[k] == store[k])
    ensures OwnersKept(store, r.store)
  {
    match Lookup(store, id)
    case None => Reply(store, Failure(FlowerNotFound))
    case Some(existing) =>
      if !OwnedBy(existing, caller) then
        Reply(store, Failure(DeleteForbidden))
      else
        Reply(store - {id}, Success(DeletedMessage))
  }

  /** GET /flowers/: the caller's flowers, by key. */
  function List(store: Store, caller: int): (r: map<int, FlowerRow>)
    ensures forall id :: id in r <==> id in store && store[id].ownerId == caller
    ensures forall id :: id in r ==> r[id] == store[id]
  {
    map id | id in store && OwnedBy(store[id], caller) :: store[id]
  }

  /** Applying the same update twice leaves the same store and gives the
      same answer as applying it once. */
  lemma UpdateIdempotent(store: Store, caller: int, id: int, input: FlowerUpdate)
    ensures Update(Update(store, caller, id, input).store, caller, id, input)
         == Update(store, caller, id, input)
  {
  }

  /** What a successful create stores reads back as the range that was
      sent, unless the range sent had both bounds absent. */
  lemma CreateReadsBack(store: Store, caller: int, input: FlowerCreate)
    requires input.name != []
    ensures var rec := Create(store, caller, input).body.value;
      var v := FromOrm(rec.id, rec.row);
      && v.ownerId == caller
      && v.name == input.name
      && v.temperatureRange == (if input.temperatureRange == Some(EmptyRange) then None else input.temperatureRange)
  {
  }
}
