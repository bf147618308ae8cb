# Flower records: ownership-guarded CRUD and temperature-range reshaping

A Dafny model of the flower endpoints of the ZenGarden backend. The backend
keeps per-user flower-care records: name, watering intensity, light level,
an optional temperature range and a comment.

The model covers two things:

- **The four endpoints** (`app/api/v1/endpoints/flowers.py`): create,
  update, delete and list. Each is a pure function over a record store, a
  `map<int, FlowerRow>` from primary key to row. The caller is given as the
  integer id of the authenticated user. Each endpoint returns a `Reply`: the
  store after the request, plus either the response body or the
  `HTTPException` it raised (status code and detail text, the same status
  codes and detail strings as the endpoint code). Every check runs before anything is written. So "a failed
  request leaves the store unchanged" is part of each endpoint's contract.
- **The temperature-range reshaping** (`app/schemas/flower.py`). The API
  speaks an optional `{min, max}` range whose bounds are each optional. The
  table stores two nullable scalars. `Flatten` is the expression the
  endpoints use when they write a row. `Unflatten` is the range rebuilt in
  `Flower.from_orm`. `FromOrm` builds the whole response shape from a row.

Modules follow the program's structure:

| file | module | models |
|---|---|---|
| `wrappers.dfy` | `Wrappers` | `Option` (nullable) and `Result` (value or raised error) |
| `models.dfy` | `Models` | the `flowers` row, the store, lookup by key, key assignment on insert |
| `schemas.dfy` | `Schemas` | `TemperatureRange`, `FlowerInput` (`FlowerBase`; `FlowerCreate` and `FlowerUpdate` are aliases of it), `FlowerView` (`Flower`), `Flatten`, `Unflatten`, `FromOrm` |
| `flowers.dfy` | `Flowers` | the four endpoints, their error constants, the ownership guard |
| `flower_api.dfy` | `FlowerApi` | sequences of requests from many callers, and the isolation between users |

`FlowerCreate` and `FlowerUpdate` are type aliases of one `FlowerInput`
datatype, so create and update bodies have the same shape by construction.
`name` is a required `string`. The other four fields are `Option`s;
`NamedOnly(name)` is the body with all four left at their default, `None`.

`Flatten` carries no contract of its own. Its meaning is stated by its
partner `Unflatten`, whose contract says `Flatten(Unflatten(a, b)) == (a, b)`
for every pair, and by the lemmas `UnflattenFlatten` and `EmptyRangeIsLost`.
Together these give both round trips.

Two facts about the code shape the model:

- `name` is a required pydantic field (app/schemas/flower.py:9). A request
  without a name is refused with 422 before the handler runs. The 400
  branch at app/api/v1/endpoints/flowers.py:17 and :44 is therefore taken
  exactly for the empty string. The model has `name: string`, and the 400
  error is exactly `name == []`.
- The database chooses the key of a new row. The model uses one past the
  greatest key in use, or 1 for an empty table (SQLite's rule for an
  `INTEGER PRIMARY KEY` column). The endpoint contracts rely only on the new
  key being fresh.

## Model

| member | source | states |
|---|---|---|
| `Models.NextId` | app/api/v1/endpoints/flowers.py:32-34 | The key an insert receives is not already in use. It is greater than every key in use, and it is 1 for an empty table. |
| `Schemas.Unflatten` | app/schemas/flower.py:28-34 | The rebuilt range is absent exactly when both stored scalars are absent. It is never a range with both bounds absent. Flattening it gives back exactly the two scalars, so `flatten(unflatten(a, b)) = (a, b)` for every pair. |
| `Schemas.UnflattenFlatten` | app/schemas/flower.py:28-34 | For every optional range other than `{min: None, max: None}`, storing it and rebuilding it returns it unchanged. This covers the absent range and min-only, max-only and two-sided ranges. |
| `Schemas.EmptyRangeIsLost` | app/schemas/flower.py:4-6 | The range with both bounds at their default does not survive storage: it is stored like no range at all and comes back as no range. |
| `Schemas.FromOrm` | app/schemas/flower.py:25-43 | The response copies id, owner_id, name, watering_intensity, light_level and comment unchanged. Its range flattens back to the two stored temperature columns and is never a range of two absent bounds. |
| `Schemas.FromOrmInjective` | app/schemas/flower.py:35-43 | Two rows with identical responses are the same row under the same key: the response shape loses nothing. |
| `Flowers.Create` | app/api/v1/endpoints/flowers.py:11-35 | An empty name gives 400 "Flower name is required" and leaves the store unchanged. Any other name succeeds: exactly one row is added, under a key not used before, and every existing row is untouched. The new row is owned by the caller and carries the input's name, watering, light and comment. Its temperature columns are the range's bounds, or both empty when no range was sent. |
| `Flowers.Update` | app/api/v1/endpoints/flowers.py:37-73 | The checks run in this order: an empty name gives 400 even for a missing id; then a missing id gives 404; then another user's flower gives 403, never 404. Each error leaves the store unchanged. Success happens exactly when all three checks pass. On success all six client fields are overwritten from the input, with an absent range emptying both temperature columns. The key and owner are unchanged, and so is every other row. |
| `Flowers.Delete` | app/api/v1/endpoints/flowers.py:75-96 | A missing id gives 404 whoever the caller is. Another user's flower gives 403. Both leave the store unchanged. Success happens exactly when the caller owns the flower. It removes exactly that key, leaves every other row unchanged and returns "Flower deleted successfully". |
| `Flowers.List` | app/api/v1/endpoints/flowers.py:98-104 | The listing holds a flower exactly when it is stored and owned by the caller, with its stored contents. Another user's flower never appears. |
| `Flowers.UpdateIdempotent` | app/api/v1/endpoints/flowers.py:63-71 | Sending the same update twice gives the same store and the same response as sending it once. This holds for every request, whether it fails or succeeds. |
| `Flowers.CreateReadsBack` | app/api/v1/endpoints/flowers.py:23-35 | A successful create reads back as owned by the caller, with the name sent and the range sent. The one exception is a range with both bounds absent, which reads back as no range. |
| `FlowerApi.ServeLeavesOthersAlone` | app/api/v1/endpoints/flowers.py:23-96 | A single create, update, delete or list by another caller leaves a user's listing exactly as it was. No flower of theirs is changed or removed, and none is handed to them. |
| `FlowerApi.RunLeavesOthersAlone` | app/api/v1/endpoints/flowers.py:11-104 | Any sequence of requests from other callers, in any order, leaves a user's listing exactly as it was. |
| `FlowerApi.ServeKeepsOwners` | app/api/v1/endpoints/flowers.py:64-69 | No request changes the owner of a flower that is present both before and after it. |
| `FlowerApi.RoseScenario` | app/api/v1/endpoints/flowers.py:11-104 | End to end on an empty store. A create of "Rose" with range 15..25 gets key 1, is owned by the caller, reads back with that range and is listed only for its owner. Replacing it with a body without a range reads back with no range. Another user's delete is refused with 403. The owner's delete succeeds, and the listing is then empty. |

## Left out

- Authentication (`get_current_user`, password hashing, token issue and verification), registration and login: the caller is given as an owner id, and that code is not part of this model.
- Persistence mechanics: sessions, `commit`/`refresh`, transactions, table creation and the seed script. A request is modelled as one atomic step from store to store.
- Concurrency between requests: requests are served one after another.
- Floating-point temperatures: modelled as `int`, because the logic only tests presence and equality.
- The order of the listed flowers: `Flowers.List` returns a map keyed by id, because the query does not ask for an order.
- Request-body validation by the web framework (a missing or non-string `name` is answered with 422 before the handler runs): it happens outside the endpoint code.
- The `hasattr` test in `from_orm`: a stored row always has both temperature attributes, so only the branch where they exist is modelled.
- Whether the framework's response serialisation actually calls the custom `from_orm`: `FromOrm` models the function as written and nothing is claimed about the serialisation path.
- Models.NextId: keys are unbounded integers, but `flowers.id` is a signed 64-bit SQLite integer. The model does not bound the key it assigns, so it can yield 2^63 after a row with key 2^63-1, a key SQLite never assigns.
- Path ids outside the signed 64-bit range: the database driver would raise an error during the lookup (a 500 response), whereas `Flowers.Update` and `Flowers.Delete` answer 404 for them. That out-of-range path is not modelled.
- Routing, path prefixes, CORS and settings: app wiring with no logic.
