/**
  Request and response shapes of the flower endpoints, and the reshaping
  between the nested temperature range the API speaks and the two
  nullable scalars the table stores.
 */
module Schemas {
  import opened Wrappers
  import opened Models

  /** A temperature range. Each bound is optional on its own and defaults
      to absent, so min-only and max-only ranges are legal. */
  datatype TemperatureRange = TemperatureRange(min: Option<Temperature>, max: Option<Temperature>)

  /** `TemperatureRange()` with both bounds left at their default. */
  const EmptyRange := TemperatureRange(None, None)

  /** The body of a create or an update request (`FlowerBase`). `name` is
      required; the other four fields default to absent. */
  datatype FlowerInput = FlowerInput(
    name: string,
    wateringIntensity: Option<string>,
    lightLevel: Option<string>,
    temperatureRange: Option<TemperatureRange>,
    comment: Option<string>
  )

  /** Create and update bodies have exactly the same shape. */
  type FlowerCreate = FlowerInput
  type FlowerUpdate = FlowerInput

  /** A request body that gives only the required name. */
  function NamedOnly(name: string): FlowerInput {
    FlowerInput(name, None, None, None, None)
  }

  /** The response shape of one flower (the `Flower` schema). */
  datatype FlowerView = FlowerView(
    id: int,
    ownerId: int,
    name: string,
    wateringIntensity: Option<string>,
    lightLevel: Option<string>,
    temperatureRange: Option<TemperatureRange>,
    comment: Option<string>
  )

  /** Splits an optional range into the two stored scalars: an absent
      range stores nothing in either column. */
  function Flatten(t: Option<TemperatureRange>): (Option<Temperature>, Option<Temperature>) {
    match t
    case None => (None, None)
    case Some(range) => (range.min, range.max)
  }

  /** Rebuilds the optional range from the two stored scalars: absent when
      both are absent, otherwise a range carrying whichever exist. */
  function Unflatten(tmin: Option<Temperature>, tmax: Option<Temperature>): (t: Option<TemperatureRange>)
    ensures t.None? <==> tmin.None? && tmax.None?
    ensures t != Some(EmptyRange)
    ensures Flatten(t) == (tmin, tmax)
  {
    if tmin.Some? || tmax.Some? then Some(TemperatureRange(tmin, tmax)) else None
  }

  /** Flattening and rebuilding gives back every range except the one with
      both bounds absent. */
  lemma UnflattenFlatten(t: Option<TemperatureRange>)
    requires t != Some(EmptyRange)
    ensures Unflatten(Flatten(t).0, Flatten(t).1) == t
  {
  }

  /** The range with both bounds absent does not survive storage: it comes
      back as no range at all. */
  lemma EmptyRangeIsLost()
    ensures Unflatten(Flatten(Some(EmptyRange)).0, Flatten(Some(EmptyRange)).1) == None
    ensures Flatten(Some(EmptyRange)) == Flatten(None)
  {
  }

  /** Builds the response for a stored row: the scalar columns are copied
      and the two temperature columns are gathered back into a range. */
  function FromOrm(id: int, row: FlowerRow): (v: FlowerView)
    ensures v.id == id && v.ownerId == row.ownerId
    ensures v.name == row.name && v.comment == row.comment
    ensures v.wateringIntensity == row.wateringIntensity && v.lightLevel == row.lightLevel
    ensures Flatten(v.temperatureRange) == (row.temperatureMin, row.temperatureMax)
    ensures v.temperatureRange != Some(EmptyRange)
  {
    FlowerView(
      id, row.ownerId, row.name, row.wateringIntensity, row.lightLevel,
      Unflatten(row.temperatureMin, row.temperatureMax), row.comment)
  }

  /** The response loses nothing: distinct stored rows give distinct
      responses. */
  lemma FromOrmInjective(id1: int, row1: FlowerRow, id2: int, row2: FlowerRow)
    requires FromOrm(id1, row1) == FromOrm(id2, row2)
    ensures id1 == id2 && row1 == row2
  {
  }
}
