/**
 * Evacuation destinations as the map front-end holds them, and the
 * normalisation that turns an entry of the secondary (horizontal evacuation
 * point) feed into the same shape as a primary destination.
 *
 * Coordinates are JavaScript values read from JSON: a number, `null`, or
 * `undefined` when the field is absent. Floating-point values are modelled
 * as `real`.
 */
module Destinations {

  datatype Option<T> = None | Some(value: T)

  /** A coordinate as the source holds it. */
  datatype JsNumber = Num(value: real) | Null | Undefined
  {
    /** `null` and `undefined` are the values `?.` and `??` treat as missing. */
    predicate Nullish()
    {
      Null? || Undefined?
    }

    /**
     * The number the value stands for in arithmetic: `null` converts to 0 and
     * `undefined` to NaN, which is `None` here.
     */
    function ToNumber(): Option<real>
    {
      match this
      case Num(v) => Some(v)
      case Null => Some(0.0)
      case Undefined => None
    }
  }

  /** `a ?? b`: the left operand unless it is null or undefined. */
  function Coalesce(a: JsNumber, b: JsNumber): JsNumber
  {
    if a.Nullish() then b else a
  }

  /** A point picked by the user (a map click or the device position). */
  datatype LatLng = LatLng(lat: real, lng: real)

  /** The `location` of a destination; either coordinate may be null or undefined. */
  datatype Location = Location(lat: JsNumber, lng: JsNumber)
  {
    /** Both coordinates convert to numbers (neither is undefined). */
    predicate Complete()
    {
      lat.ToNumber().Some? && lng.ToNumber().Some?
    }

    /** The point the distance formula sees, a null coordinate counting as 0. */
    function Point(): LatLng
      requires Complete()
    {
      LatLng(lat.ToNumber().value, lng.ToNumber().value)
    }
  }

  /** `{ name, location: { lat, lng } }`, the shape every destination is held in. */
  datatype Destination = Destination(name: string, location: Location)

  /** The nested `location` object of a secondary feed entry. */
  datatype RawLocation = RawLocation(lat: JsNumber, lng: JsNumber)

  /**
   * An entry of the secondary feed: it may carry a nested `location` object,
   * flat `lat`/`lng` fields, or both. A `location` that is absent or null is
   * `None`.
   */
  datatype EvacPoint = EvacPoint(
    name: string,
    location: Option<RawLocation>,
    lat: JsNumber,
    lng: JsNumber)

  /** `point.location?.lat` */
  function NestedLat(p: EvacPoint): JsNumber
  {
    if p.location.Some? then p.location.value.lat else Undefined
  }

  /** `point.location?.lng` */
  function NestedLng(p: EvacPoint): JsNumber
  {
    if p.location.Some? then p.location.value.lng else Undefined
  }

  /**
   * The record built for a secondary feed entry: each nested coordinate
   * wins when it is neither null nor undefined, otherwise the flat field is
   * used as it is, null or undefined included.
   */
  function Normalise(p: EvacPoint): (d: Destination)
    ensures d.name == p.name
    ensures p.location.Some? && !p.location.value.lat.Nullish() ==> d.location.lat == p.location.value.lat
    ensures p.location.Some? && !p.location.value.lng.Nullish() ==> d.location.lng == p.location.value.lng
    ensures (p.location.None? || p.location.value.lat.Nullish()) ==> d.location.lat == p.lat
    ensures (p.location.None? || p.location.value.lng.Nullish()) ==> d.location.lng == p.lng
  {
    Destination(p.name, Location(Coalesce(NestedLat(p), p.lat), Coalesce(NestedLng(p), p.lng)))
  }

  /**
   * Both coordinates of the normalised record convert to numbers exactly
   * when, for each coordinate, the nested shape supplies a number or the
   * flat field is not undefined (a null flat field converts to 0).
   */
  lemma NormaliseComplete(p: EvacPoint)
    ensures Normalise(p).location.Complete()
        <==> (NestedLat(p).Num? || !p.lat.Undefined?) && (NestedLng(p).Num? || !p.lng.Undefined?)
  {
  }

  /** The flat and the nested shape of the same point normalise to the same destination. */
  lemma FlatAndNestedAgree(name: string, lat: real, lng: real)
    ensures Normalise(EvacPoint(name, Some(RawLocation(Num(lat), Num(lng))), Undefined, Undefined))
         == Normalise(EvacPoint(name, None, Num(lat), Num(lng)))
    ensures Normalise(EvacPoint(name, None, Num(lat), Num(lng)))
         == Destination(name, Location(Num(lat), Num(lng)))
  {
  }

  /** The records pushed, in order, for the entries of one secondary feed. */
  function NormaliseAll(points: seq<EvacPoint>): (ds: seq<Destination>)
    ensures |ds| == |points|
    ensures forall i :: 0 <= i < |points| ==> ds[i] == Normalise(points[i])
  {
    if points == [] then []
    else NormaliseAll(points[..|points| - 1]) + [Normalise(points[|points| - 1])]
  }
}
