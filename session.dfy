/**
 * The page's session state and the steps that change it: loading the two
 * destination feeds, picking a start point (which runs the prefilter and,
 * when some candidate is near enough, asks the walking-distance service),
 * the service's answer, and the hand-over to the external map application.
 *
 * The service calls are asynchronous in the source. Here a step that issues a
 * call returns the request, and the callback is a separate method that is
 * given the request it answers (the values the callback closure captured)
 * together with the service's response.
 */
module MapSession {
  import opened Destinations
  import opened Selection

  /** What the message area shows (the source's strings are Japanese). */
  datatype Message =
    | Blank
    | DestinationsFeedError(error: string)
    | EvacPointsFeedError(error: string)
    | NoneWithinRadius
    | Nearest(name: string, metres: nat, duration: string)
    | DistanceMatrixError(status: string)
    | ChooseStartAndDestination

  /**
   * The route display: cleared, or handed the walking route between two
   * points (what the routing service then draws is not modelled).
   */
  datatype RouteDisplay = Cleared | Requested(origin: LatLng, destination: Location)

  /** The outcome of fetching and parsing one JSON feed. */
  datatype Feed<T> = Loaded(data: T) | LoadFailed(error: string)

  /**
   * A walking-distance query: one origin and the candidates that passed the
   * prefilter. The locations sent to the service are the candidates'
   * locations, in the same order.
   */
  datatype MatrixRequest = MatrixRequest(origin: LatLng, nearby: seq<Destination>)

  /** One element of the service's answer: walking distance in whole metres and a duration label. */
  datatype Element = Element(metres: nat, duration: string)

  /** The service's answer: an OK status with one element per queried location, or another status. */
  datatype MatrixResponse = Ok(elements: seq<Element>) | NotOk(status: string)

  /** The origin and destination handed to the external map application. */
  datatype Navigation = Navigation(origin: LatLng, destination: Location)

  /** The walking distance in metres of each element (its `distance.value`), in order. */
  function Metres(elements: seq<Element>): seq<nat>
  {
    seq(|elements|, i requires 0 <= i < |elements| => elements[i].metres)
  }

  class Session {
    /** Primary destinations first, then the normalised secondary points. */
    var destinations: seq<Destination>
    /** The position of the start marker, once one has been placed. */
    var start: Option<LatLng>
    /** The destination chosen by the last successful selection. */
    var latestDestination: Option<Destination>
    var message: Message
    var route: RouteDisplay

    /** The page as loaded: nothing fetched, no start marker, no selection. */
    constructor ()
      ensures destinations == [] && start == None && latestDestination == None
      ensures message == Blank && route == Cleared
    {
      destinations := [];
      start := None;
      latestDestination := None;
      message := Blank;
      route := Cleared;
    }

    /** The primary feed replaces the destination list; a failed load only reports the error. */
    method LoadDestinations(feed: Feed<seq<Destination>>)
      modifies this`destinations, this`message
      ensures feed.Loaded? ==> destinations == feed.data && message == old(message)
      ensures feed.LoadFailed? ==> destinations == old(destinations) && message == DestinationsFeedError(feed.error)
    {
      match feed
      case Loaded(data) =>
        destinations := data;
      case LoadFailed(error) =>
        message := DestinationsFeedError(error);
    }

    /**
     * Each entry of the secondary feed is normalised and pushed at the end of
     * the destination list; the entries already there are left as they are.
     */
    method LoadEvacPoints(feed: Feed<seq<EvacPoint>>)
      modifies this`destinations, this`message
      ensures feed.Loaded? ==> destinations == old(destinations) + NormaliseAll(feed.data) && message == old(message)
      ensures feed.LoadFailed? ==> destinations == old(destinations) && message == EvacPointsFeedError(feed.error)
    {
      match feed
      case Loaded(points) =>
        for i := 0 to |points|
          invariant destinations == old(destinations) + NormaliseAll(points[..i])
          invariant message == old(message)
        {
          assert points[..i + 1][..i] == points[..i];
          destinations := destinations + [Normalise(points[i])];
        }
        assert points[..|points|] == points;
      case LoadFailed(error) =>
        message := EvacPointsFeedError(error);
    }

    /**
     * The prefilter step of a selection. With no candidate within the radius
     * the message says so, the route display is cleared and no query is
     * issued; otherwise the query for the nearby candidates is issued.
     * The last selection is kept either way.
     */
    method FindClosestPoint(dist: Distance, origin: LatLng) returns (request: Option<MatrixRequest>)
      modifies this`message, this`route
      ensures Prefilter(dist, origin, destinations) == [] ==>
        request == None && message == NoneWithinRadius && route == Cleared
      ensures Prefilter(dist, origin, destinations) != [] ==>
        request == Some(MatrixRequest(origin, Prefilter(dist, origin, destinations)))
        && message == old(message) && route == old(route)
    {
      var nearby := Prefilter(dist, origin, destinations);
      if |nearby| == 0 {
        message := NoneWithinRadius;
        route := Cleared;
        request := None;
        return;
      }
      request := Some(MatrixRequest(origin, nearby));
    }

    /** A map click or the device position: move the start marker there and start a selection. */
    method SetStartPoint(dist: Distance, location: LatLng) returns (request: Option<MatrixRequest>)
      modifies this`start, this`message, this`route
      ensures start == Some(location)
      ensures Prefilter(dist, location, destinations) == [] ==>
        request == None && message == NoneWithinRadius && route == Cleared
      ensures Prefilter(dist, location, destinations) != [] ==>
        request == Some(MatrixRequest(location, Prefilter(dist, location, destinations)))
        && message == old(message) && route == old(route)
    {
      start := Some(location);
      request := FindClosestPoint(dist, location);
    }

    /**
     * The walking-distance service's answer to `request`. On OK the candidate
     * at the leftmost smallest distance becomes the latest destination, its
     * name, distance and duration are shown and its route is requested. On any
     * other status only the status is shown.
     */
    method OnDistanceMatrix(request: MatrixRequest, response: MatrixResponse) returns (selected: Option<nat>)
      requires |request.nearby| > 0
      requires response.Ok? ==> |response.elements| == |request.nearby|
      modifies this`latestDestination, this`message, this`route
      ensures response.NotOk? ==>
        selected == None && latestDestination == old(latestDestination)
        && message == DistanceMatrixError(response.status) && route == old(route)
      ensures response.Ok? ==>
        selected.Some? && IsLeftmostMinimum(Metres(response.elements), selected.value)
        && latestDestination == Some(request.nearby[selected.value])
        && message == Nearest(request.nearby[selected.value].name,
                              response.elements[selected.value].metres,
                              response.elements[selected.value].duration)
        && route == Requested(request.origin, request.nearby[selected.value].location)
    {
      match response
      case Ok(elements) =>
        var closestIndex, minDistance := SelectClosest(Metres(elements));
        var chosen := request.nearby[closestIndex];
        latestDestination := Some(chosen);
        message := Nearest(chosen.name, elements[closestIndex].metres, elements[closestIndex].duration);
        route := Requested(request.origin, chosen.location);
        selected := Some(closestIndex);
      case NotOk(status) =>
        message := DistanceMatrixError(status);
        selected := None;
    }

    /**
     * Hand the start point and the latest destination to the external map
     * application; without both, only ask the user to set them.
     */
    method LaunchGoogleMap() returns (navigation: Option<Navigation>)
      modifies this`message
      ensures start.None? || latestDestination.None? ==>
        navigation == None && message == ChooseStartAndDestination
      ensures start.Some? && latestDestination.Some? ==>
        navigation == Some(Navigation(start.value, latestDestination.value.location))
        && message == old(message)
    {
      if start.None? || latestDestination.None? {
        message := ChooseStartAndDestination;
        navigation := None;
        return;
      }
      navigation := Some(Navigation(start.value, latestDestination.value.location));
    }
  }
}
