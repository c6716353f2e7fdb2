/**
 * Clients of the session that walk through whole user actions, in the fixed
 * order "primary feed, then secondary feed, then a start point". Each one is
 * proved from the contracts of the session's methods alone.
 */
module Scenarios {
  import opened Destinations
  import opened Selection
  import opened MapSession

  const Origin := LatLng(43.07, 141.34)
  const ShelterLocation := Location(Num(43.075), Num(141.342))

  /**
   * One shelter, given by the secondary feed in the flat shape, lies within
   * the radius and the service reports 650 m / "9 mins": the shelter is
   * chosen, shown, and handed to the external map application.
   */
  method NearestShown(dist: Distance, primary: seq<Destination>) returns (shown: Message, navigation: Option<Navigation>)
    requires dist(Origin, ShelterLocation.Point()) <= RadiusMetres
    requires forall i :: 0 <= i < |primary| ==> !Nearby(dist, Origin, primary[i])
    ensures shown == Nearest("Shelter", 650, "9 mins")
    ensures navigation == Some(Navigation(Origin, ShelterLocation))
  {
    var s := new Session();
    s.LoadDestinations(Loaded(primary));
    s.LoadEvacPoints(Loaded([EvacPoint("Shelter", None, Num(43.075), Num(141.342))]));
    var shelter := Destination("Shelter", ShelterLocation);
    assert s.destinations == primary + [shelter];
    PrefilterEmpty(dist, Origin, primary);
    PrefilterAppend(dist, Origin, primary, [shelter]);
    assert Prefilter(dist, Origin, [shelter]) == [shelter];
    var request := s.SetStartPoint(dist, Origin);
    var selected := s.OnDistanceMatrix(request.value, Ok([Element(650, "9 mins")]));
    shown := s.message;
    navigation := s.LaunchGoogleMap();
  }

  /**
   * Every destination is beyond the radius: no query is issued, the message
   * says so, the route display is cleared, and navigation is refused.
   */
  method NothingWithinRadius(dist: Distance, primary: seq<Destination>, origin: LatLng)
    returns (request: Option<MatrixRequest>, shown: Message, route: RouteDisplay, navigation: Option<Navigation>)
    requires forall i :: 0 <= i < |primary| ==> !Nearby(dist, origin, primary[i])
    ensures request == None && shown == NoneWithinRadius && route == Cleared
    ensures navigation == None
  {
    var s := new Session();
    s.LoadDestinations(Loaded(primary));
    PrefilterEmpty(dist, origin, primary);
    request := s.SetStartPoint(dist, origin);
    shown, route := s.message, s.route;
    navigation := s.LaunchGoogleMap();
  }

  /**
   * A first selection succeeds; a second start point's query then fails. The
   * failure is shown, and the earlier destination stays the latest one, so
   * navigation goes from the new start point to the earlier destination.
   */
  method FailureKeepsEarlierDestination(dist: Distance, shelter: Destination, second: LatLng)
    returns (shown: Message, navigation: Option<Navigation>)
    requires Nearby(dist, Origin, shelter) && Nearby(dist, second, shelter)
    ensures shown == DistanceMatrixError("OVER_QUERY_LIMIT")
    ensures navigation == Some(Navigation(second, shelter.location))
  {
    var s := new Session();
    s.LoadDestinations(Loaded([shelter]));
    assert Prefilter(dist, Origin, [shelter]) == [shelter];
    var first := s.SetStartPoint(dist, Origin);
    var selected := s.OnDistanceMatrix(first.value, Ok([Element(420, "6 mins")]));
    var again := s.SetStartPoint(dist, second);
    selected := s.OnDistanceMatrix(again.value, NotOk("OVER_QUERY_LIMIT"));
    shown := s.message;
    navigation := s.LaunchGoogleMap();
  }
}
