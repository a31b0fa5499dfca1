/**
 * The navigation screen without its map: resolving a destination name to
 * a point, the two-point route from the campus to it, the walking-time
 * estimate, and the guard on drawing the route.
 *
 * Coordinates are fixed point, in units of 10^-4 degree, so every point
 * the screen uses is exact; distances are whole metres.
 */
module Navigation {
  import opened Wrappers
  import Text

  /** com.google.android.gms.maps.model.LatLng, in 10^-4 degree units. */
  datatype LatLng = LatLng(latitude: int, longitude: int)

  /** NTU_CLIFTON: (52.9068, -1.1878), the start of every route. */
  const NTU_CLIFTON: LatLng := LatLng(529068, -11878)

  const LIBRARY: LatLng := LatLng(529070, -11880)
  const CAFETERIA: LatLng := LatLng(529072, -11882)
  const GYM: LatLng := LatLng(529064, -11874)
  const COMPUTER_LAB: LatLng := LatLng(529066, -11876)

  /** The lower-case names the destination switch has a case for. */
  const KNOWN_NAMES: set<string> := {"library", "cafeteria", "canteen", "gym", "fitness", "computer lab", "lab"}

  /**
   * getDestinationCoordinates: a switch on the lower-cased name. Each
   * place answers to its aliases and only to them, and every other name
   * falls back to a point equal to the campus start point.
   */
  function DestinationCoordinates(destination: string): (p: LatLng)
    ensures p == LIBRARY <==> Text.Lower(destination) == "library"
    ensures p == CAFETERIA <==> Text.Lower(destination) in {"cafeteria", "canteen"}
    ensures p == GYM <==> Text.Lower(destination) in {"gym", "fitness"}
    ensures p == COMPUTER_LAB <==> Text.Lower(destination) in {"computer lab", "lab"}
    ensures p == NTU_CLIFTON <==> Text.Lower(destination) !in KNOWN_NAMES
  {
    var key := Text.Lower(destination);
    if key == "library" then LIBRARY
    else if key == "cafeteria" || key == "canteen" then CAFETERIA
    else if key == "gym" || key == "fitness" then GYM
    else if key == "computer lab" || key == "lab" then COMPUTER_LAB
    else LatLng(529068, -11878)
  }

  /** The lookup ignores case: a name and its lower-cased form go to the same point. */
  lemma DestinationIgnoresCase(destination: string)
    ensures DestinationCoordinates(Text.Lower(destination)) == DestinationCoordinates(destination)
  {
    Text.LowerIdempotent(destination);
  }

  /** Two names that differ only in the case of their letters resolve alike. */
  lemma {:induction false} SameLettersSamePoint(d: string, e: string)
    requires |d| == |e|
    requires forall i :: 0 <= i < |d| ==> Text.LowerChar(d[i]) == Text.LowerChar(e[i])
    ensures DestinationCoordinates(d) == DestinationCoordinates(e)
  {
    assert Text.Lower(d) == Text.Lower(e);
  }

  /** "Library" and "LIBRARY" name the library, which is not the campus start point. */
  lemma LibraryInAnyCase()
    ensures DestinationCoordinates("Library") == DestinationCoordinates("LIBRARY") == LIBRARY
    ensures LIBRARY != NTU_CLIFTON
  {
    assert Text.Lower("Library") == "library";
    assert Text.Lower("LIBRARY") == "library";
  }

  /** "cafeteria" and "canteen" are one place. */
  lemma CanteenIsCafeteria()
    ensures DestinationCoordinates("canteen") == DestinationCoordinates("cafeteria") == CAFETERIA
  {
    Text.LowerOfLowerCase("cafeteria");
    Text.LowerOfLowerCase("canteen");
  }

  /** "gym" and "fitness" are one place. */
  lemma FitnessIsGym()
    ensures DestinationCoordinates("fitness") == DestinationCoordinates("gym") == GYM
  {
    Text.LowerOfLowerCase("gym");
    Text.LowerOfLowerCase("fitness");
  }

  /** "computer lab" and "lab" are one place. */
  lemma LabIsComputerLab()
    ensures DestinationCoordinates("lab") == DestinationCoordinates("computer lab") == COMPUTER_LAB
  {
    Text.LowerOfLowerCase("computer lab");
    Text.LowerOfLowerCase("lab");
  }

  /**
   * The walking-time estimate of calculateRoute: 15 minutes per kilometre,
   * truncated to whole minutes.
   */
  function RouteMinutes(distance: nat): (minutes: nat)
    ensures minutes * 1000 <= distance * 15 < (minutes + 1) * 1000
    ensures minutes == 0 <==> distance * 15 < 1000
  {
    (distance * 15) / 1000
  }

  /** A longer walk never gets a shorter estimate. */
  lemma RouteMinutesMonotone(d: nat, e: nat)
    requires d <= e
    ensures RouteMinutes(d) <= RouteMinutes(e)
  {
    var m, n := RouteMinutes(d), RouteMinutes(e);
    assert d * 15 <= e * 15;
    assert m * 1000 < (n + 1) * 1000;
  }

  /** The guard of drawRoute: a route exists and has at least two points. */
  predicate Drawable(routePoints: Option<seq<LatLng>>)
  {
    routePoints.Some? && |routePoints.value| >= 2
  }

  /** The state of NavigationActivity that is not UI. */
  class NavigationScreen {
    /** The "destination" extra of the starting intent; None when it is absent. */
    var destination: Option<string>
    var isAIRoute: bool
    /** Whether onMapReady has run (mMap != null). */
    var mapReady: bool
    var destinationLocation: Option<LatLng>
    var routePoints: Option<seq<LatLng>>
    /** The minutes shown by the "Estimated time" text, once a route is computed. */
    var minutes: Option<nat>
    /** The polylines drawRoute has added to the map, oldest first. */
    var drawnRoutes: seq<seq<LatLng>>

    /**
     * onCreate: reads the intent, then computes the route while the map
     * is still being prepared, so nothing is drawn yet. `distance` stands
     * for what Location.distanceBetween reports for the route.
     */
    constructor (destination: Option<string>, isAIRoute: bool, distance: nat)
      ensures this.destination == destination && this.isAIRoute == isAIRoute && !mapReady
      ensures destination.None? ==> destinationLocation.None? && routePoints.None? && minutes.None?
      ensures destination.Some? ==>
        destinationLocation == Some(DestinationCoordinates(destination.value))
        && routePoints == Some([NTU_CLIFTON, DestinationCoordinates(destination.value)])
        && minutes == Some(RouteMinutes(distance))
      ensures drawnRoutes == []
    {
      this.destination := destination;
      this.isAIRoute := isAIRoute;
      mapReady := false;
      destinationLocation := None;
      routePoints := None;
      minutes := None;
      drawnRoutes := [];
      new;
      CalculateRoute(distance);
    }

    /**
     * calculateRoute: nothing at all without a destination; otherwise the
     * destination point, the route [campus, destination], the estimate,
     * and the route drawn when the map is ready.
     */
    method CalculateRoute(distance: nat)
      modifies this`destinationLocation, this`routePoints, this`minutes, this`drawnRoutes
      ensures destination.None? ==>
        destinationLocation == old(destinationLocation) && routePoints == old(routePoints)
        && minutes == old(minutes) && drawnRoutes == old(drawnRoutes)
      ensures destination.Some? ==>
        destinationLocation == Some(DestinationCoordinates(destination.value))
        && routePoints == Some([NTU_CLIFTON, DestinationCoordinates(destination.value)])
        && minutes == Some(RouteMinutes(distance))
        && drawnRoutes == old(drawnRoutes) + (if mapReady then [routePoints.value] else [])
      ensures destination.Some? ==> Drawable(routePoints)
    {
      if destination.Some? {
        var location := DestinationCoordinates(destination.value);
        destinationLocation := Some(location);
        var points: seq<LatLng> := [];
        points := points + [NTU_CLIFTON];
        points := points + [location];
        assert points == [NTU_CLIFTON, location];
        routePoints := Some(points);
        minutes := Some(distance * 15 / 1000);
        if mapReady {
          DrawRoute();
        }
      }
    }

    /** drawRoute: adds the route as a polyline only when it has two points or more. */
    method DrawRoute()
      modifies this`drawnRoutes
      ensures drawnRoutes == old(drawnRoutes) + (if Drawable(routePoints) then [routePoints.value] else [])
    {
      if routePoints.Some? && |routePoints.value| >= 2 {
        drawnRoutes := drawnRoutes + [routePoints.value];
      }
    }

    /** onMapReady: the map exists, and the destination is resolved again for its marker. */
    method OnMapReady()
      modifies this`mapReady, this`destinationLocation
      ensures mapReady
      ensures destination.Some? ==> destinationLocation == Some(DestinationCoordinates(destination.value))
      ensures destination.None? ==> destinationLocation == old(destinationLocation)
    {
      mapReady := true;
      if destination.Some? {
        destinationLocation := Some(DestinationCoordinates(destination.value));
      }
    }
  }
}
