/** The map-focus registry: one optional camera mover, registered by the
    map view and invoked by "tap to zoom" interactions. */
module MapFocus {
  import opened Wrappers

  /** What the mover does when called: moves the camera or throws. */
  datatype MoveResult = Moved | Threw(error: string)

  /** `MapMover`: `(lat, lng, zoom) => void`, possibly throwing. */
  type Mover = (real, real, real) -> MoveResult

  datatype MoveCall = MoveCall(lat: real, lng: real, zoom: real)

  /** What one `focusMap` call did. `MoverFailed` is the caught exception,
      `NoMover` the "no mover is set yet" warning; neither propagates. */
  datatype FocusOutcome = Invoked(call: MoveCall) | MoverFailed(call: MoveCall, error: string) | NoMover

  const DefaultZoom: real := 17.0

  /** The module-level `mover` variable. */
  class MapFocusRegistry {
    var mover: Option<Mover>

    constructor ()
      ensures mover == None
    {
      mover := None;
    }

    /** `setMapMover(fn)`: replaces the registration; `None` unregisters. */
    method SetMapMover(fn: Option<Mover>)
      modifies this
      ensures mover == fn
    {
      mover := fn;
    }

    /** `focusMap(lat, lng, zoom = 17)`: calls the registered mover exactly
        once with those arguments, catching anything it throws; with no mover
        it only warns. The registration is never changed. */
    method FocusMap(lat: real, lng: real, zoom: Option<real>) returns (outcome: FocusOutcome)
      ensures mover.None? <==> outcome == NoMover
      ensures mover.Some? ==>
                var call := MoveCall(lat, lng, zoom.GetOr(DefaultZoom));
                match mover.value(call.lat, call.lng, call.zoom)
                case Moved => outcome == Invoked(call)
                case Threw(e) => outcome == MoverFailed(call, e)
    {
      if mover.Some? {
        var call := MoveCall(lat, lng, zoom.GetOr(DefaultZoom));
        var result := mover.value(call.lat, call.lng, call.zoom);
        match result
        case Moved => outcome := Invoked(call);
        case Threw(e) => outcome := MoverFailed(call, e);
      } else {
        outcome := NoMover;
      }
    }
  }
}
