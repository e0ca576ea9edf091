/**
 The location hook (src/useGeoLocation.tsx): one `LocationState` record that
 starts "not loaded" and is overwritten by the success or the error callback
 of the browser's one-shot position request. An error record copies the code
 and message and sets at most one of three flags, one per standard code; a
 browser without geolocation is reported as code 0.

 The position request itself is not modelled; the coordinates arrive as the
 text the hook makes of the position's numbers.
 */
module GeoLocation {

  datatype Option<T> = None | Some(value: T)

  /** Latitude and longitude as text; both empty when there is no position. */
  datatype Coordinates = Coordinates(lat: string, lng: string)

  /** The `error` field: the reported code and message, and the three optional
      flags (`PERMISSION_DENIED`, `POSITION_UNAVAILABLE`, `TIMEOUT`). */
  datatype LocationError = LocationError(
    code: int,
    message: string,
    permissionDenied: Option<int>,
    positionUnavailable: Option<int>,
    timeout: Option<int>)

  /** `LocationState`; an absent `error` field is `None`. */
  datatype LocationState = LocationState(loaded: bool, coordinates: Coordinates, error: Option<LocationError>)

  const NoCoordinates: Coordinates := Coordinates("", "")

  const PermissionDeniedCode: int := 1
  const PositionUnavailableCode: int := 2
  const TimeoutCode: int := 3

  /** What the hook reports when the browser has no geolocation. */
  const UnsupportedCode: int := 0
  const UnsupportedMessage: string := "Geolocation not supported"

  /** The state before any callback. */
  const InitialState: LocationState := LocationState(false, NoCoordinates, None)

  /** A flag field: the code itself when the error has that code, else absent. */
  function Flag(code: int, flagCode: int): Option<int>
  {
    if code == flagCode then Some(flagCode) else None
  }

  predicate AtMostOneFlag(e: LocationError)
  {
    && (e.permissionDenied.Some? ==> e.positionUnavailable.None? && e.timeout.None?)
    && (e.positionUnavailable.Some? ==> e.timeout.None?)
  }

  /** The record `onSuccess` stores. */
  function SuccessState(lat: string, lng: string): LocationState
  {
    LocationState(true, Coordinates(lat, lng), None)
  }

  /** The record `onError` stores: loaded, no coordinates, the code and
      message copied, and exactly the flag that names the code, if any. */
  function ErrorState(code: int, message: string): (s: LocationState)
    ensures s.loaded && s.coordinates == NoCoordinates && s.error.Some?
    ensures s.error.value.code == code && s.error.value.message == message
    ensures s.error.value.permissionDenied.Some? <==> code == PermissionDeniedCode
    ensures s.error.value.positionUnavailable.Some? <==> code == PositionUnavailableCode
    ensures s.error.value.timeout.Some? <==> code == TimeoutCode
    ensures s.error.value.permissionDenied.Some? ==> s.error.value.permissionDenied.value == PermissionDeniedCode
    ensures s.error.value.positionUnavailable.Some? ==> s.error.value.positionUnavailable.value == PositionUnavailableCode
    ensures s.error.value.timeout.Some? ==> s.error.value.timeout.value == TimeoutCode
    ensures AtMostOneFlag(s.error.value)
  {
    LocationState(
      true,
      NoCoordinates,
      Some(LocationError(
        code,
        message,
        Flag(code, PermissionDeniedCode),
        Flag(code, PositionUnavailableCode),
        Flag(code, TimeoutCode))))
  }

  /** One callback invocation of the position request. */
  datatype Callback =
    | Success(lat: string, lng: string)
    | Failure(code: int, message: string)

  /** The state a callback stores; it does not depend on the state before. */
  function Apply(cb: Callback): LocationState
  {
    match cb
    case Success(lat, lng) => SuccessState(lat, lng)
    case Failure(code, message) => ErrorState(code, message)
  }

  /** The state after the callbacks `cbs` have fired, in order, from `s`. */
  function Run(s: LocationState, cbs: seq<Callback>): LocationState
    decreases |cbs|
  {
    if cbs == [] then s else Run(Apply(cbs[0]), cbs[1..])
  }

  /** Error code 0 with the "not supported" message sets none of the flags. */
  lemma {:induction false} UnsupportedSetsNoFlag()
    ensures var s := ErrorState(UnsupportedCode, UnsupportedMessage);
      && s.loaded && s.coordinates == NoCoordinates
      && s.error == Some(LocationError(0, "Geolocation not supported", None, None, None))
  {
  }

  /** The last callback decides the state; once one has fired, `loaded` is
      true and stays true under any further callbacks. */
  lemma {:induction false} LastCallbackWins(s: LocationState, cbs: seq<Callback>)
    ensures Run(s, cbs) == if cbs == [] then s else Apply(cbs[|cbs| - 1])
    ensures s.loaded || cbs != [] ==> Run(s, cbs).loaded
    decreases |cbs|
  {
    if cbs != [] {
      LastCallbackWins(Apply(cbs[0]), cbs[1..]);
      if |cbs| > 1 {
        assert cbs[1..][|cbs[1..]| - 1] == cbs[|cbs| - 1];
      }
    }
  }

  /** Every state the hook can hold has either a position or an error, never
      both: before a callback neither; after a success the position and no
      error; after a failure an error and empty coordinates. */
  lemma {:induction false} ReachableStatesAreConsistent(cbs: seq<Callback>)
    ensures var s := Run(InitialState, cbs);
      && (!s.loaded <==> s == InitialState)
      && (s.error.Some? ==> s.loaded && s.coordinates == NoCoordinates && AtMostOneFlag(s.error.value))
      && (s.loaded && s.error.None? ==> exists lat, lng :: s == SuccessState(lat, lng))
  {
    LastCallbackWins(InitialState, cbs);
    if cbs != [] {
      var last := cbs[|cbs| - 1];
      if last.Success? {
        assert Run(InitialState, cbs) == SuccessState(last.lat, last.lng);
      }
    }
  }

  /** The hook's state cell and the callbacks that overwrite it. */
  class GeoLocationHook {
    var location: LocationState

    constructor ()
      ensures location == InitialState
    {
      location := InitialState;
    }

    /** `onSuccess`, given the text of the position's latitude and longitude. */
    method OnSuccess(lat: string, lng: string)
      modifies this
      ensures location == SuccessState(lat, lng)
      ensures location.loaded && location.coordinates == Coordinates(lat, lng) && location.error.None?
    {
      location := SuccessState(lat, lng);
    }

    /** `onError`: overwrites the state with the error record. */
    method OnError(code: int, message: string)
      modifies this
      ensures location == ErrorState(code, message)
    {
      location := ErrorState(code, message);
    }

    /** The check of the mount effect: without geolocation support the hook
      reports error code 0; with it, the state is left as it was. */
    method CheckSupport(supported: bool)
      modifies this
      ensures supported ==> location == old(location)
      ensures !supported ==> location == ErrorState(UnsupportedCode, UnsupportedMessage)
    {
      if !supported {
        OnError(UnsupportedCode, UnsupportedMessage);
      }
    }
  }
}
