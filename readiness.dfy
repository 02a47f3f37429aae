/** The readiness gate: the health check's outcome decides which screen the client shows, and
    only the ready state lets the map be created. */
module Readiness {
  import opened Wrappers

  /** The `backendStatus` slot: 'checking', 'ready', 'earth_engine_error', 'backend_error'. */
  datatype Status = Checking | Ready | EarthEngineError | BackendError

  /** `checkBackendHealth`: a response whose `earth_engine_ready` is truthy gives ready, any other
      response gives the Earth Engine error, and a request that throws gives the backend error. */
  function HealthStatus(response: Fetch<bool>): (s: Status)
    ensures s == Ready <==> response.Ok? && response.value
    ensures s == EarthEngineError <==> response.Ok? && !response.value
    ensures s == BackendError <==> response.Err?
  {
    match response
    case Ok(engineReady) => if engineReady then Ready else EarthEngineError
    case Err(_) => BackendError
  }

  const BackendDownText: string := "Cannot connect to backend server. Make sure Flask is running on port 5000."
  const EngineDownText: string := "Earth Engine is not properly initialized on the backend."

  /** What the component renders for a status; the error screen also offers a retry button that
      runs the health check again. */
  datatype Screen = CheckingScreen | ErrorScreen(message: string) | MainScreen

  function ScreenFor(s: Status): (v: Screen)
    ensures v == CheckingScreen <==> s == Checking
    ensures v == MainScreen <==> s == Ready
    ensures v == ErrorScreen(BackendDownText) <==> s == BackendError
    ensures v == ErrorScreen(EngineDownText) <==> s == EarthEngineError
  {
    if s == Checking then CheckingScreen
    else if s != Ready then ErrorScreen(if s == BackendError then BackendDownText else EngineDownText)
    else MainScreen
  }

  /** The effect that creates the map runs whenever `backendStatus` changes, and creates the map
      only when the new status is ready. */
  predicate CreatesMap(before: Status, after: Status)
  {
    before != after && after == Ready
  }

  /** A health check creates the map exactly when it reports a reachable backend whose Earth
      Engine is initialised, starting from any state other than ready. */
  lemma HealthCheckCreatesMap(before: Status, response: Fetch<bool>)
    requires before != Ready
    ensures CreatesMap(before, HealthStatus(response)) <==> response.Ok? && response.value
  {
  }
}
