/** The older copy of the sensor-list script at the repository root
    (breathe_london_api_list_sensors.py). Its key selection, flattening,
    site-code sample and `main` are the same rules as in the main/ copy and
    are modelled by module ListSensors; what differs is the retry loop,
    which keeps no attempt counter and computes the elapsed time inline. */
module ListSensorsRoot {
  import opened ListSensors

  /** fetch_sensor_data of the root copy: the same decision rule as the
      main/ copy, written without the `attempt` counter. */
  method FetchSensorData<J>(startTime: real, trace: seq<Attempt<J>>) returns (r: FetchResult<J>)
    ensures r == Fetch(startTime, trace).result
  {
    var i := 0;
    while true
      invariant i <= |trace|
      invariant RunFrom(startTime, trace, i) == Fetch(startTime, trace)
      decreases |trace| - i
    {
      if i == |trace| {
        r := Unfinished;
        return;
      }
      match trace[i].outcome {
        case Success(json) =>
          r := Ok(json);
          return;
        case Timeout =>
          if trace[i].clock - startTime > TimeBudget {
            r := LimitExceeded;
            return;
          }
        case OtherError(e) =>
          r := RequestFailed("API request failed: " + e);
          return;
      }
      i := i + 1;
    }
  }

  /** A success is returned at once: the attempts after it are never made,
      so they cannot change the result. */
  lemma {:induction false} SuccessEndsFetch<J>(startTime: real, trace: seq<Attempt<J>>, json: J, clock: real, more: seq<Attempt<J>>)
    requires forall j :: 0 <= j < |trace| ==> Retried(startTime, trace[j])
    ensures Fetch(startTime, trace + [Attempt(Success(json), clock)] + more).result == Ok(json)
  {
    var t := trace + [Attempt(Success(json), clock)];
    FetchFirstDecisive(startTime, t, |trace|);
    FetchAppend(startTime, t, more);
  }
}
