/** The sensor-list script (main/breathe_london_api_list_sensors.py): choose
    the API key, fetch the ListSensors endpoint with a timeout-retry loop
    bounded by a 30-second wall-clock budget, flatten the nested reply into
    rows, take a sample of site codes, and map every failure to
    `(None, None, None)`.

    The network and the clock are inputs: a fetch sees a trace of attempt
    outcomes, each with the clock reading taken when that attempt ended. */
module ListSensors {
  import opened Common

  /** Seconds of wall-clock time after which a timed-out attempt is no
      longer retried (`elapsed_time > 30`). */
  const TimeBudget: real := 30.0

  /** A sensor record as the API returns it: field name to value, `None`
      for a JSON `null`. A field the record lacks is not in the map. */
  type Record = map<string, Option<string>>

  // ---------------------------------------------------------------- API key

  datatype KeyResult = Key(key: string) | MissingKey  // MissingKey: ValueError

  /** get_api_key: the key given by the caller when it is truthy, otherwise
      the `API_KEY` environment value when that is truthy, otherwise a
      configuration error. */
  function GetApiKey(provided: Option<string>, env: Option<string>): (r: KeyResult)
    ensures Truthy(provided) ==> r == Key(provided.value)
    ensures !Truthy(provided) && Truthy(env) ==> r == Key(env.value)
    ensures r.MissingKey? <==> !Truthy(provided) && !Truthy(env)
    ensures r.Key? ==> r.key != ""
  {
    if Truthy(provided) then Key(provided.value)
    else if Truthy(env) then Key(env.value)
    else MissingKey
  }

  /** A truthy key given by the caller is used without looking at the
      environment at all: whatever `API_KEY` holds, the result is the same. */
  lemma ProvidedKeyIgnoresEnvironment(provided: Option<string>, env1: Option<string>, env2: Option<string>)
    requires Truthy(provided)
    ensures GetApiKey(provided, env1) == GetApiKey(provided, env2) == Key(provided.value)
  {
  }

  // ------------------------------------------------------ bounded retrying

  /** What one `requests.get(..., timeout=10)` followed by
      `raise_for_status()` and `json()` ends in. `OtherError` stands for every
      other `RequestException` (an HTTP error status, a refused connection, a
      body that is not JSON) and carries its message. */
  datatype Outcome<J> = Success(json: J) | Timeout | OtherError(message: string)

  /** One attempt and the reading of `time.time()` when it ended. */
  datatype Attempt<J> = Attempt(outcome: Outcome<J>, clock: real)

  /** What fetch_sensor_data ends in. `Unfinished` means that the trace ran
      out while the loop would still retry. */
  datatype FetchResult<J> =
    | Ok(json: J)
    | LimitExceeded                 // APILimitExceeded
    | RequestFailed(message: string) // Exception("API request failed: ...")
    | Unfinished

  /** A fetch's result together with `stop`: the index of the attempt that
      decided it, or the trace's length when none did. */
  datatype Run<J> = Run(result: FetchResult<J>, stop: nat)

  /** The loop goes round again exactly after a timeout whose elapsed time is
      at most the budget; the budget is looked at on no other outcome. */
  predicate Retried<J>(start: real, a: Attempt<J>) {
    a.outcome.Timeout? && a.clock - start <= TimeBudget
  }

  /** The result of an attempt that ends the loop. */
  function Decide<J>(start: real, a: Attempt<J>): (r: FetchResult<J>)
    requires !Retried(start, a)
    ensures r.Ok? <==> a.outcome.Success?
    ensures r.Ok? ==> r.json == a.outcome.json
    ensures r.LimitExceeded? <==> a.outcome.Timeout? && a.clock - start > TimeBudget
    ensures r.RequestFailed? <==> a.outcome.OtherError?
    ensures r.RequestFailed? ==> r.message == "API request failed: " + a.outcome.message
    ensures !r.Unfinished?
  {
    match a.outcome
    case Success(json) => Ok(json)
    case Timeout => LimitExceeded
    case OtherError(e) => RequestFailed("API request failed: " + e)
  }

  /** The loop's behaviour from attempt `i` of the trace on. It stops at the
      first attempt that is not a retried timeout, and every attempt before
      that one was a retried timeout. */
  function RunFrom<J>(start: real, trace: seq<Attempt<J>>, i: nat): (r: Run<J>)
    requires i <= |trace|
    ensures i <= r.stop <= |trace|
    ensures forall j :: i <= j < r.stop ==> Retried(start, trace[j])
    ensures r.stop < |trace| ==> !Retried(start, trace[r.stop]) && r.result == Decide(start, trace[r.stop])
    ensures r.stop == |trace| <==> r.result.Unfinished?
    decreases |trace| - i
  {
    if i == |trace| then Run(Unfinished, i)
    else if Retried(start, trace[i]) then RunFrom(start, trace, i + 1)
    else Run(Decide(start, trace[i]), i)
  }

  /** The whole fetch, from the first attempt on. */
  function Fetch<J>(start: real, trace: seq<Attempt<J>>): Run<J>
  {
    RunFrom(start, trace, 0)
  }

  /** fetch_sensor_data: `start_time` is read once before the first attempt;
      `attempt` starts at 1 and grows by one per retried timeout. The result
      is the fetch specified above and the final `attempt` is one more than
      the number of retried timeouts: the deciding attempt is attempt
      `stop + 1`. */
  method FetchSensorData<J>(startTime: real, trace: seq<Attempt<J>>) returns (r: FetchResult<J>, attempt: nat)
    ensures r == Fetch(startTime, trace).result
    ensures attempt == Fetch(startTime, trace).stop + 1
  {
    var i := 0;
    attempt := 1;
    while true
      invariant i <= |trace|
      invariant attempt == i + 1
      invariant RunFrom(startTime, trace, i) == Fetch(startTime, trace)
      decreases |trace| - i
    {
      if i == |trace| {
        r := Unfinished;
        return;
      }
      var a := trace[i];
      match a.outcome {
        case Success(json) =>
          r := Ok(json);
          return;
        case Timeout =>
          var elapsed := a.clock - startTime;
          if elapsed > TimeBudget {
            r := LimitExceeded;
            return;
          }
          attempt := attempt + 1;
        case OtherError(e) =>
          r := RequestFailed("API request failed: " + e);
          return;
      }
      i := i + 1;
    }
  }

  /** The fetch is decided by the first attempt that is not a retried
      timeout, and that attempt alone: with `n` retried timeouts in front of
      it, it is request `n + 1`. */
  lemma FetchFirstDecisive<J>(start: real, trace: seq<Attempt<J>>, n: nat)
    requires n < |trace|
    requires forall j :: 0 <= j < n ==> Retried(start, trace[j])
    requires !Retried(start, trace[n])
    ensures Fetch(start, trace) == Run(Decide(start, trace[n]), n)
  {
  }

  /** `n` timeouts within the budget followed by a success: the success is
      returned, at request `n + 1`, however late its own clock reading is. */
  lemma {:induction false} SuccessAfterTimeouts<J>(start: real, trace: seq<Attempt<J>>, n: nat)
    requires n < |trace|
    requires forall j :: 0 <= j < n ==> trace[j].outcome.Timeout? && trace[j].clock - start <= TimeBudget
    requires trace[n].outcome.Success?
    ensures Fetch(start, trace) == Run(Ok(trace[n].outcome.json), n)
  {
    FetchFirstDecisive(start, trace, n);
  }

  /** A timeout seen more than 30 s after the start, after only retried
      timeouts, ends the fetch with APILimitExceeded whatever would come
      after it, a success included. */
  lemma {:induction false} TimeoutPastBudget<J>(start: real, trace: seq<Attempt<J>>, n: nat)
    requires n < |trace|
    requires forall j :: 0 <= j < n ==> Retried(start, trace[j])
    requires trace[n].outcome.Timeout? && trace[n].clock - start > TimeBudget
    ensures Fetch(start, trace) == Run(LimitExceeded, n)
  {
    FetchFirstDecisive(start, trace, n);
  }

  /** A non-timeout error, after only retried timeouts, fails at once with
      the generic failure and never with APILimitExceeded, whatever the
      clock says. */
  lemma {:induction false} OtherErrorFailsAtOnce<J>(start: real, trace: seq<Attempt<J>>, n: nat)
    requires n < |trace|
    requires forall j :: 0 <= j < n ==> Retried(start, trace[j])
    requires trace[n].outcome.OtherError?
    ensures Fetch(start, trace) == Run(RequestFailed("API request failed: " + trace[n].outcome.message), n)
  {
    FetchFirstDecisive(start, trace, n);
  }

  lemma {:induction false} RunFromAppend<J>(start: real, trace: seq<Attempt<J>>, more: seq<Attempt<J>>, i: nat)
    requires i <= |trace|
    ensures var r := RunFrom(start, trace, i);
            RunFrom(start, trace + more, i)
              == if r.result.Unfinished?
                 then Run(Fetch(start, more).result, |trace| + Fetch(start, more).stop)
                 else r
    decreases |trace| - i
  {
    if i == |trace| {
      RunFromShift(start, trace, more, 0);
    } else {
      assert (trace + more)[i] == trace[i];
      if Retried(start, trace[i]) {
        RunFromAppend(start, trace, more, i + 1);
      }
    }
  }

  lemma {:induction false} RunFromShift<J>(start: real, trace: seq<Attempt<J>>, more: seq<Attempt<J>>, i: nat)
    requires i <= |more|
    ensures var r := RunFrom(start, more, i);
            RunFrom(start, trace + more, |trace| + i) == Run(r.result, |trace| + r.stop)
    decreases |more| - i
  {
    if i < |more| {
      assert (trace + more)[|trace| + i] == more[i];
      if Retried(start, more[i]) {
        RunFromShift(start, trace, more, i + 1);
      }
    }
  }

  /** Once an attempt has decided the fetch, attempts after it are never
      made: extending the trace changes nothing. While the fetch is
      undecided, the extension is fetched exactly as if it came alone. */
  lemma {:induction false} FetchAppend<J>(start: real, trace: seq<Attempt<J>>, more: seq<Attempt<J>>)
    ensures !Fetch(start, trace).result.Unfinished? ==> Fetch(start, trace + more) == Fetch(start, trace)
    ensures Fetch(start, trace).result.Unfinished? ==>
              Fetch(start, trace + more) == Run(Fetch(start, more).result, |trace| + Fetch(start, more).stop)
  {
    RunFromAppend(start, trace, more, 0);
  }

  // --------------------------------------------------- rows and site codes

  /** process_sensor_data: the reply's inner lists concatenated in order. */
  function ProcessSensorData(json: seq<seq<Record>>): (rows: seq<Record>)
    ensures |rows| == TotalLength(json)
    ensures forall k :: 0 <= k < |json| ==>
              Offset(json, k) + |json[k]| <= |rows| && rows[Offset(json, k)..Offset(json, k) + |json[k]|] == json[k]
  {
    FlattenAtAll(json);
    Flatten(json)
  }

  /** The `SiteCode` cell of a row: its value, or the missing value when
      the record has a `null` there or lacks the field (pandas fills that
      cell with NaN). */
  function SiteCodeOf(row: Record): (code: Option<string>)
    ensures code.Some? <==> "SiteCode" in row && row["SiteCode"].Some?
    ensures code.Some? ==> row["SiteCode"] == code
  {
    if "SiteCode" in row then row["SiteCode"] else None
  }

  /** Where Python's `s[:k]` ends for a list of length `n`: a negative `k`
      counts from the end, and both directions are clamped to the list. */
  function SliceEnd(n: nat, k: int): (e: nat)
    ensures e <= n
    ensures k >= 0 ==> e == k || (e == n && n < k)
    ensures k < 0 ==> n - e == -k || (e == 0 && n < -k)
  {
    if k >= 0 then Min(k, n) else Max(n + k, 0)
  }

  /** get_site_codes: `df['SiteCode'].tolist()` cut to `[:limit]` when the
      limit is truthy. The table has no `SiteCode` column (a KeyError) when
      no row has that field, an empty table included. */
  function GetSiteCodes(rows: seq<Record>, limit: Option<int>): (r: Option<seq<Option<string>>>)
    ensures r.None? <==> forall i :: 0 <= i < |rows| ==> "SiteCode" !in rows[i]
    ensures r.Some? ==> |r.value| <= |rows|
    ensures r.Some? ==> forall i :: 0 <= i < |r.value| ==> r.value[i] == SiteCodeOf(rows[i])
    ensures r.Some? && (limit.None? || limit.value == 0) ==> |r.value| == |rows|
    ensures r.Some? && limit.Some? && limit.value > 0 ==> |r.value| == Min(limit.value, |rows|)
    ensures r.Some? && limit.Some? && limit.value < 0 ==> |r.value| == Max(|rows| + limit.value, 0)
  {
    if forall i :: 0 <= i < |rows| ==> "SiteCode" !in rows[i] then None
    else
      var column := seq(|rows|, i requires 0 <= i < |rows| => SiteCodeOf(rows[i]));
      if limit.Some? && limit.value != 0 then Some(column[..SliceEnd(|column|, limit.value)])
      else Some(column)
  }

  /** With the default limit of 5 and ten sensors that all have a site code,
      exactly the first five codes come back, in their original order. */
  lemma FirstFiveOfTen(rows: seq<Record>)
    requires |rows| == 10 && forall i :: 0 <= i < 10 ==> "SiteCode" in rows[i]
    ensures GetSiteCodes(rows, Some(5)) == Some(seq(5, i requires 0 <= i < 5 => rows[i]["SiteCode"]))
  {
    var r := GetSiteCodes(rows, Some(5));
    assert "SiteCode" in rows[0];
    assert |r.value| == 5;
    assert forall i :: 0 <= i < 5 ==> r.value[i] == rows[i]["SiteCode"];
    assert r.value == seq(5, i requires 0 <= i < 5 => rows[i]["SiteCode"]);
  }

  // ----------------------------------------------------------------- main

  /** What main returns: the rows, the sample of site codes and the file
      name, or `(None, None, None)`. `StillFetching` means that the trace
      ended while the fetch would still retry. */
  datatype MainResult =
    | Listed(rows: seq<Record>, siteCodes: seq<Option<string>>, outputFile: string)
    | NothingListed
    | StillFetching

  /** main's result and the CSV file it wrote, if any. */
  datatype MainRun = MainRun(result: MainResult, written: Option<Csv<Record>>)

  /** main: get the key, fetch, flatten, write the CSV (to the given name
      when it is truthy, else to the generated `sensor_data_<time>.csv`),
      then take the site-code sample. Any exception on the way, the missing
      key and APILimitExceeded included, gives `(None, None, None)`; a
      missing `SiteCode` column fails only after the CSV is written. */
  function RunMain(providedKey: Option<string>, envKey: Option<string>, startTime: real,
                trace: seq<Attempt<seq<seq<Record>>>>, outputFile: Option<string>,
                generatedName: string, siteCodeLimit: Option<int>): (m: MainRun)
    ensures GetApiKey(providedKey, envKey).MissingKey? ==> m == MainRun(NothingListed, None)
    ensures GetApiKey(providedKey, envKey).Key? ==>
              var f := Fetch(startTime, trace).result;
              (f.LimitExceeded? || f.RequestFailed? ==> m == MainRun(NothingListed, None)) &&
              (f.Unfinished? ==> m == MainRun(StillFetching, None)) &&
              (f.Ok? ==> m.written == Some(Csv(if Truthy(outputFile) then outputFile.value else generatedName,
                                               Flatten(f.json))))
    ensures GetApiKey(providedKey, envKey).Key? && Fetch(startTime, trace).result.Ok? ==>
              var rows := Flatten(Fetch(startTime, trace).result.json);
              (m.result.NothingListed? <==> GetSiteCodes(rows, siteCodeLimit).None?) &&
              (m.result.Listed? <==> GetSiteCodes(rows, siteCodeLimit).Some?) &&
              (m.result.Listed? ==> m.result.rows == rows)
    ensures m.result.Listed? ==>
              m.written == Some(Csv(m.result.outputFile, m.result.rows)) &&
              Some(m.result.siteCodes) == GetSiteCodes(m.result.rows, siteCodeLimit)
    ensures m.result.NothingListed? && m.written.Some? ==> GetSiteCodes(m.written.value.rows, siteCodeLimit).None?
  {
    match GetApiKey(providedKey, envKey)
    case MissingKey => MainRun(NothingListed, None)
    case Key(_) =>
      match Fetch(startTime, trace).result
      case Ok(json) =>
        var rows := ProcessSensorData(json);
        var file := if Truthy(outputFile) then outputFile.value else generatedName;
        var codes := GetSiteCodes(rows, siteCodeLimit);
        if codes.None? then MainRun(NothingListed, Some(Csv(file, rows)))
        else MainRun(Listed(rows, codes.value, file), Some(Csv(file, rows)))
      case Unfinished => MainRun(StillFetching, None)
      case _ => MainRun(NothingListed, None)
  }

  /** main lists something exactly when a key is found, the fetch succeeds
      and some fetched sensor has a site code; every failure before that,
      APILimitExceeded included, gives `(None, None, None)` and no file. */
  lemma MainListsExactly(providedKey: Option<string>, envKey: Option<string>, startTime: real,
                         trace: seq<Attempt<seq<seq<Record>>>>, outputFile: Option<string>,
                         generatedName: string, siteCodeLimit: Option<int>)
    ensures var m := RunMain(providedKey, envKey, startTime, trace, outputFile, generatedName, siteCodeLimit);
            var f := Fetch(startTime, trace).result;
            (m.result.Listed? <==>
               (Truthy(providedKey) || Truthy(envKey)) && f.Ok? &&
               exists x :: x in Flatten(f.json) && "SiteCode" in x) &&
            (f.LimitExceeded? ==> m == MainRun(NothingListed, None))
  {
    var m := RunMain(providedKey, envKey, startTime, trace, outputFile, generatedName, siteCodeLimit);
    var f := Fetch(startTime, trace).result;
    if (Truthy(providedKey) || Truthy(envKey)) && f.Ok? {
      var rows := Flatten(f.json);
      if exists x :: x in rows && "SiteCode" in x {
        var x :| x in rows && "SiteCode" in x;
        var i :| 0 <= i < |rows| && rows[i] == x;
        assert "SiteCode" in rows[i];
      }
    }
  }
}
