# Breathe London data scripts, modelled in Dafny

These scripts fetch air-quality data from the Breathe London HTTP API and write it to CSV. This project models the decision logic in them. The network, the clock, the environment and pandas are replaced by plain inputs.

- **Sensor list** (`main/breathe_london_api_list_sensors.py`, with an older copy at `breathe_london_api_list_sensors.py`):
  - `get_api_key` picks the API key.
  - `fetch_sensor_data` fetches the sensor list. It retries after a timeout until 30 seconds of wall-clock time have passed.
  - `process_sensor_data` flattens the nested reply into rows.
  - `get_site_codes` takes a sample of site codes with Python slice semantics.
  - `main` turns every failure into `(None, None, None)`.
- **Clarity data** (`main/breathe_london_api_clarity_data.py`):
  - `get_clarity_data` builds the request URL, with spaces in the times written as `%20`. A non-200 reply or an exception gives `None`.
  - `main` visits every (site, species) pair, site by site. It skips a failing pair and tags every kept row with its species and with `mod_datetime` = `DateTime` + 1 hour. It then concatenates the tables in visiting order.

Modules:

- `Common` (`common.dfy`): Python's `None`, string truthiness, and list-of-lists concatenation.
- `ListSensors` (`list_sensors.dfy`): the main/ copy of the sensor-list script.
- `ListSensorsRoot` (`list_sensors_root.dfy`): the root copy's retry loop. That copy has no `attempt` counter. Its `get_api_key`, `process_sensor_data`, `get_site_codes` and `main` follow the same rules as the main/ copy, so the `ListSensors` members model them too. Some rows below cite the root copy's lines for that reason.
- `ClarityData` (`clarity_data.dfy`): the Clarity script.

**The fetch as a state machine.** A fetch takes a start time and a finite trace of attempts. Each attempt has an outcome (`Success(json)`, `Timeout` or `OtherError(message)`) and the clock reading taken when it ended.
- A timeout is retried only when its elapsed time is at most 30 s. The comparison is a strict `> 30`, so exactly 30 s is still retried.
- The budget is checked only after a timeout. A success that arrives after 30 s is still returned.
- A non-timeout error fails at once, with no retry, as `RequestFailed("API request failed: …")`. That failure is distinct from `LimitExceeded`.
- `Unfinished` means the trace ran out while the loop would still retry.

`RunFrom` is the specification function, and both `FetchSensorData` methods are proved equal to it. The main/ copy's `attempt` counter ends at one more than the number of retried timeouts.

**Behaviour of the code that the model keeps:**
- The 30-second budget is checked only after a timeout, so a success that arrives after 30 s is still returned (`SuccessAfterTimeouts`).
- `raise_for_status` accepts every status below 400, not only 200. `Success` stands for that case.
- If the sensor reply has no row with a `SiteCode` (an empty reply, for one), `df['SiteCode']` raises `KeyError` after the CSV has been written. `main` then returns `(None, None, None)` and the file stays on disk (`ListSensors.RunMain`).
- In the Clarity script, a 200 reply whose table has no `DateTime` column (an empty list, for one) raises `KeyError` outside the `try` in `get_clarity_data`. So `main` stops with an exception (`Crashed`) instead of skipping the pair.
- A JSON `null` is not a missing field. A record with `"DateTime": null` still gives the table a `DateTime` column (NaT), so the pair is kept. A `"SiteCode": null` in some record still gives a `SiteCode` column, and its cells in the sample are the missing value.
- The Clarity `main` also reads `df_all.SiteCode` before writing the CSV. When no collected record has a `SiteCode` field, that raises AttributeError, which is not caught. So no file is written and the result is again `Crashed`.
- The sensor-list `main` ignores an empty output name (`if not output_file`). The Clarity `main` replaces the name only when it `is None`.
- An unset `API_KEY` in the Clarity script is written into the URL as the text `None`.

## Model

| member | source | states |
|---|---|---|
| `Common.Flatten` | main/breathe_london_api_list_sensors.py:61 | the flat list is as long as all the inner lists together |
| `Common.FlattenAppend` | main/breathe_london_api_clarity_data.py:60 | concatenating the outer list concatenates the flattened results, so tables keep their input order |
| `Common.FlattenAtAll` | breathe_london_api_list_sensors.py:40 | every inner list appears whole and in order in the flat list, starting at the total length of the lists before it |
| `Common.FlattenMember` | breathe_london_api_list_sensors.py:39-41 | an item is in the flat list if and only if it is in one of the inner lists: nothing is dropped, deduplicated or invented |
| `ListSensors.GetApiKey` | main/breathe_london_api_list_sensors.py:18-32 | a truthy provided key is returned unchanged; otherwise a truthy environment key; a configuration error exactly when both are `None` or empty; a returned key is never empty |
| `ListSensors.ProvidedKeyIgnoresEnvironment` | breathe_london_api_list_sensors.py:11-21 | with a truthy provided key, the environment value makes no difference to the result |
| `ListSensors.Decide` | main/breathe_london_api_list_sensors.py:43-57 | an attempt that ends the loop gives `Ok` if and only if it succeeded (with its JSON), `LimitExceeded` if and only if it is a timeout past 30 s, and the generic `RequestFailed` with the "API request failed: " message if and only if it is another request error |
| `ListSensors.RunFrom` | main/breathe_london_api_list_sensors.py:40-57 | the loop stops at the first attempt that is not a timeout within the budget; every earlier attempt was one; that attempt decides the result; `Unfinished` exactly when no attempt stops it |
| `ListSensors.FetchSensorData` | main/breathe_london_api_list_sensors.py:34-57 | the retry loop returns the specified result, and the final `attempt` is the number of retried timeouts plus one: the deciding attempt is attempt k+1 after k timeouts |
| `ListSensors.FetchFirstDecisive` | main/breathe_london_api_list_sensors.py:40-46 | after n retried timeouts, the next attempt alone decides the fetch, as request n+1 |
| `ListSensors.SuccessAfterTimeouts` | main/breathe_london_api_list_sensors.py:40-51 | n timeouts within 30 s followed by a success return that success after exactly n+1 requests, however late the success arrives |
| `ListSensors.TimeoutPastBudget` | breathe_london_api_list_sensors.py:27-35 | a timeout more than 30 s after the start, after only retried timeouts, ends the fetch with `LimitExceeded`, whatever would have followed |
| `ListSensors.OtherErrorFailsAtOnce` | main/breathe_london_api_list_sensors.py:55-57 | a non-timeout error fails the fetch at once with the generic failure, whatever the clock reads, and is never retried |
| `ListSensors.FetchAppend` | main/breathe_london_api_list_sensors.py:43-46 | once an attempt has decided the fetch, later attempts are never consumed; while the fetch is undecided, later attempts are handled as a fresh fetch |
| `ListSensors.ProcessSensorData` | main/breathe_london_api_list_sensors.py:59-64 | the rows are the inner lists concatenated in order: the total length, with each inner list at its offset |
| `ListSensors.GetSiteCodes` | main/breathe_london_api_list_sensors.py:66-72 | a missing `SiteCode` column gives an error if and only if no row has the field; otherwise the site codes come in row order, and there are all of them for `None` or 0, min(limit, n) of them for a positive limit, and max(n + limit, 0) of them for a negative limit |
| `ListSensors.SiteCodeOf` | main/breathe_london_api_list_sensors.py:68 | a row's cell in the `SiteCode` column is a value if and only if the record has that field with a non-`null` value; a `null` and an absent field both give the missing value |
| `ListSensors.SliceEnd` | main/breathe_london_api_list_sensors.py:71 | `[:k]` keeps k items when k ≥ 0 and there are that many, otherwise all; a negative k drops the last -k items, or all of them when there are fewer |
| `ListSensors.FirstFiveOfTen` | breathe_london_api_list_sensors.py:43-45 | with limit 5 and ten sensors, the result is exactly the first five site codes in order |
| `ListSensors.RunMain` | main/breathe_london_api_list_sensors.py:74-98 | a missing key, `LimitExceeded` or a request failure gives `(None, None, None)` and no file; a successful fetch writes the flattened rows to the given name, or to the generated one when the given name is falsy; after a successful fetch the result is `(None, None, None)` if and only if the table has no `SiteCode` column (the file stays written), and otherwise it is the flattened rows with their site-code sample and the file name |
| `ListSensors.MainListsExactly` | breathe_london_api_list_sensors.py:47-69 | `main` lists something if and only if a key is found, the fetch succeeds and some fetched sensor has a site code; `LimitExceeded` gives `(None, None, None)` with no file |
| `ListSensorsRoot.FetchSensorData` | breathe_london_api_list_sensors.py:23-37 | the root copy's loop, which has no attempt counter, returns the same specified result as the main/ copy |
| `ListSensorsRoot.SuccessEndsFetch` | breathe_london_api_list_sensors.py:29-31 | a success after retried timeouts is returned, and no later attempt can change that |
| `ClarityData.EncodeSpaces` | main/breathe_london_api_clarity_data.py:23-24 | the encoded text has no space; its length grows by two per space; it holds only characters of the input and of `%20` |
| `ClarityData.DecodeEncodeSpaces` | main/breathe_london_api_clarity_data.py:23-24 | for text without `%`, reading `%20` back as a space returns the input: every space is encoded and every other character is kept in place |
| `ClarityData.EncodeSpacesIdentity` | main/breathe_london_api_clarity_data.py:23-24 | text without spaces is left unchanged |
| `ClarityData.ClarityUrlRoundTrip` | main/breathe_london_api_clarity_data.py:19-25 | parsing the URL gives back site code, species, encoded start, encoded end and averaging as the path segments in that order, and the key as the `key` query, when no field holds `/` or `?` |
| `ClarityData.ClarityUrlShape` | main/breathe_london_api_clarity_data.py:19-25 | the URL starts with the getClarityData base and ends with `?key=` and the key; since both times are encoded, no space follows the base unless the site code, species, averaging period or key has one |
| `ClarityData.GetClarityData` | main/breathe_london_api_clarity_data.py:21-39 | the pair's records are returned if and only if the reply to its URL has status 200; any other status or any exception gives `None` |
| `ClarityData.TagFrame` | main/breathe_london_api_clarity_data.py:52-54 | every record of the pair's table is kept in place, with the pair's species and `mod_datetime` = `DateTime` + 3600 s; a `null` or absent `DateTime` gives a missing `mod_datetime` |
| `ClarityData.PairFramesRaises` | main/breathe_london_api_clarity_data.py:47-57 | the loop over the pairs (`PairFrames`, one `Visit` per pair) raises `KeyError` if and only if some pair's 200 reply has no `DateTime` column; otherwise `df_list` holds exactly one table per pair whose request succeeded |
| `ClarityData.WindowQuery` | main/breathe_london_api_clarity_data.py:42-45 | the window's end text is `now` rendered, and its start text is the time `days`·86400 s before `now`, rendered the same way; the averaging period, key and server pass through unchanged |
| `ClarityData.MainOutcome` | main/breathe_london_api_clarity_data.py:59-73 | a file is written if and only if the result is the combined table, and then it holds exactly the concatenated tables; `None` if and only if no table was collected; a crash if and only if `KeyError` was raised or the combined table has no `SiteCode` column |
| `ClarityData.PairsAt` | main/breathe_london_api_clarity_data.py:48-50 | pairs are visited site-major: pair (i, j) comes at position i·\|species\| + j |
| `ClarityData.PairFramesAppend` | main/breathe_london_api_clarity_data.py:47-60 | the tables from a sequence of pairs are those of its first part followed by those of its second part; a `KeyError` in either part ends the run |
| `ClarityData.FailedPairSkipped` | main/breathe_london_api_clarity_data.py:50-57 | a failing pair adds no table, and the pairs after it are handled as if it were absent |
| `ClarityData.OneGoodOneFailing` | main/breathe_london_api_clarity_data.py:48-60 | one successful pair and one failing pair, in either order, give only the successful pair's rows, tagged with its species |
| `ClarityData.AllPairsFail` | main/breathe_london_api_clarity_data.py:56-57 | when every pair fails, no table is collected |
| `ClarityData.AllFailNoFile` | main/breathe_london_api_clarity_data.py:59-73 | when every pair fails, `main` returns `None` and writes no file |
| `ClarityData.CombinedRows` | main/breathe_london_api_clarity_data.py:51-55 | a row is in the combined table if and only if it is a record of some successful pair, tagged with that pair's species and with `mod_datetime` = `DateTime` + 3600 s |
| `ClarityData.FramesNonEmpty` | main/breathe_london_api_clarity_data.py:51-55 | every table kept in `df_list` has at least one row |
| `ClarityData.NoDataMeansNoRows` | main/breathe_london_api_clarity_data.py:59-73 | `main` reports no data if and only if no row was collected |
| `ClarityData.KeyErrorEndsMain` | main/breathe_london_api_clarity_data.py:52 | once a 200 reply without a `DateTime` column raises, no later pair can change the outcome |
| `ClarityData.CollectClarityData` | main/breathe_london_api_clarity_data.py:41-73 | with the window from `now` − `days`·86400 s to `now`, the nested loop gives one of three outcomes: the concatenated tagged tables, written to the given or generated file; `None` with no file when no table was kept; or an uncaught `KeyError` (`DateTime`) or AttributeError (`SiteCode`) before any file is written |
| `ClarityData.SiteCodeColumnFromReplies` | main/breathe_london_api_clarity_data.py:59-68 | the combined table has a `SiteCode` column if and only if some successful pair's reply has a record with that field, so main fails before writing exactly when none does |

## Left out

- Network I/O (`requests.get`, `raise_for_status`, `response.json`): each fetch attempt is an abstract outcome in a trace. The Clarity server is a function from URL to reply. The 10-second per-request timeout only decides when an outcome is a `Timeout`.
- Clock and sleeping (`time.time`, `time.sleep(1)`): clock readings are inputs (reals). They need not be non-decreasing, because the rule never relies on that. The one-second pause is not modelled.
- A retry loop that never ends: a trace is finite, and running out of it is the `Unfinished` result.
- The ListSensors request URL (a fixed endpoint with `?key=` appended): the trace of outcomes stands in for the request, so the key does not reach the fetch model.
- pandas: tables are sequences of records (field name to text, `None` for a JSON `null`). pandas fills a field a record lacks with NaN and keeps a `null` as `None`. The model gives both the same missing value, in `SiteCodeOf` and in `mod_datetime`, so the sample list and the table do not tell them apart. A `null` field and an absent field do still differ for whether a column exists. `pd.to_datetime` is not modelled, because timestamps are already integer seconds. An unparsable `DateTime` is not modelled. A reply field that is itself named `species` or `mod_datetime`, and so would be overwritten, is not modelled either.
- The JSON shape: the sensor reply is taken to be a list of lists of records, and the Clarity reply a list of records.
- Environment and configuration (`load_dotenv`, `os.getenv`): the provided and environment keys are `Option<string>` inputs.
- Output names and time text: the generated file names and the `strftime` rendering of the window ends are inputs.
- Writing files: a written CSV is a value (file name and rows). A failure of `to_csv` itself is not modelled.
- CollectClarityData: the limits of Python's `datetime` are not modelled. `timedelta(days=days)` raises OverflowError when |`days`| exceeds 999,999,999, or when the start falls before year 1. The model's timestamps are unbounded integers, so every `days` gives a window.
- Logging, `print`, argparse and the `__main__` blocks: presentation only.
