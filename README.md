# VAYU AI dashboard front-end: verified model of its decision logic

VAYU AI's dashboard is a Streamlit front-end for an air-quality monitoring
backend. Almost all of it is rendering. This project models the parts that
make decisions, as pure Dafny functions, and proves properties about them:

- **The backend client** (`api_client.dfy`, module `ApiClient`). It covers
  request construction (base URL plus endpoint, device-scoped paths, query
  parameters in order). It covers the uniform "API Error: " wrapping of
  transport failures, error statuses and undecodable bodies. It covers the
  list accessors that default to `[]`. And it covers the resilient
  aggregation. That operation asks the composite dashboard endpoint first. On
  any failure it falls back to three narrower calls: sensor history with
  limit 1, control status, and logs with limit 10. From those it builds a
  fixed-shape partial view with `system_health.status = "partial_data"`. If
  one of those three calls fails, the whole operation fails with
  "Failed to aggregate data: ". HTTP is an oracle, `Backend = Request -> Reply`.
  Every operation returns a `Call`: its result plus the ordered trace of
  requests it sent.
- **The formatting helpers** (`formatters.dfy`, module `Formatters`): the PM2.5
  to AQI band and colour, the confidence bucket, the risk-level colour, and
  text truncation. Python's slice semantics are kept, including negative
  bounds. The three threshold chains (AQI, confidence and, in
  `status_cards.dfy`, risk) are each proved equal to one reference step
  function, `StepsPassed`, which counts the thresholds a value has passed
  (for the risk level, when a peak is forecast; without one the risk is
  always LOW). Monotonicity follows from an inductive lemma about that
  function.
- **The status-card decisions** (`status_cards.dfy`, module `StatusCards`):
  the risk level of a prediction, card colours, label lookup with fallback
  to the raw key, and the texts chosen from booleans. The HTML is dropped.
- **The CO2 colour rule** of the metric row (`metrics.dfy`, module `Metrics`).
- `constants.dfy` transcribes the thresholds, colours and lookup tables.
  `json.dfy` holds the JSON value type, with Python's type names and
  truthiness. `wrappers.dfy` holds `Option` and `Result`.

Python exceptions are modelled as `Result.Err`. Besides `ApiError`, the
client can raise Python-level exceptions inside the fallback's
`except Exception`. These are `.get` on a body that is not an object
(AttributeError), `history[0]` on a non-empty object (KeyError) and on a
truthy number or boolean (TypeError); a non-empty string yields its first
character and raises nothing. They are modelled too,
with the text Python gives them, because the fallback wraps them like any
other failure.

Two behaviours of the code a reader might not expect:

- The status check rejects only statuses 400 to 599 (`IsErrorStatus`), not
  every status outside 2xx. A 1xx or 3xx reply with a decodable body is a
  success.
- A list accessor returns whatever is stored under its key, even `null`. The
  empty list is returned only when the key is absent.

## Model

| member | source | states |
|---|---|---|
| ApiClient.NewClient | services/api_client.py:17-19 | the base URL is BACKEND_URL when set and "http://localhost:8000" otherwise; the timeout is 10 |
| ApiClient.Message | services/api_client.py:29 | an `ApiError`'s text is "API Error: " followed by the cause; an aggregation failure's text is "Failed to aggregate data: " followed by the wrapped exception's text |
| ApiClient.Normalise | services/api_client.py:21-49 | a call succeeds exactly when the reply is a non-error status with a decodable body, and then returns that body unchanged; every other outcome is an `ApiError` whose message starts with "API Error: " and carries the cause: the transport's for a failure to reach the backend, the status error's for a 4xx or 5xx, the decoder's for an undecodable body |
| ApiClient.Url | services/api_client.py:23 | the request URL is the base URL followed by the endpoint, and both can be read back from it |
| ApiClient.DeviceScopedUrl | services/api_client.py:57-106 | a device-scoped URL ends with the device id after the fixed prefix, so distinct devices never share a URL |
| ApiClient.ClearOverrideUrl | services/api_client.py:104-106 | clearing an override is a DELETE on the override prefix followed by the device id, and the URL determines the device |
| ApiClient.HealthCheck | services/api_client.py:52-54 | sends exactly one GET to base URL + "/health" and returns the normalised reply |
| ApiClient.GetDashboardData | services/api_client.py:57-62 | sends exactly one GET to base URL + "/api/v1/dashboard/data/" + device id and returns the normalised reply |
| ApiClient.GetAnalytics | services/api_client.py:74-76 | sends exactly one GET to base URL + "/api/v1/dashboard/analytics/" + device id with the hours parameter (24 by default) and returns the normalised reply |
| ApiClient.GetSensorStatus | services/api_client.py:79-81 | sends exactly one GET to base URL + "/api/v1/sensor/status/" + device id and returns the normalised reply |
| ApiClient.GetControlStatus | services/api_client.py:89-91 | sends exactly one GET to base URL + "/api/v1/control/status/" + device id and returns the normalised reply |
| ApiClient.SetControlOverride | services/api_client.py:93-102 | sends exactly one POST to base URL + "/api/v1/control/override" with no JSON body and the parameters device_id, fan_on, fan_intensity, and returns the normalised reply |
| ApiClient.ClearControlOverride | services/api_client.py:104-106 | sends exactly one DELETE to base URL + "/api/v1/control/override/" + device id and returns the normalised reply |
| ApiClient.GetDevices | services/api_client.py:64-67 | sends exactly one GET to the device registry; fails exactly when it fails or the body is not an object; otherwise returns the value under "devices", or `[]` when absent |
| ApiClient.GetBlockchainLogs | services/api_client.py:69-72 | sends exactly one GET to the log endpoint with the limit parameter (20 by default); fails exactly when it fails or the body is not an object; otherwise the value under "logs", or `[]` |
| ApiClient.GetSensorHistory | services/api_client.py:83-86 | sends exactly one GET to base URL + "/api/v1/sensor/history/" + device id with the limit parameter (50 by default); fails exactly when it fails or the body is not an object; otherwise the value under "readings", or `[]` |
| ApiClient.DefaultArguments | services/api_client.py:69-83 | without an explicit argument, the logs limit is 20, the history limit 50 and the analytics window 24 hours |
| ApiClient.OverrideNotClamped | services/api_client.py:93-102 | setting an override sends one POST with no JSON body and exactly the parameters device_id, fan_on, fan_intensity, in that order, with the intensity unclamped |
| ApiClient.ListField | services/api_client.py:64-86 | `.get(key, [])` returns the value under the key, `[]` when absent, and raises AttributeError exactly when the body is not an object |
| ApiClient.ListCallSpec | services/api_client.py:64-86 | the shared accessor sends one request; it fails exactly when that request fails or the body is not an object, and otherwise returns the keyed value or `[]` |
| ApiClient.NoDevicesIsNotAnError | services/api_client.py:64-67 | a device list that is empty or missing gives an empty result, not an error |
| ApiClient.FirstOrNone | services/api_client.py:121-122 | the current reading is null for a falsy history and the first element of a non-empty list; a list history never raises |
| ApiClient.Fallback | services/api_client.py:119-144 | the fallback starts with the history request with limit 1, sends at most three requests, sends all three when it succeeds, and every failure is an aggregation failure |
| ApiClient.GetAggregatedDashboardData | services/api_client.py:109-117 | the composite endpoint is always asked first; when it succeeds it is the only request |
| ApiClient.AggregatePrimarySucceeds | services/api_client.py:114-116 | a working composite endpoint's payload is returned unchanged and no fallback request is sent |
| ApiClient.AggregateFallbackOrder | services/api_client.py:117-128 | after a composite failure of any kind, the requests sent are a prefix of: composite, history with limit 1, control status, logs with limit 10; at least the history call is made, and all four when the result is a success |
| ApiClient.FallbackIgnoresPrimaryFailure | services/api_client.py:117-119 | the fallback outcome depends only on the three narrower calls, not on how the composite call failed |
| ApiClient.AggregateFallbackView | services/api_client.py:119-142 | for any history shape, when the three narrower calls succeed and the first entry can be taken, the view is the seven-key partial view: the current reading as taken (null for a falsy history), control status and logs as returned, null prediction and classification, empty faults, status "partial_data" |
| ApiClient.AggregateFallbackViewOfList | services/api_client.py:121-142 | for a list history the current reading is its first entry, or null for an empty list |
| ApiClient.AggregateFallbackFailure | services/api_client.py:119-144 | the first failing narrower call ends the operation with "Failed to aggregate data: " wrapping that call's exception and no partial view; later calls are not sent |
| ApiClient.AggregateSucceedsIff | services/api_client.py:109-144 | the aggregation succeeds exactly when the composite call succeeds or all three narrower calls do |
| Json.TypeName | services/api_client.py:67 | the Python type name of a decoded value is "dict" exactly for objects, "list" exactly for arrays, "str" exactly for strings and "NoneType" exactly for null |
| Json.FalsyValues | services/api_client.py:122 | a decoded value is falsy exactly when it is null, false, 0, 0.0, the empty string, the empty list or the empty object |
| Formatters.StepsPassed | utils/formatters.py:33-44 | the number of thresholds a value has passed is at most their count; it equals the count exactly when all are passed, and is zero exactly when none are |
| Formatters.StepsPassedMonotone | utils/formatters.py:33-44 | a larger value never passes fewer thresholds |
| Formatters.AqiCategory | utils/formatters.py:22-44 | the result is one of the six bands; a reading is "Good" exactly when at most 12.0 (negatives included), "Hazardous" exactly when above 250.5, and gets the danger colour exactly when above 55.5 |
| Formatters.AqiBandIndex | utils/formatters.py:33-44 | the band index of a reading is one of the six band positions |
| Formatters.AqiCategoryIsBand | utils/formatters.py:33-44 | the threshold chain equals the step function over the five inclusive upper bounds of utils/constants.py:9-13; the reading lies within its band's bounds |
| Formatters.AqiCategoryMonotone | utils/formatters.py:33-44 | for a <= b, the band of a is no worse than the band of b |
| Formatters.AqiBoundsInclusive | utils/constants.py:9-13 | each upper bound (12.0, 35.5, 55.5, 150.5, 250.5) falls in its own band |
| Formatters.GetRiskColorAsWritten | utils/formatters.py:47-56 | as written, every call raises NameError for COLOR_INFO |
| Formatters.RiskColor | utils/formatters.py:47-56 | intended lookup: success colour exactly for LOW in any case, warning exactly for MEDIUM, danger exactly for HIGH, info for everything else |
| Formatters.UpperChar | utils/formatters.py:56 | a lower-case ASCII letter becomes the capital at the same alphabet position; every other character is unchanged; no result is a lower-case letter |
| Formatters.Upper | utils/formatters.py:56 | upper-casing keeps the length and raises each ASCII letter |
| Formatters.UpperEqualsUpperCaseWord | utils/formatters.py:56 | upper-casing a text gives an upper-case word exactly when the text equals that word ignoring case |
| Formatters.ConfidenceEmoji | utils/formatters.py:59-66 | "[High]" exactly for c >= 0.8, "[Medium]" exactly for 0.5 <= c < 0.8, "[Low]" exactly for c < 0.5 |
| Formatters.ConfidenceEmojiMonotone | utils/formatters.py:59-66 | the bucket is the step function over 0.5 and 0.8 with inclusive bounds, so it is monotone in the confidence |
| Formatters.TruncateText | utils/formatters.py:69-73 | a text within the bound is unchanged; a longer text with a non-negative bound becomes its first max_length characters plus "...", of length max_length + 3; every truncated result ends in "..." |
| Formatters.SliceTo | utils/formatters.py:73 | Python's `text[:m]` is a prefix of the text, of length m clipped to the text for m >= 0, and of length len + m clipped at zero for m < 0 |
| Formatters.TruncateDefaultBound | utils/formatters.py:69-73 | without a bound argument, the bound is 100 |
| Formatters.TruncateIdempotent | utils/formatters.py:69-73 | for max_length >= 0, truncating twice gives the same text as truncating once |
| Formatters.TruncateBounded | utils/formatters.py:72-73 | for max_length >= 0 the result is at most max_length + 3 long, and is the text itself or a prefix of it plus "..." |
| Formatters.TruncateNegativeBound | utils/formatters.py:70-73 | a negative bound always truncates and drops the last -max_length characters before appending "..." |
| StatusCards.RiskLevel | components/status_cards.py:48-53 | HIGH exactly when will_peak and confidence > 0.7; MEDIUM exactly when will_peak and 0.4 < confidence <= 0.7; LOW exactly otherwise, so will_peak = False always gives LOW |
| StatusCards.RiskLevelMonotone | components/status_cards.py:48-53 | for a peak forecast, the risk is the step function over the strict thresholds 0.4 and 0.7, so more confidence never lowers the risk |
| StatusCards.RiskThresholdsStrict | components/status_cards.py:48-51 | a confidence of exactly 0.7 is MEDIUM and exactly 0.4 is LOW |
| StatusCards.PeakLine | components/status_cards.py:61 | the estimated-peak line is shown exactly when a non-zero value is given, so absent and 0.0 both omit it |
| StatusCards.PredictionCardAsWritten | components/status_cards.py:42-56 | as written, the prediction card always raises the NameError of the risk-colour lookup |
| StatusCards.PredictionCard | components/status_cards.py:42-65 | with the intended colours the card is danger exactly for HIGH risk, warning exactly for MEDIUM, success exactly for LOW; it shows the risk level of `RiskLevel`, the confidence bucket, "Yes" exactly when will_peak, the estimated peak exactly when it is truthy, and the reasoning as given |
| StatusCards.LookupLabel | components/status_cards.py:102 | a label lookup (here and at line 73) gives the table's label for a known key and the raw key itself for an unknown one |
| StatusCards.KnownLabels | utils/constants.py:32-49 | each of the six air types and the five fault types gets its transcribed label, these are all the keys of the two tables, and an unknown air type is shown raw |
| StatusCards.ClassificationCard | components/status_cards.py:68-83 | the colour is success exactly when air_type is "clean" and info otherwise; the label is the looked-up air type; the status is the confidence bucket; the reasoning is shown as given |
| StatusCards.SeverityColor | components/status_cards.py:94-100 | "high" gives the danger colour; "low", "medium" and any unknown severity give the warning colour |
| StatusCards.FaultCard | components/status_cards.py:86-112 | the card is the healthy success card exactly when has_fault is false; a fault card has the severity colour, the looked-up fault label, the upper-cased severity, the details as given, and the affected-sensor line, holding the upper-cased sensor, exactly when a non-empty sensor is given |
| StatusCards.CardDefaults | components/status_cards.py:42-125 | without the optional arguments (estimated_peak, affected_sensor, is_override) the prediction card shows no estimated peak, the fault card no affected sensor, and the control card the automatic mode |
| StatusCards.HealthyCardIgnoresArguments | components/status_cards.py:90-92 | without a fault the card is the same whatever the other arguments are |
| StatusCards.ControlCard | components/status_cards.py:115-125 | the colour is success and the text "ON" exactly when fan_on; the mode is "Manual Override" exactly when is_override; the intensity is shown as given |
| Metrics.Co2Color | components/metrics.py:51 | the CO2 card is the warning colour exactly above 1000 ppm, and the info colour otherwise |

## Left out

- HTTP transport: `requests.get/post/delete` and the 10-second timeout. Timeout expiry is simply another `Unreachable` reply from the backend oracle. The status check and JSON decoding are reduced to the reply's status, error text and decoded-or-not body. The exact text of the transport's exceptions comes from the oracle.
- Environment loading (`load_dotenv`, `os.getenv`) and the module-level client instance: `NewClient` takes the BACKEND_URL value as a parameter.
- ApiClient.Normalise: assumes requests 2.27 or later, where a body that fails to decode raises a `RequestException` subclass and is wrapped as "API Error: ". With older versions that ValueError escapes the client unwrapped; the model does not cover that.
- ApiClient.DeviceScopedUrl: proves that distinct ids give distinct URL strings. The transport's URL preparation (percent-encoding, fragments after `#`) can still send two distinct ids to the same resource; that is not modelled.
- Query-string encoding of parameters (e.g. how a boolean is spelled): the model keeps the parameter list the client passes, in order. JSON object key order is not modelled; objects are maps.
- The backend's own behaviour: whether a limit of 0 yields no readings, and whether setting then clearing an override restores the previous control state. The client only forwards these calls, so the model states what it sends and returns, not what the backend does.
- All Streamlit rendering, CSS, navigation and pages; `components/charts.py` and `components/alerts.py`; the auto-refresh loop.
- `format_timestamp` and `format_sensor_value`, plus the percentage and `.1f` formatting inside the cards: they are date parsing and float-to-text formatting.
- Floating point: thresholds and inputs are exact `real` numbers. A value of exactly 0.7 or 12.0 behaves as the float literal does; NaN, which Python treats as truthy and which fails every comparison, is not modelled.
- Formatters.UpperChar: raises ASCII letters only; Python's `str.upper()` also raises non-ASCII lower-case letters, which this member leaves unchanged. See the next line.
- Formatters.Upper: models `str.upper()` on ASCII letters only. Unicode case mappings such as dotless ı or ß, which Python also upper-cases, are not modelled. `RiskColor` and the severity and affected-sensor texts of `FaultCard` inherit this.

## Findings

| source | as written | input that shows it | evidently intended | confidence | as-written member | corrected member |
|---|---|---|---|---|---|---|
| utils/formatters.py:56 | the default colour of the risk lookup names COLOR_INFO, which the function neither imports nor finds as a module global; the default is evaluated before the lookup, so every call raises NameError, and so does the prediction card (components/status_cards.py:55) | any risk level, e.g. "LOW" | LOW, MEDIUM and HIGH in any case map to the success, warning and danger colours, anything else to the info colour | high; not executed | Formatters.GetRiskColorAsWritten | Formatters.RiskColor |
