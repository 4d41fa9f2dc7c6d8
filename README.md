# SalesConnect API: the `/predict` decision logic

The SalesConnect demo service answers `POST /predict` with a mock churn
prediction. The handler works in four steps:

- It rejects a falsy JSON body (`None`, `{}`, `[]`, `""`, `0`, `false`) with 400 "No data provided".
- It reads `customer_id`, `tenure_months` and `monthly_charges`, with the defaults "unknown", 12 and 50.0.
- It computes `min(0.95, max(0.05, charges/100 - tenure/100))` and buckets the result into "low", "medium" or "high".
- It recommends a retention offer for "high" and monitoring otherwise.

Any exception raised along the way becomes a 500 reply with
`"status": "prediction_failed"`.

The model has three modules:

- `PyJson` (`pyjson.dfy`) models the parsed body as a JSON value. It also covers the bits of Python the handler relies on:
  - truthiness (`if not data`);
  - `dict.get` with a default;
  - which values `/ 100` accepts: ints, floats and bools, since `bool` is an `int` in Python.
- `PredictHandler` (`predict.dfy`) is the handler. `Predict` maps the outcome of `get_json` (`Body`) to a `Response`:
  - `BadRequest`;
  - `Failed`, with the reason the `try` block raised;
  - `Ok`, carrying the echoed customer id, the clamped unrounded probability, the risk and the recommendation.

  `Render` turns a `Response` into the status and JSON body, including `round(p, 3)` for the echoed probability. `Handle` composes the two.
- `PredictScenarios` (`scenarios.dfy`) holds properties that relate several calls or fix inputs: the falsy bodies, the defaults, worked examples, the exact range of the probability, and the rounding boundary.

Two consequences of the code are easy to miss:

- A body of `{}` is falsy, so it gets 400. No default prediction is made.
- A truthy object without the numeric keys gets 0.5 - 0.12 = 0.38. That is "low" (0.38 <= 0.4), not "medium".

Inputs that come from outside are parameters of `Render` and `Handle`:

- `now` is the UTC timestamp.
- `errorText` is the text of the caught exception, `str(e)`.
- `Body` stands for what Flask's `request.get_json()` produced:
  - `Absent`: it returned None. In Python this is the same `None` as a body of JSON `null`, `Given(JNull)`, and both get 400.
  - `Unreadable`: it raised. The raise happens inside the `try`, so the reply is 500. Which requests raise depends on the Flask/Werkzeug version, and the source pins none:
    - in every version, an empty or malformed body sent as JSON raises;
    - a request without a JSON content type gets None before Werkzeug 2.1 (`Absent`, 400) and raises from 2.1 on (`Unreadable`, 500).
  - `Given(v)`: it returned the value `v`.

`PyJson.GetOr` (`dict.get` with a default), `PyJson.Field`, `PredictHandler.PredictionJson` and `PredictHandler.SuccessJson` are bookkeeping helpers. They read or build JSON objects, and their facts are stated through the `Predict`, `Render` and `Handle` rows.

## Model

| member | source | states |
|---|---|---|
| PyJson.FalsyIffEmptyLiteral | app/src/main.py:75 | A JSON value fails `if not data` exactly when it is null, false, 0, "", [] or {} |
| PyJson.AsNumber | app/src/main.py:95 | the values `/ 100` accepts are exactly ints, floats and bools, with a bool counting as 0 or 1 (Python's `bool` is an `int`). None, str, list and dict are refused, which raises a TypeError and gives the 500 path. For every accepted value, truthiness agrees with "non-zero" |
| PredictHandler.Clamp | app/src/main.py:95 | `min(0.95, max(0.05, x))` lies in [0.05, 0.95], equals x inside that band, and equals the nearer bound outside it |
| PredictHandler.RiskOf | app/src/main.py:96 | "high" iff p > 0.7, "medium" iff 0.4 < p <= 0.7, "low" iff p <= 0.4 |
| PredictHandler.Recommendation | app/src/main.py:103 | the retention offer iff the risk is "high", "Monitor customer" iff it is not |
| PredictHandler.Predict | app/src/main.py:72-117 | 400 exactly for an absent or falsy body. 200 exactly for a truthy object whose tenure and charges are absent or numeric. 500 otherwise, with the reason in Python's evaluation order: get_json failed, no `.get`, charges checked before tenure. On 200: customer_id echoed or "unknown"; probability in [0.05, 0.95] and equal to charges/100 - tenure/100 (defaults 12 and 50.0) inside the band, else the nearer bound; risk thresholds on the unrounded value; recommendation iff "high" |
| PredictHandler.RoundHalfEven | app/src/main.py:101 | the integer chosen is within 1/2 of the scaled value, is that value when it is already whole, and is even on an exact tie (how `round` resolves halves) |
| PredictHandler.Round3 | app/src/main.py:101 | the echoed value is a whole number of thousandths, within 0.0005 of the input, unchanged if already in thousandths, and even on a tie |
| PredictHandler.RoundStaysInBand | app/src/main.py:95-101 | rounding a probability from the band to thousandths keeps it in [0.05, 0.95] |
| PredictHandler.Render | app/src/main.py:75-117 | 400 with error "No data provided" and the fixed `usage` object; 500 with `status` "prediction_failed" and the exception text; 200 with the timestamp, the fixed `model` object and a `prediction` object that echoes the id, the rounded probability, the risk label and the recommendation. Each body has exactly these keys and no others |
| PredictHandler.Handle | app/src/main.py:66-117 | the status is always 400, 500 or 200. 400 iff the body is missing or falsy; 200 iff `Predictable`. Each body has exactly its source keys. The 400 body carries "No data provided" and the fixed `usage` object; the 500 body carries "prediction_failed" and the exception text; the 200 body carries the timestamp and the fixed `model` object. On 200 the echoed id and risk label are those `Predict` decided. The echoed probability is `round(p, 3)` of the value that set the risk: a thousandths value in [0.05, 0.95], within 0.0005 of it, the risk label is one of the three, and the recommendation is the offer iff the label is "high" |
| PredictScenarios.FalsyBodyIsBadRequest | app/src/main.py:75-87 | null, false, 0, "", [] and {} all get 400 "No data provided" and no prediction |
| PredictScenarios.DefaultsGiveLow | app/src/main.py:90-96 | a truthy object without tenure and charges gives 0.38, "low", "Monitor customer", and echoes its customer_id or "unknown" |
| PredictScenarios.HighRiskExample | app/src/main.py:90-103 | customer c1 with tenure 1 and charges 95 gives 0.94, "high" and the retention offer; 0.94 is echoed |
| PredictScenarios.ClampedLowExample | app/src/main.py:95-96 | tenure 100 and charges 1 give raw -0.99, clamped to 0.05, "low" |
| PredictScenarios.PresentNonNumberFails | app/src/main.py:91-117 | a tenure or charges key that is present with a value `/` rejects gives 500 "prediction_failed", never a default |
| PredictScenarios.NonObjectFails | app/src/main.py:90-117 | a truthy body that is not an object gives 500 (AttributeError on `.get`) |
| PredictScenarios.ProbabilityRangeIsBand | app/src/main.py:95 | a probability is produced on the 200 path iff it lies in [0.05, 0.95] (every value in the band is reached) |
| PredictScenarios.EveryRiskReachable | app/src/main.py:96 | each of "low", "medium" and "high" is produced by some body |
| PredictScenarios.TieEchoedEven | app/src/main.py:95-101 | charges 6.25 with tenure 0 give exactly 0.0625, which is echoed half-even as 0.062 |
| PredictScenarios.EchoedThresholdCanReadHigh | app/src/main.py:96-101 | the risk uses the unrounded value, so a reply can echo 0.7 next to "high" although 0.7 itself buckets as "medium" |

## Left out

- The other routes: `root`, `health` and `info` build constant or configuration-echo payloads, and `not_found` and `server_error` are fixed error payloads. There is nothing in them to decide.
- Reading the clock (`datetime.utcnow()`) and the interpreter's exception text: both are parameters of `Render` and `Handle`.
- Reading `ENVIRONMENT` and `PORT` at start-up, the `python --version` subprocess, and the start-up prints and `app.run`: process I/O.
- Flask routing, `jsonify` and the JSON parsing inside `request.get_json`: framework code. Only its three outcomes are modelled, as `Body`.
- PredictHandler.Round3: rounds the exact real value, not the nearest binary double as Python's `round` does. Values that are not exactly representable may round differently near a tie.
- Binary floating point: numbers are exact reals. So the model does not cover NaN and infinities (which Python's JSON parser accepts), the `OverflowError` of a huge int divided by 100, or float rounding in `charges/100 - tenure/100`. That rounding can change the bucket at a threshold. Take tenure 40 and charges 110: the model computes exactly 1.1 - 0.4 = 0.7 and answers "medium". Python computes `1.1 - 0.4 == 0.7000000000000001` and answers "high".
- The wording of exception messages: a failure carries its kind (`Failure`). The text that Python would produce is not modelled.
