/**
  The decision logic of the `/predict` endpoint: reject an empty body with
  400, read three fields with defaults, compute a clamped mock churn
  probability, bucket it into a risk level, pick a recommendation, and turn
  every exception raised on the way into a 500 reply.
 */
module PredictHandler {
  import opened PyJson

  /** What `request.get_json()` produced: nothing, a raised error, or a value. */
  datatype Body = Absent | Unreadable | Given(json: Json)

  datatype Risk = Low | Medium | High

  /** Why the handler's `try` block raised. */
  datatype Failure =
    | BodyUnreadable              // get_json itself raised
    | NotAnObject(body: Json)     // truthy body without `.get` (AttributeError)
    | ChargesNotNumeric(charges: Json)  // `charges / 100` raised a TypeError
    | TenureNotNumeric(tenure: Json)    // `tenure / 100` raised a TypeError

  /** The outcome of one call, before it is rendered as JSON. */
  datatype Response =
    | BadRequest
    | Failed(why: Failure)
    | Ok(customerId: Json, prob: real, risk: Risk, rec: string)

  /** A reply: HTTP status code and JSON body. */
  datatype Reply = Reply(status: int, body: Json)

  const MinProb: real := 0.05
  const MaxProb: real := 0.95
  const HighAbove: real := 0.7
  const MediumAbove: real := 0.4

  const DefaultCustomerId: Json := JStr("unknown")
  const DefaultTenure: Json := JNum(12.0)
  const DefaultCharges: Json := JNum(50.0)

  const RetentionOffer: string := "Engage with retention offer"
  const MonitorCustomer: string := "Monitor customer"
  const NoDataProvided: string := "No data provided"
  const PredictionFailed: string := "prediction_failed"

  /** Python's two-argument `max` and `min` on numbers. */
  function Max(a: real, b: real): real { if b > a then b else a }
  function Min(a: real, b: real): real { if b < a then b else a }

  /** `min(0.95, max(0.05, x))`: x itself inside the band, else the nearer bound. */
  function Clamp(x: real): (p: real)
    ensures MinProb <= p <= MaxProb
    ensures MinProb <= x <= MaxProb ==> p == x
    ensures x < MinProb ==> p == MinProb
    ensures x > MaxProb ==> p == MaxProb
  {
    Min(MaxProb, Max(MinProb, x))
  }

  /** The unclamped mock score `charges / 100 - tenure / 100`. */
  function RawScore(tenure: real, charges: real): real {
    charges / 100.0 - tenure / 100.0
  }

  /** The nested conditional expression that buckets a probability. */
  function RiskOf(p: real): (r: Risk)
    ensures r == High <==> p > HighAbove
    ensures r == Medium <==> MediumAbove < p <= HighAbove
    ensures r == Low <==> p <= MediumAbove
  {
    if p > HighAbove then High else if p > MediumAbove then Medium else Low
  }

  function Label(r: Risk): string {
    match r
    case High => "high"
    case Medium => "medium"
    case Low => "low"
  }

  function Recommendation(r: Risk): (rec: string)
    ensures rec == RetentionOffer <==> r == High
    ensures rec == MonitorCustomer <==> r != High
  {
    if Label(r) == "high" then RetentionOffer else MonitorCustomer
  }

  /** A key that is absent (default applies) or holds something `/` accepts. */
  predicate UsableNumber(fields: map<string, Json>, key: string) {
    key !in fields || AsNumber(fields[key]).Some?
  }

  /** The number the arithmetic sees for `key`, the default when absent. */
  function NumberOr(fields: map<string, Json>, key: string, default: real): real
    requires UsableNumber(fields, key)
  {
    if key in fields then AsNumber(fields[key]).value else default
  }

  /** Whether the handler gets past every raise point to the 200 path. */
  predicate Predictable(body: Body) {
    && body.Given?
    && Truthy(body.json)
    && body.json.JObj?
    && UsableNumber(body.json.fields, "tenure_months")
    && UsableNumber(body.json.fields, "monthly_charges")
  }

  /** The `try` block of `predict`, with its `except` turned into Failed. */
  function Predict(body: Body): (r: Response)
    // 400 exactly for a missing or falsy body
    ensures r.BadRequest? <==> body.Absent? || (body.Given? && !Truthy(body.json))
    // 200 exactly when no step raises; 500 in every other case
    ensures r.Ok? <==> Predictable(body)
    ensures r.Failed? <==> !r.BadRequest? && !Predictable(body)
    ensures body.Unreadable? ==> r == Failed(BodyUnreadable)
    ensures body.Given? && Truthy(body.json) && !body.json.JObj? ==> r == Failed(NotAnObject(body.json))
    // charges / 100 is evaluated before tenure / 100
    ensures body.Given? && Truthy(body.json) && body.json.JObj? && !UsableNumber(body.json.fields, "monthly_charges")
      ==> r == Failed(ChargesNotNumeric(body.json.fields["monthly_charges"]))
    ensures body.Given? && Truthy(body.json) && body.json.JObj? && UsableNumber(body.json.fields, "monthly_charges")
      && !UsableNumber(body.json.fields, "tenure_months")
      ==> r == Failed(TenureNotNumeric(body.json.fields["tenure_months"]))
    // on the 200 path: echo, clamp, thresholds and recommendation
    ensures r.Ok? ==>
      var fields := body.json.fields;
      var raw := RawScore(NumberOr(fields, "tenure_months", 12.0), NumberOr(fields, "monthly_charges", 50.0));
      && r.customerId == (if "customer_id" in fields then fields["customer_id"] else DefaultCustomerId)
      && MinProb <= r.prob <= MaxProb
      && (MinProb <= raw <= MaxProb ==> r.prob == raw)
      && (raw < MinProb ==> r.prob == MinProb)
      && (raw > MaxProb ==> r.prob == MaxProb)
      && (r.risk == High <==> r.prob > HighAbove)
      && (r.risk == Medium <==> MediumAbove < r.prob <= HighAbove)
      && (r.risk == Low <==> r.prob <= MediumAbove)
      && (r.rec == RetentionOffer <==> r.risk == High)
      && (r.rec == MonitorCustomer <==> r.risk != High)
  {
    match body
    case Absent => BadRequest
    case Unreadable => Failed(BodyUnreadable)
    case Given(data) =>
      if !Truthy(data) then BadRequest
      else if !data.JObj? then Failed(NotAnObject(data))
      else
        var customerId := GetOr(data.fields, "customer_id", DefaultCustomerId);
        var tenure := GetOr(data.fields, "tenure_months", DefaultTenure);
        var charges := GetOr(data.fields, "monthly_charges", DefaultCharges);
        match AsNumber(charges)
        case None => Failed(ChargesNotNumeric(charges))
        case Some(c) =>
          match AsNumber(tenure)
          case None => Failed(TenureNotNumeric(tenure))
          case Some(t) =>
            var p := Clamp(RawScore(t, c));
            var risk := RiskOf(p);
            Ok(customerId, p, risk, Recommendation(risk))
  }

  // ---------------------------------------------------------------------
  // Echoing the result: `round(churn_probability, 3)` and the JSON bodies

  /** `x` is a whole number of thousandths. */
  predicate Thousandths(x: real) {
    (x * 1000.0).Floor as real == x * 1000.0
  }

  /** `x` lies exactly halfway between two multiples of 0.001. */
  predicate IsTie(x: real) {
    x * 1000.0 - (x * 1000.0).Floor as real == 0.5
  }

  /** The integer nearest to `y`, a tie going to the even one. */
  function RoundHalfEven(y: real): (k: int)
    ensures -0.5 <= k as real - y <= 0.5
    ensures y.Floor as real == y ==> k as real == y
    ensures y - y.Floor as real == 0.5 ==> k % 2 == 0
  {
    var n := y.Floor;
    var frac := y - n as real;
    if frac < 0.5 then n else if frac > 0.5 then n + 1 else if n % 2 == 0 then n else n + 1
  }

  /**
    `round(x, 3)` on the exact value: the nearest multiple of 0.001, a tie
    going to the even multiple.
   */
  function Round3(x: real): (r: real)
    ensures Thousandths(r)
    ensures -0.0005 <= r - x <= 0.0005
    ensures Thousandths(x) ==> r == x
    ensures IsTie(x) ==> (r * 1000.0).Floor % 2 == 0
  {
    var k := RoundHalfEven(x * 1000.0);
    assert (k as real / 1000.0) * 1000.0 == k as real;
    assert (k as real).Floor == k;
    k as real / 1000.0
  }

  /** Rounding to thousandths never leaves the clamp band, whose ends are thousandths. */
  lemma RoundStaysInBand(p: real)
    requires MinProb <= p <= MaxProb
    ensures MinProb <= Round3(p) <= MaxProb
  {
    var r := Round3(p);
    var k := (r * 1000.0).Floor;
    assert r == k as real / 1000.0;
    assert 49.5 <= k as real <= 950.5;
  }

  function UsageJson(): Json {
    JObj(map[
      "method" := JStr("POST"),
      "content_type" := JStr("application/json"),
      "body" := JObj(map[
        "customer_id" := JStr("string"),
        "tenure_months" := JStr("integer"),
        "monthly_charges" := JStr("float")])])
  }

  function ModelJson(): Json {
    JObj(map[
      "name" := JStr("churn-predictor-v1"),
      "type" := JStr("demo"),
      "note" := JStr("This is a simulated prediction for demonstration purposes")])
  }

  /**
    The reply Flask sends for a response.  `now` is the ISO-8601 UTC clock
    reading and `errorText` the exception's `str(e)`, both supplied from
    outside.
   */
  function Render(r: Response, now: string, errorText: string): (reply: Reply)
    ensures r.BadRequest? ==>
      && reply.status == 400
      && Field(reply.body, "error") == Some(JStr(NoDataProvided))
      && Field(reply.body, "usage") == Some(UsageJson())
      && HasKeys(reply.body, {"error", "usage"})
    ensures r.Failed? ==>
      && reply.status == 500
      && HasKeys(reply.body, {"error", "status"})
      && Field(reply.body, "status") == Some(JStr(PredictionFailed))
      && Field(reply.body, "error") == Some(JStr(errorText))
    ensures r.Ok? ==>
      && reply.status == 200
      && HasKeys(reply.body, {"prediction", "model", "timestamp"})
      && HasKeys(Field(reply.body, "prediction").value,
                 {"customer_id", "churn_probability", "risk_level", "recommendation"})
      && Field(reply.body, "timestamp") == Some(JStr(now))
      && Field(reply.body, "model") == Some(ModelJson())
      && Echoed(reply, "customer_id") == Some(r.customerId)
      && Echoed(reply, "churn_probability") == Some(JNum(Round3(r.prob)))
      && Echoed(reply, "risk_level") == Some(JStr(Label(r.risk)))
      && Echoed(reply, "recommendation") == Some(JStr(r.rec))
  {
    match r
    case BadRequest =>
      Reply(400, JObj(map["error" := JStr(NoDataProvided), "usage" := UsageJson()]))
    case Failed(_) =>
      Reply(500, JObj(map["error" := JStr(errorText), "status" := JStr(PredictionFailed)]))
    case Ok(id, p, risk, rec) =>
      Reply(200, SuccessJson(PredictionJson(id, Round3(p), Label(risk), rec), now))
  }

  /** The `prediction` object of a 200 reply. */
  function PredictionJson(id: Json, shown: real, level: string, rec: string): (j: Json)
    ensures Field(j, "customer_id") == Some(id)
    ensures Field(j, "churn_probability") == Some(JNum(shown))
    ensures Field(j, "risk_level") == Some(JStr(level))
    ensures Field(j, "recommendation") == Some(JStr(rec))
    ensures HasKeys(j, {"customer_id", "churn_probability", "risk_level", "recommendation"})
  {
    JObj(map[
      "customer_id" := id,
      "churn_probability" := JNum(shown),
      "risk_level" := JStr(level),
      "recommendation" := JStr(rec)])
  }

  /** The whole body of a 200 reply. */
  function SuccessJson(prediction: Json, now: string): (j: Json)
    ensures Field(j, "prediction") == Some(prediction)
    ensures Field(j, "model") == Some(ModelJson())
    ensures Field(j, "timestamp") == Some(JStr(now))
    ensures HasKeys(j, {"prediction", "model", "timestamp"})
  {
    JObj(map["prediction" := prediction, "model" := ModelJson(), "timestamp" := JStr(now)])
  }

  /** `j` is an object whose keys are exactly `keys`. */
  predicate HasKeys(j: Json, keys: set<string>) {
    j.JObj? && j.fields.Keys == keys
  }

  /** A field of the reply's `prediction` object. */
  function Echoed(reply: Reply, key: string): Option<Json> {
    match Field(reply.body, "prediction")
    case Some(prediction) => Field(prediction, key)
    case None => None
  }

  /** The whole endpoint: decide, then render. */
  function Handle(body: Body, now: string, errorText: string): (reply: Reply)
    ensures reply.status == 400 || reply.status == 500 || reply.status == 200
    ensures reply.status == 400 <==> body.Absent? || (body.Given? && !Truthy(body.json))
    ensures reply.status == 200 <==> Predictable(body)
    ensures reply.status == 400 ==>
      && Field(reply.body, "error") == Some(JStr(NoDataProvided))
      && Field(reply.body, "usage") == Some(UsageJson())
      && HasKeys(reply.body, {"error", "usage"})
    ensures reply.status == 500 ==>
      && HasKeys(reply.body, {"error", "status"})
      && Field(reply.body, "status") == Some(JStr(PredictionFailed))
      && Field(reply.body, "error") == Some(JStr(errorText))
    ensures reply.status == 200 ==>
      && HasKeys(reply.body, {"prediction", "model", "timestamp"})
      && HasKeys(Field(reply.body, "prediction").value,
                 {"customer_id", "churn_probability", "risk_level", "recommendation"})
      && Field(reply.body, "timestamp") == Some(JStr(now))
      && Field(reply.body, "model") == Some(ModelJson())
      && Echoed(reply, "churn_probability").Some?
      && Echoed(reply, "churn_probability").value.JNum?
      && MinProb <= Echoed(reply, "churn_probability").value.n <= MaxProb
      && Thousandths(Echoed(reply, "churn_probability").value.n)
      && Echoed(reply, "risk_level") in {Some(JStr("high")), Some(JStr("medium")), Some(JStr("low"))}
      && (Echoed(reply, "recommendation") == Some(JStr(RetentionOffer))
          <==> Echoed(reply, "risk_level") == Some(JStr("high")))
      && (Echoed(reply, "recommendation") == Some(JStr(MonitorCustomer))
          <==> Echoed(reply, "risk_level") != Some(JStr("high")))
    // what is echoed is the decision of Predict, the probability rounded only for display
    ensures reply.status == 200 ==>
      var r := Predict(body);
      && Echoed(reply, "customer_id") == Some(r.customerId)
      && Echoed(reply, "risk_level") == Some(JStr(Label(r.risk)))
      && Echoed(reply, "churn_probability") == Some(JNum(Round3(r.prob)))
      && -0.0005 <= Echoed(reply, "churn_probability").value.n - r.prob <= 0.0005
  {
    var r := Predict(body);
    if r.Ok? then
      RoundStaysInBand(r.prob);
      Render(r, now, errorText)
    else
      Render(r, now, errorText)
  }
}
