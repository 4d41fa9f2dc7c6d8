/**
  Properties of the `/predict` endpoint that relate several calls or fix
  particular inputs: the falsy bodies, the defaults, worked examples, the
  range of the probability, and where the echoed value and the risk bucket
  can disagree.
 */
module PredictScenarios {
  import opened PyJson
  import opened PredictHandler

  /** An object body with the two numeric keys set. */
  function NumericBody(tenure: real, charges: real): Body {
    Given(JObj(map["tenure_months" := JNum(tenure), "monthly_charges" := JNum(charges)]))
  }

  /** Every falsy body, `{}` included, is answered 400 "No data provided". */
  lemma FalsyBodyIsBadRequest(v: Json, now: string, errorText: string)
    requires IsFalsyLiteral(v)
    ensures Predict(Given(v)) == BadRequest
    ensures Handle(Given(v), now, errorText).status == 400
    ensures Field(Handle(Given(v), now, errorText).body, "error") == Some(JStr(NoDataProvided))
  {
    FalsyIffEmptyLiteral(v);
  }

  /** A truthy object without the numeric keys scores 0.5 - 0.12 = 0.38: "low". */
  lemma DefaultsGiveLow(fields: map<string, Json>)
    requires |fields| > 0
    requires "tenure_months" !in fields && "monthly_charges" !in fields
    ensures Predict(Given(JObj(fields)))
      == Ok(GetOr(fields, "customer_id", DefaultCustomerId), 0.38, Low, MonitorCustomer)
  {
  }

  /** tenure 1, charges 95: 0.95 - 0.01 = 0.94, "high", the retention offer. */
  lemma HighRiskExample(now: string, errorText: string)
    ensures
      var body := Given(JObj(map["customer_id" := JStr("c1"), "tenure_months" := JNum(1.0),
                                 "monthly_charges" := JNum(95.0)]));
      && Predict(body) == Ok(JStr("c1"), 0.94, High, RetentionOffer)
      && Echoed(Handle(body, now, errorText), "churn_probability") == Some(JNum(0.94))
  {
  }

  /** tenure 100, charges 1: raw -0.99 is clamped up to 0.05, "low". */
  lemma ClampedLowExample()
    ensures Predict(NumericBody(100.0, 1.0)) == Ok(DefaultCustomerId, 0.05, Low, MonitorCustomer)
  {
  }

  /** A present key whose value `/` rejects leads to 500, never to the defaults. */
  lemma PresentNonNumberFails(fields: map<string, Json>, key: string, now: string, errorText: string)
    requires key == "tenure_months" || key == "monthly_charges"
    requires key in fields && AsNumber(fields[key]).None?
    ensures Predict(Given(JObj(fields))).Failed?
    ensures Handle(Given(JObj(fields)), now, errorText).status == 500
    ensures Field(Handle(Given(JObj(fields)), now, errorText).body, "status") == Some(JStr(PredictionFailed))
  {
  }

  /** A truthy body that is not an object has no `.get`: 500. */
  lemma NonObjectFails(v: Json, now: string, errorText: string)
    requires Truthy(v) && !v.JObj?
    ensures Predict(Given(v)) == Failed(NotAnObject(v))
    ensures Handle(Given(v), now, errorText).status == 500
  {
  }

  /** The 200-path probabilities are exactly the band [0.05, 0.95]. */
  lemma ProbabilityRangeIsBand(p: real)
    ensures (exists b :: Predict(b).Ok? && Predict(b).prob == p) <==> MinProb <= p <= MaxProb
  {
    if MinProb <= p <= MaxProb {
      var b := NumericBody(0.0, 100.0 * p);
      assert Predict(b).Ok? && Predict(b).prob == p;
    }
  }

  /** Each risk level, and so each recommendation, is reachable. */
  lemma EveryRiskReachable(risk: Risk)
    ensures exists b :: Predict(b).Ok? && Predict(b).risk == risk
  {
    var b := match risk
      case Low => NumericBody(0.0, 10.0)
      case Medium => NumericBody(0.0, 50.0)
      case High => NumericBody(0.0, 90.0);
    assert Predict(b).Ok? && Predict(b).risk == risk;
  }

  /**
    The bucket is taken from the unrounded probability, so a reply can echo
    `"churn_probability": 0.7` beside `"risk_level": "high"` (charges 70.04,
    tenure 0 give 0.7004), although 0.7 itself is "medium".
   */
  lemma EchoedThresholdCanReadHigh(now: string, errorText: string)
    ensures exists b ::
      && Echoed(Handle(b, now, errorText), "churn_probability") == Some(JNum(0.7))
      && Echoed(Handle(b, now, errorText), "risk_level") == Some(JStr("high"))
    ensures RiskOf(0.7) == Medium
  {
    var b := NumericBody(0.0, 70.04);
    assert Predict(b).prob == 0.7004;
    assert Round3(0.7004) == 0.7;
    assert Echoed(Handle(b, now, errorText), "churn_probability") == Some(JNum(0.7));
  }

  /** A tie is echoed half-even: charges 6.25 give 0.0625, shown as 0.062, not 0.063. */
  lemma TieEchoedEven(now: string, errorText: string)
    ensures Predict(NumericBody(0.0, 6.25)).prob == 0.0625
    ensures Echoed(Handle(NumericBody(0.0, 6.25), now, errorText), "churn_probability") == Some(JNum(0.062))
  {
    assert Round3(0.0625) == 0.062;
  }
}
