/**
 * The two prediction endpoints of src/api/server.py around their machine
 * learning models: `predict_rent` (the mapping of display names to model
 * codes and the fixed fallbacks) and `predict_churn` (the rule-based
 * fallback and the rent burden of `TenantFeatures.to_df`). A model is
 * either absent or a function whose result None stands for a prediction
 * that raises.
 */
module Predictions {
  import opened Wrappers
  import opened Numbers

  // ---------------------------------------------------------------- rent

  datatype PropertyFeatures = PropertyFeatures(neighborhood: string, propertyClass: string,
                                               unitType: string, sqft: int)

  /** The request defaults. */
  const DefaultFeatures := PropertyFeatures("Tribeca", "Class A (Luxury)", "Studio", 850)

  /** The model's class code: "A" if the text has an 'A', else "B" if it has a 'B', else "C". */
  function ClassCode(text: string): (c: string)
    ensures c == "A" || c == "B" || c == "C"
  {
    if 'A' in text then "A" else if 'B' in text then "B" else "C"
  }

  /** The model's unit-type code: "1BD" if the text has a '1', else "2BD" if it has a '2', else "Studio". */
  function TypeCode(text: string): (c: string)
    ensures c == "1BD" || c == "2BD" || c == "Studio"
  {
    if '1' in text then "1BD" else if '2' in text then "2BD" else "Studio"
  }

  datatype RentModel = NoRentModel | RentModel(predict: (string, string, string, int) -> Option<real>)

  /** The rent when the model raises: 3500, plus 1500 in Tribeca, plus 1000 for exactly "Class A (Luxury)". */
  function FallbackRent(f: PropertyFeatures): int {
    3500 + (if f.neighborhood == "Tribeca" then 1500 else 0)
         + (if f.propertyClass == "Class A (Luxury)" then 1000 else 0)
  }

  /** `predict_rent`: 4500 without a model, the truncated prediction, or the fallback. */
  function PredictRent(f: PropertyFeatures, model: RentModel): (v: int)
    ensures model.NoRentModel? ==> v == 4500
    ensures model.RentModel? && model.predict(f.neighborhood, ClassCode(f.propertyClass), TypeCode(f.unitType), f.sqft).None?
            ==> v == FallbackRent(f)
    ensures model.RentModel? && model.predict(f.neighborhood, ClassCode(f.propertyClass), TypeCode(f.unitType), f.sqft).Some?
            ==> v == Trunc(model.predict(f.neighborhood, ClassCode(f.propertyClass), TypeCode(f.unitType), f.sqft).value)
  {
    match model
    case NoRentModel => 4500
    case RentModel(predict) =>
      match predict(f.neighborhood, ClassCode(f.propertyClass), TypeCode(f.unitType), f.sqft)
      case Some(p) => Trunc(p)
      case None => FallbackRent(f)
  }

  /** The display names of the dashboard map as intended, except "3BD", which becomes "Studio". */
  lemma CodeExamples()
    ensures ClassCode("Class A (Luxury)") == "A"
    ensures ClassCode("Class B") == "B"
    ensures ClassCode("Class C") == "C"
    ensures TypeCode("1BD") == "1BD" && TypeCode("2BD") == "2BD"
    ensures TypeCode("3BD") == "Studio"
  {
    assert "Class A (Luxury)"[6] == 'A';
    assert "Class B"[6] == 'B';
    assert 'A' !in "Class B";
    assert 'A' !in "Class C" && 'B' !in "Class C";
    assert '1' in "1BD";
    assert '1' !in "2BD" && '2' in "2BD";
    assert '1' !in "3BD" && '2' !in "3BD";
  }

  /** The fallback takes one of four values; the request defaults give the largest. */
  lemma FallbackValues(f: PropertyFeatures)
    ensures FallbackRent(f) in {3500, 4500, 5000, 6000}
    ensures FallbackRent(DefaultFeatures) == 6000
  {
  }

  /**
   * The fallback compares the class text exactly while the model mapping
   * tests for a letter: "Class A" is class "A" for the model but earns no
   * Class A premium in the fallback.
   */
  lemma FallbackIgnoresShortClassName(n: string, t: string, s: int)
    ensures ClassCode("Class A") == "A"
    ensures FallbackRent(PropertyFeatures(n, "Class A", t, s)) == 3500 + (if n == "Tribeca" then 1500 else 0)
  {
    assert "Class A"[6] == 'A';
  }

  // ---------------------------------------------------------------- churn

  datatype TenantFeatures = TenantFeatures(income: int, creditScore: int, marketRent: int, sqft: int,
                                           unitType: string, propertyClass: string, neighborhood: string)

  /** `to_df`: rent over monthly income, 0 when the income is 0. */
  function ToDfBurden(f: TenantFeatures): real {
    if f.income != 0 then f.marketRent as real / (f.income as real / 12.0) else 0.0
  }

  datatype ChurnLevel = High | Medium | Low

  datatype Churn = Churn(probability: real, level: ChurnLevel)

  /** A loaded churn model: the probability of churn for the features and the `to_df` burden. */
  datatype ChurnModel = NoChurnModel | ChurnModel(proba: (TenantFeatures, real) -> Option<real>)

  /** The fallback score: 0.2, plus 0.4 for credit below 650, plus 0.3 for a burden above 0.4. */
  function FallbackRisk(creditScore: int, burden: real): real {
    0.2 + (if creditScore < 650 then 0.4 else 0.0) + (if burden > 0.4 then 0.3 else 0.0)
  }

  /** The response for a fallback score: capped at 0.95, High above 0.5, Low otherwise. */
  function ChurnOf(risk: real): Churn {
    Churn(if risk < 0.95 then risk else 0.95, if risk > 0.5 then High else Low)
  }

  /**
   * The fallback as the source writes it: the burden is divided out without
   * the zero-income guard of `to_df`, so an income of 0 raises
   * ZeroDivisionError inside the `except` handler.
   */
  function FallbackAsWritten(f: TenantFeatures): (r: Result<Churn, string>)
    ensures r.Err? <==> f.income == 0
  {
    if f.income == 0 then Err("division by zero")
    else Ok(ChurnOf(FallbackRisk(f.creditScore, f.marketRent as real / (f.income as real / 12.0))))
  }

  /**
   * The fallback with the burden of `to_df`: what the handler evidently
   * intends, defined for every income.
   */
  method ChurnFallback(f: TenantFeatures) returns (c: Churn)
    ensures c == ChurnOf(FallbackRisk(f.creditScore, ToDfBurden(f)))
  {
    var risk := 0.2;
    if f.creditScore < 650 {
      risk := risk + 0.4;
    }
    var rentBurden := ToDfBurden(f);
    if rentBurden > 0.4 {
      risk := risk + 0.3;
    }
    c := Churn(if risk < 0.95 then risk else 0.95, if risk > 0.5 then High else Low);
  }

  /**
   * `predict_churn`: 0.45/Medium without a model, the model's probability,
   * or, when the model raises, the fallback as written, which itself raises
   * at income 0 (the request then fails).
   */
  method PredictChurn(f: TenantFeatures, model: ChurnModel) returns (r: Result<Churn, string>)
    ensures model.NoChurnModel? ==> r == Ok(Churn(0.45, Medium))
    ensures model.ChurnModel? && model.proba(f, ToDfBurden(f)).Some? ==>
              var p := model.proba(f, ToDfBurden(f)).value;
              r == Ok(Churn(p, if p > 0.5 then High else Low))
    ensures model.ChurnModel? && model.proba(f, ToDfBurden(f)).None? ==> r == FallbackAsWritten(f)
    ensures r.Err? <==> model.ChurnModel? && model.proba(f, ToDfBurden(f)).None? && f.income == 0
    ensures r.Ok? && r.value.level == Medium ==> model.NoChurnModel?
  {
    if model.NoChurnModel? {
      return Ok(Churn(0.45, Medium));
    }
    var prediction := model.proba(f, ToDfBurden(f));
    if prediction.Some? {
      var p := prediction.value;
      r := Ok(Churn(p, if p > 0.5 then High else Low));
    } else {
      r := FallbackAsWritten(f);
    }
  }

  /** The fallback level is High exactly when the credit score is below 650, whatever the burden. */
  lemma FallbackHighIffLowCredit(creditScore: int, burden: real)
    ensures ChurnOf(FallbackRisk(creditScore, burden)).level == High <==> creditScore < 650
  {
  }

  /** A high burden alone scores exactly 0.5, which is not above the threshold. */
  lemma BurdenAloneIsHalf(creditScore: int, burden: real)
    requires creditScore >= 650 && burden > 0.4
    ensures ChurnOf(FallbackRisk(creditScore, burden)) == Churn(0.5, Low)
  {
  }

  /** The score never exceeds 0.9, so the 0.95 cap never applies. */
  lemma CapNeverApplies(creditScore: int, burden: real)
    ensures FallbackRisk(creditScore, burden) in {0.2, 0.5, 0.6, 0.9}
    ensures ChurnOf(FallbackRisk(creditScore, burden)).probability == FallbackRisk(creditScore, burden)
  {
  }

  /** An income of 0 makes the written fallback raise, for every credit score and rent. */
  lemma ZeroIncomeRaises(f: TenantFeatures)
    requires f.income == 0
    ensures FallbackAsWritten(f).Err?
  {
  }

  /**
   * Wherever the written fallback returns, the corrected one returns the
   * same; at income 0 the corrected one scores on credit alone.
   */
  lemma CorrectedFallbackAgrees(f: TenantFeatures)
    ensures f.income != 0 ==> FallbackAsWritten(f) == Ok(ChurnOf(FallbackRisk(f.creditScore, ToDfBurden(f))))
    ensures f.income == 0 ==> FallbackRisk(f.creditScore, ToDfBurden(f)) == FallbackRisk(f.creditScore, 0.0)
  {
  }
}
