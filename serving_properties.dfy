/** What the /predict handler promises about the row it scores and the page it renders. */
module ServingProperties {
  import opened Frames
  import opened Numbers
  import opened Preprocessing
  import opened Serving
  import opened TransformProperties

  /** The defaults loop adds exactly the absent fields, each with its own default, and
      keeps every column it finds. */
  lemma {:induction false} WithDefaultsEffect(df: Frame, ds: seq<(string, string)>)
    requires df.Valid()
    requires forall j, k :: 0 <= j < k < |ds| ==> ds[j].0 != ds[k].0
    ensures forall c :: c in WithDefaults(df, ds).data <==> c in df.data || exists j :: 0 <= j < |ds| && ds[j].0 == c
    ensures forall c :: c in df.data ==> WithDefaults(df, ds).data[c] == df.data[c]
    ensures forall j :: 0 <= j < |ds| && ds[j].0 !in df.data ==>
      WithDefaults(df, ds).data[ds[j].0] == Repeat(Str(ds[j].1), df.rows)
    decreases |ds|
  {
    if ds != [] {
      var next := AddDefault(df, ds[0]);
      WithDefaultsEffect(next, ds[1..]);
      var r := WithDefaults(df, ds);
      assert r == WithDefaults(next, ds[1..]);
      forall c | c in r.data
        ensures c in df.data || exists j :: 0 <= j < |ds| && ds[j].0 == c
      {
        if c !in df.data && c != ds[0].0 {
          var k :| 0 <= k < |ds[1..]| && ds[1..][k].0 == c;
          assert ds[k + 1].0 == c;
        }
      }
      forall j | 0 <= j < |ds| && ds[j].0 !in df.data
        ensures r.data[ds[j].0] == Repeat(Str(ds[j].1), df.rows)
      {
        if j > 0 {
          assert ds[1..][j - 1] == ds[j];
        }
      }
      forall c | c in df.data || exists j :: 0 <= j < |ds| && ds[j].0 == c
        ensures c in r.data
      {
        if c !in df.data && c != ds[0].0 {
          var j :| 0 <= j < |ds| && ds[j].0 == c;
          assert ds[1..][j - 1].0 == c;
        }
      }
    }
  }

  /** Education, Property_Area and Self_Employed get Graduate, Semiurban and No only when
      the form leaves them out; every submitted field keeps its text. */
  lemma DefaultsOnlyWhenAbsent(form: Form)
    ensures forall c :: c in Defaulted(form).data <==> c in form || c in DefaultFields
    ensures forall k :: k in form ==> Defaulted(form).data[k] == [Str(form[k])]
    ensures forall j :: 0 <= j < |Defaults| && Defaults[j].0 !in form ==> Defaulted(form).data[Defaults[j].0] == [Str(Defaults[j].1)]
  {
    var df := FromForm(form);
    WithDefaultsEffect(df, Defaults);
    forall c ensures (exists j :: 0 <= j < |Defaults| && Defaults[j].0 == c) <==> c in DefaultFields {
      if c in DefaultFields {
        assert c == Defaults[0].0 || c == Defaults[1].0 || c == Defaults[2].0;
      }
    }
    forall j | 0 <= j < |Defaults| ensures Repeat(Str(Defaults[j].1), 1) == [Str(Defaults[j].1)] {
    }
  }

  /** The coercion loop fails exactly when a listed column is absent, with KeyError for
      the first absent one; otherwise each listed column is coerced cell by cell and
      every other column is kept. */
  lemma CoercedEffect(df: Frame, cols: seq<string>, rt: Runtime)
    requires df.Valid()
    requires forall j, k :: 0 <= j < k < |cols| ==> cols[j] != cols[k]
    ensures Coerced(df, cols, rt).Ok? <==> forall j :: 0 <= j < |cols| ==> cols[j] in df.data
    ensures forall j :: 0 <= j < |cols| && cols[j] !in df.data && (forall k :: 0 <= k < j ==> cols[k] in df.data) ==>
      Coerced(df, cols, rt) == Err(KeyError(cols[j]))
    ensures Coerced(df, cols, rt).Ok? ==> forall c :: c in Coerced(df, cols, rt).value.data <==> c in df.data
    ensures Coerced(df, cols, rt).Ok? ==> forall c :: c in df.data && c !in cols ==> Coerced(df, cols, rt).value.data[c] == df.data[c]
    ensures Coerced(df, cols, rt).Ok? ==> forall j :: 0 <= j < |cols| ==>
      Coerced(df, cols, rt).value.data[cols[j]] == CoerceColumn(df.data[cols[j]], rt)
  {
    CoercedOutcome(df, cols, rt);
    CoercedKeeps(df, cols, rt);
    CoercedColumns(df, cols, rt);
  }

  /** The coercion loop fails exactly when a listed column is absent, with KeyError for
      the first absent one. */
  lemma {:induction false} CoercedOutcome(df: Frame, cols: seq<string>, rt: Runtime)
    requires df.Valid()
    ensures Coerced(df, cols, rt).Ok? <==> forall j :: 0 <= j < |cols| ==> cols[j] in df.data
    ensures forall j :: 0 <= j < |cols| && cols[j] !in df.data && (forall k :: 0 <= k < j ==> cols[k] in df.data) ==>
      Coerced(df, cols, rt) == Err(KeyError(cols[j]))
    decreases |cols|
  {
    if cols != [] && cols[0] in df.data {
      var r := Coerced(df, cols, rt);
      var next := df.Set(cols[0], CoerceColumn(df.data[cols[0]], rt));
      CoercedOutcome(next, cols[1..], rt);
      assert r == Coerced(next, cols[1..], rt);
      assert forall j :: 1 <= j < |cols| ==> cols[1..][j - 1] == cols[j];
      forall j | 0 <= j < |cols| && cols[j] !in df.data && (forall k :: 0 <= k < j ==> cols[k] in df.data)
        ensures r == Err(KeyError(cols[j]))
      {
        assert cols[1..][j - 1] == cols[j];
        assert forall k :: 0 <= k < j - 1 ==> cols[1..][k] == cols[k + 1];
      }
    }
  }

  /** A successful coercion loop had every listed column, keeps the column names, and
      keeps every column it does not list. */
  lemma {:induction false} CoercedKeeps(df: Frame, cols: seq<string>, rt: Runtime)
    requires df.Valid()
    ensures Coerced(df, cols, rt).Ok? ==> forall j :: 0 <= j < |cols| ==> cols[j] in df.data
    ensures Coerced(df, cols, rt).Ok? ==> forall c :: c in Coerced(df, cols, rt).value.data <==> c in df.data
    ensures Coerced(df, cols, rt).Ok? ==> forall c :: c in df.data && c !in cols ==> Coerced(df, cols, rt).value.data[c] == df.data[c]
    decreases |cols|
  {
    var r := Coerced(df, cols, rt);
    if cols != [] && r.Ok? {
      var next := df.Set(cols[0], CoerceColumn(df.data[cols[0]], rt));
      CoercedKeeps(next, cols[1..], rt);
      assert r == Coerced(next, cols[1..], rt);
      assert forall j :: 1 <= j < |cols| ==> cols[1..][j - 1] == cols[j];
    }
  }

  /** A successful coercion loop over distinct columns coerces each listed column cell by
      cell. */
  lemma {:induction false} CoercedColumns(df: Frame, cols: seq<string>, rt: Runtime)
    requires df.Valid()
    requires forall j, k :: 0 <= j < k < |cols| ==> cols[j] != cols[k]
    ensures Coerced(df, cols, rt).Ok? ==> forall j :: 0 <= j < |cols| ==>
      && cols[j] in df.data && cols[j] in Coerced(df, cols, rt).value.data
      && Coerced(df, cols, rt).value.data[cols[j]] == CoerceColumn(df.data[cols[j]], rt)
    decreases |cols|
  {
    var r := Coerced(df, cols, rt);
    if cols != [] && r.Ok? {
      var next := df.Set(cols[0], CoerceColumn(df.data[cols[0]], rt));
      assert r == Coerced(next, cols[1..], rt);
      CoercedColumns(next, cols[1..], rt);
      CoercedKeeps(next, cols[1..], rt);
      forall j | 0 <= j < |cols|
        ensures cols[j] in df.data && cols[j] in r.value.data && r.value.data[cols[j]] == CoerceColumn(df.data[cols[j]], rt)
      {
        if j > 0 {
          assert cols[1..][j - 1] == cols[j];
          assert cols[j] != cols[0];
        } else {
          assert cols[0] !in cols[1..] by {
            forall k | 0 <= k < |cols[1..]| ensures cols[1..][k] != cols[0] {
              assert cols[1..][k] == cols[k + 1];
            }
          }
        }
      }
    }
  }

  lemma NumericColumnsDistinct()
    ensures forall j, k :: 0 <= j < k < |NumericColumns| ==> NumericColumns[j] != NumericColumns[k]
    ensures forall j :: 0 <= j < |NumericColumns| ==> NumericColumns[j] !in DefaultFields
  {
  }

  /** Each numeric field becomes its parsed number, or 0 when it does not parse (the
      empty text included); the other fields are unchanged. */
  lemma NumericFieldsCoerced(form: Form, rt: Runtime)
    requires forall j :: 0 <= j < |NumericColumns| ==> NumericColumns[j] in form
    ensures Coerced(Defaulted(form), NumericColumns, rt).Ok?
    ensures forall j :: 0 <= j < |NumericColumns| ==> NumericColumns[j] in Coerced(Defaulted(form), NumericColumns, rt).value.data
    ensures forall j :: 0 <= j < |NumericColumns| ==>
      var s := form[NumericColumns[j]];
      Coerced(Defaulted(form), NumericColumns, rt).value.data[NumericColumns[j]] ==
        [Num(if rt.parse(s).Some? then rt.parse(s).value else 0.0)]
  {
    var df := Defaulted(form);
    assert forall j :: 0 <= j < |NumericColumns| ==> NumericColumns[j] in df.data && df.data[NumericColumns[j]] == [Str(form[NumericColumns[j]])] by {
      DefaultsOnlyWhenAbsent(form);
    }
    NumericColumnsDistinct();
    CoercedEffect(df, NumericColumns, rt);
    var r := Coerced(df, NumericColumns, rt).value;
    forall j | 0 <= j < |NumericColumns|
      ensures var s := form[NumericColumns[j]];
        r.data[NumericColumns[j]] == [Num(if rt.parse(s).Some? then rt.parse(s).value else 0.0)]
    {
      var s := form[NumericColumns[j]];
      var col := CoerceColumn([Str(s)], rt);
      assert col == [CoerceCell(Str(s), rt)];
    }
  }

  /** A numeric field missing from the form ends the request with KeyError for the first
      missing one, before anything else is computed. */
  lemma AbsentNumericFieldFails(form: Form, stats: Stats, encoders: map<string, Encoder>, features: seq<string>,
                                model: Classifier, rt: Runtime, j: nat)
    requires j < |NumericColumns| && NumericColumns[j] !in form
    requires forall k :: 0 <= k < j ==> NumericColumns[k] in form
    ensures Pipeline(form, stats, encoders, features, model, rt) == Err(KeyError(NumericColumns[j]))
  {
    DefaultsOnlyWhenAbsent(form);
    NumericColumnsDistinct();
    CoercedEffect(Defaulted(form), NumericColumns, rt);
  }

  /** Gender and Married are neither defaulted nor coerced, so a form that lacks one
      of them gets past the coercion and the two float() calls and ends in transform's
      fill with KeyError for the first one missing. */
  lemma AbsentFilledFieldFails(form: Form, stats: Stats, encoders: map<string, Encoder>, features: seq<string>,
                               model: Classifier, rt: Runtime)
    requires forall j :: 0 <= j < |NumericColumns| ==> NumericColumns[j] in form
    requires "ApplicantIncome" in form && "LoanAmount" in form
    requires rt.parse(form["ApplicantIncome"]).Some? && rt.parse(form["LoanAmount"]).Some?
    ensures "Gender" !in form ==> Pipeline(form, stats, encoders, features, model, rt) == Err(KeyError("Gender"))
    ensures "Gender" in form && "Married" !in form ==>
      Pipeline(form, stats, encoders, features, model, rt) == Err(KeyError("Married"))
  {
    var numeric := CoercedFields(form, rt);
    FilledFieldsTransformed(form, stats, rt, numeric);
    assert FloatOf(form, "ApplicantIncome", 1.0, rt).Ok? && FloatOf(form, "LoanAmount", 0.0, rt).Ok?;
    if "Gender" !in form || "Married" !in form {
      PipelineAtTransform(form, stats, encoders, features, model, rt, numeric);
    }
  }

  /** A row that has Gender and Married exactly when the form has them transforms with
      KeyError for the first one the form lacks. */
  lemma FilledFieldsTransformed(form: Form, stats: Stats, rt: Runtime, numeric: Frame)
    requires numeric.Valid() && forall c :: c in numeric.data <==> c in form || c in DefaultFields
    ensures "Gender" !in form ==> Transformed(stats, numeric, rt) == Err(KeyError("Gender"))
    ensures "Gender" in form && "Married" !in form ==> Transformed(stats, numeric, rt) == Err(KeyError("Married"))
  {
    assert "Gender" !in DefaultFields && "Married" !in DefaultFields;
    TransformNeedsGenderFirst(stats, numeric, rt);
  }

  /** Once the coercion and the two float() calls succeed, a transform that raises ends
      the request with its exception. */
  lemma PipelineAtTransform(form: Form, stats: Stats, encoders: map<string, Encoder>, features: seq<string>,
                            model: Classifier, rt: Runtime, numeric: Frame)
    requires Coerced(Defaulted(form), NumericColumns, rt) == Ok(numeric) && numeric.Valid()
    requires FloatOf(form, "ApplicantIncome", 1.0, rt).Ok? && FloatOf(form, "LoanAmount", 0.0, rt).Ok?
    requires Transformed(stats, numeric, rt).Err?
    ensures Pipeline(form, stats, encoders, features, model, rt) == Err(Transformed(stats, numeric, rt).error)
  {
  }

  /** With every numeric field submitted, the coercion succeeds and keeps exactly the
      form's fields and the three defaults. */
  lemma CoercedFields(form: Form, rt: Runtime) returns (numeric: Frame)
    requires forall j :: 0 <= j < |NumericColumns| ==> NumericColumns[j] in form
    ensures Coerced(Defaulted(form), NumericColumns, rt) == Ok(numeric) && numeric.Valid()
    ensures forall c :: c in numeric.data <==> c in form || c in DefaultFields
  {
    DefaultsOnlyWhenAbsent(form);
    NumericColumnsDistinct();
    CoercedKeeps(Defaulted(form), NumericColumns, rt);
    CoercedOutcome(Defaulted(form), NumericColumns, rt);
    numeric := Coerced(Defaulted(form), NumericColumns, rt).value;
  }

  /** The income and the amount are parsed a second time from the raw form with float(),
      which does not coerce: a numeric field that the coercion turned into 0 still ends
      the request with ValueError, the income's before the amount's. */
  lemma RawFieldsReparsed(form: Form, stats: Stats, encoders: map<string, Encoder>, features: seq<string>,
                          model: Classifier, rt: Runtime)
    requires "ApplicantIncome" in form && "LoanAmount" in form
    requires forall j :: 0 <= j < |NumericColumns| ==> NumericColumns[j] in form
    ensures rt.parse(form["ApplicantIncome"]).None? ==>
      Pipeline(form, stats, encoders, features, model, rt) == Err(ValueError(form["ApplicantIncome"]))
    ensures rt.parse(form["ApplicantIncome"]).Some? && rt.parse(form["LoanAmount"]).None? ==>
      Pipeline(form, stats, encoders, features, model, rt) == Err(ValueError(form["LoanAmount"]))
  {
    NumericFieldsCoerced(form, rt);
  }

  lemma EmptyTermCoerced(form: Form, rt: Runtime, numeric: Frame)
    requires forall j :: 0 <= j < |NumericColumns| ==> NumericColumns[j] in form
    requires "Loan_Amount_Term" in form && form["Loan_Amount_Term"] == "" && rt.parse("").None?
    requires Coerced(Defaulted(form), NumericColumns, rt) == Ok(numeric)
    ensures "Loan_Amount_Term" in numeric.data && numeric.data["Loan_Amount_Term"] == [Num(0.0)]
    ensures "LoanAmount" in numeric.data && |numeric.data["LoanAmount"]| == 1 && numeric.data["LoanAmount"][0].Num?
  {
    NumericFieldsCoerced(form, rt);
    assert NumericColumns[3] == "Loan_Amount_Term" && NumericColumns[2] == "LoanAmount";
  }

  /** On the serving path a term is never missing when it reaches transform: a submitted
      empty term is coerced to 0, so the 360 default does not apply and EMI divides by
      zero (NaN for a zero amount, infinite otherwise). */
  lemma EmptyTermNotDefaulted(form: Form, stats: Stats, rt: Runtime, numeric: Frame, out: Frame)
    requires forall j :: 0 <= j < |NumericColumns| ==> NumericColumns[j] in form
    requires "Loan_Amount_Term" in form && form["Loan_Amount_Term"] == "" && rt.parse("").None?
    requires Coerced(Defaulted(form), NumericColumns, rt) == Ok(numeric)
    requires numeric.Valid() && Transformed(stats, numeric, rt) == Ok(out)
    ensures out.rows == 1 && "Loan_Amount_Term" in out.data && "LoanAmount" in out.data && "EMI" in out.data
    ensures out.data["Loan_Amount_Term"][0] == Num(0.0)
    ensures out.data["LoanAmount"][0].Num?
    ensures out.data["EMI"][0] == if out.data["LoanAmount"][0].x == 0.0 then Missing else NonFinite
  {
    EmptyTermCoerced(form, rt, numeric);
    ZeroTermEmi(stats, numeric, out, rt, 0);
  }

  /** A column with an encoder is replaced by its codes when every cell's text is a known
      class, and by zeros when any one is not; every other column is kept. */
  lemma EncodingEffect(df: Frame, encoders: map<string, Encoder>, rt: Runtime, c: string)
    requires df.Valid() && c in df.data
    ensures c !in encoders ==> Encoded(df, encoders, rt).data[c] == df.data[c]
    ensures c in encoders && (exists i :: 0 <= i < df.rows && Text(df.data[c][i], rt) !in encoders[c]) ==>
      Encoded(df, encoders, rt).data[c] == Repeat(Num(0.0), df.rows)
    ensures c in encoders && (forall i :: 0 <= i < df.rows ==> Text(df.data[c][i], rt) in encoders[c]) ==>
      forall i :: 0 <= i < df.rows ==> Encoded(df, encoders, rt).data[c][i] == Num(encoders[c][Text(df.data[c][i], rt)] as real)
  {
  }

  /** A trained feature that the processed row lacks ends the request with an error that
      names it; it is never filled with zeros. */
  lemma MissingFeatureIsError(form: Form, stats: Stats, encoders: map<string, Encoder>, features: seq<string>,
                              model: Classifier, rt: Runtime, numeric: Frame, out: Frame, j: nat)
    requires Coerced(Defaulted(form), NumericColumns, rt) == Ok(numeric)
    requires FloatOf(form, "ApplicantIncome", 1.0, rt).Ok? && FloatOf(form, "LoanAmount", 0.0, rt).Ok?
    requires numeric.Valid() && Transformed(stats, numeric, rt) == Ok(out)
    requires j < |features| && features[j] !in out.data
    ensures Pipeline(form, stats, encoders, features, model, rt).Err?
    ensures Pipeline(form, stats, encoders, features, model, rt).error.MissingColumns?
      || Pipeline(form, stats, encoders, features, model, rt).error.NoColumns?
    ensures features[j] in Pipeline(form, stats, encoders, features, model, rt).error.names
  {
    var s := Select(Encoded(out, encoders, rt), features);
    assert s.Err?;
  }

  /** When the feature list is the columns of a transformed training table and the form
      carries every raw training column, selection succeeds. */
  lemma TrainedSchemaSelects(train: Frame, trained: Frame, form: Form, stats: Stats, fitted: Stats,
                             encoders: map<string, Encoder>, features: seq<string>, rt: Runtime, numeric: Frame, out: Frame)
    requires train.Valid() && Transformed(fitted, train, rt) == Ok(trained)
    requires forall j :: 0 <= j < |features| ==> features[j] in trained.data
    requires forall c :: c in train.data && c != "Loan_ID" && c != "Loan_Status" ==> c in form || c in DefaultFields
    requires forall j :: 0 <= j < |features| ==> features[j] != "Loan_Status"
    requires Coerced(Defaulted(form), NumericColumns, rt) == Ok(numeric)
    requires numeric.Valid() && Transformed(stats, numeric, rt) == Ok(out)
    ensures Select(Encoded(out, encoders, rt), features).Ok?
  {
    NumericColumnsDistinct();
    CoercedEffect(Defaulted(form), NumericColumns, rt);
    DefaultsOnlyWhenAbsent(form);
    forall j | 0 <= j < |features| ensures features[j] in out.data {
      assert features[j] in numeric.data || features[j] in DerivedColumns;
    }
  }

  /** The status is APPROVED exactly for the label 1, and the confidence is the
      probability of the reported class in percent, between 0 and 100. */
  lemma StatusAndConfidence(form: Form, pred: int, prob: real, dti: real, rt: Runtime)
    requires Decide(form, pred, prob, dti, rt).Ok?
    ensures Decide(form, pred, prob, dti, rt).value.status == Approved <==> pred == 1
    ensures Decide(form, pred, prob, dti, rt).value.status == Declined <==> pred != 1
    ensures 0.0 <= prob <= 1.0 ==> 0.0 <= Decide(form, pred, prob, dti, rt).value.score <= 100.0
    ensures Decide(form, pred, prob, dti, rt).value.dti == Round(dti * 100.0, 1)
    ensures Decide(form, pred, prob, dti, rt).value.status == Status(pred)
    ensures Decide(form, pred, prob, dti, rt).value.score ==
      if pred == 1 then Round(prob * 100.0, 2) else Round((1.0 - prob) * 100.0, 2)
  {
    if 0.0 <= prob <= 1.0 {
      RoundWithin(prob * 100.0, 0, 100, 2);
      RoundWithin((1.0 - prob) * 100.0, 0, 100, 2);
    }
  }

  /** Exactly one advice line, by a fixed priority: any label other than 0 gets the
      premier line; for 0 a zero credit history wins over a high ratio, which wins over
      the edge line. The only errors are the ones float() raises on the raw fields. */
  lemma AdvicePriority(form: Form, pred: int, dti: real, rt: Runtime)
    ensures pred != 0 ==> Advice(form, pred, dti, rt) == Ok(PremierAdvice)
    ensures pred == 0 && FloatOf(form, "Credit_History", 1.0, rt) == Ok(0.0) ==> Advice(form, pred, dti, rt) == Ok(CreditAdvice)
    ensures pred == 0 && FloatOf(form, "Credit_History", 1.0, rt).Ok? && FloatOf(form, "Credit_History", 1.0, rt) != Ok(0.0) ==>
      (dti > 0.4 && FloatAt(form, "LoanAmount", rt).Ok? ==>
         Advice(form, pred, dti, rt) == Ok(DtiAdvice(RoundHalfEven(FloatAt(form, "LoanAmount", rt).value * 1000.0 / 0.3 / 12.0))))
      && (dti <= 0.4 ==> Advice(form, pred, dti, rt) == Ok(EdgeAdvice))
    ensures Advice(form, pred, dti, rt).Err? <==>
      pred == 0 && (FloatOf(form, "Credit_History", 1.0, rt).Err? ||
        (FloatOf(form, "Credit_History", 1.0, rt) != Ok(0.0) && dti > 0.4 && FloatAt(form, "LoanAmount", rt).Err?))
  {
  }

  /** The suggested income is within half a unit of LoanAmount * 1000 / 0.3 / 12, and
      different figures give different lines. */
  lemma DtiAdviceFigure(loan: real, figure: int, other: int)
    requires figure == RoundHalfEven(loan * 1000.0 / 0.3 / 12.0)
    requires DtiAdvice(figure) == DtiAdvice(other)
    ensures -0.5 <= figure as real - loan * 1000.0 / 0.3 / 12.0 <= 0.5
    ensures other == figure
  {
    var line := DtiAdvice(figure);
    assert IntText(figure) == line[|DtiAdviceHead|..|line| - |DtiAdviceTail|] == IntText(other);
    IntTextInjective(figure, other);
  }

  /** The ratio is above 0.4 exactly when the monthly payment is above 0.4 times the
      monthly income, and a non-positive income counts as 1. */
  lemma DtiHighIff(income: real, loan: real)
    ensures income > 0.0 ==> (Dti(income, loan) > 0.4 <==> loan * 1000.0 / 360.0 > 0.4 * income)
    ensures income <= 0.0 ==> Dti(income, loan) == loan * 1000.0 / 360.0
  {
    var r := Dti(income, loan);
    if income > 0.0 {
      assert r * income == loan * 1000.0 / 360.0;
      if r > 0.4 {
        assert r * income > 0.4 * income;
      } else {
        assert r * income <= 0.4 * income;
      }
    }
  }

  /** The ratio the handler computes from the raw form, when both fields parse or are absent. */
  function FormDti(form: Form, rt: Runtime): real
    requires FloatOf(form, "ApplicantIncome", 1.0, rt).Ok? && FloatOf(form, "LoanAmount", 0.0, rt).Ok?
  {
    Dti(FloatOf(form, "ApplicantIncome", 1.0, rt).value, FloatOf(form, "LoanAmount", 0.0, rt).value)
  }

  /** A request whose every step succeeds is decided on the classifier's label and
      class-1 probability for the selected feature columns, with the ratio from the raw
      form. */
  lemma PipelineDecides(form: Form, stats: Stats, encoders: map<string, Encoder>, features: seq<string>,
                        model: Classifier, rt: Runtime, numeric: Frame, processed: Frame,
                        finalInput: seq<seq<Cell>>, pred: int, prob: real)
    requires Coerced(Defaulted(form), NumericColumns, rt) == Ok(numeric) && numeric.Valid()
    requires FloatOf(form, "ApplicantIncome", 1.0, rt).Ok? && FloatOf(form, "LoanAmount", 0.0, rt).Ok?
    requires Transformed(stats, numeric, rt) == Ok(processed) && processed.Valid()
    requires Select(Encoded(processed, encoders, rt), features) == Ok(finalInput)
    requires model.predict(finalInput) == Ok(pred) && model.proba(finalInput) == Ok(prob)
    ensures Pipeline(form, stats, encoders, features, model, rt) == Decide(form, pred, prob, FormDti(form, rt), rt)
  {
  }

  /** A form with income 5000, loan 100 and credit history 1, scored 1 at 0.8: approved
      with 80.0, the premier line, and a ratio of 5.6 percent. */
  lemma ApprovedScenario(form: Form, rt: Runtime)
    requires "ApplicantIncome" in form && form["ApplicantIncome"] == "5000"
    requires "LoanAmount" in form && form["LoanAmount"] == "100"
    requires rt.parse("5000") == Some(5000.0) && rt.parse("100") == Some(100.0)
    ensures Decide(form, 1, 0.8, FormDti(form, rt), rt) == Ok(Decision(Approved, 80.0, PremierAdvice, 5.6))
  {
    assert FormDti(form, rt) == Dti(5000.0, 100.0);
    RoundOfInt(80, 2);
    assert 0.8 * 100.0 == 80 as real;
    var x := Dti(5000.0, 100.0) * 100.0;
    assert x == 500.0 / 90.0;
    assert Shift(x, 1) == 5000.0 / 90.0;
    RoundHalfEvenUnique(5000.0 / 90.0, 56);
    assert Round(x, 1) == 5.6;
  }

  /** The same form with credit history 0, scored 0 with class-1 probability 0.3:
      declined with 70.0, and the credit line wins over the ratio test. */
  lemma CreditScenario(form: Form, rt: Runtime)
    requires "ApplicantIncome" in form && form["ApplicantIncome"] == "5000"
    requires "LoanAmount" in form && form["LoanAmount"] == "100"
    requires rt.parse("5000") == Some(5000.0) && rt.parse("100") == Some(100.0)
    requires "Credit_History" in form && form["Credit_History"] == "0" && rt.parse("0") == Some(0.0)
    ensures Decide(form, 0, 0.3, FormDti(form, rt), rt) == Ok(Decision(Declined, 70.0, CreditAdvice, 5.6))
  {
    assert FormDti(form, rt) == Dti(5000.0, 100.0);
    RoundOfInt(70, 2);
    assert (1.0 - 0.3) * 100.0 == 70 as real;
    var x := Dti(5000.0, 100.0) * 100.0;
    assert x == 500.0 / 90.0;
    assert Shift(x, 1) == 5000.0 / 90.0;
    RoundHalfEvenUnique(5000.0 / 90.0, 56);
    assert Round(x, 1) == 5.6;
  }
}
