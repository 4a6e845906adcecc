/** The body of the /predict handler of app/main.py: the submitted form becomes a
    one-row table, missing wizard fields get defaults, the numeric fields are coerced,
    a debt-to-income ratio is computed from the raw text, the fitted preprocessor and
    the label encoders prepare the row, the classifier decides, and an advice line is
    chosen. Any exception becomes an error text instead of a page. */
module Serving {
  import opened Frames
  import opened Numbers
  import opened Preprocessing

  /** request.form.to_dict(): each submitted field name with its text. */
  type Form = map<string, string>

  /** A fitted LabelEncoder: the code of every class text it saw in training. */
  type Encoder = map<string, int>

  /** The trained classifier on the selected feature columns: the label of
      predict(...)[0] and the class-1 probability of predict_proba(...)[0][1].
      Either call may raise. */
  datatype Classifier = Classifier(
    predict: seq<seq<Cell>> -> Result<int>,
    proba: seq<seq<Cell>> -> Result<real>)

  /** What result.html is rendered with. */
  datatype Decision = Decision(status: string, score: real, advice: string, dti: real)

  /** The handler's answer: the rendered result, or the text of the caught exception. */
  datatype Response = Rendered(decision: Decision) | ErrorText(text: string)

  /** The fields the wizard may leave out, with the value each gets then. */
  const Defaults: seq<(string, string)> :=
    [("Education", "Graduate"), ("Property_Area", "Semiurban"), ("Self_Employed", "No")]

  const DefaultFields: set<string> := {"Education", "Property_Area", "Self_Employed"}

  /** The fields converted to numbers, in the order they are converted. */
  const NumericColumns: seq<string> :=
    ["ApplicantIncome", "CoapplicantIncome", "LoanAmount", "Loan_Amount_Term", "Credit_History"]

  const Approved := "APPROVED"
  const Declined := "DECLINED"

  const CreditAdvice := "Focus on clearing existing debts to improve your Credit History score."
  const EdgeAdvice := "Your profile is on the edge. Try applying with a co-applicant to reduce risk."
  const PremierAdvice := "Your financial profile is strong. You qualify for our 'Premier' interest rates."

  const DtiAdviceHead := "DTI ratio is high. Consider an income of roughly $"
  const DtiAdviceTail := " or a lower loan amount."

  /** The high-DTI advice, naming the suggested income in whole currency units. */
  function DtiAdvice(figure: int): (r: string)
    ensures |r| == |DtiAdviceHead| + |IntText(figure)| + |DtiAdviceTail|
    ensures r[..|DtiAdviceHead|] == DtiAdviceHead && r[|r| - |DtiAdviceTail|..] == DtiAdviceTail
    ensures r[|DtiAdviceHead|..|r| - |DtiAdviceTail|] == IntText(figure)
  {
    DtiAdviceHead + IntText(figure) + DtiAdviceTail
  }

  /** pd.DataFrame([raw_data]): one row, one text cell per submitted field. */
  function FromForm(form: Form): (df: Frame)
    ensures df.Valid() && df.rows == 1
    ensures forall k :: k in df.data <==> k in form
    ensures forall k :: k in form ==> df.data[k] == [Str(form[k])]
  {
    Frame(map k | k in form :: [Str(form[k])], 1)
  }

  /** if key not in input_df.columns: input_df[key] = value */
  function AddDefault(df: Frame, d: (string, string)): (r: Frame)
    requires df.Valid()
    ensures r.Valid() && r.rows == df.rows
    ensures r.data.Keys == df.data.Keys + {d.0}
    ensures forall c :: c in df.data ==> r.data[c] == df.data[c]
    ensures d.0 !in df.data ==> r.data[d.0] == Repeat(Str(d.1), df.rows)
  {
    if d.0 in df.data then df else df.Set(d.0, Repeat(Str(d.1), df.rows))
  }

  /** The defaults loop over `ds`, in order. */
  function WithDefaults(df: Frame, ds: seq<(string, string)>): (r: Frame)
    requires df.Valid()
    ensures r.Valid() && r.rows == df.rows
    decreases |ds|
  {
    if ds == [] then df else WithDefaults(AddDefault(df, ds[0]), ds[1..])
  }

  /** pd.to_numeric(cell, errors='coerce') followed by fillna(0): a numeral becomes its
      number, any other text and a missing cell become 0. */
  function CoerceCell(c: Cell, rt: Runtime): (r: Cell)
    ensures c.Str? ==> r == Num(if rt.parse(c.s).Some? then rt.parse(c.s).value else 0.0)
    ensures r.Num? || r.NonFinite?
  {
    match c
    case Str(s) => (match rt.parse(s) case Some(x) => Num(x) case None => Num(0.0))
    case Missing => Num(0.0)
    case Num(_) => c
    case NonFinite => c
  }

  function CoerceColumn(col: seq<Cell>, rt: Runtime): (r: seq<Cell>)
    ensures |r| == |col| && forall i :: 0 <= i < |col| ==> r[i] == CoerceCell(col[i], rt)
  {
    if col == [] then [] else [CoerceCell(col[0], rt)] + CoerceColumn(col[1..], rt)
  }

  /** The coercion loop over `cols`: input_df[col] raises KeyError on an absent column. */
  function Coerced(df: Frame, cols: seq<string>, rt: Runtime): (r: Result<Frame>)
    requires df.Valid()
    ensures r.Ok? ==> r.value.Valid() && r.value.rows == df.rows
    decreases |cols|
  {
    if cols == [] then Ok(df)
    else
      var col :- df.Column(cols[0]);
      Coerced(df.Set(cols[0], CoerceColumn(col, rt)), cols[1..], rt)
  }

  /** float(raw_data[key]): KeyError when the field is absent, ValueError when its text
      is not a number. */
  function FloatAt(form: Form, key: string, rt: Runtime): (r: Result<real>)
    ensures r.Ok? <==> key in form && rt.parse(form[key]).Some?
    ensures r.Ok? ==> r.value == rt.parse(form[key]).value
    ensures key !in form ==> r == Err(KeyError(key))
  {
    if key !in form then Err(KeyError(key))
    else match rt.parse(form[key])
      case Some(x) => Ok(x)
      case None => Err(ValueError(form[key]))
  }

  /** float(raw_data.get(key, default)) */
  function FloatOf(form: Form, key: string, default: real, rt: Runtime): (r: Result<real>)
    ensures key !in form ==> r == Ok(default)
    ensures key in form ==> r == FloatAt(form, key, rt)
  {
    if key in form then FloatAt(form, key, rt) else Ok(default)
  }

  /** (loan * 1000 / 360) / (income if income > 0 else 1): the monthly payment of a
      30-year loan over the monthly income, with a guard that keeps the divisor positive. */
  function Dti(income: real, loan: real): (r: real)
    ensures var divisor := if income > 0.0 then income else 1.0;
      divisor > 0.0 && r * divisor == loan * 1000.0 / 360.0
  {
    (loan * 1000.0 / 360.0) / (if income > 0.0 then income else 1.0)
  }

  /** le.transform(col.astype(str)): the code of every cell's text, or None when some
      text is not one of the encoder's classes (LabelEncoder raises then). */
  function EncodeColumn(col: seq<Cell>, le: Encoder, rt: Runtime): (r: Option<seq<Cell>>)
    ensures r.Some? <==> forall i :: 0 <= i < |col| ==> Text(col[i], rt) in le
    ensures r.Some? ==> |r.value| == |col|
    ensures r.Some? ==> forall i :: 0 <= i < |col| ==> Text(col[i], rt) in le && r.value[i] == Num(le[Text(col[i], rt)] as real)
  {
    if col == [] then Some([])
    else if Text(col[0], rt) !in le then None
    else match EncodeColumn(col[1..], le, rt)
      case None => None
      case Some(rest) => Some([Num(le[Text(col[0], rt)] as real)] + rest)
  }

  /** The try/except around one encoder: the codes, or a column of zeros. */
  function EncodedColumn(col: seq<Cell>, le: Encoder, rt: Runtime): (r: seq<Cell>)
    ensures |r| == |col|
    ensures (forall i :: 0 <= i < |col| ==> Text(col[i], rt) in le) ==>
      forall i :: 0 <= i < |col| ==> Text(col[i], rt) in le && r[i] == Num(le[Text(col[i], rt)] as real)
    ensures (exists i :: 0 <= i < |col| && Text(col[i], rt) !in le) ==> forall i :: 0 <= i < |col| ==> r[i] == Num(0.0)
  {
    match EncodeColumn(col, le, rt)
    case Some(codes) => codes
    case None => Repeat(Num(0.0), |col|)
  }

  /** The encoder loop: every column that has an encoder is encoded, independently of
      the others, so the order of `encoders` does not matter. */
  function Encoded(df: Frame, encoders: map<string, Encoder>, rt: Runtime): (r: Frame)
    requires df.Valid()
    ensures r.Valid() && r.rows == df.rows
    ensures forall c :: c in r.data <==> c in df.data
  {
    Frame(map c | c in df.data :: if c in encoders then EncodedColumn(df.data[c], encoders[c], rt) else df.data[c], df.rows)
  }

  /** The requested feature names that the table does not have, in request order. */
  function AbsentFeatures(df: Frame, features: seq<string>): (r: seq<string>)
    ensures forall n :: n in r <==> n in features && n !in df.data
  {
    if features == [] then []
    else (if features[0] in df.data then [] else [features[0]]) + AbsentFeatures(df, features[1..])
  }

  /** The named columns, in the order named. */
  function Columns(df: Frame, features: seq<string>): (r: seq<seq<Cell>>)
    requires forall j :: 0 <= j < |features| ==> features[j] in df.data
    ensures |r| == |features| && forall j :: 0 <= j < |features| ==> r[j] == df.data[features[j]]
  {
    if features == [] then [] else [df.data[features[0]]] + Columns(df, features[1..])
  }

  /** processed_df[features_list]: exactly the trained columns in the trained order, or
      an error naming every absent one; an absent column is never filled in. */
  function Select(df: Frame, features: seq<string>): (r: Result<seq<seq<Cell>>>)
    ensures r.Ok? <==> forall j :: 0 <= j < |features| ==> features[j] in df.data
    ensures r.Ok? ==> |r.value| == |features| && forall j :: 0 <= j < |features| ==> r.value[j] == df.data[features[j]]
    ensures r.Err? ==> (r.error.MissingColumns? || r.error.NoColumns?) && forall n :: n in r.error.names <==> n in features && n !in df.data
    ensures r.Err? ==> (r.error.NoColumns? <==> forall j :: 0 <= j < |features| ==> features[j] !in df.data)
  {
    var absent := AbsentFeatures(df, features);
    if absent != [] then
      assert absent[0] in features && absent[0] !in df.data;
      if forall j :: 0 <= j < |features| ==> features[j] !in df.data then Err(NoColumns(features))
      else Err(MissingColumns(absent))
    else
      assert forall j :: 0 <= j < |features| ==> features[j] !in absent;
      Ok(Columns(df, features))
  }

  /** APPROVED for label 1 and DECLINED for any other label. */
  function Status(pred: int): (r: string)
    ensures r == Approved <==> pred == 1
    ensures r == Declined <==> pred != 1
  {
    if pred == 1 then Approved else Declined
  }

  /** The probability of the predicted class, in percent, to two decimals: `prob` for
      label 1 and 1 - prob for any other label. */
  function Confidence(pred: int, prob: real): (r: real)
    ensures r == Round((if pred == 1 then prob else 1.0 - prob) * 100.0, 2)
    ensures 0.0 <= prob <= 1.0 ==> 0.0 <= r <= 100.0
  {
    if pred == 1 then
      (if 0.0 <= prob <= 1.0 then RoundWithin(prob * 100.0, 0, 100, 2); Round(prob * 100.0, 2)
       else Round(prob * 100.0, 2))
    else
      (if 0.0 <= prob <= 1.0 then RoundWithin((1.0 - prob) * 100.0, 0, 100, 2); Round((1.0 - prob) * 100.0, 2)
       else Round((1.0 - prob) * 100.0, 2))
  }

  /** The advisor: a declined application with a zero credit history is told about
      its debts first, then a high ratio gets a suggested income, and anything else is
      on the edge; every other label gets the premier message. */
  function Advice(form: Form, pred: int, dti: real, rt: Runtime): (r: Result<string>)
    ensures pred != 0 ==> r == Ok(PremierAdvice)
    ensures r.Ok? ==> r.value in {PremierAdvice, CreditAdvice, EdgeAdvice} || DtiAdviceHead <= r.value
    ensures r.Err? ==> pred == 0 && (r.error.ValueError? || r.error == KeyError("LoanAmount"))
  {
    if pred == 0 then
      var credit :- FloatOf(form, "Credit_History", 1.0, rt);
      if credit == 0.0 then Ok(CreditAdvice)
      else if dti > 0.4 then
        var loan :- FloatAt(form, "LoanAmount", rt);
        Ok(DtiAdvice(RoundHalfEven(loan * 1000.0 / 0.3 / 12.0)))
      else Ok(EdgeAdvice)
    else Ok(PremierAdvice)
  }

  /** Status, confidence, advice and the reported ratio, from the classifier's outputs. */
  function Decide(form: Form, pred: int, prob: real, dti: real, rt: Runtime): (r: Result<Decision>)
    ensures r.Ok? <==> Advice(form, pred, dti, rt).Ok?
    ensures r.Ok? ==> r.value.advice == Advice(form, pred, dti, rt).value
    ensures r.Ok? ==> (r.value.status == Approved <==> pred == 1) && r.value.dti == Round(dti * 100.0, 1)
    ensures r.Ok? ==> r.value.status == Status(pred) && r.value.score == Confidence(pred, prob)
    ensures r.Ok? && 0.0 <= prob <= 1.0 ==> 0.0 <= r.value.score <= 100.0
  {
    var advice :- Advice(form, pred, dti, rt);
    Ok(Decision(Status(pred), Confidence(pred, prob), advice, Round(dti * 100.0, 1)))
  }

  /** The form after the defaults loop. */
  function Defaulted(form: Form): (df: Frame)
    ensures df.Valid() && df.rows == 1
  {
    WithDefaults(FromForm(form), Defaults)
  }

  /** The try block of predict, statement by statement. */
  function Pipeline(form: Form, stats: Stats, encoders: map<string, Encoder>, features: seq<string>,
                    model: Classifier, rt: Runtime): (r: Result<Decision>)
    ensures r.Ok? ==> r.value.status == Approved || r.value.status == Declined
  {
    var numeric :- Coerced(Defaulted(form), NumericColumns, rt);
    var income :- FloatOf(form, "ApplicantIncome", 1.0, rt);
    var loan :- FloatOf(form, "LoanAmount", 0.0, rt);
    var processed :- Transformed(stats, numeric, rt);
    var finalInput :- Select(Encoded(processed, encoders, rt), features);
    var pred :- model.predict(finalInput);
    var prob :- model.proba(finalInput);
    Decide(form, pred, prob, Dti(income, loan), rt)
  }

  /** The except clause: an exception becomes "An error occurred: " and its text. */
  function Respond(r: Result<Decision>): (resp: Response)
    ensures resp.Rendered? <==> r.Ok?
    ensures r.Ok? ==> resp.decision == r.value
    ensures r.Err? ==> resp.text == "An error occurred: " + r.error.Message()
  {
    match r
    case Ok(d) => Rendered(d)
    case Err(e) => ErrorText("An error occurred: " + e.Message())
  }

  /** predict(): the try block, caught. */
  method Predict(form: Form, pp: LoanPreprocessor, encoders: map<string, Encoder>, features: seq<string>,
                 model: Classifier, rt: Runtime) returns (resp: Response)
    ensures resp == Respond(Pipeline(form, pp.stats, encoders, features, model, rt))
  {
    var r := Handle(form, pp, encoders, features, model, rt);
    match r
    case Ok(d) =>
      resp := Rendered(d);
    case Err(e) =>
      resp := ErrorText("An error occurred: " + e.Message());
  }

  /** The try block of predict. */
  method Handle(form: Form, pp: LoanPreprocessor, encoders: map<string, Encoder>, features: seq<string>,
                model: Classifier, rt: Runtime) returns (r: Result<Decision>)
    ensures r == Pipeline(form, pp.stats, encoders, features, model, rt)
  {
    var input := FillDefaults(form);
    var numeric :- CoerceNumerics(input, rt);
    var income :- FloatOf(form, "ApplicantIncome", 1.0, rt);
    var loan :- FloatOf(form, "LoanAmount", 0.0, rt);
    var dti := Dti(income, loan);
    var processed :- pp.Transform(numeric, rt);
    processed := EncodeAll(processed, encoders, rt);
    var finalInput :- Select(processed, features);
    var pred :- model.predict(finalInput);
    var prob :- model.proba(finalInput);
    r := Decide(form, pred, prob, dti, rt);
  }

  /** The table of the form, and the defaults loop that adds each absent wizard field. */
  method FillDefaults(form: Form) returns (input: Frame)
    ensures input == Defaulted(form)
  {
    input := FromForm(form);
    var i := 0;
    while i < |Defaults|
      invariant 0 <= i <= |Defaults|
      invariant input.Valid() && input.rows == 1
      invariant WithDefaults(input, Defaults[i..]) == Defaulted(form)
    {
      var d := Defaults[i];
      if d.0 !in input.data {
        input := input.Set(d.0, Repeat(Str(d.1), input.rows));
      }
      i := i + 1;
    }
  }

  /** The coercion loop, column by column; an absent column stops it with KeyError. */
  method CoerceNumerics(df: Frame, rt: Runtime) returns (r: Result<Frame>)
    requires df.Valid()
    ensures r == Coerced(df, NumericColumns, rt)
  {
    var input := df;
    var i := 0;
    while i < |NumericColumns|
      invariant 0 <= i <= |NumericColumns|
      invariant input.Valid() && input.rows == df.rows
      invariant Coerced(input, NumericColumns[i..], rt) == Coerced(df, NumericColumns, rt)
    {
      var col := NumericColumns[i];
      if col !in input.data {
        return Err(KeyError(col));
      }
      input := input.Set(col, CoerceColumn(input.data[col], rt));
      i := i + 1;
    }
    return Ok(input);
  }

  /** The encoder loop: each encoder with a column in the table replaces that column by
      its codes, or by zeros when it raises. */
  method EncodeAll(df: Frame, encoders: map<string, Encoder>, rt: Runtime) returns (processed: Frame)
    requires df.Valid()
    ensures processed == Encoded(df, encoders, rt)
  {
    processed := df;
    var todo := encoders.Keys;
    while todo != {}
      invariant todo <= encoders.Keys
      invariant processed.Valid() && processed.rows == df.rows
      invariant forall c :: c in processed.data <==> c in df.data
      invariant forall c :: c in df.data ==>
        processed.data[c] == (if c in encoders && c !in todo then EncodedColumn(df.data[c], encoders[c], rt) else df.data[c])
      decreases todo
    {
      var col :| col in todo;
      if col in processed.data {
        match EncodeColumn(processed.data[col], encoders[col], rt)
        case Some(codes) =>
          processed := processed.Set(col, codes);
        case None =>
          processed := processed.Set(col, Repeat(Num(0.0), processed.rows));
      }
      todo := todo - {col};
    }
    assert processed.data == Encoded(df, encoders, rt).data;
  }
}
