/** The feature transformer of src/preprocessing.py: a LoanPreprocessor is fitted once
    on the training table, recording four fill statistics, and then replays the same
    cleaning and feature engineering on any table. */
module Preprocessing {
  import opened Frames

  /** The contents of `self.stats`. */
  type Stats = map<string, Cell>

  const StatKeys: set<string> := {"Gender_mode", "Married_mode", "LoanAmount_median", "Credit_History_mode"}

  /** The columns `transform` reads, in the order it first reads them. */
  const RequiredColumns: seq<string> :=
    ["Gender", "Married", "LoanAmount", "Credit_History", "ApplicantIncome", "CoapplicantIncome", "Loan_Amount_Term"]

  /** The columns `transform` writes. */
  const WrittenColumns: set<string> :=
    {"Gender", "Married", "LoanAmount", "Credit_History", "Total_Income", "Loan_Amount_Term", "EMI", "Total_Income_Log"}

  const DerivedColumns: set<string> := {"Total_Income", "EMI", "Total_Income_Log"}

  /** The value used for a missing cell of one of the four fitted columns. */
  datatype Fill = Fill(column: string, key: string, fallback: Cell)

  const GenderFill := Fill("Gender", "Gender_mode", Str("Male"))
  const MarriedFill := Fill("Married", "Married_mode", Str("Yes"))
  const AmountFill := Fill("LoanAmount", "LoanAmount_median", Num(120.0))
  const CreditFill := Fill("Credit_History", "Credit_History_mode", Num(1.0))

  /** The default term in months, used when a term is missing. */
  const DefaultTerm: real := 360.0

  /** self.stats.get(key, fallback) */
  function StatOr(stats: Stats, f: Fill): (v: Cell)
    ensures f.key in stats ==> v == stats[f.key]
    ensures f.key !in stats ==> v == f.fallback
  {
    if f.key in stats then stats[f.key] else f.fallback
  }

  /** df[col] = df[col].fillna(v) */
  function FillColumn(df: Frame, col: string, v: Cell): (r: Result<Frame>)
    requires df.Valid()
    ensures r.Ok? <==> col in df.data
    ensures r.Err? ==> r.error == KeyError(col)
    ensures r.Ok? ==> r.value == Frame(df.data[col := FillNa(df.data[col], v)], df.rows)
  {
    var c :- df.Column(col);
    Ok(df.Set(col, FillNa(c, v)))
  }

  /** The four fitted fills, in the order transform applies them. */
  const Fills: seq<Fill> := [GenderFill, MarriedFill, AmountFill, CreditFill]

  const FilledColumns: set<string> := {"Gender", "Married", "LoanAmount", "Credit_History"}

  /** The four fills and their columns, one by one. */
  lemma FillsAre()
    ensures forall f :: f in Fills <==> f == GenderFill || f == MarriedFill || f == AmountFill || f == CreditFill
    ensures forall c :: c in FilledColumns <==> c == "Gender" || c == "Married" || c == "LoanAmount" || c == "Credit_History"
  {
  }

  /** Step 1 of transform: the four fitted fills. Only those four columns change. */
  function FillMissing(stats: Stats, df: Frame): (r: Result<Frame>)
    requires df.Valid()
    ensures r.Ok? <==> FilledColumns <= df.data.Keys
    ensures r.Ok? ==> r.value.Valid() && r.value.rows == df.rows && r.value.data.Keys == df.data.Keys
    ensures r.Ok? ==> forall f :: f in Fills ==> r.value.data[f.column] == FillNa(df.data[f.column], StatOr(stats, f))
    ensures r.Ok? ==> forall c :: c in df.data && c !in FilledColumns ==> r.value.data[c] == df.data[c]
  {
    FillsAre();
    var df1 :- FillColumn(df, GenderFill.column, StatOr(stats, GenderFill));
    var df2 :- FillColumn(df1, MarriedFill.column, StatOr(stats, MarriedFill));
    var df3 :- FillColumn(df2, AmountFill.column, StatOr(stats, AmountFill));
    FillColumn(df3, CreditFill.column, StatOr(stats, CreditFill))
  }

  /** Step 2 of transform: Total_Income, the defaulted term, EMI and Total_Income_Log,
      each computed cell by cell from columns already filled. Nothing else changes. */
  function Engineer(df: Frame, rt: Runtime): (r: Result<Frame>)
    requires df.Valid()
    ensures r.Ok? ==> "ApplicantIncome" in df.data && "CoapplicantIncome" in df.data && "Loan_Amount_Term" in df.data && "LoanAmount" in df.data
    ensures r.Ok? ==> r.value.Valid() && r.value.rows == df.rows && r.value.data.Keys == df.data.Keys + DerivedColumns
    ensures r.Ok? ==> forall c :: c in df.data && c !in DerivedColumns && c != "Loan_Amount_Term" ==> r.value.data[c] == df.data[c]
    ensures r.Ok? ==> r.value.data["Loan_Amount_Term"] == FillNa(df.data["Loan_Amount_Term"], Num(DefaultTerm))
    ensures r.Ok? ==> forall i :: 0 <= i < df.rows ==>
      && AddCells(df.data["ApplicantIncome"][i], df.data["CoapplicantIncome"][i]) == Ok(r.value.data["Total_Income"][i])
      && DivCells(df.data["LoanAmount"][i], r.value.data["Loan_Amount_Term"][i]) == Ok(r.value.data["EMI"][i])
      && LogOnePlus(r.value.data["Total_Income"][i], rt.ln) == Ok(r.value.data["Total_Income_Log"][i])
  {
    var income :- df.Column("ApplicantIncome");
    var coincome :- df.Column("CoapplicantIncome");
    var total :- ZipCells(income, coincome, AddCells);
    var df1 := df.Set("Total_Income", total);
    var df2 :- FillColumn(df1, "Loan_Amount_Term", Num(DefaultTerm));
    var amount :- df2.Column("LoanAmount");
    var emi :- ZipCells(amount, df2.data["Loan_Amount_Term"], DivCells);
    var df3 := df2.Set("EMI", emi);
    var logs :- LogCells(df3.data["Total_Income"], rt.ln);
    Ok(df3.Set("Total_Income_Log", logs))
  }

  /** LoanPreprocessor.transform as a function of the statistics: fill, derive, drop the id. */
  function Transformed(stats: Stats, df: Frame, rt: Runtime): (r: Result<Frame>)
    requires df.Valid()
    ensures r.Ok? ==> r.value.Valid() && r.value.rows == df.rows
    ensures r.Ok? ==> forall c :: c in r.value.data <==> (c in df.data || c in DerivedColumns) && c != "Loan_ID"
  {
    match FillMissing(stats, df)
    case Err(e) => Err(e)
    case Ok(filled) =>
      match Engineer(filled, rt)
      case Err(e) => Err(e)
      case Ok(derived) => Ok(DropId(derived))
  }

  /** Step 3 of transform: drop Loan_ID when the table has it. */
  function DropId(df: Frame): (r: Frame)
    requires df.Valid()
    ensures r.Valid() && r.rows == df.rows && r.data == df.data - {"Loan_ID"}
    ensures forall c :: c in r.data <==> c in df.data && c != "Loan_ID"
    ensures forall c :: c in r.data ==> r.data[c] == df.data[c]
  {
    if "Loan_ID" in df.data then df.Drop("Loan_ID")
    else
      assert df.data - {"Loan_ID"} == df.data;
      df
  }

  /** The column names transform treats specially are pairwise distinct. */
  lemma ColumnNamesDistinct()
    ensures FilledColumns !! DerivedColumns
    ensures "Loan_Amount_Term" !in FilledColumns && "Loan_Amount_Term" !in DerivedColumns
    ensures "Loan_ID" !in FilledColumns && "Loan_ID" !in DerivedColumns && "Loan_ID" != "Loan_Amount_Term"
    ensures "ApplicantIncome" !in FilledColumns && "ApplicantIncome" !in DerivedColumns
    ensures "CoapplicantIncome" !in FilledColumns && "CoapplicantIncome" !in DerivedColumns
    ensures forall f :: f in Fills ==> f.column in FilledColumns
  {
  }

  /** The statistic a fitted column is summarised by. */
  datatype Statistic = Mode | Median

  /** The state of `fit_and_clean` after some of its writes: the statistics so far, and
      the exception that stopped it, if one did. */
  datatype Fit = Fit(stats: Stats, failure: Option<Error>)

  /** self.stats[key] = df[col].mode()[0] (or .median()), unless an earlier write raised. */
  function Record(fit: Fit, df: Frame, f: Fill, stat: Statistic, rt: Runtime): (r: Fit)
    ensures fit.failure.Some? ==> r == fit
    ensures r.failure.Some? ==> r.stats == fit.stats
    ensures fit.failure.None? && f.column !in df.data ==> r.failure == Some(KeyError(f.column))
    ensures r.failure.None? ==> fit.failure.None? && f.column in df.data && r.stats.Keys == fit.stats.Keys + {f.key}
    ensures r.failure.None? ==> forall k :: k in fit.stats && k != f.key ==> r.stats[k] == fit.stats[k]
  {
    if fit.failure.Some? then fit
    else if f.column !in df.data then Fit(fit.stats, Some(KeyError(f.column)))
    else match stat
      case Median =>
        if HasText(df.data[f.column]) then Fit(fit.stats, Some(MedianOfText(f.column)))
        else Fit(fit.stats[f.key := rt.median(df.data[f.column])], None)
      case Mode =>
        match rt.mode(df.data[f.column])
        case None => Fit(fit.stats, Some(EmptyMode(f.column)))
        case Some(m) => Fit(fit.stats[f.key := m], None)
  }

  /** The four writes of fit_and_clean, in order. */
  function Fitted(stats: Stats, df: Frame, rt: Runtime): (r: Fit)
    ensures stats.Keys <= r.stats.Keys <= stats.Keys + StatKeys
    ensures forall k :: k in stats && k !in StatKeys ==> r.stats[k] == stats[k]
    ensures r.failure.Some? ==> r.failure.value.KeyError? || r.failure.value.EmptyMode? || r.failure.value == MedianOfText("LoanAmount")
  {
    var f1 := Record(Fit(stats, None), df, GenderFill, Mode, rt);
    var f2 := Record(f1, df, MarriedFill, Mode, rt);
    var f3 := Record(f2, df, AmountFill, Median, rt);
    Record(f3, df, CreditFill, Mode, rt)
  }

  /** A successful fit writes exactly the four statistics keys, each with the summary of
      its own column, and leaves every other entry as it was. */
  lemma FitWritesStatKeys(stats: Stats, df: Frame, rt: Runtime)
    requires Fitted(stats, df, rt).failure.None?
    ensures Fitted(stats, df, rt).stats.Keys == stats.Keys + StatKeys
    ensures forall k :: k in stats && k !in StatKeys ==> Fitted(stats, df, rt).stats[k] == stats[k]
    ensures Fitted(stats, df, rt).stats["Gender_mode"] == rt.mode(df.data["Gender"]).value
    ensures Fitted(stats, df, rt).stats["Married_mode"] == rt.mode(df.data["Married"]).value
    ensures Fitted(stats, df, rt).stats["LoanAmount_median"] == rt.median(df.data["LoanAmount"])
    ensures Fitted(stats, df, rt).stats["Credit_History_mode"] == rt.mode(df.data["Credit_History"]).value
  {
  }

  /** A fit fails exactly when one of the four columns is absent, a mode column has no
      mode, or the median column holds text. */
  lemma FitFailsExactly(stats: Stats, df: Frame, rt: Runtime)
    ensures Fitted(stats, df, rt).failure.None? <==>
      && "Gender" in df.data && rt.mode(df.data["Gender"]).Some?
      && "Married" in df.data && rt.mode(df.data["Married"]).Some?
      && "LoanAmount" in df.data && !HasText(df.data["LoanAmount"])
      && "Credit_History" in df.data && rt.mode(df.data["Credit_History"]).Some?
  {
  }

  /** The preprocessor object: `stats` is its only state. */
  class LoanPreprocessor {
    var stats: Stats

    /** __init__: nothing fitted yet. */
    constructor ()
      ensures stats == map[]
    {
      stats := map[];
    }

    /** fit_and_clean: record the four statistics one after the other, then transform the
        same table with them. A write that raises leaves the earlier writes in place. */
    method FitAndClean(df: Frame, rt: Runtime) returns (r: Result<Frame>)
      requires df.Valid()
      modifies this
      ensures stats == Fitted(old(stats), df, rt).stats
      ensures Fitted(old(stats), df, rt).failure.Some? ==> r == Err(Fitted(old(stats), df, rt).failure.value)
      ensures Fitted(old(stats), df, rt).failure.None? ==> r == Transformed(stats, df, rt)
    {
      if "Gender" !in df.data {
        return Err(KeyError("Gender"));
      }
      var gender := rt.mode(df.data["Gender"]);
      if gender.None? {
        return Err(EmptyMode("Gender"));
      }
      stats := stats["Gender_mode" := gender.value];
      if "Married" !in df.data {
        return Err(KeyError("Married"));
      }
      var married := rt.mode(df.data["Married"]);
      if married.None? {
        return Err(EmptyMode("Married"));
      }
      stats := stats["Married_mode" := married.value];
      if "LoanAmount" !in df.data {
        return Err(KeyError("LoanAmount"));
      }
      if HasText(df.data["LoanAmount"]) {
        return Err(MedianOfText("LoanAmount"));
      }
      stats := stats["LoanAmount_median" := rt.median(df.data["LoanAmount"])];
      if "Credit_History" !in df.data {
        return Err(KeyError("Credit_History"));
      }
      var credit := rt.mode(df.data["Credit_History"]);
      if credit.None? {
        return Err(EmptyMode("Credit_History"));
      }
      stats := stats["Credit_History_mode" := credit.value];
      r := Transform(df, rt);
    }

    /** transform: reads the statistics and never writes them; the table is a value,
        so the caller's table is untouched. */
    method Transform(df: Frame, rt: Runtime) returns (r: Result<Frame>)
      requires df.Valid()
      ensures r == Transformed(stats, df, rt)
    {
      r := Transformed(stats, df, rt);
    }
  }
}
