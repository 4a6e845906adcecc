/** What LoanPreprocessor.transform promises about its output table. */
module TransformProperties {
  import opened Frames
  import opened Preprocessing

  /** A successful transform is a successful fill followed by a successful derivation,
      without the Loan_ID column. */
  lemma Steps(stats: Stats, df: Frame, out: Frame, rt: Runtime) returns (filled: Frame, derived: Frame)
    requires df.Valid() && Transformed(stats, df, rt) == Ok(out)
    ensures FillMissing(stats, df) == Ok(filled) && filled.Valid()
    ensures Engineer(filled, rt) == Ok(derived) && derived.Valid()
    ensures out == DropId(derived) && out.data == derived.data - {"Loan_ID"}
  {
    filled := FillMissing(stats, df).value;
    derived := Engineer(filled, rt).value;
  }

  /** transform raises unless the columns it reads are all there. */
  lemma TransformNeedsColumns(stats: Stats, df: Frame, out: Frame, rt: Runtime)
    requires df.Valid() && Transformed(stats, df, rt) == Ok(out)
    ensures forall c :: c in RequiredColumns ==> c in df.data
  {
    var filled, derived := Steps(stats, df, out, rt);
    RequiredColumnsAre();
  }

  /** transform raises KeyError for the first fitted column the table lacks, in the
      order of the fills, before anything else is read. */
  lemma {:induction false} TransformRaisesFirstAbsent(stats: Stats, df: Frame, rt: Runtime, j: nat)
    requires df.Valid() && j < |Fills| && Fills[j].column !in df.data
    requires forall k :: 0 <= k < j ==> Fills[k].column in df.data
    ensures FillMissing(stats, df) == Err(KeyError(Fills[j].column))
    ensures Transformed(stats, df, rt) == Err(KeyError(Fills[j].column))
  {
    if j > 0 {
      assert Fills[0].column == "Gender" && "Gender" in df.data;
      var df1 := FillColumn(df, GenderFill.column, StatOr(stats, GenderFill)).value;
      if j > 1 {
        assert Fills[1].column == "Married" && "Married" in df1.data;
        var df2 := FillColumn(df1, MarriedFill.column, StatOr(stats, MarriedFill)).value;
        if j > 2 {
          assert Fills[2].column == "LoanAmount" && "LoanAmount" in df2.data;
        }
      }
    }
  }

  /** The first two fills read Gender and then Married. */
  lemma TransformNeedsGenderFirst(stats: Stats, df: Frame, rt: Runtime)
    requires df.Valid()
    ensures "Gender" !in df.data ==> Transformed(stats, df, rt) == Err(KeyError("Gender"))
    ensures "Gender" in df.data && "Married" !in df.data ==> Transformed(stats, df, rt) == Err(KeyError("Married"))
  {
    assert Fills[0].column == "Gender" && Fills[1].column == "Married";
    if "Gender" !in df.data {
      TransformRaisesFirstAbsent(stats, df, rt, 0);
    } else if "Married" !in df.data {
      TransformRaisesFirstAbsent(stats, df, rt, 1);
    }
  }

  lemma RequiredColumnsAre()
    ensures forall c :: c in RequiredColumns <==>
      c in FilledColumns || c == "ApplicantIncome" || c == "CoapplicantIncome" || c == "Loan_Amount_Term"
  {
  }

  /** A fitted column leaves transform as it left the fill. */
  lemma FilledColumnKept(stats: Stats, df: Frame, out: Frame, rt: Runtime, f: Fill)
    requires df.Valid() && Transformed(stats, df, rt) == Ok(out) && f in Fills
    ensures f.column in df.data && f.column in out.data
    ensures out.data[f.column] == FillNa(df.data[f.column], StatOr(stats, f))
  {
    var filled, derived := Steps(stats, df, out, rt);
    ColumnNamesDistinct();
    assert derived.data[f.column] == filled.data[f.column];
  }

  /** Only missing cells of a fitted column are replaced: a present value is kept, a
      missing one becomes the fitted statistic, or its fallback before any fit. */
  lemma TransformFillsOnlyMissing(stats: Stats, df: Frame, out: Frame, rt: Runtime, f: Fill, i: nat)
    requires df.Valid() && Transformed(stats, df, rt) == Ok(out) && f in Fills && i < df.rows
    ensures f.column in df.data && f.column in out.data
    ensures out.data[f.column][i] ==
      if df.data[f.column][i].Missing? then StatOr(stats, f) else df.data[f.column][i]
  {
    FilledColumnKept(stats, df, out, rt, f);
    var col := df.data[f.column];
    assert |col| == df.rows;
  }

  /** Only a missing term is replaced, and by 360. */
  lemma TransformDefaultsTerm(stats: Stats, df: Frame, out: Frame, rt: Runtime, i: nat)
    requires df.Valid() && Transformed(stats, df, rt) == Ok(out) && i < df.rows
    ensures "Loan_Amount_Term" in df.data
    ensures out.data["Loan_Amount_Term"][i] ==
      if df.data["Loan_Amount_Term"][i].Missing? then Num(DefaultTerm) else df.data["Loan_Amount_Term"][i]
  {
    var filled, derived := Steps(stats, df, out, rt);
    ColumnNamesDistinct();
    assert filled.data["Loan_Amount_Term"] == df.data["Loan_Amount_Term"];
  }

  /** Before any fit, missing Gender, Married, LoanAmount and Credit_History become
      Male, Yes, 120 and 1.0. */
  lemma UnfittedFallbacks(df: Frame, out: Frame, rt: Runtime, i: nat)
    requires df.Valid() && Transformed(map[], df, rt) == Ok(out) && i < df.rows
    ensures && (df.data["Gender"][i].Missing? ==> out.data["Gender"][i] == Str("Male"))
      && (df.data["Married"][i].Missing? ==> out.data["Married"][i] == Str("Yes"))
      && (df.data["LoanAmount"][i].Missing? ==> out.data["LoanAmount"][i] == Num(120.0))
      && (df.data["Credit_History"][i].Missing? ==> out.data["Credit_History"][i] == Num(1.0))
  {
    assert GenderFill in Fills && MarriedFill in Fills && AmountFill in Fills && CreditFill in Fills;
    TransformFillsOnlyMissing(map[], df, out, rt, GenderFill, i);
    TransformFillsOnlyMissing(map[], df, out, rt, MarriedFill, i);
    TransformFillsOnlyMissing(map[], df, out, rt, AmountFill, i);
    TransformFillsOnlyMissing(map[], df, out, rt, CreditFill, i);
  }

  /** The derived columns: Total_Income is the sum of the two incomes, EMI the filled
      amount over the filled term, Total_Income_Log the logarithm of Total_Income + 1. */
  lemma TransformDerives(stats: Stats, df: Frame, out: Frame, rt: Runtime, i: nat)
    requires df.Valid() && Transformed(stats, df, rt) == Ok(out) && i < df.rows
    ensures && AddCells(df.data["ApplicantIncome"][i], df.data["CoapplicantIncome"][i]) == Ok(out.data["Total_Income"][i])
      && DivCells(out.data["LoanAmount"][i], out.data["Loan_Amount_Term"][i]) == Ok(out.data["EMI"][i])
      && LogOnePlus(out.data["Total_Income"][i], rt.ln) == Ok(out.data["Total_Income_Log"][i])
  {
    var filled, derived := Steps(stats, df, out, rt);
    ColumnNamesDistinct();
    assert filled.data["ApplicantIncome"] == df.data["ApplicantIncome"];
    assert filled.data["CoapplicantIncome"] == df.data["CoapplicantIncome"];
    assert derived.data["LoanAmount"] == filled.data["LoanAmount"];
  }

  /** On numbers, Total_Income is the sum of the incomes and Total_Income_Log the
      natural logarithm of that sum plus one. */
  lemma TransformIncomeArithmetic(stats: Stats, df: Frame, out: Frame, rt: Runtime, i: nat)
    requires df.Valid() && Transformed(stats, df, rt) == Ok(out) && i < df.rows
    requires df.data["ApplicantIncome"][i].Num? && df.data["CoapplicantIncome"][i].Num?
    ensures var total := df.data["ApplicantIncome"][i].x + df.data["CoapplicantIncome"][i].x;
      && out.data["Total_Income"][i] == Num(total)
      && (total + 1.0 > 0.0 ==> out.data["Total_Income_Log"][i] == Num(rt.ln(total + 1.0)))
  {
    TransformDerives(stats, df, out, rt, i);
  }

  /** On numbers, EMI is amount / term when the term is not zero; a zero term gives an
      infinite (or, for a zero amount, NaN) EMI rather than an exception. */
  lemma TransformEmiArithmetic(stats: Stats, df: Frame, out: Frame, rt: Runtime, i: nat)
    requires df.Valid() && Transformed(stats, df, rt) == Ok(out) && i < df.rows
    requires out.data["LoanAmount"][i].Num?
    requires out.data["Loan_Amount_Term"][i].Num?
    ensures var amount, term := out.data["LoanAmount"][i].x, out.data["Loan_Amount_Term"][i].x;
      out.data["EMI"][i] == if term != 0.0 then Num(amount / term) else if amount == 0.0 then Missing else NonFinite
  {
    TransformDerives(stats, df, out, rt, i);
  }

  /** A zero term stays zero, and EMI divides a present amount by it: NaN for a zero
      amount, infinite otherwise. */
  lemma ZeroTermEmi(stats: Stats, df: Frame, out: Frame, rt: Runtime, i: nat)
    requires df.Valid() && Transformed(stats, df, rt) == Ok(out) && i < df.rows
    requires "Loan_Amount_Term" in df.data && df.data["Loan_Amount_Term"][i] == Num(0.0)
    requires "LoanAmount" in df.data && df.data["LoanAmount"][i].Num?
    ensures "Loan_Amount_Term" in out.data && "LoanAmount" in out.data && "EMI" in out.data
    ensures out.data["Loan_Amount_Term"][i] == Num(0.0) && out.data["LoanAmount"][i] == df.data["LoanAmount"][i]
    ensures out.data["EMI"][i] == if df.data["LoanAmount"][i].x == 0.0 then Missing else NonFinite
  {
    TransformDefaultsTerm(stats, df, out, rt, i);
    assert AmountFill in Fills;
    TransformFillsOnlyMissing(stats, df, out, rt, AmountFill, i);
    TransformEmiArithmetic(stats, df, out, rt, i);
  }

  /** Every column transform does not write keeps its values, and Loan_ID is gone. */
  lemma TransformKeepsOtherColumns(stats: Stats, df: Frame, out: Frame, rt: Runtime)
    requires df.Valid() && Transformed(stats, df, rt) == Ok(out)
    ensures && "Loan_ID" !in out.data
      && out.rows == df.rows
      && forall c :: c in df.data && c !in WrittenColumns && c != "Loan_ID" ==> c in out.data && out.data[c] == df.data[c]
  {
    var filled, derived := Steps(stats, df, out, rt);
    WrittenColumnsCover();
  }

  lemma WrittenColumnsCover()
    ensures forall c :: c !in WrittenColumns ==> c !in FilledColumns && c !in DerivedColumns && c != "Loan_Amount_Term"
  {
  }

  /** The tables transform accepts: the seven columns it reads are there, neither income
      holds text, the filled loan amount holds no text, and a text term meets only a NaN
      amount, which pandas' division passes through as NaN. */
  predicate Transformable(stats: Stats, df: Frame)
    requires df.Valid()
  {
    && "Gender" in df.data && "Married" in df.data && "LoanAmount" in df.data && "Credit_History" in df.data
    && "ApplicantIncome" in df.data && "CoapplicantIncome" in df.data && "Loan_Amount_Term" in df.data
    && forall i :: 0 <= i < df.rows ==>
      && !df.data["ApplicantIncome"][i].Str? && !df.data["CoapplicantIncome"][i].Str?
      && !FillNa(df.data["LoanAmount"], StatOr(stats, AmountFill))[i].Str?
      && (df.data["Loan_Amount_Term"][i].Str? ==> FillNa(df.data["LoanAmount"], StatOr(stats, AmountFill))[i].Missing?)
  }

  /** transform succeeds exactly on the tables it accepts. */
  lemma {:induction false} TransformSucceeds(stats: Stats, df: Frame, rt: Runtime)
    requires df.Valid()
    ensures Transformed(stats, df, rt).Ok? <==> Transformable(stats, df)
  {
    if Transformed(stats, df, rt).Ok? {
      TransformedIsTransformable(stats, df, Transformed(stats, df, rt).value, rt);
    } else if Transformable(stats, df) {
      ColumnNamesDistinct();
      assert FillMissing(stats, df).Ok?;
      var filled := FillMissing(stats, df).value;
      assert filled.data["LoanAmount"] == FillNa(df.data["LoanAmount"], StatOr(stats, AmountFill));
      EngineerSucceeds(filled, rt);
      assert false;
    }
  }

  lemma TransformedIsTransformable(stats: Stats, df: Frame, out: Frame, rt: Runtime)
    requires df.Valid() && Transformed(stats, df, rt) == Ok(out)
    ensures Transformable(stats, df)
  {
    TransformNeedsColumns(stats, df, out, rt);
    forall i | 0 <= i < df.rows
      ensures && !df.data["ApplicantIncome"][i].Str? && !df.data["CoapplicantIncome"][i].Str?
        && !FillNa(df.data["LoanAmount"], StatOr(stats, AmountFill))[i].Str?
        && (df.data["Loan_Amount_Term"][i].Str? ==> FillNa(df.data["LoanAmount"], StatOr(stats, AmountFill))[i].Missing?)
    {
      TransformedRowAccepted(stats, df, out, rt, i);
    }
  }

  lemma TransformedRowAccepted(stats: Stats, df: Frame, out: Frame, rt: Runtime, i: nat)
    requires df.Valid() && Transformed(stats, df, rt) == Ok(out) && i < df.rows
    ensures "ApplicantIncome" in df.data && "CoapplicantIncome" in df.data && "LoanAmount" in df.data && "Loan_Amount_Term" in df.data
    ensures && !df.data["ApplicantIncome"][i].Str? && !df.data["CoapplicantIncome"][i].Str?
      && !FillNa(df.data["LoanAmount"], StatOr(stats, AmountFill))[i].Str?
      && (df.data["Loan_Amount_Term"][i].Str? ==> FillNa(df.data["LoanAmount"], StatOr(stats, AmountFill))[i].Missing?)
  {
    TransformNeedsColumns(stats, df, out, rt);
    assert AmountFill in Fills;
    FilledColumnKept(stats, df, out, rt, AmountFill);
    TransformDerives(stats, df, out, rt, i);
    TransformDefaultsTerm(stats, df, out, rt, i);
    var total := out.data["Total_Income"][i];
    assert !total.Str?;
  }

  /** Step 2 succeeds when neither income holds text, the amount holds no text, and a
      text term meets only a NaN amount. */
  lemma EngineerSucceeds(df: Frame, rt: Runtime)
    requires df.Valid()
    requires "ApplicantIncome" in df.data && "CoapplicantIncome" in df.data && "LoanAmount" in df.data && "Loan_Amount_Term" in df.data
    requires forall i :: 0 <= i < df.rows ==>
      && !df.data["ApplicantIncome"][i].Str? && !df.data["CoapplicantIncome"][i].Str? && !df.data["LoanAmount"][i].Str?
      && (df.data["Loan_Amount_Term"][i].Str? ==> df.data["LoanAmount"][i].Missing?)
    ensures Engineer(df, rt).Ok?
  {
    var income, coincome := df.data["ApplicantIncome"], df.data["CoapplicantIncome"];
    var total := ZipCells(income, coincome, AddCells);
    assert total.Ok?;
    var df1 := df.Set("Total_Income", total.value);
    var df2 := FillColumn(df1, "Loan_Amount_Term", Num(DefaultTerm)).value;
    assert df2.data["LoanAmount"] == df.data["LoanAmount"];
    var amount, term := df2.data["LoanAmount"], df2.data["Loan_Amount_Term"];
    var emi := ZipCells(amount, term, DivCells);
    assert emi.Ok?;
    var df3 := df2.Set("EMI", emi.value);
    assert df3.data["Total_Income"] == total.value;
    assert LogCells(total.value, rt.ln).Ok? by {
      forall i | 0 <= i < |total.value| ensures LogOnePlus(total.value[i], rt.ln).Ok? {
        assert AddCells(income[i], coincome[i]) == Ok(total.value[i]);
      }
    }
  }

  /** Filling a table whose fitted columns are already filled changes nothing. */
  lemma FillMissingReproduces(stats: Stats, df: Frame, filled: Frame, g: Frame)
    requires df.Valid() && FillMissing(stats, df) == Ok(filled)
    requires g.Valid() && forall c :: c in FilledColumns ==> c in g.data && g.data[c] == filled.data[c]
    ensures FillMissing(stats, g) == Ok(g)
  {
    ColumnNamesDistinct();
    forall f | f in Fills
      ensures FillNa(g.data[f.column], StatOr(stats, f)) == g.data[f.column]
    {
      FillNaIdempotent(df.data[f.column], StatOr(stats, f));
    }
    assert GenderFill in Fills && MarriedFill in Fills && AmountFill in Fills && CreditFill in Fills;
    g.SetSame(GenderFill.column);
    g.SetSame(MarriedFill.column);
    g.SetSame(AmountFill.column);
    g.SetSame(CreditFill.column);
  }

  /** Deriving again from a table whose inputs and derived columns are those of an
      earlier derivation reproduces that table. */
  lemma EngineerReproduces(df: Frame, derived: Frame, g: Frame, rt: Runtime)
    requires df.Valid() && Engineer(df, rt) == Ok(derived)
    requires g.Valid() && g.rows == df.rows
    requires forall c :: c in {"ApplicantIncome", "CoapplicantIncome", "LoanAmount", "Loan_Amount_Term"} + DerivedColumns ==>
      c in g.data && g.data[c] == derived.data[c]
    ensures Engineer(g, rt) == Ok(g)
  {
    ColumnNamesDistinct();
    assert "LoanAmount" !in DerivedColumns;
    var income, coincome, amount := g.data["ApplicantIncome"], g.data["CoapplicantIncome"], g.data["LoanAmount"];
    var term, total, emi, logs := g.data["Loan_Amount_Term"], g.data["Total_Income"], g.data["EMI"], g.data["Total_Income_Log"];
    assert income == df.data["ApplicantIncome"] && coincome == df.data["CoapplicantIncome"] && amount == df.data["LoanAmount"];
    ZipCellsYields(income, coincome, AddCells, total);
    g.SetSame("Total_Income");
    FillNaIdempotent(df.data["Loan_Amount_Term"], Num(DefaultTerm));
    assert FillNa(term, Num(DefaultTerm)) == term;
    g.SetSame("Loan_Amount_Term");
    ZipCellsYields(amount, term, DivCells, emi);
    g.SetSame("EMI");
    LogCellsYields(total, rt.ln, logs);
    g.SetSame("Total_Income_Log");
  }

  /** Dropping Loan_ID keeps the columns a derivation read and wrote. */
  lemma EngineerInputsKept(df: Frame, derived: Frame, out: Frame)
    requires "ApplicantIncome" in df.data && "CoapplicantIncome" in df.data && "LoanAmount" in df.data && "Loan_Amount_Term" in df.data
    requires derived.data.Keys == df.data.Keys + DerivedColumns && out.data == derived.data - {"Loan_ID"}
    ensures forall c :: c in {"ApplicantIncome", "CoapplicantIncome", "LoanAmount", "Loan_Amount_Term"} + DerivedColumns ==>
      c in out.data && out.data[c] == derived.data[c]
  {
    ColumnNamesDistinct();
    assert "Loan_ID" != "ApplicantIncome" && "Loan_ID" != "CoapplicantIncome";
  }

  /** With the statistics fixed, transforming a transformed table gives it back unchanged. */
  lemma TransformIdempotent(stats: Stats, df: Frame, out: Frame, rt: Runtime)
    requires df.Valid() && Transformed(stats, df, rt) == Ok(out)
    ensures out.Valid() && Transformed(stats, out, rt) == Ok(out)
  {
    var filled, derived := Steps(stats, df, out, rt);
    ColumnNamesDistinct();
    FillMissingReproduces(stats, df, filled, out);
    EngineerInputsKept(filled, derived, out);
    EngineerReproduces(filled, derived, out, rt);
    assert DropId(out) == out;
  }
}
