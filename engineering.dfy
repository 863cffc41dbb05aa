/**
 * Step 1 of a prediction request: the 13 clinical fields read from the form,
 * two product features, the age and cholesterol bins, and their one-hot
 * indicators.
 */
module Engineering {
  import opened Wrappers
  import opened Dicts
  import opened Frames
  import opened Binning
  import opened OneHot
  import opened Numerals

  /** The form fields, in the order the record is built. */
  const FeatureNames: seq<string> :=
    ["age", "sex", "cp", "trestbps", "chol", "fbs", "restecg",
     "thalach", "exang", "oldpeak", "slope", "ca", "thal"]

  /** The names of the four columns the engineering steps assign. */
  const ThalachOldpeak: string := "thalach_oldpeak"
  const CpTrestbps: string := "cp_trestbps"
  const AgeBins: string := "age_bins"
  const CholBins: string := "chol_bins"

  /** The categorical columns that are one-hot encoded. */
  const BinColumns: seq<string> := [AgeBins, CholBins]

  /** The columns of every engineered row, in order. */
  const EngineeredColumns: seq<string> :=
    FeatureNames + ["thalach_oldpeak", "cp_trestbps"]
    + ["age_bins_0", "age_bins_1", "age_bins_2", "age_bins_3"]
    + ["chol_bins_0", "chol_bins_1", "chol_bins_2"]

  /** The raw input: all 13 fields, each a number. */
  datatype Record = Record(
    age: real, sex: real, cp: real, trestbps: real, chol: real, fbs: real, restecg: real,
    thalach: real, exang: real, oldpeak: real, slope: real, ca: real, thal: real)

  /** The field values in the order of `FeatureNames`. */
  function Values(raw: Record): (v: seq<real>)
    ensures |v| == |FeatureNames|
  {
    [raw.age, raw.sex, raw.cp, raw.trestbps, raw.chol, raw.fbs, raw.restecg,
     raw.thalach, raw.exang, raw.oldpeak, raw.slope, raw.ca, raw.thal]
  }

  /** The record as the dict `raw` of the source, keyed by field name in form order. */
  function Entries(raw: Record): (d: Dict<real>)
    ensures Keys(d) == FeatureNames
    ensures forall i :: 0 <= i < |FeatureNames| ==> d[i].1 == Values(raw)[i]
  {
    seq(|FeatureNames|, i requires 0 <= i < |FeatureNames| => (FeatureNames[i], Values(raw)[i]))
  }

  /**
   * `{f: form[f] for f in features}` over already parsed form values: the
   * record of the 13 fields, or None (a KeyError) when one is missing.
   */
  function RawRecord(form: map<string, real>): (r: Option<Record>)
    ensures r.Some? <==> forall f :: f in FeatureNames ==> f in form
    ensures r.Some? ==> forall i :: 0 <= i < |FeatureNames| ==> Values(r.value)[i] == form[FeatureNames[i]]
  {
    if forall f :: f in FeatureNames ==> f in form then
      Some(Record(form["age"], form["sex"], form["cp"], form["trestbps"], form["chol"],
                  form["fbs"], form["restecg"], form["thalach"], form["exang"],
                  form["oldpeak"], form["slope"], form["ca"], form["thal"]))
    else None
  }

  /** The four columns assigned after the record's own, in assignment order. */
  function Derived(raw: Record): Row {
    [ (ThalachOldpeak, Num(raw.thalach * raw.oldpeak)),
      (CpTrestbps, Num(raw.cp * raw.trestbps)),
      (AgeBins, Category(AgeBin(raw.age), AgeLevels)),
      (CholBins, Category(CholBin(raw.chol), CholLevels)) ]
  }

  /** The frame after the four column assignments, before `get_dummies`. */
  function Assigned(raw: Record): Row {
    FromRecord(Entries(raw)) + Derived(raw)
  }

  /** The engineered row of a raw record. */
  function EngineeredRow(raw: Record): Row {
    AssignedEncodable(raw);
    GetDummies(Assigned(raw), BinColumns)
  }

  /** The assigned columns are new: none is a form field. */
  lemma NewColumnsFresh()
    ensures forall c :: c in ["thalach_oldpeak", "cp_trestbps", "age_bins", "chol_bins"] ==> c !in FeatureNames
    ensures CpTrestbps !in FeatureNames + [ThalachOldpeak]
    ensures AgeBins !in FeatureNames + [ThalachOldpeak] + [CpTrestbps]
    ensures CholBins !in FeatureNames + [ThalachOldpeak] + [CpTrestbps] + [AgeBins]
  {
  }

  lemma EncodableBins(a: Row)
    requires Get(a, "age_bins").Some? && Get(a, "age_bins").value.Category?
    requires Get(a, "chol_bins").Some? && Get(a, "chol_bins").value.Category?
    ensures Encodable(a, BinColumns)
  {
  }

  lemma AssignedEncodable(raw: Record)
    ensures Encodable(Assigned(raw), BinColumns)
  {
    var d := Derived(raw);
    var base := FromRecord(Entries(raw));
    assert Keys(base) == FeatureNames;
    NewColumnsFresh();
    GetAppendAll(base, d, "age_bins");
    GetAppendAll(base, d, "chol_bins");
    assert Get(d, "age_bins") == Get(d[1..], "age_bins") == Get(d[2..], "age_bins");
    assert Get(d, "chol_bins") == Get(d[1..], "chol_bins") == Get(d[2..], "chol_bins") == Get(d[3..], "chol_bins");
    assert Assigned(raw) == base + d;
    EncodableBins(Assigned(raw));
  }

  /** The digits of the indicator names. */
  lemma DummyNamesSpelled()
    ensures DummyNames("age_bins", AgeLevels) == ["age_bins_0", "age_bins_1", "age_bins_2", "age_bins_3"]
    ensures DummyNames("chol_bins", CholLevels) == ["chol_bins_0", "chol_bins_1", "chol_bins_2"]
  {
    assert NatToString(0) == "0" && NatToString(1) == "1";
    assert NatToString(2) == "2" && NatToString(3) == "3";
    assert DummyName("age_bins", 0) == "age_bins_0";
    assert DummyName("age_bins", 1) == "age_bins_1";
    assert DummyName("age_bins", 2) == "age_bins_2";
    assert DummyName("age_bins", 3) == "age_bins_3";
    assert DummyName("chol_bins", 0) == "chol_bins_0";
    assert DummyName("chol_bins", 1) == "chol_bins_1";
    assert DummyName("chol_bins", 2) == "chol_bins_2";
  }

  /** Dropping the last two of four entries, whose keys are the listed ones. */
  lemma DropLastTwo<V>(d: Dict<V>, cols: seq<string>)
    requires |d| == 4
    requires d[0].0 !in cols && d[1].0 !in cols && d[2].0 in cols && d[3].0 in cols
    ensures Drop(d, cols) == d[..2]
  {
    assert Drop(d[3..], cols) == Drop(d[4..], cols) == [];
    assert Drop(d[2..], cols) == [];
    assert Drop(d[1..], cols) == [d[1]] + Drop(d[2..], cols);
    assert Drop(d, cols) == [d[0]] + Drop(d[1..], cols);
  }

  /** Encoding two columns: the first one's indicators, then the second one's. */
  lemma EncodeTwo(a: Row, c1: string, c2: string)
    requires Encodable(a, [c1, c2])
    ensures EncodeColumns(a, [c1, c2]) ==
            Dummies(c1, Get(a, c1).value.bin, Get(a, c1).value.levels)
            + Dummies(c2, Get(a, c2).value.bin, Get(a, c2).value.levels)
  {
    assert [c1, c2][1..] == [c2] && [c2][1..] == [];
    var t := Dummies(c2, Get(a, c2).value.bin, Get(a, c2).value.levels);
    assert EncodeColumns(a, [c2]) == t + EncodeColumns(a, []) == t;
  }

  /** The four assigned columns: two kept, the two bin columns encoded. */
  lemma DerivedColumns(raw: Record)
    ensures Drop(Derived(raw), BinColumns) == Derived(raw)[..2]
    ensures Get(Derived(raw), "age_bins") == Some(Category(AgeBin(raw.age), AgeLevels))
    ensures Get(Derived(raw), "chol_bins") == Some(Category(CholBin(raw.chol), CholLevels))
  {
    var d := Derived(raw);
    DropLastTwo(d, BinColumns);
    assert Get(d, "age_bins") == Get(d[1..], "age_bins") == Get(d[2..], "age_bins");
    assert Get(d, "chol_bins") == Get(d[1..], "chol_bins") == Get(d[2..], "chol_bins") == Get(d[3..], "chol_bins");
  }

  /** `get_dummies` keeps the record and the two products, in order. */
  lemma AssignedKept(raw: Record)
    ensures Drop(Assigned(raw), BinColumns) == FromRecord(Entries(raw)) + Derived(raw)[..2]
  {
    var base, d := FromRecord(Entries(raw)), Derived(raw);
    assert Keys(base) == FeatureNames;
    NewColumnsFresh();
    DropNothing(base, BinColumns);
    DropAppend(base, d, BinColumns);
    DerivedColumns(raw);
  }

  /** `get_dummies` appends the age indicators, then the cholesterol indicators. */
  lemma AssignedEncoded(raw: Record)
    ensures Encodable(Assigned(raw), BinColumns)
    ensures EncodeColumns(Assigned(raw), BinColumns) ==
            Dummies("age_bins", AgeBin(raw.age), AgeLevels)
            + Dummies("chol_bins", CholBin(raw.chol), CholLevels)
  {
    var base, d := FromRecord(Entries(raw)), Derived(raw);
    AssignedEncodable(raw);
    assert Keys(base) == FeatureNames;
    NewColumnsFresh();
    DerivedColumns(raw);
    GetAppendAll(base, d, "age_bins");
    GetAppendAll(base, d, "chol_bins");
    EncodeTwo(Assigned(raw), "age_bins", "chol_bins");
  }

  /** The engineered row is the record, the two products, then the age and the cholesterol indicators. */
  lemma EngineeredShape(raw: Record)
    ensures EngineeredRow(raw) ==
            FromRecord(Entries(raw)) + Derived(raw)[..2]
            + Dummies("age_bins", AgeBin(raw.age), AgeLevels)
            + Dummies("chol_bins", CholBin(raw.chol), CholLevels)
  {
    AssignedKept(raw);
    AssignedEncoded(raw);
  }

  /** Every engineered cell is a number: the categorical bins were replaced by their indicators. */
  lemma EngineeredNumeric(raw: Record)
    ensures AllNumeric(EngineeredRow(raw))
  {
    EngineeredShape(raw);
    var f := FromRecord(Entries(raw));
    var p := Derived(raw)[..2];
    var ages := Dummies("age_bins", AgeBin(raw.age), AgeLevels);
    var chols := Dummies("chol_bins", CholBin(raw.chol), CholLevels);
    assert p[0].1.Num? && p[1].1.Num?;
    NumericAppend(f, p);
    NumericAppend(f + p, ages);
    NumericAppend(f + p + ages, chols);
  }

  /** A typical request: the products, and which age and cholesterol indicators are set. */
  lemma ExampleRequest()
    ensures var e := EngineeredRow(Record(63.0, 1.0, 3.0, 145.0, 233.0, 1.0, 0.0, 150.0, 0.0, 2.3, 0.0, 0.0, 1.0));
            Get(e, "thalach_oldpeak") == Some(Num(345.0)) && Get(e, "cp_trestbps") == Some(Num(435.0)) &&
            Get(e, "age_bins_0") == Some(Num(0.0)) && Get(e, "age_bins_1") == Some(Num(0.0)) &&
            Get(e, "age_bins_2") == Some(Num(1.0)) && Get(e, "age_bins_3") == Some(Num(0.0)) &&
            Get(e, "chol_bins_0") == Some(Num(0.0)) && Get(e, "chol_bins_1") == Some(Num(1.0)) &&
            Get(e, "chol_bins_2") == Some(Num(0.0))
  {
    var raw := Record(63.0, 1.0, 3.0, 145.0, 233.0, 1.0, 0.0, 150.0, 0.0, 2.3, 0.0, 0.0, 1.0);
    EngineeredProducts(raw);
    EngineeredAgeIndicators(raw);
    EngineeredCholIndicators(raw);
    BinBoundaries();
    DummyNamesSpelled();
    assert DummyNames("age_bins", AgeLevels)[0] == DummyName("age_bins", 0);
    assert DummyNames("age_bins", AgeLevels)[1] == DummyName("age_bins", 1);
    assert DummyNames("age_bins", AgeLevels)[2] == DummyName("age_bins", 2);
    assert DummyNames("age_bins", AgeLevels)[3] == DummyName("age_bins", 3);
    assert DummyNames("chol_bins", CholLevels)[0] == DummyName("chol_bins", 0);
    assert DummyNames("chol_bins", CholLevels)[1] == DummyName("chol_bins", 1);
    assert DummyNames("chol_bins", CholLevels)[2] == DummyName("chol_bins", 2);
  }

  /** No two engineered columns share a name. */
  lemma EngineeredColumnsDistinct()
    ensures Distinct(EngineeredColumns)
    ensures forall c :: c in BinColumns ==> c !in EngineeredColumns
  {
    assert Distinct(EngineeredColumns);
    assert BinColumns == ["age_bins", "chol_bins"];
  }

  /**
   * Engineering always yields the same 22 columns in the same order: the 13
   * fields, `thalach_oldpeak`, `cp_trestbps`, `age_bins_0..3`, `chol_bins_0..2`;
   * the bin columns themselves are gone.
   */
  lemma EngineeredKeys(raw: Record)
    ensures Keys(EngineeredRow(raw)) == EngineeredColumns
    ensures UniqueKeys(EngineeredRow(raw))
    ensures forall c :: c in BinColumns ==> c !in Keys(EngineeredRow(raw))
  {
    var base, d := FromRecord(Entries(raw)), Derived(raw);
    var ages := Dummies("age_bins", AgeBin(raw.age), AgeLevels);
    var chols := Dummies("chol_bins", CholBin(raw.chol), CholLevels);
    EngineeredShape(raw);
    KeysAppend(base, d[..2]);
    KeysAppend(base + d[..2], ages);
    KeysAppend(base + d[..2] + ages, chols);
    assert Keys(base) == FeatureNames;
    assert Keys(d[..2]) == ["thalach_oldpeak", "cp_trestbps"];
    assert Keys(ages) == DummyNames("age_bins", AgeLevels);
    assert Keys(chols) == DummyNames("chol_bins", CholLevels);
    DummyNamesSpelled();
    EngineeredColumnsDistinct();
  }

  /** Position of the first age indicator in every engineered row. */
  const AgeStart: nat := 15
  /** Position of the first cholesterol indicator in every engineered row. */
  const CholStart: nat := 19

  /** Each column of the engineered row finds its own cell. */
  lemma EngineeredEntry(raw: Record, i: nat)
    requires i < |EngineeredColumns|
    ensures |EngineeredRow(raw)| == |EngineeredColumns|
    ensures Get(EngineeredRow(raw), EngineeredRow(raw)[i].0) == Some(EngineeredRow(raw)[i].1)
  {
    EngineeredKeys(raw);
    GetAt(EngineeredRow(raw), i);
  }

  /** Every field of the record is carried into the engineered row unchanged. */
  lemma EngineeredFields(raw: Record)
    ensures forall i :: 0 <= i < |FeatureNames| ==> Get(EngineeredRow(raw), FeatureNames[i]) == Some(Num(Values(raw)[i]))
  {
    var e := EngineeredRow(raw);
    EngineeredShape(raw);
    forall i | 0 <= i < |FeatureNames| ensures Get(e, FeatureNames[i]) == Some(Num(Values(raw)[i])) {
      assert e[i] == FromRecord(Entries(raw))[i];
      EngineeredEntry(raw, i);
    }
  }

  /** The product cells sit at positions 13 and 14, right after the record. */
  lemma EngineeredProductCells(raw: Record)
    ensures |EngineeredRow(raw)| == |EngineeredColumns|
    ensures EngineeredRow(raw)[13].0 == "thalach_oldpeak" && EngineeredRow(raw)[13].1 == Num(raw.thalach * raw.oldpeak)
    ensures EngineeredRow(raw)[14].0 == "cp_trestbps" && EngineeredRow(raw)[14].1 == Num(raw.cp * raw.trestbps)
  {
    EngineeredShape(raw);
    var base := FromRecord(Entries(raw));
    var front := base + Derived(raw)[..2];
    assert |base| == 13;
    assert front[13] == Derived(raw)[0] && front[14] == Derived(raw)[1];
    assert EngineeredRow(raw)[13] == front[13] && EngineeredRow(raw)[14] == front[14];
  }

  /** The two interaction features: `thalach_oldpeak = thalach * oldpeak`, `cp_trestbps = cp * trestbps`. */
  lemma EngineeredProducts(raw: Record)
    ensures Get(EngineeredRow(raw), "thalach_oldpeak") == Some(Num(raw.thalach * raw.oldpeak))
    ensures Get(EngineeredRow(raw), "cp_trestbps") == Some(Num(raw.cp * raw.trestbps))
  {
    EngineeredProductCells(raw);
    EngineeredEntry(raw, 13);
    EngineeredEntry(raw, 14);
  }

  /** Indicator k of the age group is 1 exactly when the age falls in age bin k, and 0 otherwise. */
  lemma EngineeredAgeIndicators(raw: Record)
    ensures forall k :: 0 <= k < AgeLevels ==>
              Get(EngineeredRow(raw), DummyName("age_bins", k)) == Some(Num(Indicator(AgeBin(raw.age) == Some(k))))
  {
    var e := EngineeredRow(raw);
    var ages := Dummies("age_bins", AgeBin(raw.age), AgeLevels);
    EngineeredShape(raw);
    forall k | 0 <= k < AgeLevels
      ensures Get(e, DummyName("age_bins", k)) == Some(Num(Indicator(AgeBin(raw.age) == Some(k))))
    {
      assert e[AgeStart + k] == ages[k];
      EngineeredEntry(raw, AgeStart + k);
    }
  }

  /** Indicator k of the cholesterol group is 1 exactly when the value falls in cholesterol bin k. */
  lemma EngineeredCholIndicators(raw: Record)
    ensures forall k :: 0 <= k < CholLevels ==>
              Get(EngineeredRow(raw), DummyName("chol_bins", k)) == Some(Num(Indicator(CholBin(raw.chol) == Some(k))))
  {
    var e := EngineeredRow(raw);
    var chols := Dummies("chol_bins", CholBin(raw.chol), CholLevels);
    EngineeredShape(raw);
    forall k | 0 <= k < CholLevels
      ensures Get(e, DummyName("chol_bins", k)) == Some(Num(Indicator(CholBin(raw.chol) == Some(k))))
    {
      assert e[CholStart + k] == chols[k];
      EngineeredEntry(raw, CholStart + k);
    }
  }

  /**
   * One-hot exclusivity: an age in (0,100] sets exactly one of the four age
   * indicators, any other age none; a cholesterol value in (0,600] sets exactly
   * one of the three cholesterol indicators, any other value none.
   */
  lemma EngineeredOneHot(raw: Record)
    ensures |EngineeredRow(raw)| == |EngineeredColumns|
    ensures HotCount(EngineeredRow(raw)[AgeStart..CholStart]) ==
            if 0.0 < raw.age <= 100.0 then 1 else 0
    ensures HotCount(EngineeredRow(raw)[CholStart..]) ==
            if 0.0 < raw.chol <= 600.0 then 1 else 0
  {
    var e := EngineeredRow(raw);
    var ages := Dummies("age_bins", AgeBin(raw.age), AgeLevels);
    var chols := Dummies("chol_bins", CholBin(raw.chol), CholLevels);
    EngineeredShape(raw);
    EngineeredKeys(raw);
    assert e[AgeStart..CholStart] == ages;
    assert e[CholStart..] == chols;
    DummiesHotCount("age_bins", AgeBin(raw.age), AgeLevels);
    DummiesHotCount("chol_bins", CholBin(raw.chol), CholLevels);
    AgeBinIntervals(raw.age);
    CholBinIntervals(raw.chol);
  }

  lemma FeatureNamesDistinct()
    ensures Distinct(FeatureNames)
  {
    EngineeredColumnsDistinct();
  }

  /** The frame built from a record: unique columns, and the fields the engineering steps read. */
  lemma RecordFrame(raw: Record)
    ensures UniqueKeys(FromRecord(Entries(raw)))
    ensures Get(FromRecord(Entries(raw)), "age") == Some(Num(raw.age))
    ensures Get(FromRecord(Entries(raw)), "cp") == Some(Num(raw.cp))
    ensures Get(FromRecord(Entries(raw)), "trestbps") == Some(Num(raw.trestbps))
    ensures Get(FromRecord(Entries(raw)), "chol") == Some(Num(raw.chol))
    ensures Get(FromRecord(Entries(raw)), "thalach") == Some(Num(raw.thalach))
    ensures Get(FromRecord(Entries(raw)), "oldpeak") == Some(Num(raw.oldpeak))
  {
    var f := FromRecord(Entries(raw));
    FeatureNamesDistinct();
    assert f[0].0 == "age" && f[2].0 == "cp" && f[3].0 == "trestbps";
    assert f[4].0 == "chol" && f[7].0 == "thalach" && f[9].0 == "oldpeak";
    GetAt(f, 0);
    GetAt(f, 2);
    GetAt(f, 3);
    GetAt(f, 4);
    GetAt(f, 7);
    GetAt(f, 9);
  }

  /**
   * The four assigned cells, given their values. The values are parameters,
   * rather than computed from `raw` here, so that `Engineer` can pass the ones
   * it read from the frame.
   */
  lemma DerivedIs(raw: Record, a: Value, b: Value, c: Value, e: Value)
    requires a == Num(raw.thalach * raw.oldpeak) && b == Num(raw.cp * raw.trestbps)
    requires c == Category(AgeBin(raw.age), AgeLevels) && e == Category(CholBin(raw.chol), CholLevels)
    ensures Derived(raw) == [(ThalachOldpeak, a), (CpTrestbps, b), (AgeBins, c), (CholBins, e)]
  {
    var d := Derived(raw);
    assert d[0].0 == ThalachOldpeak && d[0].1 == a;
    assert d[1].0 == CpTrestbps && d[1].1 == b;
    assert d[2].0 == AgeBins && d[2].1 == c;
    assert d[3].0 == CholBins && d[3].1 == e;
  }

  /**
   * The assigned frame as the record's frame with its four new columns
   * appended one by one. The factors of the products are parameters equal to
   * the record's fields so that `Engineer` can pass the values it read from
   * the frame, and the solver needs no reasoning about products of equals.
   */
  lemma AssignedSnoc(raw: Record, thalach: real, oldpeak: real, cp: real, trestbps: real, c: Value, e: Value)
    requires thalach == raw.thalach && oldpeak == raw.oldpeak && cp == raw.cp && trestbps == raw.trestbps
    requires c == Category(AgeBin(raw.age), AgeLevels) && e == Category(CholBin(raw.chol), CholLevels)
    ensures Assigned(raw) ==
            FromRecord(Entries(raw)) + [(ThalachOldpeak, Num(thalach * oldpeak))] +
            [(CpTrestbps, Num(cp * trestbps))] + [(AgeBins, c)] + [(CholBins, e)]
  {
    var a, b := Num(thalach * oldpeak), Num(cp * trestbps);
    DerivedIs(raw, a, b, c, e);
    assert [(ThalachOldpeak, a), (CpTrestbps, b), (AgeBins, c), (CholBins, e)] ==
           [(ThalachOldpeak, a)] + [(CpTrestbps, b)] + [(AgeBins, c)] + [(CholBins, e)];
  }

  /**
   * The engineering steps of a request on a frame changed in place, one column
   * assignment after another, then one-hot encoded: the result is the
   * engineered row.
   */
  method Engineer(raw: Record) returns (row: Row)
    ensures row == EngineeredRow(raw)
  {
    RecordFrame(raw);
    NewColumnsFresh();
    var df := new DataFrame(Entries(raw));
    ghost var s0 := df.cells;

    var thalach, oldpeak := df.Column("thalach").value.x, df.Column("oldpeak").value.x;
    assert thalach == raw.thalach && oldpeak == raw.oldpeak;
    var a := Num(thalach * oldpeak);
    SetNew(s0, ThalachOldpeak, a, FeatureNames);
    Kept(s0, ThalachOldpeak, a, "cp");
    Kept(s0, ThalachOldpeak, a, "trestbps");
    Kept(s0, ThalachOldpeak, a, "age");
    Kept(s0, ThalachOldpeak, a, "chol");
    df.SetItem(ThalachOldpeak, a);
    ghost var s1 := df.cells;

    var cp, trestbps := df.Column("cp").value.x, df.Column("trestbps").value.x;
    assert cp == raw.cp && trestbps == raw.trestbps;
    var b := Num(cp * trestbps);
    SetNew(s1, CpTrestbps, b, FeatureNames + [ThalachOldpeak]);
    Kept(s1, CpTrestbps, b, "age");
    Kept(s1, CpTrestbps, b, "chol");
    df.SetItem(CpTrestbps, b);
    ghost var s2 := df.cells;

    var c := Category(AgeBin(df.Column("age").value.x), AgeLevels);
    assert c == Category(AgeBin(raw.age), AgeLevels);
    SetNew(s2, AgeBins, c, FeatureNames + [ThalachOldpeak] + [CpTrestbps]);
    Kept(s2, AgeBins, c, "chol");
    df.SetItem(AgeBins, c);
    ghost var s3 := df.cells;

    var e := Category(CholBin(df.Column("chol").value.x), CholLevels);
    assert e == Category(CholBin(raw.chol), CholLevels);
    SetNew(s3, CholBins, e, FeatureNames + [ThalachOldpeak] + [CpTrestbps] + [AgeBins]);
    df.SetItem(CholBins, e);

    AssignedSnoc(raw, thalach, oldpeak, cp, trestbps, c, e);
    AssignedEncodable(raw);
    row := GetDummies(df.cells, BinColumns);
  }
}
