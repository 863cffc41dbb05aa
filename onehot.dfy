/**
 * One-hot encoding of categorical columns, as `pd.get_dummies(df, columns=cols)`
 * does it: the listed columns are removed, the other columns keep their order,
 * and for each listed column, in list order, one indicator column per category
 * is appended, named `<column>_<category>`. A NaN cell sets no indicator.
 */
module OneHot {
  import opened Wrappers
  import opened Dicts
  import opened Numerals
  import opened Frames

  /** A boolean indicator as the number the transforms read (True is 1, False is 0). */
  function Indicator(b: bool): real {
    if b then 1.0 else 0.0
  }

  /** The indicator column of category `level` of column `prefix`. */
  function DummyName(prefix: string, level: nat): string {
    prefix + "_" + NatToString(level)
  }

  function DummyNames(prefix: string, levels: nat): (names: seq<string>)
    ensures |names| == levels
  {
    seq(levels, k requires 0 <= k < levels => DummyName(prefix, k))
  }

  /** The indicator columns of one categorical cell holding `bin`, out of `levels` categories. */
  function Dummies(prefix: string, bin: Option<nat>, levels: nat): (r: Row)
    ensures Keys(r) == DummyNames(prefix, levels)
  {
    seq(levels, k requires 0 <= k < levels => (DummyName(prefix, k), Num(Indicator(bin == Some(k)))))
  }

  /** The number of cells of `r` that are set (equal 1). */
  function HotCount(r: Row): nat {
    if r == [] then 0
    else HotCount(r[..|r| - 1]) + (if r[|r| - 1].1 == Num(1.0) then 1 else 0)
  }

  /** Different categories of one column get different indicator names. */
  lemma DummyNamesDistinct(prefix: string, levels: nat)
    ensures Distinct(DummyNames(prefix, levels))
  {
    var names := DummyNames(prefix, levels);
    forall i, j | 0 <= i < j < levels ensures names[i] != names[j] {
      if names[i] == names[j] {
        var n := |prefix| + 1;
        assert names[i][n..] == NatToString(i);
        assert names[j][n..] == NatToString(j);
        NatToStringInjective(i, j);
      }
    }
  }

  /** A bin label among the categories sets exactly one indicator; NaN or any other label sets none. */
  lemma {:induction false} DummiesHotCount(prefix: string, bin: Option<nat>, levels: nat)
    ensures HotCount(Dummies(prefix, bin, levels)) ==
            if bin.Some? && bin.value < levels then 1 else 0
  {
    if levels > 0 {
      var r := Dummies(prefix, bin, levels);
      assert r[..levels - 1] == Dummies(prefix, bin, levels - 1);
      DummiesHotCount(prefix, bin, levels - 1);
    }
  }

  /**
   * The indicator of category k is 1 exactly when the cell holds k, and 0
   * otherwise; a label among the categories sets exactly one indicator of the
   * group, a NaN cell sets none.
   */
  lemma DummiesExclusive(prefix: string, bin: Option<nat>, levels: nat, k: nat)
    requires k < levels
    ensures Get(Dummies(prefix, bin, levels), DummyName(prefix, k)) ==
            Some(Num(if bin == Some(k) then 1.0 else 0.0))
    ensures HotCount(Dummies(prefix, bin, levels)) == (if bin.Some? && bin.value < levels then 1 else 0)
  {
    var r := Dummies(prefix, bin, levels);
    DummyNamesDistinct(prefix, levels);
    GetAt(r, k);
    DummiesHotCount(prefix, bin, levels);
  }

  /** Every listed column is present and categorical. */
  predicate Encodable(row: Row, cols: seq<string>) {
    forall c :: c in cols ==> Get(row, c).Some? && Get(row, c).value.Category?
  }

  /** The indicator columns of the listed columns, column after column. */
  function EncodeColumns(row: Row, cols: seq<string>): (r: Row)
    requires Encodable(row, cols)
  {
    if cols == [] then []
    else
      var cell := Get(row, cols[0]).value;
      Dummies(cols[0], cell.bin, cell.levels) + EncodeColumns(row, cols[1..])
  }

  /** `pd.get_dummies(row, columns=cols)`. */
  function GetDummies(row: Row, cols: seq<string>): Row
    requires Encodable(row, cols)
  {
    Drop(row, cols) + EncodeColumns(row, cols)
  }

  /**
   * `get_dummies` removes the encoded columns, and every other column of the
   * row keeps its cell (the indicators come after them).
   */
  lemma GetDummiesKept(row: Row, cols: seq<string>, k: string)
    requires Encodable(row, cols)
    ensures k in cols ==> k !in Keys(Drop(row, cols))
    ensures k !in cols && k in Keys(row) ==> Get(GetDummies(row, cols), k) == Get(row, k)
  {
    DropGet(row, cols, k);
    GetAppendAll(Drop(row, cols), EncodeColumns(row, cols), k);
  }
}
