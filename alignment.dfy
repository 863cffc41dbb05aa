/**
 * `df.reindex(columns=expected_columns, fill_value=0)`: the engineered row
 * laid out on the column list the models were trained with.
 */
module Alignment {
  import opened Wrappers
  import opened Dicts
  import opened Frames

  /** The cell `reindex` puts under column `k`: the row's own cell, or the fill value 0. */
  function Fill(row: Row, k: string): Value {
    Get(row, k).GetOr(Num(0.0))
  }

  /** The row reindexed on `expected`: one cell per expected column, in that order. */
  function Reindex(row: Row, expected: seq<string>): (r: Row)
    ensures Keys(r) == expected
  {
    if expected == [] then []
    else [(expected[0], Fill(row, expected[0]))] + Reindex(row, expected[1..])
  }

  /** Position `i` of the reindexed row holds expected column `i` and its filled cell. */
  lemma {:induction false} ReindexAt(row: Row, expected: seq<string>, i: nat)
    requires i < |expected|
    ensures |Reindex(row, expected)| == |expected|
    ensures Reindex(row, expected)[i] == (expected[i], Fill(row, expected[i]))
  {
    if i > 0 {
      ReindexAt(row, expected[1..], i - 1);
    }
  }

  /** Reading an expected column of the reindexed row gives the row's cell, or 0 when the row lacks it. */
  lemma {:induction false} ReindexGet(row: Row, expected: seq<string>, k: string)
    requires k in expected
    ensures Get(Reindex(row, expected), k) == Some(Fill(row, k))
  {
    if expected[0] != k {
      ReindexGet(row, expected[1..], k);
    }
  }

  /** A column present in both keeps its value. */
  lemma ReindexPresent(row: Row, expected: seq<string>, k: string)
    requires k in expected && k in Keys(row)
    ensures Get(Reindex(row, expected), k) == Get(row, k)
  {
    ReindexGet(row, expected, k);
  }

  /** An expected column the row lacks is filled with 0. */
  lemma ReindexMissing(row: Row, expected: seq<string>, k: string)
    requires k in expected && k !in Keys(row)
    ensures Get(Reindex(row, expected), k) == Some(Num(0.0))
  {
    ReindexGet(row, expected, k);
  }

  /** A column that is not expected is dropped. */
  lemma ReindexDropped(row: Row, expected: seq<string>, k: string)
    requires k !in expected
    ensures Get(Reindex(row, expected), k) == None
  {
  }

  /** Reindexing twice on the same columns changes nothing the second time. */
  lemma ReindexIdempotent(row: Row, expected: seq<string>)
    ensures Reindex(Reindex(row, expected), expected) == Reindex(row, expected)
  {
    var r := Reindex(row, expected);
    var rr := Reindex(r, expected);
    forall i | 0 <= i < |expected| ensures rr[i] == r[i] {
      ReindexAt(r, expected, i);
      ReindexAt(row, expected, i);
      ReindexGet(row, expected, expected[i]);
    }
  }

  /** A row that already has exactly the expected columns, each once, is left as it is. */
  lemma ReindexIdentity(row: Row, expected: seq<string>)
    requires Keys(row) == expected && UniqueKeys(row)
    ensures Reindex(row, expected) == row
  {
    var r := Reindex(row, expected);
    forall i | 0 <= i < |expected| ensures r[i] == row[i] {
      ReindexAt(row, expected, i);
      GetAt(row, i);
    }
  }

  /** Reindexing a numeric row gives a numeric row: the filled cells are the number 0. */
  lemma ReindexNumeric(row: Row, expected: seq<string>)
    requires AllNumeric(row)
    ensures AllNumeric(Reindex(row, expected))
  {
    forall i | 0 <= i < |expected| ensures Reindex(row, expected)[i].1.Num? {
      ReindexAt(row, expected, i);
    }
  }
}
